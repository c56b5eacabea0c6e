/**
 * `SessionAnalyzer` (chat_session/utils.py): the flow analysis of one session's messages,
 * the depth of its conversation tree, and the favourite models of a user's sessions.
 * Messages are given in position order; times are whole seconds.
 */
module SessionAnalysis {
  import opened Wrappers
  import opened Entities
  import Ordering

  // ---------------------------------------------------------------- conversation flow

  /** The number of user messages. */
  function UserTurns(ms: seq<Message>): (n: nat)
    ensures n <= |ms|
  {
    if ms == [] then 0 else UserTurns(ms[..|ms| - 1]) + (if ms[|ms| - 1].role == ROLE_USER then 1 else 0)
  }

  /** The total content length of the user messages (`user`) or of all the others (`!user`). */
  function Lengths(ms: seq<Message>, user: bool): nat
  {
    if ms == [] then 0
    else Lengths(ms[..|ms| - 1], user) + (if (ms[|ms| - 1].role == ROLE_USER) == user then |ms[|ms| - 1].content| else 0)
  }

  /** `sum(lengths) / len(lengths)`, and 0 for no messages (rounding to two places left out). */
  function Average(total: nat, count: nat): real
  {
    if count == 0 then 0.0 else total as real / count as real
  }

  /** The time of the latest user message. */
  function LastUserTime(ms: seq<Message>): (t: Option<int>)
    ensures t.None? <==> UserTurns(ms) == 0
  {
    if ms == [] then None
    else if ms[|ms| - 1].role == ROLE_USER then Some(ms[|ms| - 1].createdAt)
    else LastUserTime(ms[..|ms| - 1])
  }

  /** One response time per non-user message that follows some user message: the seconds since the latest one. */
  function ResponseTimes(ms: seq<Message>): seq<int>
  {
    if ms == [] then []
    else
      var init := ms[..|ms| - 1];
      var m := ms[|ms| - 1];
      ResponseTimes(init) + (if m.role != ROLE_USER && LastUserTime(init).Some? then [m.createdAt - LastUserTime(init).value] else [])
  }

  datatype BranchPoint = BranchPoint(messageId: Id, position: int, parentCount: nat)

  /** The messages with more than one parent, in order. */
  function BranchingPoints(ms: seq<Message>): seq<BranchPoint>
  {
    if ms == [] then []
    else
      var m := ms[|ms| - 1];
      BranchingPoints(ms[..|ms| - 1]) + (if |m.parents| > 1 then [BranchPoint(m.id, m.position, |m.parents|)] else [])
  }

  /** Every message is either a turn or a response: a response time exists for each non-user message after the first turn. */
  lemma {:induction false} ResponseTimesCount(ms: seq<Message>)
    requires ms != [] && ms[0].role == ROLE_USER
    ensures |ResponseTimes(ms)| + UserTurns(ms) == |ms|
  {
    if |ms| > 1 {
      var init := ms[..|ms| - 1];
      assert init[0] == ms[0];
      ResponseTimesCount(init);
      assert UserTurns(init) > 0 by {
        assert init == init[..1] + init[1..];
        TurnsAtLeastFirst(init);
      }
    }
  }

  /** A sequence that starts with a user message has at least one turn. */
  lemma {:induction false} TurnsAtLeastFirst(ms: seq<Message>)
    requires ms != [] && ms[0].role == ROLE_USER
    ensures UserTurns(ms) >= 1
  {
    if |ms| > 1 {
      assert ms[..|ms| - 1][0] == ms[0];
      TurnsAtLeastFirst(ms[..|ms| - 1]);
    }
  }

  /** Response times never outnumber the non-user messages. */
  lemma {:induction false} ResponseTimesBound(ms: seq<Message>)
    ensures |ResponseTimes(ms)| + UserTurns(ms) <= |ms|
  {
    if ms != [] {
      ResponseTimesBound(ms[..|ms| - 1]);
    }
  }

  /** The branching points are exactly the messages with several parents, with their parent counts. */
  lemma {:induction false} BranchingPointsExact(ms: seq<Message>, id: Id)
    requires forall i, j :: 0 <= i < j < |ms| ==> ms[i].id != ms[j].id
    ensures (exists b :: b in BranchingPoints(ms) && b.messageId == id)
            <==> exists i :: 0 <= i < |ms| && ms[i].id == id && |ms[i].parents| > 1
    ensures forall b :: b in BranchingPoints(ms) ==> b.parentCount > 1
  {
    if ms != [] {
      var init := ms[..|ms| - 1];
      BranchingPointsExact(init, id);
      if exists i :: 0 <= i < |init| && init[i].id == id && |init[i].parents| > 1 {
        var i :| 0 <= i < |init| && init[i].id == id && |init[i].parents| > 1;
        assert ms[i] == init[i];
      }
      if exists i :: 0 <= i < |ms| && ms[i].id == id && |ms[i].parents| > 1 {
        var i :| 0 <= i < |ms| && ms[i].id == id && |ms[i].parents| > 1;
        if i < |ms| - 1 {
          assert init[i] == ms[i];
        }
      }
    }
  }

  datatype FlowAnalysis = FlowAnalysis(
    totalTurns: nat,
    userAverage: real,
    assistantAverage: real,
    responseTimes: seq<int>,
    depth: nat,
    branchingPoints: seq<BranchPoint>)

  /** The running state of the flow loop. */
  datatype FlowCounters = FlowCounters(turns: int, others: int, userTotal: int, otherTotal: int,
                                       lastUser: Option<int>, times: seq<int>, branching: seq<BranchPoint>)

  /** The flow counters after the first `i` messages. */
  ghost predicate FlowScanned(ms: seq<Message>, i: nat, c: FlowCounters)
  {
    i <= |ms|
    && var pre := ms[..i];
    && c.turns == UserTurns(pre) && c.others == i - c.turns
    && c.userTotal == Lengths(pre, true) && c.otherTotal == Lengths(pre, false)
    && c.lastUser == LastUserTime(pre)
    && c.times == ResponseTimes(pre) && c.branching == BranchingPoints(pre)
  }

  /** The flow counters after one more message. */
  lemma FlowAdvance(ms: seq<Message>, i: nat, c: FlowCounters, d: FlowCounters)
    requires i < |ms| && FlowScanned(ms, i, c)
    requires var m := ms[i];
      if m.role == ROLE_USER then
        d.turns == c.turns + 1 && d.others == c.others && d.userTotal == c.userTotal + |m.content|
        && d.otherTotal == c.otherTotal && d.lastUser == Some(m.createdAt) && d.times == c.times
      else
        d.turns == c.turns && d.others == c.others + 1 && d.userTotal == c.userTotal
        && d.otherTotal == c.otherTotal + |m.content| && d.lastUser == c.lastUser
        && d.times == (if c.lastUser.Some? then c.times + [m.createdAt - c.lastUser.value] else c.times)
    requires var m := ms[i];
      d.branching == if |m.parents| > 1 then c.branching + [BranchPoint(m.id, m.position, |m.parents|)] else c.branching
    ensures FlowScanned(ms, i + 1, d)
  {
    assert ms[..i + 1][..i] == ms[..i];
  }

  lemma FlowStart(ms: seq<Message>)
    ensures FlowScanned(ms, 0, FlowCounters(0, 0, 0, 0, None, [], []))
  {
    assert ms[..0] == [];
  }

  lemma FlowDone(ms: seq<Message>, c: FlowCounters)
    requires FlowScanned(ms, |ms|, c)
    ensures c.turns == UserTurns(ms) && c.others == |ms| - c.turns
    ensures c.userTotal == Lengths(ms, true) && c.otherTotal == Lengths(ms, false)
    ensures c.times == ResponseTimes(ms) && c.branching == BranchingPoints(ms)
  {
    assert ms[..|ms|] == ms;
  }

  /**
   * `analyze_conversation_flow`: one pass over the messages counts the turns, collects the
   * lengths on each side, the response times and the branching points; the depth comes from
   * `CalculateMaxDepth`. Averages are 0 for a side without messages.
   */
  method AnalyzeConversationFlow(ms: seq<Message>) returns (a: FlowAnalysis)
    ensures a.totalTurns == UserTurns(ms) && a.responseTimes == ResponseTimes(ms)
    ensures a.branchingPoints == BranchingPoints(ms) && a.depth == MaxDepth(ms)
    ensures a.userAverage == Average(Lengths(ms, true), UserTurns(ms))
    ensures a.assistantAverage == Average(Lengths(ms, false), |ms| - UserTurns(ms))
    ensures UserTurns(ms) == 0 ==> a.userAverage == 0.0
    ensures UserTurns(ms) == |ms| ==> a.assistantAverage == 0.0
  {
    var turns, others := 0, 0;
    var userTotal, otherTotal := 0, 0;
    var lastUser: Option<int> := None;
    var times: seq<int> := [];
    var branching: seq<BranchPoint> := [];
    FlowStart(ms);
    for i := 0 to |ms|
      invariant FlowScanned(ms, i, FlowCounters(turns, others, userTotal, otherTotal, lastUser, times, branching))
    {
      var m := ms[i];
      ghost var before := FlowCounters(turns, others, userTotal, otherTotal, lastUser, times, branching);
      if m.role == ROLE_USER {
        userTotal := userTotal + |m.content|;
        lastUser := Some(m.createdAt);
        turns := turns + 1;
      } else {
        otherTotal := otherTotal + |m.content|;
        others := others + 1;
        if lastUser.Some? {
          times := times + [m.createdAt - lastUser.value];
        }
      }
      if |m.parents| > 1 {
        branching := branching + [BranchPoint(m.id, m.position, |m.parents|)];
      }
      FlowAdvance(ms, i, before, FlowCounters(turns, others, userTotal, otherTotal, lastUser, times, branching));
    }
    FlowDone(ms, FlowCounters(turns, others, userTotal, otherTotal, lastUser, times, branching));
    var userAverage := if turns > 0 then userTotal as real / turns as real else 0.0;
    var otherAverage := if others > 0 then otherTotal as real / others as real else 0.0;
    assert userAverage == Average(Lengths(ms, true), UserTurns(ms));
    assert otherAverage == Average(Lengths(ms, false), |ms| - UserTurns(ms));
    var depth := CalculateMaxDepth(ms);
    a := FlowAnalysis(turns, userAverage, otherAverage, times, depth, branching);
  }

  // ---------------------------------------------------------------- tree depth

  /** `children_map`: each message's child ids, for the messages that have any. */
  function KidsOf(ms: seq<Message>): map<Id, seq<Id>>
  {
    if ms == [] then map[]
    else
      var kids := KidsOf(ms[..|ms| - 1]);
      var m := ms[|ms| - 1];
      if m.children == [] then kids
      else kids[m.id := (if m.id in kids then kids[m.id] else []) + m.children]
  }

  /** `root_messages`: the ids of the messages without parents, in order. */
  function RootsOf(ms: seq<Message>): seq<Id>
  {
    if ms == [] then []
    else RootsOf(ms[..|ms| - 1]) + (if ms[|ms| - 1].parents == [] then [ms[|ms| - 1].id] else [])
  }

  /**
   * What `dfs` returns for depth 1: the node count of the longest chain of children below
   * `id`, following at most `fuel` links.
   */
  function Height(kids: map<Id, seq<Id>>, id: Id, fuel: nat): (h: nat)
    ensures h >= 1
    decreases fuel, 0
  {
    if fuel == 0 || id !in kids then 1 else 1 + MaxHeight(kids, kids[id], fuel - 1)
  }

  /** The largest height among `ids`, 0 when there are none. */
  function MaxHeight(kids: map<Id, seq<Id>>, ids: seq<Id>, fuel: nat): nat
    decreases fuel, |ids| + 1
  {
    if ids == [] then 0
    else
      var rest := MaxHeight(kids, ids[..|ids| - 1], fuel);
      var h := Height(kids, ids[|ids| - 1], fuel);
      if rest < h then h else rest
  }

  lemma {:induction false} MaxHeightAtLeast(kids: map<Id, seq<Id>>, ids: seq<Id>, fuel: nat, i: nat)
    requires i < |ids|
    ensures Height(kids, ids[i], fuel) <= MaxHeight(kids, ids, fuel)
  {
    if i < |ids| - 1 {
      assert ids[..|ids| - 1][i] == ids[i];
      MaxHeightAtLeast(kids, ids[..|ids| - 1], fuel, i);
    }
  }

  lemma {:induction false} MaxHeightAttained(kids: map<Id, seq<Id>>, ids: seq<Id>, fuel: nat)
    requires ids != []
    ensures exists i :: 0 <= i < |ids| && Height(kids, ids[i], fuel) == MaxHeight(kids, ids, fuel)
  {
    var init := ids[..|ids| - 1];
    if init != [] && MaxHeight(kids, init, fuel) >= Height(kids, ids[|ids| - 1], fuel) {
      MaxHeightAttained(kids, init, fuel);
      var i :| 0 <= i < |init| && Height(kids, init[i], fuel) == MaxHeight(kids, init, fuel);
      assert ids[i] == init[i];
    } else {
      assert Height(kids, ids[|ids| - 1], fuel) == MaxHeight(kids, ids, fuel);
    }
  }

  /** A chain of ids, each listed as a child of the one before. */
  ghost predicate IsChain(kids: map<Id, seq<Id>>, c: seq<Id>)
  {
    |c| >= 1 && forall i :: 0 <= i < |c| - 1 ==> c[i] in kids && c[i + 1] in kids[c[i]]
  }

  /** No chain from `c[0]` within the fuel is longer than the height. */
  lemma {:induction false} ChainBound(kids: map<Id, seq<Id>>, c: seq<Id>, fuel: nat)
    requires IsChain(kids, c) && |c| <= fuel + 1
    ensures |c| <= Height(kids, c[0], fuel)
  {
    if |c| > 1 {
      var rest := c[1..];
      assert IsChain(kids, rest) by {
        forall i | 0 <= i < |rest| - 1 ensures rest[i] in kids && rest[i + 1] in kids[rest[i]] {
          assert rest[i] == c[i + 1] && rest[i + 1] == c[i + 2];
        }
      }
      ChainBound(kids, rest, fuel - 1);
      var j :| 0 <= j < |kids[c[0]]| && kids[c[0]][j] == c[1];
      MaxHeightAtLeast(kids, kids[c[0]], fuel - 1, j);
    }
  }

  /** Some chain from `id` has exactly the height's length. */
  lemma {:induction false} ChainAttained(kids: map<Id, seq<Id>>, id: Id, fuel: nat)
    ensures exists c :: IsChain(kids, c) && c[0] == id && |c| == Height(kids, id, fuel)
    decreases fuel
  {
    if fuel == 0 || id !in kids || kids[id] == [] {
      assert IsChain(kids, [id]) && [id][0] == id && |[id]| == Height(kids, id, fuel);
    } else {
      MaxHeightAttained(kids, kids[id], fuel - 1);
      var i :| 0 <= i < |kids[id]| && Height(kids, kids[id][i], fuel - 1) == MaxHeight(kids, kids[id], fuel - 1);
      var child := kids[id][i];
      ChainAttained(kids, child, fuel - 1);
      var c :| IsChain(kids, c) && c[0] == child && |c| == Height(kids, child, fuel - 1);
      var chain := [id] + c;
      assert IsChain(kids, chain) by {
        forall k | 0 <= k < |chain| - 1 ensures chain[k] in kids && chain[k + 1] in kids[chain[k]] {
          if k > 0 {
            assert chain[k] == c[k - 1] && chain[k + 1] == c[k];
          }
        }
      }
    }
  }

  /**
   * `_calculate_max_depth`: 0 without messages, otherwise the largest height of a root. The
   * recursion of `dfs` follows at most one link per message (`fuel` = the number of
   * messages), which is every link of an acyclic tree.
   */
  function MaxDepth(ms: seq<Message>): nat
  {
    if ms == [] then 0 else MaxHeight(KidsOf(ms), RootsOf(ms), |ms|)
  }

  /** Each root is a message without parents. */
  lemma {:induction false} RootsAreParentless(ms: seq<Message>, id: Id)
    ensures id in RootsOf(ms) <==> exists i :: 0 <= i < |ms| && ms[i].id == id && ms[i].parents == []
  {
    if ms != [] {
      var init := ms[..|ms| - 1];
      RootsAreParentless(init, id);
      if exists i :: 0 <= i < |ms| && ms[i].id == id && ms[i].parents == [] {
        var i :| 0 <= i < |ms| && ms[i].id == id && ms[i].parents == [];
        if i < |ms| - 1 {
          assert init[i] == ms[i];
        }
      }
      if exists i :: 0 <= i < |init| && init[i].id == id && init[i].parents == [] {
        var i :| 0 <= i < |init| && init[i].id == id && init[i].parents == [];
        assert ms[i] == init[i];
      }
    }
  }

  /**
   * The depth is 0 exactly when no message is parentless; otherwise it is the length of the
   * longest chain of children from a parentless message (within one link per message).
   */
  lemma MaxDepthIsLongestChain(ms: seq<Message>)
    ensures MaxDepth(ms) == 0 <==> RootsOf(ms) == []
    ensures forall c :: IsChain(KidsOf(ms), c) && c[0] in RootsOf(ms) && |c| <= |ms| + 1 ==> |c| <= MaxDepth(ms)
    ensures RootsOf(ms) != [] ==>
      exists c :: IsChain(KidsOf(ms), c) && c[0] in RootsOf(ms) && |c| == MaxDepth(ms)
  {
    var kids, roots := KidsOf(ms), RootsOf(ms);
    if ms == [] {
      assert roots == [];
    } else {
      if roots != [] {
        MaxHeightAtLeast(kids, roots, |ms|, 0);
        MaxHeightAttained(kids, roots, |ms|);
        var i :| 0 <= i < |roots| && Height(kids, roots[i], |ms|) == MaxHeight(kids, roots, |ms|);
        ChainAttained(kids, roots[i], |ms|);
      }
      forall c | IsChain(kids, c) && c[0] in roots && |c| <= |ms| + 1 ensures |c| <= MaxDepth(ms) {
        ChainBound(kids, c, |ms|);
        var j :| 0 <= j < |roots| && roots[j] == c[0];
        MaxHeightAtLeast(kids, roots, |ms|, j);
      }
    }
  }

  /** `dfs(msg_id, depth)`: the depth of `id` plus the height below it; the loop takes the deepest child. */
  method Dfs(kids: map<Id, seq<Id>>, id: Id, depth: nat, fuel: nat) returns (d: nat)
    requires depth >= 1
    ensures d == depth - 1 + Height(kids, id, fuel)
    decreases fuel
  {
    if fuel == 0 || id !in kids {
      return depth;
    }
    var children := kids[id];
    var best := depth;
    for j := 0 to |children|
      invariant best == depth + MaxHeight(kids, children[..j], fuel - 1)
    {
      assert children[..j + 1][..j] == children[..j];
      var sub := Dfs(kids, children[j], depth + 1, fuel - 1);
      best := if best < sub then sub else best;
    }
    assert children[..|children|] == children;
    d := best;
  }

  /** The inner loop of `_calculate_max_depth`: `children_map[id].append(child_id)` for each child, creating the list first. */
  method AppendChildren(kids: map<Id, seq<Id>>, id: Id, children: seq<Id>) returns (out: map<Id, seq<Id>>)
    ensures out == if children == [] then kids else kids[id := (if id in kids then kids[id] else []) + children]
  {
    out := kids;
    ghost var base := if id in kids then kids[id] else [];
    for k := 0 to |children|
      invariant out == if k == 0 then kids else kids[id := base + children[..k]]
    {
      assert children[..k + 1] == children[..k] + [children[k]];
      assert (if id in out then out[id] else []) == base + children[..k];
      if id !in out {
        out := out[id := []];
      }
      out := out[id := out[id] + [children[k]]];
      assert out[id] == base + children[..k + 1];
      assert out == kids[id := base + children[..k + 1]];
    }
    assert children[..|children|] == children;
  }

  /** `_calculate_max_depth`: builds the child lists and the roots in one pass, then runs `dfs` from each root. */
  method CalculateMaxDepth(ms: seq<Message>) returns (maxDepth: nat)
    ensures maxDepth == MaxDepth(ms)
  {
    if ms == [] {
      return 0;
    }
    var kids: map<Id, seq<Id>> := map[];
    var roots: seq<Id> := [];
    for i := 0 to |ms|
      invariant kids == KidsOf(ms[..i]) && roots == RootsOf(ms[..i])
    {
      var m := ms[i];
      assert ms[..i + 1][..i] == ms[..i];
      if m.parents == [] {
        roots := roots + [m.id];
      }
      kids := AppendChildren(kids, m.id, m.children);
    }
    assert ms[..|ms|] == ms;
    maxDepth := 0;
    for j := 0 to |roots|
      invariant maxDepth == MaxHeight(kids, roots[..j], |ms|)
    {
      assert roots[..j + 1][..j] == roots[..j];
      var d := Dfs(kids, roots[j], 1, |ms|);
      maxDepth := if maxDepth < d then d else maxDepth;
    }
    assert roots[..|roots|] == roots;
  }

  // ---------------------------------------------------------------- favourite models

  /** The display names of each session's model A and model B, in order. */
  function ModelUses(sessions: seq<ChatSession>, name: Id -> string): seq<string>
  {
    if sessions == [] then []
    else
      var s := sessions[|sessions| - 1];
      ModelUses(sessions[..|sessions| - 1], name)
      + (if s.modelA.Some? then [name(s.modelA.value)] else [])
      + (if s.modelB.Some? then [name(s.modelB.value)] else [])
  }

  /** Each session counts once for each of its models. */
  lemma {:induction false} ModelUsesCount(sessions: seq<ChatSession>, name: Id -> string)
    ensures |ModelUses(sessions, name)|
         == Ordering.CountIf(sessions, (s: ChatSession) => s.modelA.Some?) + Ordering.CountIf(sessions, (s: ChatSession) => s.modelB.Some?)
  {
    if sessions != [] {
      ModelUsesCount(sessions[..|sessions| - 1], name);
    }
  }

  /**
   * The favourite models of `get_user_session_insights`: usage counts by display name, most
   * used first, at most five; a name left out is used no more often than any name kept.
   */
  method FavoriteModels(sessions: seq<ChatSession>, name: Id -> string) returns (top: seq<Ordering.Count<string>>)
    ensures |top| <= 5 && Ordering.SortedBy(top, Ordering.CountKey)
    ensures forall i :: 0 <= i < |top| ==>
      top[i].count == Ordering.Occurrences(ModelUses(sessions, name), top[i].key) && top[i].count > 0
    ensures Ordering.Distinct(Ordering.Keys(top))
    ensures forall k :: k in ModelUses(sessions, name) && k !in Ordering.Keys(top) ==>
      |top| == 5 && forall i :: 0 <= i < |top| ==> Ordering.Occurrences(ModelUses(sessions, name), k) <= top[i].count
  {
    var uses: seq<string> := [];
    for i := 0 to |sessions|
      invariant uses == ModelUses(sessions[..i], name)
    {
      assert sessions[..i + 1][..i] == sessions[..i];
      var s := sessions[i];
      if s.modelA.Some? {
        uses := uses + [name(s.modelA.value)];
      }
      if s.modelB.Some? {
        uses := uses + [name(s.modelB.value)];
      }
    }
    assert sessions[..|sessions|] == sessions;
    top := Ordering.TopCounts(uses, 5);
  }
}

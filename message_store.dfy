/**
 * The conversation tree of the message app. Messages are stored by id; each lists the ids of
 * its parents and of its children, and the relation table holds one row per (parent, child)
 * link. `MessageTable`'s methods are the writes of `Message.save`, `MessageService` and
 * `MessageCreateSerializer.create`. A write the source wraps in a transaction either completes
 * or leaves the table as it was. Fresh uuid4 identifiers are parameters.
 */
module MessageStore {
  import opened Wrappers
  import opened Entities
  import opened Ordering
  import Text

  // ---------------------------------------------------------------- child lists

  /** `if x not in xs: xs.append(x)`. */
  function AppendOnce(xs: seq<Id>, x: Id): (r: seq<Id>)
    ensures x in r
    ensures forall y :: y in r <==> y in xs || y == x
    ensures xs <= r && |r| <= |xs| + 1
    ensures Distinct(xs) ==> Distinct(r)
  {
    if x in xs then xs else xs + [x]
  }

  /** Adding a child that is already listed changes nothing. */
  lemma AppendOnceIdempotent(xs: seq<Id>, x: Id)
    ensures AppendOnce(AppendOnce(xs, x), x) == AppendOnce(xs, x)
    ensures Occurrences(AppendOnce(xs, x), x) == (if x in xs then Occurrences(xs, x) else 1)
  {
    if x !in xs {
      OccurrencesSnoc(xs, x, x);
    }
  }

  /** The bulk update `child_ids = F('child_ids') + [child]` on the rows whose id is listed in `parents`. */
  function LinkAll(msgs: map<Id, Message>, parents: seq<Id>, child: Id): map<Id, Message>
  {
    map k | k in msgs :: if k in parents then msgs[k].(children := msgs[k].children + [child]) else msgs[k]
  }

  /** The child added once to each listed message, as `parent.child_ids.append` behind a membership test. */
  function LinkOnceAll(msgs: map<Id, Message>, parents: seq<Id>, child: Id): map<Id, Message>
  {
    map k | k in msgs :: if k in parents then msgs[k].(children := AppendOnce(msgs[k].children, child)) else msgs[k]
  }

  /** Linking a child once to one more parent is one more step of the loop over the parents. */
  lemma LinkOnceStep(msgs: map<Id, Message>, parents: seq<Id>, i: nat, child: Id)
    requires i < |parents| && parents[i] in msgs
    ensures var before := LinkOnceAll(msgs, parents[..i], child);
            LinkOnceAll(msgs, parents[..i + 1], child)
              == before[parents[i] := before[parents[i]].(children := AppendOnce(before[parents[i]].children, child))]
  {
    var p := parents[i];
    var before := LinkOnceAll(msgs, parents[..i], child);
    var after := LinkOnceAll(msgs, parents[..i + 1], child);
    var expected := before[p := before[p].(children := AppendOnce(before[p].children, child))];
    assert parents[..i + 1] == parents[..i] + [p];
    assert forall k :: k in parents[..i + 1] <==> k in parents[..i] || k == p;
    if p in parents[..i] {
      AppendOnceIdempotent(msgs[p].children, child);
    }
    assert after.Keys == expected.Keys;
    forall k | k in after ensures after[k] == expected[k] {
      if k != p {
        assert after[k] == before[k];
      }
    }
  }

  /** The first `i` parents exist and have had the child linked once, and nothing else changed. */
  ghost predicate LinkScanned(saved: map<Id, Message>, parents: seq<Id>, child: Id, i: nat, msgs: map<Id, Message>)
  {
    i <= |parents|
    && msgs == LinkOnceAll(saved, parents[..i], child)
    && (forall p :: p in parents[..i] ==> p in saved)
    && msgs.Keys == saved.Keys
  }

  /** One more present parent: its child list gets the child once. */
  lemma LinkScanStep(saved: map<Id, Message>, parents: seq<Id>, child: Id, i: nat, msgs: map<Id, Message>)
    requires i < |parents| && LinkScanned(saved, parents, child, i, msgs) && parents[i] in msgs
    requires forall k :: k in msgs ==> msgs[k].id == k
    ensures var p := parents[i];
            var after := msgs[p := msgs[p].(children := AppendOnce(msgs[p].children, child))];
            LinkScanned(saved, parents, child, i + 1, after) && forall k :: k in after ==> after[k].id == k
  {
    LinkOnceStep(saved, parents, i, child);
    assert parents[..i + 1] == parents[..i] + [parents[i]];
  }

  /** Saving a message that is not one of the parents commutes with linking the parents. */
  lemma LinkOnceAfterSave(msgs: map<Id, Message>, parents: seq<Id>, m: Message)
    requires m.id !in parents
    ensures LinkOnceAll(msgs[m.id := m], parents, m.id) == LinkOnceAll(msgs, parents, m.id)[m.id := m]
  {
  }

  /** The same for the bulk update. */
  lemma LinkAllAfterSave(msgs: map<Id, Message>, parents: seq<Id>, m: Message)
    requires m.id !in parents
    ensures LinkAll(msgs[m.id := m], parents, m.id) == LinkAll(msgs, parents, m.id)[m.id := m]
  {
  }

  /** A second write to the same row replaces the first. */
  lemma UpdateTwice(msgs: map<Id, Message>, k: Id, a: Message, b: Message)
    ensures msgs[k := a][k := b] == msgs[k := b]
  {
  }

  /** One relation row of the given type from each listed parent to `child`. */
  function RelationsFor(parents: seq<Id>, child: Id, relationType: string): (rs: seq<MessageRelation>)
    ensures |rs| == |parents|
    ensures forall i :: 0 <= i < |parents| ==> rs[i] == MessageRelation(parents[i], child, relationType)
  {
    seq(|parents|, i requires 0 <= i < |parents| => MessageRelation(parents[i], child, relationType))
  }

  /** Whether the relation table already holds the (parent, child) pair. */
  predicate HasPair(rels: seq<MessageRelation>, parent: Id, child: Id)
  {
    exists j :: 0 <= j < |rels| && rels[j].parent == parent && rels[j].child == child
  }

  /** The first `i` parents have been checked and their relations appended to `saved`. */
  ghost predicate RelationsAdded(saved: seq<MessageRelation>, parents: seq<Id>, child: Id, relationType: string,
                                 i: nat, rels: seq<MessageRelation>, msgs: map<Id, Message>)
  {
    i <= |parents|
    && rels == saved + RelationsFor(parents[..i], child, relationType)
    && (forall p :: p in parents[..i] ==> p in msgs)
    && Distinct(parents[..i])
  }

  /** Appending the relation of a new, present parent keeps the table unique and within the store. */
  lemma AddRelationStep(saved: seq<MessageRelation>, parents: seq<Id>, child: Id, relationType: string,
                        i: nat, rels: seq<MessageRelation>, msgs: map<Id, Message>)
    requires i < |parents| && RelationsAdded(saved, parents, child, relationType, i, rels, msgs)
    requires parents[i] in msgs && child in msgs && !HasPair(rels, parents[i], child)
    requires RelationsUnique(rels) && forall r :: r in rels ==> r.parent in msgs && r.child in msgs
    requires forall r :: r in saved ==> r.child != child
    ensures RelationsAdded(saved, parents, child, relationType, i + 1, rels + [MessageRelation(parents[i], child, relationType)], msgs)
    ensures RelationsUnique(rels + [MessageRelation(parents[i], child, relationType)])
    ensures forall r :: r in rels + [MessageRelation(parents[i], child, relationType)] ==> r.parent in msgs && r.child in msgs
  {
    var p := parents[i];
    var rel := MessageRelation(p, child, relationType);
    forall a | 0 <= a < i ensures parents[a] != p {
      assert rels[|saved| + a] == MessageRelation(parents[a], child, relationType);
    }
    assert parents[..i + 1] == parents[..i] + [p];
    assert rels + [rel] == saved + RelationsFor(parents[..i + 1], child, relationType);
  }

  /** A pair already present among the appended relations means a parent was listed twice. */
  lemma RepeatedParent(saved: seq<MessageRelation>, parents: seq<Id>, child: Id, relationType: string,
                       i: nat, rels: seq<MessageRelation>, msgs: map<Id, Message>)
    requires i < |parents| && RelationsAdded(saved, parents, child, relationType, i, rels, msgs)
    requires HasPair(rels, parents[i], child)
    requires forall r :: r in saved ==> r.child != child
    ensures !Distinct(parents)
  {
    var j :| 0 <= j < |rels| && rels[j].parent == parents[i] && rels[j].child == child;
    assert rels[j] !in saved;
    assert j >= |saved|;
    assert parents[j - |saved|] == parents[i];
  }

  // ---------------------------------------------------------------- positions

  /** The messages of a session. */
  ghost function SessionIds(msgs: map<Id, Message>, session: Id): set<Id>
  {
    set k | k in msgs && msgs[k].session == session
  }

  /** The largest position among some stored messages. */
  ghost function MaxPosition(msgs: map<Id, Message>, ids: set<Id>): (r: int)
    requires ids != {} && ids <= msgs.Keys
    ensures (exists k :: k in ids && msgs[k].position == r) && forall k :: k in ids ==> msgs[k].position <= r
  {
    var x :| x in ids;
    if ids == {x} then msgs[x].position
    else
      var m := MaxPosition(msgs, ids - {x});
      if msgs[x].position > m then msgs[x].position else m
  }

  /** The position `save` gives a message without one: 0 in an empty session, else one past the largest. */
  ghost function NextPositionOf(msgs: map<Id, Message>, session: Id): (r: int)
    ensures SessionIds(msgs, session) == {} ==> r == 0
    ensures SessionIds(msgs, session) != {} ==> exists k :: k in SessionIds(msgs, session) && msgs[k].position == r - 1
    ensures forall k :: k in SessionIds(msgs, session) ==> msgs[k].position < r
  {
    var ids := SessionIds(msgs, session);
    if ids == {} then 0 else MaxPosition(msgs, ids) + 1
  }

  // ---------------------------------------------------------------- history

  /** One entry of the context sent to a provider. */
  datatype ChatTurn = ChatTurn(role: string, content: string)

  /** A message that `_get_conversation_history` includes. */
  predicate InHistory(m: Message, session: Id)
  {
    m.session == session && m.status == STATUS_SUCCESS
  }

  /**
   * `ids` are the successful messages of the session, each once, ordered by position
   * (messages sharing a position may come in any order, as the query leaves them).
   */
  ghost predicate HistoryOrder(msgs: map<Id, Message>, session: Id, ids: seq<Id>)
  {
    (forall k :: k in ids <==> k in msgs && InHistory(msgs[k], session))
    && Distinct(ids)
    && (forall i, j :: 0 <= i < j < |ids| ==> msgs[ids[i]].position <= msgs[ids[j]].position)
  }

  function TurnsOf(msgs: map<Id, Message>, ids: seq<Id>): (turns: seq<ChatTurn>)
    requires forall k :: k in ids ==> k in msgs
    ensures |turns| == |ids|
    ensures forall i :: 0 <= i < |ids| ==> turns[i] == ChatTurn(msgs[ids[i]].role, msgs[ids[i]].content)
  {
    seq(|ids|, i requires 0 <= i < |ids| => ChatTurn(msgs[ids[i]].role, msgs[ids[i]].content))
  }

  /** The fields the history reads agree: everything but the link lists. */
  predicate SameButLinks(a: Message, b: Message)
  {
    a.(children := [], parents := []) == b.(children := [], parents := [])
  }

  /**
   * Changing link lists, and adding messages outside the history, leaves the history as it
   * was: the placeholder of a streamed reply does not enter the context it is streamed from.
   */
  lemma HistoryFrame(m1: map<Id, Message>, m2: map<Id, Message>, session: Id, ids: seq<Id>)
    requires m1.Keys <= m2.Keys
    requires forall k :: k in m1 ==> SameButLinks(m1[k], m2[k])
    requires forall k :: k in m2 && k !in m1 ==> !InHistory(m2[k], session)
    requires HistoryOrder(m2, session, ids)
    ensures HistoryOrder(m1, session, ids)
    ensures TurnsOf(m1, ids) == TurnsOf(m2, ids)
  {
    forall k | k in m1 ensures m1[k].session == m2[k].session && m1[k].status == m2[k].status
      && m1[k].position == m2[k].position && m1[k].role == m2[k].role && m1[k].content == m2[k].content
    {
      assert m1[k].(children := [], parents := []).session == m2[k].(children := [], parents := []).session;
      assert m1[k].(children := [], parents := []).status == m2[k].(children := [], parents := []).status;
      assert m1[k].(children := [], parents := []).position == m2[k].(children := [], parents := []).position;
      assert m1[k].(children := [], parents := []).role == m2[k].(children := [], parents := []).role;
      assert m1[k].(children := [], parents := []).content == m2[k].(children := [], parents := []).content;
    }
  }

  /** Storing a message outside the history and linking it to parents leaves the history as it was. */
  lemma HistoryAfterLink(msgs: map<Id, Message>, parents: seq<Id>, m: Message, session: Id, ids: seq<Id>)
    requires m.id !in msgs && !InHistory(m, session)
    requires HistoryOrder(LinkOnceAll(msgs, parents, m.id)[m.id := m], session, ids)
    ensures HistoryOrder(msgs, session, ids)
    ensures TurnsOf(msgs, ids) == TurnsOf(LinkOnceAll(msgs, parents, m.id)[m.id := m], ids)
  {
    var after := LinkOnceAll(msgs, parents, m.id)[m.id := m];
    forall k | k in msgs ensures SameButLinks(msgs[k], after[k]) {
      assert after[k] == if k in parents then msgs[k].(children := AppendOnce(msgs[k].children, m.id)) else msgs[k];
    }
    HistoryFrame(msgs, after, session, ids);
  }

  /** The key that orders message ids by position, smallest first, in a descending sort. */
  function PositionKey(msgs: map<Id, Message>): Id -> int
  {
    k => if k in msgs then -msgs[k].position else 0
  }

  // ---------------------------------------------------------------- streaming

  /** What `stream_assistant_message` yields. */
  datatype StreamEvent =
    | Chunk(messageId: Id, chunk: string, content: string)
    | Complete(messageId: Id, message: Message)
    | Failure(messageId: Id, error: string)

  /**
   * The chunk loop of a streamed reply: after the k-th chunk the content is the first k chunks
   * joined, one stream event carries the chunk and that content, and a progress notification
   * is sent exactly when k is a multiple of 10.
   */
  method AccumulateChunks(id: Id, chunks: seq<string>) returns (content: string, events: seq<StreamEvent>, notified: seq<nat>)
    ensures content == Flatten(chunks)
    ensures |events| == |chunks|
    ensures forall k :: 0 <= k < |chunks| ==> events[k] == Chunk(id, chunks[k], Flatten(chunks[..k + 1]))
    ensures forall k :: k in notified <==> 1 <= k <= |chunks| && k % 10 == 0
    ensures |notified| == |chunks| / 10
    ensures forall i, j :: 0 <= i < j < |notified| ==> notified[i] < notified[j]
  {
    content, events, notified := "", [], [];
    for i := 0 to |chunks|
      invariant content == Flatten(chunks[..i])
      invariant ChunkEvents(id, chunks, i, events)
      invariant NotifiedUpTo(notified, i)
    {
      assert chunks[..i + 1][..i] == chunks[..i];
      content := content + chunks[i];
      events := events + [Chunk(id, chunks[i], content)];
      NotifyStep(notified, i);
      if (i + 1) % 10 == 0 {
        notified := notified + [i + 1];
      }
    }
    assert chunks[..|chunks|] == chunks;
    NotifiedSorted(notified, |chunks|);
  }

  /** The first `i` chunk events, each carrying its chunk and the content so far. */
  ghost predicate ChunkEvents(id: Id, chunks: seq<string>, i: nat, events: seq<StreamEvent>)
  {
    i <= |chunks| && |events| == i
    && forall k :: 0 <= k < i ==> events[k] == Chunk(id, chunks[k], Flatten(chunks[..k + 1]))
  }

  /** The notifications after `i` chunks: one after every tenth chunk, in order. */
  ghost predicate NotifiedUpTo(notified: seq<nat>, i: nat)
  {
    (forall k :: k in notified <==> 1 <= k <= i && k % 10 == 0)
    && |notified| == i / 10
    && forall a :: 0 <= a < |notified| ==> notified[a] == 10 * (a + 1)
  }

  lemma NotifyStep(notified: seq<nat>, i: nat)
    requires NotifiedUpTo(notified, i)
    ensures NotifiedUpTo(if (i + 1) % 10 == 0 then notified + [i + 1] else notified, i + 1)
  {
  }

  lemma NotifiedSorted(notified: seq<nat>, i: nat)
    requires NotifiedUpTo(notified, i)
    ensures forall a, b :: 0 <= a < b < |notified| ==> notified[a] < notified[b]
  {
  }

  /** The model a streamed reply uses when none is given: model A in direct mode; in compare mode model A for participant a and model B otherwise. */
  function ChooseModel(session: ChatSession, model: Option<Id>, participant: Option<string>): (r: Option<Id>)
    ensures model.Some? ==> r == model
    ensures r.Some? ==> r == model || r == session.modelA || r == session.modelB
    ensures model.None? && session.mode !in {MODE_DIRECT, MODE_COMPARE} ==> r.None?
    ensures model.None? && session.mode == MODE_DIRECT ==> r == session.modelA
    ensures model.None? && session.mode == MODE_COMPARE && participant == Some(PARTICIPANT_A) ==> r == session.modelA
    ensures model.None? && session.mode == MODE_COMPARE && participant != Some(PARTICIPANT_A) ==> r == session.modelB
  {
    if model.Some? then model
    else if session.mode == MODE_DIRECT then session.modelA
    else if session.mode == MODE_COMPARE then (if participant == Some(PARTICIPANT_A) then session.modelA else session.modelB)
    else None
  }

  /** What a streamed reply produced: the context it was given, its events and progress notifications, and the stored message. */
  datatype StreamRun = StreamRun(history: seq<ChatTurn>, events: seq<StreamEvent>, notified: seq<nat>, message: Message)

  /** The check of `Message.save`: an assistant message of a compare session must be participant a or b. */
  predicate SaveRefuses(m: Message, mode: string)
  {
    mode == MODE_COMPARE && m.role == ROLE_ASSISTANT && !IsParticipant(m.participant)
  }

  /** What a regenerated message's model is: the requested one when both the flag and an id are given (it must exist), else the original's. */
  function RegeneratedModel(original: Option<Id>, useDifferentModel: bool, newModel: Option<Id>, models: set<Id>): (r: Result<Option<Id>>)
    ensures !(useDifferentModel && newModel.Some? && newModel.value != "") ==> r == Ok(original)
    ensures useDifferentModel && newModel.Some? && newModel.value != "" ==>
              (r.Ok? <==> newModel.value in models) && (r.Ok? ==> r.value == newModel)
  {
    if useDifferentModel && newModel.Some? && newModel.value != "" then
      if newModel.value in models then Ok(newModel) else Err("AIModel matching query does not exist.")
    else Ok(original)
  }

  // ---------------------------------------------------------------- tree

  /** A node of the nested tree `_build_tree` returns. */
  datatype TreeNode = TreeNode(id: Id, role: string, content: string, model: Option<Id>, participant: Option<string>,
                               createdAt: int, children: seq<TreeNode>)

  /** The key that orders message ids by creation time, oldest first, in a descending sort. */
  function CreatedKey(msgs: map<Id, Message>): Id -> int
  {
    k => if k in msgs then -msgs[k].createdAt else 0
  }

  /** `Message.objects.filter(id__in=child_ids).order_by('created_at')`: the stored children, each once, oldest first. */
  function ChildrenByAge(msgs: map<Id, Message>, m: Message): (ids: seq<Id>)
    ensures forall c :: c in ids <==> c in m.children && c in msgs
    ensures Distinct(ids)
    ensures forall i, j :: 0 <= i < j < |ids| ==> msgs[ids[i]].createdAt <= msgs[ids[j]].createdAt
  {
    var stored := Filter(m.children, c => c in msgs);
    assert forall c :: c in stored <==> c in m.children && c in msgs;
    var present := Dedup(stored);
    var sorted := SortDesc(present, CreatedKey(msgs));
    DistinctPerm(present, sorted);
    assert forall c :: c in sorted <==> c in multiset(present);
    OldestFirst(msgs, sorted);
    sorted
  }

  /** A descending sort on the negated creation time puts the oldest first. */
  lemma OldestFirst(msgs: map<Id, Message>, s: seq<Id>)
    requires SortedBy(s, CreatedKey(msgs)) && forall c :: c in s ==> c in msgs
    ensures forall i, j :: 0 <= i < j < |s| ==> msgs[s[i]].createdAt <= msgs[s[j]].createdAt
  {
    forall i, j | 0 <= i < j < |s| ensures msgs[s[i]].createdAt <= msgs[s[j]].createdAt {
      assert CreatedKey(msgs)(s[i]) >= CreatedKey(msgs)(s[j]);
    }
  }

  /** A descending sort on the negated position puts the lowest position first. */
  lemma LowestFirst(msgs: map<Id, Message>, s: seq<Id>)
    requires SortedBy(s, PositionKey(msgs)) && forall c :: c in s ==> c in msgs
    ensures forall i, j :: 0 <= i < j < |s| ==> msgs[s[i]].position <= msgs[s[j]].position
  {
    forall i, j | 0 <= i < j < |s| ensures msgs[s[i]].position <= msgs[s[j]].position {
      assert PositionKey(msgs)(s[i]) >= PositionKey(msgs)(s[j]);
    }
  }

  /** The stored children of every stored message, oldest first, as the tree walk queries them. */
  function ChildLists(msgs: map<Id, Message>): (kids: map<Id, seq<Id>>)
    ensures kids.Keys == msgs.Keys
    ensures GoodChildLists(msgs, kids)
  {
    map k | k in msgs :: ChildrenByAge(msgs, msgs[k])
  }

  /**
   * What the tree walk relies on from its child lists: each lists stored children of the
   * message, each once, oldest first.
   */
  ghost predicate GoodChildLists(msgs: map<Id, Message>, kids: map<Id, seq<Id>>)
  {
    forall k :: k in kids ==>
      k in msgs
      && (forall c :: c in kids[k] ==> c in msgs[k].children && c in msgs)
      && Distinct(kids[k])
      && forall i, j :: 0 <= i < j < |kids[k]| ==> msgs[kids[k][i]].createdAt <= msgs[kids[k][j]].createdAt
  }

  /** Every child list names only stored messages. */
  predicate StoredLists(msgs: map<Id, Message>, kids: map<Id, seq<Id>>)
  {
    forall k, c :: k in kids && c in kids[k] ==> c in msgs
  }

  /**
   * `_build_tree`, to a depth of `fuel` levels below the given message (the source recurses
   * without bound and does not terminate on a cycle of child links).
   */
  function BuildTree(msgs: map<Id, Message>, kids: map<Id, seq<Id>>, m: Message, fuel: nat): (t: TreeNode)
    requires StoredLists(msgs, kids)
    ensures t.id == m.id && t.role == m.role && t.content == m.content && t.model == m.model
    ensures t.participant == m.participant && t.createdAt == m.createdAt
    ensures fuel == 0 || m.id !in kids ==> t.children == []
    decreases fuel, 1, 0
  {
    TreeNode(m.id, m.role, m.content, m.model, m.participant, m.createdAt,
             if fuel == 0 || m.id !in kids then [] else Subtrees(msgs, kids, kids[m.id], fuel))
  }

  /** The trees, one level shallower, of the given stored messages, in order. */
  function Subtrees(msgs: map<Id, Message>, kids: map<Id, seq<Id>>, ks: seq<Id>, fuel: nat): (ts: seq<TreeNode>)
    requires StoredLists(msgs, kids)
    requires fuel > 0 && forall c :: c in ks ==> c in msgs
    ensures |ts| == |ks|
    ensures forall i :: 0 <= i < |ks| ==> ts[i].id == msgs[ks[i]].id && ts[i].createdAt == msgs[ks[i]].createdAt
    decreases fuel, 0, |ks|
  {
    if ks == [] then []
    else Subtrees(msgs, kids, ks[..|ks| - 1], fuel) + [BuildTree(msgs, kids, msgs[ks[|ks| - 1]], fuel - 1)]
  }

  /** Sibling nodes are distinct messages, oldest first. */
  ghost predicate SiblingsOrdered(cs: seq<TreeNode>)
  {
    forall i, j :: 0 <= i < j < |cs| ==> cs[i].id != cs[j].id && cs[i].createdAt <= cs[j].createdAt
  }

  /** A node stands for a stored child of `parent`. */
  ghost predicate StoredChild(msgs: map<Id, Message>, c: TreeNode, parent: Message)
  {
    c.id in parent.children && c.id in msgs && c.createdAt == msgs[c.id].createdAt
  }

  /**
   * Every node below the root is a stored message shown with its own fields, listed among its
   * parent's children; siblings are distinct and ordered oldest first.
   */
  ghost predicate TreeOf(msgs: map<Id, Message>, t: TreeNode, m: Message)
    decreases t
  {
    t.id == m.id && t.role == m.role && t.content == m.content && SiblingsOrdered(t.children)
    && forall i :: 0 <= i < |t.children| ==>
         StoredChild(msgs, t.children[i], m) && TreeOf(msgs, t.children[i], msgs[t.children[i].id])
  }

  /** Each subtree is the tree built from the message at the same index. */
  lemma {:induction false} SubtreesAt(msgs: map<Id, Message>, kids: map<Id, seq<Id>>, ks: seq<Id>, fuel: nat, i: nat)
    requires StoredLists(msgs, kids)
    requires fuel > 0 && forall c :: c in ks ==> c in msgs
    requires i < |ks|
    ensures Subtrees(msgs, kids, ks, fuel)[i] == BuildTree(msgs, kids, msgs[ks[i]], fuel - 1)
    decreases |ks|
  {
    if i < |ks| - 1 {
      SubtreesAt(msgs, kids, ks[..|ks| - 1], fuel, i);
    }
  }

  /** A built tree shows the stored conversation below `m`, whatever the depth bound. */
  lemma {:induction false} BuildTreeSound(msgs: map<Id, Message>, kids: map<Id, seq<Id>>, m: Message, fuel: nat)
    requires forall k :: k in msgs ==> msgs[k].id == k
    requires StoredLists(msgs, kids) && GoodChildLists(msgs, kids)
    requires m.id in msgs && msgs[m.id] == m
    ensures TreeOf(msgs, BuildTree(msgs, kids, m, fuel), m)
    decreases fuel, 1
  {
    var t := BuildTree(msgs, kids, m, fuel);
    if fuel > 0 && m.id in kids {
      var ks := kids[m.id];
      assert t.children == Subtrees(msgs, kids, ks, fuel);
      forall i | 0 <= i < |ks| ensures t.children[i].id == ks[i] {
        var k := ks[i];
        assert k in ks;
        assert k in msgs;
        assert msgs[k].id == k;
      }
      forall i, j | 0 <= i < j < |t.children|
        ensures t.children[i].id != t.children[j].id && t.children[i].createdAt <= t.children[j].createdAt
      {
        assert ks[i] != ks[j];
        assert msgs[ks[i]].createdAt <= msgs[ks[j]].createdAt;
      }
      forall i | 0 <= i < |t.children|
        ensures StoredChild(msgs, t.children[i], m) && TreeOf(msgs, t.children[i], msgs[t.children[i].id])
      {
        ChildSound(msgs, kids, m, fuel, i);
      }
    }
  }

  /** The `i`-th child of a built node is a stored child, and soundly built itself. */
  lemma {:induction false} ChildSound(msgs: map<Id, Message>, kids: map<Id, seq<Id>>, m: Message, fuel: nat, i: nat)
    requires forall k :: k in msgs ==> msgs[k].id == k
    requires StoredLists(msgs, kids) && GoodChildLists(msgs, kids)
    requires m.id in msgs && msgs[m.id] == m
    requires fuel > 0 && m.id in kids && i < |kids[m.id]|
    ensures var c := BuildTree(msgs, kids, m, fuel).children[i];
            StoredChild(msgs, c, m) && TreeOf(msgs, c, msgs[c.id])
    decreases fuel, 0
  {
    var ks := kids[m.id];
    var k := ks[i];
    assert k in ks;
    SubtreesAt(msgs, kids, ks, fuel, i);
    var c := BuildTree(msgs, kids, msgs[k], fuel - 1);
    assert BuildTree(msgs, kids, m, fuel).children[i] == c;
    BuildTreeSound(msgs, kids, msgs[k], fuel - 1);
  }

  /** `get_message_tree`: the tree below a stored message; a missing root is an error. */
  function GetMessageTree(msgs: map<Id, Message>, root: Id, fuel: nat): (r: Result<TreeNode>)
    requires forall k :: k in msgs ==> msgs[k].id == k
    ensures r.Ok? <==> root in msgs
    ensures r.Ok? ==> r.value.id == root && TreeOf(msgs, r.value, msgs[root])
  {
    if root !in msgs then Err("Message matching query does not exist.")
    else
      var kids := ChildLists(msgs);
      BuildTreeSound(msgs, kids, msgs[root], fuel);
      Ok(BuildTree(msgs, kids, msgs[root], fuel))
  }

  /** The placeholder `stream_assistant_message` saves before the first chunk arrives. */
  function Placeholder(session: ChatSession, user: Message, model: Id, participant: Option<string>,
                       temperature: real, maxTokens: int, id: Id, now: int): (m: Message)
    ensures m.id == id && m.session == session.id && m.role == ROLE_ASSISTANT && m.content == ""
    ensures m.parents == [user.id] && m.children == [] && m.position == user.position + 1
    ensures m.status == STATUS_STREAMING && m.model == Some(model) && m.participant == participant
  {
    Message(id, session.id, ROLE_ASSISTANT, "", Some(model), [user.id], [], user.position + 1, participant,
            STATUS_STREAMING, None, now, map["temperature" := MetaReal(temperature), "max_tokens" := MetaInt(maxTokens)])
  }

  /** Whether `stream_assistant_message` gets past choosing the model and saving the placeholder. */
  predicate ReplyStarts(session: ChatSession, model: Option<Id>, participant: Option<string>)
  {
    ChooseModel(session, model, participant).Some? && !(session.mode == MODE_COMPARE && !IsParticipant(participant))
  }

  /**
   * The query behind `get_conversation_history`: the successful messages of the session,
   * each once, in ascending position.
   */
  method HistoryIds(msgs: map<Id, Message>, session: Id) returns (ids: seq<Id>)
    ensures HistoryOrder(msgs, session, ids)
  {
    var found := InSession(msgs, session);
    ids := SortDesc(found, PositionKey(msgs));
    DistinctPerm(found, ids);
    assert forall k :: k in ids <==> k in multiset(found);
    LowestFirst(msgs, ids);
  }

  /** The stored messages that belong in the session's history, each once, in no particular order. */
  method InSession(msgs: map<Id, Message>, session: Id) returns (found: seq<Id>)
    ensures forall k :: k in found <==> k in msgs && InHistory(msgs[k], session)
    ensures Distinct(found)
  {
    var keys := msgs.Keys;
    found := [];
    while keys != {}
      invariant keys <= msgs.Keys
      invariant forall k :: k in found <==> k in msgs && k !in keys && InHistory(msgs[k], session)
      invariant Distinct(found)
      decreases keys
    {
      var k :| k in keys;
      if InHistory(msgs[k], session) {
        assert k !in found;
        found := found + [k];
      }
      keys := keys - {k};
    }
  }

  /**
   * A streamed reply once its stream has ended: it keeps the content received so far; it is
   * a success carrying the content's word count as completion tokens, or, when the stream
   * raised, failed with the error text.
   */
  function FinishedReply(placeholder: Message, content: string, failure: Option<string>): (m: Message)
    ensures m.content == content
    ensures m.(content := "", status := "", failureReason := None, metadata := map[])
            == placeholder.(content := "", status := "", failureReason := None, metadata := map[])
    ensures failure.None? ==> m.status == STATUS_SUCCESS && m.failureReason == placeholder.failureReason
                              && m.metadata == placeholder.metadata["completion_tokens" := MetaInt(Text.WordCount(content))]
    ensures failure.Some? ==> m.status == STATUS_FAILED && m.failureReason == failure && m.metadata == placeholder.metadata
  {
    if failure.None? then
      placeholder.(content := content, status := STATUS_SUCCESS,
                   metadata := placeholder.metadata["completion_tokens" := MetaInt(Text.WordCount(content))])
    else
      placeholder.(content := content, status := STATUS_FAILED, failureReason := failure)
  }

  /** What Python raises for `timezone.now()` when `timezone` is `datetime.timezone`. */
  const TIMEZONE_NOW_ERROR: string := "type object 'datetime.timezone' has no attribute 'now'"

  /** What Python raises for `.data` read from a serializer call that was not awaited. */
  const SERIALIZER_DATA_ERROR: string := "'coroutine' object has no attribute 'data'"

  /**
   * The reply `stream_assistant_message` leaves as written: a stream that ends is saved as a
   * success, then reading `.data` from the un-awaited serializer raises, and the except branch
   * saves it again as failed with that error; a stream that raised is saved failed as intended.
   */
  function ReplyAsWritten(placeholder: Message, content: string, failure: Option<string>): (m: Message)
    ensures m.content == content && m.status == STATUS_FAILED
    ensures m.failureReason == Some(if failure.None? then SERIALIZER_DATA_ERROR else failure.value)
    ensures failure.None? ==> m == FinishedReply(placeholder, content, None).(status := STATUS_FAILED,
                                                                                failureReason := Some(SERIALIZER_DATA_ERROR))
    ensures failure.Some? ==> m == FinishedReply(placeholder, content, failure)
  {
    if failure.None? then FinishedReply(FinishedReply(placeholder, content, None), content, Some(SERIALIZER_DATA_ERROR))
    else FinishedReply(placeholder, content, failure)
  }

  // ---------------------------------------------------------------- table invariants

  /** Every message is stored under its own id. */
  ghost predicate IdsMatch(msgs: map<Id, Message>)
  {
    forall k :: k in msgs ==> msgs[k].id == k
  }

  /** Every stored parent of a message lists the message among its children. */
  ghost predicate LinkedMap(msgs: map<Id, Message>)
  {
    forall k, p :: k in msgs && p in msgs[k].parents && p in msgs ==> k in msgs[p].children
  }

  /** An identifier no stored message mentions. */
  ghost predicate FreshIn(msgs: map<Id, Message>, id: Id)
  {
    id !in msgs && forall k :: k in msgs ==> id !in msgs[k].parents && id !in msgs[k].children
  }

  /**
   * Storing a new message and appending its id to the children of each of its parents keeps
   * every parent link mirrored by a child link.
   */
  lemma LinkAllLinked(msgs: map<Id, Message>, m: Message)
    requires IdsMatch(msgs) && FreshIn(msgs, m.id) && m.id !in m.parents
    ensures var after := LinkAll(msgs, m.parents, m.id)[m.id := m];
            IdsMatch(after) && after.Keys == msgs.Keys + {m.id}
            && (LinkedMap(msgs) ==> LinkedMap(after))
  {
    var after := LinkAll(msgs, m.parents, m.id)[m.id := m];
    if LinkedMap(msgs) {
      forall k, p | k in after && p in after[k].parents && p in after
        ensures k in after[p].children
      {
        if k != m.id {
          assert after[k].parents == msgs[k].parents;
          assert p != m.id;
        }
      }
    }
  }

  /** The same for the variant that adds the child only where it is not yet listed. */
  lemma LinkOnceAllLinked(msgs: map<Id, Message>, m: Message)
    requires IdsMatch(msgs) && FreshIn(msgs, m.id) && m.id !in m.parents
    ensures var after := LinkOnceAll(msgs, m.parents, m.id)[m.id := m];
            IdsMatch(after) && after.Keys == msgs.Keys + {m.id}
            && (LinkedMap(msgs) ==> LinkedMap(after))
  {
    var after := LinkOnceAll(msgs, m.parents, m.id)[m.id := m];
    if LinkedMap(msgs) {
      forall k, p | k in after && p in after[k].parents && p in after
        ensures k in after[p].children
      {
        if k != m.id {
          assert after[k].parents == msgs[k].parents;
          assert p != m.id;
        }
      }
    }
  }

  class MessageTable {
    var messages: map<Id, Message>
    var relations: seq<MessageRelation>

    ghost predicate Valid()
      reads this
    {
      IdsMatch(messages)
      && RelationsUnique(relations)
      && (forall r :: r in relations ==> r.parent in messages && r.child in messages)
    }

    /** Every stored parent of a message lists the message among its children. */
    ghost predicate Linked()
      reads this
    {
      LinkedMap(messages)
    }

    /** An identifier no stored message mentions, as a fresh uuid4 is. */
    ghost predicate Fresh(id: Id)
      reads this
    {
      FreshIn(messages, id)
    }

    constructor ()
      ensures Valid() && Linked()
      ensures messages == map[] && relations == []
    {
      messages := map[];
      relations := [];
    }

    /** The position query of `save`: one past the largest position in the session, or 0. */
    method NextPosition(session: Id) returns (pos: int)
      ensures pos == NextPositionOf(messages, session)
    {
      var keys := messages.Keys;
      var found := false;
      var best := 0;
      ghost var seen: set<Id> := {};
      ghost var at: Id := "";
      while keys != {}
        invariant keys !! seen && keys + seen == messages.Keys
        invariant found ==> at in seen && messages[at].session == session && messages[at].position == best
        invariant !found ==> forall k :: k in seen ==> messages[k].session != session
        invariant forall k :: k in seen && messages[k].session == session ==> messages[k].position <= best
        decreases keys
      {
        var k :| k in keys;
        if messages[k].session == session && (!found || messages[k].position > best) {
          best := messages[k].position;
          found := true;
          at := k;
        }
        keys := keys - {k};
        seen := seen + {k};
      }
      var ids := SessionIds(messages, session);
      if found {
        assert at in ids;
        pos := best + 1;
      } else {
        assert ids == {};
        pos := 0;
      }
    }

    /**
     * `Message.save`: a message without a position gets the next one of its session; then an
     * assistant message of a compare session with a participant other than a or b is refused
     * before anything is written.
     */
    method Save(m: Message, position: Option<int>, mode: string) returns (r: Result<Message>)
      requires Valid()
      modifies this
      ensures Valid() && relations == old(relations)
      ensures r.Err? <==> SaveRefuses(m, mode)
      ensures r.Err? ==> messages == old(messages)
      ensures r.Ok? ==> r.value.position == (if position.Some? then position.value
                                               else NextPositionOf(old(messages), m.session))
      ensures r.Ok? ==> r.value == m.(position := r.value.position) && messages == old(messages)[m.id := r.value]
    {
      var pos: int;
      if position.Some? {
        pos := position.value;
      } else {
        pos := NextPosition(m.session);
      }
      if SaveRefuses(m, mode) {
        return Err("Participant must be 'a' or 'b' in compare mode");
      }
      var saved := m.(position := pos);
      messages := messages[m.id := saved];
      r := Ok(saved);
    }

    /**
     * One relation of the given type per listed parent, created in order. The foreign key to
     * an existing parent and the unique (parent, child) pair are the checks that can fail;
     * a failure undoes the rows already created.
     */
    method AddRelations(parents: seq<Id>, child: Id, relationType: string) returns (ok: bool)
      requires Valid() && child in messages
      requires forall r :: r in relations ==> r.child != child
      modifies this
      ensures Valid() && messages == old(messages)
      ensures ok <==> (forall p :: p in parents ==> p in messages) && Distinct(parents)
      ensures ok ==> relations == old(relations) + RelationsFor(parents, child, relationType)
      ensures !ok ==> relations == old(relations)
    {
      var saved := relations;
      assert parents[..0] == [];
      for i := 0 to |parents|
        invariant messages == old(messages) && Valid()
        invariant RelationsAdded(saved, parents, child, relationType, i, relations, messages)
      {
        var p := parents[i];
        if p !in messages {
          relations := saved;
          return false;
        }
        if HasPair(relations, p, child) {
          RepeatedParent(saved, parents, child, relationType, i, relations, messages);
          relations := saved;
          return false;
        }
        AddRelationStep(saved, parents, child, relationType, i, relations, messages);
        relations := relations + [MessageRelation(p, child, relationType)];
      }
      assert parents[..|parents|] == parents;
      ok := true;
    }

    /** `_update_parent_child_ids`: the parent must exist; the child is added to its children once. */
    method AddChild(parent: Id, child: Id) returns (r: Result<()>)
      requires Valid()
      modifies this
      ensures Valid() && relations == old(relations)
      ensures r.Err? <==> parent !in old(messages)
      ensures r.Err? ==> messages == old(messages)
      ensures r.Ok? ==> messages == LinkOnceAll(old(messages), [parent], child)
    {
      if parent !in messages {
        return Err("Message matching query does not exist.");
      }
      var m := messages[parent];
      messages := messages[parent := m.(children := AppendOnce(m.children, child))];
      r := Ok(());
    }

    /**
     * The loop of `create_branch` and `regenerate_message` over the parents: each must exist,
     * and each gets the child once. A missing parent undoes the whole transaction.
     */
    method LinkParentsOnce(parents: seq<Id>, child: Id) returns (ok: bool)
      requires Valid()
      modifies this
      ensures Valid() && relations == old(relations)
      ensures ok <==> forall p :: p in parents ==> p in old(messages)
      ensures ok ==> messages == LinkOnceAll(old(messages), parents, child)
      ensures !ok ==> messages == old(messages)
    {
      var saved := messages;
      assert parents[..0] == [];
      for i := 0 to |parents|
        invariant relations == old(relations) && Valid()
        invariant LinkScanned(saved, parents, child, i, messages)
      {
        var p := parents[i];
        if p !in messages {
          messages := saved;
          return false;
        }
        LinkScanStep(saved, parents, child, i, messages);
        var m := messages[p];
        messages := messages[p := m.(children := AppendOnce(m.children, child))];
      }
      assert parents[..|parents|] == parents;
      ok := true;
    }

    /**
     * `create_user_message`: a successful user message at the next position of the session;
     * each listed parent gets the new id as a child and a reply relation. A missing or
     * repeated parent makes a relation fail, and the transaction leaves the table unchanged.
     */
    method CreateUserMessage(session: ChatSession, content: string, parentIds: seq<Id>, id: Id, now: int)
      returns (r: Result<Message>)
      requires Valid() && Fresh(id) && id !in parentIds
      modifies this
      ensures Valid()
      ensures r.Err? <==> !(forall p :: p in parentIds ==> p in old(messages)) || !Distinct(parentIds)
      ensures r.Err? ==> messages == old(messages) && relations == old(relations)
      ensures r.Ok? ==> r.value.role == ROLE_USER && r.value.status == STATUS_SUCCESS
      ensures r.Ok? ==> r.value.position == NextPositionOf(old(messages), session.id)
      ensures r.Ok? ==> r.value == Message(id, session.id, ROLE_USER, content, None, parentIds, [],
                                           r.value.position, None, STATUS_SUCCESS, None, now, map[])
      ensures r.Ok? ==> messages == LinkAll(old(messages), parentIds, id)[id := r.value]
      ensures r.Ok? ==> relations == old(relations) + RelationsFor(parentIds, id, RELATION_REPLY)
      ensures old(Linked()) ==> Linked()
    {
      var before := messages;
      var pos := NextPosition(session.id);
      var m := Message(id, session.id, ROLE_USER, content, None, parentIds, [], pos, None, STATUS_SUCCESS, None, now, map[]);
      var saved := Save(m, Some(pos), session.mode);
      if saved.Err? {
        assert false;
      }
      messages := LinkAll(messages, parentIds, id);
      var ok := AddRelations(parentIds, id, RELATION_REPLY);
      if !ok {
        messages := before;
        return Err("Parent message relation could not be created");
      }
      r := Ok(saved.value);
      LinkAllAfterSave(before, parentIds, saved.value);
      LinkAllLinked(before, saved.value);
    }

    /**
     * `create_user_message` as written: after the message, the child lists and the relations
     * are written, `timezone.now()` is looked up on `datetime.timezone`, which has no `now`;
     * the error undoes the transaction, so no input creates a message.
     */
    method CreateUserMessageAsWritten(session: ChatSession, content: string, parentIds: seq<Id>, id: Id, now: int)
      returns (r: Result<Message>)
      requires Valid() && Fresh(id) && id !in parentIds
      modifies this
      ensures Valid() && r.Err?
      ensures messages == old(messages) && relations == old(relations)
      ensures (forall p :: p in parentIds ==> p in old(messages)) && Distinct(parentIds) ==> r == Err(TIMEZONE_NOW_ERROR)
    {
      var before, beforeRelations := messages, relations;
      var created := CreateUserMessage(session, content, parentIds, id, now);
      messages, relations := before, beforeRelations;
      if created.Err? {
        return Err(created.error);
      }
      r := Err(TIMEZONE_NOW_ERROR);
    }

    /**
     * `_get_conversation_history`: the successful messages of the session ordered by
     * position, as role and content.
     */
    method ConversationHistory(session: Id) returns (ids: seq<Id>, turns: seq<ChatTurn>)
      requires Valid()
      ensures HistoryOrder(messages, session, ids)
      ensures turns == TurnsOf(messages, ids)
    {
      var msgs := messages;
      ids := HistoryIds(msgs, session);
      turns := TurnsOf(msgs, ids);
    }

    /**
     * The first half of `stream_assistant_message`: the model is chosen, and the placeholder
     * (a streaming, empty assistant reply one position below the user message) is saved and
     * added to the user message's children. Not a transaction: when the user message is
     * missing the placeholder stays.
     */
    method StartReply(session: ChatSession, user: Message, model: Option<Id>, participant: Option<string>,
                      temperature: real, maxTokens: int, id: Id, now: int)
      returns (r: Result<Message>)
      requires Valid() && Fresh(id) && user.id != id
      modifies this
      ensures Valid() && relations == old(relations)
      ensures r.Ok? <==> ReplyStarts(session, model, participant) && user.id in old(messages)
      ensures !ReplyStarts(session, model, participant) ==> messages == old(messages)
      ensures ReplyStarts(session, model, participant) && r.Err? ==>
                messages == old(messages)[id := Placeholder(session, user, ChooseModel(session, model, participant).value,
                                                            participant, temperature, maxTokens, id, now)]
      ensures r.Ok? ==> r.value == Placeholder(session, user, ChooseModel(session, model, participant).value, participant,
                                               temperature, maxTokens, id, now)
                        && messages == LinkOnceAll(old(messages), [user.id], id)[id := r.value]
      ensures r.Ok? && old(Linked()) ==> Linked()
    {
      var chosen := ChooseModel(session, model, participant);
      if chosen.None? {
        return Err("No model specified");
      }
      var placeholder := Placeholder(session, user, chosen.value, participant, temperature, maxTokens, id, now);
      var saved := Save(placeholder, Some(user.position + 1), session.mode);
      if saved.Err? {
        return Err(saved.error);
      }
      var linked := AddChild(user.id, id);
      if linked.Err? {
        return Err(linked.error);
      }
      r := Ok(placeholder);
      LinkOnceAfterSave(old(messages), [user.id], placeholder);
      LinkOnceAllLinked(old(messages), placeholder);
    }

    /**
     * The second half of `stream_assistant_message`, for a provider stream that delivers
     * `chunks` and then ends, or raises `failure`: the history is read, each chunk extends
     * the content and produces a stream event, and the reply is saved as finished.
     */
    method FinishReply(mode: string, placeholder: Message, chunks: seq<string>, failure: Option<string>)
      returns (run: StreamRun, ids: seq<Id>)
      requires Valid() && placeholder.id in messages && messages[placeholder.id] == placeholder
      requires placeholder.status == STATUS_STREAMING && !SaveRefuses(placeholder, mode)
      modifies this
      ensures Valid() && relations == old(relations)
      ensures run.message == FinishedReply(placeholder, Flatten(chunks), failure)
      ensures messages == old(messages)[placeholder.id := run.message]
      ensures |run.events| == |chunks| + 1
      ensures forall k :: 0 <= k < |chunks| ==> run.events[k] == Chunk(placeholder.id, chunks[k], Flatten(chunks[..k + 1]))
      ensures run.events[|chunks|] == (if failure.None? then Complete(placeholder.id, run.message)
                                       else Failure(placeholder.id, failure.value))
      ensures forall k :: k in run.notified <==> 1 <= k <= |chunks| && k % 10 == 0
      ensures HistoryOrder(old(messages), placeholder.session, ids) && run.history == TurnsOf(old(messages), ids)
      ensures old(Linked()) ==> Linked()
    {
      var history;
      ids, history := ConversationHistory(placeholder.session);
      var content, events, notified := AccumulateChunks(placeholder.id, chunks);
      var final := FinishedReply(placeholder, content, failure);
      var saved := Save(final, Some(final.position), mode);
      if saved.Err? {
        assert false;
      }
      events := events + [if failure.None? then Complete(placeholder.id, final) else Failure(placeholder.id, failure.value)];
      run := StreamRun(history, events, notified, final);
    }

    /**
     * `stream_assistant_message`: `StartReply`, then `FinishReply`. The context sent to the
     * provider is the history as it was before the call; the placeholder is not part of it.
     */
    method StreamAssistantMessage(session: ChatSession, user: Message, model: Option<Id>, participant: Option<string>,
                                  temperature: real, maxTokens: int, id: Id, now: int,
                                  chunks: seq<string>, failure: Option<string>)
      returns (r: Result<StreamRun>)
      requires Valid() && Fresh(id) && user.id != id
      modifies this
      ensures Valid() && relations == old(relations)
      ensures r.Ok? <==> ReplyStarts(session, model, participant) && user.id in old(messages)
      ensures r.Ok? ==> r.value.message == FinishedReply(Placeholder(session, user, ChooseModel(session, model, participant).value,
                                                                     participant, temperature, maxTokens, id, now),
                                                         Flatten(chunks), failure)
                        && messages == LinkOnceAll(old(messages), [user.id], id)[id := r.value.message]
      ensures r.Ok? ==> exists ids :: HistoryOrder(old(messages), session.id, ids) && r.value.history == TurnsOf(old(messages), ids)
      ensures r.Ok? && old(Linked()) ==> Linked()
    {
      var started := StartReply(session, user, model, participant, temperature, maxTokens, id, now);
      if started.Err? {
        return Err(started.error);
      }
      ghost var linked := LinkOnceAll(old(messages), [user.id], id);
      var run, ids := FinishReply(session.mode, started.value, chunks, failure);
      HistoryAfterLink(old(messages), [user.id], started.value, session.id, ids);
      UpdateTwice(linked, id, started.value, run.message);
      r := Ok(run);
    }

    /**
     * `FinishReply` as written: when the provider stream ends, the success is saved and then
     * reading `.data` from the un-awaited serializer raises, so the reply is saved again as
     * failed and the last event is an error; no run ends with a complete event.
     */
    method FinishReplyAsWritten(mode: string, placeholder: Message, chunks: seq<string>, failure: Option<string>)
      returns (run: StreamRun, ids: seq<Id>)
      requires Valid() && placeholder.id in messages && messages[placeholder.id] == placeholder
      requires placeholder.status == STATUS_STREAMING && !SaveRefuses(placeholder, mode)
      modifies this
      ensures Valid() && relations == old(relations)
      ensures run.message == ReplyAsWritten(placeholder, Flatten(chunks), failure)
      ensures messages == old(messages)[placeholder.id := run.message]
      ensures |run.events| == |chunks| + 1
      ensures forall k :: 0 <= k < |chunks| ==> run.events[k] == Chunk(placeholder.id, chunks[k], Flatten(chunks[..k + 1]))
      ensures run.events[|chunks|] == Failure(placeholder.id, run.message.failureReason.value)
      ensures HistoryOrder(old(messages), placeholder.session, ids) && run.history == TurnsOf(old(messages), ids)
    {
      run, ids := FinishReply(mode, placeholder, chunks, failure);
      if failure.None? {
        var failed := SaveSerializerFailure(run.message, mode);
        assert failed == ReplyAsWritten(placeholder, Flatten(chunks), failure);
        UpdateTwice(old(messages), placeholder.id, run.message, failed);
        run := run.(events := run.events[|chunks| := Failure(placeholder.id, SERIALIZER_DATA_ERROR)], message := failed);
      }
    }

    /** The serializer error of `stream_assistant_message` as written: the completed reply is saved again as failed. */
    method SaveSerializerFailure(completed: Message, mode: string) returns (failed: Message)
      requires Valid() && !SaveRefuses(completed, mode)
      modifies this
      ensures Valid() && relations == old(relations)
      ensures failed == FinishedReply(completed, completed.content, Some(SERIALIZER_DATA_ERROR))
      ensures messages == old(messages)[completed.id := failed]
    {
      failed := FinishedReply(completed, completed.content, Some(SERIALIZER_DATA_ERROR));
      var saved := Save(failed, Some(failed.position), mode);
      if saved.Err? {
        assert false;
      }
    }

    /** `stream_assistant_message` as written: `StartReply`, then `FinishReplyAsWritten`. */
    method StreamAssistantMessageAsWritten(session: ChatSession, user: Message, model: Option<Id>, participant: Option<string>,
                                           temperature: real, maxTokens: int, id: Id, now: int,
                                           chunks: seq<string>, failure: Option<string>)
      returns (r: Result<StreamRun>)
      requires Valid() && Fresh(id) && user.id != id
      modifies this
      ensures Valid() && relations == old(relations)
      ensures r.Ok? <==> ReplyStarts(session, model, participant) && user.id in old(messages)
      ensures r.Ok? ==> r.value.message.status == STATUS_FAILED && r.value.message.failureReason.Some? && r.value.events != []
                        && r.value.events[|r.value.events| - 1] == Failure(id, r.value.message.failureReason.value)
      ensures r.Ok? && failure.None? ==> r.value.message.failureReason == Some(SERIALIZER_DATA_ERROR)
    {
      var started := StartReply(session, user, model, participant, temperature, maxTokens, id, now);
      if started.Err? {
        return Err(started.error);
      }
      var run, ids := FinishReplyAsWritten(session.mode, started.value, chunks, failure);
      r := Ok(run);
    }

    /**
     * `create_branch`: a successful user message beside the given one (same parents, same
     * position) recording where it branched from. Each parent must exist and gets the new id
     * once, and one branch relation per parent is created; a failure leaves the table unchanged.
     */
    method CreateBranch(session: ChatSession, source: Id, content: string, branchType: string, id: Id, now: int)
      returns (r: Result<Message>)
      requires Valid() && Fresh(id) && source in messages && messages[source].session == session.id
      modifies this
      ensures Valid()
      ensures var ps := old(messages)[source].parents;
              r.Err? <==> !(forall p :: p in ps ==> p in old(messages)) || !Distinct(ps)
      ensures r.Err? ==> messages == old(messages) && relations == old(relations)
      ensures r.Ok? ==> var src := old(messages)[source];
                r.value == Message(id, session.id, ROLE_USER, content, None, src.parents, [], src.position, None,
                                   STATUS_SUCCESS, None, now,
                                   map["branch_type" := MetaText(branchType), "branched_from" := MetaText(source)])
                && messages == LinkOnceAll(old(messages), src.parents, id)[id := r.value]
                && relations == old(relations) + RelationsFor(src.parents, id, RELATION_BRANCH)
      ensures old(Linked()) ==> Linked()
    {
      var before, beforeRelations := messages, relations;
      var src := messages[source];
      var m := Message(id, session.id, ROLE_USER, content, None, src.parents, [], src.position, None, STATUS_SUCCESS, None, now,
                       map["branch_type" := MetaText(branchType), "branched_from" := MetaText(source)]);
      var saved := Save(m, Some(src.position), session.mode);
      if saved.Err? {
        assert false;
      }
      var linked := LinkParentsOnce(src.parents, id);
      if !linked {
        messages := before;
        return Err("Message matching query does not exist.");
      }
      LinkOnceAfterSave(before, src.parents, m);
      var related := AddRelations(src.parents, id, RELATION_BRANCH);
      if !related {
        messages := before;
        return Err("Parent message relation could not be created");
      }
      r := Ok(m);
    }

    /**
     * `regenerate_message`: only assistant messages are regenerated. The new message is a
     * pending, empty assistant reply with the original's parents, position and participant,
     * and with the requested model when both the flag and an id are given, else the
     * original's. Each parent must exist and gets the new id once; no relation is created.
     * The original message keeps all its fields.
     */
    method RegenerateMessage(session: ChatSession, source: Id, temperature: real, maxTokens: int,
                             useDifferentModel: bool, newModel: Option<Id>, models: set<Id>, id: Id, now: int)
      returns (r: Result<Message>)
      requires Valid() && Fresh(id) && source in messages && messages[source].session == session.id
      modifies this
      ensures Valid() && relations == old(relations)
      ensures var src := old(messages)[source];
              r.Ok? <==> src.role == ROLE_ASSISTANT
                         && RegeneratedModel(src.model, useDifferentModel, newModel, models).Ok?
                         && !(session.mode == MODE_COMPARE && !IsParticipant(src.participant))
                         && forall p :: p in src.parents ==> p in old(messages)
      ensures r.Err? ==> messages == old(messages)
      ensures r.Ok? ==> var src := old(messages)[source];
                r.value == Message(id, session.id, ROLE_ASSISTANT, "",
                                   RegeneratedModel(src.model, useDifferentModel, newModel, models).value,
                                   src.parents, [], src.position, src.participant, STATUS_PENDING, None, now,
                                   map["regenerated_from" := MetaText(source), "temperature" := MetaReal(temperature),
                                       "max_tokens" := MetaInt(maxTokens)])
                && messages == LinkOnceAll(old(messages), src.parents, id)[id := r.value]
      ensures r.Ok? ==> source in messages && messages[source].(children := []) == old(messages)[source].(children := [])
      ensures old(Linked()) ==> Linked()
    {
      var src := messages[source];
      if src.role != ROLE_ASSISTANT {
        return Err("Can only regenerate assistant messages");
      }
      var chosen := RegeneratedModel(src.model, useDifferentModel, newModel, models);
      if chosen.Err? {
        return Err(chosen.error);
      }
      var before := messages;
      var m := Message(id, session.id, ROLE_ASSISTANT, "", chosen.value, src.parents, [], src.position, src.participant,
                       STATUS_PENDING, None, now,
                       map["regenerated_from" := MetaText(source), "temperature" := MetaReal(temperature),
                           "max_tokens" := MetaInt(maxTokens)]);
      var saved := Save(m, Some(src.position), session.mode);
      if saved.Err? {
        return Err(saved.error);
      }
      var linked := LinkParentsOnce(src.parents, id);
      if !linked {
        messages := before;
        return Err("Message matching query does not exist.");
      }
      LinkOnceAfterSave(before, src.parents, m);
      r := Ok(m);
    }

    /**
     * `MessageCreateSerializer.create`: the validated message is saved without a position, so
     * it gets the next one; each parent gets the new id as a child and a reply relation. A
     * failing save or relation leaves the table unchanged.
     */
    method CreateFromRequest(session: ChatSession, role: string, content: string, modelId: Option<Id>,
                             parentIds: seq<Id>, participant: Option<string>, id: Id, now: int)
      returns (r: Result<Message>)
      requires Valid() && Fresh(id) && id !in parentIds
      modifies this
      ensures Valid()
      ensures r.Ok? <==> !(session.mode == MODE_COMPARE && role == ROLE_ASSISTANT && !IsParticipant(participant))
                         && (forall p :: p in parentIds ==> p in old(messages)) && Distinct(parentIds)
      ensures r.Err? ==> messages == old(messages) && relations == old(relations)
      ensures r.Ok? ==> r.value == Message(id, session.id, role, content, if modelId == Some("") then None else modelId,
                                           parentIds, [], NextPositionOf(old(messages), session.id), participant,
                                           STATUS_PENDING, None, now, map[])
                        && messages == LinkAll(old(messages), parentIds, id)[id := r.value]
                        && relations == old(relations) + RelationsFor(parentIds, id, RELATION_REPLY)
      ensures old(Linked()) ==> Linked()
    {
      var before := messages;
      var model := if modelId == Some("") then None else modelId;
      var m := Message(id, session.id, role, content, model, parentIds, [], 0, participant, STATUS_PENDING, None, now, map[]);
      var saved := Save(m, None, session.mode);
      if saved.Err? {
        return Err(saved.error);
      }
      messages := LinkAll(messages, parentIds, id);
      var ok := AddRelations(parentIds, id, RELATION_REPLY);
      if !ok {
        messages := before;
        return Err("Parent message relation could not be created");
      }
      r := Ok(saved.value);
      LinkAllAfterSave(before, parentIds, saved.value);
      LinkAllLinked(before, saved.value);
    }
  }
}

/**
 * Paths through a conversation's message graph: the breadth-first shortest path and the
 * bounded depth-first enumeration of `MessagePathfinder`, and the first-parent walk to a
 * root used by the tree action. Messages are linked both ways: a message's children and its
 * parents are its neighbours, as far as those messages exist.
 */
module MessagePaths {
  import opened Wrappers
  import opened Entities
  import Ordering
  import MessageStore

  /** The message table, by id. */
  type Graph = map<Id, Message>

  /** `y` exists and is listed among the children or the parents of the existing message `x`. */
  predicate Linked(g: Graph, x: Id, y: Id)
  {
    x in g && y in g && (y in g[x].children || y in g[x].parents)
  }

  /** A walk through the graph: one or more existing messages, each linked to the next. */
  ghost predicate IsWalk(g: Graph, w: seq<Id>)
  {
    |w| >= 1 && (forall i :: 0 <= i < |w| ==> w[i] in g)
    && (forall i :: 0 <= i < |w| - 1 ==> Linked(g, w[i], w[i + 1]))
  }

  /** A walk from `s` to `e`. */
  ghost predicate WalkBetween(g: Graph, w: seq<Id>, s: Id, e: Id)
  {
    IsWalk(g, w) && w[0] == s && w[|w| - 1] == e
  }

  lemma WalkExtend(g: Graph, w: seq<Id>, s: Id, x: Id, y: Id)
    requires WalkBetween(g, w, s, x) && Linked(g, x, y)
    ensures WalkBetween(g, w + [y], s, y)
  {
  }

  /**
   * The messages among `ids` that exist, as `filter(id__in=ids)` returns them: each once,
   * in the table's default order, lowest position first.
   */
  function Existing(g: Graph, ids: seq<Id>): (r: seq<Id>)
    ensures forall x :: x in r <==> x in ids && x in g
    ensures Ordering.Distinct(r)
    ensures forall i, j :: 0 <= i < j < |r| ==> g[r[i]].position <= g[r[j]].position
  {
    var present := Ordering.Dedup(Ordering.Filter(ids, (x: Id) => x in g));
    var sorted := Ordering.SortDesc(present, MessageStore.PositionKey(g));
    SortedStored(g, present, sorted);
    sorted
  }

  /** Ordering existing, distinct ids by position keeps them existing and distinct. */
  lemma SortedStored(g: Graph, present: seq<Id>, sorted: seq<Id>)
    requires forall x :: x in present ==> x in g
    requires Ordering.Distinct(present)
    requires multiset(sorted) == multiset(present)
    requires Ordering.SortedBy(sorted, MessageStore.PositionKey(g))
    ensures forall x :: x in sorted <==> x in present
    ensures Ordering.Distinct(sorted)
    ensures forall i, j :: 0 <= i < j < |sorted| ==> g[sorted[i]].position <= g[sorted[j]].position
  {
    forall x ensures x in sorted <==> x in present {
      assert x in sorted <==> x in multiset(sorted);
      assert x in present <==> x in multiset(present);
    }
    Ordering.DistinctPerm(present, sorted);
    MessageStore.LowestFirst(g, sorted);
  }

  /** The neighbours explored from `x`: its existing children, then its existing parents. */
  function Neighbours(g: Graph, x: Id): (ns: seq<Id>)
    requires x in g
    ensures forall y :: y in ns <==> Linked(g, x, y)
  {
    Existing(g, g[x].children) + Existing(g, g[x].parents)
  }

  // ---------------------------------------------------------------- breadth-first search

  /** A queue entry: a message and the path by which it was reached. */
  datatype Entry = Entry(node: Id, path: seq<Id>)

  ghost predicate EntriesOk(g: Graph, start: Id, queue: seq<Entry>)
  {
    forall k :: 0 <= k < |queue| ==> WalkBetween(g, queue[k].path, start, queue[k].node)
  }

  /** Path lengths along the queue never decrease and exceed the front's by at most one. */
  ghost predicate Layered(queue: seq<Entry>)
  {
    (forall i, j :: 0 <= i <= j < |queue| ==> |queue[i].path| <= |queue[j].path|)
    && (forall k :: 0 <= k < |queue| ==> |queue[k].path| <= |queue[0].path| + 1)
  }

  ghost predicate HasEntry(queue: seq<Entry>, n: Id, bound: int)
  {
    exists k :: 0 <= k < |queue| && queue[k].node == n && |queue[k].path| <= bound
  }

  /**
   * Every neighbour of an expanded message was expanded at most one level deeper, or waits
   * in the queue, unexpanded, with a path at most one longer.
   */
  ghost predicate Closed(g: Graph, queue: seq<Entry>, level: map<Id, nat>)
  {
    forall u, n :: u in level && Linked(g, u, n) ==>
      (n in level && level[n] <= level[u] + 1) || (n !in level && HasEntry(queue, n, level[u] + 1))
  }

  ghost predicate StartSeen(queue: seq<Entry>, level: map<Id, nat>, start: Id)
  {
    (start in level && level[start] == 1) || (start !in level && HasEntry(queue, start, 1))
  }

  /** The loop invariant of the search; `level` records the path length each expanded message had. */
  ghost predicate BfsInv(g: Graph, start: Id, end: Id, queue: seq<Entry>, visited: set<Id>, level: map<Id, nat>, lo: nat)
  {
    visited == level.Keys && visited <= g.Keys && end !in visited
    && EntriesOk(g, start, queue) && Layered(queue) && Closed(g, queue, level) && StartSeen(queue, level, start)
    && (forall u :: u in level ==> level[u] <= lo)
    && (queue != [] ==> lo <= |queue[0].path|)
  }

  /**
   * Any walk from the start either ends at an expanded message no deeper than the walk is
   * long, or the queue holds an entry no longer than the walk.
   */
  lemma {:induction false} Frontier(g: Graph, start: Id, end: Id, queue: seq<Entry>, visited: set<Id>, level: map<Id, nat>, lo: nat, w: seq<Id>)
    requires BfsInv(g, start, end, queue, visited, level, lo)
    requires IsWalk(g, w) && w[0] == start
    ensures (w[|w| - 1] in level && level[w[|w| - 1]] <= |w|) || exists k :: 0 <= k < |queue| && |queue[k].path| <= |w|
    decreases |w|
  {
    if |w| > 1 {
      var w' := w[..|w| - 1];
      assert IsWalk(g, w') by {
        assert forall i :: 0 <= i < |w'| ==> w'[i] == w[i];
      }
      Frontier(g, start, end, queue, visited, level, lo, w');
      var x', x := w[|w| - 2], w[|w| - 1];
      assert w'[|w'| - 1] == x';
      assert Linked(g, x', x);
    }
  }

  lemma SkipKeeps(g: Graph, start: Id, end: Id, queue: seq<Entry>, visited: set<Id>, level: map<Id, nat>, lo: nat)
    requires BfsInv(g, start, end, queue, visited, level, lo)
    requires queue != [] && queue[0].node in visited
    ensures BfsInv(g, start, end, queue[1..], visited, level, lo)
  {
    var q := queue[1..];
    forall u, n | u in level && Linked(g, u, n) && n !in level
      ensures HasEntry(q, n, level[u] + 1)
    {
      var k :| 0 <= k < |queue| && queue[k].node == n && |queue[k].path| <= level[u] + 1;
      assert q[k - 1] == queue[k];
    }
    if q != [] {
      assert |queue[0].path| <= |q[0].path|;
    }
  }

  /** The queue after expanding its front: the rest, then the unexpanded neighbours with extended paths. */
  ghost predicate Expanded(g: Graph, queue: seq<Entry>, visited: set<Id>, queue': seq<Entry>)
    requires queue != [] && queue[0].node in g
  {
    var cur, p := queue[0].node, queue[0].path;
    |queue'| >= |queue| - 1 && queue'[..|queue| - 1] == queue[1..]
    && (forall k :: |queue| - 1 <= k < |queue'| ==>
          queue'[k].node !in visited && queue'[k].node != cur && Linked(g, cur, queue'[k].node)
          && queue'[k].path == p + [queue'[k].node])
    && (forall n :: Linked(g, cur, n) && n !in visited && n != cur ==>
          exists k :: |queue| - 1 <= k < |queue'| && queue'[k].node == n)
  }

  lemma ExpandKeeps(g: Graph, start: Id, end: Id, queue: seq<Entry>, visited: set<Id>, level: map<Id, nat>, lo: nat, queue': seq<Entry>)
    requires BfsInv(g, start, end, queue, visited, level, lo)
    requires queue != [] && queue[0].node !in visited && queue[0].node != end
    requires queue[0].node in g && Expanded(g, queue, visited, queue')
    ensures BfsInv(g, start, end, queue', visited + {queue[0].node}, level[queue[0].node := |queue[0].path|], |queue[0].path|)
  {
    var cur, p := queue[0].node, queue[0].path;
    assert WalkBetween(g, p, start, cur);
    ExpandEntries(g, start, queue, visited, queue');
    ExpandLayered(g, queue, visited, queue');
    ExpandClosed(g, queue, visited, level, queue');
    ExpandStart(g, start, queue, level, queue');
  }

  lemma ExpandClosed(g: Graph, queue: seq<Entry>, visited: set<Id>, level: map<Id, nat>, queue': seq<Entry>)
    requires queue != [] && queue[0].node in g && queue[0].node !in level
    requires Layered(queue) && Closed(g, queue, level)
    requires forall u :: u in level ==> level[u] <= |queue[0].path|
    requires visited == level.Keys && Expanded(g, queue, visited, queue')
    ensures Closed(g, queue', level[queue[0].node := |queue[0].path|])
  {
    var cur, p := queue[0].node, queue[0].path;
    var level' := level[cur := |p|];
    var m := |queue| - 1;
    forall u, n | u in level' && Linked(g, u, n)
      ensures (n in level' && level'[n] <= level'[u] + 1) || (n !in level' && HasEntry(queue', n, level'[u] + 1))
    {
      if u == cur {
        if n !in level' {
          var k :| m <= k < |queue'| && queue'[k].node == n;
          assert |queue'[k].path| == |p| + 1;
        }
      } else if n !in level' {
        var k :| 0 <= k < |queue| && queue[k].node == n && |queue[k].path| <= level[u] + 1;
        assert queue'[k - 1] == queue[k];
      } else if n == cur {
        var k :| 0 <= k < |queue| && queue[k].node == n && |queue[k].path| <= level[u] + 1;
        assert |p| <= |queue[k].path|;
      }
    }
  }

  lemma ExpandStart(g: Graph, start: Id, queue: seq<Entry>, level: map<Id, nat>, queue': seq<Entry>)
    requires queue != [] && queue[0].node in g && queue[0].node !in level
    requires Layered(queue) && StartSeen(queue, level, start) && |queue[0].path| >= 1
    requires Expanded(g, queue, level.Keys, queue')
    ensures StartSeen(queue', level[queue[0].node := |queue[0].path|], start)
  {
    var cur, p := queue[0].node, queue[0].path;
    if start !in level {
      var k :| 0 <= k < |queue| && queue[k].node == start && |queue[k].path| <= 1;
      if start != cur {
        assert queue'[k - 1] == queue[k];
      } else {
        assert |p| <= |queue[k].path|;
      }
    }
  }

  lemma ExpandEntries(g: Graph, start: Id, queue: seq<Entry>, visited: set<Id>, queue': seq<Entry>)
    requires EntriesOk(g, start, queue) && queue != [] && queue[0].node in g
    requires Expanded(g, queue, visited, queue')
    ensures EntriesOk(g, start, queue')
  {
    var cur, p := queue[0].node, queue[0].path;
    forall k | 0 <= k < |queue'|
      ensures WalkBetween(g, queue'[k].path, start, queue'[k].node)
    {
      if k < |queue| - 1 {
        assert queue'[k] == queue[k + 1];
      } else {
        WalkExtend(g, p, start, cur, queue'[k].node);
      }
    }
  }

  lemma ExpandLayered(g: Graph, queue: seq<Entry>, visited: set<Id>, queue': seq<Entry>)
    requires Layered(queue) && queue != [] && queue[0].node in g
    requires Expanded(g, queue, visited, queue')
    ensures Layered(queue')
    ensures queue' != [] ==> |queue[0].path| <= |queue'[0].path|
  {
    var m := |queue| - 1;
    var l := |queue[0].path|;
    assert forall k :: 0 <= k < m ==> queue'[k] == queue[k + 1];
    assert forall k :: 0 <= k < |queue'| ==> l <= |queue'[k].path| <= l + 1;
    if m > 0 {
      assert |queue'[0].path| == |queue[1].path|;
    }
  }

  /** Appends an entry for every listed neighbour that has not been expanded. */
  method Enqueue(ns: seq<Id>, visited: set<Id>, path: seq<Id>, queue: seq<Entry>) returns (queue': seq<Entry>)
    ensures |queue'| >= |queue| && queue'[..|queue|] == queue
    ensures forall k :: 0 <= k < |queue| ==> queue'[k] == queue[k]
    ensures forall k :: |queue| <= k < |queue'| ==>
              queue'[k].node in ns && queue'[k].node !in visited && queue'[k].path == path + [queue'[k].node]
    ensures forall n :: n in ns && n !in visited ==> exists k :: |queue| <= k < |queue'| && queue'[k].node == n
  {
    queue' := queue;
    for i := 0 to |ns|
      invariant |queue'| >= |queue| && queue'[..|queue|] == queue
      invariant forall k :: |queue| <= k < |queue'| ==>
                  queue'[k].node in ns[..i] && queue'[k].node !in visited && queue'[k].path == path + [queue'[k].node]
      invariant forall n :: n in ns[..i] && n !in visited ==> exists k :: |queue| <= k < |queue'| && queue'[k].node == n
    {
      assert ns[..i + 1] == ns[..i] + [ns[i]];
      if ns[i] !in visited {
        var before := queue';
        queue' := queue' + [Entry(ns[i], path + [ns[i]])];
        assert forall k :: 0 <= k < |before| ==> queue'[k] == before[k];
        assert queue'[|queue'| - 1].node == ns[i];
      }
    }
    assert ns[..|ns|] == ns;
  }

  /** When the end message reaches the front of the queue, no walk to it is shorter than its path. */
  lemma FoundIsShortest(g: Graph, start: Id, end: Id, queue: seq<Entry>, visited: set<Id>, level: map<Id, nat>, lo: nat)
    requires BfsInv(g, start, end, queue, visited, level, lo) && queue != [] && queue[0].node == end
    ensures forall w :: WalkBetween(g, w, start, end) ==> |queue[0].path| <= |w|
  {
    forall w | WalkBetween(g, w, start, end)
      ensures |queue[0].path| <= |w|
    {
      Frontier(g, start, end, queue, visited, level, lo, w);
    }
  }

  /** When the queue runs dry without reaching the end message, no walk reaches it. */
  lemma ExhaustedUnreachable(g: Graph, start: Id, end: Id, visited: set<Id>, level: map<Id, nat>, lo: nat)
    requires BfsInv(g, start, end, [], visited, level, lo)
    ensures forall w :: !WalkBetween(g, w, start, end)
  {
    forall w | WalkBetween(g, w, start, end)
      ensures false
    {
      Frontier(g, start, end, [], visited, level, lo, w);
    }
  }

  /** Pops the front and queues its unexpanded children, then its unexpanded parents. */
  method Expand(g: Graph, queue: seq<Entry>, visited: set<Id>) returns (next: seq<Entry>)
    requires queue != [] && queue[0].node in g
    ensures Expanded(g, queue, visited, next)
  {
    var cur, p := queue[0].node, queue[0].path;
    var kids, parents := Existing(g, g[cur].children), Existing(g, g[cur].parents);
    var mid := Enqueue(kids, visited + {cur}, p, queue[1..]);
    next := Enqueue(parents, visited + {cur}, p, mid);
    EnqueuedNeighbours(g, queue, visited, kids, parents, mid, next);
  }

  /** The two `Enqueue` calls of `Expand` queue exactly the front's unexpanded neighbours. */
  lemma EnqueuedNeighbours(g: Graph, queue: seq<Entry>, visited: set<Id>, kids: seq<Id>, parents: seq<Id>,
                           mid: seq<Entry>, next: seq<Entry>)
    requires queue != [] && queue[0].node in g
    requires forall x :: x in kids <==> x in g[queue[0].node].children && x in g
    requires forall x :: x in parents <==> x in g[queue[0].node].parents && x in g
    requires |mid| >= |queue| - 1 && mid[..|queue| - 1] == queue[1..]
    requires forall k :: |queue| - 1 <= k < |mid| ==>
               mid[k].node in kids && mid[k].node !in visited + {queue[0].node} && mid[k].path == queue[0].path + [mid[k].node]
    requires forall n :: n in kids && n !in visited + {queue[0].node} ==> exists k :: |queue| - 1 <= k < |mid| && mid[k].node == n
    requires |next| >= |mid| && next[..|mid|] == mid
    requires forall k :: 0 <= k < |mid| ==> next[k] == mid[k]
    requires forall k :: |mid| <= k < |next| ==>
               next[k].node in parents && next[k].node !in visited + {queue[0].node} && next[k].path == queue[0].path + [next[k].node]
    requires forall n :: n in parents && n !in visited + {queue[0].node} ==> exists k :: |mid| <= k < |next| && next[k].node == n
    ensures Expanded(g, queue, visited, next)
  {
    var cur := queue[0].node;
    assert next[..|queue| - 1] == queue[1..] by {
      assert next[..|queue| - 1] == mid[..|queue| - 1];
    }
    forall n | Linked(g, cur, n) && n !in visited && n != cur
      ensures exists k :: |queue| - 1 <= k < |next| && next[k].node == n
    {
      if n in g[cur].children {
        var k :| |queue| - 1 <= k < |mid| && mid[k].node == n;
        assert next[k] == mid[k];
      }
    }
  }

  /**
   * `find_shortest_path`: nothing across sessions; otherwise breadth-first from the start,
   * expanding each message once through its children and then its parents, until the end
   * message leaves the queue.
   */
  method ShortestPath(g: Graph, start: Id, end: Id) returns (path: seq<Id>)
    requires start in g && end in g
    ensures g[start].session != g[end].session ==> path == []
    ensures path != [] ==> WalkBetween(g, path, start, end)
    ensures path != [] ==> forall w :: WalkBetween(g, w, start, end) ==> |path| <= |w|
    ensures path == [] && g[start].session == g[end].session ==> forall w :: !WalkBetween(g, w, start, end)
  {
    if g[start].session != g[end].session {
      return [];
    }
    var visited: set<Id> := {};
    var queue := [Entry(start, [start])];
    ghost var level: map<Id, nat> := map[];
    ghost var lo: nat := 1;
    assert HasEntry(queue, start, 1) by { assert queue[0].node == start; }
    while queue != []
      invariant BfsInv(g, start, end, queue, visited, level, lo)
      decreases |g.Keys - visited|, |queue|
    {
      var cur, p := queue[0].node, queue[0].path;
      assert WalkBetween(g, p, start, cur);
      if cur == end {
        FoundIsShortest(g, start, end, queue, visited, level, lo);
        return p;
      }
      if cur in visited {
        SkipKeeps(g, start, end, queue, visited, level, lo);
        queue := queue[1..];
        continue;
      }
      var next := Expand(g, queue, visited);
      ExpandKeeps(g, start, end, queue, visited, level, lo, next);
      assert g.Keys - (visited + {cur}) < g.Keys - visited by {
        assert cur in g.Keys - visited;
      }
      visited, level, lo := visited + {cur}, level[cur := |p|], |p|;
      queue := next;
    }
    ExhaustedUnreachable(g, start, end, visited, level, lo);
    return [];
  }

  // ---------------------------------------------------------------- bounded depth-first search

  /** No message occurs twice. */
  ghost predicate Simple(p: seq<Id>)
  {
    forall i, j :: 0 <= i < j < |p| ==> p[i] != p[j]
  }

  /** The messages of a path. */
  function Nodes(p: seq<Id>): set<Id>
  {
    set i | 0 <= i < |p| :: p[i]
  }

  /** What the search knows when it enters `cur`: a simple path to it, everything before it marked visited. */
  ghost predicate DfsState(g: Graph, path: seq<Id>, cur: Id, visited: set<Id>, depth: nat)
  {
    IsWalk(g, path) && path[|path| - 1] == cur && Simple(path)
    && visited == Nodes(path[..|path| - 1]) && |path| == depth + 1
  }

  /** The walks the search reports from a given path: simple, extending the path, ending at the target, within the depth bound. */
  ghost predicate Reported(g: Graph, path: seq<Id>, target: Id, maxDepth: int, r: seq<Id>)
  {
    1 <= |path| <= |r| && r[..|path|] == path && WalkBetween(g, r, path[0], target) && Simple(r) && |r| <= maxDepth + 1
  }

  /** The nested `dfs`: a path past the depth bound is dropped, one at the target is recorded, otherwise every unvisited neighbour is tried. */
  function AllPathsFrom(g: Graph, target: Id, cur: Id, path: seq<Id>, visited: set<Id>, depth: nat, maxDepth: int): (ps: seq<seq<Id>>)
    requires DfsState(g, path, cur, visited, depth)
    ensures forall r :: r in ps ==> Reported(g, path, target, maxDepth, r)
    decreases maxDepth - depth, 1, 0
  {
    if depth > maxDepth then []
    else if cur == target then [path]
    else
      assert Nodes(path) == visited + {cur} by {
        assert path == path[..|path| - 1] + [cur];
      }
      TryNeighbours(g, target, Neighbours(g, cur), path, visited + {cur}, depth, maxDepth)
  }

  /** The loops over the children and then the parents of the current message. */
  function TryNeighbours(g: Graph, target: Id, ns: seq<Id>, path: seq<Id>, seen: set<Id>, depth: nat, maxDepth: int): (ps: seq<seq<Id>>)
    requires IsWalk(g, path) && Simple(path) && seen == Nodes(path) && |path| == depth + 1 && depth <= maxDepth
    requires forall n :: n in ns ==> Linked(g, path[|path| - 1], n)
    ensures forall r :: r in ps ==> Reported(g, path, target, maxDepth, r)
    decreases maxDepth - depth, 0, |ns|
  {
    if ns == [] then []
    else
      var n := ns[0];
      assert n in ns && forall x :: x in ns[1..] ==> x in ns;
      var first := if n in seen then [] else TryNeighbour(g, target, n, path, seen, depth, maxDepth);
      first + TryNeighbours(g, target, ns[1..], path, seen, depth, maxDepth)
  }

  /** One step deeper, to a neighbour not yet on the path. */
  function TryNeighbour(g: Graph, target: Id, n: Id, path: seq<Id>, seen: set<Id>, depth: nat, maxDepth: int): (ps: seq<seq<Id>>)
    requires IsWalk(g, path) && Simple(path) && seen == Nodes(path) && |path| == depth + 1 && depth <= maxDepth
    requires Linked(g, path[|path| - 1], n) && n !in seen
    ensures forall r :: r in ps ==> Reported(g, path, target, maxDepth, r)
    decreases maxDepth - depth, 0, 0
  {
    var path' := path + [n];
    assert path'[..|path|] == path;
    assert DfsState(g, path', n, seen, depth + 1);
    var ps := AllPathsFrom(g, target, n, path', seen, depth + 1, maxDepth);
    assert forall r :: r in ps ==> r[..|path|] == r[..|path'|][..|path|];
    ps
  }

  /** `find_all_paths`: nothing across sessions; otherwise every path the search reports from the start. */
  function FindAllPaths(g: Graph, start: Id, end: Id, maxDepth: int): (ps: seq<seq<Id>>)
    requires start in g && end in g
    ensures g[start].session != g[end].session ==> ps == []
    ensures forall r :: r in ps ==> WalkBetween(g, r, start, end) && Simple(r) && |r| <= maxDepth + 1
  {
    if g[start].session != g[end].session then []
    else
      assert [start][..0] == [];
      AllPathsFrom(g, end, start, [start], {}, 0, maxDepth)
  }

  /** A neighbour's reports are among the reports of the loop that tries it. */
  lemma {:induction false} TryNeighboursIncludes(g: Graph, target: Id, ns: seq<Id>, path: seq<Id>, seen: set<Id>, depth: nat, maxDepth: int, n: Id, r: seq<Id>)
    requires IsWalk(g, path) && Simple(path) && seen == Nodes(path) && |path| == depth + 1 && depth <= maxDepth
    requires forall x :: x in ns ==> Linked(g, path[|path| - 1], x)
    requires n in ns && n !in seen && r in TryNeighbour(g, target, n, path, seen, depth, maxDepth)
    ensures r in TryNeighbours(g, target, ns, path, seen, depth, maxDepth)
    decreases |ns|
  {
    if ns[0] != n {
      assert n in ns[1..] && forall x :: x in ns[1..] ==> x in ns;
      TryNeighboursIncludes(g, target, ns[1..], path, seen, depth, maxDepth, n, r);
    }
  }

  /** Every simple walk that extends the current path, ends at the target and respects the depth bound is reported. */
  lemma {:induction false} AllPathsComplete(g: Graph, target: Id, cur: Id, path: seq<Id>, visited: set<Id>, depth: nat, maxDepth: int, w: seq<Id>)
    requires DfsState(g, path, cur, visited, depth)
    requires Reported(g, path, target, maxDepth, w)
    ensures w in AllPathsFrom(g, target, cur, path, visited, depth, maxDepth)
    decreases |w| - |path|
  {
    if cur == target {
      assert w[|path| - 1] == cur;
      assert w == path;
    } else {
      var n := NextOnWalk(g, target, cur, path, visited, depth, maxDepth, w);
      AllPathsComplete(g, target, n, path + [n], visited + {cur}, depth + 1, maxDepth, w);
      TryNeighboursIncludes(g, target, Neighbours(g, cur), path, visited + {cur}, depth, maxDepth, n, w);
    }
  }

  /** The message a reported walk visits after the current path: an unvisited neighbour, extending the search state. */
  lemma NextOnWalk(g: Graph, target: Id, cur: Id, path: seq<Id>, visited: set<Id>, depth: nat, maxDepth: int, w: seq<Id>)
    returns (n: Id)
    requires DfsState(g, path, cur, visited, depth) && Reported(g, path, target, maxDepth, w) && cur != target
    ensures |w| > |path| && n == w[|path|] && Linked(g, cur, n) && n !in visited + {cur}
    ensures visited + {cur} == Nodes(path) && depth < maxDepth
    ensures DfsState(g, path + [n], n, visited + {cur}, depth + 1) && Reported(g, path + [n], target, maxDepth, w)
  {
    assert |w| > |path|;
    n := w[|path|];
    assert Linked(g, cur, n);
    assert path == path[..|path| - 1] + [cur];
    var seen := visited + {cur};
    assert n !in seen by {
      assert seen == Nodes(path);
      assert forall i :: 0 <= i < |path| ==> path[i] == w[i];
    }
    var path' := path + [n];
    assert w[..|path'|] == path';
    assert DfsState(g, path', n, seen, depth + 1);
  }

  /** Within one session, `find_all_paths` reports exactly the simple walks from the start to the end of at most `max_depth + 1` messages. */
  lemma FindAllPathsExact(g: Graph, start: Id, end: Id, maxDepth: int, w: seq<Id>)
    requires start in g && end in g && g[start].session == g[end].session
    ensures w in FindAllPaths(g, start, end, maxDepth) <==> WalkBetween(g, w, start, end) && Simple(w) && |w| <= maxDepth + 1
  {
    if WalkBetween(g, w, start, end) && Simple(w) && |w| <= maxDepth + 1 {
      assert [start][..0] == [];
      assert DfsState(g, [start], start, {}, 0);
      assert w[..1] == [start];
      AllPathsComplete(g, end, start, [start], {}, 0, maxDepth, w);
    }
  }

  // ---------------------------------------------------------------- the walk to a root

  /** The walk stops at a message without parents or whose first parent does not exist. */
  predicate Stopped(g: Graph, x: Id)
    requires x in g
  {
    g[x].parents == [] || g[x].parents[0] !in g
  }

  /** Where the first-parent walk from `x` is after `n` more iterations (it stays put once stopped). */
  function Climb(g: Graph, x: Id, n: nat): (y: Id)
    requires x in g
    ensures y in g
    decreases n
  {
    if n == 0 || Stopped(g, x) then x else Climb(g, g[x].parents[0], n - 1)
  }

  lemma {:induction false} ClimbAdd(g: Graph, x: Id, a: nat, b: nat)
    requires x in g
    ensures Climb(g, x, a + b) == Climb(g, Climb(g, x, a), b)
    decreases a
  {
    if a > 0 && !Stopped(g, x) {
      ClimbAdd(g, g[x].parents[0], a - 1, b);
    } else if a > 0 {
      StoppedStays(g, x, b);
      StoppedStays(g, x, a + b);
    }
  }

  lemma StoppedStays(g: Graph, x: Id, n: nat)
    requires x in g && Stopped(g, x)
    ensures Climb(g, x, n) == x
  {
  }

  lemma ClimbSucc(g: Graph, x: Id, n: nat)
    requires x in g && !Stopped(g, Climb(g, x, n))
    ensures Climb(g, x, n + 1) == g[Climb(g, x, n)].parents[0]
  {
    ClimbAdd(g, x, n, 1);
  }

  /**
   * The root walk of the tree action: follow first parents until a message has none or its
   * first parent is missing. The source loops forever on a cycle of first parents; the model
   * gives up after as many steps as there are messages and answers `None`, which happens
   * exactly when the source would never stop.
   */
  method FindRoot(g: Graph, start: Id) returns (root: Option<Id>)
    requires start in g
    ensures root.Some? ==> root.value in g && Stopped(g, root.value) && exists n :: root.value == Climb(g, start, n)
    ensures root.None? <==> forall n :: !Stopped(g, Climb(g, start, n))
  {
    var current := start;
    var steps: nat := 0;
    while g[current].parents != []
      invariant steps <= |g| && current in g && current == Climb(g, start, steps)
      invariant forall n :: 0 <= n < steps ==> !Stopped(g, Climb(g, start, n))
      decreases |g| - steps
    {
      var parentId := g[current].parents[0];
      if parentId !in g {
        break;
      }
      if steps == |g| {
        NeverStops(g, start, steps);
        return None;
      }
      ClimbSucc(g, start, steps);
      current, steps := parentId, steps + 1;
    }
    root := Some(current);
    assert Stopped(g, Climb(g, start, steps));
  }

  /** A walk that has not stopped within as many steps as there are messages never stops. */
  lemma NeverStops(g: Graph, start: Id, m: nat)
    requires start in g && m == |g|
    requires forall n :: 0 <= n <= m ==> !Stopped(g, Climb(g, start, n))
    ensures forall n :: !Stopped(g, Climb(g, start, n))
  {
    var i, j := Repeats(g, start, m);
    forall n ensures !Stopped(g, Climb(g, start, n)) {
      Periodic(g, start, i, j, n);
    }
  }

  /** Pigeonhole: among the first `|g| + 1` positions of the walk two coincide. */
  lemma Repeats(g: Graph, start: Id, m: nat) returns (i: nat, j: nat)
    requires start in g && m == |g|
    ensures i < j <= m && Climb(g, start, i) == Climb(g, start, j)
  {
    var w := seq(m + 1, n requires 0 <= n <= m => Climb(g, start, n));
    if forall a, b :: 0 <= a < b < |w| ==> w[a] != w[b] {
      DistinctCard(w);
      assert Nodes(w) <= g.Keys;
      Ordering.SubsetCard(Nodes(w), g.Keys);
      assert false;
    }
    var a, b :| 0 <= a < b < |w| && w[a] == w[b];
    i, j := a, b;
  }

  lemma {:induction false} DistinctCard(w: seq<Id>)
    requires forall a, b :: 0 <= a < b < |w| ==> w[a] != w[b]
    ensures |Nodes(w)| == |w|
    decreases |w|
  {
    if w != [] {
      var init := w[..|w| - 1];
      DistinctCard(init);
      assert Nodes(w) == Nodes(init) + {w[|w| - 1]};
      assert w[|w| - 1] !in Nodes(init);
    }
  }

  /** Once a position repeats, every later position is one already reached. */
  lemma {:induction false} Periodic(g: Graph, start: Id, i: nat, j: nat, n: nat)
    requires start in g && i < j && Climb(g, start, i) == Climb(g, start, j)
    requires forall k :: 0 <= k <= j ==> !Stopped(g, Climb(g, start, k))
    ensures !Stopped(g, Climb(g, start, n))
    decreases n
  {
    if n > j {
      var back := n - (j - i);
      ClimbAdd(g, start, j, n - j);
      ClimbAdd(g, start, i, n - j);
      assert i + (n - j) == back;
      Periodic(g, start, i, j, back);
    }
  }
}

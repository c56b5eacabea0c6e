/**
 * `MessageCache`: cached message trees under `message:tree:<id>` and the invalidation that
 * deletes the tree of a message and, recursively, of its ancestors. The cache is a map from
 * key to cached value; expiry times are not modelled.
 */
module MessageCache {
  import opened Wrappers
  import opened Entities
  import Text

  const TREE_PREFIX: string := "message:tree:"

  /** The key of a cached tree. */
  function TreeKey(rootId: Id): (k: string)
    ensures Text.StartsWith(k, TREE_PREFIX) && k[|TREE_PREFIX|..] == rootId
  {
    TREE_PREFIX + rootId
  }

  lemma TreeKeyInjective(a: Id, b: Id)
    requires TreeKey(a) == TreeKey(b)
    ensures a == b
  {
    assert a == TreeKey(a)[|TREE_PREFIX|..];
  }

  /** `cache_message_tree`. */
  function CacheMessageTree<T>(cache: map<string, T>, rootId: Id, tree: T): (c: map<string, T>)
    ensures c.Keys == cache.Keys + {TreeKey(rootId)}
  {
    cache[TreeKey(rootId) := tree]
  }

  /** `get_cached_tree`. */
  function GetCachedTree<T>(cache: map<string, T>, rootId: Id): (r: Option<T>)
    ensures r.Some? <==> TreeKey(rootId) in cache
  {
    if TreeKey(rootId) in cache then Some(cache[TreeKey(rootId)]) else None
  }

  /** A cached tree is read back as stored, and caching one root leaves every other root's entry alone. */
  lemma CacheRoundTrip<T>(cache: map<string, T>, rootId: Id, other: Id, tree: T)
    ensures GetCachedTree(CacheMessageTree(cache, rootId, tree), rootId) == Some(tree)
    ensures other != rootId ==> GetCachedTree(CacheMessageTree(cache, rootId, tree), other) == GetCachedTree(cache, other)
  {
    if other != rootId && TreeKey(other) == TreeKey(rootId) {
      TreeKeyInjective(other, rootId);
    }
  }

  /** What invalidation may do: delete tree entries, nothing else. */
  ghost predicate OnlyTreesDeleted<T>(before: map<string, T>, after: map<string, T>)
  {
    after.Keys <= before.Keys
    && (forall k :: k in after ==> after[k] == before[k])
    && (forall k :: k in before && k !in after ==> Text.StartsWith(k, TREE_PREFIX))
  }

  /**
   * `invalidate_message_cache`: a missing message changes nothing; otherwise its tree entry is
   * deleted and each listed parent is invalidated in turn. The source recurses without bound
   * (a cycle of parents ends in a recursion error); `fuel` bounds the depth here.
   */
  function Invalidate<T>(g: map<Id, Message>, cache: map<string, T>, id: Id, fuel: nat): (c: map<string, T>)
    ensures OnlyTreesDeleted(cache, c)
    ensures id !in g ==> c == cache
    ensures id in g ==> TreeKey(id) !in c
    decreases fuel, 1, 0
  {
    if id !in g then cache
    else InvalidateParents(g, cache - {TreeKey(id)}, g[id].parents, fuel)
  }

  /** The loop over the parents of one message. */
  function InvalidateParents<T>(g: map<Id, Message>, cache: map<string, T>, parents: seq<Id>, fuel: nat): (c: map<string, T>)
    ensures OnlyTreesDeleted(cache, c)
    decreases fuel, 0, |parents|
  {
    if parents == [] || fuel == 0 then cache
    else InvalidateParents(g, Invalidate(g, cache, parents[0], fuel - 1), parents[1..], fuel)
  }

  /**
   * `a` is reached from the stored message `id` by following stored parents at most `n`
   * times (`id` itself with no step).
   */
  ghost predicate Reaches(g: map<Id, Message>, id: Id, a: Id, n: nat)
    decreases n
  {
    id in g && (a == id || (n > 0 && exists p :: p in g[id].parents && Reaches(g, p, a, n - 1)))
  }

  /**
   * Invalidating a message drops the cached tree of every ancestor reached through stored
   * parents within the depth bound, the message itself included.
   */
  lemma {:induction false} AncestorsInvalidated<T>(g: map<Id, Message>, cache: map<string, T>, id: Id, fuel: nat, a: Id)
    requires Reaches(g, id, a, fuel)
    ensures GetCachedTree(Invalidate(g, cache, id, fuel), a).None?
    decreases fuel, 1, 0
  {
    if a != id {
      var p :| p in g[id].parents && Reaches(g, p, a, fuel - 1);
      ParentsAncestorCleared(g, cache - {TreeKey(id)}, g[id].parents, fuel, p, a);
    }
  }

  lemma {:induction false} ParentsAncestorCleared<T>(g: map<Id, Message>, cache: map<string, T>, parents: seq<Id>, fuel: nat, p: Id, a: Id)
    requires p in parents && fuel > 0 && Reaches(g, p, a, fuel - 1)
    ensures TreeKey(a) !in InvalidateParents(g, cache, parents, fuel)
    decreases fuel, 0, |parents|
  {
    var next := Invalidate(g, cache, parents[0], fuel - 1);
    if parents[0] == p {
      AncestorsInvalidated(g, cache, p, fuel - 1, a);
    } else {
      assert p in parents[1..];
      ParentsAncestorCleared(g, next, parents[1..], fuel, p, a);
    }
  }

  /**
   * And nothing else: an entry that invalidation deletes is the cached tree of an ancestor
   * reached within the depth bound.
   */
  lemma {:induction false} OnlyAncestorsInvalidated<T>(g: map<Id, Message>, cache: map<string, T>, id: Id, fuel: nat, k: string)
    requires k in cache && k !in Invalidate(g, cache, id, fuel)
    ensures exists a :: k == TreeKey(a) && Reaches(g, id, a, fuel)
    decreases fuel, 1, 0
  {
    if k == TreeKey(id) {
      assert Reaches(g, id, id, fuel);
    } else {
      var p, a := ParentsOnlyAncestors(g, cache - {TreeKey(id)}, g[id].parents, fuel, k);
      assert Reaches(g, id, a, fuel);
    }
  }

  lemma {:induction false} ParentsOnlyAncestors<T>(g: map<Id, Message>, cache: map<string, T>, parents: seq<Id>, fuel: nat, k: string)
      returns (p: Id, a: Id)
    requires k in cache && k !in InvalidateParents(g, cache, parents, fuel)
    ensures fuel > 0 && p in parents && k == TreeKey(a) && Reaches(g, p, a, fuel - 1)
    decreases fuel, 0, |parents|
  {
    var next := Invalidate(g, cache, parents[0], fuel - 1);
    if k !in next {
      OnlyAncestorsInvalidated(g, cache, parents[0], fuel - 1, k);
      p := parents[0];
      a :| k == TreeKey(a) && Reaches(g, p, a, fuel - 1);
    } else {
      p, a := ParentsOnlyAncestors(g, next, parents[1..], fuel, k);
    }
  }
}

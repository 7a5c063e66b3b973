/** The loops that claim a migration, while other clients write to the same objects. A listed
    item is a version that some read returned; the others may move before every request. */
module MigrationClaim {
  import opened Migration

  /** A listed migration: which object, and the version the list shows. */
  datatype Item = Item(obj: nat, v: nat)

  datatype Outcome = Found(i: nat) | Conflict(i: nat) | NotFound | Error(i: nat)

  type Store = seq<State>

  // ---------------------------------------------------------------- the other clients

  /** Versions are only added, and a deleted object stays deleted. */
  predicate Grows(a: Store, b: Store) {
    |a| == |b| && forall k :: 0 <= k < |a| ==> a[k].versions <= b[k].versions && (a[k].gone ==> b[k].gone)
  }

  /** The store after `k` moves of the others, the first of which is number `first`. */
  function World(others: (nat, Store) -> Store, w: Store, first: nat, k: nat): Store {
    if k == 0 then w else others(first + k - 1, World(others, w, first, k - 1))
  }

  lemma {:induction false} WorldGrows(others: (nat, Store) -> Store, w: Store, first: nat, k: nat)
    requires forall n, x :: Grows(x, others(n, x))
    ensures Grows(w, World(others, w, first, k))
  {
    if k > 0 {
      WorldGrows(others, w, first, k - 1);
      assert Grows(World(others, w, first, k - 1), World(others, w, first, k));
    }
  }

  lemma {:induction false} WorldSplits(others: (nat, Store) -> Store, w: Store, first: nat, m: nat, k: nat)
    ensures World(others, World(others, w, first, m), first + m, k) == World(others, w, first, m + k)
  {
    if k > 0 { WorldSplits(others, w, first, m, k - 1); }
  }

  // ---------------------------------------------------------------- what a pass does

  predicate Listed(w: Store, it: Item) {
    it.obj < |w| && it.v < |w[it.obj].versions|
  }

  predicate AllListed(w: Store, items: seq<Item>) {
    forall k :: 0 <= k < |items| ==> Listed(w, items[k])
  }

  lemma ListedStays(a: Store, b: Store, it: Item)
    requires Listed(a, it) && Grows(a, b)
    ensures Listed(b, it) && b[it.obj].versions[it.v] == a[it.obj].versions[it.v]
  {}

  predicate Held(w: Store, it: Item, pod: Pod)
    requires Listed(w, it)
  {
    w[it.obj].versions[it.v].m.ClaimedAndMatchesPod(pod)
  }

  predicate Claimable(w: Store, it: Item, pod: Pod)
    requires Listed(w, it)
  {
    w[it.obj].versions[it.v].m.MatchesPod(pod) && !w[it.obj].versions[it.v].m.Claimed()
  }

  /** Passing over an item: nothing to take, or (for the node service) a stale one. */
  predicate Skipped(w: Store, it: Item, pod: Pod, skipStale: bool) {
    && Listed(w, it) && !Held(w, it, pod)
    && (Claimable(w, it, pod) ==> skipStale && !w[it.obj].gone && !Accepts(w[it.obj], it.v))
  }

  /** The item that ends a pass, in the store it meets: one held already, or one whose claim
      is sent, and then the only change is the protocol's claim of a current version. */
  predicate Decides(w: Store, after: Store, it: Item, pod: Pod, r: Outcome) {
    && Listed(w, it) && !r.NotFound?
    && if Held(w, it, pod) then r.Found? && after == w
       else
         && Claimable(w, it, pod) && Scheduled(pod)
         && (r.Found? <==> Accepts(w[it.obj], it.v)) && (r.Error? <==> w[it.obj].gone)
         && after == if r.Found? then w[it.obj := Next(w[it.obj], Claim(it.v, pod))] else w
  }

  /** One pass over a list, with a move of the others before every item: the first item not
      skipped decides, and nothing else is written. */
  ghost predicate Pass(others: (nat, Store) -> Store, first: nat, before: Store, after: Store,
                       items: seq<Item>, pod: Pod, skipStale: bool, r: Outcome) {
    var n := if r.NotFound? then |items| else r.i;
    && n <= |items|
    && (forall k: nat :: k < n ==> Skipped(World(others, before, first, k + 1), items[k], pod, skipStale))
    && if r.NotFound? then after == World(others, before, first, n)
       else n < |items| && Decides(World(others, before, first, n + 1), after, items[n], pod, r)
  }

  class ApiServer {
    var objects: Store

    /** The server's side of a claiming update. */
    method Update(it: Item, pod: Pod) returns (ok: bool, conflict: bool)
      requires Scheduled(pod) && Listed(objects, it) && Claimable(objects, it, pod)
      modifies this
      ensures ok == Accepts(old(objects)[it.obj], it.v) && conflict == (!ok && !old(objects)[it.obj].gone)
      ensures objects ==
        if ok then old(objects)[it.obj := Next(old(objects)[it.obj], Claim(it.v, pod))] else old(objects)
    {
      var s := objects[it.obj];
      if s.gone { return false, false; }
      if it.v + 1 != |s.versions| { return false, true; }
      var m := s.versions[it.v].m.(targetPod := pod.name, targetNode := pod.node);
      var versions := s.versions + [s.versions[it.v].(m := m)];
      objects := objects[it.obj := s.(versions := versions, claims := s.claims + [pod])];
      return true, false;
    }

    /** What both loops do with an item: keep it if it is held, claim it if it can be. */
    method Take(it: Item, pod: Pod) returns (taken: bool, conflict: bool, missing: bool)
      requires Scheduled(pod) && Listed(objects, it)
      modifies this
      ensures taken ==> forall i :: Decides(old(objects), objects, it, pod, Found(i))
      ensures conflict ==> forall i :: Decides(old(objects), objects, it, pod, Conflict(i))
      ensures missing ==> forall i :: Decides(old(objects), objects, it, pod, Error(i))
      ensures !taken ==> objects == old(objects)
      ensures !taken && !missing ==> Skipped(old(objects), it, pod, true)
      ensures !taken && !missing && !conflict ==> Skipped(old(objects), it, pod, false)
    {
      var mig := objects[it.obj].versions[it.v].m;
      if mig.ClaimedAndMatchesPod(pod) { return true, false, false; }
      if mig.MatchesPod(pod) && !mig.Claimed() {
        taken, conflict := Update(it, pod);
        return taken, conflict, !taken && !conflict;
      }
      return false, false, false;
    }

    /** One attempt of the node service: a conflict moves on to the next item. */
    method FindOnce(items: seq<Item>, pod: Pod, others: (nat, Store) -> Store, first: nat) returns (r: Outcome)
      requires Scheduled(pod) && AllListed(objects, items)
      requires forall n, x :: Grows(x, others(n, x))
      modifies this
      ensures Pass(others, first, old(objects), objects, items, pod, true, r) && !r.Conflict?
    {
      hide Decides, Skipped, Grows;
      var i := 0;
      while i < |items|
        invariant i <= |items| && objects == World(others, old(objects), first, i)
        invariant forall k: nat :: k < i ==> Skipped(World(others, old(objects), first, k + 1), items[k], pod, true)
      {
        objects := others(first + i, objects);
        var it := items[i];
        WorldGrows(others, old(objects), first, i + 1);
        ListedStays(old(objects), objects, it);
        var taken, conflict, missing := Take(it, pod);
        if taken { return Found(i); }
        if missing { return Error(i); }
        i := i + 1;
      }
      return NotFound;
    }

    /** The node service's `findMatchingMigration`: a new list for every attempt, until one
        does not come back empty-handed. Every attempt but the last writes nothing: the store it
        leaves is what the others have made of it. `list` is what the cache shows. */
    method FindMatchingMigration(list: (nat, Store) -> seq<Item>, pod: Pod, others: (nat, Store) -> Store, tries: nat)
      returns (r: Outcome, last: nat, ghost moves: nat)
      requires Scheduled(pod) && tries > 0
      requires forall n, x :: AllListed(x, list(n, x))
      requires forall n, x :: Grows(x, others(n, x))
      modifies this
      ensures last < tries && !r.Conflict? && (r.NotFound? ==> last == tries - 1)
      ensures var w := World(others, old(objects), 0, moves);
        Pass(others, moves, w, objects, list(last, w), pod, true, r)
    {
      last, moves := 0, 0;
      var first := 0;
      while true
        invariant last < tries && first == moves && objects == World(others, old(objects), 0, moves)
        decreases tries - last
      {
        var items := list(last, objects);
        r := FindOnce(items, pod, others, first);
        if !r.NotFound? || last + 1 == tries { return; }
        WorldSplits(others, old(objects), 0, moves, |items|);
        first, moves := first + |items|, moves + |items|;
        last := last + 1;
      }
    }

    /** The pod reconciler's `prepareMigrationTarget`: a conflict ends the pass and requeues. */
    method PrepareMigrationTarget(items: seq<Item>, pod: Pod, others: (nat, Store) -> Store) returns (r: Outcome)
      requires Scheduled(pod) && AllListed(objects, items)
      requires forall n, x :: Grows(x, others(n, x))
      modifies this
      ensures Pass(others, 0, old(objects), objects, items, pod, false, r)
    {
      hide Decides, Skipped, Grows;
      var i := 0;
      while i < |items|
        invariant i <= |items| && objects == World(others, old(objects), 0, i)
        invariant forall k: nat :: k < i ==> Skipped(World(others, old(objects), 0, k + 1), items[k], pod, false)
      {
        objects := others(i, objects);
        var it := items[i];
        WorldGrows(others, old(objects), 0, i + 1);
        ListedStays(old(objects), objects, it);
        var taken, conflict, missing := Take(it, pod);
        if taken { return Found(i); }
        if conflict { return Conflict(i); }
        if missing { return Error(i); }
        i := i + 1;
      }
      return NotFound;
    }
  }
}

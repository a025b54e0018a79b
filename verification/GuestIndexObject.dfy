/** The guest index as the object the server shares: its two fields and the methods that update them. */
module GuestIndexObject {
  import opened Text
  import opened Guests
  import opened Authorization
  import opened GuestCache
  import P = CacheProtocol

  /** What another task can do to the index while a resolve awaits its answer. */
  datatype Event =
    | Invalidates(target: Option<string>)
    | Publishes(cluster: string, snapshot: Snapshot)

  function React(cache: Cache, e: Event): Cache {
    match e
    case Invalidates(target) => Evicted(Bumped(cache), target)
    case Publishes(cluster, snapshot) =>
      if cache.generation == snapshot.fetch.gen then Published(cache, cluster, snapshot) else cache
  }

  function ReactAll(cache: Cache, es: seq<Event>): Cache {
    if es == [] then cache else React(ReactAll(cache, es[..|es| - 1]), es[|es| - 1])
  }

  predicate NobodyInvalidates(es: seq<Event>) { forall i :: 0 <= i < |es| ==> !es[i].Invalidates? }

  /** The generation is unchanged exactly when nobody invalidated. */
  lemma {:induction false} GenerationTellsInvalidations(cache: Cache, es: seq<Event>)
    ensures ReactAll(cache, es).generation >= cache.generation
    ensures ReactAll(cache, es).generation == cache.generation <==> NobodyInvalidates(es)
  {
    if es != [] {
      var init, last := es[..|es| - 1], es[|es| - 1];
      GenerationTellsInvalidations(cache, init);
      assert forall i :: 0 <= i < |init| ==> init[i] == es[i];
      assert NobodyInvalidates(es) <==> NobodyInvalidates(init) && !last.Invalidates?;
    }
  }

  /** A readable answer to `/cluster/resources`, with the moment it was true. */
  datatype Listed = Listed(guests: Listing, sampled: nat)

  class GuestIndex {
    const ttl: nat
    var snapshots: map<string, Snapshot>
    var generation: nat

    function View(): Cache
      reads this
    {
      Cache(snapshots, generation)
    }

    constructor (ttl: nat)
      ensures View() == Cache(map[], 0) && this.ttl == ttl
    {
      this.ttl := ttl;
      snapshots := map[];
      generation := 0;
    }

    method LookupFresh(cluster: string, vmid: u32, now: nat) returns (guest: Option<Guest>)
      ensures guest == Fresh(View(), ttl, now, cluster, vmid)
      ensures guest.Some? <==>
        cluster in snapshots && now - snapshots[cluster].taken <= ttl && vmid in snapshots[cluster].fetch.guests
    {
      if cluster !in snapshots { return None; }
      var snapshot := snapshots[cluster];
      if now > snapshot.taken + ttl { return None; }
      if vmid !in snapshot.fetch.guests { return None; }
      guest := Some(snapshot.fetch.guests[vmid]);
    }

    method Invalidate()
      modifies this
      ensures View() == React(old(View()), Invalidates(None))
    {
      generation := generation + 1;
      snapshots := map[];
    }

    method InvalidateCluster(cluster: string)
      modifies this
      ensures View() == React(old(View()), Invalidates(Some(cluster)))
    {
      generation := generation + 1;
      snapshots := snapshots - {cluster};
    }

    /** The critical section of `resolve`. */
    method PublishUnlessInvalidated(cluster: string, before: nat, snapshot: Snapshot)
      requires before == snapshot.fetch.gen
      modifies this
      ensures View() == React(old(View()), Publishes(cluster, snapshot))
    {
      if generation == before { snapshots := snapshots[cluster := snapshot]; }
    }

    /** The other tasks, while this one awaits. */
    method Await(others: seq<Event>)
      modifies this
      ensures View() == ReactAll(old(View()), others)
    {
      for i := 0 to |others|
        invariant View() == ReactAll(old(View()), others[..i])
      {
        assert others[..i + 1][..i] == others[..i];
        match others[i] {
          case Invalidates(None) => Invalidate();
          case Invalidates(Some(c)) => InvalidateCluster(c);
          case Publishes(c, snapshot) => PublishUnlessInvalidated(c, snapshot.fetch.gen, snapshot);
        }
      }
      assert others[..|others|] == others;
    }

    /**
     * `resolve`: from an unexpired snapshot, or from a request of its own, which
     * enters the cache exactly when nobody invalidated while it was away.
     */
    method Resolve(cluster: string, vmid: u32, now: nat, others: seq<Event>, answer: Option<Listed>, later: nat)
      returns (read: Resolved)
      modifies this
      ensures var hit := Fresh(old(View()), ttl, now, cluster, vmid);
        hit.Some? ==> read == Found(hit.value) && View() == old(View())
      ensures Fresh(old(View()), ttl, now, cluster, vmid).None? && answer.None? ==>
        read == Unreadable && View() == ReactAll(old(View()), others)
      ensures Fresh(old(View()), ttl, now, cluster, vmid).None? && answer.Some? ==>
        && read == ReadFrom(answer.value.guests, vmid)
        && var met := ReactAll(old(View()), others);
           var own := Snapshot(later, Fetch(answer.value.guests, old(generation), now, answer.value.sampled));
           View() == if NobodyInvalidates(others) then Published(met, cluster, own) else met
    {
      var cached := LookupFresh(cluster, vmid, now);
      if cached.Some? { return Found(cached.value); }
      var before := generation;
      GenerationTellsInvalidations(View(), others);
      Await(others);
      if answer.None? { return Unreadable; }
      var guests := answer.value.guests;
      read := if vmid in guests then Found(guests[vmid]) else Absent;
      PublishUnlessInvalidated(cluster, before, Snapshot(later, Fetch(guests, before, now, answer.value.sampled)));
    }
  }

  /** Publishers that loaded their generation before it last changed all decline. */
  lemma {:induction false} StalePublishersDecline(cache: Cache, es: seq<Event>, cluster: string)
    requires cluster !in cache.snapshots
    requires forall i :: 0 <= i < |es| && es[i].Publishes? ==> es[i].snapshot.fetch.gen < cache.generation
    ensures cluster !in ReactAll(cache, es).snapshots
  {
    if es != [] {
      var init := es[..|es| - 1];
      forall i | 0 <= i < |init| && init[i].Publishes? ensures init[i].snapshot.fetch.gen < cache.generation {
        assert init[i] == es[i];
      }
      StalePublishersDecline(cache, init, cluster);
      GenerationTellsInvalidations(cache, init);
    }
  }

  // ---- The methods as steps of the protocol --------------------------------------------------

  /** Nobody holds the lock, and `tid` is the caller. */
  predicate Calls(s: P.Sys, tid: P.Tid, c: P.Caller) { s.writer.None? && tid in s.callers && s.callers[tid] == c }

  lemma TwoSteps(w: P.World, s: P.Sys, a: P.Action, b: P.Action, rest: seq<P.Action>)
    requires P.Enabled(s, a) && P.Enabled(P.Do(w, s, a), b) && P.Runs(w, P.Do(w, P.Do(w, s, a), b), rest)
    ensures P.Runs(w, s, [a, b] + rest)
    ensures P.After(w, s, [a, b] + rest) == P.After(w, P.Do(w, P.Do(w, s, a), b), rest)
  {
    var acts := [a, b] + rest;
    assert acts[1..][1..] == rest && acts[1..][0] == b;
    assert P.Runs(w, P.Do(w, s, a), acts[1..]);
  }

  /** An invalidation that nobody interrupts does to the cache what the method does. */
  lemma InvalidationAsSteps(w: P.World, s: P.Sys, tid: P.Tid, target: Option<string>, born: nat)
    requires Calls(s, tid, P.Invalidating(target, born, P.Starting))
    ensures var acts := [P.Bump(tid), P.LockToEvict(tid), P.Evict(tid), P.Finish(tid)];
      P.Runs(w, s, acts) && P.After(w, s, acts).cache == React(s.cache, Invalidates(target)) && P.After(w, s, acts).writer.None?
  {
    var s1 := P.Do(w, s, P.Bump(tid));
    var s2 := P.Do(w, s1, P.LockToEvict(tid));
    var s3 := P.Do(w, s2, P.Evict(tid));
    TwoSteps(w, s2, P.Evict(tid), P.Finish(tid), []);
    assert [P.Evict(tid), P.Finish(tid)] + [] == [P.Evict(tid), P.Finish(tid)];
    TwoSteps(w, s, P.Bump(tid), P.LockToEvict(tid), [P.Evict(tid), P.Finish(tid)]);
    assert [P.Bump(tid), P.LockToEvict(tid)] + [P.Evict(tid), P.Finish(tid)]
        == [P.Bump(tid), P.LockToEvict(tid), P.Evict(tid), P.Finish(tid)];
  }

  /** Likewise the critical section of a resolve, whichever way the comparison goes. */
  lemma PublicationAsSteps(w: P.World, s: P.Sys, tid: P.Tid, cluster: string, vmid: u32, floor: nat, born: nat, f: Fetch)
    requires Calls(s, tid, P.Resolving(cluster, vmid, floor, born, P.Answered(f)))
    ensures var last := if s.cache.generation == f.gen then [P.Publish(tid), P.Return(tid)] else [P.Return(tid)];
      var acts := [P.LockToPublish(tid), P.Compare(tid)] + last;
      && P.Runs(w, s, acts)
      && P.After(w, s, acts).cache == React(s.cache, Publishes(cluster, Snapshot(s.now, f)))
      && P.After(w, s, acts).writer.None?
  {
    var s1 := P.Do(w, s, P.LockToPublish(tid));
    var s2 := P.Do(w, s1, P.Compare(tid));
    if s.cache.generation == f.gen {
      TwoSteps(w, s2, P.Publish(tid), P.Return(tid), []);
      assert [P.Publish(tid), P.Return(tid)] + [] == [P.Publish(tid), P.Return(tid)];
      TwoSteps(w, s, P.LockToPublish(tid), P.Compare(tid), [P.Publish(tid), P.Return(tid)]);
    } else {
      assert [P.Return(tid)][1..] == [] && P.Runs(w, P.Do(w, s2, P.Return(tid)), []);
      TwoSteps(w, s, P.LockToPublish(tid), P.Compare(tid), [P.Return(tid)]);
    }
  }
}

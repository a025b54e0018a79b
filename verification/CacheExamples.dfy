/** A run of the guest index in full: what a later resolve is served can be older than what an earlier one was. */
module CacheExamples {
  import opened Text
  import opened Guests
  import opened Authorization
  import opened GuestCache
  import opened CacheProtocol
  import K = CacheSafety

  ghost predicate LeadsTo(w: World, s0: Sys, acts: seq<Action>, s: Sys) {
    Init(s0) && Runs(w, s0, acts) && After(w, s0, acts) == s
  }

  /** Some run of a new index leads to `s`. */
  ghost predicate Reached(w: World, s: Sys) { exists s0: Sys, acts: seq<Action> :: LeadsTo(w, s0, acts, s) }

  lemma OneMore(w: World, s: Sys, a: Action, s': Sys)
    requires Reached(w, s) && Enabled(s, a) && Do(w, s, a) == s'
    ensures Reached(w, s')
  {
    var s0: Sys, acts: seq<Action> :| LeadsTo(w, s0, acts, s);
    RunExtends(w, s0, acts, a);
    assert LeadsTo(w, s0, acts + [a], s');
  }

  // ---- Resolves of one cluster after a single invalidation of it ------------------------

  /** The time to live, the cluster, a guest of it, and when the cluster was invalidated. */
  datatype Scene = Scene(ttl: nat, cluster: string, vmid: u32, bump: nat)

  /** The index at `now`, with whatever is cached and whoever is calling. */
  function Index(sc: Scene, now: nat, cached: map<string, Snapshot>, writer: Option<Tid>, callers: map<Tid, Caller>): Sys {
    Sys(sc.ttl, now, Cache(cached, 1), writer, callers, [sc.bump], 0, map[sc.cluster := 1])
  }

  function Resolve(sc: Scene, born: nat, pc: ResolvePc): Caller { Resolving(sc.cluster, sc.vmid, 1, born, pc) }

  function Untouched(sc: Scene, now: nat): Sys { Sys(sc.ttl, now, Cache(map[], 0), None, map[], [], 0, map[]) }

  lemma {:induction false} NothingHappens(w: World, sc: Scene, now: nat)
    ensures Reached(w, Untouched(sc, now))
  {
    if now == 0 {
      assert LeadsTo(w, Untouched(sc, 0), [], Untouched(sc, 0));
    } else {
      NothingHappens(w, sc, now - 1);
      OneMore(w, Untouched(sc, now - 1), Tick, Untouched(sc, now));
    }
  }

  /** The index while its only caller invalidates. */
  function Invalidating0(sc: Scene, gen: nat, writer: Option<Tid>, st: InvalidatePc, floors: map<string, nat>): Sys {
    Sys(sc.ttl, sc.bump, Cache(map[], gen), writer, map[0 := Invalidating(Some(sc.cluster), sc.bump, st)],
        if gen == 0 then [] else [sc.bump], 0, floors)
  }

  lemma EvictsNothing(w: World, sc: Scene)
    ensures var s := Invalidating0(sc, 1, Some(0), Evicting(1), map[]);
      Enabled(s, Evict(0)) && Do(w, s, Evict(0)) == Invalidating0(sc, 1, Some(0), Releasing(1), map[sc.cluster := 1])
  {
    var none: map<string, Snapshot> := map[];
    var zero: map<string, nat> := map[];
    assert none - {sc.cluster} == none && zero[sc.cluster := 1] == map[sc.cluster := 1];
  }

  lemma IsBumped(w: World, sc: Scene)
    ensures Reached(w, Invalidating0(sc, 1, Some(0), Evicting(1), map[]))
  {
    NothingHappens(w, sc, sc.bump);
    OneMore(w, Untouched(sc, sc.bump), BeginInvalidate(0, Some(sc.cluster)), Invalidating0(sc, 0, None, Starting, map[]));
    OneMore(w, Invalidating0(sc, 0, None, Starting, map[]), Bump(0), Invalidating0(sc, 1, None, BumpedTo(1), map[]));
    OneMore(w, Invalidating0(sc, 1, None, BumpedTo(1), map[]), LockToEvict(0), Invalidating0(sc, 1, Some(0), Evicting(1), map[]));
  }

  /** The cluster is invalidated at the scene's moment, and the caller leaves. */
  lemma IsInvalidated(w: World, sc: Scene)
    ensures Reached(w, Index(sc, sc.bump, map[], None, map[]))
  {
    IsBumped(w, sc);
    EvictsNothing(w, sc);
    var floors: map<string, nat> := map[sc.cluster := 1];
    OneMore(w, Invalidating0(sc, 1, Some(0), Evicting(1), map[]), Evict(0), Invalidating0(sc, 1, Some(0), Releasing(1), floors));
    OneMore(w, Invalidating0(sc, 1, Some(0), Releasing(1), floors), Finish(0), Invalidating0(sc, 1, None, Finished(1), floors));
    var callers: map<Tid, Caller> := map[0 := Invalidating(Some(sc.cluster), sc.bump, Finished(1))];
    assert callers - {0} == map[];
    OneMore(w, Invalidating0(sc, 1, None, Finished(1), floors), Leave(0), Index(sc, sc.bump, map[], None, map[]));
  }

  /** One step of one caller. */
  lemma Advances(w: World, s: Sys, a: Action, s': Sys, callers: map<Tid, Caller>, tid: Tid)
    requires Reached(w, s) && Enabled(s, a) && tid in s.callers && tid in s'.callers
    requires s.callers == callers[tid := s.callers[tid]] && s'.callers == callers[tid := s'.callers[tid]]
    requires Do(w, s, a) == s'.(callers := s.callers[tid := s'.callers[tid]])
    ensures Reached(w, s')
  {
    assert s.callers[tid := s'.callers[tid]] == s'.callers;
    OneMore(w, s, a, s');
  }

  /** A resolve begins, finds nothing cached, loads the generation and asks. */
  lemma Asks(w: World, sc: Scene, now: nat, callers: map<Tid, Caller>, tid: Tid)
    requires Reached(w, Index(sc, now, map[], None, callers)) && tid !in callers
    ensures Reached(w, Index(sc, now, map[], None, callers[tid := Resolve(sc, now, Asking(1, now))]))
  {
    var at := (pc: ResolvePc) => Index(sc, now, map[], None, callers[tid := Resolve(sc, now, pc)]);
    OneMore(w, Index(sc, now, map[], None, callers), BeginResolve(tid, sc.cluster, sc.vmid), at(Looking));
    Advances(w, at(Looking), Lookup(tid), at(Missed), callers, tid);
    Advances(w, at(Missed), LoadGeneration(tid), at(Loaded(1)), callers, tid);
    Advances(w, at(Loaded(1)), Ask(tid), at(Asking(1, now)), callers, tid);
  }

  lemma {:induction false} TimePasses(
    w: World, sc: Scene, now: nat, later: nat, cached: map<string, Snapshot>, callers: map<Tid, Caller>)
    requires Reached(w, Index(sc, now, cached, None, callers)) && now <= later
    ensures Reached(w, Index(sc, later, cached, None, callers))
    decreases later - now
  {
    if now < later {
      OneMore(w, Index(sc, now, cached, None, callers), Tick, Index(sc, now + 1, cached, None, callers));
      TimePasses(w, sc, now + 1, later, cached, callers);
    }
  }

  /** A resolve that has asked is answered with the state of any moment since. */
  lemma IsAnswered(w: World, sc: Scene, now: nat, callers: map<Tid, Caller>, tid: Tid, asked: nat, sampled: nat)
    requires Reached(w, Index(sc, now, map[], None, callers)) && tid in callers && asked <= sampled <= now
    requires callers[tid] == Resolve(sc, asked, Asking(1, asked))
    ensures var f := Fetch(w(sc.cluster, sampled), 1, asked, sampled);
      Reached(w, Index(sc, now, map[], None, callers[tid := Resolve(sc, asked, Answered(f))]))
  {
    var f := Fetch(w(sc.cluster, sampled), 1, asked, sampled);
    OneMore(w, Index(sc, now, map[], None, callers), Answer(tid, sampled),
            Index(sc, now, map[], None, callers[tid := Resolve(sc, asked, Answered(f))]));
  }

  /** A resolve with its answer in hand publishes it, whatever was cached before, and returns. */
  lemma PublishesAndReturns(
    w: World, sc: Scene, now: nat, cached: map<string, Snapshot>, callers: map<Tid, Caller>, tid: Tid, born: nat, f: Fetch)
    requires Reached(w, Index(sc, now, cached, None, callers)) && tid in callers && f.gen == 1
    requires callers[tid] == Resolve(sc, born, Answered(f))
    ensures Reached(w, Index(sc, now, cached[sc.cluster := Snapshot(now, f)], None,
                             callers[tid := Resolve(sc, born, Served(Entry(f.guests, sc.vmid), f, None, now))]))
  {
    var at := (pc: ResolvePc) => callers[tid := Resolve(sc, born, pc)];
    assert at(Answered(f)) == callers;
    Advances(w, Index(sc, now, cached, None, callers), LockToPublish(tid),
             Index(sc, now, cached, Some(tid), at(Comparing(f))), callers, tid);
    Advances(w, Index(sc, now, cached, Some(tid), at(Comparing(f))), Compare(tid),
             Index(sc, now, cached, Some(tid), at(Matched(f))), callers, tid);
    var published := cached[sc.cluster := Snapshot(now, f)];
    Advances(w, Index(sc, now, cached, Some(tid), at(Matched(f))), Publish(tid),
             Index(sc, now, published, Some(tid), at(Leaving(f))), callers, tid);
    Advances(w, Index(sc, now, published, Some(tid), at(Leaving(f))), Return(tid),
             Index(sc, now, published, None, at(Served(Entry(f.guests, sc.vmid), f, None, now))), callers, tid);
  }

  /** A resolve that begins now and finds its guest cached. */
  lemma IsServedFromCache(w: World, sc: Scene, now: nat, cached: map<string, Snapshot>, callers: map<Tid, Caller>, tid: Tid)
    requires Reached(w, Index(sc, now, cached, None, callers)) && tid !in callers
    requires sc.cluster in cached && cached[sc.cluster].taken == now && sc.vmid in cached[sc.cluster].fetch.guests
    ensures var f := cached[sc.cluster].fetch;
      Reached(w, Index(sc, now, cached, None,
                       callers[tid := Resolve(sc, now, Served(Some(f.guests[sc.vmid]), f, Some(now), now))]))
  {
    var f := cached[sc.cluster].fetch;
    var at := (pc: ResolvePc) => Index(sc, now, cached, None, callers[tid := Resolve(sc, now, pc)]);
    OneMore(w, Index(sc, now, cached, None, callers), BeginResolve(tid, sc.cluster, sc.vmid), at(Looking));
    Advances(w, at(Looking), Lookup(tid), at(Served(Some(f.guests[sc.vmid]), f, Some(now), now)), callers, tid);
  }

  /** Two requests of one generation are away when the clock shows `a`: one to be answered with moment `m`, one with `a`. */
  lemma TwoAreAnswered(w: World, sc: Scene, m: nat, a: nat)
    requires sc.bump <= m < a
    ensures var older, newer := Fetch(w(sc.cluster, m), 1, sc.bump, m), Fetch(w(sc.cluster, a), 1, a, a);
      Reached(w, Index(sc, a, map[], None,
        map[1 := Resolve(sc, sc.bump, Answered(older)), 2 := Resolve(sc, a, Answered(newer))]))
  {
    IsInvalidated(w, sc);
    var none: map<Tid, Caller> := map[];
    Asks(w, sc, sc.bump, none, 1);
    var callers := none[1 := Resolve(sc, sc.bump, Asking(1, sc.bump))];
    TimePasses(w, sc, sc.bump, a, map[], callers);
    Asks(w, sc, a, callers, 2);
    callers := callers[2 := Resolve(sc, a, Asking(1, a))];
    IsAnswered(w, sc, a, callers, 1, sc.bump, m);
    callers := callers[1 := Resolve(sc, sc.bump, Answered(Fetch(w(sc.cluster, m), 1, sc.bump, m)))];
    IsAnswered(w, sc, a, callers, 2, a, a);
    callers := callers[2 := Resolve(sc, a, Answered(Fetch(w(sc.cluster, a), 1, a, a)))];
    assert callers == map[1 := callers[1], 2 := callers[2]];
  }

  /**
   * Whenever a guest was listed at a moment `m` since the bump and before `a`, there
   * is a run in which a resolve is served the state of `a` at `a`, and one that begins
   * at `b` is served the state of `m` from the cache.
   */
  lemma ReadsCanGoBackwards(w: World, sc: Scene, m: nat, a: nat, b: nat) returns (s: Sys)
    requires sc.bump <= m < a <= b && sc.vmid in w(sc.cluster, m)
    ensures Reached(w, s) && s.ttl == sc.ttl && K.Spaced(s, 2, 3, sc.bump, a, b) && !K.AsNew(s, 2, 3)
    ensures s.callers[3].pc.guest == Some(w(sc.cluster, m)[sc.vmid])
  {
    var older, newer := Fetch(w(sc.cluster, m), 1, sc.bump, m), Fetch(w(sc.cluster, a), 1, a, a);
    TwoAreAnswered(w, sc, m, a);
    var callers: map<Tid, Caller> := map[1 := Resolve(sc, sc.bump, Answered(older)), 2 := Resolve(sc, a, Answered(newer))];
    PublishesAndReturns(w, sc, a, map[], callers, 2, a, newer);
    callers := callers[2 := Resolve(sc, a, Served(Entry(newer.guests, sc.vmid), newer, None, a))];
    var cached: map<string, Snapshot> := map[][sc.cluster := Snapshot(a, newer)];
    TimePasses(w, sc, a, b, cached, callers);
    PublishesAndReturns(w, sc, b, cached, callers, 1, sc.bump, older);
    callers := callers[1 := Resolve(sc, sc.bump, Served(Entry(older.guests, sc.vmid), older, None, b))];
    cached := cached[sc.cluster := Snapshot(b, older)];
    IsServedFromCache(w, sc, b, cached, callers, 3);
    callers := callers[3 := Resolve(sc, b, Served(Some(older.guests[sc.vmid]), older, Some(b), b))];
    s := Index(sc, b, cached, None, callers);
  }

  lemma {:induction false} TtlStays(w: World, s: Sys, acts: seq<Action>)
    requires Runs(w, s, acts)
    ensures After(w, s, acts).ttl == s.ttl
    decreases |acts|
  {
    if acts != [] { TtlStays(w, Do(w, s, acts[0]), acts[1..]); }
  }

  /**
   * For every time to live and every spacing of two reads, the bump the later can
   * count on at `c`, the earlier served at `a`, the later begun at `b`: no run goes
   * back if and only if no cluster lists any guest from `c` up to `a`. So a read
   * renewed since the earlier answer (`a <= c`) is safe, and one that is not is
   * unsafe as soon as there is anything to read.
   */
  lemma ReadsAreMonotoneExactlyWhenRenewed(w: World, ttl: nat, c: nat, a: nat, b: nat)
    requires a <= b
    ensures K.ReadsAreMonotone(w, ttl, c, a, b) <==> !K.SomethingListed(w, c, a)
  {
    if K.SomethingListed(w, c, a) {
      var cluster: string, vmid: u32, m: nat :| c <= m < a && vmid in w(cluster, m);
      var s := ReadsCanGoBackwards(w, Scene(ttl, cluster, vmid, c), m, a, b);
      var s0: Sys, acts: seq<Action> :| LeadsTo(w, s0, acts, s);
      TtlStays(w, s0, acts);
      assert K.Run(w, s0, acts) && K.Spaced(After(w, s0, acts), 2, 3, c, a, b) && !K.AsNew(After(w, s0, acts), 2, 3);
    } else {
      forall s0: Sys, acts: seq<Action>, u: Tid, v: Tid |
        s0.ttl == ttl && K.Run(w, s0, acts) && K.Spaced(After(w, s0, acts), u, v, c, a, b)
        ensures K.AsNew(After(w, s0, acts), u, v)
      {
        if !K.AsNew(After(w, s0, acts), u, v) { K.GoingBackShowsSomethingListed(w, s0, acts, u, v, c, a, b); }
      }
    }
  }
}

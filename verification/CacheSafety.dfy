/** What no interleaving of resolves and invalidations can break. */
module CacheSafety {
  import opened Text
  import opened Guests
  import opened Authorization
  import opened GuestCache
  import opened CacheProtocol

  // ---- The invariant --------------------------------------------------------------------

  ghost predicate TimesOk(s: Sys) {
    && |s.bumps| == s.cache.generation
    && (forall i, j :: 0 <= i <= j < |s.bumps| ==> s.bumps[i] <= s.bumps[j])
    && (forall i :: 0 <= i < |s.bumps| ==> s.bumps[i] <= s.now)
  }

  ghost predicate FloorsOk(s: Sys) { forall c :: Floor(s, c) <= |s.bumps| }

  /** The answer's request began in its own generation or later, and it tells the truth about the moment it was sampled. */
  ghost predicate FetchOk(w: World, s: Sys, cluster: string, f: Fetch) {
    f.gen <= |s.bumps| && Since(s, f.gen) <= f.started <= f.sampled <= s.now && f.guests == w(cluster, f.sampled)
  }

  ghost predicate SnapshotOk(w: World, s: Sys, cluster: string)
    requires cluster in s.cache.snapshots
  {
    var snapshot := s.cache.snapshots[cluster];
    FetchOk(w, s, cluster, snapshot.fetch) && Floor(s, cluster) <= snapshot.fetch.gen
    && snapshot.fetch.sampled <= snapshot.taken <= s.now
  }

  ghost predicate ResolveOk(w: World, s: Sys, tid: Tid, r: Caller)
    requires r.Resolving?
  {
    && r.floor <= Floor(s, r.cluster) && r.born <= s.now
    && match r.pc
       case Looking => true
       case Missed => true
       case Loaded(gen) => r.floor <= gen <= |s.bumps|
       case Asking(gen, started) => r.floor <= gen <= |s.bumps| && Since(s, gen) <= started <= s.now && r.born <= started
       case Answered(f) => OwnFetch(w, s, r, f)
       case Comparing(f) => OwnFetch(w, s, r, f) && s.writer == Some(tid)
       case Matched(f) => OwnFetch(w, s, r, f) && s.writer == Some(tid) && Floor(s, r.cluster) <= f.gen
       case Leaving(f) => OwnFetch(w, s, r, f) && s.writer == Some(tid)
       case Served(guest, f, taken, at) =>
         && FetchOk(w, s, r.cluster, f) && r.floor <= f.gen && f.sampled <= at <= s.now && r.born <= at
         && guest == Entry(f.guests, r.vmid)
         && (taken.None? ==> r.born <= f.started)
         && (taken.Some? ==> guest.Some? && f.sampled <= taken.value <= at <= taken.value + s.ttl)
  }

  ghost predicate OwnFetch(w: World, s: Sys, r: Caller, f: Fetch)
    requires r.Resolving?
  {
    FetchOk(w, s, r.cluster, f) && r.floor <= f.gen && r.born <= f.started
  }

  ghost predicate Targets(target: Option<string>, cluster: string) { target.None? || target == Some(cluster) }

  ghost predicate BumpOk(s: Sys, v: Caller, gen: nat)
    requires v.Invalidating?
  {
    0 < gen <= |s.bumps| && v.born <= Since(s, gen)
  }

  ghost predicate InvalidateOk(s: Sys, tid: Tid, v: Caller)
    requires v.Invalidating?
  {
    match v.step
    case Starting => v.born <= s.now
    case BumpedTo(gen) => BumpOk(s, v, gen)
    case Evicting(gen) => BumpOk(s, v, gen) && s.writer == Some(tid)
    case Releasing(gen) => BumpOk(s, v, gen) && s.writer == Some(tid) && (forall c :: Targets(v.target, c) ==> gen <= Floor(s, c))
    case Finished(gen) => BumpOk(s, v, gen) && (forall c :: Targets(v.target, c) ==> gen <= Floor(s, c))
  }

  ghost predicate CallerOk(w: World, s: Sys, tid: Tid, c: Caller) {
    if c.Resolving? then ResolveOk(w, s, tid, c) else InvalidateOk(s, tid, c)
  }

  ghost predicate CallersOk(w: World, s: Sys) { forall tid :: tid in s.callers ==> CallerOk(w, s, tid, s.callers[tid]) }

  ghost predicate SnapshotsOk(w: World, s: Sys) { forall c :: c in s.cache.snapshots ==> SnapshotOk(w, s, c) }

  ghost predicate Inv(w: World, s: Sys) {
    TimesOk(s) && FloorsOk(s) && SnapshotsOk(w, s) && CallersOk(w, s)
  }

  // ---- Framing ---------------------------------------------------------------------------

  /** Time, generations and floors only grow, and a floor only while nobody else holds the lock. */
  ghost predicate Grows(s: Sys, s': Sys) {
    && s'.ttl == s.ttl && s.now <= s'.now && s.bumps <= s'.bumps
    && (forall c :: Floor(s, c) <= Floor(s', c))
  }

  lemma GrowthKeepsFetch(w: World, s: Sys, s': Sys, cluster: string, f: Fetch)
    requires Grows(s, s') && FetchOk(w, s, cluster, f)
    ensures FetchOk(w, s', cluster, f)
  {
  }

  lemma GrowthKeepsSnapshot(w: World, s: Sys, s': Sys, cluster: string)
    requires Grows(s, s') && cluster in s.cache.snapshots && SnapshotOk(w, s, cluster)
    requires cluster in s'.cache.snapshots && s'.cache.snapshots[cluster] == s.cache.snapshots[cluster]
    requires Floor(s', cluster) == Floor(s, cluster)
    ensures SnapshotOk(w, s', cluster)
  {
    GrowthKeepsFetch(w, s, s', cluster, s.cache.snapshots[cluster].fetch);
  }

  /** A caller that does not move keeps its facts, if its lock is not taken away and its floor not raised under it. */
  lemma GrowthKeepsCaller(w: World, s: Sys, s': Sys, tid: Tid, c: Caller)
    requires Grows(s, s') && CallerOk(w, s, tid, c)
    requires s.writer == Some(tid) ==> s'.writer == Some(tid) && (forall c :: Floor(s', c) == Floor(s, c))
    ensures CallerOk(w, s', tid, c)
  {
    if c.Resolving? && (c.pc.Answered? || c.pc.Comparing? || c.pc.Matched? || c.pc.Leaving? || c.pc.Served?) {
      GrowthKeepsFetch(w, s, s', c.cluster, c.pc.fetch);
    }
  }

  /** A step by one caller that leaves the snapshots alone asks only for that caller. */
  lemma QuietStepKeeps(w: World, s: Sys, s': Sys, tid: Tid)
    requires Inv(w, s) && TimesOk(s') && Grows(s, s') && s'.cache.snapshots == s.cache.snapshots
    requires forall c :: Floor(s', c) == Floor(s, c)
    requires forall u :: u in s'.callers && u != tid ==> u in s.callers && s'.callers[u] == s.callers[u]
    requires s.writer.None? || s.writer == Some(tid) || s'.writer == s.writer
    requires tid in s'.callers ==> CallerOk(w, s', tid, s'.callers[tid])
    ensures Inv(w, s')
  {
    forall c ensures Floor(s', c) <= |s'.bumps| { assert Floor(s, c) <= |s.bumps|; }
    forall c | c in s'.cache.snapshots ensures SnapshotOk(w, s', c) { GrowthKeepsSnapshot(w, s, s', c); }
    forall u | u in s'.callers ensures CallerOk(w, s', u, s'.callers[u]) {
      if u != tid { GrowthKeepsCaller(w, s, s', u, s.callers[u]); }
    }
  }

  // ---- One lemma per kind of step ----------------------------------------------------------

  lemma LookupKeeps(w: World, s: Sys, tid: Tid)
    requires Inv(w, s) && Enabled(s, Lookup(tid))
    ensures Inv(w, Do(w, s, Lookup(tid)))
  {
    var s', r := Do(w, s, Lookup(tid)), s.callers[tid];
    assert CallerOk(w, s, tid, r);
    if Fresh(s.cache, s.ttl, s.now, r.cluster, r.vmid).Some? {
      assert SnapshotOk(w, s, r.cluster);
      GrowthKeepsFetch(w, s, s', r.cluster, s.cache.snapshots[r.cluster].fetch);
    }
    QuietStepKeeps(w, s, s', tid);
  }

  lemma FetchStepKeeps(w: World, s: Sys, a: Action)
    requires Inv(w, s) && Enabled(s, a)
    requires a.LoadGeneration? || a.Ask? || a.Answer?
    ensures Inv(w, Do(w, s, a))
  {
    assert CallerOk(w, s, a.tid, s.callers[a.tid]);
    QuietStepKeeps(w, s, Do(w, s, a), a.tid);
  }

  lemma LockStepKeeps(w: World, s: Sys, a: Action)
    requires Inv(w, s) && Enabled(s, a)
    requires a.LockToPublish? || a.Compare? || a.Return?
    ensures Inv(w, Do(w, s, a))
  {
    assert CallerOk(w, s, a.tid, s.callers[a.tid]);
    QuietStepKeeps(w, s, Do(w, s, a), a.tid);
  }

  /** Publishing is safe because the lock was held since the generations were compared. */
  lemma PublishKeeps(w: World, s: Sys, tid: Tid)
    requires Inv(w, s) && Enabled(s, Publish(tid))
    ensures Inv(w, Do(w, s, Publish(tid)))
  {
    var s', r := Do(w, s, Publish(tid)), s.callers[tid];
    assert CallerOk(w, s, tid, r);
    GrowthKeepsFetch(w, s, s', r.cluster, r.pc.fetch);
    forall c ensures Floor(s', c) <= |s'.bumps| { assert Floor(s, c) <= |s.bumps|; }
    forall c | c in s'.cache.snapshots ensures SnapshotOk(w, s', c) {
      if c != r.cluster { GrowthKeepsSnapshot(w, s, s', c); }
    }
    forall u | u in s'.callers ensures CallerOk(w, s', u, s'.callers[u]) {
      if u != tid { GrowthKeepsCaller(w, s, s', u, s.callers[u]); }
    }
  }

  lemma BumpKeeps(w: World, s: Sys, tid: Tid)
    requires Inv(w, s) && Enabled(s, Bump(tid))
    ensures Inv(w, Do(w, s, Bump(tid)))
  {
    assert CallerOk(w, s, tid, s.callers[tid]);
    QuietStepKeeps(w, s, Do(w, s, Bump(tid)), tid);
  }

  lemma InvalidateLockKeeps(w: World, s: Sys, a: Action)
    requires Inv(w, s) && Enabled(s, a) && (a.LockToEvict? || a.Finish?)
    ensures Inv(w, Do(w, s, a))
  {
    assert CallerOk(w, s, a.tid, s.callers[a.tid]);
    QuietStepKeeps(w, s, Do(w, s, a), a.tid);
  }

  /** Evicting raises the floor, and no other caller can be between comparing and publishing. */
  lemma EvictKeeps(w: World, s: Sys, tid: Tid)
    requires Inv(w, s) && Enabled(s, Evict(tid))
    ensures Inv(w, Do(w, s, Evict(tid)))
  {
    var s', v := Do(w, s, Evict(tid)), s.callers[tid];
    assert CallerOk(w, s, tid, v);
    forall c ensures Floor(s, c) <= Floor(s', c) <= |s.bumps| && (!Targets(v.target, c) ==> Floor(s', c) == Floor(s, c)) {
      assert Floor(s, c) <= |s.bumps|;
    }
    forall c | c in s'.cache.snapshots ensures SnapshotOk(w, s', c) {
      assert !Targets(v.target, c);
      GrowthKeepsSnapshot(w, s, s', c);
    }
    forall u | u in s'.callers ensures CallerOk(w, s', u, s'.callers[u]) {
      if u != tid { GrowthKeepsCaller(w, s, s', u, s.callers[u]); }
    }
  }

  lemma StepKeeps(w: World, s: Sys, a: Action)
    requires Inv(w, s) && Enabled(s, a)
    ensures Inv(w, Do(w, s, a))
  {
    match a {
      case Tick => TickKeeps(w, s);
      case BeginResolve(tid, _, _) => QuietStepKeeps(w, s, Do(w, s, a), tid);
      case Lookup(tid) => LookupKeeps(w, s, tid);
      case LoadGeneration(_) => FetchStepKeeps(w, s, a);
      case Ask(_) => FetchStepKeeps(w, s, a);
      case Answer(_, _) => FetchStepKeeps(w, s, a);
      case LockToPublish(_) => LockStepKeeps(w, s, a);
      case Compare(_) => LockStepKeeps(w, s, a);
      case Publish(tid) => PublishKeeps(w, s, tid);
      case Return(_) => LockStepKeeps(w, s, a);
      case BeginInvalidate(tid, _) => QuietStepKeeps(w, s, Do(w, s, a), tid);
      case Bump(tid) => BumpKeeps(w, s, tid);
      case LockToEvict(_) => InvalidateLockKeeps(w, s, a);
      case Evict(tid) => EvictKeeps(w, s, tid);
      case Finish(_) => InvalidateLockKeeps(w, s, a);
      case Leave(tid) => QuietStepKeeps(w, s, Do(w, s, a), tid);
    }
  }

  lemma TickKeeps(w: World, s: Sys)
    requires Inv(w, s)
    ensures Inv(w, Do(w, s, Tick))
  {
    var s' := Do(w, s, Tick);
    forall c ensures Floor(s', c) <= |s'.bumps| { assert Floor(s, c) <= |s.bumps|; }
    forall c | c in s'.cache.snapshots ensures SnapshotOk(w, s', c) { GrowthKeepsSnapshot(w, s, s', c); }
    forall u | u in s'.callers ensures CallerOk(w, s', u, s'.callers[u]) { GrowthKeepsCaller(w, s, s', u, s.callers[u]); }
  }

  lemma {:induction false} InvariantAfter(w: World, s: Sys, acts: seq<Action>)
    requires Inv(w, s) && Runs(w, s, acts)
    ensures Inv(w, After(w, s, acts))
    decreases |acts|
  {
    if acts != [] {
      StepKeeps(w, s, acts[0]);
      InvariantAfter(w, Do(w, s, acts[0]), acts[1..]);
    }
  }

  // ---- What every run keeps --------------------------------------------------------------------

  ghost predicate Run(w: World, s0: Sys, acts: seq<Action>) { Init(s0) && Runs(w, s0, acts) }

  lemma InvariantOfRun(w: World, s0: Sys, acts: seq<Action>)
    requires Run(w, s0, acts)
    ensures Inv(w, After(w, s0, acts))
  {
    InvariantAfter(w, s0, acts);
  }

  lemma SinceIsMonotone(s: Sys, a: nat, b: nat)
    requires TimesOk(s) && a <= b <= |s.bumps|
    ensures Since(s, a) <= Since(s, b)
  {
  }

  /** An invalidation of `cluster` is about to return. */
  ghost predicate Finishes(s: Sys, tid: Tid, cluster: string) {
    Enabled(s, Finish(tid)) && Targets(s.callers[tid].target, cluster)
  }

  lemma FloorNeverSinks(w: World, s: Sys, a: Action, cluster: string)
    requires Enabled(s, a)
    ensures Floor(s, cluster) <= Floor(Do(w, s, a), cluster) && s.bumps <= Do(w, s, a).bumps
  {
  }

  lemma {:induction false} FloorLasts(w: World, s: Sys, acts: seq<Action>, cluster: string)
    requires Runs(w, s, acts)
    ensures Floor(s, cluster) <= Floor(After(w, s, acts), cluster) && s.bumps <= After(w, s, acts).bumps
    decreases |acts|
  {
    if acts != [] {
      FloorNeverSinks(w, s, acts[0], cluster);
      FloorLasts(w, Do(w, s, acts[0]), acts[1..], cluster);
    }
  }

  /** The bump of a returning invalidation is below the floor, then and ever after. */
  lemma BumpStaysBelowTheFloor(w: World, s: Sys, tid: Tid, cluster: string, rest: seq<Action>)
    requires Inv(w, s) && Finishes(s, tid, cluster) && Runs(w, Do(w, s, Finish(tid)), rest)
    ensures var t := After(w, Do(w, s, Finish(tid)), rest);
      var gen := s.callers[tid].step.gen;
      && Inv(w, t) && 0 < gen <= Floor(t, cluster) && gen <= |t.bumps| && s.callers[tid].born <= Since(t, gen)
  {
    assert CallerOk(w, s, tid, s.callers[tid]);
    StepKeeps(w, s, Finish(tid));
    InvariantAfter(w, Do(w, s, Finish(tid)), rest);
    FloorNeverSinks(w, s, Finish(tid), cluster);
    FloorLasts(w, Do(w, s, Finish(tid)), rest, cluster);
  }

  /**
   * Once an invalidation has returned, nothing cached for its cluster was
   * requested before its bump, whatever happens in `rest` and whoever leaves.
   */
  lemma NothingStaleIsCached(w: World, s0: Sys, before: seq<Action>, tid: Tid, cluster: string, rest: seq<Action>)
    requires Run(w, s0, before) && Finishes(After(w, s0, before), tid, cluster)
    requires Runs(w, Do(w, After(w, s0, before), Finish(tid)), rest)
    requires cluster in After(w, Do(w, After(w, s0, before), Finish(tid)), rest).cache.snapshots
    ensures var s := After(w, s0, before);
      var t := After(w, Do(w, s, Finish(tid)), rest);
      var gen := s.callers[tid].step.gen;
      0 < gen <= |t.bumps| && s.callers[tid].born <= Since(t, gen) <= t.cache.snapshots[cluster].fetch.started
  {
    InvariantOfRun(w, s0, before);
    var s := After(w, s0, before);
    BumpStaysBelowTheFloor(w, s, tid, cluster, rest);
    var t := After(w, Do(w, s, Finish(tid)), rest);
    assert SnapshotOk(w, t, cluster);
    SinceIsMonotone(t, s.callers[tid].step.gen, t.cache.snapshots[cluster].fetch.gen);
  }

  /** What a resolve that began at `s` was served is from a request after generation `gen` began, and true of a moment since. */
  ghost predicate ServedSince(w: World, t: Sys, u: Tid, cluster: string, vmid: u32, gen: nat) {
    && ResolvesAt(t, u) && t.callers[u].cluster == cluster && t.callers[u].vmid == vmid
    && (t.callers[u].pc.Served? ==>
          var f := t.callers[u].pc.fetch;
          Since(t, gen) <= f.started <= f.sampled <= t.now && t.callers[u].pc.guest == Entry(w(cluster, f.sampled), vmid))
  }

  /** A resolve that begins on a floor is served from above it. */
  lemma ServedAboveTheFloor(w: World, s: Sys, u: Tid, cluster: string, vmid: u32, gen: nat, rest: seq<Action>)
    requires Inv(w, s) && gen <= Floor(s, cluster) && Enabled(s, BeginResolve(u, cluster, vmid))
    requires Runs(w, Do(w, s, BeginResolve(u, cluster, vmid)), rest)
    requires forall i :: 0 <= i < |rest| ==> rest[i] != Leave(u)
    ensures ServedSince(w, After(w, Do(w, s, BeginResolve(u, cluster, vmid)), rest), u, cluster, vmid, gen)
  {
    var s1 := Do(w, s, BeginResolve(u, cluster, vmid));
    StepKeeps(w, s, BeginResolve(u, cluster, vmid));
    ResolveRemembers(w, s1, rest, u);
    InvariantAfter(w, s1, rest);
    var t := After(w, s1, rest);
    assert CallerOk(w, t, u, t.callers[u]);
    if t.callers[u].pc.Served? { SinceIsMonotone(t, gen, t.callers[u].pc.fetch.gen); }
  }

  /**
   * A resolve that begins after an invalidation of its cluster has returned answers
   * truly about a moment after that invalidation's bump, from a request started
   * after it, whoever has left in the meantime.
   */
  lemma LaterResolvesAreFresh(
    w: World, s0: Sys, before: seq<Action>, tid: Tid, middle: seq<Action>, u: Tid, cluster: string, vmid: u32, rest: seq<Action>)
    requires Run(w, s0, before) && Finishes(After(w, s0, before), tid, cluster)
    requires Runs(w, Do(w, After(w, s0, before), Finish(tid)), middle)
    requires var m := After(w, Do(w, After(w, s0, before), Finish(tid)), middle);
      Enabled(m, BeginResolve(u, cluster, vmid)) && Runs(w, Do(w, m, BeginResolve(u, cluster, vmid)), rest)
    requires forall i :: 0 <= i < |rest| ==> rest[i] != Leave(u)
    ensures var s := After(w, s0, before);
      var m := After(w, Do(w, s, Finish(tid)), middle);
      var t := After(w, Do(w, m, BeginResolve(u, cluster, vmid)), rest);
      var gen := s.callers[tid].step.gen;
      && s.callers[tid].born <= Since(t, gen) && ServedSince(w, t, u, cluster, vmid, gen)
  {
    InvariantOfRun(w, s0, before);
    var s := After(w, s0, before);
    BumpStaysBelowTheFloor(w, s, tid, cluster, middle);
    var m := After(w, Do(w, s, Finish(tid)), middle);
    var m1 := Do(w, m, BeginResolve(u, cluster, vmid));
    ServedAboveTheFloor(w, m, u, cluster, vmid, s.callers[tid].step.gen, rest);
    FloorNeverSinks(w, m, BeginResolve(u, cluster, vmid), cluster);
    FloorLasts(w, m1, rest, cluster);
  }

  ghost predicate SameResolve(a: Caller, b: Caller) {
    a.Resolving? && b.Resolving? && a.cluster == b.cluster && a.vmid == b.vmid && a.floor == b.floor && a.born == b.born
  }

  /** A resolve stays the same call, and no generation is ever forgotten. */
  lemma StepRemembers(w: World, s: Sys, a: Action, u: Tid)
    requires Inv(w, s) && Enabled(s, a) && ResolvesAt(s, u) && a != Leave(u)
    ensures var s' := Do(w, s, a); ResolvesAt(s', u) && SameResolve(s.callers[u], s'.callers[u]) && s.bumps <= s'.bumps
  {
  }

  lemma {:induction false} ResolveRemembers(w: World, s: Sys, acts: seq<Action>, u: Tid)
    requires Inv(w, s) && Runs(w, s, acts) && ResolvesAt(s, u) && (forall i :: 0 <= i < |acts| ==> acts[i] != Leave(u))
    ensures var s' := After(w, s, acts); ResolvesAt(s', u) && SameResolve(s.callers[u], s'.callers[u]) && s.bumps <= s'.bumps
    decreases |acts|
  {
    if acts != [] {
      assert acts[0] != Leave(u);
      StepRemembers(w, s, acts[0], u);
      StepKeeps(w, s, acts[0]);
      forall i | 0 <= i < |acts[1..]| ensures acts[1..][i] != Leave(u) { assert acts[i + 1] != Leave(u); }
      ResolveRemembers(w, Do(w, s, acts[0]), acts[1..], u);
    }
  }

  /**
   * What a resolve served is never older than the time to live plus the time its
   * request took to reach the cache; a resolve that asked for itself is not older
   * than its own call.
   */
  lemma ServedDataIsRecent(w: World, s0: Sys, acts: seq<Action>, u: Tid)
    requires Run(w, s0, acts)
    requires ResolvesAt(After(w, s0, acts), u) && After(w, s0, acts).callers[u].pc.Served?
    ensures var s := After(w, s0, acts);
      var r := s.callers[u];
      var f := r.pc.fetch;
      && r.pc.guest == Entry(w(r.cluster, f.sampled), r.vmid)
      && match r.pc.taken
         case None => r.born <= f.started <= f.sampled <= r.pc.servedAt
         case Some(taken) => r.pc.servedAt - f.started <= s.ttl + (taken - f.started) && f.started <= f.sampled <= taken
  {
    InvariantOfRun(w, s0, acts);
    var s := After(w, s0, acts);
    assert CallerOk(w, s, u, s.callers[u]);
  }

  // ---- When reads do not go back ---------------------------------------------------------------

  predicate Served(s: Sys, u: Tid) { ResolvesAt(s, u) && s.callers[u].pc.Served? }

  /** Of two resolves of one cluster that were served, `v` began after `u` had its answer. */
  predicate Follows(s: Sys, u: Tid, v: Tid) {
    && Served(s, u) && Served(s, v)
    && s.callers[u].cluster == s.callers[v].cluster && s.callers[u].pc.servedAt <= s.callers[v].born
  }

  /** `v` asked the cluster itself, or an invalidation bumped after `u` was served had finished before `v` began. */
  predicate Renewed(s: Sys, u: Tid, v: Tid)
    requires Follows(s, u, v)
  {
    s.callers[v].pc.taken.None? || s.callers[u].pc.servedAt <= Since(s, s.callers[v].floor)
  }

  /** `v` was served a state at least as new as `u` was. */
  predicate AsNew(s: Sys, u: Tid, v: Tid)
    requires Follows(s, u, v)
  {
    s.callers[u].pc.fetch.sampled <= s.callers[v].pc.fetch.sampled
  }

  lemma RenewedReadsNeverGoBack(w: World, s0: Sys, acts: seq<Action>, u: Tid, v: Tid)
    requires Run(w, s0, acts) && Follows(After(w, s0, acts), u, v) && Renewed(After(w, s0, acts), u, v)
    ensures AsNew(After(w, s0, acts), u, v)
  {
    InvariantOfRun(w, s0, acts);
    var s := After(w, s0, acts);
    assert CallerOk(w, s, u, s.callers[u]) && CallerOk(w, s, v, s.callers[v]);
    SinceIsMonotone(s, s.callers[v].floor, s.callers[v].pc.fetch.gen);
  }

  /**
   * `v` follows `u` and was served from the cache: it began at `b`, `u` had been
   * served at `a`, and the last invalidation `v` can count on was bumped at `c`.
   */
  predicate Spaced(s: Sys, u: Tid, v: Tid, c: nat, a: nat, b: nat) {
    && Follows(s, u, v) && s.callers[v].pc.taken.Some?
    && Since(s, s.callers[v].floor) == c && s.callers[u].pc.servedAt == a && s.callers[v].born == b
  }

  /** In every run with this time to live, two reads spaced like that do not go back. */
  ghost predicate ReadsAreMonotone(w: World, ttl: nat, c: nat, a: nat, b: nat) {
    forall s0: Sys, acts: seq<Action>, u: Tid, v: Tid ::
      s0.ttl == ttl && Run(w, s0, acts) && Spaced(After(w, s0, acts), u, v, c, a, b) ==> AsNew(After(w, s0, acts), u, v)
  }

  /** Some cluster lists some guest at a moment from `c` up to `a`. */
  ghost predicate SomethingListed(w: World, c: nat, a: nat) {
    exists cluster: string, vmid: u32, m: nat :: c <= m < a && vmid in w(cluster, m)
  }

  /** A read that goes back was served a guest listed since the bump and before the earlier answer. */
  lemma GoingBackShowsSomethingListed(w: World, s0: Sys, acts: seq<Action>, u: Tid, v: Tid, c: nat, a: nat, b: nat)
    requires Run(w, s0, acts) && Spaced(After(w, s0, acts), u, v, c, a, b) && !AsNew(After(w, s0, acts), u, v)
    ensures SomethingListed(w, c, a)
  {
    InvariantOfRun(w, s0, acts);
    var s := After(w, s0, acts);
    assert CallerOk(w, s, u, s.callers[u]) && CallerOk(w, s, v, s.callers[v]);
    var f := s.callers[v].pc.fetch;
    SinceIsMonotone(s, s.callers[v].floor, f.gen);
    assert c <= f.sampled < a && s.callers[v].vmid in w(s.callers[v].cluster, f.sampled);
  }
}

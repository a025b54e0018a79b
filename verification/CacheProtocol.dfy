/** Unboundedly many resolves and invalidations over one index, one atomic step at a time. */
module CacheProtocol {
  import opened Text
  import opened Guests
  import opened Authorization
  import opened GuestCache

  type Tid = nat

  /** What every cluster truly lists at every moment. */
  type World = (string, nat) -> Listing

  datatype ResolvePc =
    | Looking
    | Missed
    | Loaded(gen: nat)
    | Asking(gen: nat, started: nat)
    | Answered(fetch: Fetch)
    | Comparing(fetch: Fetch)
    | Matched(fetch: Fetch)
    | Leaving(fetch: Fetch)
    | Served(guest: Option<Guest>, fetch: Fetch, taken: Option<nat>, servedAt: nat)

  datatype InvalidatePc =
    | Starting
    | BumpedTo(gen: nat)
    | Evicting(gen: nat)
    | Releasing(gen: nat)
    | Finished(gen: nat)

  /** `floor` is history: the newest invalidation of the cluster that had finished when the resolve began. */
  datatype Caller =
    | Resolving(cluster: string, vmid: u32, floor: nat, born: nat, pc: ResolvePc)
    | Invalidating(target: Option<string>, born: nat, step: InvalidatePc)

  /**
   * `writer` holds the write lock. `bumps` (when each generation began) and the
   * floors (the newest generation evicted, for all clusters and for each) are history.
   */
  datatype Sys = Sys(
    ttl: nat, now: nat, cache: Cache, writer: Option<Tid>, callers: map<Tid, Caller>,
    bumps: seq<nat>, floorOfAll: nat, floors: map<string, nat>)

  datatype Action =
    | Tick
    | BeginResolve(tid: Tid, cluster: string, vmid: u32)
    | Lookup(tid: Tid)
    | LoadGeneration(tid: Tid)
    | Ask(tid: Tid)
    | Answer(tid: Tid, sampled: nat)
    | LockToPublish(tid: Tid)
    | Compare(tid: Tid)
    | Publish(tid: Tid)
    | Return(tid: Tid)
    | BeginInvalidate(tid: Tid, target: Option<string>)
    | Bump(tid: Tid)
    | LockToEvict(tid: Tid)
    | Evict(tid: Tid)
    | Finish(tid: Tid)
    | Leave(tid: Tid)

  function Max(a: nat, b: nat): nat { if a < b then b else a }

  function Floor(s: Sys, cluster: string): nat {
    Max(s.floorOfAll, if cluster in s.floors then s.floors[cluster] else 0)
  }

  /** When generation `gen` began. */
  function Since(s: Sys, gen: nat): nat { if 0 < gen <= |s.bumps| then s.bumps[gen - 1] else 0 }

  predicate ResolvesAt(s: Sys, tid: Tid) { tid in s.callers && s.callers[tid].Resolving? }

  predicate InvalidatesAt(s: Sys, tid: Tid) { tid in s.callers && s.callers[tid].Invalidating? }

  predicate Enabled(s: Sys, a: Action) {
    match a
    case Tick => true
    case BeginResolve(tid, _, _) => tid !in s.callers
    case Lookup(tid) => ResolvesAt(s, tid) && s.callers[tid].pc.Looking? && s.writer.None?
    case LoadGeneration(tid) => ResolvesAt(s, tid) && s.callers[tid].pc.Missed?
    case Ask(tid) => ResolvesAt(s, tid) && s.callers[tid].pc.Loaded?
    case Answer(tid, sampled) =>
      ResolvesAt(s, tid) && s.callers[tid].pc.Asking? && s.callers[tid].pc.started <= sampled <= s.now
    case LockToPublish(tid) => ResolvesAt(s, tid) && s.callers[tid].pc.Answered? && s.writer.None?
    case Compare(tid) => ResolvesAt(s, tid) && s.callers[tid].pc.Comparing?
    case Publish(tid) => ResolvesAt(s, tid) && s.callers[tid].pc.Matched?
    case Return(tid) => ResolvesAt(s, tid) && s.callers[tid].pc.Leaving?
    case BeginInvalidate(tid, _) => tid !in s.callers
    case Bump(tid) => InvalidatesAt(s, tid) && s.callers[tid].step.Starting?
    case LockToEvict(tid) => InvalidatesAt(s, tid) && s.callers[tid].step.BumpedTo? && s.writer.None?
    case Evict(tid) => InvalidatesAt(s, tid) && s.callers[tid].step.Evicting?
    case Finish(tid) => InvalidatesAt(s, tid) && s.callers[tid].step.Releasing?
    case Leave(tid) => tid in s.callers && s.writer != Some(tid)
  }

  /** The caller goes on at `pc`; nothing else moves. */
  function Goto(s: Sys, tid: Tid, pc: ResolvePc): Sys
    requires ResolvesAt(s, tid)
  {
    s.(callers := s.callers[tid := s.callers[tid].(pc := pc)])
  }

  function StepTo(s: Sys, tid: Tid, step: InvalidatePc): Sys
    requires InvalidatesAt(s, tid)
  {
    s.(callers := s.callers[tid := s.callers[tid].(step := step)])
  }

  function Entry(guests: Listing, vmid: u32): Option<Guest> { if vmid in guests then Some(guests[vmid]) else None }

  function DoLookup(s: Sys, tid: Tid): Sys
    requires ResolvesAt(s, tid)
  {
    var r := s.callers[tid];
    match Fresh(s.cache, s.ttl, s.now, r.cluster, r.vmid)
    case None => Goto(s, tid, Missed)
    case Some(guest) =>
      var snapshot := s.cache.snapshots[r.cluster];
      Goto(s, tid, Served(Some(guest), snapshot.fetch, Some(snapshot.taken), s.now))
  }

  function DoEvict(s: Sys, tid: Tid): Sys
    requires InvalidatesAt(s, tid) && s.callers[tid].step.Evicting?
  {
    var target, gen := s.callers[tid].target, s.callers[tid].step.gen;
    var s' := StepTo(s.(cache := Evicted(s.cache, target)), tid, Releasing(gen));
    match target
    case None => s'.(floorOfAll := Max(s.floorOfAll, gen))
    case Some(c) => s'.(floors := s.floors[c := Max(Floor(s, c), gen)])
  }

  function Do(w: World, s: Sys, a: Action): Sys
    requires Enabled(s, a)
  {
    match a
    case Tick => s.(now := s.now + 1)
    case BeginResolve(tid, cluster, vmid) =>
      s.(callers := s.callers[tid := Resolving(cluster, vmid, Floor(s, cluster), s.now, Looking)])
    case Lookup(tid) => DoLookup(s, tid)
    case LoadGeneration(tid) => Goto(s, tid, Loaded(s.cache.generation))
    case Ask(tid) => Goto(s, tid, Asking(s.callers[tid].pc.gen, s.now))
    case Answer(tid, sampled) =>
      var r := s.callers[tid];
      Goto(s, tid, Answered(Fetch(w(r.cluster, sampled), r.pc.gen, r.pc.started, sampled)))
    case LockToPublish(tid) => Goto(s.(writer := Some(tid)), tid, Comparing(s.callers[tid].pc.fetch))
    case Compare(tid) =>
      var f := s.callers[tid].pc.fetch;
      Goto(s, tid, if s.cache.generation == f.gen then Matched(f) else Leaving(f))
    case Publish(tid) =>
      var r := s.callers[tid];
      Goto(s.(cache := Published(s.cache, r.cluster, Snapshot(s.now, r.pc.fetch))), tid, Leaving(r.pc.fetch))
    case Return(tid) =>
      var r := s.callers[tid];
      Goto(s.(writer := None), tid, Served(Entry(r.pc.fetch.guests, r.vmid), r.pc.fetch, None, s.now))
    case BeginInvalidate(tid, target) => s.(callers := s.callers[tid := Invalidating(target, s.now, Starting)])
    case Bump(tid) =>
      StepTo(s.(cache := Bumped(s.cache), bumps := s.bumps + [s.now]), tid, BumpedTo(s.cache.generation + 1))
    case LockToEvict(tid) => StepTo(s.(writer := Some(tid)), tid, Evicting(s.callers[tid].step.gen))
    case Evict(tid) => DoEvict(s, tid)
    case Finish(tid) => StepTo(s.(writer := None), tid, Finished(s.callers[tid].step.gen))
    case Leave(tid) => s.(callers := s.callers - {tid})
  }

  predicate Init(s: Sys) {
    s.cache == Cache(map[], 0) && s.writer.None? && s.callers == map[] && s.bumps == [] && s.floorOfAll == 0
    && s.floors == map[]
  }

  predicate Runs(w: World, s: Sys, acts: seq<Action>)
    decreases |acts|
  {
    acts == [] || (Enabled(s, acts[0]) && Runs(w, Do(w, s, acts[0]), acts[1..]))
  }

  function After(w: World, s: Sys, acts: seq<Action>): Sys
    requires Runs(w, s, acts)
    decreases |acts|
  {
    if acts == [] then s else After(w, Do(w, s, acts[0]), acts[1..])
  }

  /** A run followed by an enabled step is a run. */
  lemma {:induction false} RunExtends(w: World, s: Sys, acts: seq<Action>, a: Action)
    requires Runs(w, s, acts) && Enabled(After(w, s, acts), a)
    ensures Runs(w, s, acts + [a]) && After(w, s, acts + [a]) == Do(w, After(w, s, acts), a)
    decreases |acts|
  {
    if acts == [] {
      assert Runs(w, Do(w, s, a), []);
      assert [a][1..] == [];
      assert acts + [a] == [a];
    } else {
      RunExtends(w, Do(w, s, acts[0]), acts[1..], a);
      assert (acts + [a])[1..] == acts[1..] + [a];
      assert (acts + [a])[0] == acts[0];
    }
  }
}

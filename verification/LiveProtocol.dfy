/**
 * The apply protocol and the guest index as one machine, with the reads every plan
 * and every apply makes of the cluster. A guest plan or apply drops the cached
 * listing, resolves, resolves again inside `authorize` and reads the configuration;
 * a restore checks the backup's owner, drops the listing and resolves its target; a
 * rule change reads the rule. What is recorded and compared is the text of what was
 * served.
 */
module LiveProtocol {
  import opened Text
  import opened Guests
  import opened Grants
  import opened Protection
  import opened Authorization
  import opened Fingerprint
  import opened GuestReads
  import opened GuestCalls
  import opened GuestCache
  import opened ChangeSets
  import A = ApplyProtocol
  import C = CacheProtocol
  import J = Json
  import V = Vendor

  /** The cluster over time: what it lists, its guests' configurations, its rules. */
  datatype Truth = Truth(
    world: C.World, configs: (string, u32, nat) -> Config, rules: (string, string, nat) -> Option<J.Value>)

  /** Whose reads: an apply handler's, or a plan call's, which has no record yet. */
  datatype Who = ByApply(tid: A.Tid) | ByPlan(call: nat)

  /** How a backup's owner was resolved; `taken` is when a cached listing had been stored. */
  datatype OwnerSeen = OwnerSeen(owner: u32, fetch: Fetch, taken: Option<nat>, servedAt: nat) {
    function Read(): Resolved { ReadFrom(fetch.guests, owner) }
  }

  /**
   * How far a call has read: a guest's, a restore's, or a rule's reads. The moments
   * `sampled`, `asked`, `configAt` and `readAt` are history: when what was answered
   * was true.
   */
  datatype Stage =
    | Dropping(inv: C.Tid)
    | First(u: C.Tid)
    | Second(first: Resolved, v: C.Tid)
    | Admitted(first: Resolved, guest: Guest, sampled: nat, asked: nat)
    | Complete(first: Resolved, guest: Guest, sampled: nat, config: Config, configAt: nat)
    | OwnerAsked(owner: u32, u: C.Tid)
    | TargetDropping(seen: OwnerSeen, inv: C.Tid)
    | TargetAsked(seen: OwnerSeen, u: C.Tid)
    | Vacant(seen: OwnerSeen, sampled: nat)
    | RuleAsked(rule: string)
    | RuleRead(rule: string, body: Option<J.Value>, readAt: nat)

  /** The reads of one call. `begun`, `gen` and `bumped` are history: its start and its own invalidation. */
  datatype Reading = Reading(call: Call, begun: nat, gen: nat, bumped: nat, stage: Stage)

  /** History: the reads a record was planned on, and when. */
  datatype Origin = Origin(reading: Reading, plannedAt: nat)

  datatype Sys = Sys(ap: A.Sys, ix: C.Sys, readings: map<Who, Reading>, origins: map<CsId, Origin>)

  datatype Action =
    | Protocol(a: A.Action)
    | Index(b: C.Action)
    | Invalidate(who: Who, call: Call, inv: C.Tid)
    | ResolveFirst(who: Who, u: C.Tid)
    | ResolveSecond(who: Who, first: Resolved, v: C.Tid)
    | Admit(who: Who)
    | ReadConfig(who: Who, at: nat)
    | AskOwner(who: Who, call: Call, vmid: u32, u: C.Tid)
    | DropForTarget(who: Who, inv: C.Tid)
    | ResolveTarget(who: Who, u: C.Tid)
    | SeeVacant(who: Who)
    | AskRule(who: Who, call: Call, rule: string)
    | ReadRule(who: Who, at: nat)
    | Verify(tid: A.Tid)
    | PlanFrom(plan: nat, tid: A.Tid, id: CsId, op: V.Op, owner: string)

  // ---- What a reading is and comes to ---------------------------------------------------

  predicate OfGuestStage(stage: Stage) {
    stage.Dropping? || stage.First? || stage.Second? || stage.Admitted? || stage.Complete?
  }

  predicate OfRestoreStage(stage: Stage) { stage.OwnerAsked? || stage.TargetDropping? || stage.TargetAsked? || stage.Vacant? }

  /** The vmid whose backup a restore reads. */
  function OwnerOf(stage: Stage): u32
    requires OfRestoreStage(stage)
  {
    if stage.OwnerAsked? then stage.owner else stage.seen.owner
  }

  /** Everything has been read. */
  predicate Ready(stage: Stage) { stage.Complete? || stage.Vacant? || stage.RuleRead? }

  /** The text computed from what was served. */
  function SeenText(r: Reading): string
    requires Ready(r.stage)
  {
    match r.stage
    case Complete(_, guest, _, config, _) => GuestPreimage(StateOf(r.call.cluster, guest, config))
    case Vacant(_, _) => RestoreTargetPreimage(r.call.cluster, r.call.vmid)
    case RuleRead(rule, body, _) => HaRulePreimage(r.call.cluster, rule, body)
  }

  /** The plan a plan call records from its reads. */
  function PlannedBy(r: Reading, op: V.Op, owner: string): Plan
    requires Ready(r.stage)
  {
    match r.stage
    case Complete(first, _, _, _, _) =>
      Plan(PlanDestroy(Weighed(r.call.Protections(first), r.call.waivers, r.call.labMode, r.call.Attempted())),
           op, r.call.cluster, OfGuest(r.call.vmid), owner, SeenText(r))
    case Vacant(seen, _) =>
      Plan(PlanRestoreNewVmid(seen.owner), op, r.call.cluster, OfGuest(r.call.vmid), owner, SeenText(r))
    case RuleRead(rule, _, _) => Plan(PlanHaRule, op, r.call.cluster, OfRule(rule), owner, SeenText(r))
  }

  predicate MayTake(call: Call, seen: OwnerSeen) { RestoreAdmits(call, seen.owner, seen.Read()) }

  /** The index caller a reading waits for, if any. */
  function Awaits(stage: Stage): Option<C.Tid> {
    match stage
    case Dropping(inv) => Some(inv)
    case First(u) => Some(u)
    case Second(_, v) => Some(v)
    case OwnerAsked(_, u) => Some(u)
    case TargetDropping(_, inv) => Some(inv)
    case TargetAsked(_, u) => Some(u)
    case _ => None
  }

  predicate Awaited(s: Sys, c: C.Tid) { exists who :: who in s.readings && Awaits(s.readings[who].stage) == Some(c) }

  /** What a resolve that has ended tells its caller; one that is still asking can fail. */
  predicate Answers(c: C.Caller, r: Resolved) {
    && c.Resolving?
    && match c.pc
       case Served(Some(guest), _, _, _) => r == Found(guest)
       case Served(None, _, _, _) => r == Absent
       case Asking(_, _) => r == Unreadable
       case _ => false
  }

  // ---- When a step can happen --------------------------------------------------------------

  /** An apply whose copy of the record has not been compared yet, or a plan call. */
  predicate MayRead(s: Sys, who: Who) {
    match who
    case ByApply(tid) => A.Runnable(s.ap, tid) && s.ap.threads[tid].Applies? && s.ap.threads[tid].pc.Read?
    case ByPlan(_) => s.ap.phase == A.Serving
  }

  /** A plan call names a configured cluster; an apply names the device of its record, and its kind of action decodes. */
  predicate MayBegin(s: Sys, who: Who, call: Call, subject: Subject, planner: Planner -> bool) {
    && MayRead(s, who) && who !in s.readings
    && match who
       case ByApply(tid) =>
         planner(s.ap.threads[tid].rec.plan.planner)
         && s.ap.threads[tid].rec.plan.Device() == DeviceKey(call.cluster, subject.Key())
       case ByPlan(_) => call.cluster in s.ap.clusters
  }

  predicate ReadsAt(s: Sys, who: Who) { MayRead(s, who) && who in s.readings }

  /** Reading `who` awaits a finished invalidation. */
  predicate Dropped(s: Sys, inv: C.Tid) { C.InvalidatesAt(s.ix, inv) && s.ix.callers[inv].step.Finished? }

  /** Caller `u` has been served. */
  predicate Served(s: Sys, u: C.Tid) { C.ResolvesAt(s.ix, u) && s.ix.callers[u].pc.Served? }

  function SeenOwner(s: Sys, owner: u32, u: C.Tid): OwnerSeen
    requires Served(s, u)
  {
    var pc := s.ix.callers[u].pc;
    OwnerSeen(owner, pc.fetch, pc.taken, pc.servedAt)
  }

  /** The steps a call's own reads are made of. */
  predicate Reads(x: Action) { !x.Protocol? && !x.Index? && !x.Verify? && !x.PlanFrom? }

  /** The first of them. */
  predicate Begins(x: Action) { x.Invalidate? || x.AskOwner? || x.AskRule? }

  /** A call can read on: what it waited for is there, and what it was answered lets it go on. */
  predicate CanRead(s: Sys, x: Action)
    requires Reads(x)
  {
    match x
    case Invalidate(who, call, _) =>
      && MayBegin(s, who, call, OfGuest(call.vmid), (p: Planner) => p.PlanDestroy? && p.weighed.attempt.op == call.op)
      && call.tier == Destructive
    case ResolveFirst(who, _) => ReadsAt(s, who) && s.readings[who].stage.Dropping? && Dropped(s, s.readings[who].stage.inv)
    case ResolveSecond(who, first, _) =>
      && ReadsAt(s, who) && s.readings[who].stage.First?
      && s.readings[who].stage.u in s.ix.callers && Answers(s.ix.callers[s.readings[who].stage.u], first)
    case Admit(who) =>
      && ReadsAt(s, who) && s.readings[who].stage.Second? && Served(s, s.readings[who].stage.v)
      && var pc := s.ix.callers[s.readings[who].stage.v].pc;
         pc.guest.Some? && Gate(s.readings[who].call, s.readings[who].stage.first, Found(pc.guest.value)).Authorized?
    case ReadConfig(who, at) =>
      ReadsAt(s, who) && s.readings[who].stage.Admitted? && s.readings[who].stage.asked <= at <= s.ix.now
    case AskOwner(who, call, vmid, _) =>
      MayBegin(s, who, call, OfGuest(call.vmid), (p: Planner) => p == PlanRestoreNewVmid(vmid))
    case DropForTarget(who, _) =>
      && ReadsAt(s, who) && s.readings[who].stage.OwnerAsked? && Served(s, s.readings[who].stage.u)
      && MayTake(s.readings[who].call, SeenOwner(s, s.readings[who].stage.owner, s.readings[who].stage.u))
    case ResolveTarget(who, _) =>
      ReadsAt(s, who) && s.readings[who].stage.TargetDropping? && Dropped(s, s.readings[who].stage.inv)
    case SeeVacant(who) =>
      && ReadsAt(s, who) && s.readings[who].stage.TargetAsked? && Served(s, s.readings[who].stage.u)
      && s.ix.callers[s.readings[who].stage.u].pc.guest.None?
    case AskRule(who, call, rule) => MayBegin(s, who, call, OfRule(rule), (p: Planner) => p.PlanHaRule?)
    case ReadRule(who, at) => ReadsAt(s, who) && s.readings[who].stage.RuleAsked? && s.readings[who].begun <= at <= s.ix.now
  }

  /** The index call a reading step begins, if any. */
  function Begun(s: Sys, x: Action): Option<C.Action>
    requires Reads(x) && CanRead(s, x)
  {
    match x
    case Invalidate(_, call, inv) => Some(C.BeginInvalidate(inv, Some(call.cluster)))
    case ResolveFirst(who, u) => Some(C.BeginResolve(u, s.readings[who].call.cluster, s.readings[who].call.vmid))
    case ResolveSecond(who, _, v) => Some(C.BeginResolve(v, s.readings[who].call.cluster, s.readings[who].call.vmid))
    case AskOwner(_, call, vmid, u) => Some(C.BeginResolve(u, call.cluster, vmid))
    case DropForTarget(who, inv) => Some(C.BeginInvalidate(inv, Some(s.readings[who].call.cluster)))
    case ResolveTarget(who, u) => Some(C.BeginResolve(u, s.readings[who].call.cluster, s.readings[who].call.vmid))
    case _ => None
  }

  predicate CanPlan(s: Sys, p: nat, tid: A.Tid, id: CsId, op: V.Op, owner: string) {
    && ReadsAt(s, ByPlan(p)) && Ready(s.readings[ByPlan(p)].stage)
    && A.Enabled(s.ap, A.PlanCreate(tid, id, PlannedBy(s.readings[ByPlan(p)], op, owner)))
  }

  predicate Enabled(s: Sys, x: Action) {
    if x.Protocol? then A.Enabled(s.ap, x.a) && !x.a.PlanCreate? && !(x.a.Step? && x.a.move.ApplyVerify?)
    else if x.Index? then C.Enabled(s.ix, x.b) && (x.b.Leave? ==> !Awaited(s, x.b.tid))
    else if x.Verify? then ReadsAt(s, ByApply(x.tid)) && Ready(s.readings[ByApply(x.tid)].stage)
    else if x.PlanFrom? then CanPlan(s, x.plan, x.tid, x.id, x.op, x.owner)
    else CanRead(s, x) && (Begun(s, x).Some? ==> C.Enabled(s.ix, Begun(s, x).value))
  }

  // ---- What a step does ---------------------------------------------------------------------

  /** The process is gone, and its index with it. */
  function NewIndex(ix: C.Sys): C.Sys { C.Sys(ix.ttl, ix.now, Cache(map[], 0), None, map[], [], 0, map[]) }

  predicate Stays(who: Who, a: A.Action, ap: A.Sys) {
    match who
    case ByApply(tid) => tid in ap.threads
    case ByPlan(_) => !a.Crash?
  }

  /** A protocol step; readings of handlers that are gone go with them. */
  function DoProtocol(s: Sys, a: A.Action): Sys
    requires A.Enabled(s.ap, a)
  {
    var ap := A.Do(s.ap, a);
    Sys(ap, if a.Crash? then NewIndex(s.ix) else s.ix,
        map who | who in s.readings && Stays(who, a, ap) :: s.readings[who], s.origins)
  }

  function VerifyStep(s: Sys, tid: A.Tid): A.Action
    requires ByApply(tid) in s.readings && Ready(s.readings[ByApply(tid)].stage)
  {
    A.Step(tid, A.ApplyVerify(SeenText(s.readings[ByApply(tid)])))
  }

  function DoPlanFrom(s: Sys, p: nat, tid: A.Tid, id: CsId, op: V.Op, owner: string): Sys
    requires CanPlan(s, p, tid, id, op, owner)
  {
    var r := s.readings[ByPlan(p)];
    var s' := DoProtocol(s, A.PlanCreate(tid, id, PlannedBy(r, op, owner)));
    s'.(readings := s'.readings - {ByPlan(p)}, origins := s.origins[id := Origin(r, s.ix.now)])
  }

  function NextStage(w: Truth, s: Sys, x: Action): Stage
    requires Reads(x) && CanRead(s, x)
  {
    match x
    case Invalidate(_, _, inv) => Dropping(inv)
    case ResolveFirst(_, u) => First(u)
    case ResolveSecond(_, first, v) => Second(first, v)
    case Admit(who) =>
      var stage := s.readings[who].stage;
      var pc := s.ix.callers[stage.v].pc;
      Admitted(stage.first, pc.guest.value, pc.fetch.sampled, s.ix.now)
    case ReadConfig(who, at) =>
      var r := s.readings[who];
      Complete(r.stage.first, r.stage.guest, r.stage.sampled, w.configs(r.call.cluster, r.call.vmid, at), at)
    case AskOwner(_, _, vmid, u) => OwnerAsked(vmid, u)
    case DropForTarget(who, inv) =>
      TargetDropping(SeenOwner(s, s.readings[who].stage.owner, s.readings[who].stage.u), inv)
    case ResolveTarget(who, u) => TargetAsked(s.readings[who].stage.seen, u)
    case SeeVacant(who) =>
      var stage := s.readings[who].stage;
      Vacant(stage.seen, s.ix.callers[stage.u].pc.fetch.sampled)
    case AskRule(_, _, rule) => RuleAsked(rule)
    case ReadRule(who, at) =>
      var r := s.readings[who];
      RuleRead(r.stage.rule, w.rules(r.call.cluster, r.stage.rule, at), at)
  }

  /** The call's reading after a step; once its invalidation has finished it knows its own bump. */
  function NextReading(w: Truth, s: Sys, x: Action): Reading
    requires Reads(x) && CanRead(s, x)
  {
    var stage := NextStage(w, s, x);
    if Begins(x) then Reading(x.call, s.ix.now, 0, 0, stage)
    else if x.ResolveFirst? || x.ResolveTarget? then
      var r := s.readings[x.who];
      var gen := s.ix.callers[r.stage.inv].step.gen;
      Reading(r.call, r.begun, gen, C.Since(s.ix, gen), stage)
    else s.readings[x.who].(stage := stage)
  }

  /** The index after a reading step. */
  function NextIndex(w: Truth, s: Sys, x: Action): C.Sys
    requires Reads(x) && Enabled(s, x)
  {
    match Begun(s, x)
    case None => s.ix
    case Some(b) => C.Do(w.world, s.ix, b)
  }

  function Do(w: Truth, s: Sys, x: Action): Sys
    requires Enabled(s, x)
  {
    if x.Protocol? then DoProtocol(s, x.a)
    else if x.Index? then s.(ix := C.Do(w.world, s.ix, x.b))
    else if x.Verify? then DoProtocol(s, VerifyStep(s, x.tid))
    else if x.PlanFrom? then DoPlanFrom(s, x.plan, x.tid, x.id, x.op, x.owner)
    else s.(ix := NextIndex(w, s, x), readings := s.readings[x.who := NextReading(w, s, x)])
  }

  predicate Init(s: Sys) { A.Init(s.ap) && C.Init(s.ix) && s.readings == map[] && s.origins == map[] }

  predicate Runs(w: Truth, s: Sys, xs: seq<Action>)
    decreases |xs|
  {
    xs == [] || (Enabled(s, xs[0]) && Runs(w, Do(w, s, xs[0]), xs[1..]))
  }

  function After(w: Truth, s: Sys, xs: seq<Action>): Sys
    requires Runs(w, s, xs)
    decreases |xs|
  {
    if xs == [] then s else After(w, Do(w, s, xs[0]), xs[1..])
  }

  /** A run followed by an enabled step is a run. */
  lemma {:induction false} RunExtends(w: Truth, s: Sys, xs: seq<Action>, x: Action)
    requires Runs(w, s, xs) && Enabled(After(w, s, xs), x)
    ensures Runs(w, s, xs + [x]) && After(w, s, xs + [x]) == Do(w, After(w, s, xs), x)
    decreases |xs|
  {
    if xs == [] {
      assert Runs(w, Do(w, s, x), []);
      assert [x][1..] == [];
      assert xs + [x] == [x];
    } else {
      RunExtends(w, Do(w, s, xs[0]), xs[1..], x);
      assert (xs + [x])[1..] == xs[1..] + [x];
      assert (xs + [x])[0] == xs[0];
    }
  }
}

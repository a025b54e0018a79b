/** The plan and approve handlers as programs on the shared system, while others run too. */
module PlanHandler {
  import opened Text
  import opened Guests
  import opened Protection
  import opened Authorization
  import opened Fingerprint
  import opened GuestReads
  import opened GuestCache
  import opened GuestCalls
  import opened GuestIndexObject
  import opened HandlerReads
  import opened ChangeSets
  import opened ApplyProtocol
  import opened ApplySafety
  import opened ApplyHandler
  import V = Vendor
  import G = Grants

  // ---- Planning ---------------------------------------------------------------------

  /** Nothing usable on record, or a planned set and whether lab mode approved it. */
  datatype PlanAnswer = NotPlanned | PlanStored(waived: bool)

  /** Which of the plan's accesses to the store work, and who runs in its pauses. */
  datatype Storing = Storing(creates: bool, readsBack: bool, previews: bool, waives: bool, meanwhile: seq<seq<Action>>)

  /** `plan_destroy` decided that lab mode stands in for the second principal. */
  predicate LabModeDecides(plan: Plan) { plan.planner.PlanDestroy? && plan.planner.weighed.Decision().LabMode? }

  /** Everything the store has to do for this plan works. */
  predicate StoreWorks(plan: Plan, st: Storing) {
    st.creates && st.readsBack && st.previews && (LabModeDecides(plan) ==> st.waives)
  }

  /** Create the record, read it back, store its preview. */
  method Draft(server: Server, tid: Tid, id: CsId, plan: Plan, st: Storing) returns (drafted: bool)
    requires server.Valid() && server.sys.phase == Serving && tid !in server.sys.threads && id !in server.sys.sets
    requires plan.cluster in server.sys.clusters && plan.Proper()
    modifies server
    ensures server.Valid() && old(server.history) <= server.history
    ensures drafted == (st.creates && st.readsBack && st.previews)
    ensures drafted ==> server.sys.phase == Serving && tid in server.sys.threads
    ensures drafted ==> server.sys.threads[tid] == Planning(id, NewRecord(plan), Previewed)
    ensures drafted ==> id in server.sys.sets && server.sys.sets[id].rec == NewRecord(plan).(preview := true)
    ensures !drafted && st.creates ==> id in server.sys.sets && server.sys.sets[id].rec == NewRecord(plan)
    ensures !st.creates ==> server.sys == old(server.sys)
  {
    if !st.creates { return false; }
    server.Act(PlanCreate(tid, id, plan));
    server.Meanwhile(tid, Gap(st.meanwhile, 0));
    server.Standing(tid);
    if !st.readsBack {
      server.Act(Vanish(tid));
      return false;
    }
    server.Move(tid, PlanReadBack);
    server.Meanwhile(tid, Gap(st.meanwhile, 1));
    server.Standing(tid);
    server.Move(tid, PlanPreview(st.previews));
    drafted := st.previews;
  }

  /**
   * The stored part of every plan handler: a set that is answered as planned has
   * its preview and exactly the plan asked for, and it is approved on the spot
   * only under lab mode; a waiver leaves it for a second principal.
   */
  method PlanChangeSet(server: Server, tid: Tid, id: CsId, plan: Plan, st: Storing) returns (answer: PlanAnswer)
    requires server.Valid() && server.sys.phase == Serving && tid !in server.sys.threads && id !in server.sys.sets
    requires plan.cluster in server.sys.clusters && plan.Proper()
    modifies server
    ensures server.Valid() && old(server.history) <= server.history
    ensures answer.PlanStored? ==>
      id in server.sys.sets && server.sys.sets[id].rec.preview && server.sys.sets[id].rec.plan == plan
    ensures answer.PlanStored? ==> answer.waived == LabModeDecides(plan)
    ensures answer.PlanStored? && answer.waived ==>
      server.sys.sets[id].rec.state == Approved && server.sys.sets[id].rec.approval == WaivedByLabMode
    ensures answer.PlanStored? && !answer.waived && st.meanwhile == [] ==>
      server.sys.sets[id].rec == NewRecord(plan).(preview := true)
    ensures answer.PlanStored? ==> StoreWorks(plan, st)
    ensures st.meanwhile == [] && StoreWorks(plan, st) ==> answer.PlanStored?
  {
    var drafted := Draft(server, tid, id, plan, st);
    if !drafted { return NotPlanned; }
    server.Meanwhile(tid, Gap(st.meanwhile, 2));
    server.Standing(tid);
    if LabModeDecides(plan) {
      var ok := st.waives && CanWaive(server.sys.sets[id].rec);
      server.Move(tid, PlanWaive(ok));
      answer := if ok then PlanStored(true) else NotPlanned;
    } else {
      server.Act(Vanish(tid));
      answer := PlanStored(false);
    }
  }

  /** A plan is weighed for a call of the destructive tier on what its two reads answer. */
  ghost predicate MayPlan(cache: Cache, ttl: nat, asked: Call, look: Look, config: Option<Config>, dispatches: bool) {
    var (first, second) := AnewReads(cache, ttl, asked, look);
    Entitled(asked.(tier := G.Destructive), first, second) && config.Some? && dispatches
  }

  /** Lab mode stands in for the second principal: nobody waived, and the first read did not find the guest unguarded. */
  predicate LabModeApproves(asked: Call, first: Resolved) {
    && asked.labMode && !Waived(asked.waivers, asked.cluster, asked.vmid, asked.now, asked.op, asked.principal)
    && (first.Found? ==> Guarded(asked.policy, first.guest))
  }

  /** The plan is of the guest found, for the call asked. */
  predicate IsPlanOf(plan: Plan, asked: Call, guest: Guest, config: Config, op: V.Op, owner: string) {
    && plan.planner.PlanDestroy? && plan.planner.weighed.attempt.op == asked.op
    && plan.op == op && plan.owner == owner && plan.cluster == asked.cluster && plan.subject == OfGuest(asked.vmid)
    && plan.preimage == GuestPreimage(StateOf(asked.cluster, guest, config))
  }

  /** The call `plan_destroy` weighs, for the caller's own operation. */
  function PlannedCall(asked: Call, first: Resolved, second: Resolved, config: Option<Config>, dispatches: bool): GuestCall {
    CallOf(asked, asked.op, first, second, config, dispatches)
  }

  /** The plan it comes to is of the guest found, and `plan_destroy` decides by lab mode exactly then. */
  lemma PlannedCallMeans(
    asked: Call, first: Resolved, second: Resolved, config: Option<Config>, dispatches: bool, op: V.Op, owner: string)
    ensures var g := PlannedCall(asked, first, second, config, dispatches);
      && (Admits(g) <==> Entitled(asked.(tier := G.Destructive), first, second) && config.Some? && dispatches)
      && (Admits(g) ==>
            && second.Found? && IsPlanOf(GuestPlan(g, op, owner), asked, second.guest, config.value, op, owner)
            && (LabModeDecides(GuestPlan(g, op, owner)) <==> LabModeApproves(asked, first)))
  {
    CallOfMeans(asked, asked.op, first, second, config, dispatches);
    var g := PlannedCall(asked, first, second, config, dispatches);
    if Admits(g) { GuestPlanMeans(g, op, owner); }
    OverrideMeaning(g.call.Protections(g.first), g.call.waivers, g.call.labMode, g.call.Attempted());
    VerdictMeans(g.call, g.first);
  }

  /** The store works as far as this plan needs it. */
  predicate Works(waives: bool, st: Storing) { st.creates && st.readsBack && st.previews && (waives ==> st.waives) }

  /**
   * `plan_destroy`: drop the cached listing, read the guest twice, pass the gate,
   * record the guest that was found. A plan is stored only for an entitled call on
   * a configured cluster, and if nobody interferes and the store works, for every
   * such call.
   */
  method PlanGuest(
    server: Server, index: GuestIndex, tid: Tid, id: CsId, asked: Call, look: Look, config: Option<Config>,
    dispatches: bool, op: V.Op, owner: string, st: Storing)
    returns (answer: PlanAnswer)
    requires server.Valid() && server.sys.phase == Serving && tid !in server.sys.threads && id !in server.sys.sets
    modifies server, index
    ensures server.Valid() && old(server.history) <= server.history
    ensures ReadAfterBump(old(index.View()), index.ttl, asked.cluster, asked.vmid, look,
                          AnewReads(old(index.View()), index.ttl, asked, look).1)
    ensures answer.PlanStored? ==>
      asked.cluster in old(server.sys.clusters) && MayPlan(old(index.View()), index.ttl, asked, look, config, dispatches)
    ensures answer.PlanStored? ==>
      && var (first, second) := AnewReads(old(index.View()), index.ttl, asked, look);
      && id in server.sys.sets && server.sys.sets[id].rec.preview
      && IsPlanOf(server.sys.sets[id].rec.plan, asked, second.guest, config.value, op, owner)
      && answer.waived == LabModeApproves(asked, first)
    ensures answer.PlanStored? && answer.waived ==>
      server.sys.sets[id].rec.state == Approved && server.sys.sets[id].rec.approval == WaivedByLabMode
    ensures answer.PlanStored? && !answer.waived && st.meanwhile == [] ==> server.sys.sets[id].rec.state == Planned
    ensures st.meanwhile == [] ==>
      (answer.PlanStored? <==>
         && asked.cluster in old(server.sys.clusters)
         && MayPlan(old(index.View()), index.ttl, asked, look, config, dispatches)
         && Works(LabModeApproves(asked, AnewReads(old(index.View()), index.ttl, asked, look).0), st))
  {
    ReadsComeAfterTheBump(index.View(), index.ttl, asked.cluster, asked.vmid, look);
    if asked.cluster !in server.sys.clusters { return NotPlanned; }
    var first, second := ReadAnew(index, asked.cluster, asked.vmid, look);
    var g := PlannedCall(asked, first, second, config, dispatches);
    PlannedCallMeans(asked, first, second, config, dispatches, op, owner);
    if !Admits(g) { return NotPlanned; }
    answer := PlanChangeSet(server, tid, id, GuestPlan(g, op, owner), st);
  }

  // ---- Approving --------------------------------------------------------------------

  /** What an approve tool is asked, with what its reads of the cluster meet. */
  datatype Request =
    | ForGuest(call: Call, look: Look, tools: bool)
    | ForRestore(target: Call, look: Look, tool: bool)
    | ForRule(cluster: string, rule: string)

  /** How an approver is checked against a recorded guest plan: its operation, with the planner's waivers. */
  function ApproverCall(call: Call, plan: Plan): Call
    requires plan.planner.PlanDestroy?
  {
    call.(op := RecordedOp(plan), principal := Some(plan.owner), tier := G.Destructive)
  }

  /** The authority a request comes to, given the index its reads start from; nothing is invalidated first. */
  function AuthorityOf(cache: Cache, ttl: nat, request: Request, plan: Plan): Option<Authority> {
    match request
    case ForGuest(call, look, tools) =>
      if !plan.planner.PlanDestroy? then None
      else
        var own := ApproverCall(call, plan);
        var (first, second) := BothReads(cache, ttl, own.cluster, own.vmid, look);
        Some(OverGuest(own, first, second, tools))
    case ForRestore(target, look, tool) =>
      if !plan.planner.PlanRestoreNewVmid? then None
      else Some(OverRestore(target, ReadOf(cache, ttl, target.cluster, plan.planner.owner, look.first), tool))
    case ForRule(cluster, rule) => Some(OverRule(cluster, rule))
  }

  method ReadAuthority(index: GuestIndex, request: Request, plan: Plan) returns (a: Option<Authority>)
    modifies index
    ensures a == AuthorityOf(old(index.View()), index.ttl, request, plan)
  {
    match request {
      case ForGuest(call, look, tools) =>
        if !plan.planner.PlanDestroy? { return None; }
        var own := ApproverCall(call, plan);
        var first, second := ReadTwice(index, own.cluster, own.vmid, look);
        a := Some(OverGuest(own, first, second, tools));
      case ForRestore(target, look, tool) =>
        if !plan.planner.PlanRestoreNewVmid? { return None; }
        var read := ResolveOnce(index, target.cluster, plan.planner.owner, look.first);
        a := Some(OverRestore(target, read, tool));
      case ForRule(cluster, rule) => a := Some(OverRule(cluster, rule));
    }
  }

  /** Exactly who may approve the plan, on what the index answers. */
  ghost predicate MayApprove(cache: Cache, ttl: nat, request: Request, plan: Plan) {
    match request
    case ForGuest(call, look, tools) =>
      && plan.planner.PlanDestroy? && plan.Device() == call.cluster + ['/'] + Print(call.vmid) && tools
      && var (first, second) := BothReads(cache, ttl, call.cluster, call.vmid, look);
         var own := call.(op := plan.planner.weighed.attempt.op, principal := Some(plan.owner), tier := G.Destructive);
         Entitled(own, first, second)
    case ForRestore(target, look, tool) =>
      && plan.planner.PlanRestoreNewVmid? && plan.Device() == target.cluster + ['/'] + Print(target.vmid) && tool
      && var read := ReadOf(cache, ttl, target.cluster, plan.planner.owner, look.first);
         MayRestore(target, plan.planner.owner, Some(plan.owner), read)
    case ForRule(cluster, rule) => plan.planner.PlanHaRule? && plan.Device() == cluster + ['/'] + ("ha-rule:" + rule)
  }

  /** The request, with what the cluster and the cache answer it, authorizes approving the plan. */
  predicate Authorized(cache: Cache, ttl: nat, request: Request, plan: Plan) {
    var a := AuthorityOf(cache, ttl, request, plan);
    a.Some? && Authorizes(a.value, plan)
  }

  lemma AuthorizedExactlyWhen(cache: Cache, ttl: nat, request: Request, plan: Plan)
    ensures Authorized(cache, ttl, request, plan) <==> MayApprove(cache, ttl, request, plan)
  {
    var a := AuthorityOf(cache, ttl, request, plan);
    if a.Some? { AuthorizesExactlyWhen(a.value, plan); }
  }

  /**
   * The approve handlers: granted only to a human who is not the planner and holds
   * the authority the record's kind demands, on a planned set with a preview; and
   * if nobody interferes, to every such caller.
   */
  method ApproveChangeSet(
    server: Server, index: GuestIndex, tid: Tid, id: CsId, who: string, actor: Actor, request: Request,
    others: seq<Action>, works: bool)
    returns (approved: bool)
    requires server.Valid() && server.sys.phase == Serving && tid !in server.sys.threads
    modifies server, index
    ensures server.Valid() && old(server.history) <= server.history
    ensures approved ==>
      && id in server.sys.sets && server.sys.sets[id].rec.state == Approved && server.sys.sets[id].rec.preview
      && server.sys.sets[id].rec.approval == ApprovedBy(who, Human) && who != server.sys.sets[id].rec.plan.owner
      && MayApprove(old(index.View()), index.ttl, request, server.sys.sets[id].rec.plan)
    ensures others == [] ==>
      (approved <==>
         && works && id in old(server.sys.sets) && old(server.sys.sets)[id].rec.preview
         && MayApprove(old(index.View()), index.ttl, request, old(server.sys.sets)[id].rec.plan)
         && old(server.sys.sets)[id].rec.state == Planned && actor == Human && who != old(server.sys.sets)[id].rec.plan.owner)
  {
    if id !in server.sys.sets || !server.sys.sets[id].rec.preview { return false; }
    var plan := server.sys.sets[id].rec.plan;
    AuthorizedExactlyWhen(index.View(), index.ttl, request, plan);
    var a := ReadAuthority(index, request, plan);
    if a.None? || !Authorizes(a.value, plan) { return false; }
    approved := CommitApproval(server, tid, id, who, actor, others, works);
  }

  /** The coordinator's part: the record may have moved since it was read. */
  method CommitApproval(server: Server, tid: Tid, id: CsId, who: string, actor: Actor, others: seq<Action>, works: bool)
    returns (approved: bool)
    requires server.Valid() && server.sys.phase == Serving && tid !in server.sys.threads
    requires id in server.sys.sets && server.sys.sets[id].rec.preview
    modifies server
    ensures server.Valid() && old(server.history) <= server.history
    ensures id in server.sys.sets && server.sys.sets[id].rec.plan == old(server.sys.sets)[id].rec.plan
    ensures approved ==>
      && server.sys.sets[id].rec.state == Approved && server.sys.sets[id].rec.preview
      && server.sys.sets[id].rec.approval == ApprovedBy(who, Human) && who != server.sys.sets[id].rec.plan.owner
    ensures others == [] ==>
      (approved <==>
         && works && old(server.sys.sets)[id].rec.state == Planned && actor == Human
         && who != old(server.sys.sets)[id].rec.plan.owner)
  {
    server.Act(ApproveRead(tid, id, who, actor));
    server.Meanwhile(tid, others);
    server.Standing(tid);
    approved := works && CanApprove(server.sys.sets[id].rec, who, actor);
    server.Move(tid, ApproveCommit(approved));
  }
}

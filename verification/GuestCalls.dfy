/** One call of a guest handler: what it asks for and what its reads of the cluster answered. */
module GuestCalls {
  import opened Text
  import opened Guests
  import opened Grants
  import opened Protection
  import opened Authorization
  import opened Fingerprint
  import opened GuestReads
  import opened ChangeSets
  import V = Vendor

  /** `dispatches`: the operation's own tool scope and the checks of its fields accept the call. */
  datatype GuestCall = GuestCall(call: Call, first: Resolved, second: Resolved, config: Option<Config>, dispatches: bool)

  /** The gate opens, the configuration can be read, and the operation can be dispatched. */
  predicate Admits(g: GuestCall) {
    g.call.tier == Destructive && Gate(g.call, g.first, g.second).Authorized? && g.config.Some? && g.dispatches
  }

  /** The guest state an admitted call fingerprints. */
  function Seen(g: GuestCall): GuestState
    requires Admits(g)
  {
    StateOf(g.call.cluster, Gate(g.call, g.first, g.second).guest, g.config.value)
  }

  /** Exactly when a call is admitted, and what it saw. */
  lemma AdmitsExactlyWhen(g: GuestCall)
    ensures Admits(g) <==>
      g.call.tier == Destructive && Entitled(g.call, g.first, g.second) && g.config.Some? && g.dispatches
    ensures Admits(g) ==> g.second.Found? && Seen(g) == StateOf(g.call.cluster, g.second.guest, g.config.value)
  {
    GateOpensExactlyWhen(g.call, g.first, g.second);
  }

  /** A caller's own call, checked for `op` at the destructive tier, with what was read for it. */
  function CallOf(asked: Call, op: string, first: Resolved, second: Resolved, config: Option<Config>, dispatches: bool)
    : GuestCall
  {
    GuestCall(asked.(op := op, tier := Destructive), first, second, config, dispatches)
  }

  /** It is admitted exactly if this caller is entitled, and saw what was read. */
  lemma CallOfMeans(asked: Call, op: string, first: Resolved, second: Resolved, config: Option<Config>, dispatches: bool)
    ensures var g := CallOf(asked, op, first, second, config, dispatches);
      && (Admits(g) <==> Entitled(asked.(op := op, tier := Destructive), first, second) && config.Some? && dispatches)
      && (Admits(g) ==> second.Found? && Seen(g) == StateOf(asked.cluster, second.guest, config.value))
  {
    AdmitsExactlyWhen(CallOf(asked, op, first, second, config, dispatches));
  }

  /** The plan `plan_destroy` records for an admitted call. */
  function GuestPlan(g: GuestCall, op: V.Op, owner: string): Plan
    requires Admits(g)
  {
    Plan(PlanDestroy(Weighed(g.call.Protections(g.first), g.call.waivers, g.call.labMode, g.call.Attempted())),
         op, g.call.cluster, OfGuest(g.call.vmid), owner, GuestPreimage(Seen(g)))
  }

  /** Whose it is, what it is about, and what kind of write it is. */
  lemma GuestPlanMeans(g: GuestCall, op: V.Op, owner: string)
    requires Admits(g)
    ensures var plan := GuestPlan(g, op, owner);
      && plan.owner == owner && plan.op == op && plan.cluster == g.call.cluster && plan.subject == OfGuest(g.call.vmid)
      && plan.planner.PlanDestroy? && plan.planner.weighed.attempt.op == g.call.op && plan.preimage == GuestPreimage(Seen(g))
  {
  }

  /** The operation a guest plan recorded. */
  function RecordedOp(plan: Plan): string
    requires plan.planner.PlanDestroy?
  {
    plan.planner.weighed.attempt.op
  }

  /** The call is for the record's own device and operation, is admitted, and finds the planned fingerprint. */
  predicate Checked(g: GuestCall, plan: Plan) {
    && plan.planner.PlanDestroy? && g.call.op == RecordedOp(plan)
    && plan.Device() == DeviceKey(g.call.cluster, OfGuest(g.call.vmid).Key())
    && Admits(g) && plan.preimage == GuestPreimage(Seen(g))
  }

  /** An admitted call passes the checks of another's plan exactly for the same operation on the same, unchanged guest. */
  lemma ChecksPassExactlyWhenUnchanged(planning: GuestCall, applying: GuestCall, op: V.Op, owner: string)
    requires Admits(planning) && Admits(applying)
    ensures Checked(applying, GuestPlan(planning, op, owner))
      <==> applying.call.op == planning.call.op && applying.call.cluster == planning.call.cluster
           && applying.call.vmid == planning.call.vmid && SameUpToOrder(Seen(planning), Seen(applying))
  {
    GuestPreimageIdentifies(Seen(planning), Seen(applying));
    var a, b := planning.call, applying.call;
    if DeviceKey(a.cluster, OfGuest(a.vmid).Key()) == DeviceKey(b.cluster, OfGuest(b.vmid).Key()) {
      GuestDeviceIsUnique(a.cluster, a.vmid, b.cluster, b.vmid);
    }
  }

  // ---- The approver's own authority --------------------------------------------------

  /** What an approver is checked for, by the kind of record; the waiver in force is the planner's. */
  datatype Authority =
    | OverGuest(call: Call, first: Resolved, second: Resolved, tools: bool)
    | OverRestore(target: Call, read: Resolved, tool: bool)
    | OverRule(cluster: string, rule: string)

  const RESTORE_NEW_VMID: string := "restore_new_vmid"

  /** How a restore's caller is checked against the recorded owner of the backup. */
  function OwnerCall(target: Call, plan: Plan): Call
    requires plan.planner.PlanRestoreNewVmid?
  {
    target.(vmid := plan.planner.owner, op := RESTORE_NEW_VMID, principal := Some(plan.owner))
  }

  predicate Authorizes(a: Authority, plan: Plan) {
    match a
    case OverGuest(call, first, second, tools) =>
      && plan.planner.PlanDestroy? && call.op == RecordedOp(plan)
      && plan.Device() == DeviceKey(call.cluster, OfGuest(call.vmid).Key())
      && call.principal == Some(plan.owner) && call.tier == Destructive
      && Gate(call, first, second).Authorized? && tools
    case OverRestore(target, read, tool) =>
      && plan.planner.PlanRestoreNewVmid?
      && plan.Device() == DeviceKey(target.cluster, OfGuest(target.vmid).Key())
      && tool && Destructive in target.grant.actions && AllowsNewVmid(target.grant, target.vmid)
      && CreationAllowed(target.policy, target.vmid)
      && OwnerAdmits(OwnerCall(target, plan), read)
    case OverRule(cluster, rule) => plan.planner.PlanHaRule? && plan.Device() == DeviceKey(cluster, OfRule(rule).Key())
  }

  /**
   * Who may restore a backup into a new vmid: the tier, a target that may be created
   * and is not pinned, and an owner that may be read, with waivers for this very
   * operation and the given principal.
   */
  ghost predicate MayRestore(target: Call, owner: u32, principal: Option<string>, read: Resolved) {
    && Destructive in target.grant.actions && MayCreateAt(target.grant.guests, target.vmid)
    && target.vmid !in target.policy.protectedVmids
    && OwnerOpen(target.(vmid := owner, op := "restore_new_vmid", principal := principal), read)
  }

  /** The target may be created by the caller, and the backup's owner, read as `read`, may be read from. */
  predicate RestoreAdmits(target: Call, owner: u32, read: Resolved) {
    && Destructive in target.grant.actions && AllowsNewVmid(target.grant, target.vmid)
    && CreationAllowed(target.policy, target.vmid)
    && OwnerAdmits(target.(vmid := owner, op := RESTORE_NEW_VMID), read)
  }

  /** What a restore's caller is checked for, spelt out. */
  lemma RestoreAdmitsExactlyWhen(target: Call, owner: u32, read: Resolved)
    ensures RestoreAdmits(target, owner, read) <==> MayRestore(target, owner, target.principal, read)
  {
    CreationMeans(target.grant, target.vmid);
    OwnerAdmittedExactlyWhen(target.(vmid := owner, op := RESTORE_NEW_VMID), read);
  }

  /** Exactly what an approver needs, by the kind of record. */
  ghost predicate Authoritative(a: Authority, plan: Plan) {
    match a
    case OverGuest(call, first, second, tools) =>
      && plan.planner.PlanDestroy? && plan.Device() == call.cluster + ['/'] + Print(call.vmid)
      && call.op == plan.planner.weighed.attempt.op && call.principal == Some(plan.owner) && call.tier == Destructive
      && Entitled(call, first, second) && tools
    case OverRestore(target, read, tool) =>
      && plan.planner.PlanRestoreNewVmid? && plan.Device() == target.cluster + ['/'] + Print(target.vmid)
      && tool && MayRestore(target, plan.planner.owner, Some(plan.owner), read)
    case OverRule(cluster, rule) => plan.planner.PlanHaRule? && plan.Device() == cluster + ['/'] + ("ha-rule:" + rule)
  }

  lemma AuthorizesExactlyWhen(a: Authority, plan: Plan)
    ensures Authorizes(a, plan) <==> Authoritative(a, plan)
  {
    match a {
      case OverGuest(call, first, second, _) => GateOpensExactlyWhen(call, first, second);
      case OverRestore(target, read, _) =>
        CreationMeans(target.grant, target.vmid);
        if plan.planner.PlanRestoreNewVmid? { OwnerAdmittedExactlyWhen(OwnerCall(target, plan), read); }
      case OverRule(_, _) =>
    }
  }

  /** A guest protected when the approver's gate looks is approved for only under lab mode or the planner's waiver. */
  lemma ApprovalNeedsTheOverrideToo(call: Call, first: Resolved, second: Resolved, tools: bool, plan: Plan)
    requires Authorizes(OverGuest(call, first, second, tools), plan) && call.Protections(second).Protected?
    ensures call.labMode
      || exists w ::
           && w in call.waivers && w.cluster == call.cluster && w.vmid == call.vmid && call.now < w.until
           && RecordedOp(plan) in w.ops && (w.principal.None? || w.principal == Some(plan.owner))
  {
    ProtectedGuestNeedsAnOverride(call, first, second);
  }
}

/** Change-set records and the coordinator's contract over them. */
module ChangeSets {
  import opened Text
  import opened Tasks
  import opened Protection
  import V = Vendor

  type CsId = nat

  datatype State = Planned | Approved | Applying | Applied | Failed

  datatype Actor = Human | Agent | UnknownActor

  datatype Approval = NotApproved | ApprovedBy(who: string, actor: Actor) | WaivedByLabMode

  /** What `plan_destroy` weighed before creating a record: its first read and the overrides in force. */
  datatype Weighed = Weighed(verdict: Verdict, waivers: seq<Waiver>, labMode: bool, attempt: Attempt) {
    function Decision(): Override { DestructiveAllowed(verdict, waivers, labMode, attempt) }
  }

  /** The planning tool a record came from; only a guest plan can be waived, and a restore records its backup's owner. */
  datatype Planner = PlanDestroy(weighed: Weighed) | PlanRestoreNewVmid(owner: u32) | PlanHaRule

  /** What a change set is about; its key is the part of the device after the cluster's name. */
  datatype Subject = OfGuest(vmid: u32) | OfRule(rule: string) {
    function Key(): string {
      match this
      case OfGuest(vmid) => Print(vmid)
      case OfRule(rule) => RULE + rule
    }
  }

  const RULE: string := "ha-rule:"

  /** The immutable part of a record. */
  datatype Plan = Plan(planner: Planner, op: V.Op, cluster: string, subject: Subject, owner: string, preimage: string) {
    function Device(): string { DeviceKey(cluster, subject.Key()) }
    /** A guest plan weighed an attempt on its own guest; only a rule plan is about a rule. */
    predicate Proper() {
      match planner
      case PlanDestroy(weighed) => weighed.attempt.cluster == cluster && subject == OfGuest(weighed.attempt.vmid)
      case PlanRestoreNewVmid(_) => subject.OfGuest?
      case PlanHaRule => subject.OfRule?
    }
  }

  function DeviceKey(cluster: string, subject: string): string { cluster + ['/'] + subject }

  datatype Record = Record(
    plan: Plan, preview: bool, state: State, approval: Approval, handle: Option<string>, handleless: bool)

  function NewRecord(plan: Plan): Record { Record(plan, false, Planned, NotApproved, None, false) }

  /** The cluster a device key names: the text before the first slash. */
  function DeviceCluster(device: string): Option<string> {
    match SplitOnce(device, '/')
    case Some((cluster, _)) => Some(cluster)
    case None => None
  }

  /** Recovery finds the planned cluster exactly when the cluster's name has no slash. */
  lemma RoutesHomeExactlyWhenSlashFree(cluster: string, subject: string)
    ensures DeviceCluster(DeviceKey(cluster, subject)) == Some(cluster) <==> '/' !in cluster
  {
    if '/' !in cluster { SplitOnceFinds(cluster, '/', subject); }
  }

  /** With slash in the name, recovery asks the cluster named by the part before it. */
  lemma SlashRoutesAway(outer: string, inner: string, subject: string)
    requires '/' !in outer
    ensures DeviceCluster(DeviceKey(outer + ['/'] + inner, subject)) == Some(outer)
  {
    SplitOnceFinds(outer, '/', inner + ['/'] + subject);
    assert DeviceKey(outer + ['/'] + inner, subject) == outer + ['/'] + (inner + ['/'] + subject);
  }

  /** A guest's device names one cluster and one vmid, whatever the cluster is called: digits hold no slash. */
  lemma GuestDeviceIsUnique(c: string, v: u32, d: string, u: u32)
    requires DeviceKey(c, OfGuest(v).Key()) == DeviceKey(d, OfGuest(u).Key())
    ensures c == d && v == u
  {
    var s := DeviceKey(c, Print(v));
    NoSlashAfter(c, v);
    NoSlashAfter(d, u);
    assert s[|c|] == '/' && s[|d|] == '/';
    assert s[..|c|] == c && s[..|d|] == d;
    assert s[|c| + 1..] == Print(v) && s[|d| + 1..] == Print(u);
    assert Decimal(Print(v)) == v && Decimal(Print(u)) == u;
  }

  lemma NoSlashAfter(c: string, v: u32)
    ensures var s := DeviceKey(c, Print(v)); forall i :: |c| < i < |s| ==> s[i] != '/'
  {
    var s := DeviceKey(c, Print(v));
    forall i | |c| < i < |s| ensures s[i] != '/' { assert s[i] == Print(v)[i - |c| - 1] && IsDigit(Print(v)[i - |c| - 1]); }
  }

  /** How a guest's device can also be a rule's: the guest's cluster is named like a rule of the other cluster. */
  predicate Collides(c: string, v: u32, d: string, rule: string, middle: string) {
    c == d + ['/'] + RULE + middle && rule == middle + ['/'] + Print(v)
  }

  /** A guest and a rule share a device exactly then. */
  lemma DevicesCollideExactlyWhen(c: string, v: u32, d: string, rule: string)
    ensures DeviceKey(c, OfGuest(v).Key()) == DeviceKey(d, OfRule(rule).Key())
      <==> exists middle :: Collides(c, v, d, rule, middle)
  {
    var a, b := DeviceKey(c, Print(v)), DeviceKey(d, RULE + rule);
    if a == b { CollisionShape(c, v, d, rule); }
    forall middle | Collides(c, v, d, rule, middle) ensures a == b {
      assert a == d + ['/'] + RULE + middle + ['/'] + Print(v);
      assert b == d + ['/'] + RULE + (middle + ['/'] + Print(v));
    }
  }

  lemma CollisionShape(c: string, v: u32, d: string, rule: string)
    requires DeviceKey(c, Print(v)) == DeviceKey(d, RULE + rule)
    ensures exists middle :: Collides(c, v, d, rule, middle)
  {
    var s := DeviceKey(c, Print(v));
    NoSlashAfter(c, v);
    assert s[|d|] == '/' && s[|c|] == '/';
    assert forall k :: 0 <= k < |RULE| ==> s[|d| + 1 + k] == RULE[k] != '/';
    assert IsDigit(Print(v)[0]) && s[|c| + 1] == Print(v)[0];
    assert |d| != |c| by { assert RULE[0] == 'h'; }
    assert |c| > |d| + |RULE|;
    var middle := s[|d| + 1 + |RULE|..|c|];
    assert s[..|c|] == c && s[|c| + 1..] == Print(v);
    assert s[|d| + 1 + |RULE|..] == rule;
    assert c == d + ['/'] + RULE + middle;
    assert rule == middle + ['/'] + Print(v);
    assert Collides(c, v, d, rule, middle);
  }

  lemma CollisionNeedsSlashes(c: string, v: u32, d: string, rule: string, middle: string)
    ensures Collides(c, v, d, rule, middle) ==> '/' in c && '/' in rule && c != d
  {
    if Collides(c, v, d, rule, middle) { assert c[|d|] == '/' && rule[|middle|] == '/'; }
  }

  /** So a rule's device is never a guest's of the same cluster, of a slash-free one, or for a slash-free rule. */
  lemma SubjectsDoNotCollide(c: string, v: u32, d: string, rule: string)
    requires c == d || '/' !in c || '/' !in rule
    ensures DeviceKey(c, OfGuest(v).Key()) != DeviceKey(d, OfRule(rule).Key())
  {
    DevicesCollideExactlyWhen(c, v, d, rule);
    forall middle { CollisionNeedsSlashes(c, v, d, rule, middle); }
  }

  /** The approval that must stand behind every write. */
  predicate ProperlyApproved(r: Record) {
    match r.approval
    case NotApproved => false
    case ApprovedBy(who, actor) => actor == Human && who != r.plan.owner
    case WaivedByLabMode => r.plan.planner.PlanDestroy? && r.plan.planner.weighed.Decision().LabMode?
  }

  // ---- Coordinator operations on one record ------------------------------------

  predicate CanApprove(r: Record, who: string, actor: Actor) {
    r.state == Planned && actor == Human && who != r.plan.owner
  }

  function Approve(r: Record, who: string, actor: Actor): Record { r.(state := Approved, approval := ApprovedBy(who, actor)) }

  predicate CanWaive(r: Record) { r.state == Planned }

  function Waive(r: Record): Record { r.(state := Approved, approval := WaivedByLabMode) }

  predicate CanClaim(r: Record) { r.state == Approved }

  /** The atomic claim; `handleless` is what the caller passes as `ApplyHandle::None`. */
  function Claim(r: Record, handleless: bool): Record { r.(state := Applying, handleless := handleless) }

  /** What loading the store does to a record that expected a handle and has none. */
  function OnStartup(r: Record): Record {
    if r.state == Applying && r.handle.None? && !r.handleless then r.(state := Failed) else r
  }

  /** A settling write: the outcome is stored and the handle cleared. */
  function Settled(r: Record, ok: bool): Record { r.(state := if ok then Applied else Failed, handle := None) }

  /** What recovery does with one record and one answer: `None` leaves it alone. */
  function RecoveryOutcome(r: Record, clusters: set<string>, answer: Answer): Option<bool> {
    if r.state != Applying || r.handle.None? || ParseUpid(r.handle.value).None? then None
    else match DeviceCluster(r.plan.Device())
      case None => None
      case Some(cluster) =>
        if cluster !in clusters then None
        else match RecoverOnce(answer)
          case None => None
          case Some(exit) => Some(Succeeded(exit))
  }
}

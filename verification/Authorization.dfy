/** Stage-2 authorization and the two-read gate every handler puts in front of it. */
module Authorization {
  import opened Text
  import opened Selectors
  import opened Guests
  import opened Protection
  import opened Grants

  datatype Intent = Intent(tier: Tier, interrupts: bool, overrideApplies: Option<bool>)

  datatype Denial =
    | OutOfScope(cluster: string)
    | TierNotGranted(tier: Tier)
    | GuestProtected(vmid: u32, reasons: seq<Reason>, destructive: bool)
    | ReadFailed

  datatype Outcome = Authorized(guest: Guest, verdict: Verdict, tier: Tier) | Refused(denial: Denial)

  /** Whether protection stands in the way of this intent. */
  predicate Disrupts(intent: Intent) { intent.tier == Destructive || intent.interrupts }

  /** `GuestIndex::authorize`, given what its own resolve answered. */
  function Authorize(policy: Policy, cluster: string, vmid: u32, read: Resolved, grant: Grant, intent: Intent): Outcome {
    match read
    case Absent => Refused(OutOfScope(cluster))
    case Unreadable => Refused(ReadFailed)
    case Found(guest) =>
      if !AllowsGuest(grant, guest.FactsOf()) then Refused(OutOfScope(cluster))
      else if !AllowsAction(grant, intent.tier) then Refused(TierNotGranted(intent.tier))
      else
        var verdict := VerdictOf(policy, Some(guest), false);
        if Disrupts(intent) && verdict.Protected? && !intent.overrideApplies.GetOr(false) then
          Refused(GuestProtected(vmid, verdict.reasons, intent.tier == Destructive))
        else Authorized(guest, verdict, intent.tier)
  }

  // ---- What the answer may depend on ----------------------------------------

  type Listing = map<u32, Guest>

  function ReadFrom(listing: Listing, vmid: u32): Resolved {
    if vmid in listing then Found(listing[vmid]) else Absent
  }

  predicate Admitted(listing: Listing, vmid: u32, grant: Grant) {
    vmid in listing && AllowsGuest(grant, listing[vmid].FactsOf())
  }

  /** The two listings hold the same in-scope guests. */
  ghost predicate AgreeInScope(a: Listing, b: Listing, grant: Grant) {
    forall v: u32 :: Admitted(a, v, grant) || Admitted(b, v, grant) ==> v in a && v in b && a[v] == b[v]
  }

  /** An answer tells nothing about guests out of scope, present or absent. */
  lemma AnswerDependsOnScopeOnly(policy: Policy, cluster: string, vmid: u32, a: Listing, b: Listing, grant: Grant, intent: Intent)
    requires AgreeInScope(a, b, grant)
    ensures Authorize(policy, cluster, vmid, ReadFrom(a, vmid), grant, intent)
         == Authorize(policy, cluster, vmid, ReadFrom(b, vmid), grant, intent)
  {
    assert Admitted(a, vmid, grant) || Admitted(b, vmid, grant) ==> vmid in a && vmid in b && a[vmid] == b[vmid];
  }

  /** Conversely an in-scope read-tier call does reveal the guest: scope is the only thing hidden. */
  lemma ReadAnswerShowsExactlyScope(policy: Policy, cluster: string, vmid: u32, a: Listing, grant: Grant)
    requires AllowsAction(grant, Read)
    ensures Authorize(policy, cluster, vmid, ReadFrom(a, vmid), grant, Intent(Read, false, None)).Authorized?
      <==> Admitted(a, vmid, grant)
  {
  }

  // ---- The two-read gate ------------------------------------------------------

  /** Everything a guest handler decides with besides its two reads. */
  datatype Call = Call(
    policy: Policy, waivers: seq<Waiver>, labMode: bool, now: nat, cluster: string, vmid: u32,
    op: string, principal: Option<string>, grant: Grant, tier: Tier, interrupts: bool)
  {
    function Attempted(): Attempt { Attempt(cluster, vmid, now, op, principal) }
    function Protections(read: Resolved): Verdict {
      match read
      case Found(g) => VerdictOf(policy, Some(g), false)
      case _ => VerdictOf(policy, None, true)
    }
    function OverrideFrom(read: Resolved): Override {
      DestructiveAllowed(Protections(read), waivers, labMode, Attempted())
    }
  }

  /** A handler: its own resolve decides the override, `authorize` resolves again and decides. */
  function Gate(c: Call, first: Resolved, second: Resolved): Outcome {
    var intent := Intent(c.tier, c.interrupts, Some(!c.OverrideFrom(first).NoOverride?));
    Authorize(c.policy, c.cluster, c.vmid, second, c.grant, intent)
  }

  // ---- In the words of grant, inventory and waiver file -----------------------------

  /** Some term of the grant names the guest. */
  ghost predicate Reaches(grant: Grant, g: Guest) { InScope(grant.guests, Facts(g.vmid, g.kind, g.node, g.pool, g.tags)) }

  /** The inventory pins the guest's vmid, or the guest carries a protected tag. */
  predicate Guarded(policy: Policy, g: Guest) {
    g.vmid in policy.protectedVmids || exists tag :: tag in g.tags && tag in policy.protectedTags
  }

  /** An unexpired waiver for this cluster and vmid lists the operation, for anybody or for this principal. */
  predicate Waived(waivers: seq<Waiver>, cluster: string, vmid: u32, now: nat, op: string, principal: Option<string>) {
    exists w ::
      && w in waivers && w.cluster == cluster && w.vmid == vmid && now < w.until
      && op in w.ops && (w.principal.None? || w.principal == principal)
  }

  predicate Overridden(c: Call) { c.labMode || Waived(c.waivers, c.cluster, c.vmid, c.now, c.op, c.principal) }

  /**
   * The second read found a guest in scope, the token has the tier, and the guest
   * is not disturbed, or not guarded, or an override holds and the first read did
   * not find it unguarded.
   */
  ghost predicate Entitled(c: Call, first: Resolved, second: Resolved) {
    && second.Found? && Reaches(c.grant, second.guest) && c.tier in c.grant.actions
    && ((c.tier != Destructive && !c.interrupts) || !Guarded(c.policy, second.guest)
        || (Overridden(c) && (first.Found? ==> Guarded(c.policy, first.guest))))
  }

  lemma ReachMeans(grant: Grant, g: Guest)
    ensures AllowsGuest(grant, g.FactsOf()) <==> Reaches(grant, g)
  {
    ScopeMeans(grant, g.FactsOf());
  }

  lemma VerdictMeans(c: Call, read: Resolved)
    ensures c.Protections(read).Protected? <==> (read.Found? ==> Guarded(c.policy, read.guest))
  {
    ProtectedExactlyWhen(c.policy, if read.Found? then Some(read.guest) else None, !read.Found?);
  }

  lemma OverrideMeans(c: Call, read: Resolved)
    ensures !c.OverrideFrom(read).NoOverride? <==> Overridden(c) && (read.Found? ==> Guarded(c.policy, read.guest))
  {
    VerdictMeans(c, read);
    OverrideMeaning(c.Protections(read), c.waivers, c.labMode, c.Attempted());
  }

  /** Exactly when the gate opens, for any pair of reads. */
  lemma GateOpensExactlyWhen(c: Call, first: Resolved, second: Resolved)
    ensures Gate(c, first, second).Authorized? <==> Entitled(c, first, second)
    ensures Gate(c, first, second).Authorized? ==> Gate(c, first, second).guest == second.guest
  {
    OverrideMeans(c, first);
    if second.Found? {
      ReachMeans(c.grant, second.guest);
      VerdictMeans(c, second);
    }
  }

  /** Each refusal of `authorize` has its own cause. */
  lemma RefusalsExactlyWhen(policy: Policy, cluster: string, vmid: u32, read: Resolved, grant: Grant, intent: Intent)
    ensures var answer := Authorize(policy, cluster, vmid, read, grant, intent);
      var inScope := read.Found? && Reaches(grant, read.guest);
      && (answer == Refused(ReadFailed) <==> read.Unreadable?)
      && (answer == Refused(OutOfScope(cluster)) <==> !read.Unreadable? && !inScope)
      && (answer == Refused(TierNotGranted(intent.tier)) <==> inScope && intent.tier !in grant.actions)
      && (answer.Refused? && answer.denial.GuestProtected? <==>
            && inScope && intent.tier in grant.actions && (intent.tier == Destructive || intent.interrupts)
            && Guarded(policy, read.guest) && intent.overrideApplies != Some(true))
  {
    if read.Found? {
      ReachMeans(grant, read.guest);
      ProtectedExactlyWhen(policy, Some(read.guest), false);
    }
  }

  /**
   * Fail closed under any change between the reads: a guest protected when
   * `authorize` looks is disturbed only under lab mode or a live waiver for
   * exactly this cluster, vmid, operation and principal.
   */
  lemma ProtectedGuestNeedsAnOverride(c: Call, first: Resolved, second: Resolved)
    requires c.tier == Destructive || c.interrupts
    requires Gate(c, first, second).Authorized? && c.Protections(second).Protected?
    ensures c.labMode
      || exists w ::
           && w in c.waivers && w.cluster == c.cluster && w.vmid == c.vmid && c.now < w.until
           && c.op in w.ops && (w.principal.None? || w.principal == c.principal)
  {
    GateOpensExactlyWhen(c, first, second);
  }

  /** The second answer ignores whatever override the first read produced. */
  predicate OverrideIsIdle(c: Call, second: Resolved) {
    !(second.Found? && AllowsGuest(c.grant, second.guest.FactsOf()) && AllowsAction(c.grant, c.tier)
      && (c.tier == Destructive || c.interrupts) && c.Protections(second).Protected?)
  }

  /**
   * The first read, which is made before any scope check, shows in the answer
   * exactly when the second read finds an in-scope protected guest to disturb
   * and the two first reads disagree on whether an override applies.
   */
  lemma FirstReadShowsExactlyThroughOverride(c: Call, a: Resolved, b: Resolved, second: Resolved)
    ensures Gate(c, a, second) == Gate(c, b, second)
      <==> OverrideIsIdle(c, second) || c.OverrideFrom(a).NoOverride? == c.OverrideFrom(b).NoOverride?
  {
  }

  /** So a handler whose two reads see one listing answers from in-scope guests alone. */
  lemma GateDependsOnScopeOnly(c: Call, a: Listing, b: Listing)
    requires AgreeInScope(a, b, c.grant)
    ensures Gate(c, ReadFrom(a, c.vmid), ReadFrom(a, c.vmid)) == Gate(c, ReadFrom(b, c.vmid), ReadFrom(b, c.vmid))
  {
    assert Admitted(a, c.vmid, c.grant) || Admitted(b, c.vmid, c.grant)
      ==> c.vmid in a && c.vmid in b && a[c.vmid] == b[c.vmid];
  }

  // ---- The owner of a backup --------------------------------------------------------

  /** Why a restore may not read from a backup's owner; each has its own text. */
  datatype OwnerDenial = OwnerOutOfScope | OwnerProtected(reasons: seq<Reason>) | OwnerGone | OwnerUnreadable

  /**
   * `authorize_backup_owner`: a guest that still exists must be in scope and
   * unprotected or overridden; one that is gone is held to the creation rule.
   */
  function CheckOwner(c: Call, read: Resolved): Option<OwnerDenial> {
    match read
    case Found(guest) =>
      if !AllowsGuest(c.grant, guest.FactsOf()) then Some(OwnerOutOfScope)
      else if c.Protections(read).Protected? && c.OverrideFrom(read).NoOverride? then
        Some(OwnerProtected(c.Protections(read).reasons))
      else None
    case Absent => if AllowsNewVmid(c.grant, c.vmid) then None else Some(OwnerGone)
    case Unreadable => Some(OwnerUnreadable)
  }

  predicate OwnerAdmits(c: Call, read: Resolved) { CheckOwner(c, read).None? }

  /** The owner exists in scope, unguarded or overridden; or it is gone and its vmid could be created. */
  ghost predicate OwnerOpen(c: Call, read: Resolved) {
    match read
    case Found(g) => Reaches(c.grant, g) && (Guarded(c.policy, g) ==> Overridden(c))
    case Absent => MayCreateAt(c.grant.guests, c.vmid)
    case Unreadable => false
  }

  lemma CreationMeans(grant: Grant, vmid: u32)
    ensures AllowsNewVmid(grant, vmid) <==> MayCreateAt(grant.guests, vmid)
  {
    ScopeMeans(grant, Facts(vmid, Qemu, "", None, []));
  }

  /** Exactly when a restore may read from the owner, and why it may not. */
  lemma OwnerAdmittedExactlyWhen(c: Call, read: Resolved)
    ensures OwnerAdmits(c, read) <==> OwnerOpen(c, read)
    ensures var denial := CheckOwner(c, read);
      && (denial == Some(OwnerUnreadable) <==> read.Unreadable?)
      && (denial == Some(OwnerGone) <==> read.Absent? && !MayCreateAt(c.grant.guests, c.vmid))
      && (denial == Some(OwnerOutOfScope) <==> read.Found? && !Reaches(c.grant, read.guest))
      && (denial.Some? && denial.value.OwnerProtected? <==>
            read.Found? && Reaches(c.grant, read.guest) && Guarded(c.policy, read.guest) && !Overridden(c))
  {
    CreationMeans(c.grant, c.vmid);
    OverrideMeans(c, read);
    VerdictMeans(c, read);
    if read.Found? { ReachMeans(c.grant, read.guest); }
  }

  /** Two listings that agree in scope, read by a token that may create at the vmid, show it the same owner. */
  lemma CreatableVmidIsInScope(c: Call, a: Listing, b: Listing)
    requires AgreeInScope(a, b, c.grant) && KeyedByVmid(a) && KeyedByVmid(b) && AllowsNewVmid(c.grant, c.vmid)
    ensures ReadFrom(a, c.vmid) == ReadFrom(b, c.vmid)
  {
    if c.vmid in a {
      NewVmidAdmitsAll(c.grant, a[c.vmid].FactsOf());
      assert Admitted(a, c.vmid, c.grant);
    }
    if c.vmid in b {
      NewVmidAdmitsAll(c.grant, b[c.vmid].FactsOf());
      assert Admitted(b, c.vmid, c.grant);
    }
  }

  predicate KeyedByVmid(listing: Listing) { forall v: u32 :: v in listing ==> listing[v].vmid == v }

  /** Whether a restore may copy a guest's disks depends on in-scope guests alone. */
  lemma OwnerCheckDependsOnScopeOnly(c: Call, a: Listing, b: Listing)
    requires AgreeInScope(a, b, c.grant) && KeyedByVmid(a) && KeyedByVmid(b)
    ensures OwnerAdmits(c, ReadFrom(a, c.vmid)) == OwnerAdmits(c, ReadFrom(b, c.vmid))
  {
    assert Admitted(a, c.vmid, c.grant) || Admitted(b, c.vmid, c.grant)
      ==> c.vmid in a && c.vmid in b && a[c.vmid] == b[c.vmid];
    if AllowsNewVmid(c.grant, c.vmid) { CreatableVmidIsInScope(c, a, b); }
  }

  /**
   * The refusal itself shows one thing more: for listings that agree in scope it
   * differs exactly when only one of them holds the owner, who is then out of scope.
   */
  lemma OwnerRefusalsDifferExactlyWhen(c: Call, a: Listing, b: Listing)
    requires AgreeInScope(a, b, c.grant) && KeyedByVmid(a) && KeyedByVmid(b)
    ensures CheckOwner(c, ReadFrom(a, c.vmid)) != CheckOwner(c, ReadFrom(b, c.vmid))
      <==> (c.vmid in a) != (c.vmid in b)
  {
    assert Admitted(a, c.vmid, c.grant) || Admitted(b, c.vmid, c.grant)
      ==> c.vmid in a && c.vmid in b && a[c.vmid] == b[c.vmid];
    if AllowsNewVmid(c.grant, c.vmid) { CreatableVmidIsInScope(c, a, b); }
  }
}

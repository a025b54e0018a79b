/** Protection verdicts, operator waivers and lab mode. */
module Protection {
  import opened Text
  import opened Guests

  /** The part of a cluster's inventory entry that pins guests. */
  datatype Policy = Policy(protectedVmids: seq<u32>, protectedTags: seq<string>)

  datatype Reason = LiveTag(tag: string) | InventoryPin | ResolutionFailed | UnknownGuest

  datatype Verdict = Unprotected | Protected(reasons: seq<Reason>)

  function TagReasons(tags: seq<string>, policy: Policy): seq<Reason> {
    if tags == [] then []
    else
      var before := TagReasons(tags[..|tags| - 1], policy);
      if tags[|tags| - 1] in policy.protectedTags then before + [LiveTag(tags[|tags| - 1])] else before
  }

  function PinReasons(vmid: u32, policy: Policy): seq<Reason> {
    if vmid in policy.protectedVmids then [InventoryPin] else []
  }

  function Reasons(policy: Policy, guest: Option<Guest>, failed: bool): seq<Reason> {
    var read: seq<Reason> := if failed then [ResolutionFailed] else [];
    match guest
    case None => if failed then read else [UnknownGuest]
    case Some(g) => read + TagReasons(g.tags, policy) + PinReasons(g.vmid, policy)
  }

  function VerdictOf(policy: Policy, guest: Option<Guest>, failed: bool): Verdict {
    var reasons := Reasons(policy, guest, failed);
    if reasons == [] then Unprotected else Protected(reasons)
  }

  /** The tag loop of `protection_of`. */
  method PushLiveTags(before: seq<Reason>, tags: seq<string>, policy: Policy) returns (reasons: seq<Reason>)
    ensures reasons == before + TagReasons(tags, policy)
  {
    reasons := before;
    for i := 0 to |tags|
      invariant reasons == before + TagReasons(tags[..i], policy)
    {
      assert tags[..i + 1][..i] == tags[..i];
      if tags[i] in policy.protectedTags { reasons := reasons + [LiveTag(tags[i])]; }
    }
    assert tags[..|tags|] == tags;
  }

  /** `protection_of`: pushes every applicable reason in a stable order. */
  method ProtectionOf(policy: Policy, guest: Option<Guest>, failed: bool) returns (verdict: Verdict)
    ensures verdict == VerdictOf(policy, guest, failed)
  {
    var reasons := [];
    if failed { reasons := [ResolutionFailed]; }
    if guest.None? {
      if !failed { reasons := [UnknownGuest]; }
    } else {
      reasons := PushLiveTags(reasons, guest.value.tags, policy);
      reasons := reasons + PinReasons(guest.value.vmid, policy);
    }
    verdict := if reasons == [] then Unprotected else Protected(reasons);
  }

  lemma {:induction false} TagReasonsMeaning(tags: seq<string>, policy: Policy, r: Reason)
    ensures r in TagReasons(tags, policy) <==> r.LiveTag? && r.tag in tags && r.tag in policy.protectedTags
  {
    if tags != [] {
      TagReasonsMeaning(tags[..|tags| - 1], policy, r);
      assert tags == tags[..|tags| - 1] + [tags[|tags| - 1]];
    }
  }

  /** The union rule: a live tag, a pin, an unknown guest or a failed read each suffice, and nothing else does. */
  lemma ProtectedExactlyWhen(policy: Policy, guest: Option<Guest>, failed: bool)
    ensures VerdictOf(policy, guest, failed).Protected?
      <==> failed || guest.None? || guest.value.vmid in policy.protectedVmids
           || exists tag :: tag in guest.value.tags && tag in policy.protectedTags
  {
    if guest.Some? {
      var rs := TagReasons(guest.value.tags, policy);
      if rs != [] { TagReasonsMeaning(guest.value.tags, policy, rs[0]); }
      forall tag | tag in guest.value.tags && tag in policy.protectedTags ensures rs != [] {
        TagReasonsMeaning(guest.value.tags, policy, LiveTag(tag));
      }
    }
  }

  /** `creation_allowed`: a pinned vmid may not be claimed. */
  predicate CreationAllowed(policy: Policy, vmid: u32) { vmid !in policy.protectedVmids }

  /** Whatever tags a guest created at an allowed vmid carries, no pin protects it. */
  lemma CreationNeverClaimsAPin(policy: Policy, guest: Guest)
    ensures CreationAllowed(policy, guest.vmid) <==> InventoryPin !in Reasons(policy, Some(guest), false)
  {
    TagReasonsMeaning(guest.tags, policy, InventoryPin);
  }

  // ---- Overrides ------------------------------------------------------------

  datatype Waiver = Waiver(
    cluster: string, vmid: u32, until: nat, reason: string, ticket: Option<string>,
    ops: seq<string>, principal: Option<string>)

  /** One attempt a waiver may cover. */
  datatype Attempt = Attempt(cluster: string, vmid: u32, now: nat, op: string, principal: Option<string>)

  predicate Covers(w: Waiver, a: Attempt) {
    w.cluster == a.cluster && w.vmid == a.vmid && a.now < w.until && a.op in w.ops
    && (w.principal.None? || w.principal == a.principal)
  }

  /** `WaiverFile::matching`: the first entry that covers the attempt. */
  function Matching(waivers: seq<Waiver>, a: Attempt): (r: Option<Waiver>)
    ensures r.Some? ==> r.value in waivers && Covers(r.value, a)
    ensures r.None? ==> forall w :: w in waivers ==> !Covers(w, a)
  {
    if waivers == [] then None else if Covers(waivers[0], a) then Some(waivers[0]) else Matching(waivers[1..], a)
  }

  datatype Override = NoOverride | ByWaiver(waiver: Waiver) | LabMode

  function DestructiveAllowed(v: Verdict, waivers: seq<Waiver>, labMode: bool, a: Attempt): Override {
    if v.Unprotected? then NoOverride
    else match Matching(waivers, a)
      case Some(w) => ByWaiver(w)
      case None => if labMode then LabMode else NoOverride
  }

  predicate Covered(waivers: seq<Waiver>, a: Attempt) { exists w :: w in waivers && Covers(w, a) }

  /** When each kind of override applies; a waiver always takes precedence over lab mode. */
  lemma OverrideMeaning(v: Verdict, waivers: seq<Waiver>, labMode: bool, a: Attempt)
    ensures DestructiveAllowed(v, waivers, labMode, a).LabMode? <==> v.Protected? && labMode && !Covered(waivers, a)
    ensures DestructiveAllowed(v, waivers, labMode, a).ByWaiver? <==> v.Protected? && Covered(waivers, a)
  {
    var m := Matching(waivers, a);
    if m.Some? { assert Covered(waivers, a); }
  }
}

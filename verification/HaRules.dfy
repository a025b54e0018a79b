/** Which guests a change of a high-availability rule touches, and who may make it. */
module HaRules {
  import opened Text
  import opened Guests
  import opened Grants
  import opened Protection
  import opened Authorization
  import opened JsonAccess
  import J = Json

  /** The vmid of a service id `vm:<vmid>` or `ct:<vmid>`. */
  function ServiceVmid(id: string): Option<u32> {
    match SplitOnce(id, ':')
    case None => None
    case Some((prefix, number)) =>
      if prefix != "vm" && prefix != "ct" then None
      else if number == "" || !AllDigits(number) || Decimal(number) >= 0x1_0000_0000 then None
      else Some(Decimal(number))
  }

  /** A service id is read exactly as `vm:` or `ct:` and a number of 32 bits in digits. */
  lemma ServiceVmidMeans(id: string, v: u32)
    ensures ServiceVmid(id) == Some(v) <==>
      exists digits :: digits != "" && AllDigits(digits) && Decimal(digits) == v && (id == "vm:" + digits || id == "ct:" + digits)
  {
    assert "vm" + [':'] == "vm:" && "ct" + [':'] == "ct:";
    forall digits | digits != "" && AllDigits(digits) && Decimal(digits) == v && (id == "vm:" + digits || id == "ct:" + digits)
      ensures ServiceVmid(id) == Some(v)
    {
      if id == "vm:" + digits { SplitOnceFinds("vm", ':', digits); } else { SplitOnceFinds("ct", ':', digits); }
    }
    if ServiceVmid(id) == Some(v) {
      var (prefix, number) := SplitOnce(id, ':').value;
      assert id == prefix + [':'] + number;
      assert id == "vm:" + number || id == "ct:" + number;
    }
  }

  /** The field that lists a stored rule's members. */
  function MemberField(rule: J.Value): Option<J.Value> {
    match Get(rule, "resources")
    case Some(v) => Some(v)
    case None => Get(rule, "services")
  }

  /** Members are listed under `resources`, or under `services` when there is no such field. */
  lemma MemberFieldMeans(rule: J.Value, v: J.Value)
    ensures MemberField(rule) == Some(v)
      <==> Holds(rule, "resources", v) || ((forall w :: !Holds(rule, "resources", w)) && Holds(rule, "services", v))
  {
    forall w ensures Get(rule, "resources") == Some(w) <==> Holds(rule, "resources", w) { GetMeans(rule, "resources", w); }
    GetMeans(rule, "services", v);
  }

  /** `id` is listed by the member field: an element of its array, or a non-blank piece of its comma list. */
  ghost predicate ListedBy(field: Option<J.Value>, id: string) {
    match field
    case Some(Arr(items)) => exists i :: 0 <= i < |items| && items[i].Str? && Trim(items[i].s) == id
    case Some(Str(list)) => id != "" && exists i :: 0 <= i < |Split(list, ',')| && Trim(Split(list, ',')[i]) == id
    case _ => false
  }

  /** The field has a shape the server can read in full. */
  predicate Readable(field: Option<J.Value>) {
    match field
    case None => true
    case Some(Null) => true
    case Some(Str(_)) => true
    case Some(Arr(items)) => forall i :: 0 <= i < |items| ==> items[i].Str?
    case _ => false
  }

  function FieldOf(existing: Option<J.Value>): Option<J.Value> {
    match existing case None => None case Some(rule) => MemberField(rule)
  }

  /** Named by the request, or by the rule as it stands. */
  ghost predicate Named(requested: seq<string>, existing: Option<J.Value>, id: string) {
    id in requested || ListedBy(FieldOf(existing), id)
  }

  method PushArray(before: seq<string>, items: seq<J.Value>) returns (ids: Option<seq<string>>)
    ensures ids.Some? <==> Readable(Some(J.Arr(items)))
    ensures ids.Some? ==> forall id :: id in ids.value <==> id in before || ListedBy(Some(J.Arr(items)), id)
  {
    var all := before;
    for i := 0 to |items|
      invariant forall j :: 0 <= j < i ==> items[j].Str?
      invariant forall id :: id in all <==> id in before || exists j :: 0 <= j < i && items[j].Str? && Trim(items[j].s) == id
    {
      if !items[i].Str? { return None; }
      all := all + [Trim(items[i].s)];
    }
    ids := Some(all);
  }

  method PushList(before: seq<string>, list: string) returns (ids: seq<string>)
    ensures forall id :: id in ids <==> id in before || ListedBy(Some(J.Str(list)), id)
  {
    var parts := Split(list, ',');
    ids := before;
    for i := 0 to |parts|
      invariant forall id :: id in ids <==> id in before || (id != "" && exists j :: 0 <= j < i && Trim(parts[j]) == id)
    {
      var entry := Trim(parts[i]);
      if entry != "" { ids := ids + [entry]; }
    }
  }

  /** `guests_touched`: an id it cannot read is refused, never skipped. */
  method GuestsTouched(requested: seq<string>, existing: Option<J.Value>) returns (vmids: Option<set<u32>>)
    ensures vmids.Some?
      <==> Readable(FieldOf(existing)) && forall id :: Named(requested, existing, id) ==> ServiceVmid(id).Some?
    ensures vmids.Some? ==>
      forall v: u32 :: v in vmids.value <==> exists id :: Named(requested, existing, id) && ServiceVmid(id) == Some(v)
  {
    var ids := requested;
    match FieldOf(existing) {
      case Some(Str(list)) => ids := PushList(ids, list);
      case Some(Arr(items)) =>
        var pushed := PushArray(ids, items);
        if pushed.None? { return None; }
        ids := pushed.value;
      case Some(Null) =>
      case None =>
      case _ => return None;
    }
    assert forall id :: id in ids <==> Named(requested, existing, id);
    var found: set<u32> := {};
    for i := 0 to |ids|
      invariant forall j :: 0 <= j < i ==> ServiceVmid(ids[j]).Some?
      invariant forall v: u32 :: v in found <==> exists j :: 0 <= j < i && ServiceVmid(ids[j]) == Some(v)
    {
      var vmid := ServiceVmid(ids[i]);
      if vmid.None? {
        assert Named(requested, existing, ids[i]);
        return None;
      }
      found := found + {vmid.value};
    }
    assert forall id :: id in ids ==> ServiceVmid(id).Some?;
    vmids := Some(found);
  }

  // ---- Authorizing the change ---------------------------------------------------------

  datatype HaDenial =
    | TierMissing
    | NeedsUnrestrictedScope
    | UnreadableService
    | GuestRefused(vmid: u32, denial: Denial)
    | ClaimsAPin(vmid: u32)

  datatype HaOp = Create | Update | Delete {
    function Text(): string {
      match this
      case Create => "create"
      case Update => "update"
      case Delete => "delete"
    }
  }

  /**
   * One touched vmid: a guest passes the destructive gate of a destroy; a vmid
   * with no guest is held to the creation rule.
   */
  function CheckOne(c: Call, first: Resolved, second: Resolved): Option<HaDenial> {
    match first
    case Found(_) =>
      (match Gate(c, first, second)
       case Authorized(_, _, _) => None
       case Refused(denial) => Some(GuestRefused(c.vmid, denial)))
    case Absent =>
      if !AllowsNewVmid(c.grant, c.vmid) then Some(GuestRefused(c.vmid, OutOfScope(c.cluster)))
      else if !CreationAllowed(c.policy, c.vmid) then Some(ClaimsAPin(c.vmid))
      else None
    case Unreadable => Some(GuestRefused(c.vmid, ReadFailed))
  }

  /** What the two reads of one vmid answered. */
  datatype TwoReads = TwoReads(first: Resolved, second: Resolved)

  /** How the caller is checked for one vmid: as a destroy of it, waived under the operation's own name. */
  function CallFor(c: Call, op: HaOp, v: u32): Call { c.(vmid := v, op := "ha_rule_" + op.Text(), tier := Destructive) }

  /** The check of each vmid, given what its reads answer. */
  function Checks(c: Call, op: HaOp, looks: u32 -> TwoReads): u32 -> Option<HaDenial> {
    (v: u32) => CheckOne(CallFor(c, op, v), looks(v).first, looks(v).second)
  }

  /** `authorize_ha_rule_guests` over the touched vmids in ascending order: the first refusal ends it. */
  method CheckAll(vmids: seq<u32>, check: u32 -> Option<HaDenial>) returns (denial: Option<HaDenial>)
    ensures denial.None? <==> forall i :: 0 <= i < |vmids| ==> check(vmids[i]).None?
    ensures denial.Some? ==>
      exists i :: 0 <= i < |vmids| && denial == check(vmids[i]) && forall j :: 0 <= j < i ==> check(vmids[j]).None?
  {
    for i := 0 to |vmids|
      invariant forall j :: 0 <= j < i ==> check(vmids[j]).None?
    {
      denial := check(vmids[i]);
      if denial.Some? { return; }
    }
    denial := None;
  }

  /** There is no guest and the vmid may be created and is not pinned; or there is one the caller is entitled to. */
  ghost predicate Permitted(c: Call, r: TwoReads) {
    || (r.first.Absent? && MayCreateAt(c.grant.guests, c.vmid) && c.vmid !in c.policy.protectedVmids)
    || (r.first.Found? && Entitled(c, r.first, r.second))
  }

  lemma CheckPassesExactlyWhen(c: Call, first: Resolved, second: Resolved)
    ensures CheckOne(c, first, second).None? <==> Permitted(c, TwoReads(first, second))
  {
    GateOpensExactlyWhen(c, first, second);
    CreationMeans(c.grant, c.vmid);
  }

  /** A set of vmids in ascending order, as a `BTreeSet` is walked. */
  method Ascending(vmids: set<u32>) returns (listed: seq<u32>)
    ensures forall i, j :: 0 <= i < j < |listed| ==> listed[i] < listed[j]
    ensures forall v: u32 :: v in listed <==> v in vmids
  {
    listed := [];
    var left := vmids;
    while left != {}
      invariant left <= vmids
      invariant forall v: u32 :: v in vmids <==> v in left || v in listed
      invariant forall i, j :: 0 <= i < j < |listed| ==> listed[i] < listed[j]
      invariant forall i, v: u32 :: 0 <= i < |listed| && v in left ==> listed[i] < v
      decreases |left|
    {
      var least := Least(left);
      listed := listed + [least];
      left := left - {least};
    }
  }

  method Least(vmids: set<u32>) returns (least: u32)
    requires vmids != {}
    ensures least in vmids && forall v :: v in vmids ==> least <= v
  {
    least :| least in vmids;
    var left := vmids - {least};
    while left != {}
      invariant left <= vmids && least in vmids
      invariant forall v :: v in vmids && v !in left ==> least <= v
      decreases |left|
    {
      var v :| v in left;
      if v < least { least := v; }
      left := left - {v};
    }
  }

  /**
   * Who may make a change: a token with the tier, whose scope is unrestricted if
   * the change touches an existing membership, and for whom every guest named by
   * the request or the rule is permitted.
   */
  ghost predicate MayChange(c: Call, op: HaOp, requested: seq<string>, existing: Option<J.Value>, looks: u32 -> TwoReads) {
    && Destructive in c.grant.actions
    && (op.Create? || IsUnrestricted(c.grant))
    && Readable(FieldOf(existing))
    && (forall id :: Named(requested, existing, id) ==> ServicePermitted(c, op, id, looks))
  }

  /** The service id is readable, and its vmid is permitted for this very operation of the caller. */
  ghost predicate ServicePermitted(c: Call, op: HaOp, id: string, looks: u32 -> TwoReads) {
    && ServiceVmid(id).Some?
    && var v := ServiceVmid(id).value;
       var name := if op.Create? then "ha_rule_create" else if op.Update? then "ha_rule_update" else "ha_rule_delete";
       Permitted(c.(vmid := v, op := name, tier := Destructive), looks(v))
  }

  lemma CallForMeans(c: Call, op: HaOp, v: u32)
    ensures CallFor(c, op, v) == c.(
      vmid := v, tier := Destructive,
      op := if op.Create? then "ha_rule_create" else if op.Update? then "ha_rule_update" else "ha_rule_delete")
  {
    assert "ha_rule_" + "create" == "ha_rule_create" && "ha_rule_" + "update" == "ha_rule_update";
    assert "ha_rule_" + "delete" == "ha_rule_delete";
  }

  /** `authorize_ha_rule_guests`, from request and stored rule to the answer. */
  method AuthorizeHaRuleGuests(
    c: Call, op: HaOp, requested: seq<string>, existing: Option<J.Value>, looks: u32 -> TwoReads)
    returns (denial: Option<HaDenial>)
    ensures denial.None? <==> MayChange(c, op, requested, existing, looks)
    ensures Destructive !in c.grant.actions ==> denial == Some(TierMissing)
    ensures Destructive in c.grant.actions && !op.Create? && !IsUnrestricted(c.grant) ==> denial == Some(NeedsUnrestrictedScope)
  {
    if Destructive !in c.grant.actions { return Some(TierMissing); }
    if !op.Create? && !IsUnrestricted(c.grant) { return Some(NeedsUnrestrictedScope); }
    var touched := GuestsTouched(requested, existing);
    if touched.None? { return Some(UnreadableService); }
    var vmids := Ascending(touched.value);
    denial := CheckAll(vmids, Checks(c, op, looks));
    forall i | 0 <= i < |vmids|
      ensures Checks(c, op, looks)(vmids[i]).None? <==> Permitted(CallFor(c, op, vmids[i]), looks(vmids[i]))
    {
      CheckPassesExactlyWhen(CallFor(c, op, vmids[i]), looks(vmids[i]).first, looks(vmids[i]).second);
    }
    PassesExactlyWhenPermitted(c, op, requested, existing, looks, touched.value, vmids);
  }

  /** All touched vmids are permitted exactly when every named service is. */
  lemma PassesExactlyWhenPermitted(
    c: Call, op: HaOp, requested: seq<string>, existing: Option<J.Value>, looks: u32 -> TwoReads, touched: set<u32>,
    vmids: seq<u32>)
    requires forall id :: Named(requested, existing, id) ==> ServiceVmid(id).Some?
    requires forall v: u32 :: v in touched <==> exists id :: Named(requested, existing, id) && ServiceVmid(id) == Some(v)
    requires forall v: u32 :: v in vmids <==> v in touched
    ensures (forall i :: 0 <= i < |vmids| ==> Permitted(CallFor(c, op, vmids[i]), looks(vmids[i])))
      <==> (forall id :: Named(requested, existing, id) ==> ServicePermitted(c, op, id, looks))
  {
    if forall i :: 0 <= i < |vmids| ==> Permitted(CallFor(c, op, vmids[i]), looks(vmids[i])) {
      forall id | Named(requested, existing, id) ensures ServicePermitted(c, op, id, looks) {
        var v := ServiceVmid(id).value;
        CallForMeans(c, op, v);
        assert v in touched;
        assert v in vmids;
      }
    }
    if forall id :: Named(requested, existing, id) ==> ServicePermitted(c, op, id, looks) {
      forall i | 0 <= i < |vmids| ensures Permitted(CallFor(c, op, vmids[i]), looks(vmids[i])) {
        assert vmids[i] in vmids;
        var id :| Named(requested, existing, id) && ServiceVmid(id) == Some(vmids[i]);
        CallForMeans(c, op, vmids[i]);
        assert ServicePermitted(c, op, id, looks);
      }
    }
  }

  /**
   * The answer about one vmid tells nothing about guests out of scope: absent and
   * out of scope look alike, although they are refused by different rules.
   */
  lemma CheckDependsOnScopeOnly(c: Call, a: Listing, b: Listing)
    requires AgreeInScope(a, b, c.grant)
    requires c.vmid in a ==> a[c.vmid].vmid == c.vmid
    requires c.vmid in b ==> b[c.vmid].vmid == c.vmid
    ensures CheckOne(c, ReadFrom(a, c.vmid), ReadFrom(a, c.vmid)) == CheckOne(c, ReadFrom(b, c.vmid), ReadFrom(b, c.vmid))
  {
    assert Admitted(a, c.vmid, c.grant) || Admitted(b, c.vmid, c.grant)
      ==> c.vmid in a && c.vmid in b && a[c.vmid] == b[c.vmid];
    if AllowsNewVmid(c.grant, c.vmid) {
      if c.vmid in a { NewVmidAdmitsAll(c.grant, a[c.vmid].FactsOf()); }
      if c.vmid in b { NewVmidAdmitsAll(c.grant, b[c.vmid].FactsOf()); }
    }
  }
}

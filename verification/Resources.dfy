/**
 * The two readers of `/cluster/resources`: the guest index, which resolves a
 * vmid, and the listing filter, which narrows what a token sees.
 */
module Resources {
  import opened Text
  import opened Selectors
  import opened Guests
  import opened Grants
  import J = Json
  import opened JsonAccess

  // ---- Reading an entry ------------------------------------------------------

  function KindOf(entry: J.Value): Option<GuestType> {
    match GetStr(entry, "type")
    case Some(s) => if s == Qemu.PathSegment() then Some(Qemu) else if s == Lxc.PathSegment() then Some(Lxc) else None
    case None => None
  }

  function TrimmedTags(parts: seq<string>): seq<string> {
    if parts == [] then []
    else (if Trim(parts[0]) == "" then [] else [Trim(parts[0])]) + TrimmedTags(parts[1..])
  }

  function ParseTags(raw: Option<string>): seq<string> { TrimmedTags(Split(raw.GetOr(""), ';')) }

  function PoolOf(entry: J.Value): Option<string> {
    match GetStr(entry, "pool")
    case Some(p) => if p == "" then None else Some(p)
    case None => None
  }

  // ---- What an entry says -----------------------------------------------------

  /** `tag` is a piece of the semicolon list, trimmed and not blank. */
  ghost predicate CarriesTag(list: string, tag: string) {
    tag != "" && exists i :: 0 <= i < |Split(list, ';')| && Trim(Split(list, ';')[i]) == tag
  }

  lemma {:induction false} TrimmedTagsMean(parts: seq<string>, tag: string)
    ensures tag in TrimmedTags(parts) <==> tag != "" && exists i :: 0 <= i < |parts| && Trim(parts[i]) == tag
  {
    if parts != [] {
      TrimmedTagsMean(parts[1..], tag);
      if i :| 0 <= i < |parts[1..]| && Trim(parts[1..][i]) == tag { assert parts[i + 1] == parts[1..][i]; }
      if i :| 0 <= i < |parts| && Trim(parts[i]) == tag { assert i > 0 ==> parts[1..][i - 1] == parts[i]; }
    }
  }

  /** The tags read are exactly those the list carries. */
  lemma TagsMean(raw: Option<string>, tag: string)
    ensures tag in ParseTags(raw) <==> raw.Some? && CarriesTag(raw.value, tag)
  {
    TrimmedTagsMean(Split(raw.GetOr(""), ';'), tag);
    if raw.None? { assert Split("", ';') == [""]; }
  }

  /** The entry's field holds this text, or none, and then it reads as `otherwise`. */
  ghost predicate Reads(entry: J.Value, name: string, otherwise: string, text: string) {
    Holds(entry, name, J.Str(text)) || (text == otherwise && forall t :: !Holds(entry, name, J.Str(t)))
  }

  lemma ReadsMeans(entry: J.Value, name: string, otherwise: string)
    ensures Reads(entry, name, otherwise, GetStr(entry, name).GetOr(otherwise))
  {
    forall t ensures GetStr(entry, name) == Some(t) <==> Holds(entry, name, J.Str(t)) { GetStrMeans(entry, name, t); }
  }

  // ---- The guest index's reader ------------------------------------------------

  /** The guest one entry contributes to the index, if any. */
  function GuestOf(cluster: string, entry: J.Value): Option<Guest> {
    match (KindOf(entry), GetU64(entry, "vmid"), GetStr(entry, "node"))
    case (Some(kind), Some(vmid), Some(node)) =>
      if vmid >= 0x1_0000_0000 then None
      else Some(Guest(cluster, vmid, GetStr(entry, "name").GetOr(""), kind, node,
                      GetStr(entry, "status").GetOr("unknown"), ParseTags(GetStr(entry, "tags")), PoolOf(entry)))
    case _ => None
  }

  function GuestsOf(cluster: string, entries: seq<J.Value>): seq<Option<Guest>> {
    seq(|entries|, i requires 0 <= i < |entries| => GuestOf(cluster, entries[i]))
  }

  /** The index a listing builds: a later guest for a vmid replaces an earlier one. */
  function IndexGuests(gs: seq<Option<Guest>>): (m: map<u32, Guest>)
    ensures forall v :: v in m ==> m[v].vmid == v
  {
    if gs == [] then map[]
    else
      var before := IndexGuests(gs[..|gs| - 1]);
      match gs[|gs| - 1]
      case Some(g) => before[g.vmid := g]
      case None => before
  }

  function IndexOf(cluster: string, entries: seq<J.Value>): map<u32, Guest> { IndexGuests(GuestsOf(cluster, entries)) }

  /** `fetch_guests`: one pass, skipping every entry it cannot read whole. */
  method FetchGuests(cluster: string, entries: seq<J.Value>) returns (guests: map<u32, Guest>)
    ensures guests == IndexOf(cluster, entries)
  {
    guests := map[];
    for i := 0 to |entries|
      invariant guests == IndexOf(cluster, entries[..i])
    {
      var entry := entries[i];
      ghost var gs := GuestsOf(cluster, entries[..i + 1]);
      assert gs[..i] == GuestsOf(cluster, entries[..i]);
      var kind := KindOf(entry);
      if kind.None? { continue; }
      var vmid := GetU64(entry, "vmid");
      if vmid.None? { continue; }
      if vmid.value >= 0x1_0000_0000 { continue; }
      var node := GetStr(entry, "node");
      if node.None? { continue; }
      guests := guests[vmid.value := Guest(cluster, vmid.value, GetStr(entry, "name").GetOr(""), kind.value, node.value,
        GetStr(entry, "status").GetOr("unknown"), ParseTags(GetStr(entry, "tags")), PoolOf(entry))];
    }
    assert entries[..|entries|] == entries;
  }

  /** What identifies a guest entry: its type, a vmid of 32 bits and its node. */
  ghost predicate Identifies(entry: J.Value, kind: GuestType, vmid: u32, node: string) {
    && Holds(entry, "type", J.Str(if kind.Qemu? then "qemu" else "lxc"))
    && (exists digits :: Holds(entry, "vmid", J.Num(digits)) && AllDigits(digits) && Decimal(digits) == vmid)
    && Holds(entry, "node", J.Str(node))
  }

  /** An entry is taken exactly when it identifies a guest, and then as that guest. */
  lemma GuestIsIdentified(cluster: string, entry: J.Value, kind: GuestType, vmid: u32, node: string)
    ensures (var g := GuestOf(cluster, entry); g.Some? && g.value.kind == kind && g.value.vmid == vmid && g.value.node == node)
      <==> Identifies(entry, kind, vmid, node)
  {
    GetStrMeans(entry, "type", if kind.Qemu? then "qemu" else "lxc");
    GetU64Means(entry, "vmid", vmid);
    GetStrMeans(entry, "node", node);
    assert "qemu"[0] != "lxc"[0];
  }

  /** What else is read of it: name and status with their defaults, the non-empty pool, the tags. */
  lemma GuestIsDescribed(cluster: string, entry: J.Value, pool: string, tag: string)
    requires GuestOf(cluster, entry).Some?
    ensures var g := GuestOf(cluster, entry).value;
      && g.cluster == cluster && Reads(entry, "name", "", g.name) && Reads(entry, "status", "unknown", g.status)
      && (g.pool == Some(pool) <==> pool != "" && Holds(entry, "pool", J.Str(pool)))
      && (tag in g.tags <==> exists list :: Holds(entry, "tags", J.Str(list)) && CarriesTag(list, tag))
  {
    ReadsMeans(entry, "name", "");
    ReadsMeans(entry, "status", "unknown");
    GetStrMeans(entry, "pool", pool);
    TagsMean(GetStr(entry, "tags"), tag);
    forall list ensures GetStr(entry, "tags") == Some(list) <==> Holds(entry, "tags", J.Str(list)) {
      GetStrMeans(entry, "tags", list);
    }
  }

  // ---- The listing filter's reader ---------------------------------------------

  /** `parse_resource_guest`: stops at the first field it cannot read. */
  function ParseResourceGuest(entry: J.Value): Option<Facts> {
    var kind := KindOf(entry);
    if kind.None? then None
    else
      var vmid := GetU64(entry, "vmid");
      if vmid.None? then None
      else if vmid.value >= 0x1_0000_0000 then None
      else
        var node := GetStr(entry, "node");
        if node.None? then None
        else Some(Facts(vmid.value, kind.value, node.value, PoolOf(entry), ParseTags(GetStr(entry, "tags"))))
  }

  /** Entries a listing tool of one guest type returns to a grant. */
  predicate Listed(grant: Grant, kind: GuestType, entry: J.Value) {
    && GetStr(entry, "type") == Some(kind.PathSegment())
    && (IsUnrestricted(grant) || (var f := ParseResourceGuest(entry); f.Some? && AllowsGuest(grant, f.value)))
  }

  function Filter(grant: Grant, kind: GuestType, entries: seq<J.Value>): seq<J.Value> {
    if entries == [] then []
    else (if Listed(grant, kind, entries[0]) then [entries[0]] else []) + Filter(grant, kind, entries[1..])
  }

  // ---- The readers agree --------------------------------------------------------

  lemma ReadersAgree(cluster: string, entry: J.Value)
    ensures ParseResourceGuest(entry).Some? <==> GuestOf(cluster, entry).Some?
    ensures GuestOf(cluster, entry).Some? ==> ParseResourceGuest(entry).value == GuestOf(cluster, entry).value.FactsOf()
  {
  }

  /** No two readable entries carry the same vmid. */
  predicate DistinctVmids(gs: seq<Option<Guest>>) {
    forall i, j :: 0 <= i < j < |gs| && gs[i].Some? && gs[j].Some? ==> gs[i].value.vmid != gs[j].value.vmid
  }

  lemma {:induction false} IndexHoldsEveryGuest(gs: seq<Option<Guest>>, i: nat)
    requires DistinctVmids(gs) && i < |gs| && gs[i].Some?
    ensures gs[i].value.vmid in IndexGuests(gs) && IndexGuests(gs)[gs[i].value.vmid] == gs[i].value
  {
    if i < |gs| - 1 { IndexHoldsEveryGuest(gs[..|gs| - 1], i); }
  }

  lemma {:induction false} IndexHoldsOnlyThose(gs: seq<Option<Guest>>, vmid: u32)
    requires vmid in IndexGuests(gs)
    ensures Some(IndexGuests(gs)[vmid]) in gs
  {
    var last := gs[|gs| - 1];
    if last.None? || last.value.vmid != vmid { IndexHoldsOnlyThose(gs[..|gs| - 1], vmid); }
  }

  /** The index holds this very guest, it is of the listed type, and its facts are admitted. */
  predicate IndexedAndAdmitted(index: map<u32, Guest>, grant: Grant, kind: GuestType, g: Option<Guest>) {
    g.Some? && g.value.vmid in index && index[g.value.vmid] == g.value && g.value.kind == kind
    && AllowsGuest(grant, index[g.value.vmid].FactsOf())
  }

  lemma ListedMeans(cluster: string, grant: Grant, kind: GuestType, entry: J.Value)
    requires !IsUnrestricted(grant)
    ensures Listed(grant, kind, entry)
      <==> (var g := GuestOf(cluster, entry); g.Some? && g.value.kind == kind && AllowsGuest(grant, g.value.FactsOf()))
  {
    ReadersAgree(cluster, entry);
    assert Qemu.PathSegment()[0] != Lxc.PathSegment()[0];
  }

  /** A grant with the star is shown every entry of the type asked for. */
  lemma StarIsShownAll(grant: Grant, kind: GuestType, entry: J.Value)
    requires IsUnrestricted(grant)
    ensures Listed(grant, kind, entry) <==> Holds(entry, "type", J.Str(if kind.Qemu? then "qemu" else "lxc"))
  {
    GetStrMeans(entry, "type", kind.PathSegment());
  }

  /**
   * A narrowed grant is shown exactly the entries the index holds and the grant
   * admits: the filter and the resolver cannot be played off against each other.
   */
  lemma NarrowedListingMatchesIndex(cluster: string, entries: seq<J.Value>, grant: Grant, kind: GuestType, i: nat)
    requires DistinctVmids(GuestsOf(cluster, entries)) && !IsUnrestricted(grant) && i < |entries|
    ensures Listed(grant, kind, entries[i])
      <==> IndexedAndAdmitted(IndexOf(cluster, entries), grant, kind, GuestOf(cluster, entries[i]))
  {
    ListedMeans(cluster, grant, kind, entries[i]);
    var gs := GuestsOf(cluster, entries);
    assert gs[i] == GuestOf(cluster, entries[i]);
    if gs[i].Some? { IndexHoldsEveryGuest(gs, i); }
  }

  /** And every admitted guest the index holds comes from an entry that is shown. */
  lemma AdmittedGuestIsListed(cluster: string, entries: seq<J.Value>, grant: Grant, vmid: u32)
    ensures var index := IndexOf(cluster, entries);
      !IsUnrestricted(grant) && vmid in index && AllowsGuest(grant, index[vmid].FactsOf()) ==>
        exists i :: 0 <= i < |entries| && Listed(grant, index[vmid].kind, entries[i])
  {
    var index := IndexOf(cluster, entries);
    if !IsUnrestricted(grant) && vmid in index && AllowsGuest(grant, index[vmid].FactsOf()) {
      var gs := GuestsOf(cluster, entries);
      IndexHoldsOnlyThose(gs, vmid);
      var i :| 0 <= i < |gs| && gs[i] == Some(index[vmid]);
      ListedMeans(cluster, grant, index[vmid].kind, entries[i]);
    }
  }

  /** The filter keeps those entries, in order, and no others. */
  lemma {:induction false} FilterKeepsExactlyListed(grant: Grant, kind: GuestType, entries: seq<J.Value>, e: J.Value)
    ensures e in Filter(grant, kind, entries) <==> e in entries && Listed(grant, kind, e)
    ensures multiset(Filter(grant, kind, entries))[e] == if Listed(grant, kind, e) then multiset(entries)[e] else 0
  {
    if entries != [] {
      var rest := Filter(grant, kind, entries[1..]);
      FilterKeepsExactlyListed(grant, kind, entries[1..], e);
      assert entries == [entries[0]] + entries[1..];
      if Listed(grant, kind, entries[0]) {
        assert Filter(grant, kind, entries) == [entries[0]] + rest;
      } else {
        assert Filter(grant, kind, entries) == rest;
      }
    }
  }

  /** Filter and index say the same about entry `i`. */
  predicate Agree(cluster: string, entries: seq<J.Value>, grant: Grant, kind: GuestType, i: nat)
    requires i < |entries|
  {
    Listed(grant, kind, entries[i])
    <==> IndexedAndAdmitted(IndexOf(cluster, entries), grant, kind, GuestOf(cluster, entries[i]))
  }

  /** Entry `k` is the last readable one for its vmid. */
  predicate LastOfItsVmid(gs: seq<Option<Guest>>, k: nat) {
    k < |gs| && gs[k].Some? && forall j :: k < j < |gs| && gs[j].Some? ==> gs[j].value.vmid != gs[k].value.vmid
  }

  /** The last readable entry with `vmid` is `g`. */
  predicate EndsAs(gs: seq<Option<Guest>>, g: Guest) { exists k: nat :: k < |gs| && LastOfItsVmid(gs, k) && gs[k] == Some(g) }

  /** The index holds the last readable entry of each vmid. */
  lemma {:induction false} IndexHoldsTheLast(gs: seq<Option<Guest>>, k: nat)
    requires LastOfItsVmid(gs, k)
    ensures gs[k].value.vmid in IndexGuests(gs) && IndexGuests(gs)[gs[k].value.vmid] == gs[k].value
  {
    if k < |gs| - 1 {
      assert LastOfItsVmid(gs[..|gs| - 1], k);
      IndexHoldsTheLast(gs[..|gs| - 1], k);
    }
  }

  lemma {:induction false} SomeEntryIsLast(gs: seq<Option<Guest>>, i: nat) returns (k: nat)
    requires i < |gs| && gs[i].Some?
    ensures i <= k && LastOfItsVmid(gs, k) && gs[k].value.vmid == gs[i].value.vmid
    decreases |gs| - i
  {
    k := i;
    if !LastOfItsVmid(gs, i) {
      var j :| i < j < |gs| && gs[j].Some? && gs[j].value.vmid == gs[i].value.vmid;
      k := SomeEntryIsLast(gs, j);
    }
  }

  /**
   * For a narrowed grant and any listing, vmids repeated or not, the filter and the
   * index agree about an entry exactly when it is not shown or the last readable
   * entry with its vmid is the same guest.
   */
  lemma FilterAndIndexAgreeExactlyWhen(cluster: string, entries: seq<J.Value>, grant: Grant, kind: GuestType, i: nat)
    requires !IsUnrestricted(grant) && i < |entries|
    ensures Agree(cluster, entries, grant, kind, i) <==>
      (Listed(grant, kind, entries[i]) ==>
         GuestOf(cluster, entries[i]).Some? && EndsAs(GuestsOf(cluster, entries), GuestOf(cluster, entries[i]).value))
  {
    ListedMeans(cluster, grant, kind, entries[i]);
    var gs := GuestsOf(cluster, entries);
    assert gs[i] == GuestOf(cluster, entries[i]);
    if gs[i].Some? {
      var k := SomeEntryIsLast(gs, i);
      IndexHoldsTheLast(gs, k);
      forall m: nat | LastOfItsVmid(gs, m) && gs[m] == gs[i] ensures m == k { OneLastEntry(gs, m, k); }
    }
  }

  lemma OneLastEntry(gs: seq<Option<Guest>>, m: nat, k: nat)
    requires LastOfItsVmid(gs, m) && LastOfItsVmid(gs, k) && gs[m].value.vmid == gs[k].value.vmid
    ensures m == k
  {
  }

  /** So a shown entry that a later, different guest of its vmid replaces is one they disagree about. */
  lemma RepeatedVmidDiverges(cluster: string, entries: seq<J.Value>, grant: Grant, kind: GuestType, i: nat, k: nat)
    requires !IsUnrestricted(grant) && i < |entries| && Listed(grant, kind, entries[i])
    requires LastOfItsVmid(GuestsOf(cluster, entries), k) && GuestOf(cluster, entries[i]).Some?
    requires GuestOf(cluster, entries[k]).value.vmid == GuestOf(cluster, entries[i]).value.vmid
    requires GuestOf(cluster, entries[k]) != GuestOf(cluster, entries[i])
    ensures !Agree(cluster, entries, grant, kind, i)
  {
    var gs := GuestsOf(cluster, entries);
    FilterAndIndexAgreeExactlyWhen(cluster, entries, grant, kind, i);
    assert gs[i] == GuestOf(cluster, entries[i]) && gs[k] == GuestOf(cluster, entries[k]);
    forall m: nat | LastOfItsVmid(gs, m) && gs[m].value.vmid == gs[k].value.vmid ensures m == k { OneLastEntry(gs, m, k); }
  }
}

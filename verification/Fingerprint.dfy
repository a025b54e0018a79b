/** The three fingerprint preimages a change set can be bound to. */
module Fingerprint {
  import opened Text
  import opened Order
  import J = Json

  datatype Disk = Disk(key: string, bytes: u64)

  /** What a guest change set is fingerprinted over. */
  datatype GuestState = GuestState(
    cluster: string, vmid: u32, name: string, kind: string, node: string, status: string,
    tags: seq<string>, configDigest: string, disks: seq<Disk>)

  /** Pair order: key, then size. */
  predicate DiskLe(a: Disk, b: Disk) {
    if a.key == b.key then a.bytes <= b.bytes else StrLe(a.key, b.key)
  }

  function Number(n: nat): J.Value { J.Num(Print(n)) }

  function Strings(xs: seq<string>): seq<J.Value> { seq(|xs|, i requires 0 <= i < |xs| => J.Str(xs[i])) }

  function Disks(xs: seq<Disk>): seq<J.Value> {
    seq(|xs|, i requires 0 <= i < |xs| => J.Arr([J.Str(xs[i].key), Number(xs[i].bytes)]))
  }

  function GuestTuple(g: GuestState): J.Value {
    J.Arr([J.Str(g.cluster), Number(g.vmid), J.Str(g.name), J.Str(g.kind), J.Str(g.node), J.Str(g.status),
           J.Arr(Strings(Sort(g.tags, StrLe))), J.Str(g.configDigest), J.Arr(Disks(Sort(g.disks, DiskLe)))])
  }

  /** The text hashed for a guest. */
  function GuestPreimage(g: GuestState): string { J.Encode(GuestTuple(g)) }

  /** `fingerprint` up to the hash: the tags and disks are copied and the copies sorted in place. */
  method GuestText(g: GuestState) returns (text: string)
    ensures text == GuestPreimage(g)
  {
    var tags := new string[|g.tags|](i requires 0 <= i < |g.tags| => g.tags[i]);
    assert tags[..] == g.tags;
    SortInPlace(tags, StrLe);
    var disks := new Disk[|g.disks|](i requires 0 <= i < |g.disks| => g.disks[i]);
    assert disks[..] == g.disks;
    SortInPlace(disks, DiskLe);
    text := J.Encode(J.Arr(
      [J.Str(g.cluster), Number(g.vmid), J.Str(g.name), J.Str(g.kind), J.Str(g.node), J.Str(g.status),
       J.Arr(Strings(tags[..])), J.Str(g.configDigest), J.Arr(Disks(disks[..]))]));
  }

  /** The text hashed for an HA rule: its body, or `null` when it is absent. */
  function HaRulePreimage(cluster: string, rule: string, existing: Option<J.Value>): string {
    J.Encode(J.Arr([J.Str(cluster), J.Str(rule), existing.GetOr(J.Null)]))
  }

  /** The text hashed for a vmid a restore will create. */
  function RestoreTargetPreimage(cluster: string, vmid: u32): string {
    J.Encode(J.Arr([J.Str(cluster), Number(vmid), J.Str("vacant-restore-target")]))
  }

  /** Two guest states that differ at most in the arrangement of tags and of disks. */
  ghost predicate SameUpToOrder(a: GuestState, b: GuestState) {
    && a.(tags := [], disks := []) == b.(tags := [], disks := [])
    && multiset(a.tags) == multiset(b.tags)
    && multiset(a.disks) == multiset(b.disks)
  }

  lemma NumberIsInjective(m: nat, n: nat)
    ensures J.WellFormed(Number(m))
    ensures Number(m) == Number(n) <==> m == n
  {
    assert Decimal(Print(m)) == m && Decimal(Print(n)) == n;
  }

  lemma DiskLeIsTotalOrder()
    ensures TotalPreorder<Disk>(DiskLe)
    ensures forall a, b :: DiskLe(a, b) && DiskLe(b, a) ==> a == b
  {
    StrLeIsTotalOrder();
  }

  lemma StringsIsInjective(xs: seq<string>, ys: seq<string>)
    requires Strings(xs) == Strings(ys)
    ensures xs == ys
  {
    assert |xs| == |Strings(xs)| == |ys|;
    forall i | 0 <= i < |xs| ensures xs[i] == ys[i] {
      assert Strings(xs)[i] == J.Str(xs[i]) && Strings(ys)[i] == J.Str(ys[i]);
    }
  }

  lemma DisksIsInjective(xs: seq<Disk>, ys: seq<Disk>)
    requires Disks(xs) == Disks(ys)
    ensures xs == ys
  {
    assert |xs| == |Disks(xs)| == |ys|;
    forall i | 0 <= i < |xs| ensures xs[i] == ys[i] {
      var u, v := Disks(xs)[i], Disks(ys)[i];
      assert u.items[0] == J.Str(xs[i].key) && v.items[0] == J.Str(ys[i].key);
      assert u.items[1] == Number(xs[i].bytes) && v.items[1] == Number(ys[i].bytes);
      NumberIsInjective(xs[i].bytes, ys[i].bytes);
    }
  }

  lemma GuestTupleIsWellFormed(g: GuestState)
    ensures J.WellFormed(GuestTuple(g))
  {
    NumberIsInjective(g.vmid, g.vmid);
    var ds := Sort(g.disks, DiskLe);
    forall i | 0 <= i < |ds| ensures J.WellFormed(Disks(ds)[i]) { NumberIsInjective(ds[i].bytes, ds[i].bytes); }
  }

  /** Canonical and injective: equal text is exactly equal state up to arrangement. */
  lemma GuestPreimageIdentifies(a: GuestState, b: GuestState)
    ensures GuestPreimage(a) == GuestPreimage(b) <==> SameUpToOrder(a, b)
  {
    GuestTupleIsWellFormed(a);
    GuestTupleIsWellFormed(b);
    J.EncodeIsInjective(GuestTuple(a), GuestTuple(b));
    StrLeIsTotalOrder();
    DiskLeIsTotalOrder();
    SortForgetsOnlyArrangement(a.tags, b.tags, StrLe);
    SortForgetsOnlyArrangement(a.disks, b.disks, DiskLe);
    NumberIsInjective(a.vmid, b.vmid);
    if GuestTuple(a) == GuestTuple(b) {
      var x, y := GuestTuple(a).items, GuestTuple(b).items;
      assert x[0] == y[0] && x[1] == y[1] && x[2] == y[2] && x[3] == y[3] && x[4] == y[4] && x[5] == y[5];
      assert x[6] == y[6] && x[7] == y[7] && x[8] == y[8];
      StringsIsInjective(Sort(a.tags, StrLe), Sort(b.tags, StrLe));
      DisksIsInjective(Sort(a.disks, DiskLe), Sort(b.disks, DiskLe));
    }
  }

  /** An absent rule and a rule whose body is `null` share a fingerprint; nothing else does. */
  lemma HaRulePreimageIdentifies(c: string, r: string, v: Option<J.Value>, c': string, r': string, v': Option<J.Value>)
    requires v.Some? ==> J.WellFormed(v.value)
    requires v'.Some? ==> J.WellFormed(v'.value)
    ensures HaRulePreimage(c, r, v) == HaRulePreimage(c', r', v')
      <==> c == c' && r == r' && v.GetOr(J.Null) == v'.GetOr(J.Null)
  {
    var x, y := [J.Str(c), J.Str(r), v.GetOr(J.Null)], [J.Str(c'), J.Str(r'), v'.GetOr(J.Null)];
    J.EncodeIsInjective(J.Arr(x), J.Arr(y));
    if x == y { assert x[0] == y[0] && x[1] == y[1] && x[2] == y[2]; }
  }

  lemma RestoreTargetPreimageIdentifies(c: string, v: u32, c': string, v': u32)
    ensures RestoreTargetPreimage(c, v) == RestoreTargetPreimage(c', v') <==> c == c' && v == v'
  {
    NumberIsInjective(v, v');
    NumberIsInjective(v', v);
    var marker := J.Str("vacant-restore-target");
    var x, y := [J.Str(c), Number(v), marker], [J.Str(c'), Number(v'), marker];
    J.EncodeIsInjective(J.Arr(x), J.Arr(y));
    if x == y { assert x[0] == y[0] && x[1] == y[1]; }
  }

  /** The three families never share a text, so never a fingerprint. */
  lemma FamiliesAreDisjoint(g: GuestState, c: string, r: string, v: Option<J.Value>, c': string, vmid: u32)
    requires v.Some? ==> J.WellFormed(v.value)
    ensures GuestPreimage(g) != HaRulePreimage(c, r, v)
    ensures GuestPreimage(g) != RestoreTargetPreimage(c', vmid)
    ensures HaRulePreimage(c, r, v) != RestoreTargetPreimage(c', vmid)
  {
    GuestTupleIsWellFormed(g);
    NumberIsInjective(vmid, vmid);
    var ha, free := [J.Str(c), J.Str(r), v.GetOr(J.Null)], [J.Str(c'), Number(vmid), J.Str("vacant-restore-target")];
    J.EncodeIsInjective(GuestTuple(g), J.Arr(ha));
    J.EncodeIsInjective(GuestTuple(g), J.Arr(free));
    J.EncodeIsInjective(J.Arr(ha), J.Arr(free));
    assert |GuestTuple(g).items| == 9;
    assert ha[1] != free[1];
  }
}

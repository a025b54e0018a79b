/** Paged listings: a stable order, then a window of it. */
module Paging {
  import opened Text
  import opened Order
  import opened JsonAccess
  import J = Json

  const DEFAULT_PAGE_LIMIT: u32 := 500
  const MAX_PAGE_LIMIT: u32 := 700
  const U64_MAX: u64 := 0xFFFF_FFFF_FFFF_FFFF

  datatype Page<+T> = Page(items: seq<T>, total: nat, offset: u32, limit: u32, hasMore: bool)

  datatype PageError = LimitZero | LimitTooLarge(limit: u32) | NotAList

  datatype Result<+T> = Ok(value: T) | Err(error: PageError)

  /** `resolve_page`: defaults, and a refusal of an unusable limit rather than a clamp. */
  function ResolvePage(offset: Option<u32>, limit: Option<u32>): (r: Result<(u32, u32)>)
    ensures r.Ok? <==> limit.None? || 1 <= limit.value <= 700
    ensures r.Ok? ==> r.value.0 == offset.GetOr(0)
    ensures r.Ok? ==> r.value.1 == limit.GetOr(500)
  {
    var l: u32 := limit.GetOr(DEFAULT_PAGE_LIMIT);
    if l == 0 then Err(LimitZero)
    else if l > MAX_PAGE_LIMIT then Err(LimitTooLarge(l))
    else Ok((offset.GetOr(0), l))
  }

  function VmidKey(item: J.Value): u64 { GetU64(item, "vmid").GetOr(U64_MAX) }

  function VolidKey(item: J.Value): string { GetStr(item, "volid").GetOr("") }

  predicate HasVmid(item: J.Value) { Get(item, "vmid").Some? }

  predicate HasVolid(item: J.Value) { Get(item, "volid").Some? }

  predicate VmidLe(a: J.Value, b: J.Value) { VmidKey(a) <= VmidKey(b) }

  predicate VolidLe(a: J.Value, b: J.Value) { StrLe(VolidKey(a), VolidKey(b)) }

  /** `sort_for_paging`: the first record decides which key orders the rest. */
  function SortForPaging(items: seq<J.Value>): seq<J.Value> {
    if items == [] then []
    else if HasVmid(items[0]) then Sort(items, VmidLe)
    else if HasVolid(items[0]) then Sort(items, VolidLe)
    else items
  }

  /** The same, on the array the listing was copied into. */
  method SortForPagingInPlace(a: array<J.Value>)
    modifies a
    ensures a[..] == SortForPaging(old(a[..]))
  {
    if a.Length == 0 { return; }
    if HasVmid(a[0]) {
      SortInPlace(a, VmidLe);
    } else if HasVolid(a[0]) {
      SortInPlace(a, VolidLe);
    }
  }

  function Min(a: nat, b: nat): nat { if a < b then a else b }

  /** One page of an ordered listing. */
  function Window<T>(sorted: seq<T>, offset: u32, limit: u32): Page<T> {
    var total := |sorted|;
    var start := Min(offset, total);
    var end := Min(start + limit, total);
    Page(sorted[start..end], total, offset, limit, end < total)
  }

  function Paginate(value: J.Value, offset: u32, limit: u32): Result<Page<J.Value>> {
    if value.Arr? then Ok(Window(SortForPaging(value.items), offset, limit)) else Err(NotAList)
  }

  /** `paginate`: copy, sort the copy in place, cut the window. */
  method PaginateCopy(value: J.Value, offset: u32, limit: u32) returns (r: Result<Page<J.Value>>)
    ensures r == Paginate(value, offset, limit)
  {
    if !value.Arr? { return Err(NotAList); }
    var items := value.items;
    var a := new J.Value[|items|](i requires 0 <= i < |items| => items[i]);
    assert a[..] == items;
    SortForPagingInPlace(a);
    var sorted := a[..];
    var total := |sorted|;
    var start := Min(offset, total);
    var end := Min(start + limit, total);
    r := Ok(Page(sorted[start..end], total, offset, limit, end < total));
  }

  lemma SortLength(items: seq<J.Value>)
    ensures |SortForPaging(items)| == |items|
    ensures multiset(SortForPaging(items)) == multiset(items)
  {
    SortPermutes(items, VmidLe);
    SortPermutes(items, VolidLe);
  }

  // ---- Walking the pages -------------------------------------------------------

  /** A caller's walk: ask, and while more remains ask again `limit` further on. */
  function Walk<T>(sorted: seq<T>, offset: u32, limit: u32): seq<Page<T>>
    requires |sorted| < 0x1_0000_0000 && limit > 0
    decreases |sorted| - offset
  {
    var page := Window(sorted, offset, limit);
    [page] + if page.hasMore then Walk(sorted, offset + limit, limit) else []
  }

  function Items<T>(pages: seq<Page<T>>): seq<T> {
    if pages == [] then [] else pages[0].items + Items(pages[1..])
  }

  /** Pages of `limit` covering `total` records; an empty listing is still one page. */
  function PageCount(total: nat, limit: nat): nat
    requires limit > 0
  {
    if total <= limit then 1 else 1 + PageCount(total - limit, limit)
  }

  lemma {:induction false} PageCountIsCeiling(total: nat, limit: nat)
    requires limit > 0
    ensures (PageCount(total, limit) - 1) * limit <= total <= PageCount(total, limit) * limit
    ensures PageCount(total, limit) > 1 ==> (PageCount(total, limit) - 1) * limit < total
  {
    if total > limit { PageCountIsCeiling(total - limit, limit); }
  }

  lemma {:induction false} WalkItems<T>(sorted: seq<T>, offset: u32, limit: u32)
    requires |sorted| < 0x1_0000_0000 && limit > 0
    requires offset == 0 || offset < |sorted|
    ensures Items(Walk(sorted, offset, limit)) == sorted[offset..]
    decreases |sorted| - offset
  {
    var page := Window(sorted, offset, limit);
    var pages := Walk(sorted, offset, limit);
    if page.hasMore {
      WalkItems(sorted, offset + limit, limit);
      assert pages[1..] == Walk(sorted, offset + limit, limit);
      assert sorted[offset..] == sorted[offset..offset + limit] + sorted[offset + limit..];
    } else {
      assert pages[1..] == [];
      assert page.items == sorted[offset..];
    }
  }

  lemma {:induction false} WalkLength<T>(sorted: seq<T>, offset: u32, limit: u32)
    requires |sorted| < 0x1_0000_0000 && limit > 0
    requires offset == 0 || offset < |sorted|
    ensures |Walk(sorted, offset, limit)| == PageCount(|sorted| - offset, limit)
    decreases |sorted| - offset
  {
    if Window(sorted, offset, limit).hasMore { WalkLength(sorted, offset + limit, limit); }
  }

  /** The walk's k-th page is the answer to offset `k * limit`, and only the last says it is the last. */
  lemma {:induction false} WalkPage<T>(sorted: seq<T>, offset: u32, limit: u32, k: nat)
    requires |sorted| < 0x1_0000_0000 && limit > 0 && k < |Walk(sorted, offset, limit)|
    ensures offset + k * limit < 0x1_0000_0000
    ensures Walk(sorted, offset, limit)[k] == Window(sorted, offset + k * limit, limit)
    ensures Walk(sorted, offset, limit)[k].hasMore <==> k < |Walk(sorted, offset, limit)| - 1
    decreases |sorted| - offset
  {
    if Window(sorted, offset, limit).hasMore {
      if k > 0 {
        WalkPage(sorted, offset + limit, limit, k - 1);
        assert limit + (k - 1) * limit == k * limit;
      }
    }
  }

  /** Main result: a walk from 0 shows the whole sorted listing once, in the fewest pages. */
  lemma WalkShowsEverythingOnce(items: seq<J.Value>, limit: u32)
    requires |items| < 0x1_0000_0000 && limit > 0
    ensures |SortForPaging(items)| == |items|
    ensures Items(Walk(SortForPaging(items), 0, limit)) == SortForPaging(items)
    ensures multiset(Items(Walk(SortForPaging(items), 0, limit))) == multiset(items)
    ensures |Walk(SortForPaging(items), 0, limit)| == PageCount(|items|, limit)
  {
    SortLength(items);
    var sorted := SortForPaging(items);
    WalkItems(sorted, 0, limit);
    WalkLength(sorted, 0, limit);
    assert sorted[0..] == sorted;
  }

  /** Its k-th page is what the server answers to offset `k * limit`. */
  lemma WalkIsWhatTheServerAnswers(items: seq<J.Value>, limit: u32, k: nat)
    requires |SortForPaging(items)| < 0x1_0000_0000 && limit > 0 && k < |Walk(SortForPaging(items), 0, limit)|
    ensures k * limit < 0x1_0000_0000
    ensures Paginate(J.Arr(items), k * limit, limit) == Ok(Walk(SortForPaging(items), 0, limit)[k])
    ensures Walk(SortForPaging(items), 0, limit)[k].hasMore <==> k < |Walk(SortForPaging(items), 0, limit)| - 1
  {
    WalkPage(SortForPaging(items), 0, limit, k);
  }

  // ---- Independence of upstream order --------------------------------------------

  /** Every record carries a number under `vmid`, and no two the same one. */
  predicate KeyedByVmid(items: seq<J.Value>) {
    && (forall i :: 0 <= i < |items| ==> HasVmid(items[i]))
    && (forall i, j :: 0 <= i < |items| && 0 <= j < |items| && VmidKey(items[i]) == VmidKey(items[j]) ==> items[i] == items[j])
  }

  /** No record carries `vmid`; each carries `volid`, and no two the same one. */
  predicate KeyedByVolid(items: seq<J.Value>) {
    && (forall i :: 0 <= i < |items| ==> !HasVmid(items[i]) && HasVolid(items[i]))
    && (forall i, j :: 0 <= i < |items| && 0 <= j < |items| && VolidKey(items[i]) == VolidKey(items[j]) ==> items[i] == items[j])
  }

  lemma KeyOrders()
    ensures TotalPreorder<J.Value>(VmidLe) && TotalPreorder<J.Value>(VolidLe)
  {
    StrLeIsTotalOrder();
  }

  /** The number a record is ordered by: its `vmid`, or more than any vmid. */
  ghost predicate OrderedBy(item: J.Value, n: u64) {
    (exists digits :: Holds(item, "vmid", J.Num(digits)) && AllDigits(digits) && Decimal(digits) == n)
    || (n == U64_MAX && forall digits :: Holds(item, "vmid", J.Num(digits)) && AllDigits(digits) ==> Decimal(digits) > n)
  }

  lemma VmidKeyMeans(item: J.Value)
    ensures OrderedBy(item, VmidKey(item))
  {
    forall digits ensures Get(item, "vmid") == Some(J.Num(digits)) <==> Holds(item, "vmid", J.Num(digits)) {
      GetMeans(item, "vmid", J.Num(digits));
    }
  }

  /** Two records of one page stand as the sort put them. */
  lemma PageIsSorted(sorted: seq<J.Value>, le: (J.Value, J.Value) -> bool, offset: u32, limit: u32, i: nat, j: nat)
    requires Sorted(sorted, le) && i < j < |Window(sorted, offset, limit).items|
    ensures le(Window(sorted, offset, limit).items[i], Window(sorted, offset, limit).items[j])
  {
    var start := Min(offset, |sorted|);
    assert Window(sorted, offset, limit).items[i] == sorted[start + i];
    assert Window(sorted, offset, limit).items[j] == sorted[start + j];
  }

  lemma LedByVmid(items: seq<J.Value>, led: J.Value)
    requires items != [] && Holds(items[0], "vmid", led)
    ensures SortForPaging(items) == Sort(items, VmidLe) && Sorted(SortForPaging(items), VmidLe)
  {
    GetMeans(items[0], "vmid", led);
    KeyOrders();
    SortSorts(items, VmidLe);
  }

  lemma LedByVolid(items: seq<J.Value>, led: J.Value)
    requires items != [] && Holds(items[0], "volid", led) && (forall v :: !Holds(items[0], "vmid", v))
    ensures SortForPaging(items) == Sort(items, VolidLe) && Sorted(SortForPaging(items), VolidLe)
  {
    GetMeans(items[0], "volid", led);
    if HasVmid(items[0]) { GetMeans(items[0], "vmid", Get(items[0], "vmid").value); }
    KeyOrders();
    SortSorts(items, VolidLe);
  }

  /** A page of records led by one with a vmid shows them by ascending vmid. */
  lemma PagesAscend(items: seq<J.Value>, led: J.Value, offset: u32, limit: u32, i: nat, j: nat)
    requires items != [] && Holds(items[0], "vmid", led)
    requires i < j < |Window(SortForPaging(items), offset, limit).items|
    ensures var page := Window(SortForPaging(items), offset, limit);
      exists m: u64, n: u64 :: OrderedBy(page.items[i], m) && OrderedBy(page.items[j], n) && m <= n
  {
    LedByVmid(items, led);
    PageIsSorted(SortForPaging(items), VmidLe, offset, limit, i, j);
    VmidKeyMeans(Window(SortForPaging(items), offset, limit).items[i]);
    VmidKeyMeans(Window(SortForPaging(items), offset, limit).items[j]);
  }

  /** The text a volume is ordered by: its id, or nothing. */
  ghost predicate NamedBy(item: J.Value, id: string) {
    Holds(item, "volid", J.Str(id)) || (id == "" && forall other :: !Holds(item, "volid", J.Str(other)))
  }

  lemma VolidKeyMeans(item: J.Value)
    ensures NamedBy(item, VolidKey(item))
  {
    forall id ensures GetStr(item, "volid") == Some(id) <==> Holds(item, "volid", J.Str(id)) { GetStrMeans(item, "volid", id); }
  }

  /** A page of volumes shows them in lexicographic order of their ids. */
  lemma VolumePagesAscend(items: seq<J.Value>, led: J.Value, offset: u32, limit: u32, i: nat, j: nat)
    requires items != [] && Holds(items[0], "volid", led) && (forall v :: !Holds(items[0], "vmid", v))
    requires i < j < |Window(SortForPaging(items), offset, limit).items|
    ensures var page := Window(SortForPaging(items), offset, limit);
      exists a, b, k: nat :: NamedBy(page.items[i], a) && NamedBy(page.items[j], b) && SmallerFrom(a, b, k)
  {
    LedByVolid(items, led);
    PageIsSorted(SortForPaging(items), VolidLe, offset, limit, i, j);
    var a, b := Window(SortForPaging(items), offset, limit).items[i], Window(SortForPaging(items), offset, limit).items[j];
    StrLeIsLexicographic(VolidKey(a), VolidKey(b));
    VolidKeyMeans(a);
    VolidKeyMeans(b);
  }

  /** A page says how many records there are, and holds exactly those of its window. */
  lemma PageMeans(items: seq<J.Value>, offset: u32, limit: u32)
    ensures var page := Paginate(J.Arr(items), offset, limit).value;
      && page.total == |items| && page.offset == offset && page.limit == limit
      && |page.items| == (if offset >= |items| then 0 else if |items| - offset < limit then |items| - offset else limit)
      && (page.hasMore <==> offset + limit < |items|)
  {
    SortLength(items);
  }

  lemma FirstIsAmong(a: seq<J.Value>, b: seq<J.Value>)
    requires multiset(a) == multiset(b) && b != []
    ensures b[0] in a
  {
    assert b[0] in multiset(b);
  }

  /** With distinct keys the pages are the same whatever order the cluster answered in. */
  lemma PagesIgnoreUpstreamOrder(a: seq<J.Value>, b: seq<J.Value>, offset: u32, limit: u32)
    requires multiset(a) == multiset(b)
    requires KeyedByVmid(a) || KeyedByVolid(a)
    ensures Paginate(J.Arr(a), offset, limit) == Paginate(J.Arr(b), offset, limit)
  {
    assert |multiset(a)| == |a| && |multiset(b)| == |b|;
    if a != [] {
      FirstIsAmong(a, b);
      KeyOrders();
      StrLeIsTotalOrder();
      if KeyedByVmid(a) {
        assert TiesAreEqual(a, VmidLe);
        SortForgetsOnlyArrangement(a, b, VmidLe);
      } else {
        assert TiesAreEqual(a, VolidLe);
        SortForgetsOnlyArrangement(a, b, VolidLe);
      }
    }
  }
}

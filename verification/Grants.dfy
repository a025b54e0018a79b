/** A token's guest scope and action authority. */
module Grants {
  import opened Text
  import opened Selectors

  datatype Tier = Read | Low | Destructive

  /** A tier and the grant action it requires are named alike. */
  datatype Grant = Grant(guests: seq<string>, actions: seq<Tier>)

  predicate TermAdmits(term: string, f: Facts) {
    var p := Parse(term);
    p.Ok? && Matches(p.selector, f)
  }

  predicate AllowsGuest(g: Grant, f: Facts) { exists i :: 0 <= i < |g.guests| && TermAdmits(g.guests[i], f) }

  predicate AllowsAction(g: Grant, a: Tier) { a in g.actions }

  predicate IsUnrestricted(g: Grant) { exists i :: 0 <= i < |g.guests| && Trim(g.guests[i]) == "*" }

  predicate TermAdmitsNewVmid(term: string, vmid: u32) {
    var p := Parse(term);
    p.Ok? && MatchesNewVmid(p.selector, vmid)
  }

  predicate AllowsNewVmid(g: Grant, vmid: u32) {
    exists i :: 0 <= i < |g.guests| && TermAdmitsNewVmid(g.guests[i], vmid)
  }

  predicate Validates(g: Grant) { forall i :: 0 <= i < |g.guests| ==> Parse(g.guests[i]).Ok? }

  // ---- What the scope checks mean ------------------------------------------

  lemma TrimmedStar(s: string)
    requires Trim(s) == "*"
    ensures forall k :: 0 <= k < |s| ==> IsSpace(s[k]) || s[k] == '*'
  {
    var i := TrimStartShape(s);
    var n := TrimEndShape(s[i..]);
    forall k | 0 <= k < |s| ensures IsSpace(s[k]) || s[k] == '*' {
      if k >= i { assert s[k] == s[i..][k - i]; }
    }
  }

  /**
   * A grant that validates is unrestricted exactly when it lists the bare star.
   * A padded star is unrestricted too, but it does not validate.
   */
  lemma UnrestrictedMeansStar(g: Grant)
    ensures Validates(g) ==> (IsUnrestricted(g) <==> "*" in g.guests)
    ensures IsUnrestricted(g) && "*" !in g.guests ==> !Validates(g)
  {
    if "*" in g.guests {
      var i :| 0 <= i < |g.guests| && g.guests[i] == "*";
      var star := "*";
      assert !IsSpace(star[0]);
      assert TrimStart(star) == star && TrimEnd(star) == star;
      assert Trim(g.guests[i]) == "*";
    }
    forall i | 0 <= i < |g.guests| && Trim(g.guests[i]) == "*" && g.guests[i] != "*"
      ensures !Parse(g.guests[i]).Ok?
    {
      TrimmedStar(g.guests[i]);
      assert ':' !in g.guests[i];
    }
  }

  /** The listing filter is lifted exactly by a star, padded or not. */
  lemma UnrestrictedExactlyWhen(g: Grant)
    ensures IsUnrestricted(g)
      <==> exists i, a, b :: 0 <= i < |g.guests| && AllSpaces(a) && AllSpaces(b) && g.guests[i] == a + "*" + b
  {
    var star := "*";
    assert !IsSpace(star[0]);
    forall i | 0 <= i < |g.guests|
      ensures Trim(g.guests[i]) == star <==> exists a, b :: AllSpaces(a) && AllSpaces(b) && g.guests[i] == a + star + b
    {
      TrimMeans(g.guests[i], star);
    }
  }

  /** The divergence is real: a padded star lifts the listing filter yet admits no guest. */
  lemma PaddedStarAdmitsNobody(g: Grant, f: Facts)
    requires |g.guests| == 1 && |g.guests[0]| == 2 && g.guests[0][0] == ' ' && g.guests[0][1] == '*'
    ensures IsUnrestricted(g) && !AllowsGuest(g, f)
  {
    var s := g.guests[0];
    assert s[1..] == [s[1]];
    assert TrimStart(s[1..]) == s[1..] && TrimEnd(s[1..]) == s[1..];
    assert Trim(s) == "*";
    assert ':' !in s;
  }

  // ---- What a term says, by its spelling ---------------------------------------

  /** `s` spells the number `v`: digits, perhaps after a plus. */
  ghost predicate Spells(s: string, v: nat) {
    exists digits :: digits != "" && AllDigits(digits) && Decimal(digits) == v && (s == digits || s == "+" + digits)
  }

  /** `text` spells two numbers of 32 bits around `v`, joined by a dash. */
  ghost predicate SpellsRangeAround(text: string, v: nat) {
    exists low, high, l: u32, h: u32 :: Spells(low, l) && Spells(high, h) && l <= v <= h && text == low + "-" + high
  }

  /** Everybody, this vmid, or a range around it. */
  ghost predicate SelectsVmid(term: string, v: u32) {
    term == "*" || exists text :: term == "vmid:" + text && (Spells(text, v) || SpellsRangeAround(text, v))
  }

  /** Named by a tag, the pool, the node or the type. */
  ghost predicate SelectsOtherwise(term: string, f: Facts) {
    || (exists tag :: tag in f.tags && term == "tag:" + tag)
    || (f.pool.Some? && term == "pool:" + f.pool.value)
    || term == "node:" + f.node
    || term == "type:" + (if f.kind.Qemu? then "qemu" else "lxc")
  }

  /** The term names a guest with these facts. */
  ghost predicate Selects(term: string, f: Facts) { SelectsVmid(term, f.vmid) || SelectsOtherwise(term, f) }

  /** Some term names the guest. */
  ghost predicate InScope(terms: seq<string>, f: Facts) { exists i :: 0 <= i < |terms| && Selects(terms[i], f) }

  /** Some term names the vmid itself. */
  ghost predicate MayCreateAt(terms: seq<string>, v: u32) { exists i :: 0 <= i < |terms| && SelectsVmid(terms[i], v) }

  lemma ParseU32Reads(s: string, v: u32)
    ensures ParseU32(s) == Some(v) <==> Spells(s, v)
  {
    if s != "" && s[0] == '+' { assert s == "+" + s[1..]; }
    forall digits | digits != "" && AllDigits(digits) && (s == digits || s == "+" + digits)
      ensures digits == if s[0] == '+' then s[1..] else s
    {
      assert IsDigit(digits[0]);
      assert s == "+" + digits ==> s[1..] == digits;
    }
  }

  lemma SpelledHasNoDash(s: string, v: nat)
    requires Spells(s, v)
    ensures '-' !in s
  {
    var digits :| digits != "" && AllDigits(digits) && Decimal(digits) == v && (s == digits || s == "+" + digits);
    assert '-' !in digits;
  }

  /** A term with a prefix is read by its prefix. */
  lemma PrefixedTerm(prefix: string, value: string)
    requires ':' !in prefix && prefix != ""
    ensures prefix + [':'] + value != "*" && SplitOnce(prefix + [':'] + value, ':') == Some((prefix, value))
  {
    SplitOnceFinds(prefix, ':', value);
    assert |prefix + [':'] + value| > 1;
  }

  lemma RangeIsRead(low: string, high: string, l: u32, h: u32)
    requires Spells(low, l) && Spells(high, h) && l <= h
    ensures ParseVmidTerm(low + "-" + high) == Ok(VmidRange(l, h))
  {
    SpelledHasNoDash(low, l);
    SplitOnceFinds(low, '-', high);
    assert low + "-" + high == low + ['-'] + high;
    ParseU32Reads(low, l);
    ParseU32Reads(high, h);
  }

  lemma RangeIsSpelt(value: string, l: u32, h: u32) returns (low: string, high: string)
    requires ParseVmidTerm(value) == Ok(VmidRange(l, h))
    ensures l <= h && Spells(low, l) && Spells(high, h) && value == low + "-" + high
  {
    low, high := SplitOnce(value, '-').value.0, SplitOnce(value, '-').value.1;
    ParseU32Reads(low, l);
    ParseU32Reads(high, h);
  }

  /** The value of a `vmid:` term admits exactly the vmid or the inclusive range it spells. */
  lemma VmidValueMeans(value: string, v: u32)
    ensures Spells(value, v) || SpellsRangeAround(value, v)
      <==> ParseVmidTerm(value) == Ok(Vmid(v))
           || (ParseVmidTerm(value).Ok? && ParseVmidTerm(value).selector.VmidRange?
               && ParseVmidTerm(value).selector.low <= v <= ParseVmidTerm(value).selector.high)
  {
    SingleIsRead(value, v);
    if SpellsRangeAround(value, v) {
      var low, high, l: u32, h: u32 :| Spells(low, l) && Spells(high, h) && l <= v <= h && value == low + "-" + high;
      RangeIsRead(low, high, l, h);
    }
    match ParseVmidTerm(value) {
      case Ok(VmidRange(l, h)) =>
        var low, high := RangeIsSpelt(value, l, h);
        assert l <= v <= h ==> SpellsRangeAround(value, v);
      case _ =>
    }
  }

  lemma SingleIsRead(value: string, v: u32)
    ensures ParseVmidTerm(value) == Ok(Vmid(v)) <==> Spells(value, v)
  {
    ParseU32Reads(value, v);
    if Spells(value, v) { SpelledHasNoDash(value, v); }
  }

  /** A `vmid:` term admits exactly the vmid or the inclusive range it spells. */
  lemma VmidTermMeans(value: string, f: Facts)
    ensures TermAdmits("vmid:" + value, f) <==> Spells(value, f.vmid) || SpellsRangeAround(value, f.vmid)
    ensures TermAdmitsNewVmid("vmid:" + value, f.vmid) <==> Spells(value, f.vmid) || SpellsRangeAround(value, f.vmid)
  {
    PrefixedTerm("vmid", value);
    assert "vmid" + [':'] + value == "vmid:" + value;
    VmidValueMeans(value, f.vmid);
    assert ParseVmidTerm(value).Ok? ==> ParseVmidTerm(value).selector.Vmid? || ParseVmidTerm(value).selector.VmidRange?;
  }

  /** A `tag:` term admits exactly the guests that carry that very tag. */
  lemma TagTermMeans(text: string, f: Facts)
    ensures !TermAdmitsNewVmid("tag:" + text, f.vmid)
    ensures TermAdmits("tag:" + text, f) <==> text in f.tags
  {
    PrefixedTerm("tag", text);
    assert "tag" + [':'] + text == "tag:" + text;
  }

  /** A `pool:` term admits exactly the guests of that pool. */
  lemma PoolTermMeans(text: string, f: Facts)
    ensures !TermAdmitsNewVmid("pool:" + text, f.vmid)
    ensures TermAdmits("pool:" + text, f) <==> f.pool == Some(text)
  {
    PrefixedTerm("pool", text);
    assert "pool" + [':'] + text == "pool:" + text;
  }

  /** A `node:` term admits exactly the guests on that node. */
  lemma NodeTermMeans(text: string, f: Facts)
    ensures !TermAdmitsNewVmid("node:" + text, f.vmid)
    ensures TermAdmits("node:" + text, f) <==> f.node == text
  {
    PrefixedTerm("node", text);
    assert "node" + [':'] + text == "node:" + text;
  }

  /** `type:` terms admit exactly the machines or exactly the containers, and no other word admits anybody. */
  lemma TypeTermMeans(text: string, f: Facts)
    ensures !TermAdmitsNewVmid("type:" + text, f.vmid)
    ensures TermAdmits("type:" + text, f) <==> text == (if f.kind.Qemu? then "qemu" else "lxc")
  {
    PrefixedTerm("type", text);
    assert "type" + [':'] + text == "type:" + text;
    assert "type"[0] != "vmid"[0] && "type"[0] != "pool"[0] && "type"[0] != "node"[0];
    assert "qemu"[0] != "lxc"[0];
  }

  function TypeTerm(kind: GuestType): string { if kind == Qemu then "type:qemu" else "type:lxc" }

  lemma TypeSpellings()
    ensures "type:" + "qemu" == "type:qemu" && "type:" + "lxc" == "type:lxc"
  {
  }

  /** A term that parses has one of five prefixes. */
  lemma PrefixOf(term: string) returns (value: string)
    requires Parse(term).Ok? && term != "*"
    ensures term == "vmid:" + value || term == "tag:" + value || term == "pool:" + value || term == "node:" + value
         || term == "type:" + value
  {
    value := SplitOnce(term, ':').value.1;
    assert term == SplitOnce(term, ':').value.0 + [':'] + value;
    assert "vmid" + [':'] == "vmid:" && "tag" + [':'] == "tag:" && "pool" + [':'] == "pool:";
    assert "node" + [':'] == "node:" && "type" + [':'] == "type:";
  }

  lemma SelectedVmidIsAdmitted(term: string, f: Facts)
    requires SelectsVmid(term, f.vmid)
    ensures TermAdmits(term, f) && TermAdmitsNewVmid(term, f.vmid)
  {
    if term != "*" {
      var text :| term == "vmid:" + text && (Spells(text, f.vmid) || SpellsRangeAround(text, f.vmid));
      VmidTermMeans(text, f);
    }
  }

  lemma SelectedOtherwiseIsAdmitted(term: string, f: Facts)
    requires SelectsOtherwise(term, f)
    ensures TermAdmits(term, f)
  {
    if tag :| tag in f.tags && term == "tag:" + tag {
      TagTermMeans(tag, f);
    } else if f.pool.Some? && term == "pool:" + f.pool.value {
      PoolTermMeans(f.pool.value, f);
    } else if term == "node:" + f.node {
      NodeTermMeans(f.node, f);
    } else {
      TypeTermMeans(if f.kind.Qemu? then "qemu" else "lxc", f);
    }
  }

  lemma AdmittedVmidIsSelected(value: string, f: Facts)
    requires TermAdmits("vmid:" + value, f)
    ensures SelectsVmid("vmid:" + value, f.vmid)
  {
    VmidTermMeans(value, f);
  }

  lemma AdmittedIsSelected(term: string, f: Facts)
    requires TermAdmits(term, f)
    ensures SelectsVmid(term, f.vmid) || SelectsOtherwise(term, f)
  {
    if term != "*" {
      var value := PrefixOf(term);
      if term == "vmid:" + value { AdmittedVmidIsSelected(value, f); }
      else if term == "tag:" + value { TagTermMeans(value, f); }
      else if term == "pool:" + value { PoolTermMeans(value, f); }
      else if term == "node:" + value { NodeTermMeans(value, f); }
      else { TypeTermMeans(value, f); }
    }
  }

  lemma NewVmidIsSelected(term: string, f: Facts)
    requires TermAdmitsNewVmid(term, f.vmid)
    ensures SelectsVmid(term, f.vmid)
  {
    if term != "*" {
      var value := PrefixOf(term);
      if term == "vmid:" + value { VmidTermMeans(value, f); }
      else if term == "tag:" + value { TagTermMeans(value, f); }
      else if term == "pool:" + value { PoolTermMeans(value, f); }
      else if term == "node:" + value { NodeTermMeans(value, f); }
      else { TypeTermMeans(value, f); }
    }
  }

  /** A term admits exactly the guests its spelling names, and a malformed one nobody. */
  lemma TermMeans(term: string, f: Facts)
    ensures TermAdmits(term, f) <==> Selects(term, f)
    ensures TermAdmitsNewVmid(term, f.vmid) <==> SelectsVmid(term, f.vmid)
  {
    if SelectsVmid(term, f.vmid) { SelectedVmidIsAdmitted(term, f); }
    if SelectsOtherwise(term, f) { SelectedOtherwiseIsAdmitted(term, f); }
    if TermAdmits(term, f) { AdmittedIsSelected(term, f); }
    if TermAdmitsNewVmid(term, f.vmid) { NewVmidIsSelected(term, f); }
  }

  /** The scope checks are exactly what the terms say. */
  lemma ScopeMeans(g: Grant, f: Facts)
    ensures AllowsGuest(g, f) <==> InScope(g.guests, f)
    ensures AllowsNewVmid(g, f.vmid) <==> MayCreateAt(g.guests, f.vmid)
  {
    forall i | 0 <= i < |g.guests|
      ensures TermAdmits(g.guests[i], f) <==> Selects(g.guests[i], f)
      ensures TermAdmitsNewVmid(g.guests[i], f.vmid) <==> SelectsVmid(g.guests[i], f.vmid)
    {
      TermMeans(g.guests[i], f);
    }
  }

  /** A node name longer than every term, so named by none. */
  function UnnamedNode(terms: seq<string>): (n: string)
    ensures forall i :: 0 <= i < |terms| ==> |terms[i]| <= |n|
  {
    if terms == [] then "n"
    else
      var rest := UnnamedNode(terms[1..]);
      assert forall i :: 0 < i < |terms| ==> terms[i] == terms[1..][i - 1];
      rest + terms[0]
  }

  /** The grant names both guest types, which together cover every guest. */
  predicate NamesBothTypes(g: Grant) { "type:qemu" in g.guests && "type:lxc" in g.guests }

  lemma NewVmidAdmitsAll(g: Grant, f: Facts)
    requires AllowsNewVmid(g, f.vmid)
    ensures AllowsGuest(g, f)
  {
    var i :| 0 <= i < |g.guests| && TermAdmitsNewVmid(g.guests[i], f.vmid);
    assert TermAdmits(g.guests[i], f);
  }

  lemma BothTypesAdmitAll(g: Grant, f: Facts)
    requires NamesBothTypes(g)
    ensures AllowsGuest(g, f)
  {
    var term := TypeTerm(f.kind);
    TypeTermMeans(if f.kind.Qemu? then "qemu" else "lxc", f);
    TypeSpellings();
    var i :| 0 <= i < |g.guests| && g.guests[i] == term;
  }

  /** A guest with no tag and no pool, on a node nobody names, is reached by its vmid or its type only. */
  lemma UnnamedGuest(term: string, f: Facts)
    requires !TermAdmitsNewVmid(term, f.vmid) && f.tags == [] && f.pool.None? && |term| <= |f.node| && term != TypeTerm(f.kind)
    ensures !TermAdmits(term, f)
  {
    TermMeans(term, f);
    TypeSpellings();
  }

  /** A narrower grant misses some guest that could appear at the vmid. */
  lemma NarrowerGrantMisses(g: Grant, vmid: u32) returns (f: Facts)
    requires !AllowsNewVmid(g, vmid) && !NamesBothTypes(g)
    ensures f.vmid == vmid && !AllowsGuest(g, f)
  {
    var kind := if "type:qemu" !in g.guests then Qemu else Lxc;
    f := Facts(vmid, kind, UnnamedNode(g.guests), None, []);
    forall i | 0 <= i < |g.guests| ensures !TermAdmits(g.guests[i], f) {
      assert !TermAdmitsNewVmid(g.guests[i], vmid);
      UnnamedGuest(g.guests[i], f);
    }
  }

  /**
   * A creation destination is admitted only if the grant admits every guest that
   * could appear there; the one grant that does so without being admitted is the
   * one listing both guest types.
   */
  lemma NewVmidScopeIsExact(g: Grant, vmid: u32)
    ensures AllowsNewVmid(g, vmid) || NamesBothTypes(g)
      <==> forall f: Facts :: f.vmid == vmid ==> AllowsGuest(g, f)
  {
    if AllowsNewVmid(g, vmid) {
      forall f: Facts | f.vmid == vmid ensures AllowsGuest(g, f) { NewVmidAdmitsAll(g, f); }
    } else if NamesBothTypes(g) {
      forall f: Facts | f.vmid == vmid ensures AllowsGuest(g, f) { BothTypesAdmitAll(g, f); }
    } else {
      var f := NarrowerGrantMisses(g, vmid);
    }
  }
}

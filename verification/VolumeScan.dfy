/** Which disk values a low-tier create may carry. */
module VolumeScan {
  import opened Text

  // ---- The scanner ------------------------------------------------------------

  predicate StartsAt(s: string, p: string, i: nat) {
    i + |p| <= |s| && forall k :: 0 <= k < |p| ==> s[i + k] == p[k]
  }

  /** `str::find`: the first place the text begins. */
  function Find(s: string, p: string): (r: Option<nat>)
    ensures r.Some? ==> r.value + |p| <= |s|
  {
    FindFrom(s, p, 0)
  }

  function FindFrom(s: string, p: string, i: nat): (r: Option<nat>)
    ensures r.Some? ==> r.value + |p| <= |s|
    decreases |s| - i
  {
    if i + |p| > |s| then None
    else if StartsAt(s, p, i) then Some(i)
    else if i == |s| then None
    else FindFrom(s, p, i + 1)
  }

  /** The text begins nowhere from `a` up to `b`. */
  ghost predicate NoneStarts(s: string, p: string, a: nat, b: nat) { forall j: nat :: a <= j < b ==> !StartsAt(s, p, j) }

  lemma {:induction false} FindFromMeans(s: string, p: string, i: nat)
    requires i <= |s|
    ensures match FindFrom(s, p, i)
      case None => NoneStarts(s, p, i, |s| + 1)
      case Some(j) => i <= j && StartsAt(s, p, j) && NoneStarts(s, p, i, j)
    decreases |s| - i
  {
    if i + |p| <= |s| && !StartsAt(s, p, i) && i < |s| { FindFromMeans(s, p, i + 1); }
  }

  /** A search finds the first beginning, and nothing only if there is none. */
  lemma FindMeans(s: string, p: string)
    ensures match Find(s, p)
      case None => NoneStarts(s, p, 0, |s| + 1)
      case Some(i) => StartsAt(s, p, i) && NoneStarts(s, p, 0, i)
  {
    FindFromMeans(s, p, 0);
  }

  function LeadingDigits(s: string): (n: nat)
    ensures n <= |s| && AllDigits(s[..n])
    ensures n < |s| ==> !IsDigit(s[n])
  {
    if s == "" || !IsDigit(s[0]) then 0
    else
      var n := LeadingDigits(s[1..]);
      assert forall i :: 1 <= i < n + 1 ==> s[i] == s[1..][i - 1];
      n + 1
  }

  /** At `i`: the prefix, `n >= 1` digits, a dash. */
  predicate ReferenceAt(s: string, p: string, i: nat, n: nat) {
    && n >= 1 && i + |p| + n < |s|
    && StartsAt(s, p, i)
    && AllDigits(s[i + |p|..i + |p| + n])
    && s[i + |p| + n] == '-'
  }

  ghost predicate HasReference(s: string, p: string) { exists i: nat, n: nat :: ReferenceAt(s, p, i, n) }

  /** A guest's volume is named somewhere in the value. */
  ghost predicate NamesVolume(s: string) { HasReference(s, "vm-") || HasReference(s, "base-") }

  /** Occurrences of such a prefix cannot overlap. */
  predicate NonOverlapping(p: string) { p != "" && p[0] !in p[1..] }

  lemma StartsAtShift(s: string, p: string, off: nat, i: nat)
    requires off <= i && off <= |s|
    ensures StartsAt(s, p, i) <==> StartsAt(s[off..], p, i - off)
  {
    if i + |p| <= |s| { assert forall k :: 0 <= k < |p| ==> (s[i + k] == p[k] <==> s[off..][i - off + k] == p[k]); }
  }

  lemma OverlapRepeatsFirst(s: string, p: string, i: nat, j: nat)
    requires StartsAt(s, p, i) && StartsAt(s, p, j) && i < j < i + |p|
    ensures p[0] in p[1..]
  {
    assert s[i + (j - i)] == p[j - i] && s[j + 0] == p[0];
    assert p[1..][j - i - 1] == p[0];
  }

  lemma {:induction false} DigitsEnd(s: string, n: nat)
    requires n < |s| && AllDigits(s[..n]) && !IsDigit(s[n])
    ensures LeadingDigits(s) == n
  {
    if n > 0 {
      assert s[0] == s[..n][0];
      assert s[1..][..n - 1] == s[..n][1..];
      DigitsEnd(s[1..], n - 1);
    }
  }

  /** After a prefix the digits are read greedily, so one look decides. */
  lemma OneLookDecides(s: string, p: string, i: nat, n: nat)
    requires ReferenceAt(s, p, i, n)
    ensures var after := s[i + |p|..]; LeadingDigits(after) == n && n < |after| && after[n] == '-'
  {
    var after := s[i + |p|..];
    assert after[..n] == s[i + |p|..i + |p| + n] && after[n] == '-';
    DigitsEnd(after, n);
  }

  ghost predicate NoneBefore(s: string, p: string, off: nat) { forall i: nat, n: nat :: ReferenceAt(s, p, i, n) ==> off <= i }

  ghost predicate FirstFrom(s: string, p: string, off: nat, i: nat) {
    off <= i && i + |p| <= |s| && StartsAt(s, p, i) && NoneStarts(s, p, off, i)
  }

  ghost predicate RefersAt(s: string, p: string, i: nat) { exists n: nat :: ReferenceAt(s, p, i, n) }

  /** A prefix found at `i` without digits and a dash is skipped whole. */
  lemma SkipsTo(s: string, p: string, off: nat, i: nat)
    requires NonOverlapping(p) && off <= i && i + |p| <= |s| && StartsAt(s, p, i)
    requires NoneBefore(s, p, off)
    requires NoneStarts(s, p, off, i) && !RefersAt(s, p, i)
    ensures NoneBefore(s, p, i + |p|)
  {
    forall j: nat, n: nat | ReferenceAt(s, p, j, n) ensures i + |p| <= j {
      if i < j < i + |p| { OverlapRepeatsFirst(s, p, i, j); }
    }
  }

  /** What a search of the rest tells about the whole. */
  lemma FoundAt(s: string, p: string, off: nat, at: Option<nat>)
    requires off <= |s| && at == Find(s[off..], p)
    ensures at.Some? ==> FirstFrom(s, p, off, off + at.value)
    ensures at.None? ==> NoneStarts(s, p, off, |s| + 1)
  {
    FindMeans(s[off..], p);
    if at.Some? { StartsAtShift(s, p, off, off + at.value); }
    forall j: nat | off <= j && (at.None? || j < off + at.value) ensures !StartsAt(s, p, j) { StartsAtShift(s, p, off, j); }
  }

  /** At least one digit and then a dash, seen from after a prefix. */
  predicate LooksReferred(after: string) {
    var digits := LeadingDigits(after);
    digits > 0 && digits < |after| && after[digits] == '-'
  }

  lemma LookDecides(s: string, p: string, i: nat)
    requires i + |p| <= |s| && StartsAt(s, p, i)
    ensures LooksReferred(s[i + |p|..]) <==> RefersAt(s, p, i)
  {
    var after := s[i + |p|..];
    if LooksReferred(after) {
      assert s[i + |p|..i + |p| + LeadingDigits(after)] == after[..LeadingDigits(after)];
      assert ReferenceAt(s, p, i, LeadingDigits(after));
    }
    forall n: nat | ReferenceAt(s, p, i, n) ensures LooksReferred(after) { OneLookDecides(s, p, i, n); }
  }

  lemma ReferredIsReference(s: string, p: string, i: nat)
    requires RefersAt(s, p, i)
    ensures HasReference(s, p)
  {
  }

  /** One turn of the loop: the prefix found next begins a reference, or is passed over. */
  lemma TurnDecides(s: string, p: string, off: nat, i: nat, after: string)
    requires NonOverlapping(p) && FirstFrom(s, p, off, i) && NoneBefore(s, p, off) && after == s[i + |p|..]
    ensures LooksReferred(after) ==> HasReference(s, p)
    ensures !LooksReferred(after) ==> NoneBefore(s, p, i + |p|)
  {
    LookDecides(s, p, i);
    if RefersAt(s, p, i) { ReferredIsReference(s, p, i); } else { SkipsTo(s, p, off, i); }
  }

  lemma NothingIsLeft(s: string, p: string, off: nat)
    requires off <= |s| && Find(s[off..], p).None? && NoneBefore(s, p, off)
    ensures !HasReference(s, p)
  {
    FoundAt(s, p, off, None);
  }

  lemma DropTwice(s: string, a: nat, b: nat)
    requires a + b <= |s|
    ensures s[a..][b..] == s[a + b..]
  {
  }

  /** One prefix's pass of the loop. */
  method Scan(value: string, prefix: string) returns (found: bool)
    requires NonOverlapping(prefix)
    ensures found <==> HasReference(value, prefix)
  {
    var rest := value;
    ghost var off: nat := 0;
    var at := Find(rest, prefix);
    while at.Some?
      invariant off <= |value| && rest == value[off..]
      invariant at == Find(rest, prefix)
      invariant NoneBefore(value, prefix, off)
      decreases |rest|
    {
      FoundAt(value, prefix, off, at);
      var after := rest[at.value + |prefix|..];
      DropTwice(value, off, at.value + |prefix|);
      TurnDecides(value, prefix, off, off + at.value, after);
      var referred := LooksReferred(after);
      if referred { return true; }
      off := off + at.value + |prefix|;
      rest := after;
      at := Find(rest, prefix);
    }
    NothingIsLeft(value, prefix, off);
    found := false;
  }

  /** `contains_volume_reference`: true exactly when some position holds a reference. */
  method ContainsVolumeReference(value: string) returns (found: bool)
    ensures found <==> NamesVolume(value)
  {
    found := Scan(value, "vm-");
    if !found { found := Scan(value, "base-"); }
  }

  // ---- What an accepted disk value is -------------------------------------------

  function LowerChar(c: char): char { if 'A' <= c <= 'Z' then (c as int + 32) as char else c }

  function Lower(s: string): string { seq(|s|, i requires 0 <= i < |s| => LowerChar(s[i])) }

  const CAPITALS: string := "ABCDEFGHIJKLMNOPQRSTUVWXYZ"
  const SMALLS: string := "abcdefghijklmnopqrstuvwxyz"

  /** Capitals become small letters; everything else stays. */
  lemma LowerMeans(i: nat, c: char)
    ensures i < 26 ==> LowerChar(CAPITALS[i]) == SMALLS[i]
    ensures c !in CAPITALS ==> LowerChar(c) == c
  {
    var j := c as int - 'A' as int;
    if 0 <= j < 26 { assert CAPITALS[j] as int == 'A' as int + j; }
  }

  predicate IsSizeText(s: string) { s != "" && forall i :: 0 <= i < |s| ==> IsDigit(s[i]) || s[i] == '.' }

  function OptionKey(field: string): string {
    Lower(Trim(match SplitOnce(field, '=') case Some((key, _)) => key case None => field))
  }

  predicate ImportsVolume(field: string) { OptionKey(field) == "import-from" || OptionKey(field) == "file" }

  /** `field` reads `name`, padded by `a` and `b`, perhaps with `=` and a value. */
  ghost predicate OptionReads(field: string, a: string, name: string, b: string, value: string) {
    && AllSpaces(a) && AllSpaces(b) && '=' !in a + name + b
    && (field == a + name + b || field == a + name + b + ['='] + value)
  }

  predicate IsImport(name: string) { Lower(name) == "import-from" || Lower(name) == "file" }

  /** The option's name is `import-from` or `file`, but for case and padding. */
  ghost predicate NamesImport(field: string) {
    exists a, name, b, value :: OptionReads(field, a, name, b, value) && IsImport(name)
  }

  lemma LowerKeepsSpaces(s: string)
    requires IsImport(s)
    ensures IsTrimmed(s) && s != "" && '=' !in s
  {
    forall i | 0 <= i < |s| ensures !IsSpace(s[i]) && s[i] != '=' { assert Lower(s)[i] == LowerChar(s[i]); }
  }

  lemma ImportIsNamed(field: string)
    requires ImportsVolume(field)
    ensures NamesImport(field)
  {
    var sides := SplitOnce(field, '=');
    var key := if sides.Some? then sides.value.0 else field;
    var a, b := PaddingOfTrimmed(key);
    assert OptionReads(field, a, Trim(key), b, if sides.Some? then sides.value.1 else "");
  }

  lemma NamedIsImport(field: string, a: string, name: string, b: string, value: string)
    requires OptionReads(field, a, name, b, value) && IsImport(name)
    ensures ImportsVolume(field)
  {
    LowerKeepsSpaces(name);
    TrimOfPadded(a, name, b);
    if field == a + name + b + ['='] + value { SplitOnceFinds(a + name + b, '=', value); }
  }

  lemma ImportsExactlyWhen(field: string)
    ensures ImportsVolume(field) <==> NamesImport(field)
  {
    if ImportsVolume(field) { ImportIsNamed(field); }
    if a, name, b, value :| OptionReads(field, a, name, b, value) && IsImport(name) { NamedIsImport(field, a, name, b, value); }
  }

  /** Digits and dots, at least one of them. */
  predicate SizeLike(s: string) { s != "" && forall i :: 0 <= i < |s| ==> s[i] in "0123456789." }

  lemma SizeMeans(s: string)
    ensures IsSizeText(s) <==> SizeLike(s)
  {
    var t := "0123456789.";
    forall c: char ensures c in t <==> IsDigit(c) || c == '.' {
      if IsDigit(c) { assert t[c as int - '0' as int] == c; }
      assert t[10] == '.';
    }
  }

  /** A size, then options none of which imports a volume. */
  ghost predicate FieldsAllocate(fields: seq<string>)
    requires |fields| >= 1
  {
    SizeLike(fields[0]) && forall k :: 1 <= k < |fields| ==> !NamesImport(fields[k])
  }

  /** `value` reads `<storage>:<size>[,option]*` with no option importing a volume. */
  ghost predicate AllocationOf(value: string, storage: string, fields: seq<string>) {
    && |fields| >= 1 && ':' !in storage
    && (forall k :: 0 <= k < |fields| ==> ',' !in fields[k])
    && value == storage + [':'] + Join(fields, ',')
    && FieldsAllocate(fields)
  }

  ghost predicate NewAllocation(value: string) {
    (exists storage, fields :: AllocationOf(value, storage, fields)) && !NamesVolume(value)
  }

  /** The reading of a value as an allocation is unique, so failing it is final. */
  lemma ReadingIsUnique(value: string, storage: string, fields: seq<string>)
    requires AllocationOf(value, storage, fields)
    ensures SplitOnce(value, ':') == Some((storage, Join(fields, ','))) && Split(Join(fields, ','), ',') == fields
  {
    SplitOnceFinds(storage, ':', Join(fields, ','));
    SplitOfJoin(fields, ',');
  }

  lemma AllocationHasColon(value: string)
    ensures NewAllocation(value) ==> ':' in value
  {
    if NewAllocation(value) {
      var storage, fields :| AllocationOf(value, storage, fields);
      assert value[|storage|] == ':';
    }
  }

  lemma ReadingDecides(value: string)
    requires SplitOnce(value, ':').Some?
    ensures var fields := Split(SplitOnce(value, ':').value.1, ',');
      NewAllocation(value)
      <==> FieldsAllocate(fields) && !NamesVolume(value)
  {
    var sides := SplitOnce(value, ':').value;
    var fields := Split(sides.1, ',');
    JoinOfSplit(sides.1, ',');
    if NewAllocation(value) {
      var storage, fs :| AllocationOf(value, storage, fs);
      ReadingIsUnique(value, storage, fs);
    } else if FieldsAllocate(fields) {
      assert AllocationOf(value, sides.0, fields);
    }
  }

  /** The option loop of `disk_value_is_new_allocation`. */
  method CheckFields(fields: seq<string>) returns (allocates: bool)
    requires |fields| >= 1
    ensures allocates <==> FieldsAllocate(fields)
  {
    SizeMeans(fields[0]);
    if !IsSizeText(fields[0]) { return false; }
    for i := 1 to |fields|
      invariant forall k :: 1 <= k < i ==> !NamesImport(fields[k])
    {
      ImportsExactlyWhen(fields[i]);
      var imports := ImportsVolume(fields[i]);
      if imports { return false; }
    }
    allocates := true;
  }

  /** `disk_value_is_new_allocation`. */
  method DiskValueIsNewAllocation(value: string) returns (allocates: bool)
    ensures allocates <==> NewAllocation(value)
  {
    AllocationHasColon(value);
    var sides := SplitOnce(value, ':');
    if sides.None? { return false; }
    ReadingDecides(value);
    var ok := CheckFields(Split(sides.value.1, ','));
    var named := ContainsVolumeReference(value);
    allocates := ok && !named;
  }

  // ---- Media forms and the whole disk clause --------------------------------------

  predicate IsControl(c: char) { c as int < 0x20 || 0x7F <= c as int <= 0x9F }

  /** Storage, kind and name, none of them empty. */
  predicate SplitsAsVolid(volid: string, kind: string) {
    match SplitOnce(volid, ':')
    case None => false
    case Some((storage, rest)) =>
      storage != "" && match SplitOnce(rest, '/')
        case None => false
        case Some((k, name)) => name != "" && k == kind
  }

  /** `validate_volid_kind`, as accepted or refused. */
  predicate ValidVolidKind(volid: string, kind: string) {
    && volid != "" && Find(volid, "..").None?
    && (forall i :: 0 <= i < |volid| ==> !IsControl(volid[i])) && SplitsAsVolid(volid, kind)
  }

  predicate IsCloudInit(value: string) {
    match SplitOnce(value, ':') case Some((storage, rest)) => storage != "" && rest == "cloudinit" case None => false
  }

  predicate IsImage(value: string) {
    match SplitOnce(value, ',')
    case Some((volid, rest)) => rest == "media=cdrom" && ValidVolidKind(volid, "iso")
    case None => false
  }

  /** `disk_value_is_allowed_media`. */
  predicate AllowedMedia(value: string) { value == "none,media=cdrom" || IsCloudInit(value) || IsImage(value) }

  predicate HasDigitSuffix(key: string, prefix: string) {
    prefix < key && AllDigits(key[|prefix|..])
  }

  predicate IsCreateDiskKey(lower: string) {
    lower == "rootfs" || lower == "efidisk0" || lower == "tpmstate0"
    || HasDigitSuffix(lower, "scsi") || HasDigitSuffix(lower, "ide") || HasDigitSuffix(lower, "sata")
    || HasDigitSuffix(lower, "virtio")
  }

  const BUSES: seq<string> := ["scsi", "ide", "sata", "virtio"]

  /** One of the three single disks, or a bus and a number. */
  ghost predicate NamesDisk(key: string) {
    || key == "rootfs" || key == "efidisk0" || key == "tpmstate0"
    || exists bus, number :: bus in BUSES && number != "" && AllDigits(number) && key == bus + number
  }

  lemma SuffixMeans(key: string, bus: string)
    ensures HasDigitSuffix(key, bus) <==> exists number :: number != "" && AllDigits(number) && key == bus + number
  {
    if HasDigitSuffix(key, bus) { assert key == bus + key[|bus|..]; }
    forall number | number != "" && AllDigits(number) && key == bus + number ensures HasDigitSuffix(key, bus) {
      assert key[|bus|..] == number;
    }
  }

  lemma DiskKeyMeans(key: string)
    ensures IsCreateDiskKey(key) <==> NamesDisk(key)
  {
    assert BUSES[0] == "scsi" && BUSES[1] == "ide" && BUSES[2] == "sata" && BUSES[3] == "virtio";
    forall bus | bus in BUSES
      ensures HasDigitSuffix(key, bus) <==> exists number :: number != "" && AllDigits(number) && key == bus + number
    {
      SuffixMeans(key, bus);
    }
  }

  /** `value` is a head without the separator, then the separator and `tail`. */
  predicate Reads(value: string, head: string, sep: char, tail: string) { sep !in head && value == head + [sep] + tail }

  lemma ReadsExactlyWhen(value: string, head: string, sep: char, tail: string)
    ensures Reads(value, head, sep, tail) <==> SplitOnce(value, sep) == Some((head, tail))
  {
    if sep !in head { SplitOnceFinds(head, sep, tail); }
  }

  /** An empty drive, a cloud-init drive of some storage, or an image of some storage attached read-only. */
  ghost predicate IsMedia(value: string) {
    || value == "none,media=cdrom"
    || (exists storage :: storage != "" && Reads(value, storage, ':', "cloudinit"))
    || (exists volid :: ValidVolidKind(volid, "iso") && Reads(value, volid, ',', "media=cdrom"))
  }

  lemma CloudInitMeans(value: string, storage: string)
    requires Reads(value, storage, ':', "cloudinit")
    ensures IsCloudInit(value) <==> storage != ""
  {
    ReadsExactlyWhen(value, storage, ':', "cloudinit");
  }

  lemma ImageMeans(value: string, volid: string)
    requires Reads(value, volid, ',', "media=cdrom")
    ensures IsImage(value) <==> ValidVolidKind(volid, "iso")
  {
    ReadsExactlyWhen(value, volid, ',', "media=cdrom");
  }

  lemma MediaMeans(value: string)
    ensures AllowedMedia(value) <==> IsMedia(value)
  {
    forall storage | Reads(value, storage, ':', "cloudinit") ensures IsCloudInit(value) <==> storage != "" {
      CloudInitMeans(value, storage);
    }
    forall volid | Reads(value, volid, ',', "media=cdrom") ensures IsImage(value) <==> ValidVolidKind(volid, "iso") {
      ImageMeans(value, volid);
    }
    if IsCloudInit(value) { assert Reads(value, SplitOnce(value, ':').value.0, ':', "cloudinit"); }
    if IsImage(value) { assert Reads(value, SplitOnce(value, ',').value.0, ',', "media=cdrom"); }
  }

  ghost predicate DiskAllowed(entry: (string, string)) {
    NamesDisk(Lower(entry.0)) ==> IsMedia(entry.1) || NewAllocation(entry.1)
  }

  /** The filter's verdict on one field. */
  lemma DiskCheckMeans(entry: (string, string), allocates: bool)
    requires allocates <==> NewAllocation(entry.1)
    ensures IsCreateDiskKey(Lower(entry.0)) && !allocates && !AllowedMedia(entry.1) <==> !DiskAllowed(entry)
  {
    DiskKeyMeans(Lower(entry.0));
    MediaMeans(entry.1);
  }

  ghost predicate AllDisksAllowed(config: seq<(string, string)>) {
    forall i :: 0 <= i < |config| ==> DiskAllowed(config[i])
  }

  /** Some field under this key is refused. */
  ghost predicate RefusedUnder(config: seq<(string, string)>, key: string) {
    exists i :: 0 <= i < |config| && config[i].0 == key && !DiskAllowed(config[i])
  }

  /** The last clause of `reject_unsafe_config`: the keys it would report. */
  method ForeignVolumes(config: seq<(string, string)>) returns (keys: seq<string>)
    ensures keys == [] <==> AllDisksAllowed(config)
    ensures forall key :: key in keys <==> RefusedUnder(config, key)
  {
    keys := [];
    for i := 0 to |config|
      invariant keys == [] <==> AllDisksAllowed(config[..i])
      invariant forall key :: key in keys <==> exists j :: 0 <= j < i && config[j].0 == key && !DiskAllowed(config[j])
    {
      assert config[..i + 1] == config[..i] + [config[i]];
      var allocates := DiskValueIsNewAllocation(config[i].1);
      DiskCheckMeans(config[i], allocates);
      if IsCreateDiskKey(Lower(config[i].0)) && !allocates && !AllowedMedia(config[i].1) { keys := keys + [config[i].0]; }
      assert DiskAllowed(config[i]) <==> DiskAllowed(config[..i + 1][i]);
    }
    assert config[..|config|] == config;
  }

  lemma SplitMeans(volid: string, kind: string)
    requires '/' !in kind
    ensures SplitsAsVolid(volid, kind) <==> VolidOf(volid, kind)
  {
    if SplitsAsVolid(volid, kind) {
      var outer := SplitOnce(volid, ':').value;
      var inner := SplitOnce(outer.1, '/').value;
      assert volid == outer.0 + [':'] + (kind + ['/'] + inner.1);
    } else if VolidOf(volid, kind) {
      var storage, name :|
        storage != "" && ':' !in storage && name != "" && volid == storage + [':'] + (kind + ['/'] + name);
      SplitOnceFinds(storage, ':', kind + ['/'] + name);
      SplitOnceFinds(kind, '/', name);
    }
  }

  /** Neither a control character of the first nor of the second block. */
  predicate IsPrintable(c: char) { ' ' <= c < 0x7F as char || 0x9F as char < c }

  /** A volid accepted for a content kind has exactly the shape `<storage>:<kind>/<name>`. */
  lemma ValidVolidShape(volid: string, kind: string)
    requires '/' !in kind
    ensures ValidVolidKind(volid, kind)
      <==> NoneStarts(volid, "..", 0, |volid|) && VolidOf(volid, kind)
           && forall i :: 0 <= i < |volid| ==> IsPrintable(volid[i])
  {
    FindMeans(volid, "..");
    SplitMeans(volid, kind);
  }

  ghost predicate VolidOf(volid: string, kind: string) {
    exists storage, name ::
      storage != "" && ':' !in storage && name != "" && volid == storage + [':'] + (kind + ['/'] + name)
  }

  /** The size text is not required to be a number: a lone dot passes. */
  lemma ADotPassesAsASize(storage: string)
    requires ':' !in storage && '-' !in storage
    ensures NewAllocation(storage + [':'] + ".")
  {
    var value := storage + [':'] + ".";
    assert Join(["."], ',') == ".";
    assert AllocationOf(value, storage, ["."]);
    assert '-' !in value;
  }
}

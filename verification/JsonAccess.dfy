/** How the source reads a JSON value: every accessor answers "absent" for the wrong shape. */
module JsonAccess {
  import opened Text
  import opened Json

  function FindField(fields: seq<Field>, name: string): Option<Value> {
    if fields == [] then None
    else if fields[0].name == name then Some(fields[0].value)
    else FindField(fields[1..], name)
  }

  function Get(entry: Value, name: string): Option<Value> {
    if entry.Obj? then FindField(entry.fields, name) else None
  }

  function GetStr(entry: Value, name: string): Option<string> {
    match Get(entry, name)
    case Some(Str(s)) => Some(s)
    case _ => None
  }

  /** `as_u64`: only a non-negative integer token in range. */
  function GetU64(entry: Value, name: string): (r: Option<u64>) {
    match Get(entry, name)
    case Some(Num(t)) =>
      if AllDigits(t) && Decimal(t) < 0x1_0000_0000_0000_0000 then Some(Decimal(t)) else None
    case _ => None
  }

  /** `v` is what the first field of that name holds. */
  ghost predicate Holds(entry: Value, name: string, v: Value) {
    entry.Obj? && exists i :: FirstAt(entry.fields, name, i) && entry.fields[i].value == v
  }

  predicate FirstAt(fields: seq<Field>, name: string, i: int) {
    0 <= i < |fields| && fields[i].name == name && forall j :: 0 <= j < i ==> fields[j].name != name
  }

  lemma {:induction false} FindFieldMeans(fields: seq<Field>, name: string, v: Value)
    ensures FindField(fields, name) == Some(v) <==> exists i :: FirstAt(fields, name, i) && fields[i].value == v
  {
    if fields != [] && fields[0].name == name {
      assert FirstAt(fields, name, 0);
    } else if fields != [] {
      FindFieldMeans(fields[1..], name, v);
      if i :| FirstAt(fields[1..], name, i) && fields[1..][i].value == v {
        assert forall j :: 1 <= j < i + 1 ==> fields[j] == fields[1..][j - 1];
        assert FirstAt(fields, name, i + 1);
      }
      if i :| FirstAt(fields, name, i) && fields[i].value == v { assert FirstAt(fields[1..], name, i - 1); }
    }
  }

  lemma GetMeans(entry: Value, name: string, v: Value)
    ensures Get(entry, name) == Some(v) <==> Holds(entry, name, v)
  {
    if entry.Obj? { FindFieldMeans(entry.fields, name, v); }
  }

  /** A text is read exactly from a field that holds a text. */
  lemma GetStrMeans(entry: Value, name: string, s: string)
    ensures GetStr(entry, name) == Some(s) <==> Holds(entry, name, Str(s))
  {
    GetMeans(entry, name, Str(s));
  }

  /** A number is read exactly from a field that holds digits in range. */
  lemma GetU64Means(entry: Value, name: string, n: u64)
    ensures GetU64(entry, name) == Some(n) <==>
      exists digits :: Holds(entry, name, Num(digits)) && AllDigits(digits) && Decimal(digits) == n
  {
    forall digits ensures Get(entry, name) == Some(Num(digits)) <==> Holds(entry, name, Num(digits)) {
      GetMeans(entry, name, Num(digits));
    }
  }
}

/** The guest selector language of per-token grants. */
module Selectors {
  import opened Text

  datatype GuestType = Qemu | Lxc {
    function PathSegment(): string { if Qemu? then "qemu" else "lxc" }
  }

  datatype Facts = Facts(vmid: u32, kind: GuestType, node: string, pool: Option<string>, tags: seq<string>)

  datatype Selector =
    | Everyone
    | Vmid(vmid: u32)
    | VmidRange(low: u32, high: u32)
    | Tag(tag: string)
    | Pool(pool: string)
    | Node(node: string)
    | OfType(kind: GuestType)

  datatype SelectorError = Unknown(term: string) | BadRange(value: string) | BadVmid(value: string)
  datatype Parsed = Ok(selector: Selector) | Err(error: SelectorError)

  function ParseVmidTerm(value: string): Parsed {
    match SplitOnce(value, '-')
    case Some((low, high)) =>
      (match (ParseU32(low), ParseU32(high))
       case (Some(l), Some(h)) => if l > h then Err(BadRange(value)) else Ok(VmidRange(l, h))
       case _ => Err(BadRange(value)))
    case None =>
      match ParseU32(value)
      case Some(v) => Ok(Vmid(v))
      case None => Err(BadVmid(value))
  }

  function Parse(input: string): Parsed {
    if input == "*" then Ok(Everyone)
    else
      match SplitOnce(input, ':')
      case None => Err(Unknown(input))
      case Some((prefix, value)) =>
        if prefix == "vmid" then ParseVmidTerm(value)
        else if prefix == "tag" then Ok(Tag(value))
        else if prefix == "pool" then Ok(Pool(value))
        else if prefix == "node" then Ok(Node(value))
        else if prefix == "type" then
          if value == "qemu" then Ok(OfType(Qemu))
          else if value == "lxc" then Ok(OfType(Lxc))
          else Err(Unknown("type:" + value))
        else Err(Unknown(prefix))
  }

  predicate Matches(s: Selector, f: Facts) {
    match s
    case Everyone => true
    case Vmid(v) => f.vmid == v
    case VmidRange(low, high) => low <= f.vmid <= high
    case Tag(tag) => tag in f.tags
    case Pool(pool) => f.pool == Some(pool)
    case Node(node) => f.node == node
    case OfType(kind) => f.kind == kind
  }

  /** Whether a selector can speak for a guest that does not exist yet. */
  predicate MatchesNewVmid(s: Selector, vmid: u32) {
    match s
    case Everyone => true
    case Vmid(v) => v == vmid
    case VmidRange(low, high) => low <= vmid <= high
    case _ => false
  }

  /** Ranges are inclusive, and a new vmid is spoken for exactly by the selectors every guest at it matches. */
  lemma SelectorsMean(s: Selector, f: Facts)
    ensures s.VmidRange? ==> (Matches(s, f) <==> !(f.vmid < s.low || s.high < f.vmid))
    ensures MatchesNewVmid(s, f.vmid) <==> !s.Tag? && !s.Pool? && !s.Node? && !s.OfType? && Matches(s, f)
  {
  }
}

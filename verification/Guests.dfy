/** A guest as the cluster reports it. */
module Guests {
  import opened Text
  import opened Selectors

  datatype Guest = Guest(
    cluster: string, vmid: u32, name: string, kind: GuestType, node: string, status: string,
    tags: seq<string>, pool: Option<string>)
  {
    function FactsOf(): Facts { Facts(vmid, kind, node, pool, tags) }
  }

  /** What resolving a guest answers. */
  datatype Resolved = Found(guest: Guest) | Absent | Unreadable
}

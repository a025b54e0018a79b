/** What an apply reads of a guest before it may write. */
module GuestReads {
  import opened Text
  import opened Guests
  import opened Fingerprint

  /** A guest's configuration as the fingerprint sees it. */
  datatype Config = Config(digest: string, disks: seq<Disk>)

  /** The resolved guest and a configuration read for this call. */
  function StateOf(cluster: string, g: Guest, c: Config): GuestState {
    GuestState(cluster, g.vmid, g.name, g.kind.PathSegment(), g.node, g.status, g.tags, c.digest, c.disks)
  }
}

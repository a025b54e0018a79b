/** The guest index: what its cache holds, and the atomic sections that change it. */
module GuestCache {
  import opened Text
  import opened Guests
  import opened Authorization

  /**
   * One answer to `/cluster/resources`. `gen` is the generation its reader had
   * loaded, `started` when the request began, `sampled` when the cluster was as
   * it says: history the program does not keep.
   */
  datatype Fetch = Fetch(guests: Listing, gen: nat, started: nat, sampled: nat)

  datatype Snapshot = Snapshot(taken: nat, fetch: Fetch)

  datatype Cache = Cache(snapshots: map<string, Snapshot>, generation: nat)

  predicate Expired(snapshot: Snapshot, ttl: nat, now: nat) { now > snapshot.taken + ttl }

  /** `lookup_fresh`: a guest of an unexpired snapshot. */
  function Fresh(cache: Cache, ttl: nat, now: nat, cluster: string, vmid: u32): Option<Guest> {
    if cluster in cache.snapshots && !Expired(cache.snapshots[cluster], ttl, now)
      && vmid in cache.snapshots[cluster].fetch.guests
    then Some(cache.snapshots[cluster].fetch.guests[vmid])
    else None
  }

  function Bumped(cache: Cache): Cache { cache.(generation := cache.generation + 1) }

  /** `None` drops every cluster's snapshot. */
  function Evicted(cache: Cache, target: Option<string>): Cache {
    cache.(snapshots := match target case None => map[] case Some(c) => cache.snapshots - {c})
  }

  function Published(cache: Cache, cluster: string, snapshot: Snapshot): Cache {
    cache.(snapshots := cache.snapshots[cluster := snapshot])
  }
}

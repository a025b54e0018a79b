/** The two resolves of a guest handler: what they answer, and which request each answer comes from. */
module HandlerReads {
  import opened Text
  import opened Guests
  import opened Authorization
  import opened GuestCache
  import opened GuestIndexObject

  /** The circumstances of one resolve: when it looks, who runs while it asks, the answer, and when it publishes. */
  datatype Try = Try(now: nat, others: seq<Event>, answer: Option<Listed>, later: nat)

  /** What happens around a handler's two resolves; `stale` runs between its invalidation and the first. */
  datatype Look = Look(stale: seq<Event>, first: Try, between: seq<Event>, second: Try)

  // ---- What the resolves answer ----------------------------------------------------------

  /** The request a resolve makes when it finds nothing cached. */
  function OwnFetch(cache: Cache, t: Try): Fetch
    requires t.answer.Some?
  {
    Fetch(t.answer.value.guests, cache.generation, t.now, t.answer.value.sampled)
  }

  function ReadOf(cache: Cache, ttl: nat, cluster: string, vmid: u32, t: Try): Resolved {
    match Fresh(cache, ttl, t.now, cluster, vmid)
    case Some(guest) => Found(guest)
    case None => if t.answer.Some? then ReadFrom(t.answer.value.guests, vmid) else Unreadable
  }

  function CacheAfter(cache: Cache, ttl: nat, cluster: string, vmid: u32, t: Try): Cache {
    if Fresh(cache, ttl, t.now, cluster, vmid).Some? then cache
    else
      var met := ReactAll(cache, t.others);
      if t.answer.Some? then React(met, Publishes(cluster, Snapshot(t.later, OwnFetch(cache, t)))) else met
  }

  /** The cache the second resolve of a pair looks into, if the first looked into `cache`. */
  function BeforeSecond(cache: Cache, ttl: nat, cluster: string, vmid: u32, look: Look): Cache {
    ReactAll(CacheAfter(cache, ttl, cluster, vmid, look.first), look.between)
  }

  /** The cache after this call's own invalidation and the others' steps that follow it. */
  function Dropped(cache: Cache, cluster: string, look: Look): Cache {
    ReactAll(React(cache, Invalidates(Some(cluster))), look.stale)
  }

  /** Both answers, the first from `cache`. */
  function BothReads(cache: Cache, ttl: nat, cluster: string, vmid: u32, look: Look): (Resolved, Resolved) {
    (ReadOf(cache, ttl, cluster, vmid, look.first),
     ReadOf(BeforeSecond(cache, ttl, cluster, vmid, look), ttl, cluster, vmid, look.second))
  }

  method ResolveOnce(index: GuestIndex, cluster: string, vmid: u32, t: Try) returns (read: Resolved)
    modifies index
    ensures read == ReadOf(old(index.View()), index.ttl, cluster, vmid, t)
    ensures index.View() == CacheAfter(old(index.View()), index.ttl, cluster, vmid, t)
  {
    GenerationTellsInvalidations(index.View(), t.others);
    read := index.Resolve(cluster, vmid, t.now, t.others, t.answer, t.later);
  }

  /** Two resolves with others in between, as the approve handler makes them. */
  method ReadTwice(index: GuestIndex, cluster: string, vmid: u32, look: Look) returns (first: Resolved, second: Resolved)
    modifies index
    ensures (first, second) == BothReads(old(index.View()), index.ttl, cluster, vmid, look)
  {
    first := ResolveOnce(index, cluster, vmid, look.first);
    index.Await(look.between);
    second := ResolveOnce(index, cluster, vmid, look.second);
  }

  // ---- Where an answer comes from ----------------------------------------------------------

  predicate CachedAs(cache: Cache, cluster: string, f: Fetch) {
    cluster in cache.snapshots && cache.snapshots[cluster].fetch == f
  }

  /** One of these events publishes `f` for the cluster. */
  predicate PublishedBy(es: seq<Event>, cluster: string, f: Fetch) {
    exists i :: 0 <= i < |es| && es[i].Publishes? && es[i].cluster == cluster && es[i].snapshot.fetch == f
  }

  predicate IsOwn(cache: Cache, t: Try, f: Fetch) { t.answer.Some? && f == OwnFetch(cache, t) }

  lemma {:induction false} EventsAreTheSources(cache: Cache, es: seq<Event>, cluster: string, f: Fetch)
    ensures CachedAs(ReactAll(cache, es), cluster, f) ==> CachedAs(cache, cluster, f) || PublishedBy(es, cluster, f)
  {
    if es != [] {
      var init := es[..|es| - 1];
      EventsAreTheSources(cache, init, cluster, f);
      if PublishedBy(init, cluster, f) {
        var i :| 0 <= i < |init| && init[i].Publishes? && init[i].cluster == cluster && init[i].snapshot.fetch == f;
        assert es[i] == init[i];
      }
      if CachedAs(ReactAll(cache, es), cluster, f) && !CachedAs(ReactAll(cache, init), cluster, f) {
        assert es[|es| - 1].Publishes?;
      }
    }
  }

  /** A resolve's guest stands in the cached fetch or in its own. */
  lemma ReadHasASource(cache: Cache, ttl: nat, cluster: string, vmid: u32, t: Try) returns (f: Fetch)
    requires ReadOf(cache, ttl, cluster, vmid, t).Found?
    ensures CachedAs(cache, cluster, f) || IsOwn(cache, t, f)
    ensures vmid in f.guests && f.guests[vmid] == ReadOf(cache, ttl, cluster, vmid, t).guest
  {
    f := if Fresh(cache, ttl, t.now, cluster, vmid).Some? then cache.snapshots[cluster].fetch else OwnFetch(cache, t);
  }

  /** What a resolve leaves cached was cached, was published meanwhile, or is its own. */
  lemma CacheHasASource(cache: Cache, ttl: nat, cluster: string, vmid: u32, t: Try, f: Fetch)
    requires CachedAs(CacheAfter(cache, ttl, cluster, vmid, t), cluster, f)
    ensures CachedAs(cache, cluster, f) || PublishedBy(t.others, cluster, f) || IsOwn(cache, t, f)
  {
    EventsAreTheSources(cache, t.others, cluster, f);
  }

  /** A request behind one of the two reads: cached before, published by others, or one of this call's own. */
  predicate Behind(cache: Cache, ttl: nat, cluster: string, vmid: u32, look: Look, f: Fetch) {
    || CachedAs(cache, cluster, f)
    || PublishedBy(look.first.others, cluster, f) || PublishedBy(look.between, cluster, f)
    || IsOwn(cache, look.first, f)
    || IsOwn(BeforeSecond(cache, ttl, cluster, vmid, look), look.second, f)
  }

  /** The guest found, if any, stands in the answer to a request behind the reads that loaded a generation above `gen`. */
  ghost predicate FoundAfter(cache: Cache, ttl: nat, cluster: string, vmid: u32, look: Look, gen: int, read: Resolved) {
    read.Found? ==>
      exists f :: Behind(cache, ttl, cluster, vmid, look, f) && gen < f.gen && vmid in f.guests && f.guests[vmid] == read.guest
  }

  /** What is cached of the cluster was asked for by a request that loaded a generation above `gen`. */
  predicate FreshAfter(cache: Cache, cluster: string, gen: int) {
    gen < cache.generation && (cluster in cache.snapshots ==> gen < cache.snapshots[cluster].fetch.gen)
  }

  lemma {:induction false} OthersKeepItFresh(cache: Cache, es: seq<Event>, cluster: string, gen: int)
    requires FreshAfter(cache, cluster, gen)
    ensures FreshAfter(ReactAll(cache, es), cluster, gen)
  {
    if es != [] { OthersKeepItFresh(cache, es[..|es| - 1], cluster, gen); }
  }

  lemma ResolvingKeepsItFresh(cache: Cache, ttl: nat, cluster: string, vmid: u32, t: Try, gen: int)
    requires FreshAfter(cache, cluster, gen)
    ensures FreshAfter(CacheAfter(cache, ttl, cluster, vmid, t), cluster, gen)
  {
    OthersKeepItFresh(cache, t.others, cluster, gen);
  }

  /** Both reads are answered by requests above `gen` if what is cached at the first is. */
  lemma ReadsComeAfter(cache: Cache, ttl: nat, cluster: string, vmid: u32, look: Look, gen: int)
    requires FreshAfter(cache, cluster, gen)
    ensures FoundAfter(cache, ttl, cluster, vmid, look, gen, BothReads(cache, ttl, cluster, vmid, look).0)
    ensures FoundAfter(cache, ttl, cluster, vmid, look, gen, BothReads(cache, ttl, cluster, vmid, look).1)
  {
    var between := CacheAfter(cache, ttl, cluster, vmid, look.first);
    var again := BeforeSecond(cache, ttl, cluster, vmid, look);
    ResolvingKeepsItFresh(cache, ttl, cluster, vmid, look.first, gen);
    OthersKeepItFresh(between, look.between, cluster, gen);
    if ReadOf(cache, ttl, cluster, vmid, look.first).Found? {
      var f := ReadHasASource(cache, ttl, cluster, vmid, look.first);
      assert Behind(cache, ttl, cluster, vmid, look, f);
    }
    if ReadOf(again, ttl, cluster, vmid, look.second).Found? {
      var f := ReadHasASource(again, ttl, cluster, vmid, look.second);
      EventsAreTheSources(between, look.between, cluster, f);
      if CachedAs(between, cluster, f) { CacheHasASource(cache, ttl, cluster, vmid, look.first, f); }
      assert Behind(cache, ttl, cluster, vmid, look, f);
    }
  }

  // ---- After the call's own invalidation ------------------------------------------------------

  /**
   * The guest found, if any, stands in the answer to a request that loaded its
   * generation after this call's bump: one published by others since, or one of
   * this call's own, and nothing that was cached before.
   */
  ghost predicate ReadAfterBump(cache: Cache, ttl: nat, cluster: string, vmid: u32, look: Look, read: Resolved) {
    read.Found? ==>
      exists f ::
        && RequestedSince(cache, ttl, cluster, vmid, look, f) && cache.generation < f.gen
        && vmid in f.guests && f.guests[vmid] == read.guest
  }

  predicate RequestedSince(cache: Cache, ttl: nat, cluster: string, vmid: u32, look: Look, f: Fetch) {
    var dropped := Dropped(cache, cluster, look);
    || PublishedBy(look.stale, cluster, f) || PublishedBy(look.first.others, cluster, f) || PublishedBy(look.between, cluster, f)
    || IsOwn(dropped, look.first, f)
    || IsOwn(BeforeSecond(dropped, ttl, cluster, vmid, look), look.second, f)
  }

  lemma ReadsComeAfterTheBump(cache: Cache, ttl: nat, cluster: string, vmid: u32, look: Look)
    ensures var both := BothReads(Dropped(cache, cluster, look), ttl, cluster, vmid, look);
      && ReadAfterBump(cache, ttl, cluster, vmid, look, both.0)
      && ReadAfterBump(cache, ttl, cluster, vmid, look, both.1)
  {
    var bumped := React(cache, Invalidates(Some(cluster)));
    var dropped := Dropped(cache, cluster, look);
    OthersKeepItFresh(bumped, look.stale, cluster, cache.generation);
    ReadsComeAfter(dropped, ttl, cluster, vmid, look, cache.generation);
    forall f | Behind(dropped, ttl, cluster, vmid, look, f) ensures RequestedSince(cache, ttl, cluster, vmid, look, f) {
      EventsAreTheSources(bumped, look.stale, cluster, f);
    }
  }

  /** If every other request was already away at the bump, the first read is this call's own. */
  predicate AllAway(cache: Cache, look: Look) {
    forall i :: 0 <= i < |look.stale| && look.stale[i].Publishes? ==> look.stale[i].snapshot.fetch.gen <= cache.generation
  }

  lemma FirstReadIsOwnIfAllAway(cache: Cache, ttl: nat, cluster: string, vmid: u32, look: Look)
    requires AllAway(cache, look)
    ensures BothReads(Dropped(cache, cluster, look), ttl, cluster, vmid, look).0
      == if look.first.answer.Some? then ReadFrom(look.first.answer.value.guests, vmid) else Unreadable
  {
    StalePublishersDecline(React(cache, Invalidates(Some(cluster))), look.stale, cluster);
  }

  /**
   * Invalidate, resolve, resolve again, as the plan and apply handlers do: both
   * answers exactly, and that they come from requests made since.
   */
  method ReadAnew(index: GuestIndex, cluster: string, vmid: u32, look: Look) returns (first: Resolved, second: Resolved)
    modifies index
    ensures (first, second) == BothReads(Dropped(old(index.View()), cluster, look), index.ttl, cluster, vmid, look)
    ensures ReadAfterBump(old(index.View()), index.ttl, cluster, vmid, look, first)
    ensures ReadAfterBump(old(index.View()), index.ttl, cluster, vmid, look, second)
    ensures AllAway(old(index.View()), look) ==>
      first == if look.first.answer.Some? then ReadFrom(look.first.answer.value.guests, vmid) else Unreadable
  {
    ghost var was := index.View();
    ReadsComeAfterTheBump(was, index.ttl, cluster, vmid, look);
    if AllAway(was, look) { FirstReadIsOwnIfAllAway(was, index.ttl, cluster, vmid, look); }
    index.InvalidateCluster(cluster);
    index.Await(look.stale);
    first, second := ReadTwice(index, cluster, vmid, look);
  }
}

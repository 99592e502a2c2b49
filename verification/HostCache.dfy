/** The cache and the table of calls in flight, as the proxy changes them. */
module HostCache {
  import opened Wrappers
  import opened HostModel

  class HostCache {
    var entries: seq<Entry>
    var inFlight: map<Host, Option<Reading>>

    constructor ()
      ensures entries == [] && inFlight == map[]
    {
      entries, inFlight := [], map[];
    }

    /** A key of the table, by its place in the order of insertion. */
    method Find(host: Host) returns (i: nat)
      ensures i == Position(entries, host)
    {
      i := 0;
      while i < |entries| && entries[i].host != host
        invariant i <= |entries|
        invariant forall j | 0 <= j < i :: entries[j].host != host
      {
        i := i + 1;
      }
    }

    /** `lireCache`. */
    method LireCache(host: Host, now: int) returns (reading: Option<Reading>)
      ensures reading == ReadEntry(entries, host, now)
    {
      var i := Find(host);
      if i == |entries| { return None; }
      return Some(Reading(entries[i].slug, now <= entries[i].until));
    }

    /** `ecrireCache`: delete, evict the first key of a full table, insert at the end. */
    method EcrireCache(host: Host, slug: Option<Slug>, now: int)
      modifies this`entries
      ensures entries == Written(old(entries), host, slug, now)
    {
      var i := Find(host);
      if i < |entries| {
        entries := entries[..i] + entries[i + 1..];
      }
      if |entries| >= CACHE_MAX {
        entries := entries[1..];
      }
      entries := entries + [Entry(host, slug, now + if slug.Some? then TTL_HIT_MS else TTL_MISS_MS)];
    }

    /** `resoudre`, up to its call; `call` says whether one leaves. */
    method Resoudre(host: Host, now: int) returns (verdict: Option<Verdict>, call: bool)
      modifies this`inFlight
      ensures forall said, turns ::
                var o := Asked(World(entries, old(inFlight), now, said, turns), host, now);
                inFlight == o.world.inFlight && verdict == o.verdict
      ensures call <==> verdict.None? && host !in old(inFlight)
    {
      var cached := LireCache(host, now);
      if cached.Some? && cached.value.live { return Some(FromSlug(cached.value.slug)), false; }
      if host in inFlight { return None, false; }
      inFlight := inFlight[host := cached];
      return None, true;
    }

    /** `interrogerApi`, from its answer: a 404 is an answer, anything else unbelievable is not. */
    method InterrogerApi(host: Host, reply: Reply, now: int) returns (verdict: Verdict)
      requires host in inFlight
      modifies this
      ensures forall clock, said, turns ::
                var o := Answered(World(old(entries), old(inFlight), clock, said, turns), host, reply, now);
                entries == o.world.entries && inFlight == o.world.inFlight && Some(verdict) == o.verdict
    {
      var stale := inFlight[host];
      match reply {
        case NotFound =>
          EcrireCache(host, None, now);
          verdict := Unknown;
        case Affirms(slug) =>
          if ValidSlug(slug) {
            EcrireCache(host, Some(slug), now);
            verdict := Restaurant(slug);
          } else {
            verdict := FallBack(stale);
          }
        case Silent =>
          verdict := FallBack(stale);
      }
      inFlight := inFlight - {host};
    }
  }
}

/** From a host to a restaurant: a bounded cache in insertion order, one call in flight per host, the last known
  * answer when the API says nothing. */
module HostModel {
  import opened Wrappers

  type Host = string
  type Slug = string

  const TTL_HIT_MS := 5 * 60_000
  const TTL_MISS_MS := 60_000
  const CACHE_MAX: nat := 500

  datatype Entry = Entry(host: Host, slug: Option<Slug>, until: int)

  /** The last known answer, fresh or not. */
  datatype Reading = Reading(slug: Option<Slug>, live: bool)

  datatype Verdict = Restaurant(slug: Slug) | Unknown

  /** What a call to the API brings: a slug, a 404, or nothing that can be believed. */
  datatype Reply = Affirms(slug: Slug) | NotFound | Silent

  /** A tenant slug: lower-case letters, digits and inner dashes, fifty at most. */
  predicate ValidSlug(s: Slug) {
    && 1 <= |s| <= 50
    && (forall i | 0 <= i < |s| :: 'a' <= s[i] <= 'z' || '0' <= s[i] <= '9' || s[i] == '-')
    && s[0] != '-' && s[|s| - 1] != '-'
  }

  function FromSlug(slug: Option<Slug>): Verdict {
    if slug.Some? then Restaurant(slug.value) else Unknown
  }

  /** `replier`. */
  function FallBack(stale: Option<Reading>): Verdict {
    if stale.Some? then FromSlug(stale.value.slug) else Unknown
  }

  function Position(entries: seq<Entry>, host: Host): (i: nat)
    ensures i <= |entries|
    ensures i < |entries| ==> entries[i].host == host
    ensures forall j | 0 <= j < i :: entries[j].host != host
  {
    First(entries, (e: Entry) => e.host == host)
  }

  /** `lireCache`. */
  function ReadEntry(entries: seq<Entry>, host: Host, now: int): Option<Reading> {
    var i := Position(entries, host);
    if i == |entries| then None else Some(Reading(entries[i].slug, now <= entries[i].until))
  }

  function Removed(entries: seq<Entry>, host: Host): seq<Entry> {
    var i := Position(entries, host);
    if i == |entries| then entries else entries[..i] + entries[i + 1..]
  }

  function Ttl(slug: Option<Slug>): int { if slug.Some? then TTL_HIT_MS else TTL_MISS_MS }

  /** `ecrireCache`: to the end of the line, the oldest leaving when the table is full. */
  function Written(entries: seq<Entry>, host: Host, slug: Option<Slug>, now: int): seq<Entry> {
    Room(Removed(entries, host)) + [Entry(host, slug, now + Ttl(slug))]
  }

  function Room(entries: seq<Entry>): seq<Entry> {
    if |entries| >= CACHE_MAX then entries[1..] else entries
  }

  // ─── Concurrent lookups ───

  /** What the API last said of a host, when, and as how many-eth. */
  datatype Said = Said(slug: Option<Slug>, at: int, turn: nat)

  datatype World = World(
    entries: seq<Entry>, inFlight: map<Host, Option<Reading>>, clock: int,
    said: map<Host, Said>, turns: nat)

  const START := World([], map[], 0, map[], 0)

  datatype Event =
    | Lookup(asked: Host, at: int)              // a request arrives
    | Answer(about: Host, reply: Reply, when: int)   // the call in flight for a host ends

  /** What a lookup or the end of a call gives to those who wait; a lookup may give nothing yet. */
  datatype Outcome = Outcome(world: World, verdict: Option<Verdict>)

  function Believed(reply: Reply): Option<Option<Slug>> {
    match reply
    case Affirms(slug) => if ValidSlug(slug) then Some(Some(slug)) else None
    case NotFound => Some(None)
    case Silent => None
  }

  /** `resoudre`, up to its call. */
  function Asked(w: World, host: Host, now: int): Outcome {
    var cached := ReadEntry(w.entries, host, now);
    if cached.Some? && cached.value.live then Outcome(w.(clock := now), Some(FromSlug(cached.value.slug)))
    else if host in w.inFlight then Outcome(w.(clock := now), None)
    else Outcome(w.(clock := now, inFlight := w.inFlight[host := cached]), None)
  }

  /** `interrogerApi`, from its answer. */
  function Answered(w: World, host: Host, reply: Reply, now: int): Outcome {
    if host !in w.inFlight then Outcome(w.(clock := now), None)
    else
      var landed := w.(clock := now, inFlight := w.inFlight - {host});
      var believed := Believed(reply);
      if believed.None? then Outcome(landed, Some(FallBack(w.inFlight[host])))
      else
        Outcome(landed.(entries := Written(w.entries, host, believed.value, now),
                        said := w.said[host := Said(believed.value, now, w.turns)], turns := w.turns + 1),
                Some(FromSlug(believed.value)))
  }

  function Step(w: World, e: Event): Outcome {
    match e
    case Lookup(asked, at) => Asked(w, asked, at)
    case Answer(about, reply, when) => Answered(w, about, reply, when)
  }

  function TimeOf(e: Event): int { if e.Lookup? then e.at else e.when }
  function HostOf(e: Event): Host { if e.Lookup? then e.asked else e.about }

  /** A step under a clock that does not go back. */
  predicate Link(w: World, e: Event, w': World) {
    w.clock <= TimeOf(e) && w' == Step(w, e).world
  }

  /** Any run of lookups and answers leads here. */
  ghost predicate Reachable(w: World) { Reaches(Link, START, w) }

  // ─── What every step keeps ───

  predicate UniqueHosts(entries: seq<Entry>) {
    forall i, j | 0 <= i < j < |entries| :: entries[i].host != entries[j].host
  }

  /** An entry is what the API last said of its host, and lives as long as that answer. */
  predicate Faithful(w: World, e: Entry) {
    && e.host in w.said && e.slug == w.said[e.host].slug
    && e.until == w.said[e.host].at + Ttl(e.slug) && w.said[e.host].at <= w.clock
    && w.said[e.host].turn < w.turns
  }

  function Turn(w: World, host: Host): nat { if host in w.said then w.said[host].turn else 0 }

  predicate Inv(w: World) {
    && |w.entries| <= CACHE_MAX && UniqueHosts(w.entries)
    && (forall i | 0 <= i < |w.entries| :: Faithful(w, w.entries[i]))
    && (forall i, j | 0 <= i < j < |w.entries| :: Turn(w, w.entries[i].host) < Turn(w, w.entries[j].host))
    && (forall host | host in w.inFlight && w.inFlight[host].Some? ::
          host in w.said && w.inFlight[host].value.slug == w.said[host].slug)
    && (forall host | host in w.said && w.said[host].slug.Some? :: ValidSlug(w.said[host].slug.value))
  }

  predicate Before(entries: seq<Entry>, a: Entry, b: Entry) {
    exists i, j :: 0 <= i < j < |entries| && entries[i] == a && entries[j] == b
  }

  /** Some of the entries, in their order, none of them about this host. */
  predicate Part(entries: seq<Entry>, part: seq<Entry>, host: Host) {
    && |part| <= |entries|
    && (forall i | 0 <= i < |part| :: part[i] in entries && part[i].host != host)
    && (forall i, j | 0 <= i < j < |part| :: Before(entries, part[i], part[j]))
  }

  /** Where an entry that stays stood before. */
  function Place(p: nat, i: nat): nat { if i < p then i else i + 1 }

  lemma RemovedAt(entries: seq<Entry>, host: Host, i: nat)
    requires Position(entries, host) < |entries| && i < |entries| - 1
    ensures var p := Position(entries, host);
            |Removed(entries, host)| == |entries| - 1 && Removed(entries, host)[i] == entries[Place(p, i)]
  {
  }

  lemma RemovedPart(entries: seq<Entry>, host: Host)
    requires UniqueHosts(entries)
    ensures Part(entries, Removed(entries, host), host)
  {
    var p := Position(entries, host);
    var rest := Removed(entries, host);
    if p < |entries| {
      forall i | 0 <= i < |rest| ensures rest[i] in entries && rest[i].host != host {
        RemovedAt(entries, host, i);
      }
      forall i, j | 0 <= i < j < |rest| ensures Before(entries, rest[i], rest[j]) {
        RemovedAt(entries, host, i);
        RemovedAt(entries, host, j);
        assert Place(p, i) < Place(p, j);
      }
    }
  }

  lemma TailPart(entries: seq<Entry>, part: seq<Entry>, host: Host)
    requires Part(entries, part, host) && part != []
    ensures Part(entries, part[1..], host)
  {
    forall i, j | 0 <= i < j < |part[1..]| ensures Before(entries, part[1..][i], part[1..][j]) {
      assert Before(entries, part[i + 1], part[j + 1]);
    }
  }

  lemma RoomPart(entries: seq<Entry>, host: Host)
    requires UniqueHosts(entries) && |entries| <= CACHE_MAX
    ensures Part(entries, Room(Removed(entries, host)), host) && |Room(Removed(entries, host))| < CACHE_MAX
  {
    RemovedPart(entries, host);
    if |Removed(entries, host)| >= CACHE_MAX {
      TailPart(entries, Removed(entries, host), host);
    }
  }

  /** The world once an answer about a host is believed. */
  function Heard(w: World, host: Host, slug: Option<Slug>, now: int): World {
    w.(clock := now, inFlight := w.inFlight - {host}, entries := Written(w.entries, host, slug, now),
       said := w.said[host := Said(slug, now, w.turns)], turns := w.turns + 1)
  }

  lemma OldStaysFaithful(w: World, host: Host, slug: Option<Slug>, now: int, e: Entry)
    requires Faithful(w, e) && e.host != host && w.clock <= now
    ensures Faithful(Heard(w, host, slug, now), e)
    ensures Turn(Heard(w, host, slug, now), e.host) == Turn(w, e.host) < w.turns
  {
  }

  lemma BeforeInTurn(w: World, a: Entry, b: Entry)
    requires Inv(w) && Before(w.entries, a, b)
    ensures a.host != b.host && Turn(w, a.host) < Turn(w, b.host)
  {
  }

  lemma PartFaithful(w: World, part: seq<Entry>, host: Host, i: nat)
    requires Inv(w) && Part(w.entries, part, host) && i < |part|
    ensures Faithful(w, part[i]) && part[i].host != host
  {
    var j :| 0 <= j < |w.entries| && w.entries[j] == part[i];
  }

  lemma HeardFaithful(w: World, host: Host, slug: Option<Slug>, now: int, i: nat)
    requires Inv(w) && w.clock <= now && i < |Written(w.entries, host, slug, now)|
    ensures Faithful(Heard(w, host, slug, now), Written(w.entries, host, slug, now)[i])
  {
    var part := Room(Removed(w.entries, host));
    RoomPart(w.entries, host);
    if i < |part| {
      PartFaithful(w, part, host, i);
      OldStaysFaithful(w, host, slug, now, part[i]);
    }
  }

  lemma HeardInOrder(w: World, host: Host, slug: Option<Slug>, now: int, i: nat, j: nat)
    requires Inv(w) && w.clock <= now && i < j < |Written(w.entries, host, slug, now)|
    ensures var w' := Heard(w, host, slug, now);
            w'.entries[i].host != w'.entries[j].host && Turn(w', w'.entries[i].host) < Turn(w', w'.entries[j].host)
  {
    var part := Room(Removed(w.entries, host));
    RoomPart(w.entries, host);
    PartFaithful(w, part, host, i);
    OldStaysFaithful(w, host, slug, now, part[i]);
    if j < |part| {
      PartFaithful(w, part, host, j);
      OldStaysFaithful(w, host, slug, now, part[j]);
      BeforeInTurn(w, part[i], part[j]);
    }
  }

  lemma HeardInv(w: World, host: Host, slug: Option<Slug>, now: int)
    requires Inv(w) && w.clock <= now && (slug.Some? ==> ValidSlug(slug.value))
    ensures Inv(Heard(w, host, slug, now))
  {
    var w' := Heard(w, host, slug, now);
    RoomPart(w.entries, host);
    forall i | 0 <= i < |w'.entries| ensures Faithful(w', w'.entries[i]) {
      HeardFaithful(w, host, slug, now, i);
    }
    forall i, j | 0 <= i < j < |w'.entries|
      ensures w'.entries[i].host != w'.entries[j].host && Turn(w', w'.entries[i].host) < Turn(w', w'.entries[j].host)
    {
      HeardInOrder(w, host, slug, now, i, j);
    }
  }

  /** Time passes and calls come and go; the table and what the API said stay. */
  lemma PassedInv(w: World, inFlight: map<Host, Option<Reading>>, now: int)
    requires Inv(w) && w.clock <= now
    requires forall host | host in inFlight && inFlight[host].Some? ::
               host in w.said && inFlight[host].value.slug == w.said[host].slug
    ensures Inv(w.(clock := now, inFlight := inFlight))
  {
    var w' := w.(clock := now, inFlight := inFlight);
    forall i | 0 <= i < |w.entries| ensures Faithful(w', w.entries[i]) {
      assert Faithful(w, w.entries[i]);
    }
    forall i, j | 0 <= i < j < |w.entries| ensures Turn(w', w.entries[i].host) < Turn(w', w.entries[j].host) {
      assert Turn(w, w.entries[i].host) < Turn(w, w.entries[j].host);
    }
  }

  lemma AskedInv(w: World, host: Host, now: int)
    requires Inv(w) && w.clock <= now
    ensures Inv(Asked(w, host, now).world)
  {
    var i := Position(w.entries, host);
    if i < |w.entries| {
      assert Faithful(w, w.entries[i]);
    }
    PassedInv(w, w.inFlight, now);
    PassedInv(w, w.inFlight[host := ReadEntry(w.entries, host, now)], now);
  }

  lemma StepInv(w: World, e: Event)
    requires Inv(w) && w.clock <= TimeOf(e)
    ensures Inv(Step(w, e).world)
  {
    match e
    case Lookup(asked, at) => AskedInv(w, asked, at);
    case Answer(about, reply, when) =>
      if about in w.inFlight && Believed(reply).Some? {
        HeardInv(w, about, Believed(reply).value, when);
      } else {
        PassedInv(w, w.inFlight, when);
        PassedInv(w, w.inFlight - {about}, when);
      }
  }

  lemma ReachableInv(w: World)
    requires Reachable(w)
    ensures Inv(w)
  {
    forall x, e, y | Link(x, e, y) && Inv(x) ensures Inv(y) {
      StepInv(x, e);
    }
    ReachKeeps(Link, Inv, START, w);
  }

  // ─── What follows ───

  /** Over any run of lookups, answers, failures and evictions: a restaurant is only ever given for a host of which the
    * API's latest believable answer is that restaurant. */
  lemma OnlyTheLatestAnswer(w: World, e: Event)
    requires Reachable(w) && w.clock <= TimeOf(e)
    requires var o := Step(w, e); o.verdict.Some? && o.verdict.value.Restaurant?
    ensures var o := Step(w, e);
            && HostOf(e) in o.world.said
            && o.world.said[HostOf(e)].slug == Some(o.verdict.value.slug) && ValidSlug(o.verdict.value.slug)
  {
    ReachableInv(w);
    StepInv(w, e);
    if e.Lookup? {
      var i := Position(w.entries, e.asked);
      assert Faithful(w, w.entries[i]);
    }
  }

  /** The table never exceeds its bound, holds a host once, and is in the order of the answers: what is evicted is the
    * host about which the API spoke longest ago. */
  lemma TableBounded(w: World, i: nat, j: nat)
    requires Reachable(w) && i < j < |w.entries|
    ensures |w.entries| <= CACHE_MAX && w.entries[i].host != w.entries[j].host
    ensures w.entries[i].host in w.said && w.entries[j].host in w.said
    ensures w.said[w.entries[i].host].turn < w.said[w.entries[j].host].turn
  {
    ReachableInv(w);
    assert Faithful(w, w.entries[i]) && Faithful(w, w.entries[j]);
    assert Turn(w, w.entries[i].host) < Turn(w, w.entries[j].host);
  }

  /** A lookup that does not wait gives an answer of at most five minutes, or one minute when it is a refusal. */
  lemma ImmediateAnswersAreRecent(w: World, host: Host, now: int)
    requires Reachable(w) && w.clock <= now && Asked(w, host, now).verdict.Some?
    ensures var verdict := Asked(w, host, now).verdict.value;
            && host in w.said && verdict == FromSlug(w.said[host].slug)
            && now - w.said[host].at <= if verdict.Restaurant? then TTL_HIT_MS else TTL_MISS_MS
  {
    ReachableInv(w);
    var i := Position(w.entries, host);
    assert Faithful(w, w.entries[i]);
  }

  /** While a call is in flight for a host, every other lookup of it waits for that one: no second call leaves. */
  lemma OneCallPerHost(w: World, host: Host, now: int)
    requires host in w.inFlight
    ensures Asked(w, host, now).world.inFlight == w.inFlight
  {
  }

  /** When the API says nothing, those who waited get the last thing it said of the host when the call left, expired or
    * not; without one they get nothing. */
  lemma SilenceRepeatsTheLastAnswer(w: World, host: Host, now: int)
    requires Reachable(w) && host in w.inFlight
    ensures var o := Answered(w, host, Silent, now);
            && o.world.entries == w.entries && o.world.said == w.said
            && o.verdict == Some(if w.inFlight[host].Some? && host in w.said then FromSlug(w.said[host].slug) else Unknown)
  {
    ReachableInv(w);
  }

  /** What the end of a call gives and leaves: a 404 refuses the host for a minute, a slug that can be one serves the
    * restaurant for five, and takes the last place in the table; the other hosts stay, but the first one when the table
    * is full; anything else changes no entry. */
  lemma AnswersAreKept(w: World, host: Host, reply: Reply, now: int)
    requires Reachable(w) && host in w.inFlight
    requires reply.NotFound? || (reply.Affirms? && ValidSlug(reply.slug))
    ensures var o := Answered(w, host, reply, now);
            var es, last := o.world.entries, |o.world.entries| - 1;
            && o.verdict == Some(if reply.NotFound? then Unknown else Restaurant(reply.slug))
            && es != [] && es[last] == (if reply.NotFound? then Entry(host, None, now + 60_000)
                                        else Entry(host, Some(reply.slug), now + 300_000))
            && o.world.inFlight == w.inFlight - {host}
            && (forall e | e in w.entries && e.host != host ::
                  e in es || (|w.entries| == CACHE_MAX && e == w.entries[0] && forall x | x in w.entries :: x.host != host))
  {
    ReachableInv(w);
    forall e | e in w.entries && e.host != host
      ensures e in Answered(w, host, reply, now).world.entries
              || (|w.entries| == CACHE_MAX && e == w.entries[0] && forall x | x in w.entries :: x.host != host)
    {
      OthersStay(w.entries, host, if reply.NotFound? then None else Some(reply.slug), now, e);
    }
  }

  lemma OthersStay(entries: seq<Entry>, host: Host, slug: Option<Slug>, now: int, e: Entry)
    requires |entries| <= CACHE_MAX && e in entries && e.host != host
    ensures e in Written(entries, host, slug, now)
            || (|entries| == CACHE_MAX && e == entries[0] && forall x | x in entries :: x.host != host)
  {
    var rest := Removed(entries, host);
    RemovedKeeps(entries, host, e);
    if |rest| >= CACHE_MAX {
      assert rest == entries && rest == [rest[0]] + rest[1..];
    } else {
      assert e in Room(rest);
    }
  }

  lemma RemovedKeeps(entries: seq<Entry>, host: Host, e: Entry)
    requires e in entries && e.host != host
    ensures e in Removed(entries, host)
  {
    var p := Position(entries, host);
    if p < |entries| {
      assert entries == entries[..p] + [entries[p]] + entries[p + 1..];
    }
  }

  /** A reply that cannot be believed changes no entry. */
  lemma DisbeliefChangesNothing(w: World, host: Host, reply: Reply, now: int)
    requires host in w.inFlight && (reply.Silent? || (reply.Affirms? && !ValidSlug(reply.slug)))
    ensures Answered(w, host, reply, now) == Answered(w, host, Silent, now)
    ensures Answered(w, host, reply, now).world.entries == w.entries
  {
  }

  /** A lookup is answered at once exactly while the last entry of its host lives; otherwise it waits for the call in
    * flight, or for the one that leaves with it. */
  lemma LookupAnswers(w: World, host: Host, now: int)
    requires Reachable(w)
    ensures var o := Asked(w, host, now);
            && o.world.entries == w.entries
            && (o.verdict.Some? <==> exists i :: 0 <= i < |w.entries| && w.entries[i].host == host && now <= w.entries[i].until)
            && (forall i | 0 <= i < |w.entries| && w.entries[i].host == host && now <= w.entries[i].until ::
                  o.verdict == Some(if w.entries[i].slug.Some? then Restaurant(w.entries[i].slug.value) else Unknown)
                  && o.world.inFlight == w.inFlight)
            && (o.verdict.None? ==> o.world.inFlight.Keys == w.inFlight.Keys + {host})
  {
    ReachableInv(w);
    var p := Position(w.entries, host);
  }
}

/** What the prefixes of the write plans leave on the disk, and what the list functions keep. */
module QueueFacts {
  import opened Wrappers
  import opened QueueModel

  predicate LegacyOnly(w: Write) {
    w.PutLegacyEntries? || w.PutLegacyRejected? || w.DropLegacyEntries? || w.DropLegacyRejected?
  }

  lemma {:induction false} LegacyWritesKeep(d: Disk, ws: seq<Write>)
    requires forall i | 0 <= i < |ws| :: LegacyOnly(ws[i])
    ensures ApplyAll(d, ws).v2 == d.v2 && ApplyAll(d, ws).items == d.items
  {
    if ws != [] {
      LegacyWritesKeep(d, ws[..|ws| - 1]);
      assert LegacyOnly(ws[|ws| - 1]);
    }
  }

  lemma {:induction false} ApplyAllConcat(d: Disk, ws: seq<Write>, vs: seq<Write>)
    ensures ApplyAll(d, ws + vs) == ApplyAll(ApplyAll(d, ws), vs)
  {
    if vs == [] {
      assert ws + vs == ws;
    } else {
      ApplyAllConcat(d, ws, vs[..|vs| - 1]);
      assert (ws + vs)[..|ws + vs| - 1] == ws + vs[..|vs| - 1];
      assert (ws + vs)[|ws + vs| - 1] == vs[|vs| - 1];
    }
  }

  /** The next write of a plan, performed, is one more write of its prefix. */
  lemma Performed(d: Disk, plan: seq<Write>, k: nat)
    requires k < |plan|
    ensures ApplyAll(d, Prefix(plan, k + 1)) == Apply(ApplyAll(d, Prefix(plan, k)), plan[k])
  {
    assert Prefix(plan, k + 1)[..k] == Prefix(plan, k);
    assert Prefix(plan, k + 1) == plan[..k + 1];
  }

  /** Once its first write is on the disk, a snapshot is durable whatever the clean-up does. */
  lemma PersistLands(d: Disk, s: Snapshot, cleanup: bool, k: nat)
    requires 1 <= k
    ensures var d' := ApplyAll(d, Prefix(PersistPlan(s, cleanup), k));
            d'.v2 == Some(s) && Current(d') == s && d'.items == d.items
  {
    var ws := Prefix(PersistPlan(s, cleanup), k);
    assert ws == ws[..1] + ws[1..];
    assert ws[..1] == [PutV2(s)];
    ApplyAllConcat(d, [PutV2(s)], ws[1..]);
    assert [PutV2(s)][..0] == [];
    assert ApplyAll(d, [PutV2(s)]) == Apply(d, PutV2(s));
    LegacyWritesKeep(Apply(d, PutV2(s)), ws[1..]);
  }

  /** The v1 keys are overwritten before the tombstone; before its third write a purge has purged nothing. */
  lemma WipeLands(d: Disk, q: Queue, epoch: int, run: WipeRun)
    ensures var r := Wipe(d, q, epoch, run);
            && r.disk.items == d.items
            && (r.verdict == Done || r.verdict == Refused)
            && (r.verdict == Done ==> r.disk.v2 == Some(Tombstone(q, epoch)))
            && (r.verdict == Refused ==> r.disk.v2 == d.v2 && r.queue == q)
  {
    if run.kept < 3 {
      WipeStarts(d, q, epoch, run.kept);
    } else {
      TombstoneLands(d, q, epoch, run.kept);
    }
  }

  /** Up to its second write a purge only touches the v1 keys. */
  lemma WipeStarts(d: Disk, q: Queue, epoch: int, kept: nat)
    requires kept < 3
    ensures var d' := ApplyAll(d, Prefix(WipePlan(q, epoch), kept)); d'.v2 == d.v2 && d'.items == d.items
  {
    var first := [PutLegacyEntries([]), PutLegacyRejected([])];
    var ws := Prefix(WipePlan(q, epoch), kept);
    assert ws == first[..kept];
    LegacyWritesKeep(d, ws);
  }

  lemma TombstoneLands(d: Disk, q: Queue, epoch: int, kept: nat)
    requires 3 <= kept
    ensures var d' := ApplyAll(d, Prefix(WipePlan(q, epoch), kept));
            d'.v2 == Some(Tombstone(q, epoch)) && d'.items == d.items
  {
    var first := [PutLegacyEntries([]), PutLegacyRejected([])];
    var rest := Prefix(PersistPlan(Tombstone(q, epoch), q.legacyCleanup), kept - 2);
    assert Prefix(WipePlan(q, epoch), kept) == first + rest;
    ApplyAllConcat(d, first, rest);
    LegacyWritesKeep(d, first);
    PersistLands(ApplyAll(d, first), Tombstone(q, epoch), q.legacyCleanup, kept - 2);
  }

  lemma {:induction false} UnacknowledgedFacts(rejected: seq<Rejected>, ids: set<Id>)
    ensures forall r :: r in Unacknowledged(rejected, ids) <==> r in rejected && r.id !in ids
  {
    if rejected != [] {
      UnacknowledgedFacts(rejected[1..], ids);
      assert rejected == [rejected[0]] + rejected[1..];
    }
  }

  predicate DistinctRejected(rs: seq<Rejected>) {
    forall i, j | 0 <= i < j < |rs| :: rs[i].id != rs[j].id
  }

  lemma ConsDistinct(r: Rejected, rest: seq<Rejected>)
    requires DistinctRejected(rest) && r.id !in RejectedIds(rest)
    ensures DistinctRejected([r] + rest)
  {
    var rs := [r] + rest;
    forall i, j | 0 <= i < j < |rs| ensures rs[i].id != rs[j].id {
      assert rs[j] == rest[j - 1];
    }
  }

  /** A sublist of the rejections keeps its ids unique. */
  lemma {:induction false} UnacknowledgedUnique(rejected: seq<Rejected>, ids: set<Id>)
    requires DistinctRejected(rejected)
    ensures DistinctRejected(Unacknowledged(rejected, ids))
  {
    if rejected != [] {
      var rest := Unacknowledged(rejected[1..], ids);
      UnacknowledgedUnique(rejected[1..], ids);
      UnacknowledgedFacts(rejected[1..], ids);
      if rejected[0].id !in ids {
        forall j | 0 <= j < |rest| ensures rejected[0].id != rest[j].id {
          assert rest[j] in rest;
          var m :| 0 <= m < |rejected[1..]| && rejected[1..][m] == rest[j];
        }
        ConsDistinct(rejected[0], rest);
      }
    }
  }

  /** The entries that stay are the entries without a final outcome, each at most marked as retried. */
  predicate Survives(e: Entry, outcomes: map<Id, Outcome>) {
    e.id !in outcomes || outcomes[e.id].Temporary?
  }

  /** The mutation itself, field by field. */
  predicate SamePayload(x: Entry, e: Entry) {
    && x.id == e.id && x.verb == e.verb && x.path == e.path && x.body == e.body
    && x.subject == e.subject && x.displayAmount == e.displayAmount && x.createdAt == e.createdAt
  }

  /** What a rejection keeps of the entry that it closes. */
  predicate Refuses(r: Rejected, e: Entry) {
    r.id == e.id && r.path == e.path && r.body == e.body && r.displayAmount == e.displayAmount
  }

  /** What stays of an entry: the mutation itself, and one more attempt with its error if it was tried. */
  predicate KeptAs(x: Entry, e: Entry, outcomes: map<Id, Outcome>) {
    && SamePayload(x, e)
    && if e.id in outcomes
       then outcomes[e.id].Temporary? && x.attempts == e.attempts + 1 && x.lastError == Some(outcomes[e.id].error)
       else x.attempts == e.attempts && x.lastError == e.lastError
  }

  lemma {:induction false} StillQueuedFrom(entries: seq<Entry>, outcomes: map<Id, Outcome>, x: Entry) returns (e: Entry)
    requires x in StillQueued(entries, outcomes)
    ensures e in entries && KeptAs(x, e, outcomes)
  {
    assert entries == [entries[0]] + entries[1..];
    if x in StillQueued(entries[1..], outcomes) {
      e := StillQueuedFrom(entries[1..], outcomes, x);
    } else {
      e := entries[0];
    }
  }

  lemma {:induction false} StillQueuedKeeps(entries: seq<Entry>, outcomes: map<Id, Outcome>, e: Entry) returns (x: Entry)
    requires e in entries && Survives(e, outcomes)
    ensures x in StillQueued(entries, outcomes) && KeptAs(x, e, outcomes)
  {
    if e == entries[0] {
      x := StillQueued(entries, outcomes)[0];
    } else {
      assert entries == [entries[0]] + entries[1..];
      x := StillQueuedKeeps(entries[1..], outcomes, e);
    }
  }

  /** A commit keeps the mutation of every entry that stays, and keeps every entry without a final outcome. */
  lemma StillQueuedKeepsPayload(entries: seq<Entry>, outcomes: map<Id, Outcome>)
    ensures forall x | x in StillQueued(entries, outcomes) :: exists e :: e in entries && KeptAs(x, e, outcomes)
    ensures forall e | e in entries && (e.id in outcomes ==> outcomes[e.id].Temporary?) ::
              exists x :: x in StillQueued(entries, outcomes) && KeptAs(x, e, outcomes)
  {
    forall x | x in StillQueued(entries, outcomes) ensures exists e :: e in entries && KeptAs(x, e, outcomes) {
      var e := StillQueuedFrom(entries, outcomes, x);
    }
    forall e | e in entries && (e.id in outcomes ==> outcomes[e.id].Temporary?)
      ensures exists x :: x in StillQueued(entries, outcomes) && KeptAs(x, e, outcomes)
    {
      var x := StillQueuedKeeps(entries, outcomes, e);
    }
  }

  /** Some strictly increasing positions: the order of a list survives in every sublist cut by outcomes. */
  predicate SortedBy(entries: seq<Entry>, rank: map<Id, nat>) {
    && (forall i | 0 <= i < |entries| :: entries[i].id in rank)
    && (forall i, j | 0 <= i < j < |entries| :: rank[entries[i].id] < rank[entries[j].id])
  }

  lemma ConsSorted(e: Entry, rest: seq<Entry>, rank: map<Id, nat>)
    requires SortedBy(rest, rank) && e.id in rank
    requires forall j | 0 <= j < |rest| :: rank[e.id] < rank[rest[j].id]
    ensures SortedBy([e] + rest, rank)
  {
    var es := [e] + rest;
    assert forall j | 0 < j < |es| :: es[j] == rest[j - 1];
  }

  lemma {:induction false} StillQueuedSorted(entries: seq<Entry>, outcomes: map<Id, Outcome>, rank: map<Id, nat>)
    requires SortedBy(entries, rank)
    ensures SortedBy(StillQueued(entries, outcomes), rank)
  {
    if entries != [] {
      var rest := StillQueued(entries[1..], outcomes);
      StillQueuedSorted(entries[1..], outcomes, rank);
      if Survives(entries[0], outcomes) {
        var first := StillQueued(entries, outcomes)[0];
        assert StillQueued(entries, outcomes) == [first] + rest;
        forall j | 0 <= j < |rest| ensures rank[first.id] < rank[rest[j].id] {
          var e := StillQueuedFrom(entries[1..], outcomes, rest[j]);
          var k :| 0 <= k < |entries[1..]| && entries[1..][k] == e;
        }
        ConsSorted(first, rest, rank);
      }
    }
  }

  lemma {:induction false} NewlyRejectedFacts(entries: seq<Entry>, outcomes: map<Id, Outcome>)
    ensures forall r :: r in NewlyRejected(entries, outcomes)
                    <==> exists e :: e in entries && e.id in outcomes && outcomes[e.id] == Permanent(r)
  {
    if entries != [] {
      var n := |entries| - 1;
      NewlyRejectedFacts(entries[..n], outcomes);
      assert entries == entries[..n] + [entries[n]];
    }
  }

  /** Each rejection carries the id of the entry it closes, so distinct entries give distinct ids. */
  predicate OutcomesCarryIds(outcomes: map<Id, Outcome>) {
    forall id | id in outcomes && outcomes[id].Permanent? :: outcomes[id].rejected.id == id
  }

  lemma {:induction false} NewlyRejectedUnique(entries: seq<Entry>, outcomes: map<Id, Outcome>)
    requires forall i, j | 0 <= i < j < |entries| :: entries[i].id != entries[j].id
    requires OutcomesCarryIds(outcomes)
    ensures DistinctRejected(NewlyRejected(entries, outcomes))
  {
    if entries != [] {
      var n := |entries| - 1;
      var rest := NewlyRejected(entries[..n], outcomes);
      var rs := NewlyRejected(entries, outcomes);
      NewlyRejectedUnique(entries[..n], outcomes);
      NewlyRejectedFacts(entries[..n], outcomes);
      if rs != rest {
        assert rs == [rs[0]] + rest;
        forall j | 0 <= j < |rest| ensures rs[0].id != rest[j].id {
          assert rest[j] in rest;
          var m :| 0 <= m < |entries[..n]| && entries[..n][m].id in outcomes
                   && outcomes[entries[..n][m].id] == Permanent(rest[j]);
        }
        ConsDistinct(rs[0], rest);
      }
    }
  }

  function SentCount(entries: seq<Entry>, outcomes: map<Id, Outcome>): nat {
    if entries == [] then 0
    else SentCount(entries[1..], outcomes)
         + if entries[0].id in outcomes && outcomes[entries[0].id].Sent? then 1 else 0
  }

  function PermanentCount(entries: seq<Entry>, outcomes: map<Id, Outcome>): nat {
    if entries == [] then 0
    else PermanentCount(entries[1..], outcomes)
         + if entries[0].id in outcomes && outcomes[entries[0].id].Permanent? then 1 else 0
  }

  lemma {:induction false} PermanentCountAppend(entries: seq<Entry>, e: Entry, outcomes: map<Id, Outcome>)
    ensures PermanentCount(entries + [e], outcomes)
         == PermanentCount(entries, outcomes) + if e.id in outcomes && outcomes[e.id].Permanent? then 1 else 0
  {
    if entries == [] {
      assert entries + [e] == [e];
      assert [e][1..] == [];
    } else {
      PermanentCountAppend(entries[1..], e, outcomes);
      assert (entries + [e])[1..] == entries[1..] + [e];
    }
  }

  lemma {:induction false} NewlyRejectedLength(entries: seq<Entry>, outcomes: map<Id, Outcome>)
    ensures |NewlyRejected(entries, outcomes)| == PermanentCount(entries, outcomes)
  {
    if entries != [] {
      var n := |entries| - 1;
      NewlyRejectedLength(entries[..n], outcomes);
      PermanentCountAppend(entries[..n], entries[n], outcomes);
      assert entries == entries[..n] + [entries[n]];
    }
  }

  lemma {:induction false} StillQueuedLength(entries: seq<Entry>, outcomes: map<Id, Outcome>)
    ensures |StillQueued(entries, outcomes)| + PermanentCount(entries, outcomes) + SentCount(entries, outcomes) == |entries|
  {
    if entries != [] {
      StillQueuedLength(entries[1..], outcomes);
    }
  }

  /** Conservation: what a commit takes off the two lists together is exactly what the server confirmed. */
  lemma CommitConserves(entries: seq<Entry>, rejected: seq<Rejected>, outcomes: map<Id, Outcome>)
    ensures |StillQueued(entries, outcomes)| + |NewlyRejected(entries, outcomes) + rejected|
         == |entries| + |rejected| - SentCount(entries, outcomes)
  {
    StillQueuedLength(entries, outcomes);
    NewlyRejectedLength(entries, outcomes);
  }
}

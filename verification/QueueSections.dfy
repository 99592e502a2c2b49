/** The critical sections of the data steps, seen through the invariant. */
module QueueSections {
  import opened Wrappers
  import opened QueueModel
  import opened QueueFacts
  import opened QueueWorld
  import opened QueueInvariant
  import FlushPass

  predicate InSync(d: Disk, q: Queue) {
    var s := Current(d);
    && Matches(q, s) && q.retired == s.retired && q.purgePending == s.purgePending
    && q.entries == s.entries && q.rejected == s.rejected
  }

  lemma RefreshFacts(d: Disk, q: Queue)
    requires DiskInv(d) && QueueInv(d, q)
    ensures var r := Refresh(d, q);
            && r.disk == d
            && (r.verdict == Done || r.verdict == ScopeChanged)
            && (r.verdict == Done <==> Matches(q, Current(d)))
            && (r.verdict == Done ==> InSync(d, r.queue) && r.queue.invalidated == q.invalidated)
            && (r.verdict != Done ==> r.queue == Invalidate(q))
            && BindingFrame(q, r.queue) && QueueInv(d, r.queue)
  {
  }

  /** A window in sync with the disk changes the two lists and nothing else that is durable. */
  lemma PersistFacts(d: Disk, q: Queue, entries: seq<Entry>, rejected: seq<Rejected>, k: nat, published: bool)
    requires DiskInv(d) && QueueInv(d, q) && InSync(d, q) && ValidLists(entries, rejected)
    ensures var r := Persist(d, q, entries, rejected, k, published);
            && (r.verdict == Done <==> 0 < k) && (r.verdict == Refused <==> k == 0)
            && (k == 0 ==> r.disk == d && r.queue == q)
            && (0 < k ==> Current(r.disk).entries == entries && Current(r.disk).rejected == rejected)
            && r.disk.items == d.items
            && ScopeFrame(d, r.disk) && DiskInv(r.disk)
            && BindingFrame(q, r.queue) && QueueInv(r.disk, r.queue) && r.queue.invalidated == q.invalidated
  {
    if 0 < k {
      PersistLands(d, SnapshotOf(q, entries, rejected), q.legacyCleanup, k);
    }
  }

  lemma AppendValid(entries: seq<Entry>, rejected: seq<Rejected>, e: Entry)
    requires ValidLists(entries, rejected) && ValidEntry(e)
    requires e.id !in EntryIds(entries) && e.id !in RejectedIds(rejected)
    ensures ValidLists(entries + [e], rejected)
    ensures EntryIds(entries + [e]) == EntryIds(entries) + {e.id}
  {
    var es := entries + [e];
    assert es[|entries|] == e;
    assert forall i | 0 <= i < |entries| :: es[i] == entries[i];
    assert forall i | 0 <= i < |entries| :: entries[i].id in EntryIds(entries);
    assert forall i | 0 <= i < |rejected| :: rejected[i].id in RejectedIds(rejected);
  }

  lemma UnacknowledgedValid(entries: seq<Entry>, rejected: seq<Rejected>, ids: set<Id>)
    requires ValidLists(entries, rejected)
    ensures ValidLists(entries, Unacknowledged(rejected, ids))
    ensures RejectedIds(Unacknowledged(rejected, ids)) == RejectedIds(rejected) - ids
  {
    var rs := Unacknowledged(rejected, ids);
    UnacknowledgedFacts(rejected, ids);
    UnacknowledgedUnique(rejected, ids);
    forall i | 0 <= i < |rs| ensures ValidRejected(rs[i]) && rs[i].id in RejectedIds(rejected) - ids {
      assert rs[i] in rejected;
    }
    forall i, j | 0 <= i < |entries| && 0 <= j < |rs| ensures entries[i].id != rs[j].id {
      assert rs[j] in rejected;
    }
    forall id | id in RejectedIds(rejected) - ids ensures id in RejectedIds(rs) {
      var m :| 0 <= m < |rejected| && rejected[m].id == id;
      assert rejected[m] in rs;
    }
  }

  predicate FinalOutcomes(outcomes: map<Id, Outcome>) {
    forall id | id in outcomes && outcomes[id].Permanent? ::
      outcomes[id].rejected.id == id && ValidRejected(outcomes[id].rejected)
  }

  lemma StillQueuedValid(entries: seq<Entry>, outcomes: map<Id, Outcome>)
    requires ValidLists(entries, [])
    ensures ValidLists(StillQueued(entries, outcomes), [])
  {
    var es := StillQueued(entries, outcomes);
    var rank: map<Id, nat> := map i | 0 <= i < |entries| :: entries[i].id := i;
    assert SortedBy(entries, rank);
    StillQueuedSorted(entries, outcomes, rank);
    forall i | 0 <= i < |es| ensures ValidEntry(es[i]) {
      var e := StillQueuedFrom(entries, outcomes, es[i]);
    }
  }

  lemma NewlyRejectedOrigin(entries: seq<Entry>, outcomes: map<Id, Outcome>, r: Rejected)
    requires FinalOutcomes(outcomes) && r in NewlyRejected(entries, outcomes)
    ensures ValidRejected(r) && r.id in EntryIds(entries) && r.id in outcomes && outcomes[r.id] == Permanent(r)
  {
    NewlyRejectedFacts(entries, outcomes);
  }

  lemma ConcatDistinct(a: seq<Rejected>, b: seq<Rejected>)
    requires DistinctRejected(a) && DistinctRejected(b) && RejectedIds(a) !! RejectedIds(b)
    ensures DistinctRejected(a + b)
  {
    var rs := a + b;
    forall i, j | 0 <= i < j < |rs| ensures rs[i].id != rs[j].id {
      if i < |a| <= j {
        assert a[i].id in RejectedIds(a) && b[j - |a|].id in RejectedIds(b);
      }
    }
  }

  /** Whatever two windows found out about the same entries, the committed lists can be read back. */
  lemma CommitValid(entries: seq<Entry>, rejected: seq<Rejected>, outcomes: map<Id, Outcome>)
    requires ValidLists(entries, rejected) && FinalOutcomes(outcomes)
    ensures ValidLists(StillQueued(entries, outcomes), NewlyRejected(entries, outcomes) + rejected)
  {
    var es := StillQueued(entries, outcomes);
    var added := NewlyRejected(entries, outcomes);
    StillQueuedValid(entries, outcomes);
    NewlyRejectedUnique(entries, outcomes);
    forall j | 0 <= j < |added|
      ensures ValidRejected(added[j]) && added[j].id in EntryIds(entries) && added[j].id !in RejectedIds(rejected)
    {
      NewlyRejectedOrigin(entries, outcomes, added[j]);
    }
    ConcatDistinct(added, rejected);
    forall i, j | 0 <= i < |es| && 0 <= j < |added + rejected| ensures es[i].id != (added + rejected)[j].id {
      var e := StillQueuedFrom(entries, outcomes, es[i]);
      if j < |added| {
        NewlyRejectedOrigin(entries, outcomes, added[j]);
      }
    }
  }

  /** Where the ids of the queue go in a commit. */
  lemma CommitIds(entries: seq<Entry>, rejected: seq<Rejected>, outcomes: map<Id, Outcome>, id: Id)
    requires OutcomesCarryIds(outcomes)
    ensures id in EntryIds(StillQueued(entries, outcomes))
            <==> id in EntryIds(entries) && (id !in outcomes || outcomes[id].Temporary?)
    ensures id in RejectedIds(NewlyRejected(entries, outcomes) + rejected)
            <==> id in RejectedIds(rejected) || (id in EntryIds(entries) && id in outcomes && outcomes[id].Permanent?)
  {
    var es := StillQueued(entries, outcomes);
    var fresh' := NewlyRejected(entries, outcomes);
    var rs := fresh' + rejected;
    NewlyRejectedFacts(entries, outcomes);
    if id in EntryIds(es) {
      var m :| 0 <= m < |es| && es[m].id == id;
      var e := StillQueuedFrom(entries, outcomes, es[m]);
    }
    if id in EntryIds(entries) {
      var m :| 0 <= m < |entries| && entries[m].id == id;
      if Survives(entries[m], outcomes) {
        var x := StillQueuedKeeps(entries, outcomes, entries[m]);
      } else if outcomes[id].Permanent? {
        assert outcomes[id].rejected in fresh';
        assert outcomes[id].rejected in rs;
      }
    }
    if id in RejectedIds(rs) {
      var m :| 0 <= m < |rs| && rs[m].id == id;
      if m < |fresh'| {
        assert fresh'[m] in fresh';
      }
    }
    if id in RejectedIds(rejected) {
      var m :| 0 <= m < |rejected| && rejected[m].id == id;
      assert rs[|fresh'| + m] == rejected[m];
    }
  }
}

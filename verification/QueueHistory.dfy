/** How each step moves the history, and why no pass is disturbed by a history that grows. */
module QueueHistory {
  import opened Wrappers
  import opened QueueModel
  import opened QueueFacts
  import opened QueueWorld
  import opened QueueInvariant
  import opened QueueSections
  import FlushPass

  lemma ExtendsSelf(past: History)
    ensures Extends(past, past)
  {
  }

  /** The rest of the history as it was, the two lists as they were. */
  lemma PastUnmoved(d: Disk, d': Disk, past: History, protect: bool)
    requires PastInv(d, past, protect)
    requires Current(d').entries == Current(d).entries && Current(d').rejected == Current(d).rejected
    ensures PastInv(d', past, protect)
  {
  }

  lemma SortedUnder(entries: seq<Entry>, past: History, past': History)
    requires SortedBy(entries, Ranks(past)) && Extends(past, past')
    ensures SortedBy(entries, Ranks(past'))
  {
  }

  lemma BirthExtends(past: History, e: Entry)
    requires e.id !in past.born
    ensures Extends(past, BirthOf(past, e))
  {
  }

  lemma SortedAppend(es: seq<Entry>, e: Entry, rank: map<Id, nat>)
    requires SortedBy(es, rank) && e.id in rank
    requires forall i | 0 <= i < |es| :: rank[es[i].id] < rank[e.id]
    ensures SortedBy(es + [e], rank)
  {
    forall i | 0 <= i < |es + [e]| ensures (es + [e])[i].id in rank {
      if i < |es| {
        assert (es + [e])[i] == es[i];
      }
    }
  }

  /** A committed enqueue is the youngest of its queue. */
  lemma EnqueuePast(d: Disk, d': Disk, past: History, e: Entry, protect: bool)
    requires PastInv(d, past, protect) && e.id !in past.born
    requires Current(d').entries == Current(d).entries + [e] && Current(d').rejected == Current(d).rejected
    requires EntryIds(Current(d').entries) == EntryIds(Current(d).entries) + {e.id}
    ensures PastInv(d', BirthOf(past, e), protect) && Extends(past, BirthOf(past, e))
  {
    var past' := BirthOf(past, e);
    var es, es' := Current(d).entries, Current(d').entries;
    BirthExtends(past, e);
    SortedUnder(es, past, past');
    forall i | 0 <= i < |es|
      ensures es'[i] == es[i] && es[i].id in past.born && es[i].id != e.id
      ensures past'.born[es[i].id] == past.born[es[i].id]
    {
      assert es[i].id in EntryIds(es);
    }
    assert SortedBy(es', Ranks(past')) by {
      SortedAppend(es, e, Ranks(past'));
    }
    forall i | 0 <= i < |es'| ensures SamePayload(es'[i], past'.born[es'[i].id].entry) {
      if i < |es| {
        assert SamePayload(es[i], past.born[es[i].id].entry);
      }
    }
    forall i | 0 <= i < |Current(d).rejected| ensures Ruled(past', Current(d).rejected[i]) {
      assert Ruled(past, Current(d).rejected[i]);
    }
  }

  lemma AcknowledgePast(d: Disk, d': Disk, past: History, ids: set<Id>, protect: bool)
    requires PastInv(d, past, protect)
    requires Current(d').entries == Current(d).entries
    requires forall r | r in Current(d').rejected :: r in Current(d).rejected
    requires RejectedIds(Current(d').rejected) == RejectedIds(Current(d).rejected) - ids
    ensures PastInv(d', Acked(past, d, ids), protect) && Extends(past, Acked(past, d, ids))
  {
    var rs := Current(d').rejected;
    forall i | 0 <= i < |rs| ensures Ruled(Acked(past, d, ids), rs[i]) {
      assert rs[i] in Current(d).rejected;
    }
  }

  lemma AnswerPast(d: Disk, past: History, id: Id, reply: FlushPass.Reply, protect: bool)
    requires PastInv(d, past, protect)
    ensures PastInv(d, Answers(past, id, reply), protect) && Extends(past, Answers(past, id, reply))
  {
  }

  function Finals(outcomes: map<Id, Outcome>): set<Id> {
    set id | id in outcomes && !outcomes[id].Temporary?
  }

  function Permanents(outcomes: map<Id, Outcome>): set<Id> {
    set id | id in outcomes && outcomes[id].Permanent?
  }

  lemma CommitIdSets(es: seq<Entry>, rs: seq<Rejected>, outcomes: map<Id, Outcome>)
    requires OutcomesCarryIds(outcomes)
    ensures EntryIds(StillQueued(es, outcomes)) == EntryIds(es) - Finals(outcomes)
    ensures RejectedIds(NewlyRejected(es, outcomes) + rs) == RejectedIds(rs) + EntryIds(es) * Permanents(outcomes)
  {
    forall id
      ensures id in EntryIds(StillQueued(es, outcomes)) <==> id in EntryIds(es) - Finals(outcomes)
      ensures id in RejectedIds(NewlyRejected(es, outcomes) + rs)
              <==> id in RejectedIds(rs) + EntryIds(es) * Permanents(outcomes)
    {
      CommitIds(es, rs, outcomes, id);
    }
  }

  lemma CommitPayloads(es: seq<Entry>, outcomes: map<Id, Outcome>, past: History)
    requires forall i | 0 <= i < |es| :: es[i].id in past.born && SamePayload(es[i], past.born[es[i].id].entry)
    ensures var es' := StillQueued(es, outcomes);
            forall i | 0 <= i < |es'| :: es'[i].id in past.born && SamePayload(es'[i], past.born[es'[i].id].entry)
  {
    var es' := StillQueued(es, outcomes);
    forall i | 0 <= i < |es'| ensures es'[i].id in past.born && SamePayload(es'[i], past.born[es'[i].id].entry) {
      var e := StillQueuedFrom(es, outcomes, es'[i]);
    }
  }

  /** The refusals that a pass brings back hold what was enqueued and what was answered. */
  predicate AllRuled(past: History, outcomes: map<Id, Outcome>) {
    forall id | id in outcomes && outcomes[id].Permanent? :: Ruled(past, outcomes[id].rejected)
  }

  lemma CommitRulings(es: seq<Entry>, rs: seq<Rejected>, outcomes: map<Id, Outcome>, past: History)
    requires AllRuled(past, outcomes) && forall i | 0 <= i < |rs| :: Ruled(past, rs[i])
    ensures var rs' := NewlyRejected(es, outcomes) + rs;
            forall i | 0 <= i < |rs'| :: Ruled(past, rs'[i])
  {
    var added := NewlyRejected(es, outcomes);
    NewlyRejectedFacts(es, outcomes);
    forall i | 0 <= i < |added| ensures Ruled(past, added[i]) {
      assert added[i] in added;
    }
  }

  /** What a commit takes off the queue was confirmed, or is now among the rejections. */
  lemma CommitPast(d: Disk, d': Disk, past: History, outcomes: map<Id, Outcome>, protect: bool)
    requires PastInv(d, past, protect) && OutcomesCarryIds(outcomes) && AllRuled(past, outcomes)
    requires Finals(outcomes) <= past.confirmed + past.refused && Permanents(outcomes) <= past.refused
    requires Finals(outcomes) - Permanents(outcomes) <= past.confirmed
    requires Current(d').entries == StillQueued(Current(d).entries, outcomes)
    requires Current(d').rejected == NewlyRejected(Current(d).entries, outcomes) + Current(d).rejected
    ensures PastInv(d', past, protect)
  {
    var es := Current(d).entries;
    CommitIdSets(es, Current(d).rejected, outcomes);
    StillQueuedSorted(es, outcomes, Ranks(past));
    forall i | 0 <= i < |es| ensures es[i].id in past.born {
      assert es[i].id in EntryIds(es);
    }
    CommitPayloads(es, outcomes, past);
    CommitRulings(es, Current(d).rejected, outcomes, past);
  }

  /** A purge that goes through either found nothing, or drops what it found. */
  lemma WipePast(d: Disk, d': Disk, past: History, protect: bool, past': History)
    requires PastInv(d, past, protect)
    requires Current(d').entries == [] && Current(d').rejected == []
    requires if Current(d).HasMatter() || past' != past
             then !protect && past' == past.(dropped := past.dropped + EntryIds(Current(d).entries)
                                                      + RejectedIds(Current(d).rejected))
             else past' == past
    ensures PastInv(d', past', protect) && Extends(past, past')
  {
  }

  // ─── Passes under a longer history ───

  /** The window moved on, kept its binding, or had none that a live pass could depend on. */
  predicate PassFrame(q: Queue, q': Queue) {
    || q.generation < q'.generation
    || (q.generation == q'.generation
        && (q.bound.None? || q.clearing || (q'.bound == q.bound && q'.epoch == q.epoch && q'.clearing == q.clearing)))
  }

  lemma TrackKept(past: History, past': History, q: Queue, q': Queue, t: Track)
    requires TrackInv(past, q, t) && Extends(past, past') && PassFrame(q, q')
    ensures TrackInv(past', q', t)
  {
    SortedUnder(t.pass.eligible, past, past');
  }

  lemma WindowKept(d: Disk, d': Disk, past: History, past': History, window: Window, q': Queue)
    requires WindowInv(d, past, window) && Extends(past, past') && PassFrame(window.queue, q') && QueueInv(d', q')
    requires window.queue.loaded ==> q'.loaded
    ensures WindowInv(d', past', window.(queue := q'))
  {
    forall i | 0 <= i < |window.tracks| ensures TrackInv(past', q', window.tracks[i]) {
      TrackKept(past, past', window.queue, q', window.tracks[i]);
    }
  }

  /** The epoch never goes back, and the retired scopes only ever grow. */
  predicate EpochFrame(d: Disk, d': Disk) {
    var s, s' := Current(d), Current(d');
    s.retired <= s'.retired && (s.epoch < s'.epoch || (s.epoch == s'.epoch && s.retired == s'.retired))
  }

  lemma OthersKept(w: World, disk: Disk, past: History, except: nat)
    requires Inv(w) && EpochFrame(w.disk, disk) && Extends(w.past, past)
    ensures forall win | win in w.windows && win != except :: WindowInv(disk, past, w.windows[win])
  {
    forall win | win in w.windows && win != except ensures WindowInv(disk, past, w.windows[win]) {
      assert WindowInv(w.disk, w.past, w.windows[win]);
      WindowKept(w.disk, disk, w.past, past, w.windows[win], w.windows[win].queue);
    }
  }
}

/** The queue of one window as the class it is: its methods run the critical sections of `QueueModel`. */
module SyncQueue {
  import opened Wrappers
  import opened QueueModel
  import opened QueueFacts
  import FlushPass

  /** The shared key-value storage.  A write may be refused, and then changes nothing. */
  class KeyValueStore {
    var v2: Option<Snapshot>
    var legacyEntries: Option<seq<Entry>>
    var legacyRejected: Option<seq<Rejected>>
    var items: map<Key, Cell>
    const mayRefuse: bool

    constructor (mayRefuse: bool)
      ensures this.mayRefuse == mayRefuse && View() == Disk(None, None, None, map[])
    {
      this.mayRefuse := mayRefuse;
      v2, legacyEntries, legacyRejected, items := None, None, None, map[];
    }

    function View(): Disk
      reads this
    {
      Disk(v2, legacyEntries, legacyRejected, items)
    }

    /** `setItem` and `removeItem` on the keys of the model. */
    method Perform(w: Write) returns (ok: bool)
      modifies this
      ensures View() == if ok then Apply(old(View()), w) else old(View())
      ensures !mayRefuse ==> ok
    {
      ok := *;
      ok := ok || !mayRefuse;
      if ok {
        match w
        case PutV2(s) => v2 := Some(s);
        case PutLegacyEntries(es) => legacyEntries := Some(es);
        case PutLegacyRejected(rs) => legacyRejected := Some(rs);
        case DropLegacyEntries => legacyEntries := None;
        case DropLegacyRejected => legacyRejected := None;
        case PutItem(k, c) => items := items[k := c];
        case DropItem(k) => items := items - {k};
      }
    }
  }

  function AllIds(entries: seq<Entry>, rejected: seq<Rejected>): seq<Id> {
    seq(|entries| + |rejected|,
        i requires 0 <= i < |entries| + |rejected| =>
          if i < |entries| then entries[i].id else rejected[i - |entries|].id)
  }

  predicate Distinct(ids: seq<Id>) {
    forall i, j | 0 <= i < j < |ids| :: ids[i] != ids[j]
  }

  lemma DistinctIsUnique(entries: seq<Entry>, rejected: seq<Rejected>)
    ensures Distinct(AllIds(entries, rejected)) <==> UniqueIds(entries, rejected)
  {
    var ids := AllIds(entries, rejected);
    var n := |entries|;
    assert forall i | 0 <= i < n :: ids[i] == entries[i].id;
    assert forall j | 0 <= j < |rejected| :: ids[n + j] == rejected[j].id;
    if Distinct(ids) {
      forall i, j | 0 <= i < j < |rejected| ensures rejected[i].id != rejected[j].id {
        assert ids[n + i] != ids[n + j];
      }
      forall i, j | 0 <= i < n && 0 <= j < |rejected| ensures entries[i].id != rejected[j].id {
        assert ids[i] != ids[n + j];
      }
    }
  }

  /** `identitiesAreUnique`: one pass over both lists with the set of ids seen so far. */
  method IdentitiesAreUnique(entries: seq<Entry>, rejected: seq<Rejected>) returns (unique: bool)
    ensures unique <==> UniqueIds(entries, rejected)
  {
    DistinctIsUnique(entries, rejected);
    var all := AllIds(entries, rejected);
    var ids: set<Id> := {};
    for i := 0 to |all|
      invariant forall id :: id in ids <==> exists k :: 0 <= k < i && all[k] == id
      invariant Distinct(all[..i])
    {
      if all[i] in ids {
        return false;
      }
      ids := ids + {all[i]};
    }
    assert all[..|all|] == all;
    return true;
  }

  lemma {:induction false} StillQueuedAppend(es: seq<Entry>, e: Entry, outcomes: map<Id, Outcome>)
    ensures StillQueued(es + [e], outcomes) == StillQueued(es, outcomes) + StillQueued([e], outcomes)
  {
    if es == [] {
      assert es + [e] == [e];
    } else {
      assert (es + [e])[1..] == es[1..] + [e];
      StillQueuedAppend(es[1..], e, outcomes);
    }
  }

  /** One send: the entry, and the generation of the window when it left. */
  datatype Sending = Sending(entry: Entry, under: nat)

  /** The network side: what was sent, in order. */
  class Transport {
    ghost var sent: seq<Sending>

    constructor ()
      ensures sent == []
    {
      sent := [];
    }

    /** `sendQueued`, over whatever the network answers. */
    method SendQueued(e: Entry, ghost generation: nat) returns (reply: FlushPass.Reply)
      modifies this
      ensures sent == old(sent) + [Sending(e, generation)]
      ensures exists response :: reply == FlushPass.Classify(response)
    {
      var status: int := *;
      var reached: bool := *;
      var response := if reached then FlushPass.Response(status, "Erreur") else FlushPass.Unreachable("Réseau indisponible");
      sent := sent + [Sending(e, generation)];
      reply := FlushPass.Classify(response);
    }
  }

  function Entries(sendings: seq<Sending>): seq<Entry> {
    seq(|sendings|, i requires 0 <= i < |sendings| => sendings[i].entry)
  }

  /** The entries at some positions. */
  function Picked(entries: seq<Entry>, positions: seq<nat>): seq<Entry> {
    if positions == [] then []
    else
      var n := |positions| - 1;
      Picked(entries, positions[..n]) + if positions[n] < |entries| then [entries[positions[n]]] else []
  }

  function SentIds(outcomes: map<Id, Outcome>): set<Id> {
    set id | id in outcomes && outcomes[id].Sent?
  }

  function FailedIds(outcomes: map<Id, Outcome>): set<Id> {
    set id | id in outcomes && !outcomes[id].Sent?
  }

  /** What the loop of `runFlush` keeps in its local variables. */
  datatype Tally = Tally(outcomes: map<Id, Outcome>, blocked: set<string>, sent: nat, failed: nat)

  predicate Ahead(outcomes: map<Id, Outcome>, eligible: seq<Entry>, i: nat) {
    forall j | i <= j < |eligible| :: eligible[j].id !in outcomes
  }

  predicate Counts(t: Tally) {
    t.sent == |SentIds(t.outcomes)| && t.failed == |FailedIds(t.outcomes)|
  }

  /** The local variables are those of the pass, and the counts are right. */
  predicate Fits(t: Tally, p: FlushPass.Pass) {
    t.outcomes == p.outcomes && t.blocked == p.blocked && Counts(t) && Ahead(t.outcomes, p.eligible, p.index)
  }

  lemma NothingCounted(eligible: seq<Entry>, generation: nat)
    ensures Fits(Tally(map[], {}, 0, 0), FlushPass.StartPass(eligible, generation))
  {
    assert SentIds(map[]) == {} && FailedIds(map[]) == {};
  }

  lemma CountSent(outcomes: map<Id, Outcome>, id: Id, o: Outcome)
    requires id !in outcomes
    ensures |SentIds(outcomes[id := o])| == |SentIds(outcomes)| + if o.Sent? then 1 else 0
  {
    if o.Sent? {
      assert SentIds(outcomes[id := o]) == SentIds(outcomes) + {id};
    } else {
      assert SentIds(outcomes[id := o]) == SentIds(outcomes);
    }
  }

  lemma CountFailed(outcomes: map<Id, Outcome>, id: Id, o: Outcome)
    requires id !in outcomes
    ensures |FailedIds(outcomes[id := o])| == |FailedIds(outcomes)| + if o.Sent? then 0 else 1
  {
    if o.Sent? {
      assert FailedIds(outcomes[id := o]) == FailedIds(outcomes);
    } else {
      assert FailedIds(outcomes[id := o]) == FailedIds(outcomes) + {id};
    }
  }

  predicate OnTime(out: seq<Sending>, started: nat) {
    forall i | 0 <= i < |out| :: out[i].under == started
  }

  /** These sends are the entries at these positions, and only the last may have left under another generation. */
  predicate Sends(out: seq<Sending>, eligible: seq<Entry>, positions: seq<nat>, started: nat) {
    Entries(out) == Picked(eligible, positions) && (out != [] ==> OnTime(out[..|out| - 1], started))
  }

  function At(i: nat, more: seq<Sending>): seq<nat> {
    if more == [] then [] else [i]
  }

  lemma Associates<T>(a: seq<T>, b: seq<T>, c: seq<T>)
    ensures (a + b) + c == a + (b + c)
  {
  }

  lemma SendsGrow(out: seq<Sending>, more: seq<Sending>, eligible: seq<Entry>, positions: seq<nat>, i: nat, started: nat)
    requires Sends(out, eligible, positions, started) && i < |eligible|
    requires more == [] || (OnTime(out, started) && |more| == 1 && more[0].entry == eligible[i])
    ensures Sends(out + more, eligible, positions + At(i, more), started)
    ensures OnTime(out, started) && OnTime(more, started) ==> OnTime(out + more, started)
  {
    if more == [] {
      assert out + more == out && positions + At(i, more) == positions;
    } else {
      assert (positions + [i])[..|positions|] == positions;
      assert (out + more)[..|out|] == out;
      assert Entries(out + more) == Entries(out) + [eligible[i]];
    }
  }

  /** The state in which a commit found its window, and how far it got. */
  datatype Landing = Landing(disk: Disk, queue: Queue, k: nat, published: bool)

  predicate Lands(at: Landing, p: FlushPass.Pass, s: Section) {
    var c := CommitSection(at.disk, at.queue, p.outcomes, p.generation, at.k, at.published);
    s == if at.published then c else c.(queue := ClearCall(c.queue))
  }

  /** What a refresh can have found: a disk it took over, one of another epoch or scope, or an unreadable one. */
  predicate Found(s: Section) {
    match s.verdict
    case Done => Durable(s.disk).Some? && Matches(s.queue, Durable(s.disk).value.s)
                 && s.queue == Refreshed(s.queue, Durable(s.disk).value)
    case ScopeChanged => Durable(s.disk).Some? && !Matches(s.queue, Durable(s.disk).value.s) && s.queue.invalidated
    case Corrupted => Durable(s.disk).None?
    case _ => false
  }

  class SyncQueue {
    const store: KeyValueStore
    /** Nothing else runs while this window awaits. */
    const quiet: bool
    var entries: seq<Entry>
    var rejected: seq<Rejected>
    var loaded: bool
    var legacyCleanup: bool
    var epoch: int
    var bound: Option<Scope>
    var retired: seq<Scope>
    var purgePending: bool
    var clearing: bool
    var invalidated: bool
    var generation: nat

    constructor (store: KeyValueStore, quiet: bool)
      ensures this.store == store && this.quiet == quiet && View() == FRESH_QUEUE
    {
      this.store, this.quiet := store, quiet;
      entries, rejected, loaded, legacyCleanup := [], [], false, false;
      epoch, bound, retired, purgePending := 0, None, [], false;
      clearing, invalidated, generation := false, false, 0;
    }

    function View(): Queue
      reads this
    {
      Queue(entries, rejected, loaded, legacyCleanup, epoch, bound, retired, purgePending, clearing, invalidated, generation)
    }

    method InvalidateScope()
      modifies this
      ensures View() == Invalidate(old(View()))
    {
      if !invalidated {
        invalidated := true;
        generation := generation + 1;
      }
    }

    /** `readDurableState`: parse the snapshot, else the v1 keys. */
    method ReadDurableState() returns (r: Option<Read>)
      ensures r == Durable(store.View())
    {
      var s := Current(store.View());
      var unique := IdentitiesAreUnique(s.entries, s.rejected);
      var legacy := store.legacyEntries.Some? || store.legacyRejected.Some?;
      if && unique && 0 <= s.epoch && s.scope != Some("") && ValidRetired(s.retired)
         && (forall i | 0 <= i < |s.entries| :: ValidEntry(s.entries[i]))
         && (forall i | 0 <= i < |s.rejected| :: ValidRejected(s.rejected[i]))
      {
        r := Some(Read(s, legacy));
      } else {
        r := None;
      }
    }

    method RefreshBeforeMutation() returns (v: Verdict)
      modifies this
      ensures Section(store.View(), View(), v) == Refresh(old(store.View()), old(View()))
    {
      var r := ReadDurableState();
      if r.None? {
        return Corrupted;
      }
      var s := r.value.s;
      if s.epoch != epoch || s.scope != bound {
        InvalidateScope();
        return ScopeChanged;
      }
      entries, rejected, retired, purgePending := s.entries, s.rejected, s.retired, s.purgePending;
      legacyCleanup := legacyCleanup || r.value.legacy;
      return Done;
    }

    /** `persistSnapshot`: the snapshot first; a refusal in the clean-up of the v1 keys is swallowed. */
    method PersistSnapshot(s: Snapshot) returns (ok: bool, ghost k: nat)
      modifies this`legacyCleanup, store
      ensures ok <==> 0 < k
      ensures store.View() == ApplyAll(old(store.View()), Prefix(PersistPlan(s, old(legacyCleanup)), k))
      ensures legacyCleanup == (old(legacyCleanup) && k < |PersistPlan(s, old(legacyCleanup))|)
      ensures !store.mayRefuse ==> k == FULL
    {
      ghost var plan := PersistPlan(s, legacyCleanup);
      ghost var d0 := store.View();
      k := 0;
      assert ApplyAll(d0, Prefix(plan, 0)) == d0;
      ok := store.Perform(PutV2(s));
      if !ok { return; }
      k := 1;
      Performed(d0, plan, 0);
      if legacyCleanup {
        var done := store.Perform(PutLegacyEntries([]));
        if !done { return; }
        k := 2;
        Performed(d0, plan, 1);
        done := store.Perform(PutLegacyRejected([]));
        if !done { return; }
        k := 3;
        Performed(d0, plan, 2);
        done := store.Perform(DropLegacyEntries);
        if !done { return; }
        k := 4;
        Performed(d0, plan, 3);
        done := store.Perform(DropLegacyRejected);
        if !done { return; }
        Performed(d0, plan, 4);
        legacyCleanup := false;
      }
      k := FULL;
    }

    /** Both lists, written and then published. */
    method Commit(nextEntries: seq<Entry>, nextRejected: seq<Rejected>) returns (v: Verdict, ghost k: nat)
      modifies this, store
      ensures Section(store.View(), View(), v) == Persist(old(store.View()), old(View()), nextEntries, nextRejected, k, true)
      ensures !store.mayRefuse ==> k == FULL
    {
      var ok;
      ok, k := PersistSnapshot(Snapshot(epoch, bound, retired, purgePending, nextEntries, nextRejected));
      if !ok {
        assert ApplyAll(old(store.View()), []) == old(store.View());
        return Refused, k;
      }
      entries, rejected := nextEntries, nextRejected;
      v := Done;
    }

    /** `enqueue`, up to the commit that lets it return. */
    method Enqueue(e: Entry) returns (v: Verdict, ghost k: nat)
      modifies this, store
      ensures Section(store.View(), View(), v) == EnqueueSection(old(store.View()), old(View()), e, k)
    {
      k := 0;
      if invalidated { return ScopeChanged, 0; }
      if bound.None? { return NotBound, 0; }
      if clearing { return Clearing, 0; }
      if e.displayAmount.Some? && !(0 <= e.displayAmount.value <= MAX_SAFE_INTEGER) { return Refused, 0; }
      v := RefreshBeforeMutation();
      if v != Done { return v, 0; }
      if e.id in EntryIds(entries) || e.id in RejectedIds(rejected) { return Corrupted, 0; }
      v, k := Commit(entries + [e], rejected);
    }

    /** `acquitterRejets`; without ids, the rejections that this window shows at the time of the call. */
    method AcquitterRejets(shown: Option<set<Id>>) returns (v: Verdict, ghost k: nat)
      modifies this, store
      ensures Section(store.View(), View(), v)
           == AcknowledgeSection(old(store.View()), old(View()), shown.GetOr(RejectedIds(old(rejected))), k)
    {
      k := 0;
      var ids := shown.GetOr(RejectedIds(rejected));
      if invalidated { return ScopeChanged, 0; }
      if bound.None? { return NotBound, 0; }
      if clearing { return Clearing, 0; }
      v := RefreshBeforeMutation();
      if v != Done { return v, 0; }
      v, k := Commit(entries, Unacknowledged(rejected, ids));
    }

    /** One loop sorts a queue by outcome: what stays, and the refusals with the latest first. */
    static method Sort(current: seq<Entry>, outcomes: map<Id, Outcome>)
      returns (nextEntries: seq<Entry>, newRejected: seq<Rejected>)
      ensures nextEntries == StillQueued(current, outcomes)
      ensures newRejected == NewlyRejected(current, outcomes)
    {
      nextEntries, newRejected := [], [];
      for i := 0 to |current|
        invariant nextEntries == StillQueued(current[..i], outcomes)
        invariant newRejected == NewlyRejected(current[..i], outcomes)
      {
        var e := current[i];
        assert current[..i + 1] == current[..i] + [e];
        assert current[..i + 1][..i] == current[..i];
        StillQueuedAppend(current[..i], e, outcomes);
        if e.id !in outcomes {
          nextEntries := nextEntries + [e];
        } else if outcomes[e.id].Temporary? {
          nextEntries := nextEntries + [Retried(e, outcomes[e.id].error)];
        } else if outcomes[e.id].Permanent? {
          newRejected := [outcomes[e.id].rejected] + newRejected;
        }
      }
      assert current[..|current|] == current;
    }

    /** Both lists, written and then published unless `clear` is called while they are being written. */
    method CommitUnlessCut(nextEntries: seq<Entry>, nextRejected: seq<Rejected>)
      returns (v: Verdict, ghost k: nat, ghost published: bool)
      modifies this, store
      ensures var s := Persist(old(store.View()), old(View()), nextEntries, nextRejected, k, published);
              Section(store.View(), View(), v) == if published then s else s.(queue := ClearCall(s.queue))
      ensures quiet ==> published
    {
      var ok;
      var started := generation;
      ok, k := PersistSnapshot(Snapshot(epoch, bound, retired, purgePending, nextEntries, nextRejected));
      published := true;
      if !ok {
        assert ApplyAll(old(store.View()), []) == old(store.View());
        return Refused, k, true;
      }
      var cleared: bool := *;
      cleared := cleared && !quiet;
      if cleared {
        CallClear();
      }
      published := !cleared;
      v := Done;
      if started == generation {
        entries, rejected := nextEntries, nextRejected;
      }
    }

    /** The commit at the end of `runFlush`. */
    method CommitOutcomes(outcomes: map<Id, Outcome>, started: nat) returns (v: Verdict, ghost k: nat, ghost published: bool)
      modifies this, store
      ensures var s := CommitSection(old(store.View()), old(View()), outcomes, started, k, published);
              Section(store.View(), View(), v) == if published then s else s.(queue := ClearCall(s.queue))
      ensures quiet ==> published
    {
      k, published := 0, true;
      v := RefreshBeforeMutation();
      if v != Done { return v, 0, true; }
      if started != generation { return Done, 0, true; }
      var nextEntries, newRejected := Sort(entries, outcomes);
      v, k, published := CommitUnlessCut(nextEntries, newRejected + rejected);
    }

    /** `assertDurableScope`. */
    method AssertDurableScope() returns (v: Verdict)
      modifies this
      ensures Section(store.View(), View(), v) == AssertScope(old(store.View()), old(View()))
    {
      if invalidated { return ScopeChanged; }
      var r := ReadDurableState();
      if r.None? { return Corrupted; }
      var s := r.value.s;
      if bound.Some? && s.scope != bound && bound.value in s.retired {
        InvalidateScope();
        return ScopeRetired;
      }
      if s.epoch != epoch || s.scope != bound {
        InvalidateScope();
        return ScopeChanged;
      }
      return Done;
    }

    // ─── The network pass ───

    /** What other tasks and windows may do while this one awaits: anything to the disk and to the fields,
      * but a generation never comes back, and neither does an authority that was lost. */
    method Elsewhere()
      modifies this, store
      ensures old(generation) <= generation && (old(invalidated) ==> invalidated)
      ensures quiet ==> View() == old(View()) && store.View() == old(store.View())
    {
      if quiet { return; }
      var lost: bool := *;
      var steps :| 0 <= steps;
      generation := generation + steps;
      entries, rejected, loaded, legacyCleanup := *, *, *, *;
      epoch, bound, retired, purgePending, clearing, invalidated := *, *, *, *, *, invalidated || lost;
      store.v2, store.legacyEntries, store.legacyRejected, store.items := *, *, *, *;
    }

    /** Nothing else runs, and this window holds the durable scope. */
    ghost predicate Calm()
      reads this, store
    {
      quiet && AssertScope(store.View(), View()) == Section(store.View(), View(), Done)
    }

    /** What cuts a pass off: its generation is over, its authority is lost, or the disk cannot be read. */
    ghost predicate CutOff(v: Verdict, started: nat)
      reads this
    {
      if v == Done then generation != started else invalidated || v == Corrupted
    }

    /** A check of the durable scope: others run before it gets the lock and after it has released it. */
    method AwaitScope() returns (check: FlushPass.Check, v: Verdict)
      modifies this, store
      ensures old(generation) <= generation
      ensures check == FlushPass.Holds <==> v == Done
      ensures v != Done ==> invalidated || v == Corrupted
      ensures old(Calm()) ==> View() == old(View()) && store.View() == old(store.View()) && v == Done
    {
      Elsewhere();
      v := AssertDurableScope();
      check := match v
        case Done => FlushPass.Holds
        case Corrupted => FlushPass.Unreadable("La file hors-ligne est illisible.")
        case _ => FlushPass.Moved;
      Elsewhere();
    }

    /** What follows an answer: the generation, the durable scope, then an outcome, or none when the pass
      * is over.  A delivery whose check cannot be read is taken for a failure and checked once more. */
    method AfterAnswer(ghost p0: FlushPass.Pass, ghost p: FlushPass.Pass, ghost issued: seq<nat>,
                       reply: FlushPass.Reply, started: nat, now: int)
      returns (v: Verdict, outcome: Option<FlushPass.Reply>)
      requires FlushPass.Becomes(p0, p, issued) && p.stage == FlushPass.Answered(reply) && p.generation == started
      modifies this, store
      ensures old(generation) <= generation && if outcome.Some? then v == Done else CutOff(v, started)
      ensures FlushPass.Becomes(p0, FlushPass.Concluded(p, outcome, now), issued)
      ensures old(Calm()) && old(generation) == started ==>
                View() == old(View()) && store.View() == old(store.View()) && outcome.Some?
    {
      v, outcome := Done, None;
      if generation != started {
        FlushPass.Reach(p0, p, issued, FlushPass.ResumeEvent(false, FlushPass.Holds, now));
        return;
      }
      var check;
      check, v := AwaitScope();
      FlushPass.Reach(p0, p, issued, FlushPass.ResumeEvent(true, check, now));
      match check
      case Holds => outcome := Some(reply);
      case Moved =>
      case Unreadable(message) =>
        if reply.Delivered? {
          v, outcome := AfterFailure(p0, p.(stage := FlushPass.Answered(FlushPass.Unavailable(message))), issued,
                                     FlushPass.Unavailable(message), started, now);
        }
    }

    /** The error path of an answer. */
    method AfterFailure(ghost p0: FlushPass.Pass, ghost p: FlushPass.Pass, ghost issued: seq<nat>,
                        reply: FlushPass.Reply, started: nat, now: int)
      returns (v: Verdict, outcome: Option<FlushPass.Reply>)
      requires FlushPass.Becomes(p0, p, issued) && p.stage == FlushPass.Answered(reply) && p.generation == started
      requires !reply.Delivered?
      modifies this, store
      ensures old(generation) <= generation && if outcome.Some? then v == Done else CutOff(v, started)
      ensures FlushPass.Becomes(p0, FlushPass.Concluded(p, outcome, now), issued)
      ensures old(Calm()) && old(generation) == started ==>
                View() == old(View()) && store.View() == old(store.View()) && outcome.Some?
    {
      v, outcome := Done, None;
      if generation != started {
        FlushPass.Reach(p0, p, issued, FlushPass.ResumeEvent(false, FlushPass.Holds, now));
        return;
      }
      var check;
      check, v := AwaitScope();
      FlushPass.Reach(p0, p, issued, FlushPass.ResumeEvent(true, check, now));
      if check.Holds? {
        outcome := Some(reply);
      }
    }

    /** The outcome of one entry, the subject that a failure blocks, and the two counts. */
    static method Note(ghost p: FlushPass.Pass, e: Entry, reply: FlushPass.Reply, t: Tally, now: int) returns (t': Tally)
      requires p.WellFormed() && p.index < |p.eligible| && p.eligible[p.index] == e
      requires Fits(t, p) && FlushPass.DistinctIds(p.eligible)
      ensures Fits(t', FlushPass.Record(p, reply, now))
    {
      var o: Outcome;
      match reply {
        case Delivered =>
          o := Sent;
          t' := t.(sent := t.sent + 1);
        case Refusal(message, status) =>
          o := Permanent(Rejected(e.id, e.path, e.body, e.displayAmount, message, status, now));
          t' := t.(failed := t.failed + 1);
        case Unavailable(message) =>
          o := Temporary(message);
          t' := t.(failed := t.failed + 1,
                   blocked := if e.subject.Some? && e.subject.value != "" then t.blocked + {e.subject.value} else t.blocked);
      }
      t' := t'.(outcomes := t.outcomes[e.id := o]);
      CountSent(t.outcomes, e.id, o);
      CountFailed(t.outcomes, e.id, o);
    }

    /** The head of the loop: the generation, then the durable scope. */
    method Approach(ghost p0: FlushPass.Pass, ghost p: FlushPass.Pass, ghost issued: seq<nat>, started: nat)
      returns (v: Verdict, go: bool)
      requires FlushPass.Becomes(p0, p, issued) && p.stage.AtHead? && p.index < |p.eligible| && p.generation == started
      modifies this, store
      ensures old(generation) <= generation && if go then old(generation) == started && v == Done else CutOff(v, started)
      ensures old(Calm()) && old(generation) == started ==>
                View() == old(View()) && store.View() == old(store.View()) && go
      ensures FlushPass.Becomes(p0, if go then p.(stage := FlushPass.Checking) else p.(stage := FlushPass.Over), issued)
    {
      FlushPass.Reach(p0, p, issued, FlushPass.HeadEvent(generation == started));
      if generation != started { return Done, false; }
      ghost var checking := p.(stage := FlushPass.Checking);
      var check;
      check, v := AwaitScope();
      go := v == Done;
      if !go {
        FlushPass.Reach(p0, checking, issued, FlushPass.CheckEvent(check));
      }
    }

    /** One send and what follows its answer. */
    method Exchange(ghost p0: FlushPass.Pass, ghost p: FlushPass.Pass, ghost issued: seq<nat>, e: Entry,
                    started: nat, transport: Transport, now: int)
      returns (v: Verdict, outcome: Option<FlushPass.Reply>)
      requires FlushPass.Becomes(p0, p, issued) && p.stage.Ready? && p.eligible[p.index] == e && p.generation == started
      modifies this, store, transport
      ensures old(generation) <= generation && transport.sent == old(transport.sent) + [Sending(e, old(generation))]
      ensures if outcome.Some? then v == Done else CutOff(v, started)
      ensures old(Calm()) && old(generation) == started ==>
                View() == old(View()) && store.View() == old(store.View()) && outcome.Some?
      ensures FlushPass.Becomes(p0, FlushPass.Concluded(p, outcome, now), issued + [p.index])
    {
      var reply := transport.SendQueued(e, generation);
      FlushPass.Reach(p0, p, issued, FlushPass.IssueEvent);
      ghost var flying, sent := FlushPass.Issue(p), issued + [p.index];
      FlushPass.Reach(p0, flying, sent, FlushPass.AnswerEvent(reply));
      Elsewhere();
      v, outcome := AfterAnswer(p0, FlushPass.Answer(flying, reply), sent, reply, started, now);
    }

    /** One turn of the loop of `runFlush`. */
    method Turn(ghost p0: FlushPass.Pass, ghost p: FlushPass.Pass, ghost issued: seq<nat>, e: Entry, t: Tally,
                started: nat, transport: Transport, now: int)
      returns (v: Verdict, more: bool, t': Tally, ghost p': FlushPass.Pass, ghost out: seq<Sending>)
      requires FlushPass.Becomes(p0, p, issued) && p.stage.AtHead? && p.index < |p.eligible| && p.eligible[p.index] == e
      requires p.generation == started && Fits(t, p) && FlushPass.DistinctIds(p.eligible)
      modifies this, store, transport
      ensures old(generation) <= generation && Fits(t', p')
      ensures FlushPass.Becomes(p0, p', issued + At(p.index, out))
      ensures more ==> p'.stage.AtHead? && p'.index == p.index + 1 && v == Done
      ensures !more ==> p'.stage.Over? && CutOff(v, started)
      ensures old(Calm()) && old(generation) == started ==>
                View() == old(View()) && store.View() == old(store.View()) && more
      ensures transport.sent == old(transport.sent) + out
      ensures out == [] || (old(generation) == started && |out| == 1 && out[0].entry == e)
      ensures OnTime(out, started) || generation != started
    {
      var outcome;
      t', out := t, [];
      assert issued + [] == issued;
      v, more := Approach(p0, p, issued, started);
      p' := p.(stage := if more then FlushPass.Checking else FlushPass.Over);
      if !more { return; }
      FlushPass.Reach(p0, p', issued, FlushPass.CheckEvent(FlushPass.Holds));
      p' := FlushPass.Checked(p', FlushPass.Holds);
      if e.subject.Some? && e.subject.value != "" && e.subject.value in t.blocked { return; }
      out := [Sending(e, generation)];
      v, outcome := Exchange(p0, p', issued, e, started, transport, now);
      more := outcome.Some?;
      if more {
        t' := Note(p', e, outcome.value, t, now);
      }
      p' := FlushPass.Concluded(p', outcome, now);
    }

    /** The loop of `runFlush`: the pass it made, what it sent and what it counted. */
    method SendAll(eligible: seq<Entry>, started: nat, transport: Transport, now: int)
      returns (v: Verdict, t: Tally, ghost p: FlushPass.Pass, ghost issued: seq<nat>, ghost out: seq<Sending>)
      requires FlushPass.DistinctIds(eligible) && started == generation
      modifies this, store, transport
      ensures FlushPass.Becomes(FlushPass.StartPass(eligible, started), p, issued) && Fits(t, p)
      ensures p.stage.Over? || (p.stage.AtHead? && p.index == |eligible| && v == Done)
      ensures started <= generation && (p.stage.Over? ==> CutOff(v, started))
      ensures old(Calm()) ==> View() == old(View()) && store.View() == old(store.View()) && p.stage.AtHead?
      ensures transport.sent == old(transport.sent) + out
      ensures Sends(out, eligible, issued, started)
    {
      ghost var p0 := FlushPass.StartPass(eligible, started);
      v, t, p, issued, out := Done, Tally(map[], {}, 0, 0), p0, [], [];
      FlushPass.ReachStart(p0);
      NothingCounted(eligible, started);
      var i, more := 0, true;
      while more && i < |eligible|
        invariant FlushPass.Becomes(p0, p, issued) && Fits(t, p)
        invariant more ==> i <= |eligible| && p.stage.AtHead? && p.index == i && v == Done
        invariant !more ==> p.stage.Over? && CutOff(v, started)
        invariant old(Calm()) ==> View() == old(View()) && store.View() == old(store.View()) && more
        invariant transport.sent == old(transport.sent) + out
        invariant Sends(out, eligible, issued, started)
        invariant started <= generation && (OnTime(out, started) || generation != started)
      {
        ghost var one;
        v, more, t, p, one := Turn(p0, p, issued, eligible[i], t, started, transport, now);
        SendsGrow(out, one, eligible, issued, i, started);
        Associates(old(transport.sent), out, one);
        out, issued := out + one, issued + At(i, one);
        i := i + 1;
      }
    }

    /** `runFlush`.  Its sends and outcomes are those of one pass, and it counts them; whatever happens
      * meanwhile, only its last send may leave under a generation that is not its own; it stops short of the
      * end only when it is cut off, and commits only when it is not.  When nothing else runs it reaches the
      * end, and commits on the disk and from the window that it found. */
    method RunFlush(eligible: seq<Entry>, started: nat, transport: Transport, now: int)
      returns (v: Verdict, sent: nat, failed: nat,
               ghost p: FlushPass.Pass, ghost issued: seq<nat>, ghost out: seq<Sending>, ghost at: Landing)
      requires FlushPass.DistinctIds(eligible) && started == generation
      modifies this, store, transport
      ensures FlushPass.Becomes(FlushPass.StartPass(eligible, started), p, issued)
      ensures transport.sent == old(transport.sent) + out
      ensures Sends(out, eligible, issued, started)
      ensures sent == |SentIds(p.outcomes)| && failed == |FailedIds(p.outcomes)|
      ensures if p.stage.Over? then CutOff(v, started) else p.stage.Finishing? && Lands(at, p, Section(store.View(), View(), v))
      ensures old(Calm()) ==> p.stage.Finishing? && at.disk == old(store.View()) && at.queue == old(View()) && at.published
    {
      ghost var p0 := FlushPass.StartPass(eligible, started);
      var t;
      at := Landing(store.View(), View(), 0, true);
      v, t, p, issued, out := SendAll(eligible, started, transport, now);
      sent, failed := t.sent, t.failed;
      if v != Done { return; }
      FlushPass.Reach(p0, p, issued, FlushPass.HeadEvent(generation == started));
      p := FlushPass.Head(p, generation == started);
      if generation != started { return; }
      Elsewhere();
      ghost var disk, queue := store.View(), View();
      ghost var k, published;
      v, k, published := CommitOutcomes(t.outcomes, started);
      at := Landing(disk, queue, k, published);
    }

    /** The photograph of the queue, under the lock: the disk is the authority. */
    method Photograph() returns (v: Verdict, photo: seq<Entry>, started: nat)
      modifies this
      ensures Section(store.View(), View(), v) == Refresh(old(store.View()), old(View()))
      ensures photo == (if v == Done && !clearing then Current(store.View()).entries else []) && started == generation
      ensures FlushPass.DistinctIds(photo)
      ensures v == Done && !old(invalidated) && quiet ==> Calm()
    {
      photo := [];
      v := RefreshBeforeMutation();
      started := generation;
      if v == Done && !clearing {
        photo := entries;
      }
    }

    /** `flush`, from its gate to its result.  `find` is the disk and the window as its photograph found them: the
      * pass is over the queue of that disk.  Without anything to send nothing is sent, and the disk stays; when
      * nothing else runs, the disk found is the one of the call, and the pass reaches its end. */
    method Flush(transport: Transport, now: int)
      returns (v: Verdict, sent: nat, failed: nat, ghost find: Section, ghost photo: seq<Entry>,
               ghost p: FlushPass.Pass, ghost issued: seq<nat>, ghost out: seq<Sending>, ghost at: Landing)
      modifies this, store, transport
      ensures transport.sent == old(transport.sent) + out && Sends(out, photo, issued, p.generation)
      ensures FlushPass.DistinctIds(photo) && FlushPass.Becomes(FlushPass.StartPass(photo, p.generation), p, issued)
      ensures sent == |SentIds(p.outcomes)| && failed == |FailedIds(p.outcomes)|
      ensures old(invalidated) || old(bound).None? ==>
                out == [] && v == (if old(invalidated) then ScopeChanged else NotBound)
                && View() == old(View()) && store.View() == old(store.View())
      ensures !old(invalidated) && old(bound).Some? ==>
                Found(find) && photo == if find.verdict == Done && !find.queue.clearing then Current(find.disk).entries else []
      ensures !old(invalidated) && old(bound).Some? && photo == [] ==> out == [] && Section(store.View(), View(), v) == find
      ensures !old(invalidated) && old(bound).Some? && photo != [] ==>
                && p.generation == find.queue.generation
                && if p.stage.Over? then CutOff(v, p.generation)
                   else p.stage.Finishing? && Lands(at, p, Section(store.View(), View(), v))
      ensures quiet && !old(invalidated) && old(bound).Some? ==>
                && find == Refresh(old(store.View()), old(View()))
                && (photo != [] ==> p.stage.Finishing? && at.disk == find.disk && at.queue == find.queue && at.published)
    {
      v, sent, failed, photo, issued, out := Done, 0, 0, [], [], [];
      p, at := FlushPass.StartPass([], generation), Landing(store.View(), View(), 0, true);
      FlushPass.ReachStart(p);
      NothingCounted([], generation);
      if invalidated || bound.None? {
        v := if invalidated then ScopeChanged else NotBound;
        find := Section(store.View(), View(), v);
        return;
      }
      Elsewhere();
      var eligible, started;
      v, eligible, started := Photograph();
      find, photo := Section(store.View(), View(), v), eligible;
      if v != Done || eligible == [] { return; }
      v, sent, failed, p, issued, out, at := RunFlush(eligible, started, transport, now);
    }

    /** The publication of a bound snapshot. */
    method Adopt(s: Snapshot, scope: Scope)
      modifies this
      ensures View() == BoundTo(old(View()), s, scope)
    {
      entries, rejected, epoch, bound := s.entries, s.rejected, s.epoch, Some(scope);
      retired, purgePending, loaded := s.retired, false, true;
    }

    /** The snapshot that claims a scope, and its publication. */
    method ClaimScope(r: Read, scope: Scope) returns (v: Verdict, ghost k: nat)
      modifies this, store
      ensures Section(store.View(), View(), v) == Claim(old(store.View()), old(View()), r, scope, k)
      ensures !store.mayRefuse ==> k == FULL
    {
      k := FULL;
      legacyCleanup := legacyCleanup || r.legacy;
      var ok := true;
      if r.s.scope != Some(scope) || r.legacy {
        ok, k := PersistSnapshot(r.s.(scope := Some(scope), purgePending := purgePending));
      }
      if !ok {
        assert ApplyAll(old(store.View()), []) == old(store.View());
        return Refused, k;
      }
      Adopt(r.s, scope);
      v := Done;
    }

    /** `runBindScope`. */
    method RunBindScope(scope: Scope, pairing: bool) returns (v: Verdict, ghost k: nat)
      modifies this, store
      ensures Section(store.View(), View(), v) == RunBind(old(store.View()), old(View()), scope, pairing, k)
      ensures !store.mayRefuse ==> k == FULL
    {
      k := FULL;
      var r := ReadDurableState();
      if r.None? { return Corrupted, FULL; }
      var s := r.value.s;
      if scope in s.retired { return ScopeRetired, FULL; }
      if s.purgePending { return ScopeChanged, FULL; }
      if s.scope.Some? && s.scope != Some(scope) { return ScopeChanged, FULL; }
      if pairing && s.scope.None? && s.HasMatter() { return ScopeChanged, FULL; }
      v, k := ClaimScope(r.value, scope);
    }

    /** `bindScope`, with its tests before the first await. */
    method BindScope(scope: Scope, pairing: bool) returns (v: Verdict, ghost k: nat)
      modifies this, store
      ensures Section(store.View(), View(), v) == QueueModel.BindScope(old(store.View()), old(View()), scope, pairing, k)
      ensures !store.mayRefuse ==> k == FULL
    {
      k := FULL;
      if invalidated { return ScopeChanged, FULL; }
      if bound == Some(scope) {
        v := AssertDurableScope();
        return v, FULL;
      }
      if bound.Some? && !pairing { return ScopeChanged, FULL; }
      v, k := RunBindScope(scope, pairing);
    }

    /** The synchronous part of `clear`: the frontier moves before anything is awaited. */
    method CallClear()
      modifies this
      ensures View() == ClearCall(old(View()))
    {
      generation := generation + 1;
      clearing := true;
    }

    /** The strict part of the purge: the v1 keys are overwritten, then the tombstone is written. */
    method WriteTombstone(nextEpoch: int) returns (ok: bool, ghost kept: nat)
      modifies this`legacyCleanup, store
      ensures ok <==> 3 <= kept
      ensures store.View() == ApplyAll(old(store.View()), Prefix(WipePlan(old(View()), nextEpoch), kept))
      ensures !ok ==> legacyCleanup == old(legacyCleanup)
    {
      ghost var d0 := store.View();
      ghost var plan := WipePlan(View(), nextEpoch);
      kept := 0;
      assert ApplyAll(d0, Prefix(plan, 0)) == d0;
      ok := store.Perform(PutLegacyEntries([]));
      if !ok { return; }
      kept := 1;
      Performed(d0, plan, 0);
      ok := store.Perform(PutLegacyRejected([]));
      if !ok { return; }
      kept := 2;
      Performed(d0, plan, 1);
      ghost var d2 := store.View();
      var nextRetired := retired;
      if bound.Some? && bound.value !in nextRetired {
        nextRetired := nextRetired + [bound.value];
      }
      ghost var k;
      ok, k := PersistSnapshot(Snapshot(nextEpoch, None, nextRetired, true, [], []));
      kept := 2 + k;
      ghost var rest := PersistPlan(Tombstone(old(View()), nextEpoch), old(legacyCleanup));
      assert Prefix(plan, 2) == [PutLegacyEntries([]), PutLegacyRejected([])];
      assert Prefix(plan, kept) == Prefix(plan, 2) + Prefix(rest, k);
      ApplyAllConcat(d0, Prefix(plan, 2), Prefix(rest, k));
    }

    /** The publication of a purge. */
    method Forget(nextEpoch: int, nextRetired: seq<Scope>)
      modifies this
      ensures View() == old(View()).(entries := [], rejected := [], epoch := nextEpoch, bound := None,
                                     retired := nextRetired, purgePending := true, loaded := true, legacyCleanup := false)
    {
      entries, rejected, epoch, bound := [], [], nextEpoch, None;
      retired, purgePending, loaded, legacyCleanup := nextRetired, true, true, false;
    }

    /** The purge once it is decided: tombstone, publication, then two best-effort removals. */
    method Purge(nextEpoch: int) returns (v: Verdict, ghost run: WipeRun)
      modifies this, store
      ensures Section(store.View(), View(), v) == Wipe(old(store.View()), old(View()), nextEpoch, run)
    {
      var nextRetired := retired;
      if bound.Some? && bound.value !in nextRetired {
        nextRetired := nextRetired + [bound.value];
      }
      var ok;
      ghost var kept;
      ok, kept := WriteTombstone(nextEpoch);
      if !ok { return Refused, WipeRun(kept, false, false); }
      Forget(nextEpoch, nextRetired);
      var first := store.Perform(DropLegacyEntries);
      var second := store.Perform(DropLegacyRejected);
      return Done, WipeRun(kept, first, second);
    }

    /** `clear`, up to its first await: a window without authority is turned away, any other one is cut off at once. */
    method Clear() returns (v: Verdict)
      modifies this
      ensures v == if old(invalidated) then ScopeChanged else if old(bound).None? then NotBound else Done
      ensures View() == if v == Done then ClearCall(old(View())) else old(View())
    {
      if invalidated { return ScopeChanged; }
      if bound.None? { return NotBound; }
      CallClear();
      v := Done;
    }

    /** `runClear`. */
    method RunClear(requireEmpty: bool) returns (v: Verdict, ghost run: WipeRun)
      modifies this, store
      ensures Section(store.View(), View(), v) == QueueModel.RunClear(old(store.View()), old(View()), requireEmpty, run)
    {
      run := WipeRun(0, false, false);
      var nextEpoch := epoch + 1;
      var durable := ReadDurableState();
      if store.v2.Some? {
        if durable.None? {
          if requireEmpty { return Corrupted, run; }
        } else {
          var s := durable.value.s;
          if s.epoch != epoch || s.scope != bound {
            InvalidateScope();
            return ScopeChanged, run;
          }
          if requireEmpty && s.HasMatter() {
            clearing := false;
            return Unsynced, run;
          }
          nextEpoch := s.epoch + 1;
        }
      } else if epoch != 0 || bound.Some? {
        InvalidateScope();
        return ScopeChanged, run;
      } else if requireEmpty {
        if durable.None? { return Corrupted, run; }
        if durable.value.s.HasMatter() {
          clearing := false;
          return Unsynced, run;
        }
      }
      v, run := Purge(nextEpoch);
    }

    /** The snapshot that closes a purge, and its publication. */
    method SettlePurge(s: Snapshot) returns (v: Verdict, ghost k: nat)
      modifies this, store
      ensures Section(store.View(), View(), v) == Settle(old(store.View()), old(View()), s, k)
      ensures !store.mayRefuse ==> k == FULL
    {
      var ok;
      ok, k := PersistSnapshot(Snapshot(s.epoch, None, s.retired, false, s.entries, s.rejected));
      if !ok {
        assert ApplyAll(old(store.View()), []) == old(store.View());
        return Refused, k;
      }
      entries, rejected, epoch, bound := s.entries, s.rejected, s.epoch, None;
      retired, purgePending, loaded, clearing := s.retired, false, true, false;
      v := Done;
    }

    /** `completeClear`. */
    method CompleteClear() returns (v: Verdict, ghost k: nat)
      modifies this, store
      ensures Section(store.View(), View(), v) == QueueModel.CompleteClear(old(store.View()), old(View()), k)
      ensures !store.mayRefuse ==> k == FULL
    {
      k := FULL;
      var r := ReadDurableState();
      if r.None? { return Corrupted, FULL; }
      if r.value.s.scope.Some? { return ScopeChanged, FULL; }
      if !r.value.s.purgePending {
        clearing := false;
        return Done, FULL;
      }
      v, k := SettlePurge(r.value.s);
    }

    /** `scopedStore`: the authority captured before the lock must still be the window's and the disk's. */
    method AssertAuthority(a: Authority) returns (v: Verdict)
      modifies this
      ensures Section(store.View(), View(), v) == ScopedGuard(old(store.View()), old(View()), a)
    {
      if clearing || invalidated || generation != a.generation || bound != Some(a.scope) || epoch != a.epoch {
        return ScopeChanged;
      }
      var r := ReadDurableState();
      if r.None? { return Corrupted; }
      if r.value.s.epoch != a.epoch || r.value.s.scope != Some(a.scope) {
        InvalidateScope();
        return if a.scope in r.value.s.retired then ScopeRetired else ScopeChanged;
      }
      v := Done;
    }

    /** `getItem` of the scoped store. */
    method ScopedRead(a: Authority, key: Key) returns (v: Verdict, cell: Option<Cell>)
      modifies this
      ensures Section(store.View(), View(), v) == ScopedGuard(old(store.View()), old(View()), a)
      ensures cell == if v == Done && key in store.View().items then Some(store.View().items[key]) else None
    {
      v := AssertAuthority(a);
      cell := if v == Done && key in store.items then Some(store.items[key]) else None;
    }

    /** `setItem` and `removeItem` of the scoped store. */
    method ScopedPerform(a: Authority, w: Write) returns (v: Verdict)
      requires w.PutItem? || w.DropItem?
      modifies this, store
      ensures var g := ScopedGuard(old(store.View()), old(View()), a);
              && View() == g.queue
              && (g.verdict != Done ==> v == g.verdict && store.View() == old(store.View()))
              && (g.verdict == Done ==>
                    || (v == Done && store.View() == Apply(old(store.View()), w))
                    || (v == Refused && store.mayRefuse && store.View() == old(store.View())))
    {
      v := AssertAuthority(a);
      if v != Done { return; }
      var ok := store.Perform(w);
      return if ok then Done else Refused;
    }
  }
}

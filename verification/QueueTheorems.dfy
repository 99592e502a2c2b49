/** What the offline queue promises, over every run of any number of windows. */
module QueueTheorems {
  import opened Wrappers
  import opened QueueModel
  import opened QueueFacts
  import opened QueueWorld
  import opened QueueInvariant
  import opened QueueSections
  import opened QueueHistory
  import opened QueueDataSteps
  import opened QueuePassSteps
  import opened QueueLifeSteps
  import opened QueueRuns
  import FlushPass

  // ─── Runs ───

  /** One step of a run. */
  predicate Link(w: World, a: Action, w': World) {
    Admissible(w, a) && w' == Next(w, a)
  }

  // ─── Where runs start ───

  /** What a rejection still knows of the entry that it closed. */
  function EntryOf(r: Rejected): Entry { Entry(r.id, Post, r.path, r.body, None, r.displayAmount, 0, 0, None) }

  function RefusalOf(past: History, r: Rejected): History {
    past.(born := past.born[r.id := Birth(past.births, EntryOf(r))], births := past.births + 1,
          accepted := past.accepted + {r.id}, refused := past.refused + {r.id},
          rulings := past.rulings + {Ruling(r.id, r.reason, r.status)})
  }

  /** The history of what was on the disk at the start, v1 keys included: all of it counts as accepted. */
  function Recorded(entries: seq<Entry>, rejected: seq<Rejected>): History {
    if rejected != [] then
      var n := |rejected| - 1;
      RefusalOf(Recorded(entries, rejected[..n]), rejected[n])
    else if entries != [] then
      BirthOf(Recorded(entries[..|entries| - 1], []), entries[|entries| - 1])
    else History(map[], 0, {}, {}, {}, {}, {}, {})
  }

  /** A disk as an installation, an upgrade from the v1 keys or an earlier session leaves it. */
  predicate Installed(d: Disk) { DiskInv(d) && Shape(d) }

  function Start(d: Disk, protect: bool): World {
    World(d, map[LIFE := FRESH_WINDOW], Booting, Recorded(Current(d).entries, Current(d).rejected), protect)
  }

  /** Any run from any installed disk leads here. */
  ghost predicate Reachable(w: World) {
    exists d, protect :: Installed(d) && Reaches(Link, Start(d, protect), w)
  }

  lemma EntryIdsAppend(es: seq<Entry>, e: Entry)
    ensures EntryIds(es + [e]) == EntryIds(es) + {e.id}
  {
    assert (es + [e])[|es|] == e;
    assert forall i | 0 <= i < |es| :: (es + [e])[i] == es[i];
  }

  lemma RejectedIdsAppend(rs: seq<Rejected>, r: Rejected)
    ensures RejectedIds(rs + [r]) == RejectedIds(rs) + {r.id}
  {
    assert (rs + [r])[|rs|] == r;
    assert forall i | 0 <= i < |rs| :: (rs + [r])[i] == rs[i];
  }

  function OnDisk(s: Snapshot): Disk { Disk(Some(s), None, None, map[]) }

  lemma RefusalPast(d: Disk, d': Disk, past: History, r: Rejected, protect: bool)
    requires PastInv(d, past, protect) && r.id !in past.born
    requires Current(d').entries == Current(d).entries
    requires RejectedIds(Current(d').rejected) == RejectedIds(Current(d).rejected) + {r.id}
    requires Current(d').rejected == Current(d).rejected + [r]
    ensures PastInv(d', RefusalOf(past, r), protect)
  {
    var past' := RefusalOf(past, r);
    var es := Current(d).entries;
    assert Extends(past, past');
    SortedUnder(es, past, past');
    forall i | 0 <= i < |es| ensures past'.born[es[i].id] == past.born[es[i].id] {
      assert es[i].id in EntryIds(es);
    }
  }

  predicate RecordedWell(s: Snapshot, protect: bool) { RecordedBy(s, Recorded(s.entries, s.rejected), protect) }

  predicate RecordedBy(s: Snapshot, past: History, protect: bool) {
    && PastInv(OnDisk(s), past, protect)
    && past.accepted == EntryIds(s.entries) + RejectedIds(s.rejected)
    && past.born.Keys == EntryIds(s.entries) + RejectedIds(s.rejected)
  }

  function WithoutLast(s: Snapshot): Snapshot
    requires s.entries != []
  {
    s.(entries := s.entries[..|s.entries| - 1])
  }

  lemma RecordedOne(s: Snapshot, protect: bool)
    requires UniqueIds(s.entries, []) && s.rejected == [] && s.entries != [] && RecordedWell(WithoutLast(s), protect)
    ensures RecordedWell(s, protect)
  {
    var t, last := WithoutLast(s), s.entries[|s.entries| - 1];
    LastEntry(s);
    OneMoreRecorded(t, s, Recorded(t.entries, []), last, protect);
    assert Recorded(s.entries, []) == BirthOf(Recorded(t.entries, []), last);
  }

  lemma OneMoreRecorded(t: Snapshot, s: Snapshot, past: History, e: Entry, protect: bool)
    requires RecordedBy(t, past, protect) && e.id !in past.born
    requires s.entries == t.entries + [e] && s.rejected == t.rejected && EntryIds(s.entries) == EntryIds(t.entries) + {e.id}
    ensures RecordedBy(s, BirthOf(past, e), protect)
  {
    EnqueuePast(OnDisk(t), OnDisk(s), past, e, protect);
  }

  lemma LastEntry(s: Snapshot)
    requires UniqueIds(s.entries, []) && s.entries != []
    ensures var last := s.entries[|s.entries| - 1];
            var t := WithoutLast(s);
            && s.entries == t.entries + [last] && last.id !in EntryIds(t.entries)
            && EntryIds(s.entries) == EntryIds(t.entries) + {last.id}
  {
    var t, last := WithoutLast(s), s.entries[|s.entries| - 1];
    assert s.entries == t.entries + [last];
    EntryIdsAppend(t.entries, last);
  }

  lemma NothingRecorded(s: Snapshot, protect: bool)
    requires s.entries == [] && s.rejected == []
    ensures RecordedWell(s, protect)
  {
  }

  lemma {:induction false} RecordedEntries(s: Snapshot, protect: bool)
    requires UniqueIds(s.entries, []) && s.rejected == []
    ensures RecordedWell(s, protect)
    decreases |s.entries|
  {
    if s.entries == [] {
      NothingRecorded(s, protect);
    } else {
      RecordedEntries(WithoutLast(s), protect);
      RecordedOne(s, protect);
    }
  }

  function WithoutLastRefusal(s: Snapshot): Snapshot
    requires s.rejected != []
  {
    s.(rejected := s.rejected[..|s.rejected| - 1])
  }

  lemma LastRefusal(s: Snapshot)
    requires UniqueIds(s.entries, s.rejected) && s.rejected != []
    ensures var last := s.rejected[|s.rejected| - 1];
            var t := WithoutLastRefusal(s);
            && last.id !in RejectedIds(t.rejected) && last.id !in EntryIds(s.entries)
            && RejectedIds(s.rejected) == RejectedIds(t.rejected) + {last.id}
  {
    var t := WithoutLastRefusal(s);
    RejectedIdsAppend(t.rejected, s.rejected[|s.rejected| - 1]);
    assert s.rejected == t.rejected + [s.rejected[|s.rejected| - 1]];
  }

  lemma RecordedIs(s: Snapshot)
    requires s.rejected != []
    ensures Recorded(s.entries, s.rejected)
         == RefusalOf(Recorded(s.entries, WithoutLastRefusal(s).rejected), s.rejected[|s.rejected| - 1])
  {
  }

  lemma RecordedRefusal(s: Snapshot, protect: bool)
    requires UniqueIds(s.entries, s.rejected) && s.rejected != [] && RecordedWell(WithoutLastRefusal(s), protect)
    ensures RecordedWell(s, protect)
  {
    var t := WithoutLastRefusal(s);
    var past := Recorded(t.entries, t.rejected);
    LastRefusal(s);
    RecordedIs(s);
    RefusalPast(OnDisk(t), OnDisk(s), past, s.rejected[|s.rejected| - 1], protect);
  }

  lemma {:induction false} RecordedInv(s: Snapshot, protect: bool)
    requires UniqueIds(s.entries, s.rejected)
    ensures RecordedWell(s, protect)
    decreases |s.rejected|
  {
    if s.rejected == [] {
      RecordedEntries(s, protect);
    } else {
      RecordedInv(WithoutLastRefusal(s), protect);
      RecordedRefusal(s, protect);
    }
  }

  lemma StartInv(d: Disk, protect: bool)
    requires Installed(d)
    ensures Inv(Start(d, protect))
  {
    RecordedInv(Current(d), protect);
    PastUnmoved(OnDisk(Current(d)), d, Recorded(Current(d).entries, Current(d).rejected), protect);
  }

  lemma LinkInv(w: World, a: Action, w': World)
    requires Inv(w) && Link(w, a, w')
    ensures Inv(w')
  {
    NextInv(w, a);
  }

  lemma ReachesInv(w: World, w': World)
    requires Inv(w) && Reaches(Link, w, w')
    ensures Inv(w')
  {
    forall x, a, y | Link(x, a, y) && Inv(x) ensures Inv(y) {
      LinkInv(x, a, y);
    }
    ReachKeeps(Link, Inv, w, w');
  }

  lemma ReachableInv(w: World)
    requires Reachable(w)
    ensures Inv(w)
  {
    var d, protect :| Installed(d) && Reaches(Link, Start(d, protect), w);
    StartInv(d, protect);
    ReachesInv(Start(d, protect), w);
  }

  // ─── Nothing is lost ───

  /** The mutation is in the durable queue, as it was enqueued. */
  predicate StillThere(d: Disk, e: Entry) {
    exists i :: 0 <= i < |Current(d).entries| && SamePayload(Current(d).entries[i], e)
  }

  /** It is among the durable rejections, with what it was and an answer that the server gave for it. */
  predicate SetAside(d: Disk, past: History, e: Entry) {
    exists i :: 0 <= i < |Current(d).rejected| &&
      var r := Current(d).rejected[i];
      Refuses(r, e) && Ruling(e.id, r.reason, r.status) in past.rulings
  }

  /** Whatever was accepted, v1 keys included, is still on the disk as it was, was confirmed by the server, or was
    * refused by it and then acknowledged by hand; only the unprotected purge may add to `dropped`. */
  lemma NothingIsLost(w: World, id: Id)
    requires Reachable(w) && id in w.past.accepted
    ensures id in w.past.born
    ensures var e := w.past.born[id].entry;
            || StillThere(w.disk, e) || SetAside(w.disk, w.past, e)
            || id in w.past.confirmed
            || (id in w.past.acked && id in w.past.refused)
            || (!w.protect && id in w.past.dropped)
  {
    ReachableInv(w);
    KeptSomewhere(w, id);
  }

  lemma KeptSomewhere(w: World, id: Id)
    requires Inv(w) && id in w.past.accepted
    ensures id in w.past.born
    ensures var e := w.past.born[id].entry;
            || StillThere(w.disk, e) || SetAside(w.disk, w.past, e)
            || id in w.past.confirmed
            || (id in w.past.acked && id in w.past.refused)
            || (!w.protect && id in w.past.dropped)
  {
    var es, rs := Current(w.disk).entries, Current(w.disk).rejected;
    if id in EntryIds(es) {
      var i :| 0 <= i < |es| && es[i].id == id;
      assert SamePayload(es[i], w.past.born[id].entry);
    } else if id in RejectedIds(rs) {
      var i :| 0 <= i < |rs| && rs[i].id == id;
      assert Ruled(w.past, rs[i]);
    }
  }

  /** What a history says of an enqueue, no step unsays. */
  predicate Remembers(past: History, id: Id, b: Birth) { id in past.accepted && id in past.born && past.born[id] == b }

  lemma DataRemembers(w: World, a: Action, id: Id, b: Birth)
    requires Admissible(w, a) && !a.Lifecycle? && Remembers(w.past, id, b)
    ensures Remembers(Next(w, a).past, id, b)
  {
  }

  lemma LinkRemembers(w: World, a: Action, w': World, id: Id, b: Birth)
    requires Link(w, a, w') && Remembers(w.past, id, b)
    ensures Remembers(w'.past, id, b)
  {
    if !a.Lifecycle? {
      DataRemembers(w, a, id, b);
    }
  }

  predicate Follows(w: World, id: Id, b: Birth) { Inv(w) && Remembers(w.past, id, b) }

  /** An enqueue that returned, and any run after it: the mutation that the caller handed over is on the disk, field by
    * field, or the server has answered for it. */
  lemma EnqueuedIsKept(w: World, win: nat, e: Entry, k: nat, w': World)
    requires Reachable(w) && Admissible(w, Enqueue(win, e, k)) && win in w.windows
    requires EnqueueSection(w.disk, w.windows[win].queue, e, k).verdict == Done
    requires Reaches(Link, Next(w, Enqueue(win, e, k)), w')
    ensures || StillThere(w'.disk, e) || SetAside(w'.disk, w'.past, e)
            || e.id in w'.past.confirmed
            || (e.id in w'.past.acked && e.id in w'.past.refused)
            || (!w'.protect && e.id in w'.past.dropped)
  {
    var start, b := Next(w, Enqueue(win, e, k)), Birth(w.past.births, e);
    ReachableInv(w);
    LinkInv(w, Enqueue(win, e, k), start);
    forall x, a, y | Link(x, a, y) && Follows(x, e.id, b) ensures Follows(y, e.id, b) {
      LinkInv(x, a, y);
      LinkRemembers(x, a, y, e.id, b);
    }
    ReachKeeps(Link, x => Follows(x, e.id, b), start, w');
    KeptSomewhere(w', e.id);
  }

  // ─── Tenant isolation ───

  /** Whenever a scope is durable, every tenant cell on the disk was written under that scope. */
  lemma TenantIsolation(w: World, key: Key)
    requires Reachable(w) && Current(w.disk).scope.Some? && key in w.disk.items && key != DEVICE_KEY
    ensures w.disk.items[key] == Data(Current(w.disk).scope.value)
  {
    ReachableInv(w);
  }

  /** A scoped read that is let through reads what its own scope wrote. */
  lemma ScopedReadsAreOwn(w: World, win: nat, a: Authority, key: Key)
    requires Reachable(w) && win in w.windows && key in w.disk.items && key != DEVICE_KEY
    requires ScopedGuard(w.disk, w.windows[win].queue, a).verdict == Done
    ensures w.disk.items[key] == Data(a.scope)
  {
    ReachableInv(w);
    assert WindowInv(w.disk, w.past, w.windows[win]);
    GuardFacts(w.disk, w.windows[win].queue, a);
  }

  // ─── Retired scopes ───

  /** A data step leaves the scope, the identity's claim on it and the lifecycle where they were. */
  predicate Steady(w: World, w': World) {
    && ScopeFrame(w.disk, w'.disk) && (Owned(w.disk) ==> Owned(w'.disk)) && w'.life == w.life
    && LIFE in w.windows && LIFE in w'.windows
    && w'.windows[LIFE].queue.clearing == w.windows[LIFE].queue.clearing
  }

  lemma WithSteady(w: World, win: nat, s: Section)
    requires LIFE in w.windows && win in w.windows
    requires ScopeFrame(w.disk, s.disk) && (Owned(w.disk) ==> Owned(s.disk)) && s.queue.clearing == w.windows[win].queue.clearing
    ensures Steady(w, With(w, win, s))
  {
  }

  lemma WithTrackSteady(w: World, win: nat, i: nat, q: Queue, t: Track)
    requires LIFE in w.windows && HasTrack(w, win, i) && q.clearing == w.windows[win].queue.clearing
    ensures Steady(w, WithTrack(w, win, i, q, t))
  {
  }

  lemma AttachSteady(w: World, win: nat, k: nat)
    requires Inv(w)
    ensures Steady(w, AttachNext(w, win, k))
  {
    if win != LIFE && win in w.windows && Current(w.disk).scope.Some? {
      assert WindowInv(w.disk, w.past, w.windows[win]);
      AttachFacts(w.disk, w.windows[win].queue, k);
    }
  }

  lemma EnqueueSteady(w: World, win: nat, e: Entry, k: nat)
    requires Inv(w) && Admissible(w, Enqueue(win, e, k))
    ensures Steady(w, EnqueueNext(w, win, e, k))
  {
    if win in w.windows {
      assert WindowInv(w.disk, w.past, w.windows[win]);
      EnqueueTame(w.disk, w.windows[win].queue, e, k, w.past, w.protect);
    }
  }

  lemma AcknowledgeSteady(w: World, win: nat, ids: set<Id>, k: nat)
    requires Inv(w)
    ensures Steady(w, AcknowledgeNext(w, win, ids, k))
  {
    if win in w.windows {
      assert WindowInv(w.disk, w.past, w.windows[win]);
      AcknowledgeTame(w.disk, w.windows[win].queue, ids, k, w.past, w.protect);
    }
  }

  lemma CommitSteady(w: World, win: nat, i: nat, k: nat, published: bool)
    requires Inv(w)
    ensures Steady(w, CommitNext(w, win, i, k, published))
  {
    if AtStage(w, win, i, FlushPass.Finishing) && IsCurrent(w.windows[win].queue, w.windows[win].tracks[i]) {
      assert WindowInv(w.disk, w.past, w.windows[win]);
      assert TrackInv(w.past, w.windows[win].queue, w.windows[win].tracks[i]);
      CommitTame(w.disk, w.windows[win].queue, w.windows[win].tracks[i], k, published, w.past, w.protect);
    }
  }

  lemma PhotographSteady(w: World, win: nat)
    requires Inv(w)
    ensures Steady(w, PhotographNext(w, win))
  {
    if win in w.windows {
      assert WindowInv(w.disk, w.past, w.windows[win]);
      RefreshFacts(w.disk, w.windows[win].queue);
    }
  }

  /** The identity that a section may write names the scope of its authority. */
  lemma CellKeepsOwner(d: Disk, a: Authority, key: Key, w: Write)
    requires Current(d).scope == Some(a.scope)
    requires (w == DropItem(key) && key != DEVICE_KEY)
             || (w.PutItem? && w.key == key && (key == DEVICE_KEY ==> w.cell.Identity? && ScopeOf(w.cell.device) == a.scope))
    ensures ScopeFrame(d, Apply(d, w)) && (Owned(d) ==> Owned(Apply(d, w)))
  {
  }

  lemma WriteSteady(w: World, win: nat, a: Authority, key: Key, cell: Cell, k: nat)
    requires Inv(w) && Admissible(w, ScopedWrite(win, a, key, cell, k))
    ensures Steady(w, WriteNext(w, win, a, key, cell, k))
  {
    if win in w.windows {
      var q := w.windows[win].queue;
      assert WindowInv(w.disk, w.past, w.windows[win]);
      GuardFacts(w.disk, q, a);
      if ScopedGuard(w.disk, q, a).verdict == Done {
        CellKeepsOwner(w.disk, a, key, PutItem(key, cell));
      }
      WithSteady(w, win, ScopedSet(w.disk, q, a, key, cell, k));
    }
  }

  lemma EraseSteady(w: World, win: nat, a: Authority, key: Key, k: nat)
    requires Inv(w) && Admissible(w, ScopedErase(win, a, key, k))
    ensures Steady(w, EraseNext(w, win, a, key, k))
  {
    if win in w.windows {
      var q := w.windows[win].queue;
      assert WindowInv(w.disk, w.past, w.windows[win]);
      GuardFacts(w.disk, q, a);
      if ScopedGuard(w.disk, q, a).verdict == Done {
        CellKeepsOwner(w.disk, a, key, DropItem(key));
      }
      WithSteady(w, win, ScopedRemove(w.disk, q, a, key, k));
    }
  }

  lemma CheckSteady(w: World, win: nat, i: nat, readable: bool)
    requires Inv(w)
    ensures Steady(w, CheckNext(w, win, i, readable))
  {
    if AtStage(w, win, i, FlushPass.Checking) {
      assert WindowInv(w.disk, w.past, w.windows[win]);
      CheckFacts(w.disk, w.windows[win].queue, readable);
      var t := w.windows[win].tracks[i];
      var s := Checked(w.disk, w.windows[win].queue, readable);
      WithTrackSteady(w, win, i, s.queue, t.(pass := FlushPass.Checked(t.pass, CheckOf(s, readable))));
    }
  }

  lemma ResumeSteady(w: World, win: nat, i: nat, readable: bool, now: int)
    requires Inv(w)
    ensures Steady(w, ResumeNext(w, win, i, readable, now))
  {
    if HasTrack(w, win, i) && w.windows[win].tracks[i].pass.stage.Answered? {
      var q, t := w.windows[win].queue, w.windows[win].tracks[i];
      assert WindowInv(w.disk, w.past, w.windows[win]);
      if IsCurrent(q, t) {
        CheckFacts(w.disk, q, readable);
        var s := Checked(w.disk, q, readable);
        WithTrackSteady(w, win, i, s.queue, t.(pass := FlushPass.Resume(t.pass, true, CheckOf(s, readable), now)));
      } else {
        WithTrackSteady(w, win, i, q, t.(pass := FlushPass.Resume(t.pass, false, FlushPass.Holds, now)));
      }
    }
  }

  lemma ComeAndGoSteady(w: World, win: nat)
    requires LIFE in w.windows
    ensures Steady(w, OpenNext(w, win)) && Steady(w, ShutNext(w, win))
  {
  }

  lemma PassSteady(w: World, win: nat, i: nat, reply: FlushPass.Reply)
    requires LIFE in w.windows
    ensures Steady(w, HeadNext(w, win, i)) && Steady(w, IssueNext(w, win, i)) && Steady(w, ReplyNext(w, win, i, reply))
  {
  }

  lemma DataSteady(w: World, a: Action)
    requires Inv(w) && Admissible(w, a) && !a.Lifecycle?
    ensures Steady(w, Next(w, a))
  {
    match a
    case Attach(win, k) => AttachSteady(w, win, k);
    case Enqueue(win, e, k) => EnqueueSteady(w, win, e, k);
    case Acknowledge(win, ids, k) => AcknowledgeSteady(w, win, ids, k);
    case ScopedWrite(win, authority, key, cell, k) => WriteSteady(w, win, authority, key, cell, k);
    case ScopedErase(win, authority, key, k) => EraseSteady(w, win, authority, key, k);
    case Photograph(win) => PhotographSteady(w, win);
    case PassCheck(win, i, readable) => CheckSteady(w, win, i, readable);
    case PassResume(win, i, readable, now) => ResumeSteady(w, win, i, readable, now);
    case PassCommit(win, i, k, published) => CommitSteady(w, win, i, k, published);
    case Open(win) => ComeAndGoSteady(w, win);
    case Shut(win) => ComeAndGoSteady(w, win);
    case PassHead(win, i) => PassSteady(w, win, i, FlushPass.Delivered);
    case PassIssue(win, i) => PassSteady(w, win, i, FlushPass.Delivered);
    case PassReply(win, i, reply) => PassSteady(w, win, i, reply);
  }

  lemma LifecycleRetires(w: World, step: LifeStep, crash: bool)
    requires Inv(w) && Admissible(w, Lifecycle(step, crash))
    ensures EpochFrame(w.disk, LifecycleNext(w, step, crash).disk)
  {
    assert WindowInv(w.disk, w.past, w.windows[LIFE]);
    TakeStep(w.disk, w.windows[LIFE].queue, w.life, w.protect, step, w.past);
  }

  lemma StepRetires(w: World, a: Action)
    requires Inv(w) && Admissible(w, a)
    ensures EpochFrame(w.disk, Next(w, a).disk)
  {
    if a.Lifecycle? {
      LifecycleRetires(w, a.step, a.crash);
    } else {
      DataSteady(w, a);
    }
  }

  lemma LinkRetires(w: World, a: Action, w': World)
    requires Inv(w) && Link(w, a, w')
    ensures EpochFrame(w.disk, w'.disk)
  {
    StepRetires(w, a);
  }

  predicate NotBefore(w: World, w': World) {
    Inv(w') && Current(w.disk).retired <= Current(w'.disk).retired && Current(w.disk).epoch <= Current(w'.disk).epoch
  }

  /** From any reachable world on, the retired scopes only grow and the epoch never falls. */
  lemma RetiredOnlyGrows(w: World, w': World)
    requires Reachable(w) && Reaches(Link, w, w')
    ensures Current(w.disk).retired <= Current(w'.disk).retired
    ensures Current(w.disk).epoch <= Current(w'.disk).epoch
  {
    ReachableInv(w);
    forall x, a, y | Link(x, a, y) && NotBefore(w, x) ensures NotBefore(w, y) {
      LinkInv(x, a, y);
      LinkRetires(x, a, y);
    }
    ReachKeeps(Link, x => NotBefore(w, x), w, w');
  }

  /** A scope that was ever retired is never durable again, whatever the windows remember. */
  lemma RetiredScopeNeverReturns(w: World, w': World, scope: Scope)
    requires Reachable(w) && Reaches(Link, w, w') && scope in Current(w.disk).retired
    ensures scope in Current(w'.disk).retired && Current(w'.disk).scope != Some(scope)
  {
    RetiredOnlyGrows(w, w');
    ReachableInv(w);
    ReachesInv(w, w');
  }

  // ─── Order ───

  /** The durable queue is always in the order in which its entries were enqueued. */
  lemma DurableQueueInOrder(w: World, i: nat, j: nat)
    requires Reachable(w) && i < j < |Current(w.disk).entries|
    ensures var es := Current(w.disk).entries;
            && es[i].id in w.past.born && es[j].id in w.past.born
            && w.past.born[es[i].id].rank < w.past.born[es[j].id].rank
  {
    ReachableInv(w);
  }

  /** A pass that is about to send: what was born before its entry is settled. */
  lemma ReadyOrder(past: History, q: Queue, t: Track, earlier: Id)
    requires TrackInv(past, q, t) && t.pass.stage == FlushPass.Ready && earlier in past.born
    requires var e := t.pass.eligible[t.pass.index];
             && e.Blocks().Some? && e.id in past.born
             && past.born[earlier].entry.Blocks() == e.Blocks() && past.born[earlier].rank < past.born[e.id].rank
    ensures Passed(past, earlier) || earlier in past.dropped
  {
    var es := t.pass.eligible;
    if earlier in EntryIds(es) {
      var j :| 0 <= j < |es| && es[j].id == earlier;
      assert Ranks(past)[es[j].id] < Ranks(past)[es[t.pass.index].id];
      assert j < t.pass.index;
    }
  }

  /** An entry is only ever sent when every earlier entry of its subject has been confirmed or refused. */
  lemma SubjectOrder(w: World, win: nat, i: nat, earlier: Id)
    requires Reachable(w) && AtStage(w, win, i, FlushPass.Ready)
    requires var p := w.windows[win].tracks[i].pass;
             var e := p.eligible[p.index];
             && e.Blocks().Some? && e.id in w.past.born && earlier in w.past.born
             && w.past.born[earlier].entry.Blocks() == e.Blocks()
             && w.past.born[earlier].rank < w.past.born[e.id].rank
    ensures earlier in w.past.confirmed || earlier in w.past.refused || (!w.protect && earlier in w.past.dropped)
  {
    ReachableInv(w);
    assert WindowInv(w.disk, w.past, w.windows[win]);
    ReadyOrder(w.past, w.windows[win].queue, w.windows[win].tracks[i], earlier);
  }

  /** `e.id in past.born` above is no restriction: a pass only ever holds recorded entries. */
  lemma PassesHoldRecorded(w: World, win: nat, i: nat, j: nat)
    requires Reachable(w) && HasTrack(w, win, i) && j < |w.windows[win].tracks[i].pass.eligible|
    ensures var e := w.windows[win].tracks[i].pass.eligible[j];
            e.id in w.past.born && SamePayload(e, w.past.born[e.id].entry)
  {
    ReachableInv(w);
    assert WindowInv(w.disk, w.past, w.windows[win]);
    assert TrackInv(w.past, w.windows[win].queue, w.windows[win].tracks[i]);
  }

  // ─── A flush cut off by a purge ───

  /** A pass that lost its generation sends at most once more, and nothing it does reaches the disk. */
  lemma CutPassIsHarmless(w: World, win: nat, i: nat, k: nat, published: bool)
    requires Reachable(w) && HasTrack(w, win, i)
    ensures var t := w.windows[win].tracks[i];
            && t.lateSends <= 1
            && (!IsCurrent(w.windows[win].queue, t) ==> CommitNext(w, win, i, k, published).disk == w.disk)
  {
    ReachableInv(w);
    assert WindowInv(w.disk, w.past, w.windows[win]);
    assert TrackInv(w.past, w.windows[win].queue, w.windows[win].tracks[i]);
  }

  /** What a pass commits, it commits in the epoch and under the scope it photographed. */
  lemma CommitsStayInTheirEpoch(w: World, win: nat, i: nat, k: nat, published: bool)
    requires Reachable(w) && HasTrack(w, win, i) && CommitNext(w, win, i, k, published).disk != w.disk
    ensures var t := w.windows[win].tracks[i];
            var s := Current(CommitNext(w, win, i, k, published).disk);
            s.epoch == t.epoch && s.scope == Some(t.scope)
  {
    ReachableInv(w);
    var q, t := w.windows[win].queue, w.windows[win].tracks[i];
    assert WindowInv(w.disk, w.past, w.windows[win]);
    assert TrackInv(w.past, q, t);
    CommitTame(w.disk, q, t, k, published, w.past, w.protect);
    RefreshFacts(w.disk, q);
  }

  /** A protected purge that finds work to do leaves the queue as it found it, and open. */
  lemma RefusedPurgeKeepsTheQueue(d: Disk, q: Queue, run: WipeRun)
    requires DiskInv(d) && QueueInv(d, q) && q.bound.Some? && Current(d).HasMatter()
    ensures var s := RunClear(d, q, true, run);
            && s.disk == d && s.verdict != Done
            && (Matches(q, Current(d)) <==> s.verdict == Unsynced)
            && (s.verdict == Unsynced ==> !s.queue.clearing)
  {
  }

  // ─── The queue never locks itself out ───

  lemma NeverLockedOut(w: World)
    requires Reachable(w)
    ensures Durable(w.disk).Some?
  {
    ReachableInv(w);
  }

  /** The one input that is not checked: an enqueue that gets through can be read back if and only if its
    * path starts with "/"; otherwise no window can read the queue again. */
  lemma EnqueueReadableIffRooted(d: Disk, q: Queue, e: Entry, k: nat)
    requires DiskInv(d) && QueueInv(d, q) && e.id != "" && e.attempts == 0
    requires EnqueueSection(d, q, e, k).verdict == Done
    ensures Durable(EnqueueSection(d, q, e, k).disk).Some? <==> e.path != "" && e.path[0] == '/'
  {
    var r := Refresh(d, q);
    RefreshFacts(d, q);
    var es := Current(d).entries + [e];
    PersistLands(d, SnapshotOf(r.queue, es, Current(d).rejected), r.queue.legacyCleanup, k);
    assert es[|Current(d).entries|] == e;
    if ValidPath(e.path) {
      AppendValid(Current(d).entries, Current(d).rejected, e);
    }
  }
}

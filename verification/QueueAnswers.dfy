/** When each section of the queue goes through, and what it then leaves on the disk: stated on the durable record, on
  * the fields of the window and on the writes that get through, and on nothing else. */
module QueueAnswers {
  import opened Wrappers
  import opened QueueModel
  import opened QueueFacts
  import opened QueueWorld
  import opened QueueInvariant
  import opened QueueSections
  import opened QueueHistory
  import opened QueueDataSteps
  import opened QueueLifeSteps
  import opened QueueRecovery

  /** The window holds the durable scope and nothing purges it. */
  predicate Authorised(d: Disk, q: Queue) {
    && !q.invalidated && q.bound.Some? && !q.clearing
    && Current(d).epoch == q.epoch && Current(d).scope == q.bound
  }

  predicate HoldsId(s: Snapshot, id: Id) {
    || (exists i :: 0 <= i < |s.entries| && s.entries[i].id == id)
    || (exists i :: 0 <= i < |s.rejected| && s.rejected[i].id == id)
  }

  /** The lists changed, nothing else that is durable did. */
  predicate OnlyLists(d: Disk, d': Disk, entries: seq<Entry>, rejected: seq<Rejected>) {
    d'.items == d.items && Current(d') == Current(d).(entries := entries, rejected := rejected)
  }

  /** An enqueue returns exactly when the window holds the durable scope, the amount is absent or a non-negative safe
    * integer, the id is new and the snapshot is written; the queue is then the old one followed by the entry, and
    * otherwise the disk is as it was. */
  lemma EnqueueSucceedsIff(d: Disk, q: Queue, e: Entry, k: nat)
    requires DiskInv(d) && QueueInv(d, q)
    ensures var s := EnqueueSection(d, q, e, k);
            && (s.verdict == Done <==>
                  && Authorised(d, q)
                  && (e.displayAmount.Some? ==> 0 <= e.displayAmount.value <= MAX_SAFE_INTEGER)
                  && !HoldsId(Current(d), e.id) && 0 < k)
            && (s.verdict == Done ==>
                  && OnlyLists(d, s.disk, Current(d).entries + [e], Current(d).rejected)
                  && s.queue.entries == Current(d).entries + [e] && s.queue.rejected == Current(d).rejected)
            && (s.verdict != Done ==> s.disk == d)
  {
    var r := Refresh(d, q);
    RefreshFacts(d, q);
    HoldsIds(Current(d), e.id);
    if Gate(q) == Done && r.verdict == Done && 0 < k {
      PersistLands(d, SnapshotOf(r.queue, Current(d).entries + [e], Current(d).rejected), r.queue.legacyCleanup, k);
    }
  }

  lemma HoldsIds(s: Snapshot, id: Id)
    ensures HoldsId(s, id) <==> id in EntryIds(s.entries) || id in RejectedIds(s.rejected)
  {
    assert id in EntryIds(s.entries) <==> exists i :: 0 <= i < |s.entries| && s.entries[i].id == id;
    assert id in RejectedIds(s.rejected) <==> exists i :: 0 <= i < |s.rejected| && s.rejected[i].id == id;
  }

  /** A part of a list, in the order of the list. */
  predicate InOrder<T(==)>(part: seq<T>, list: seq<T>) {
    && (forall x | x in part :: x in list)
    && forall i, j | 0 <= i < j < |part| :: exists a, b :: 0 <= a < b < |list| && list[a] == part[i] && list[b] == part[j]
  }

  /** Where a rejection that stays comes from. */
  lemma {:induction false} StaysAt(rejected: seq<Rejected>, ids: set<Id>, j: nat) returns (b: nat)
    requires j < |Unacknowledged(rejected, ids)|
    ensures b < |rejected| && rejected[b] == Unacknowledged(rejected, ids)[j]
  {
    var head, rest := if rejected[0].id in ids then [] else [rejected[0]], Unacknowledged(rejected[1..], ids);
    assert Unacknowledged(rejected, ids) == head + rest;
    if j < |head| {
      b := 0;
    } else {
      b := StaysAt(rejected[1..], ids, j - |head|);
      b := b + 1;
    }
  }

  lemma {:induction false} StayInOrder(rejected: seq<Rejected>, ids: set<Id>, i: nat, j: nat) returns (a: nat, b: nat)
    requires i < j < |Unacknowledged(rejected, ids)|
    ensures a < b < |rejected| && rejected[a] == Unacknowledged(rejected, ids)[i] && rejected[b] == Unacknowledged(rejected, ids)[j]
  {
    var head, rest := if rejected[0].id in ids then [] else [rejected[0]], Unacknowledged(rejected[1..], ids);
    assert Unacknowledged(rejected, ids) == head + rest;
    if i < |head| {
      b := StaysAt(rejected[1..], ids, j - |head|);
      a, b := 0, b + 1;
    } else {
      a, b := StayInOrder(rejected[1..], ids, i - |head|, j - |head|);
      a, b := a + 1, b + 1;
    }
  }

  lemma UnacknowledgedInOrder(rejected: seq<Rejected>, ids: set<Id>)
    ensures InOrder(Unacknowledged(rejected, ids), rejected)
  {
    var rest := Unacknowledged(rejected, ids);
    UnacknowledgedFacts(rejected, ids);
    forall i, j | 0 <= i < j < |rest|
      ensures exists a, b :: 0 <= a < b < |rejected| && rejected[a] == rest[i] && rejected[b] == rest[j]
    {
      var a, b := StayInOrder(rejected, ids, i, j);
    }
  }

  /** So does an acknowledgement, whatever its ids; it takes off exactly the rejections that bear one of them. */
  lemma AcknowledgeSucceedsIff(d: Disk, q: Queue, ids: set<Id>, k: nat)
    requires DiskInv(d) && QueueInv(d, q)
    ensures var s := AcknowledgeSection(d, q, ids, k);
            && (s.verdict == Done <==> Authorised(d, q) && 0 < k)
            && (s.verdict == Done ==>
                  var rest := Current(s.disk).rejected;
                  && OnlyLists(d, s.disk, Current(d).entries, rest) && InOrder(rest, Current(d).rejected)
                  && s.queue.entries == Current(d).entries && s.queue.rejected == rest
                  && forall r :: r in rest <==> r in Current(d).rejected && r.id !in ids)
            && (s.verdict != Done ==> s.disk == d)
  {
    var r := Refresh(d, q);
    RefreshFacts(d, q);
    UnacknowledgedFacts(Current(d).rejected, ids);
    UnacknowledgedInOrder(Current(d).rejected, ids);
    if Gate(q) == Done && r.verdict == Done && 0 < k {
      PersistLands(d, SnapshotOf(r.queue, Current(d).entries, Unacknowledged(Current(d).rejected, ids)),
                   r.queue.legacyCleanup, k);
    }
  }

  /** A window that loses its authority ends its passes, once, and keeps everything else. */
  lemma LostAuthorityEndsPasses(d: Disk, q: Queue)
    requires DiskInv(d) && QueueInv(d, q) && !q.invalidated && !(Current(d).epoch == q.epoch && Current(d).scope == q.bound)
    ensures var lost := q.(invalidated := true, generation := q.generation + 1);
            && AssertScope(d, q).queue == lost && Refresh(d, q) == Section(d, lost, ScopeChanged)
            && AssertScope(d, lost).queue == lost && Refresh(d, lost).queue == lost
  {
  }

  // ─── The commit of a pass ───

  /** The refusal of the last entry, if it was refused. */
  function LastRefusal(entries: seq<Entry>, outcomes: map<Id, Outcome>): seq<Rejected>
    requires entries != []
  {
    var e := entries[|entries| - 1];
    if e.id in outcomes && outcomes[e.id].Permanent? then [outcomes[e.id].rejected] else []
  }

  lemma RefusalsFromTheEnd(entries: seq<Entry>, outcomes: map<Id, Outcome>, a: nat)
    requires entries != [] && a < |NewlyRejected(entries[..|entries| - 1], outcomes)|
    ensures var head, before := LastRefusal(entries, outcomes), NewlyRejected(entries[..|entries| - 1], outcomes);
            && NewlyRejected(entries, outcomes) == head + before
            && NewlyRejected(entries, outcomes)[|head| + a] == before[a]
  {
  }

  /** Two entries that are refused in one pass: the later one stands first among the rejections. */
  lemma {:induction false} LatestRefusalFirst(entries: seq<Entry>, outcomes: map<Id, Outcome>, i: nat, j: nat) returns (a: nat, b: nat)
    requires i < j < |entries|
    requires entries[i].id in outcomes && outcomes[entries[i].id].Permanent?
    requires entries[j].id in outcomes && outcomes[entries[j].id].Permanent?
    ensures var rs := NewlyRejected(entries, outcomes);
            a < b < |rs| && rs[a] == outcomes[entries[j].id].rejected && rs[b] == outcomes[entries[i].id].rejected
  {
    var n := |entries| - 1;
    var head := LastRefusal(entries, outcomes);
    if j == n {
      b := RefusalAt(entries[..n], outcomes, i);
      RefusalsFromTheEnd(entries, outcomes, b);
      a, b := 0, |head| + b;
    } else {
      a, b := LatestRefusalFirst(entries[..n], outcomes, i, j);
      RefusalsFromTheEnd(entries, outcomes, a);
      RefusalsFromTheEnd(entries, outcomes, b);
      a, b := |head| + a, |head| + b;
    }
  }

  lemma {:induction false} RefusalAt(entries: seq<Entry>, outcomes: map<Id, Outcome>, i: nat) returns (a: nat)
    requires i < |entries| && entries[i].id in outcomes && outcomes[entries[i].id].Permanent?
    ensures a < |NewlyRejected(entries, outcomes)| && NewlyRejected(entries, outcomes)[a] == outcomes[entries[i].id].rejected
  {
    var n := |entries| - 1;
    if i == n {
      a := 0;
    } else {
      var at := RefusalAt(entries[..n], outcomes, i);
      a := at + if entries[n].id in outcomes && outcomes[entries[n].id].Permanent? then 1 else 0;
    }
  }

  /** The commit of a pass that is still current reaches the disk exactly when the window's epoch and scope are the
    * durable ones and the snapshot is written, and it decides the queue as it stands on the disk by then; any other
    * leaves the disk as it was. */
  lemma CommitLandsIff(d: Disk, q: Queue, outcomes: map<Id, Outcome>, generation: nat, k: nat, published: bool)
    requires DiskInv(d) && QueueInv(d, q)
    ensures var s := CommitSection(d, q, outcomes, generation, k, published);
            var cur := Current(d);
            if generation == q.generation && cur.epoch == q.epoch && cur.scope == q.bound && 0 < k
            then && s.verdict == Done
                 && OnlyLists(d, s.disk, StillQueued(cur.entries, outcomes), NewlyRejected(cur.entries, outcomes) + cur.rejected)
                 && s.queue.entries == (if published then StillQueued(cur.entries, outcomes) else cur.entries)
                 && s.queue.rejected == (if published then NewlyRejected(cur.entries, outcomes) + cur.rejected else cur.rejected)
            else s.disk == d
  {
    var r := Refresh(d, q);
    RefreshFacts(d, q);
    if r.verdict == Done && 0 < k {
      PersistLands(d, SnapshotOf(r.queue, StillQueued(Current(d).entries, outcomes),
                                 NewlyRejected(Current(d).entries, outcomes) + Current(d).rejected), r.queue.legacyCleanup, k);
    }
  }

  /** The check before a send lets a pass go on exactly when the window still holds the durable scope; otherwise the
    * window is invalidated, and it is told whether its scope was retired. */
  lemma CheckHoldsIff(d: Disk, q: Queue)
    requires DiskInv(d) && QueueInv(d, q)
    ensures var s := AssertScope(d, q);
            && s.disk == d
            && (s.verdict == Done <==> !q.invalidated && Current(d).epoch == q.epoch && Current(d).scope == q.bound)
            && (s.verdict == Done ==> s.queue == q) && (s.verdict != Done ==> s.queue.invalidated)
            && (s.verdict == ScopeRetired <==> !q.invalidated && q.bound.Some? && q.bound.value in Current(d).retired)
  {
  }

  /** The scoped store lets a read or a write through exactly while the authority captured before the lock is that of the
    * window and of the disk; a disk that has moved on invalidates the window, and it is told whether its scope was
    * retired. */
  lemma ScopedGuardIff(d: Disk, q: Queue, a: Authority)
    requires DiskInv(d) && QueueInv(d, q)
    ensures var g := ScopedGuard(d, q, a);
            var mine := !q.clearing && !q.invalidated && q.generation == a.generation && q.bound == Some(a.scope) && q.epoch == a.epoch;
            var durable := Current(d).epoch == a.epoch && Current(d).scope == Some(a.scope);
            && g.disk == d
            && (g.verdict == Done <==> mine && durable) && (g.verdict == Done ==> g.queue == q)
            && (!mine ==> g.queue == q && g.verdict == ScopeChanged)
            && (mine && !durable ==> g.queue.invalidated
                                     && g.verdict == if a.scope in Current(d).retired then ScopeRetired else ScopeChanged)
  {
  }

  // ─── Binding, pairing, unpairing ───

  /** A device keeps the scope it was given; one from before scopes existed has a scope of its own, made from its id.
    * The intent and the identity of a pairing carry that scope, the intent alone as pending. */
  lemma ScopesOfDevices(device: Device, other: Device)
    ensures device.queueScope.Some? && device.queueScope.value != "" ==> ScopeOf(device) == device.queueScope.value
    ensures device.queueScope.None? && other.queueScope.None? ==> (ScopeOf(device) == ScopeOf(other) <==> device.id == other.id)
    ensures Intent(device) == Device(device.id, Some(ScopeOf(device)), true)
    ensures Committed(device) == Device(device.id, Some(ScopeOf(device)), false)
    ensures ScopeOf(Intent(device)) == ScopeOf(Committed(device)) == ScopeOf(device)
  {
    ScopeOfNonEmpty(device);
    if device.queueScope.None? && other.queueScope.None? && ScopeOf(device) == ScopeOf(other) {
      assert ScopeOf(device)[7..] == device.id && ScopeOf(other)[7..] == other.id;
    }
  }

  /** A window that is bound already answers for its own scope by a check, and refuses another one but to a fresh
    * pairing; an invalidated one refuses all. */
  lemma BoundWindowAnswers(d: Disk, q: Queue, scope: Scope, pairing: bool, k: nat)
    ensures q.invalidated ==> BindScope(d, q, scope, pairing, k) == Section(d, q, ScopeChanged)
    ensures !q.invalidated && q.bound == Some(scope) ==> BindScope(d, q, scope, pairing, k) == AssertScope(d, q)
    ensures !q.invalidated && q.bound.Some? && q.bound != Some(scope) && !pairing ==>
              BindScope(d, q, scope, pairing, k) == Section(d, q, ScopeChanged)
  {
  }

  /** Any other bind succeeds exactly when the disk can be read, the scope was never retired, no purge is
    * pending, no other scope is durable, a fresh pairing finds no work, and the claim, if one is needed, is written. */
  lemma BindSucceedsIff(d: Disk, q: Queue, scope: Scope, pairing: bool, k: nat)
    requires !q.invalidated && !q.purgePending && q.bound != Some(scope) && (q.bound.None? || pairing)
    ensures var s := BindScope(d, q, scope, pairing, k);
            var cur := Current(d);
            && (s.verdict == Done <==>
                  && Durable(d).Some? && scope !in cur.retired && !cur.purgePending
                  && (cur.scope == Some(scope) || (cur.scope.None? && (pairing ==> cur.entries == [] && cur.rejected == [])))
                  && ((cur.scope == Some(scope) && !HasLegacy(d)) || 0 < k))
            && (s.verdict == Done ==>
                  && s.disk.items == d.items && Current(s.disk) == cur.(scope := Some(scope))
                  && s.queue.bound == Some(scope) && s.queue.epoch == cur.epoch
                  && s.queue.entries == cur.entries && s.queue.rejected == cur.rejected && s.queue.retired == cur.retired)
            && (s.verdict != Done ==> s.disk == d)
  {
    if Durable(d).Some? && 0 < k {
      PersistLands(d, Current(d).(scope := Some(scope), purgePending := false), q.legacyCleanup || HasLegacy(d), k);
    }
  }

  /** A purge goes through exactly when the window's epoch and scope are the durable ones, there is no work to lose or
    * no protection, and the tombstone is written: the queue is then empty, one epoch on, under no scope, and the scope
    * is retired. */
  lemma PurgeSucceedsIff(d: Disk, q: Queue, protect: bool, run: WipeRun)
    requires DiskInv(d) && QueueInv(d, q) && q.bound.Some?
    ensures var s := RunClear(d, q, protect, run);
            var cur := Current(d);
            && (s.verdict == Done <==>
                  && cur.epoch == q.epoch && cur.scope == q.bound
                  && (protect ==> cur.entries == [] && cur.rejected == []) && 3 <= run.kept)
            && (s.verdict == Done ==>
                  && s.disk.items == d.items
                  && Current(s.disk) == Snapshot(cur.epoch + 1, None, cur.retired + [q.bound.value], true, [], [])
                  && s.queue.bound.None? && s.queue.epoch == cur.epoch + 1 && s.queue.purgePending
                  && s.queue.retired == cur.retired + [q.bound.value] && s.queue.entries == [] && s.queue.rejected == [])
            && (s.verdict != Done ==> Current(s.disk) == cur || run.kept < 3)
  {
    WipeLands(d, q, Current(d).epoch + 1, run);
  }

  /** A bind that claims a scope leaves no purge in the memory of its window, whatever it remembered before. */
  lemma BindForgetsThePurge(d: Disk, q: Queue, scope: Scope, pairing: bool, k: nat)
    requires q.bound != Some(scope) && BindScope(d, q, scope, pairing, k).verdict == Done
    ensures var s := BindScope(d, q, scope, pairing, k);
            !s.queue.purgePending && s.queue.loaded && s.queue.bound == Some(scope)
  {
  }

  /** A disk that cannot be read stops a protected purge, and not an unprotected one. */
  lemma PurgeOfAnUnreadableDisk(d: Disk, q: Queue, run: WipeRun)
    requires d.v2.Some? && !ValidSnapshot(d.v2.value)
    ensures RunClear(d, q, true, run) == Section(d, q, Corrupted)
    ensures var s := RunClear(d, q, false, run);
            && (s.verdict == Done <==> 3 <= run.kept)
            && (s.verdict == Done ==>
                  && s.disk.items == d.items && s.disk.v2.Some?
                  && s.disk.v2.value.epoch == q.epoch + 1 && s.disk.v2.value.scope.None? && s.disk.v2.value.purgePending
                  && s.disk.v2.value.entries == [] && s.disk.v2.value.rejected == []
                  && forall x :: x in s.disk.v2.value.retired <==> x in q.retired || q.bound == Some(x))
  {
    WipeLands(d, q, q.epoch + 1, run);
  }

  /** Before any snapshot was written, only a window that never bound one purges; a protected purge stops on v1 keys that
    * cannot be read or that hold work, and then opens the queue again. */
  lemma PurgeBeforeAnySnapshot(d: Disk, q: Queue, protect: bool, run: WipeRun)
    requires d.v2.None?
    ensures var s := RunClear(d, q, protect, run);
            if q.epoch != 0 || q.bound.Some? then s.verdict == ScopeChanged && s.disk == d && s.queue.invalidated
            else if protect && !ValidLists(d.legacyEntries.GetOr([]), d.legacyRejected.GetOr([]))
            then s == Section(d, q, Corrupted)
            else if protect && (d.legacyEntries.GetOr([]) != [] || d.legacyRejected.GetOr([]) != [])
            then s == Section(d, q.(clearing := false), Unsynced)
            else (s.verdict == Done <==> 3 <= run.kept) && (s.verdict == Done ==> s.disk.v2.Some? && s.disk.v2.value.epoch == 1)
  {
    WipeLands(d, q, q.epoch + 1, run);
  }

  /** When the v1 keys are on the disk, a snapshot that is written takes their place: as soon as the clean-up has got past
    * its second write they hold nothing, and at its end they are gone. */
  lemma SnapshotReplacesTheOldKeys(d: Disk, s: Snapshot, k: nat)
    requires 3 <= k
    ensures var d' := ApplyAll(d, Prefix(PersistPlan(s, true), k));
            && d'.v2 == Some(s) && d'.items == d.items
            && d'.legacyEntries.GetOr([]) == [] && d'.legacyRejected.GetOr([]) == []
            && (5 <= k ==> d'.legacyEntries.None? && d'.legacyRejected.None?)
  {
    var plan := PersistPlan(s, true);
    PersistLands(d, s, true, k);
    assert ApplyAll(d, Prefix(plan, 0)) == d;
    Performed(d, plan, 0);
    Performed(d, plan, 1);
    Performed(d, plan, 2);
    Performed(d, plan, 3);
    Performed(d, plan, 4);
    assert 5 <= k ==> Prefix(plan, k) == Prefix(plan, 5);
  }

  /** A clean-up of the v1 keys that did not get through is tried again with the next snapshot of the window. */
  lemma CleanupIsTriedAgain(d: Disk, q: Queue, entries: seq<Entry>, rejected: seq<Rejected>, k: nat, published: bool)
    requires 0 < k
    ensures Persist(d, q, entries, rejected, k, published).queue.legacyCleanup <==> q.legacyCleanup && k < 5
  {
  }

  /** A till that stopped, or is at rest, boots again when it is asked to, on the disk as it is; one that is at work does
    * not. */
  lemma BootsAgain(d: Disk, q: Queue, life: Life, protect: bool)
    ensures TakeLifeStep(d, q, life, protect, Boot) == LifeState(d, q, if life.Stuck? || life.Idle? then Booting else life)
  {
  }

  /** A till whose identity is in order boots without a single write, whatever the storage would refuse. */
  lemma SettledTillBootsWithoutWriting(d: Disk, device: Device, protect: bool, a: Grant, b: Grant, c: Grant)
    requires Durable(d).Some? && !HasLegacy(d) && !Current(d).purgePending
    requires d.items.Keys >= {DEVICE_KEY} && d.items[DEVICE_KEY] == Identity(device) && device == Committed(device)
    requires Current(d).scope == Some(ScopeOf(device)) && ScopeOf(device) !in Current(d).retired
    ensures var read := Advance(d, FRESH_QUEUE, Booting, protect, a);
            var bound := Advance(read.disk, read.queue, read.life, protect, b);
            var end := Advance(bound.disk, bound.queue, bound.life, protect, c);
            && end.life == Idle(Some(device)) && end.disk == d && end.queue.bound == Some(ScopeOf(device))
            && end.queue.entries == Current(d).entries && end.queue.rejected == Current(d).rejected
  {
    BindSucceedsIff(d, FRESH_QUEUE, ScopeOf(device), device.bindingPending, b.writes);
    ScopeOfNonEmpty(device);
  }

  /** A pairing whose bind failed puts back what stood under the identity key, but only over its own intent: what another
    * window has written since stays. */
  lemma UndoTouchesItsOwnIntent(d: Disk, q: Queue, device: Device, previous: Option<Cell>, protect: bool, g: Grant)
    ensures var end := Advance(d, q, PairUndo(device, previous), protect, g);
            && end.life == Idle(None) && end.queue == q && Current(end.disk) == Current(d)
            && (CellAt(d, DEVICE_KEY) != Some(Identity(Intent(device))) ==> end.disk == d)
            && (CellAt(d, DEVICE_KEY) == Some(Identity(Intent(device))) && 0 < g.writes ==> CellAt(end.disk, DEVICE_KEY) == previous)
            && (forall key | key != DEVICE_KEY :: CellAt(end.disk, key) == CellAt(d, key))
  {
  }

  predicate AtRestUnpaired(s: LifeState) {
    && Unpaired(s) && Durable(s.disk).Some? && !Current(s.disk).HasMatter()
    && !s.queue.invalidated && s.queue.bound.None? && !s.queue.clearing && !s.queue.purgePending
  }

  predicate AtRestPaired(s: LifeState) {
    && Paired(s) && DiskInv(s.disk) && QueueInv(s.disk, s.queue) && InPerimeter(s.disk)
    && !s.queue.invalidated && !s.queue.clearing && s.queue.epoch == Current(s.disk).epoch
  }

  function Granted(s: LifeState, protect: bool): LifeState { Advance(s.disk, s.queue, s.life, protect, GRANT_ALL) }

  /** A pairing whose writes get through, on an unpaired till without work, pairs it. */
  lemma PairingPairs(s: LifeState, device: Device, protect: bool)
    requires AtRestUnpaired(s) && DiskInv(s.disk) && ScopeOf(device) !in Current(s.disk).retired
    ensures var end := Granted(Granted(Granted(s.(life := PairIntent(device)), protect), protect), protect);
            && AtRestPaired(end) && end.life == Idle(Some(Committed(device)))
            && Current(end.disk) == Current(s.disk).(scope := Some(ScopeOf(device)))
            && end.disk.items == map[DEVICE_KEY := Identity(Committed(device))]
  {
    var intended := Granted(s.(life := PairIntent(device)), protect);
    ScopeOfNonEmpty(device);
    assert Current(intended.disk) == Current(s.disk) && Durable(intended.disk).Some?;
    BindSucceedsIff(intended.disk, s.queue, ScopeOf(device), true, FULL);
    var bound := Granted(intended, protect);
    PairedAfterSave(bound, device, protect);
  }

  lemma PairedAfterSave(s: LifeState, device: Device, protect: bool)
    requires s.life.PairSave? && s.life.device == device && DiskInv(s.disk) && QueueInv(s.disk, s.queue)
    requires Current(s.disk).scope == Some(ScopeOf(device)) && s.queue.bound == Some(ScopeOf(device))
    requires s.queue.epoch == Current(s.disk).epoch && !s.queue.invalidated && !s.queue.clearing
    requires s.disk.items == map[DEVICE_KEY := Identity(Intent(device))]
    ensures var end := Granted(s, protect);
            && AtRestPaired(end) && end.life == Idle(Some(Committed(device)))
            && Current(end.disk) == Current(s.disk) && end.disk.items == map[DEVICE_KEY := Identity(Committed(device))]
  {
    GuardFacts(s.disk, s.queue, Authority(s.queue.bound.value, s.queue.epoch, s.queue.generation));
  }

  /** An unpairing whose writes get through, on a paired till without work or without protection, leaves nothing of the
    * tenant and retires its scope. */
  lemma ForgettingUnpairs(s: LifeState, protect: bool)
    requires AtRestPaired(s) && (protect ==> !Current(s.disk).HasMatter())
    ensures var asked := TakeLifeStep(s.disk, s.queue, s.life, protect, Forget);
            var end := Granted(Granted(Granted(asked, protect), protect), protect);
            && AtRestUnpaired(end)
            && Current(end.disk) == Snapshot(Current(s.disk).epoch + 1, None,
                                             Current(s.disk).retired + [Current(s.disk).scope.value], false, [], [])
  {
    var asked := TakeLifeStep(s.disk, s.queue, s.life, protect, Forget);
    PurgeSucceedsIff(asked.disk, asked.queue, protect, GRANT_ALL.wipe);
    var cleared := Granted(asked, protect);
    CellsGo(cleared, protect);
    var purged := Granted(cleared, protect);
    TombstoneReadable(s.disk, purged.disk);
    AcknowledgedUnpairs(purged, protect);
  }

  lemma AcknowledgedUnpairs(s: LifeState, protect: bool)
    requires s.life.ForgetAck? && s.disk.items == map[] && Durable(s.disk).Some? && !s.queue.invalidated
    requires Current(s.disk).scope.None? && Current(s.disk).purgePending && !Current(s.disk).HasMatter()
    ensures AtRestUnpaired(Granted(s, protect))
    ensures Current(Granted(s, protect).disk) == Current(s.disk).(purgePending := false)
  {
    PersistLands(s.disk, Current(s.disk).(purgePending := false), s.queue.legacyCleanup, FULL);
  }

  lemma CellsGo(s: LifeState, protect: bool)
    requires s.life.ForgetPurge? && InPerimeter(s.disk)
    ensures var end := Granted(s, protect);
            && end.life == ForgetAck(s.life.device) && end.queue == s.queue
            && end.disk.items == map[] && Current(end.disk) == Current(s.disk)
  {
    PurgeLands(s.disk, FULL);
    PurgePlanLength();
  }

  lemma TombstoneReadable(d: Disk, d': Disk)
    requires DiskInv(d) && Current(d).scope.Some?
    requires Current(d') == Snapshot(Current(d).epoch + 1, None, Current(d).retired + [Current(d).scope.value], true, [], [])
    ensures Durable(d').Some?
    ensures Durable(d') == Some(Read(Current(d'), HasLegacy(d')))
  {
  }

  /** One tenant after the other: a paired till without work is unpaired, and pairs with any device whose scope is new;
    * it ends under that scope, with nothing of the first tenant left but the mark that its scope is retired. */
  lemma TenantsFollowEachOther(s: LifeState, device: Device, protect: bool)
    requires AtRestPaired(s) && (protect ==> !Current(s.disk).HasMatter())
    requires ScopeOf(device) !in Current(s.disk).retired && Some(ScopeOf(device)) != Current(s.disk).scope
    ensures var asked := TakeLifeStep(s.disk, s.queue, s.life, protect, Forget);
            var left := Granted(Granted(Granted(asked, protect), protect), protect);
            var end := Granted(Granted(Granted(TakeLifeStep(left.disk, left.queue, left.life, protect, Pair(device)),
                                               protect), protect), protect);
            && AtRestPaired(end) && end.life == Idle(Some(Committed(device)))
            && Current(end.disk) == Snapshot(Current(s.disk).epoch + 1, Some(ScopeOf(device)),
                                             Current(s.disk).retired + [Current(s.disk).scope.value], false, [], [])
            && end.disk.items == map[DEVICE_KEY := Identity(Committed(device))]
  {
    var asked := TakeLifeStep(s.disk, s.queue, s.life, protect, Forget);
    var left := Granted(Granted(Granted(asked, protect), protect), protect);
    ForgettingUnpairs(s, protect);
    assert ValidSnapshot(Current(left.disk));
    PairingPairs(left, device, protect);
    assert TakeLifeStep(left.disk, left.queue, left.life, protect, Pair(device)) == left.(life := PairIntent(device));
  }
}

/** Where the protocol stops: two promises that do not hold as stated, each with the run that shows it
  * and the exact condition under which they do. */
module QueueLimits {
  import opened Wrappers
  import opened QueueModel
  import opened QueueFacts
  import opened QueueWorld
  import opened QueueInvariant
  import opened QueueLifeSteps
  import opened QueueTheorems
  import opened QueueRecovery

  // ─── A pairing retried after a refused save ───

  const EMPTY_DISK := Disk(None, None, None, map[])

  const FIRST := Device("a", Some("pair:1"), false)
  const SECOND := Device("b", Some("pair:2"), false)

  function Do(step: LifeStep): Action { Lifecycle(step, false) }

  /** Boot on a new tablet, pair, have the save of the identity refused, pair again, die after the intent. */
  const STRANDING: seq<Action> := [
    Do(Go(GRANT_ALL)), Do(Go(GRANT_ALL)),
    Do(Pair(FIRST)), Do(Go(GRANT_ALL)), Do(Go(GRANT_ALL)), Do(Go(Grant(0, WipeRun(0, false, false)))),
    Do(Pair(SECOND)), Lifecycle(Go(GRANT_ALL), true)]

  /** The world after some actions. */
  function Run(w: World, actions: seq<Action>): World {
    if actions == [] then w else Next(Run(w, actions[..|actions| - 1]), actions[|actions| - 1])
  }

  /** After the first `i` actions the lifecycle window and the disk stand at `s`. */
  predicate At(i: nat, s: LifeState)
    requires i <= |STRANDING|
  {
    var w := Run(Start(EMPTY_DISK, true), STRANDING[..i]);
    LIFE in w.windows && w.protect && LifeState(w.disk, w.windows[LIFE].queue, w.life) == s
  }

  lemma RunTo(w: World, actions: seq<Action>, i: nat)
    requires i < |actions|
    ensures Run(w, actions[..i + 1]) == Next(Run(w, actions[..i]), actions[i])
  {
    assert actions[..i + 1][..i] == actions[..i];
  }

  lemma Then(i: nat, s: LifeState)
    requires i < |STRANDING| && At(i, s) && STRANDING[i].Lifecycle? && !STRANDING[i].crash
    ensures At(i + 1, TakeLifeStep(s.disk, s.queue, s.life, true, STRANDING[i].step))
  {
    RunTo(Start(EMPTY_DISK, true), STRANDING, i);
  }

  /** On a new tablet the boot finds nothing. */
  lemma AfterBoot(d: Disk)
    requires d == EMPTY_DISK
    ensures Advance(d, FRESH_QUEUE, Booting, true, GRANT_ALL) == LifeState(EMPTY_DISK, FRESH_QUEUE, BootAck)
    ensures Advance(EMPTY_DISK, FRESH_QUEUE, BootAck, true, GRANT_ALL) == LifeState(EMPTY_DISK, FRESH_QUEUE, Idle(None))
  {
    PurgeLands(EMPTY_DISK, FULL);
    PurgePlanLength();
    PurgeNothing(FULL);
  }

  lemma PurgeNothing(k: nat)
    ensures Purged(EMPTY_DISK, k) == EMPTY_DISK
  {
    var ws := Prefix(PurgePlan(), k);
    OthersFirstFacts(PERIMETER);
    forall i | 0 <= i < |ws| ensures ws[i].DropItem? {
      if i < |OthersFirst(PERIMETER)| {
        assert PurgePlan()[i] in OthersFirst(PERIMETER);
      }
    }
    DropsLand(EMPTY_DISK, ws);
  }

  const CLAIMED := Snapshot(0, Some("pair:1"), [], false, [], [])

  /** The first pairing binds its scope; its save is refused. */
  lemma AfterFirstPairing(disk: Disk, queue: Queue)
    requires disk == EMPTY_DISK.(items := map[DEVICE_KEY := Identity(Intent(FIRST))]) && queue == FRESH_QUEUE
    ensures var s := Advance(disk, queue, PairBind(FIRST, None), true, GRANT_ALL);
            && s.life == PairSave(FIRST, None) && s.disk == disk.(v2 := Some(CLAIMED))
            && s.queue.bound == Some("pair:1") && !s.queue.invalidated
            && Advance(s.disk, s.queue, s.life, true, Grant(0, WipeRun(0, false, false)))
            == LifeState(s.disk, s.queue, Idle(None))
  {
    var plan := PersistPlan(CLAIMED, false);
    assert plan == [PutV2(CLAIMED)];
    assert plan[..0] == [];
    assert ApplyAll(disk, plan) == Apply(disk, PutV2(CLAIMED));
  }

  const INTENDED := EMPTY_DISK.(items := map[DEVICE_KEY := Identity(Intent(FIRST))])
  const BOUND := INTENDED.(v2 := Some(CLAIMED))
  const CROSSED := BOUND.(items := map[DEVICE_KEY := Identity(Intent(SECOND))])

  lemma ReachIdle()
    ensures At(2, LifeState(EMPTY_DISK, FRESH_QUEUE, Idle(None)))
  {
    assert STRANDING[..0] == [];
    AfterBoot(EMPTY_DISK);
    Then(0, LifeState(EMPTY_DISK, FRESH_QUEUE, Booting));
    Then(1, LifeState(EMPTY_DISK, FRESH_QUEUE, BootAck));
  }

  lemma ReachPairing()
    ensures At(3, LifeState(EMPTY_DISK, FRESH_QUEUE, PairIntent(FIRST)))
  {
    ReachIdle();
    Then(2, LifeState(EMPTY_DISK, FRESH_QUEUE, Idle(None)));
  }

  lemma ReachIntent()
    ensures At(4, LifeState(INTENDED, FRESH_QUEUE, PairBind(FIRST, None)))
  {
    ReachPairing();
    Then(3, LifeState(EMPTY_DISK, FRESH_QUEUE, PairIntent(FIRST)));
  }

  /** Where the first pairing stands once its scope is bound. */
  function AfterBind(): LifeState {
    Advance(INTENDED, FRESH_QUEUE, PairBind(FIRST, None), true, GRANT_ALL)
  }

  lemma ReachBound()
    ensures At(5, AfterBind())
  {
    ReachIntent();
    Then(4, LifeState(INTENDED, FRESH_QUEUE, PairBind(FIRST, None)));
  }

  lemma ReachRefusal() returns (q: Queue)
    ensures At(6, LifeState(BOUND, q, Idle(None)))
  {
    var s := AfterBind();
    ReachBound();
    AfterFirstPairing(INTENDED, FRESH_QUEUE);
    q := s.queue;
    Then(5, s);
  }

  lemma ReachSecondPairing() returns (q: Queue)
    ensures At(7, LifeState(BOUND, q, PairIntent(SECOND)))
  {
    q := ReachRefusal();
    Then(6, LifeState(BOUND, q, Idle(None)));
  }

  lemma ReachCrossed()
    ensures Run(Start(EMPTY_DISK, true), STRANDING).disk == CROSSED
  {
    var q := ReachSecondPairing();
    RunTo(Start(EMPTY_DISK, true), STRANDING, 7);
    assert STRANDING[..8] == STRANDING;
  }

  lemma StrandingAllowed(i: nat)
    requires i < |STRANDING|
    ensures Admissible(Run(Start(EMPTY_DISK, true), STRANDING[..i]), STRANDING[i])
  {
    if i == 2 {
      ReachIdle();
    } else if i == 6 {
      var q := ReachRefusal();
    } else {
      assert STRANDING[i].step.Go?;
    }
  }

  lemma StrandingReaches()
    ensures Reaches(Link, Start(EMPTY_DISK, true), Run(Start(EMPTY_DISK, true), STRANDING))
  {
    var start := Start(EMPTY_DISK, true);
    var worlds := seq(|STRANDING| + 1, i requires 0 <= i <= |STRANDING| => Run(start, STRANDING[..i]));
    forall i | 0 <= i < |STRANDING| ensures Link(worlds[i], STRANDING[i], worlds[i + 1]) {
      StrandingAllowed(i);
      RunTo(start, STRANDING, i);
    }
    assert STRANDING[..|STRANDING|] == STRANDING && STRANDING[..0] == [];
    assert Chained(Link, worlds, STRANDING) && worlds[0] == start;
  }

  lemma EmptyInstalled()
    ensures Installed(EMPTY_DISK) && Owned(EMPTY_DISK)
  {
  }

  lemma CrossedStrands()
    ensures !Owned(CROSSED) && !Recoverable(CROSSED) && Load(CROSSED).life.Stuck?
  {
    BootRecoversIff(CROSSED);
  }

  /** The storage refuses the save of a first pairing, a second one dies after writing its intent: the
    * identity names one scope, the disk another, and no boot recovers. */
  lemma RefusedSaveStrandsTheTill() returns (w: World)
    ensures Installed(EMPTY_DISK) && Owned(EMPTY_DISK) && Reaches(Link, Start(EMPTY_DISK, true), w)
    ensures !Owned(w.disk) && !Recoverable(w.disk) && Load(w.disk).life.Stuck?
  {
    w := Run(Start(EMPTY_DISK, true), STRANDING);
    EmptyInstalled();
    StrandingReaches();
    ReachCrossed();
    CrossedStrands();
  }

  // ─── The purge flag that outlives its purge ───

  /** Two lifecycle windows.  The first purges its queue; the second, booting meanwhile, acknowledges the
    * purge; the first then acknowledges in turn, which changes nothing on the disk nor its own flag. */
  lemma SecondAcknowledgementIsSilent(d: Disk, q: Queue, k: nat)
    requires Durable(d).Some? && Current(d).scope.None? && !Current(d).purgePending
    ensures CompleteClear(d, q, k) == Section(d, q.(clearing := false), Done)
  {
  }

  /** A bind writes the flag that the window remembers, not the one it has just read: the next snapshot
    * says that a purge is pending if and only if the window still believes so. */
  lemma BindWritesTheRememberedFlag(d: Disk, q: Queue, scope: Scope, pairing: bool, k: nat)
    requires Durable(d).Some? && Current(d).scope.None? && RunBind(d, q, scope, pairing, k).verdict == Done
    ensures var s := Current(RunBind(d, q, scope, pairing, k).disk);
            s.scope == Some(scope) && (s.purgePending <==> q.purgePending)
  {
    PersistLands(d, Current(d).(scope := Some(scope), purgePending := q.purgePending), q.legacyCleanup || HasLegacy(d), k);
  }

  /** From any disk of a paired till: the first window (bound, purging) and the second (fresh) as above, then
    * the first pairs again.  The disk now holds a scope with a purge pending, and no fresh window can bind it. */
  lemma TwoPurgersLockTheNextTenantOut(d: Disk, first: Queue, scope: Scope)
    requires DiskInv(d) && QueueInv(d, first) && Matches(first, Current(d)) && first.bound.Some?
    requires !first.invalidated && first.clearing && !Current(d).HasMatter()
    requires scope != "" && scope !in Current(d).retired && Some(scope) != first.bound
    ensures var cleared := RunClear(d, first, true, WipeRun(FULL, true, true));
            var acked := CompleteClear(cleared.disk, FRESH_QUEUE, FULL);
            var silent := CompleteClear(acked.disk, cleared.queue, FULL);
            var paired := BindScope(silent.disk, silent.queue, scope, true, FULL);
            && cleared.verdict == acked.verdict == silent.verdict == paired.verdict == Done
            && Current(paired.disk).scope == Some(scope) && Current(paired.disk).purgePending
            && (forall pairing, k :: BindScope(paired.disk, FRESH_QUEUE, scope, pairing, k).verdict == ScopeChanged)
  {
    var run := WipeRun(FULL, true, true);
    var cleared := RunClear(d, first, true, run);
    WipeLands(d, first, Current(d).epoch + 1, run);
    TombstoneValid(d, first);
    PersistLands(cleared.disk, Current(cleared.disk).(purgePending := false), false, FULL);
    var acked := CompleteClear(cleared.disk, FRESH_QUEUE, FULL);
    SecondAcknowledgementIsSilent(acked.disk, cleared.queue, FULL);
    var silent := CompleteClear(acked.disk, cleared.queue, FULL);
    assert scope !in Current(acked.disk).retired;
    assert BindRefusal(Current(acked.disk), scope, true) == Done;
    var paired := BindScope(silent.disk, silent.queue, scope, true, FULL);
    BindWritesTheRememberedFlag(silent.disk, silent.queue, scope, true, FULL);
    PersistLands(silent.disk, Current(silent.disk).(scope := Some(scope), purgePending := true),
                 silent.queue.legacyCleanup || HasLegacy(silent.disk), FULL);
  }

  lemma TombstoneValid(d: Disk, q: Queue)
    requires DiskInv(d) && QueueInv(d, q) && Matches(q, Current(d)) && q.bound.Some?
    ensures ValidSnapshot(Tombstone(q, Current(d).epoch + 1))
  {
  }

  // ─── A queue without an owner ───

  /** Entries or rejections of no scope on a disk that names no device. */
  predicate Unowned(d: Disk) {
    && InPerimeter(d) && IdentityOf(d).None?
    && Durable(d).Some? && Current(d).scope.None? && Current(d).HasMatter()
  }

  lemma LoadKeepsMatter(d: Disk)
    requires Unowned(d)
    ensures var s := Load(d);
            && Unpaired(s) && s.queue.bound.None? && !s.queue.invalidated && Durable(s.disk).Some?
            && Current(s.disk).entries == Current(d).entries && Current(s.disk).rejected == Current(d).rejected
            && Current(s.disk).retired == Current(d).retired
  {
    var p := Purged(d, FULL);
    PurgeLands(d, FULL);
    PurgePlanLength();
    LoadWithoutIdentity(d);
    if Current(p).purgePending {
      PersistLands(p, Current(p).(purgePending := false), false, FULL);
    }
    var s1, s2 := LifeState(p, FRESH_QUEUE, BootAck), Advance(p, FRESH_QUEUE, BootAck, true, GRANT_ALL);
    assert Advance(d, FRESH_QUEUE, Booting, true, GRANT_ALL) == s1;
    assert ToRest(s1, true, 3) == ToRest(s2, true, 2);
  }

  /** A pairing on such a disk is refused and undone, whatever the device. */
  lemma MatterRefusesPairing(s: LifeState, device: Device, protect: bool)
    requires s.life == PairIntent(device) && s.disk.items == map[] && !s.queue.invalidated && s.queue.bound.None?
    requires Durable(s.disk).Some? && Current(s.disk).scope.None? && Current(s.disk).HasMatter()
    ensures var intended := Advance(s.disk, s.queue, s.life, protect, GRANT_ALL);
            var refused := Advance(intended.disk, intended.queue, intended.life, protect, GRANT_ALL);
            && refused.life == PairUndo(device, None)
            && Advance(refused.disk, refused.queue, refused.life, protect, GRANT_ALL) == LifeState(s.disk, s.queue, Idle(None))
  {
    var intended := Advance(s.disk, s.queue, s.life, protect, GRANT_ALL);
    assert Current(intended.disk) == Current(s.disk);
    assert intended.disk.items - {DEVICE_KEY} == s.disk.items;
  }

  /** A till that finds a queue without an owner boots unpaired and keeps it, and then refuses every pairing: the
    * entries are kept but cannot leave.  A pairing that dies on its intent leaves a till that no boot recovers. */
  lemma UnownedMatterRefusesPairing(d: Disk, device: Device, protect: bool)
    requires Unowned(d) && ScopeOf(device) !in Current(d).retired
    ensures var booted := Load(d);
            var intended := Advance(booted.disk, booted.queue, PairIntent(device), protect, GRANT_ALL);
            var refused := Advance(intended.disk, intended.queue, intended.life, protect, GRANT_ALL);
            && Unpaired(booted)
            && Current(booted.disk).entries == Current(d).entries && Current(booted.disk).rejected == Current(d).rejected
            && Advance(refused.disk, refused.queue, refused.life, protect, GRANT_ALL)
            == LifeState(booted.disk, booted.queue, Idle(None))
            && Load(intended.disk).life.Stuck?
  {
    LoadKeepsMatter(d);
    var booted := Load(d);
    MatterRefusesPairing(LifeState(booted.disk, booted.queue, PairIntent(device)), device, protect);
    var intended := Advance(booted.disk, booted.queue, PairIntent(device), protect, GRANT_ALL);
    assert IdentityOf(intended.disk) == Some(Intent(device)) && Current(intended.disk) == Current(booted.disk);
    BootRecoversIff(intended.disk);
  }
}

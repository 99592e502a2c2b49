/** What a boot makes of every disk that a crash may leave. */
module QueueRecovery {
  import opened Wrappers
  import opened QueueModel
  import opened QueueFacts
  import opened QueueWorld
  import opened QueueInvariant
  import opened QueueSections
  import opened QueueHistory
  import opened QueueDataSteps
  import opened QueuePassSteps
  import opened QueueLifeSteps
  import opened QueueRuns
  import opened QueueTheorems
  import FlushPass

  // ─── One uninterrupted boot ───

  /** Sections one after the other, every write granted, until the window is at rest. */
  function ToRest(s: LifeState, protect: bool, sections: nat): LifeState
    decreases sections
  {
    if sections == 0 || s.life.Idle? || s.life.Stuck? then s
    else ToRest(Advance(s.disk, s.queue, s.life, protect, GRANT_ALL), protect, sections - 1)
  }

  /** `loadPairedDevice` in a fresh window: at most identity, bind, purge, acknowledge. */
  function Load(d: Disk): LifeState {
    ToRest(LifeState(d, FRESH_QUEUE, Booting), true, 4)
  }

  /** The durable scope, the identity and the window agree, and nothing is pending. */
  predicate Paired(s: LifeState) {
    && s.life.Idle? && s.life.current.Some?
    && var device := s.life.current.value;
       && device == Committed(device) && IdentityOf(s.disk) == Some(device)
       && Current(s.disk).scope == Some(ScopeOf(device)) && s.queue.bound == Current(s.disk).scope
       && !Current(s.disk).purgePending
  }

  /** Nothing of any tenant is left and the queue is free for the next one. */
  predicate Unpaired(s: LifeState) {
    && s.life == Idle(None) && Current(s.disk).scope.None? && !Current(s.disk).purgePending
    && s.disk.items == map[]
  }

  /** What a caller could check before it boots. */
  predicate Recoverable(d: Disk) {
    var s := Current(d);
    && Durable(d).Some?
    && match IdentityOf(d)
       case None => s.scope.None?
       case Some(device) =>
         if ScopeOf(device) in s.retired then s.scope.None?
         else
           && !s.purgePending
           && (s.scope == Some(ScopeOf(device))
               || (s.scope.None? && (device.bindingPending ==> !s.HasMatter())))
  }

  lemma LoadWithoutIdentity(d: Disk)
    requires InPerimeter(d) && IdentityOf(d).None?
    ensures Recoverable(d) ==> Unpaired(Load(d))
    ensures !Recoverable(d) ==> Load(d).life.Stuck?
  {
    var p := Purged(d, FULL);
    PurgeLands(d, FULL);
    PurgePlanLength();
    var s1 := LifeState(p, FRESH_QUEUE, BootAck);
    assert Advance(d, FRESH_QUEUE, Booting, true, GRANT_ALL) == s1;
    var c := CompleteClear(p, FRESH_QUEUE, FULL);
    if Durable(p).Some? && Current(p).purgePending && Current(p).scope.None? {
      PersistLands(p, Current(p).(purgePending := false), false, FULL);
    }
    var s2 := Advance(p, FRESH_QUEUE, BootAck, true, GRANT_ALL);
    assert ToRest(s1, true, 3) == ToRest(s2, true, 2);
  }

  lemma {:induction false} OthersFirstLength(keys: seq<Key>)
    ensures |OthersFirst(keys)| <= |keys|
  {
    if keys != [] {
      OthersFirstLength(keys[1..]);
    }
  }

  lemma PurgePlanLength()
    ensures |PurgePlan()| <= FULL
  {
    OthersFirstLength(PERIMETER);
  }

  /** A retired identity: the purge of its cells is finished, then acknowledged. */
  lemma LoadRetired(d: Disk, device: Device)
    requires InPerimeter(d) && Durable(d).Some?
    requires IdentityOf(d) == Some(device) && ScopeOf(device) in Current(d).retired
    ensures Current(d).scope.None? ==> Unpaired(Load(d))
    ensures Current(d).scope.Some? ==> Load(d).life.Stuck?
  {
    var p := Purged(d, FULL);
    PurgeLands(d, FULL);
    PurgePlanLength();
    var s1 := LifeState(d, FRESH_QUEUE, BootBind(device));
    var s2 := LifeState(d, FRESH_QUEUE, BootPurge);
    var s3 := LifeState(p, FRESH_QUEUE, BootAck);
    assert Advance(d, FRESH_QUEUE, Booting, true, GRANT_ALL) == s1;
    assert Advance(d, FRESH_QUEUE, s1.life, true, GRANT_ALL) == s2;
    assert Advance(d, FRESH_QUEUE, BootPurge, true, GRANT_ALL) == s3;
    if Current(p).purgePending {
      PersistLands(p, Current(p).(purgePending := false), false, FULL);
    }
    var s4 := Advance(p, FRESH_QUEUE, BootAck, true, GRANT_ALL);
    assert ToRest(s1, true, 3) == ToRest(s2, true, 2);
    assert ToRest(s2, true, 2) == ToRest(s3, true, 1);
    assert ToRest(s3, true, 1) == ToRest(s4, true, 0) == s4;
  }

  /** An identity that is not retired is bound again, or the boot stops without touching anything. */
  lemma LoadActive(d: Disk, device: Device)
    requires Durable(d).Some? && IdentityOf(d) == Some(device) && ScopeOf(device) !in Current(d).retired
    ensures Recoverable(d) ==> Paired(Load(d))
    ensures !Recoverable(d) ==> Load(d).life.Stuck? && Load(d).disk == d
  {
    ScopeOfNonEmpty(device);
    var s := Current(d);
    var s1 := LifeState(d, FRESH_QUEUE, BootBind(device));
    assert Advance(d, FRESH_QUEUE, Booting, true, GRANT_ALL) == s1;
    PersistLands(d, s.(scope := Some(ScopeOf(device)), purgePending := false), HasLegacy(d), FULL);
    var b := BindScope(d, FRESH_QUEUE, ScopeOf(device), device.bindingPending, FULL);
    var s2 := Advance(d, FRESH_QUEUE, s1.life, true, GRANT_ALL);
    assert Load(d) == ToRest(s1, true, 3) == ToRest(s2, true, 2);
    if b.verdict == Done {
      assert Current(b.disk) == s.(scope := Some(ScopeOf(device)), purgePending := false);
      var s3 := Advance(s2.disk, s2.queue, s2.life, true, GRANT_ALL);
      assert ToRest(s2, true, 2) == ToRest(s3, true, 1);
      SavedPaired(s2.disk, s2.queue, device);
    }
  }

  lemma SavedPaired(d: Disk, q: Queue, device: Device)
    requires Durable(d).Some? && IdentityOf(d) == Some(device)
    requires q.bound == Current(d).scope == Some(ScopeOf(device)) && q.epoch == Current(d).epoch
    requires !q.clearing && !q.invalidated && !Current(d).purgePending
    ensures Paired(Advance(d, q, BootSave(device), true, GRANT_ALL))
  {
    ScopeOfNonEmpty(device);
  }

  /** For every disk, readable or not: one uninterrupted boot ends paired or fully unpaired if and only if
    * the condition holds, and otherwise it stops. */
  lemma BootRecoversIff(d: Disk)
    requires InPerimeter(d)
    ensures (Paired(Load(d)) || Unpaired(Load(d))) <==> Recoverable(d)
    ensures !Recoverable(d) ==> Load(d).life.Stuck?
  {
    match IdentityOf(d)
    case None => LoadWithoutIdentity(d);
    case Some(device) =>
      if Durable(d).None? {
        var s1 := LifeState(d, FRESH_QUEUE, BootBind(device));
        assert Advance(d, FRESH_QUEUE, Booting, true, GRANT_ALL) == s1;
        var s2 := LifeState(d, FRESH_QUEUE, Stuck);
        assert Advance(d, FRESH_QUEUE, s1.life, true, GRANT_ALL) == s2;
        assert Load(d) == ToRest(s1, true, 3) == ToRest(s2, true, 2);
      } else if ScopeOf(device) in Current(d).retired {
        LoadRetired(d, device);
      } else {
        LoadActive(d, device);
      }
  }

  /** On the disks that runs reach, the condition is one comparison: the identity names the durable scope. */
  lemma RecoverableIffOwned(d: Disk)
    requires DiskInv(d) && Shape(d)
    ensures Recoverable(d) <==> Owned(d)
  {
  }

  // ─── Every crash, when the storage refuses nothing ───

  /** A lifecycle step either runs to its end or dies; no write is refused and then outlived. */
  predicate Granted(a: Action) {
    a.Lifecycle? && a.step.Go? && !a.crash ==> a.step.grant == GRANT_ALL
  }

  predicate Regular(d: Disk, q: Queue, life: Life) {
    && Owned(d)
    && match life
       case Idle(None) => Current(d).scope.None? && !q.clearing
       case PairIntent(_) => Current(d).scope.None? && !q.clearing
       case PairBind(_, _) => Current(d).scope.None? && !q.clearing
       case PairSave(_, _) => !q.clearing
       case PairUndo(_, _) => false
       case _ => true
  }

  /** Even a section that dies half way leaves an identity that owns the durable scope. */
  lemma AdvanceOwned(d: Disk, q: Queue, life: Life, protect: bool, g: Grant)
    requires Before(d, q, life) && Regular(d, q, life)
    ensures Owned(Advance(d, q, life, protect, g).disk)
  {
    match life
    case Booting => PurgeLands(d, g.writes);
    case BootPurge => PurgeLands(d, g.writes);
    case ForgetPurge(_) => PurgeLands(d, g.writes);
    case BootBind(device) =>
      ScopeOfNonEmpty(device);
      BindFacts(d, q, ScopeOf(device), device.bindingPending, g.writes);
    case PairBind(device, _) =>
      ScopeOfNonEmpty(device);
      BindFacts(d, q, ScopeOf(device), true, g.writes);
    case BootAck => CompleteFacts(d, q, g.writes);
    case ForgetAck(_) => CompleteFacts(d, q, g.writes);
    case ForgetClear(_) => ClearFacts(d, q, protect, g.wipe);
    case BootSave(device) => SaveFacts(d, q, device, g.writes);
    case PairSave(device, _) => SaveFacts(d, q, device, g.writes);
    case _ =>
  }

  lemma AdvanceRegular(d: Disk, q: Queue, life: Life, protect: bool)
    requires Before(d, q, life) && Regular(d, q, life)
    ensures var s := Advance(d, q, life, protect, GRANT_ALL); Regular(s.disk, s.queue, s.life)
  {
    AdvanceOwned(d, q, life, protect, GRANT_ALL);
    match life
    case PairBind(device, _) =>
      ScopeOfNonEmpty(device);
      BindFacts(d, q, ScopeOf(device), true, FULL);
    case BootAck => CompleteFacts(d, q, FULL);
    case ForgetAck(_) => CompleteFacts(d, q, FULL);
    case PairSave(device, _) => SaveFacts(d, q, device, FULL);
    case _ => PurgePlanLength();
  }

  lemma LifecycleRegular(w: World, step: LifeStep, crash: bool)
    requires Inv(w) && Admissible(w, Lifecycle(step, crash)) && Granted(Lifecycle(step, crash))
    requires Regular(w.disk, w.windows[LIFE].queue, w.life)
    ensures var w' := LifecycleNext(w, step, crash); LIFE in w'.windows && Regular(w'.disk, w'.windows[LIFE].queue, w'.life)
  {
    var q := w.windows[LIFE].queue;
    assert WindowInv(w.disk, w.past, w.windows[LIFE]);
    if step.Go? {
      AdvanceOwned(w.disk, q, w.life, w.protect, step.grant);
      AdvanceRegular(w.disk, q, w.life, w.protect);
    }
  }

  lemma NextRegular(w: World, a: Action)
    requires Inv(w) && Admissible(w, a) && Granted(a) && Regular(w.disk, w.windows[LIFE].queue, w.life)
    ensures var w' := Next(w, a); LIFE in w'.windows && Regular(w'.disk, w'.windows[LIFE].queue, w'.life)
  {
    if a.Lifecycle? {
      LifecycleRegular(w, a.step, a.crash);
    } else {
      DataSteady(w, a);
    }
  }

  /** A step of a run in which no write is refused and then outlived. */
  predicate Unrefused(w: World, a: Action, w': World) { Link(w, a, w') && Granted(a) }

  predicate RegularWorld(w: World) { Inv(w) && Regular(w.disk, w.windows[LIFE].queue, w.life) }

  lemma LinkRegular(w: World, a: Action, w': World)
    requires RegularWorld(w) && Unrefused(w, a, w')
    ensures RegularWorld(w')
  {
    NextRegular(w, a);
    LinkInv(w, a, w');
  }

  /** Any such run, from an installed disk whose identity owns its scope. */
  ghost predicate ReachableUnrefused(w: World) {
    exists d, protect :: Installed(d) && Owned(d) && Reaches(Unrefused, Start(d, protect), w)
  }

  lemma StartRegular(d: Disk, protect: bool)
    requires Installed(d) && Owned(d)
    ensures RegularWorld(Start(d, protect))
  {
    StartInv(d, protect);
  }

  lemma UnrefusedRegular(w: World, w': World)
    requires RegularWorld(w) && Reaches(Unrefused, w, w')
    ensures RegularWorld(w')
  {
    forall x, a, y | Unrefused(x, a, y) && RegularWorld(x) ensures RegularWorld(y) {
      LinkRegular(x, a, y);
    }
    ReachKeeps(Unrefused, RegularWorld, w, w');
  }

  lemma RegularRecovers(w: World)
    requires RegularWorld(w)
    ensures Paired(Load(w.disk)) || Unpaired(Load(w.disk))
  {
    RecoverableIffOwned(w.disk);
    BootRecoversIff(w.disk);
  }

  /** From the disk left by a crash at any write of any such run, one uninterrupted boot ends paired or unpaired. */
  lemma CrashRecovery(w: World)
    requires ReachableUnrefused(w)
    ensures Paired(Load(w.disk)) || Unpaired(Load(w.disk))
  {
    var d, protect :| Installed(d) && Owned(d) && Reaches(Unrefused, Start(d, protect), w);
    StartRegular(d, protect);
    UnrefusedRegular(Start(d, protect), w);
    RegularRecovers(w);
  }

  /** With refused writes the same holds exactly where the identity still names the durable scope. */
  lemma RecoveryUnderRefusals(w: World)
    requires Reachable(w)
    ensures (Paired(Load(w.disk)) || Unpaired(Load(w.disk))) <==> Owned(w.disk)
  {
    ReachableInv(w);
    RecoverableIffOwned(w.disk);
    BootRecoversIff(w.disk);
  }
}

/** The invariant over every run, and what it gives. */
module QueueRuns {
  import opened Wrappers
  import opened QueueModel
  import opened QueueFacts
  import opened QueueWorld
  import opened QueueInvariant
  import opened QueueSections
  import opened QueueHistory
  import opened QueueDataSteps
  import opened QueuePassSteps
  import opened QueueLifeSteps
  import FlushPass

  predicate SameLists(d: Disk, d': Disk) {
    Current(d').entries == Current(d).entries && Current(d').rejected == Current(d).rejected
  }

  lemma BindKeepsLists(d: Disk, q: Queue, life: Life, protect: bool, g: Grant)
    requires Before(d, q, life) && (life.BootBind? || life.PairBind?)
    ensures SameLists(d, Advance(d, q, life, protect, g).disk)
  {
    if life.BootBind? {
      ScopeOfNonEmpty(life.device);
      BindFacts(d, q, ScopeOf(life.device), life.device.bindingPending, g.writes);
    } else {
      ScopeOfNonEmpty(life.device);
      BindFacts(d, q, ScopeOf(life.device), true, g.writes);
    }
  }

  lemma PurgeKeepsLists(d: Disk, q: Queue, life: Life, protect: bool, g: Grant)
    requires Before(d, q, life) && (life.Booting? || life.BootPurge? || life.ForgetPurge? || life.BootAck? || life.ForgetAck?)
    ensures SameLists(d, Advance(d, q, life, protect, g).disk)
  {
    if life.BootAck? || life.ForgetAck? {
      CompleteFacts(d, q, g.writes);
    } else {
      PurgeLands(d, g.writes);
    }
  }

  lemma IdentityKeepsLists(d: Disk, q: Queue, life: Life, protect: bool, g: Grant)
    requires life.BootSave? || life.PairSave? || life.PairIntent? || life.PairUndo? || life.Stuck? || life.Idle?
    ensures SameLists(d, Advance(d, q, life, protect, g).disk)
  {
  }

  /** Only the purge of the queue touches its lists. */
  lemma ListsKept(d: Disk, q: Queue, life: Life, protect: bool, g: Grant)
    requires Before(d, q, life) && !life.ForgetClear?
    ensures SameLists(d, Advance(d, q, life, protect, g).disk)
  {
    if life.BootBind? || life.PairBind? {
      BindKeepsLists(d, q, life, protect, g);
    } else if life.Booting? || life.BootPurge? || life.ForgetPurge? || life.BootAck? || life.ForgetAck? {
      PurgeKeepsLists(d, q, life, protect, g);
    } else {
      IdentityKeepsLists(d, q, life, protect, g);
    }
  }

  lemma AdvancePast(d: Disk, q: Queue, life: Life, protect: bool, g: Grant, past: History)
    requires Before(d, q, life) && PastInv(d, past, protect)
    ensures var s := Advance(d, q, life, protect, g);
            var past' := QueueWorld.Dropped(past, life, d, s.disk, protect);
            PastInv(s.disk, past', protect) && Extends(past, past')
  {
    var s := Advance(d, q, life, protect, g);
    var past' := QueueWorld.Dropped(past, life, d, s.disk, protect);
    ExtendsSelf(past);
    if !life.ForgetClear? {
      ListsKept(d, q, life, protect, g);
      PastUnmoved(d, s.disk, past, protect);
    } else {
      ClearFacts(d, q, protect, g.wipe);
      if RunClear(d, q, protect, g.wipe).verdict == Done {
        WipePast(d, s.disk, past, protect, past');
      } else {
        PastUnmoved(d, s.disk, past, protect);
      }
    }
  }

  /** The calls that start a boot, a pairing or a purge touch no disk. */
  lemma CallStep(d: Disk, q: Queue, life: Life, protect: bool, step: LifeStep)
    requires Before(d, q, life) && !step.Go? && (step.Pair? ==> Fresh(d, step.device))
    ensures var s := TakeLifeStep(d, q, life, protect, step);
            s.disk == d && LifeGood(d, q, d, s.queue) && LifeInv(d, s.queue, s.life)
  {
  }

  lemma TakeStep(d: Disk, q: Queue, life: Life, protect: bool, step: LifeStep, past: History)
    requires Before(d, q, life) && PastInv(d, past, protect)
    requires step.Pair? ==> Fresh(d, step.device)
    ensures var s := TakeLifeStep(d, q, life, protect, step);
            var past' := QueueWorld.Dropped(past, life, d, s.disk, protect);
            && LifeGood(d, q, s.disk, s.queue) && LifeInv(s.disk, s.queue, s.life)
            && PastInv(s.disk, past', protect) && Extends(past, past')
  {
    if step.Go? {
      AdvanceStep(d, q, life, protect, step.grant);
      AdvancePast(d, q, life, protect, step.grant, past);
    } else {
      CallStep(d, q, life, protect, step);
      ExtendsSelf(past);
    }
  }

  /** The lifecycle window and the disk move together; the other windows stand by. */
  lemma SwapInv(w: World, disk: Disk, past: History, window: Window, life: Life)
    requires Inv(w) && DiskInv(disk) && EpochFrame(w.disk, disk)
    requires PastInv(disk, past, w.protect) && Extends(w.past, past)
    requires WindowInv(disk, past, window) && LifeInv(disk, window.queue, life)
    ensures Inv(w.(disk := disk, windows := w.windows[LIFE := window], life := life, past := past))
  {
    OthersKept(w, disk, past, LIFE);
  }

  lemma LifecycleInv(w: World, step: LifeStep, crash: bool)
    requires Inv(w) && Admissible(w, Lifecycle(step, crash))
    ensures Inv(LifecycleNext(w, step, crash))
  {
    var window := w.windows[LIFE];
    var s := TakeLifeStep(w.disk, window.queue, w.life, w.protect, step);
    var past := QueueWorld.Dropped(w.past, w.life, w.disk, s.disk, w.protect);
    assert WindowInv(w.disk, w.past, window);
    TakeStep(w.disk, window.queue, w.life, w.protect, step, w.past);
    if crash {
      FreshInv(s.disk, past, s.queue, s.life);
      SwapInv(w, s.disk, past, FRESH_WINDOW, Booting);
    } else {
      WindowKept(w.disk, s.disk, w.past, past, window, s.queue);
      SwapInv(w, s.disk, past, window.(queue := s.queue), s.life);
    }
  }

  /** A window that dies anywhere leaves a disk from which another can boot. */
  lemma FreshInv(d: Disk, past: History, q: Queue, life: Life)
    requires LifeInv(d, q, life)
    ensures WindowInv(d, past, FRESH_WINDOW) && LifeInv(d, FRESH_QUEUE, Booting)
  {
  }

  predicate Sending(a: Action) { a.PassIssue? || a.PassReply? || a.PassHead? }

  predicate OfAPass(a: Action) {
    a.Photograph? || a.PassCheck? || a.PassResume? || a.PassCommit?
  }

  lemma Renamed(w: World, w': World)
    requires Inv(w) && w' == w
    ensures Inv(w')
  {
  }

  lemma SendingInv(w: World, a: Action)
    requires Inv(w) && Sending(a)
    ensures Inv(Next(w, a))
  {
    match a
    case PassHead(win, i) =>
      PassHeadInv(w, win, i);
      Renamed(HeadNext(w, win, i), Next(w, a));
    case PassIssue(win, i) =>
      PassIssueInv(w, win, i);
      Renamed(IssueNext(w, win, i), Next(w, a));
    case PassReply(win, i, reply) =>
      PassReplyInv(w, win, i, reply);
      Renamed(ReplyNext(w, win, i, reply), Next(w, a));
  }

  lemma PassInv(w: World, a: Action)
    requires Inv(w) && OfAPass(a)
    ensures Inv(Next(w, a))
  {
    match a
    case Photograph(win) =>
      PhotographInv(w, win);
      Renamed(PhotographNext(w, win), Next(w, a));
    case PassCheck(win, i, readable) =>
      PassCheckInv(w, win, i, readable);
      Renamed(CheckNext(w, win, i, readable), Next(w, a));
    case PassResume(win, i, readable, now) =>
      PassResumeInv(w, win, i, readable, now);
      Renamed(ResumeNext(w, win, i, readable, now), Next(w, a));
    case PassCommit(win, i, k, published) =>
      PassCommitInv(w, win, i, k, published);
      Renamed(CommitNext(w, win, i, k, published), Next(w, a));
  }

  lemma NextInv(w: World, a: Action)
    requires Inv(w) && Admissible(w, a)
    ensures Inv(Next(w, a))
  {
    if OfAPass(a) {
      PassInv(w, a);
    } else if Sending(a) {
      SendingInv(w, a);
    } else {
      match a
      case Open(win) => OpenInv(w, win);
      case Shut(win) => ShutInv(w, win);
      case Attach(win, k) => AttachInv(w, win, k);
      case Enqueue(win, e, k) => EnqueueInv(w, win, e, k);
      case Acknowledge(win, ids, k) => AcknowledgeInv(w, win, ids, k);
      case ScopedWrite(win, authority, key, cell, k) => ScopedWriteInv(w, win, authority, key, cell, k);
      case ScopedErase(win, authority, key, k) => ScopedEraseInv(w, win, authority, key, k);
      case Lifecycle(step, crash) => LifecycleInv(w, step, crash);
    }
  }
}

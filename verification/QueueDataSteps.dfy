/** The steps any window may take keep the invariant. */
module QueueDataSteps {
  import opened Wrappers
  import opened QueueModel
  import opened QueueFacts
  import opened QueueWorld
  import opened QueueInvariant
  import opened QueueSections
  import opened QueueHistory
  import FlushPass

  /** A data step only touches the lists of a bound scope, never what the lifecycle depends on. */
  lemma LifeKept(d: Disk, d': Disk, q: Queue, q': Queue, life: Life)
    requires DiskInv(d) && LifeInv(d, q, life) && ScopeFrame(d, d') && d'.items == d.items
    requires Current(d).scope.None? ==> d' == d
    requires BindingFrame(q, q') && LifeQueue(d', q')
    ensures LifeInv(d', q', life)
  {
  }

  /** One window runs a section, the others stand by. */
  lemma StepInv(w: World, win: nat, s: Section, past: History)
    requires Inv(w) && win in w.windows
    requires ScopeFrame(w.disk, s.disk) && DiskInv(s.disk) && s.disk.items == w.disk.items
    requires Current(w.disk).scope.None? ==> s.disk == w.disk
    requires BindingFrame(w.windows[win].queue, s.queue) && QueueInv(s.disk, s.queue)
    requires PastInv(s.disk, past, w.protect) && Extends(w.past, past)
    requires if win == LIFE then LifeQueue(s.disk, s.queue) else !s.queue.purgePending
    ensures Inv(With(w, win, s).(past := past))
  {
    var w' := With(w, win, s).(past := past);
    OthersKept(w, s.disk, past, win);
    WindowKept(w.disk, s.disk, w.past, past, w.windows[win], s.queue);
    LifeKept(w.disk, s.disk, w.windows[LIFE].queue, w'.windows[LIFE].queue, w.life);
  }

  /** A section that a bound window may run at any time. */
  predicate Tame(d: Disk, q: Queue, s: Section) {
    && s.disk.items == d.items && ScopeFrame(d, s.disk) && DiskInv(s.disk)
    && (Current(d).scope.None? ==> s.disk == d)
    && BindingFrame(q, s.queue) && QueueInv(s.disk, s.queue)
    && (Matches(q, Current(d)) ==> s.queue.invalidated == q.invalidated)
  }

  lemma TameStep(w: World, win: nat, s: Section, past: History)
    requires Inv(w) && win in w.windows && w.windows[win].queue.bound.Some?
    requires Tame(w.disk, w.windows[win].queue, s)
    requires PastInv(s.disk, past, w.protect) && Extends(w.past, past)
    ensures Inv(With(w, win, s).(past := past))
  {
    StepInv(w, win, s, past);
  }

  lemma WithSelf(w: World, win: nat, s: Section)
    requires win in w.windows && s.disk == w.disk && s.queue == w.windows[win].queue
    ensures With(w, win, s) == w && With(w, win, s).(past := w.past) == w
  {
  }

  /** A section that a bound window runs, or that an unbound one is refused. */
  lemma TameOrIdle(w: World, win: nat, s: Section, past: History)
    requires Inv(w) && win in w.windows && Tame(w.disk, w.windows[win].queue, s)
    requires PastInv(s.disk, past, w.protect) && Extends(w.past, past)
    requires w.windows[win].queue.bound.None? ==> s.disk == w.disk && s.queue == w.windows[win].queue && past == w.past
    ensures Inv(With(w, win, s).(past := past))
  {
    if w.windows[win].queue.bound.Some? {
      TameStep(w, win, s, past);
    } else {
      WithSelf(w, win, s);
    }
  }

  lemma RefreshTame(d: Disk, q: Queue)
    requires DiskInv(d) && QueueInv(d, q)
    ensures Tame(d, q, Refresh(d, q))
  {
    RefreshFacts(d, q);
  }

  lemma RefreshStepInv(w: World, win: nat)
    requires Inv(w) && win in w.windows && w.windows[win].queue.bound.Some?
    ensures Inv(With(w, win, Refresh(w.disk, w.windows[win].queue)))
  {
    var s := Refresh(w.disk, w.windows[win].queue);
    assert WindowInv(w.disk, w.past, w.windows[win]);
    RefreshTame(w.disk, w.windows[win].queue);
    ExtendsSelf(w.past);
    TameStep(w, win, s, w.past);
    assert With(w, win, s).(past := w.past) == With(w, win, s);
  }

  lemma EnqueueTame(d: Disk, q: Queue, e: Entry, k: nat, past: History, protect: bool)
    requires DiskInv(d) && QueueInv(d, q) && PastInv(d, past, protect)
    requires e.id != "" && e.id !in past.born && ValidPath(e.path) && e.attempts == 0
    ensures var s := EnqueueSection(d, q, e, k);
            && Tame(d, q, s)
            && (s.verdict != Done ==> s.disk == d)
            && (s.verdict == Done ==> PastInv(s.disk, BirthOf(past, e), protect) && Extends(past, BirthOf(past, e)))
  {
    var cur := Current(d);
    var r := Refresh(d, q);
    RefreshTame(d, q);
    RefreshFacts(d, q);
    if Gate(q) == Done && ValidAmount(e.displayAmount) && r.verdict == Done {
      assert e.id !in EntryIds(cur.entries) && e.id !in RejectedIds(cur.rejected);
      AppendValid(cur.entries, cur.rejected, e);
      PersistFacts(d, r.queue, cur.entries + [e], cur.rejected, k, true);
      if 0 < k {
        EnqueuePast(d, EnqueueSection(d, q, e, k).disk, past, e, protect);
      }
    }
  }

  lemma EnqueueInv(w: World, win: nat, e: Entry, k: nat)
    requires Inv(w) && Admissible(w, Enqueue(win, e, k))
    ensures Inv(EnqueueNext(w, win, e, k))
  {
    if win in w.windows {
      var q := w.windows[win].queue;
      var s := EnqueueSection(w.disk, q, e, k);
      var past := if s.verdict == Done then BirthOf(w.past, e) else w.past;
      assert WindowInv(w.disk, w.past, w.windows[win]);
      EnqueueTame(w.disk, q, e, k, w.past, w.protect);
      ExtendsSelf(w.past);
      TameOrIdle(w, win, s, past);
    }
  }

  lemma AcknowledgeTame(d: Disk, q: Queue, ids: set<Id>, k: nat, past: History, protect: bool)
    requires DiskInv(d) && QueueInv(d, q) && PastInv(d, past, protect)
    ensures var s := AcknowledgeSection(d, q, ids, k);
            && Tame(d, q, s)
            && (s.verdict != Done ==> s.disk == d)
            && (s.verdict == Done ==> PastInv(s.disk, Acked(past, d, ids), protect) && Extends(past, Acked(past, d, ids)))
  {
    var cur := Current(d);
    var r := Refresh(d, q);
    RefreshTame(d, q);
    RefreshFacts(d, q);
    if Gate(q) == Done && r.verdict == Done {
      UnacknowledgedValid(cur.entries, cur.rejected, ids);
      UnacknowledgedFacts(cur.rejected, ids);
      PersistFacts(d, r.queue, cur.entries, Unacknowledged(cur.rejected, ids), k, true);
      if 0 < k {
        AcknowledgePast(d, AcknowledgeSection(d, q, ids, k).disk, past, ids, protect);
      }
    }
  }

  lemma AcknowledgeInv(w: World, win: nat, ids: set<Id>, k: nat)
    requires Inv(w)
    ensures Inv(AcknowledgeNext(w, win, ids, k))
  {
    if win in w.windows {
      var q := w.windows[win].queue;
      var s := AcknowledgeSection(w.disk, q, ids, k);
      var past := if s.verdict == Done then Acked(w.past, w.disk, ids) else w.past;
      assert WindowInv(w.disk, w.past, w.windows[win]);
      AcknowledgeTame(w.disk, q, ids, k, w.past, w.protect);
      ExtendsSelf(w.past);
      TameOrIdle(w, win, s, past);
    }
  }

  // ─── The scoped store ───

  lemma GuardFacts(d: Disk, q: Queue, a: Authority)
    requires DiskInv(d) && QueueInv(d, q)
    ensures var g := ScopedGuard(d, q, a);
            && g.disk == d && BindingFrame(q, g.queue) && QueueInv(d, g.queue)
            && (g.verdict == Done <==>
                  !q.clearing && !q.invalidated && q.generation == a.generation && q.bound == Some(a.scope)
                  && q.epoch == a.epoch && Current(d).epoch == a.epoch && Current(d).scope == Some(a.scope))
            && (g.queue == q || (g.queue == Invalidate(q) && q.bound.Some? && !Matches(q, Current(d))))
  {
  }

  predicate Fits(key: Key, cell: Cell, scope: Scope) {
    key in PERIMETER && if key == DEVICE_KEY then cell.Identity? && ScopeOf(cell.device) == scope else cell == Data(scope)
  }

  /** Writes a cell that the durable scope signed, or erases one that is not the identity. */
  ghost predicate OneCell(d: Disk, d': Disk, scope: Scope) {
    || (exists key: Key, cell: Cell :: Fits(key, cell, scope) && d' == Apply(d, PutItem(key, cell)))
    || (exists key: Key :: key != DEVICE_KEY && d' == Apply(d, DropItem(key)))
  }

  lemma CellShape(d: Disk, d': Disk, scope: Scope)
    requires DiskInv(d) && Shape(d) && Current(d).scope == Some(scope) && OneCell(d, d', scope)
    ensures Current(d') == Current(d) && Shape(d') && (Owned(d) ==> Owned(d'))
  {
  }

  lemma CellInv(d: Disk, d': Disk, q: Queue, life: Life, scope: Scope)
    requires DiskInv(d) && LifeInv(d, q, life) && Current(d).scope == Some(scope) && OneCell(d, d', scope)
    ensures LifeInv(d', q, life)
  {
    CellShape(d, d', scope);
  }

  lemma OnlyTheDisk(w: World, win: nat, s: Section)
    requires win in w.windows && s.queue == w.windows[win].queue
    ensures With(w, win, s) == w.(disk := s.disk)
  {
  }

  lemma SameCurrent(d: Disk, d': Disk, past: History, window: Window)
    requires WindowInv(d, past, window) && Current(d') == Current(d)
    ensures WindowInv(d', past, window)
  {
  }

  lemma CellStepInv(w: World, win: nat, s: Section, scope: Scope)
    requires Inv(w) && win in w.windows
    requires s.queue == w.windows[win].queue && Current(w.disk).scope == Some(scope) && OneCell(w.disk, s.disk, scope)
    ensures Inv(With(w, win, s))
  {
    assert Current(s.disk) == Current(w.disk);
    OnlyTheDisk(w, win, s);
    PastUnmoved(w.disk, s.disk, w.past, w.protect);
    forall x | x in w.windows ensures WindowInv(s.disk, w.past, w.windows[x]) {
      SameCurrent(w.disk, s.disk, w.past, w.windows[x]);
    }
    CellInv(w.disk, s.disk, w.windows[LIFE].queue, w.life, scope);
  }

  lemma GuardStepInv(w: World, win: nat, a: Authority)
    requires Inv(w) && win in w.windows
    ensures Inv(With(w, win, ScopedGuard(w.disk, w.windows[win].queue, a)))
  {
    var q := w.windows[win].queue;
    var g := ScopedGuard(w.disk, q, a);
    assert WindowInv(w.disk, w.past, w.windows[win]);
    GuardFacts(w.disk, q, a);
    if g.queue == q {
      assert With(w, win, g) == w;
    } else {
      ExtendsSelf(w.past);
      TameStep(w, win, g, w.past);
      assert With(w, win, g).(past := w.past) == With(w, win, g);
    }
  }

  lemma ScopedWriteInv(w: World, win: nat, a: Authority, key: Key, cell: Cell, k: nat)
    requires Inv(w) && Admissible(w, ScopedWrite(win, a, key, cell, k))
    ensures Inv(WriteNext(w, win, a, key, cell, k))
  {
    if win in w.windows {
      var q := w.windows[win].queue;
      var s := ScopedSet(w.disk, q, a, key, cell, k);
      assert WindowInv(w.disk, w.past, w.windows[win]);
      GuardFacts(w.disk, q, a);
      GuardStepInv(w, win, a);
      if s.verdict == Done {
        assert Fits(key, cell, a.scope);
        CellStepInv(w, win, s, a.scope);
      }
    }
  }

  lemma ScopedEraseInv(w: World, win: nat, a: Authority, key: Key, k: nat)
    requires Inv(w) && Admissible(w, ScopedErase(win, a, key, k))
    ensures Inv(EraseNext(w, win, a, key, k))
  {
    if win in w.windows {
      var q := w.windows[win].queue;
      var s := ScopedRemove(w.disk, q, a, key, k);
      assert WindowInv(w.disk, w.past, w.windows[win]);
      GuardFacts(w.disk, q, a);
      GuardStepInv(w, win, a);
      if s.verdict == Done {
        CellStepInv(w, win, s, a.scope);
      }
    }
  }
}

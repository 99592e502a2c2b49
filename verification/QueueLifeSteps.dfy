/** The lifecycle window: boot, pair and forget keep the invariant at every write, whatever is refused. */
module QueueLifeSteps {
  import opened Wrappers
  import opened QueueModel
  import opened QueueFacts
  import opened QueueWorld
  import opened QueueInvariant
  import opened QueueSections
  import opened QueueHistory

  // ─── Purging the perimeter ───

  function Dropped(ws: seq<Write>): set<Key> {
    set i | 0 <= i < |ws| && ws[i].DropItem? :: ws[i].key
  }

  lemma {:induction false} DropsLand(d: Disk, ws: seq<Write>)
    requires forall i | 0 <= i < |ws| :: ws[i].DropItem?
    ensures ApplyAll(d, ws) == d.(items := d.items - Dropped(ws))
  {
    if ws == [] {
      assert d.items - Dropped(ws) == d.items;
    } else {
      var n := |ws| - 1;
      DropsLand(d, ws[..n]);
      assert Dropped(ws) == Dropped(ws[..n]) + {ws[n].key} by {
        assert forall i | 0 <= i < n :: ws[..n][i] == ws[i];
      }
      assert d.items - Dropped(ws) == (d.items - Dropped(ws[..n])) - {ws[n].key};
    }
  }

  lemma {:induction false} OthersFirstFacts(keys: seq<Key>)
    ensures forall w | w in OthersFirst(keys) :: w.DropItem? && w.key != DEVICE_KEY
    ensures forall k | k in keys && k != DEVICE_KEY :: DropItem(k) in OthersFirst(keys)
  {
    if keys != [] {
      OthersFirstFacts(keys[1..]);
      assert keys == [keys[0]] + keys[1..];
    }
  }

  /** Until its last write a purge leaves the identity in place; after it nothing of the perimeter is left. */
  lemma PurgeLands(d: Disk, k: nat)
    ensures var d' := Purged(d, k);
            && Current(d') == Current(d)
            && d'.items.Keys <= d.items.Keys && (forall key | key in d'.items :: d'.items[key] == d.items[key])
            && (k < |PurgePlan()| ==> CellAt(d', DEVICE_KEY) == CellAt(d, DEVICE_KEY))
            && (|PurgePlan()| <= k && InPerimeter(d) ==> d'.items == map[])
  {
    var plan := PurgePlan();
    var others := OthersFirst(PERIMETER);
    OthersFirstFacts(PERIMETER);
    forall i | 0 <= i < |plan| ensures plan[i].DropItem? && (i < |plan| - 1 ==> plan[i].key != DEVICE_KEY) {
      if i < |others| {
        assert plan[i] in others;
      }
    }
    DropsLand(d, Prefix(plan, k));
    if |plan| <= k && InPerimeter(d) {
      forall key | key in d.items ensures key in Dropped(plan) {
        assert key in PERIMETER;
        if key == DEVICE_KEY {
          assert plan[|plan| - 1] == DropItem(key);
        } else {
          assert DropItem(key) in others;
          var i :| 0 <= i < |others| && others[i] == DropItem(key);
          assert plan[i] == DropItem(key);
        }
      }
    }
  }

  // ─── One step of the lifecycle, without the other windows ───

  /** What a lifecycle step owes to the rest of the world. */
  predicate LifeGood(d: Disk, q: Queue, d': Disk, q': Queue) {
    && DiskInv(d') && QueueInv(d', q') && EpochFrame(d, d')
    && PassFrame(q, q') && (q.loaded ==> q'.loaded)
  }

  predicate Before(d: Disk, q: Queue, life: Life) {
    DiskInv(d) && QueueInv(d, q) && LifeInv(d, q, life)
  }

  lemma PurgeStep(d: Disk, q: Queue, life: Life, k: nat)
    requires Before(d, q, life)
    requires life.BootPurge? || life.ForgetPurge? || (life.Booting? && IdentityOf(d).None?)
    ensures var s := Advance(d, q, life, true, Grant(k, WipeRun(0, false, false)));
            LifeGood(d, q, s.disk, s.queue) && LifeInv(s.disk, s.queue, s.life)
  {
    PurgeLands(d, k);
  }

  /** A claim that nothing forbids lands as a whole or not at all. */
  lemma ClaimFacts(d: Disk, q: Queue, r: Read, scope: Scope, k: nat)
    requires Durable(d) == Some(r)
    ensures var s := Claim(d, q, r, scope, k);
            && s.disk.items == d.items && (s.verdict == Done || s.verdict == Refused)
            && (s.verdict == Refused ==> s.disk == d && s.queue == q.(legacyCleanup := s.queue.legacyCleanup))
            && (s.verdict == Done ==>
                  && Current(s.disk) == (if r.s.scope == Some(scope) && !r.legacy then r.s
                                         else r.s.(scope := Some(scope), purgePending := q.purgePending))
                  && s.queue == BoundTo(q, r.s, scope).(legacyCleanup := s.queue.legacyCleanup))
  {
    var claimed := r.s.(scope := Some(scope), purgePending := q.purgePending);
    if 0 < k {
      PersistLands(d, claimed, q.legacyCleanup || r.legacy, k);
    }
  }

  /** What a bind leaves behind. */
  predicate BindGood(d: Disk, q: Queue, scope: Scope, pairing: bool, s: Section) {
    && LifeGood(d, q, s.disk, s.queue) && LifeQueue(s.disk, s.queue)
    && s.disk.items == d.items
    && Current(s.disk).entries == Current(d).entries && Current(s.disk).rejected == Current(d).rejected
    && (s.verdict == Done ==>
          && s.queue.bound == Some(scope)
          && Current(s.disk) == Current(d).(scope := Some(scope))
          && scope !in Current(d).retired && !Current(d).purgePending
          && (Current(d).scope.None? && pairing ==> !Current(d).HasMatter()))
    && (s.verdict != Done ==> s.disk == d)
    && (s.verdict == ScopeRetired ==> scope in Current(d).retired)
  }

  /** A claim that landed: the disk gains the scope, the window is bound to it. */
  lemma BoundGood(d: Disk, q: Queue, scope: Scope, pairing: bool, s: Section)
    requires DiskInv(d) && QueueInv(d, q) && LifeQueue(d, q) && scope != ""
    requires BindRefusal(Current(d), scope, pairing) == Done && s.verdict == Done && s.disk.items == d.items
    requires Current(s.disk) == Current(d).(scope := Some(scope))
    requires s.queue == BoundTo(q, Current(d), scope).(legacyCleanup := s.queue.legacyCleanup)
    ensures BindGood(d, q, scope, pairing, s)
  {
  }

  /** A claim that was refused: nothing moved. */
  lemma RefusedGood(d: Disk, q: Queue, scope: Scope, pairing: bool, s: Section)
    requires DiskInv(d) && QueueInv(d, q) && LifeQueue(d, q)
    requires s.verdict != Done && s.disk == d && s.queue == q.(legacyCleanup := s.queue.legacyCleanup)
    requires s.verdict == ScopeRetired ==> scope in Current(d).retired
    ensures BindGood(d, q, scope, pairing, s)
  {
  }

  lemma RunBindGood(d: Disk, q: Queue, scope: Scope, pairing: bool, k: nat)
    requires DiskInv(d) && QueueInv(d, q) && LifeQueue(d, q) && scope != ""
    ensures BindGood(d, q, scope, pairing, RunBind(d, q, scope, pairing, k))
  {
    var r := Read(Current(d), HasLegacy(d));
    var s := RunBind(d, q, scope, pairing, k);
    if BindRefusal(r.s, scope, pairing) == Done {
      ClaimFacts(d, q, r, scope, k);
      if s.verdict == Done {
        BoundGood(d, q, scope, pairing, s);
      } else {
        RefusedGood(d, q, scope, pairing, s);
      }
    } else {
      RefusedGood(d, q, scope, pairing, s);
    }
  }

  lemma BindFacts(d: Disk, q: Queue, scope: Scope, pairing: bool, k: nat)
    requires DiskInv(d) && QueueInv(d, q) && LifeQueue(d, q) && scope != ""
    ensures BindGood(d, q, scope, pairing, BindScope(d, q, scope, pairing, k))
  {
    if q.bound.None? || (pairing && q.bound != Some(scope)) {
      RunBindGood(d, q, scope, pairing, k);
    }
  }

  lemma ScopeOfNonEmpty(device: Device)
    ensures ScopeOf(device) != "" && ScopeOf(Committed(device)) == ScopeOf(device) == ScopeOf(Intent(device))
  {
  }

  lemma BootBindStep(d: Disk, q: Queue, device: Device, protect: bool, g: Grant)
    requires Before(d, q, BootBind(device))
    ensures var s := Advance(d, q, BootBind(device), protect, g);
            LifeGood(d, q, s.disk, s.queue) && LifeInv(s.disk, s.queue, s.life)
  {
    ScopeOfNonEmpty(device);
    BindFacts(d, q, ScopeOf(device), device.bindingPending, g.writes);
  }

  lemma PairBindStep(d: Disk, q: Queue, device: Device, previous: Option<Cell>, protect: bool, g: Grant)
    requires Before(d, q, PairBind(device, previous))
    ensures var s := Advance(d, q, PairBind(device, previous), protect, g);
            LifeGood(d, q, s.disk, s.queue) && LifeInv(s.disk, s.queue, s.life)
  {
    ScopeOfNonEmpty(device);
    BindFacts(d, q, ScopeOf(device), true, g.writes);
  }

  lemma SaveFacts(d: Disk, q: Queue, device: Device, k: nat)
    requires DiskInv(d) && QueueInv(d, q) && LifeQueue(d, q) && Shape(d)
    requires Current(d).scope == Some(ScopeOf(device)) && q.bound == Current(d).scope
    ensures var s := SaveIdentity(d, q, Committed(device), k);
            && LifeGood(d, q, s.disk, s.queue) && LifeQueue(s.disk, s.queue) && Shape(s.disk)
            && s.queue == q && Current(s.disk) == Current(d)
            && (s.verdict != Done ==> s.disk == d)
            && (s.verdict == Done ==> Owned(s.disk))
  {
    ScopeOfNonEmpty(device);
  }

  lemma SaveStep(d: Disk, q: Queue, life: Life, protect: bool, g: Grant)
    requires Before(d, q, life) && (life.BootSave? || life.PairSave?)
    ensures var s := Advance(d, q, life, protect, g);
            LifeGood(d, q, s.disk, s.queue) && LifeInv(s.disk, s.queue, s.life)
  {
    SaveFacts(d, q, life.device, g.writes);
  }

  lemma CompleteFacts(d: Disk, q: Queue, k: nat)
    requires DiskInv(d) && QueueInv(d, q) && LifeQueue(d, q) && Current(d).scope.None? && d.items == map[]
    ensures var s := CompleteClear(d, q, k);
            && LifeGood(d, q, s.disk, s.queue) && LifeQueue(s.disk, s.queue) && s.disk.items == d.items
            && Current(s.disk).entries == Current(d).entries && Current(s.disk).rejected == Current(d).rejected
            && Current(s.disk).scope.None? && Current(s.disk).retired == Current(d).retired
            && (s.verdict == Done ==> !Current(s.disk).purgePending)
            && (s.verdict != Done ==> s.disk == d)
  {
    if 0 < k {
      PersistLands(d, Current(d).(purgePending := false), q.legacyCleanup, k);
    }
  }

  lemma CompleteStep(d: Disk, q: Queue, life: Life, protect: bool, g: Grant)
    requires Before(d, q, life) && (life.BootAck? || life.ForgetAck?)
    ensures var s := Advance(d, q, life, protect, g);
            LifeGood(d, q, s.disk, s.queue) && LifeInv(s.disk, s.queue, s.life)
  {
    CompleteFacts(d, q, g.writes);
  }

  /** The intention to pair overwrites the identity; it is harmless where nothing of a tenant is left. */
  lemma IntentStep(d: Disk, q: Queue, device: Device, protect: bool, g: Grant)
    requires Before(d, q, PairIntent(device))
    ensures var s := Advance(d, q, PairIntent(device), protect, g);
            LifeGood(d, q, s.disk, s.queue) && LifeInv(s.disk, s.queue, s.life)
  {
    ScopeOfNonEmpty(device);
  }

  /** What an undone pairing puts back fits the disk. */
  lemma RestoredShape(d: Disk, device: Device, previous: Option<Cell>)
    requires DiskInv(d) && Shape(d) && Rest(d) && Restorable(d, previous)
    requires CellAt(d, DEVICE_KEY) == Some(Identity(Intent(device)))
    ensures var d' := Apply(d, if previous.Some? then PutItem(DEVICE_KEY, previous.value) else DropItem(DEVICE_KEY));
            Current(d') == Current(d) && Shape(d') && Rest(d')
  {
  }

  lemma UndoStep(d: Disk, q: Queue, device: Device, previous: Option<Cell>, protect: bool, g: Grant)
    requires Before(d, q, PairUndo(device, previous))
    ensures var s := Advance(d, q, PairUndo(device, previous), protect, g);
            LifeGood(d, q, s.disk, s.queue) && LifeInv(s.disk, s.queue, s.life)
  {
    if CellAt(d, DEVICE_KEY) == Some(Identity(Intent(device))) && 0 < g.writes {
      RestoredShape(d, device, previous);
    }
  }

  /** A purge of the queue retires the scope it closes, and nothing of it is bound any more. */
  lemma ClearFacts(d: Disk, q: Queue, protect: bool, run: WipeRun)
    requires DiskInv(d) && QueueInv(d, q) && LifeQueue(d, q) && q.bound.Some? && q.clearing
    ensures var s := RunClear(d, q, protect, run);
            && LifeGood(d, q, s.disk, s.queue) && LifeQueue(s.disk, s.queue) && s.disk.items == d.items
            && (s.verdict != Done ==> Current(s.disk) == Current(d) && s.queue.bound == q.bound)
            && (s.verdict == Done ==>
                  && (protect ==> !Current(d).HasMatter())
                  && !Current(s.disk).HasMatter() && Current(s.disk).scope.None? && Current(s.disk).purgePending
                  && Current(s.disk).epoch == Current(d).epoch + 1
                  && Current(s.disk).retired == Current(d).retired + [q.bound.value])
  {
    assert d.v2.Some?;
    WipeLands(d, q, Current(d).epoch + 1, run);
  }

  lemma ClearStep(d: Disk, q: Queue, device: Device, protect: bool, g: Grant)
    requires Before(d, q, ForgetClear(device))
    ensures var s := Advance(d, q, ForgetClear(device), protect, g);
            LifeGood(d, q, s.disk, s.queue) && LifeInv(s.disk, s.queue, s.life)
  {
    ClearFacts(d, q, protect, g.wipe);
  }

  lemma AdvanceStep(d: Disk, q: Queue, life: Life, protect: bool, g: Grant)
    requires Before(d, q, life)
    ensures var s := Advance(d, q, life, protect, g);
            LifeGood(d, q, s.disk, s.queue) && LifeInv(s.disk, s.queue, s.life)
  {
    match life
    case Booting => if IdentityOf(d).None? { PurgeStep(d, q, life, g.writes); }
    case BootBind(device) => BootBindStep(d, q, device, protect, g);
    case BootSave(device) => SaveStep(d, q, life, protect, g);
    case BootPurge => PurgeStep(d, q, life, g.writes);
    case BootAck => CompleteStep(d, q, life, protect, g);
    case PairIntent(device) => IntentStep(d, q, device, protect, g);
    case PairBind(device, previous) => PairBindStep(d, q, device, previous, protect, g);
    case PairSave(_, _) => SaveStep(d, q, life, protect, g);
    case PairUndo(device, previous) => UndoStep(d, q, device, previous, protect, g);
    case ForgetClear(device) => ClearStep(d, q, device, protect, g);
    case ForgetPurge(_) => PurgeStep(d, q, life, g.writes);
    case ForgetAck(_) => CompleteStep(d, q, life, protect, g);
    case Stuck =>
    case Idle(_) =>
  }
}

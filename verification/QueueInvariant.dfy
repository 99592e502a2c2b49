/** What every step of the world keeps: the parts of the invariant, and the sections seen through them. */
module QueueInvariant {
  import opened Wrappers
  import opened QueueModel
  import opened QueueFacts
  import opened QueueWorld
  import FlushPass

  predicate DiskInv(d: Disk) {
    var s := Current(d);
    && ValidSnapshot(s)
    && (s.scope.Some? ==> s.scope.value !in s.retired)
    && (s.purgePending ==> s.scope.None?)
  }

  /** Equal epochs mean equal retired scopes, on the disk and in every bound window. */
  predicate QueueInv(d: Disk, q: Queue) {
    q.bound.Some? ==>
      && q.bound.value != "" && q.loaded
      && 0 <= q.epoch <= Current(d).epoch
      && (q.epoch == Current(d).epoch ==> q.retired == Current(d).retired)
      && !q.purgePending
  }

  /** The scope, epoch, retired set and purge flag are as before. */
  predicate ScopeFrame(d: Disk, d': Disk) {
    var s, s' := Current(d), Current(d');
    s'.epoch == s.epoch && s'.scope == s.scope && s'.retired == s.retired && s'.purgePending == s.purgePending
  }

  /** A data section never moves the binding of its window. */
  predicate BindingFrame(q: Queue, q': Queue) {
    && q'.bound == q.bound && q'.epoch == q.epoch && q'.clearing == q.clearing && q'.loaded == q.loaded
    && (q'.invalidated == q.invalidated ==> q'.generation == q.generation)
    && (q.invalidated ==> q'.invalidated)
    && q.generation <= q'.generation
  }

  // ─── Items ───

  predicate Signed(d: Disk, scope: Scope) {
    forall k | k in d.items && k != DEVICE_KEY :: d.items[k] == Data(scope)
  }

  predicate NoData(d: Disk) {
    forall k | k in d.items :: k == DEVICE_KEY
  }

  predicate InPerimeter(d: Disk) {
    forall k | k in d.items :: k in PERIMETER
  }

  /** The tenant cells and the identity, read against the durable scope. */
  predicate Shape(d: Disk) {
    var s := Current(d);
    var identity := IdentityOf(d);
    && InPerimeter(d)
    && match s.scope
       case Some(scope) =>
         Signed(d, scope) && identity.Some? && ScopeOf(identity.value) !in s.retired
       case None =>
         if s.purgePending then
           !s.HasMatter() && (identity.Some? ==> ScopeOf(identity.value) in s.retired)
         else if identity.None? then !s.HasMatter()
         else
           && ScopeOf(identity.value) !in s.retired
           && if identity.value.bindingPending then NoData(d) && !s.HasMatter()
              else Signed(d, ScopeOf(identity.value))
  }

  predicate LifeQueue(d: Disk, q: Queue) {
    && !q.invalidated
    && (q.bound.Some? ==> q.loaded)
    && (q.loaded ==> Matches(q, Current(d)))
    && (q.purgePending ==> Current(d).purgePending)
  }

  /** At rest and unpaired: nothing of a tenant is left, unless a bind went through and its save did not. */
  predicate Rest(d: Disk) {
    var s := Current(d);
    s.scope.None? ==> !s.purgePending && NoData(d) && !s.HasMatter()
  }

  predicate Fresh(d: Disk, device: Device) {
    ScopeOf(device) !in Current(d).retired && Current(d).scope != Some(ScopeOf(device))
  }

  /** What an undone pairing may put back. */
  predicate Restorable(d: Disk, previous: Option<Cell>) {
    && (Current(d).scope.Some? ==> previous.Some? && previous.value.Identity?)
    && (previous.Some? && previous.value.Identity? ==> ScopeOf(previous.value.device) !in Current(d).retired)
  }

  /** The identity names the durable scope. */
  predicate Owned(d: Disk) {
    Current(d).scope.Some? && IdentityOf(d).Some? ==> Current(d).scope == Some(ScopeOf(IdentityOf(d).value))
  }

  predicate LifeInv(d: Disk, q: Queue, life: Life) {
    var s := Current(d);
    && LifeQueue(d, q)
    && Shape(d)
    && match life
       case Booting => true
       case Stuck => true
       case BootBind(device) =>
         if s.scope.None? then IdentityOf(d) == Some(device)
         else ScopeOf(device) !in s.retired && (s.scope == Some(ScopeOf(device)) ==> Owned(d))
       case BootSave(device) => s.scope == Some(ScopeOf(device)) && q.bound == s.scope && Owned(d)
       case BootPurge => s.scope.None? && s.purgePending
       case BootAck => s.scope.None? && d.items == map[]
       case Idle(None) => Rest(d)
       case Idle(Some(_)) => Owned(d)
       case PairIntent(device) => Rest(d) && Fresh(d, device)
       case PairBind(device, previous) =>
         Rest(d) && Fresh(d, device) && Restorable(d, previous)
         && (s.scope.None? ==> IdentityOf(d) == Some(Intent(device)))
       case PairSave(device, _) => s.scope == Some(ScopeOf(device)) && q.bound == s.scope
       case PairUndo(_, previous) => Rest(d) && Restorable(d, previous)
       case ForgetClear(_) => q.bound.Some? && q.clearing && Owned(d)
       case ForgetPurge(_) => s.scope.None? && s.purgePending
       case ForgetAck(_) => s.scope.None? && d.items == map[]
  }

  // ─── History ───

  /** A rejection holds what was enqueued under its id and what the server answered. */
  predicate Ruled(past: History, r: Rejected) {
    r.id in past.born && Refuses(r, past.born[r.id].entry) && Ruling(r.id, r.reason, r.status) in past.rulings
  }

  predicate PastInv(d: Disk, past: History, protect: bool) {
    var s := Current(d);
    var live := EntryIds(s.entries);
    var refusedHere := RejectedIds(s.rejected);
    && live <= past.born.Keys && refusedHere <= past.born.Keys
    && SortedBy(s.entries, Ranks(past))
    && (forall i | 0 <= i < |s.entries| :: SamePayload(s.entries[i], past.born[s.entries[i].id].entry))
    && (forall i | 0 <= i < |s.rejected| :: Ruled(past, s.rejected[i]))
    && (forall id | id in past.born :: past.born[id].rank < past.births)
    && past.accepted <= past.born.Keys
    && refusedHere <= past.refused && past.acked <= past.refused
    && past.born.Keys <= live + refusedHere + past.confirmed + past.acked + past.dropped
    && past.born.Keys <= live + past.Settled()
    && (protect ==> past.dropped == {})
  }

  function Ranks(past: History): map<Id, nat> {
    map id | id in past.born :: past.born[id].rank
  }

  /** Everything a later history only adds to. */
  predicate Extends(past: History, past': History) {
    && past.births <= past'.births
    && (forall id | id in past.born :: id in past'.born && past'.born[id] == past.born[id])
    && (forall id | id in past'.born && id !in past.born :: past.births <= past'.born[id].rank)
    && past.accepted <= past'.accepted && past.confirmed <= past'.confirmed && past.refused <= past'.refused
    && past.rulings <= past'.rulings && past.acked <= past'.acked && past.dropped <= past'.dropped
  }

  // ─── Passes ───

  predicate Passed(past: History, id: Id) { id in past.confirmed || id in past.refused }

  predicate OutcomeInv(past: History, p: FlushPass.Pass) {
    && p.outcomes.Keys <= EntryIds(p.eligible)
    && forall id | id in p.outcomes ::
         match p.outcomes[id]
         case Sent => id in past.confirmed
         case Temporary(_) => true
         case Permanent(r) => id in past.refused && r.id == id && ValidRejected(r) && Ruled(past, r)
  }

  /** Behind the head of the loop every entry has passed, or its subject is blocked. */
  predicate Progress(past: History, p: FlushPass.Pass) {
    forall j | 0 <= j < p.index && j < |p.eligible| ::
      p.eligible[j].Blocks().Some? ==>
        Passed(past, p.eligible[j].id) || p.eligible[j].Blocks().value in p.blocked
  }

  predicate PhotoInv(past: History, t: Track) {
    var es := t.pass.eligible;
    && t.bornBefore <= past.births
    && (forall i | 0 <= i < |es| :: ValidEntry(es[i]))
    && SortedBy(es, Ranks(past))
    && (forall i | 0 <= i < |es| ::
          SamePayload(es[i], past.born[es[i].id].entry) && past.born[es[i].id].rank < t.bornBefore)
    && (forall id | id in past.born && past.born[id].rank < t.bornBefore ::
          id in EntryIds(es) || id in past.Settled())
  }

  predicate StageInv(past: History, p: FlushPass.Pass) {
    && p.WellFormed()
    && (p.stage.Ready? || p.stage.InFlight? ==> !FlushPass.Blocked(p, p.eligible[p.index]))
    && (p.stage.Answered? && p.stage.reply.Delivered? ==> p.eligible[p.index].id in past.confirmed)
    && (p.stage.Answered? && p.stage.reply.Refusal? ==>
          && p.eligible[p.index].id in past.refused
          && Ruling(p.eligible[p.index].id, p.stage.reply.message, p.stage.reply.status) in past.rulings)
  }

  /** A pass of the current generation still belongs to the epoch and scope it photographed; a pass that
    * was cut off has at most one send behind it, and none still to come once it has. */
  predicate CutInv(q: Queue, t: Track) {
    && t.pass.generation <= q.generation
    && (t.pass.generation == q.generation && t.pass.stage != FlushPass.Over ==>
          q.bound == Some(t.scope) && q.epoch == t.epoch && !q.clearing)
    && (t.pass.generation == q.generation ==> t.lateSends == 0)
    && t.lateSends <= 1
    && (t.lateSends == 1 ==> t.pass.stage.InFlight? || t.pass.stage.Answered? || t.pass.stage.Over?)
  }

  predicate TrackInv(past: History, q: Queue, t: Track) {
    && PhotoInv(past, t)
    && StageInv(past, t.pass)
    && Progress(past, t.pass)
    && OutcomeInv(past, t.pass)
    && CutInv(q, t)
  }

  predicate WindowInv(d: Disk, past: History, window: Window) {
    && QueueInv(d, window.queue)
    && (window.tracks != [] ==> window.queue.loaded)
    && forall i | 0 <= i < |window.tracks| :: TrackInv(past, window.queue, window.tracks[i])
  }

  predicate Inv(w: World) {
    && LIFE in w.windows
    && DiskInv(w.disk)
    && PastInv(w.disk, w.past, w.protect)
    && (forall win | win in w.windows :: WindowInv(w.disk, w.past, w.windows[win]))
    && (forall win | win in w.windows && win != LIFE :: !w.windows[win].queue.purgePending)
    && LifeInv(w.disk, w.windows[LIFE].queue, w.life)
  }
}

/** Any number of windows over one disk, as a state machine.
  *
  * Window `LIFE` also boots, pairs and forgets; it may die at any write and start again.  The other
  * windows enqueue, flush, acknowledge and use their scoped store.  `History` records what happened
  * outside the windows: what was enqueued and in which order, and what the server answered.
  */
module QueueWorld {
  import opened Wrappers
  import opened QueueModel
  import FlushPass

  const LIFE: nat := 0

  const DEVICE_KEY: Key := "sm.pos.device.v1"

  /** The tenant perimeter of the till, the identity included. */
  const PERIMETER: seq<Key> := [
    "sm.pos.session.v1", DEVICE_KEY, "sm.pos.parked.v1", "sm.pos.daylog.v1",
    "sm.pos.servicestart.v1", "sm.pos.loyalty-enrollment-recovery.v1"]

  /** One network pass of a window, with what it was started from. */
  datatype Track = Track(pass: FlushPass.Pass, epoch: int, scope: Scope, bornBefore: nat, lateSends: nat)

  datatype Window = Window(queue: Queue, tracks: seq<Track>)

  const FRESH_WINDOW := Window(FRESH_QUEUE, [])

  /** What was enqueued under an id, and after how many others. */
  datatype Birth = Birth(rank: nat, entry: Entry)

  /** What the server answered for good about an id. */
  datatype Ruling = Ruling(id: Id, reason: string, status: int)

  datatype History = History(
    born: map<Id, Birth>, births: nat, accepted: set<Id>,
    confirmed: set<Id>, refused: set<Id>, rulings: set<Ruling>, acked: set<Id>, dropped: set<Id>)
  {
    function Settled(): set<Id> { confirmed + refused + dropped }
  }

  /** Where the lifecycle window stands in `loadPairedDevice`, `persist` or `forgetPairedDevice`. */
  datatype Life =
    | Booting
    | BootBind(device: Device)
    | BootSave(device: Device)
    | BootPurge
    | BootAck
    | Stuck
    | Idle(current: Option<Device>)
    | PairIntent(device: Device)
    | PairBind(device: Device, previous: Option<Cell>)
    | PairSave(device: Device, previous: Option<Cell>)
    | PairUndo(device: Device, previous: Option<Cell>)
    | ForgetClear(device: Device)
    | ForgetPurge(device: Device)
    | ForgetAck(device: Device)

  datatype World = World(disk: Disk, windows: map<nat, Window>, life: Life, past: History, protect: bool)

  // ─── The lifecycle window ───

  /** `queueScopeOf`: a device paired before scopes existed claims a scope made from its own id. */
  function ScopeOf(device: Device): Scope {
    if device.queueScope.Some? && device.queueScope.value != "" then device.queueScope.value
    else "legacy:" + device.id
  }

  function Committed(device: Device): Device {
    Device(device.id, Some(ScopeOf(device)), false)
  }

  function Intent(device: Device): Device {
    Device(device.id, Some(ScopeOf(device)), true)
  }

  /** The identity as the boot decodes it: a cell of another shape is no identity. */
  function IdentityOf(d: Disk): Option<Device> {
    if DEVICE_KEY in d.items && d.items[DEVICE_KEY].Identity? then Some(d.items[DEVICE_KEY].device) else None
  }

  function CellAt(d: Disk, key: Key): Option<Cell> {
    if key in d.items then Some(d.items[key]) else None
  }

  function OthersFirst(keys: seq<Key>): seq<Write> {
    if keys == [] then []
    else (if keys[0] == DEVICE_KEY then [] else [DropItem(keys[0])]) + OthersFirst(keys[1..])
  }

  /** `purgeKeysWithIdentityLast` on the perimeter. */
  function PurgePlan(): seq<Write> {
    OthersFirst(PERIMETER) + [DropItem(DEVICE_KEY)]
  }

  function Purged(d: Disk, k: nat): Disk {
    ApplyAll(d, Prefix(PurgePlan(), k))
  }

  datatype LifeState = LifeState(disk: Disk, queue: Queue, life: Life)

  /** How many writes of the next section get through. */
  datatype Grant = Grant(writes: nat, wipe: WipeRun)

  const GRANT_ALL := Grant(FULL, WipeRun(FULL, true, true))

  function SaveIdentity(d: Disk, q: Queue, device: Device, k: nat): Section {
    if q.bound.None? then Section(d, q, NotBound)
    else ScopedSet(d, q, Authority(q.bound.value, q.epoch, q.generation), DEVICE_KEY, Identity(device), k)
  }

  /** The next section of the lifecycle window; at rest there is none. */
  function Advance(d: Disk, q: Queue, life: Life, protect: bool, g: Grant): LifeState {
    match life
    case Booting =>
      (match IdentityOf(d)
       case Some(device) => LifeState(d, q, BootBind(device))
       case None => LifeState(Purged(d, g.writes), q, if g.writes < |PurgePlan()| then Stuck else BootAck))
    case BootBind(device) =>
      var s := BindScope(d, q, ScopeOf(device), device.bindingPending, g.writes);
      LifeState(s.disk, s.queue,
                if s.verdict == Done then BootSave(device)
                else if s.verdict == ScopeRetired then BootPurge
                else Stuck)
    case BootSave(device) =>
      if device == Committed(device) then LifeState(d, q, Idle(Some(device)))
      else
        var s := SaveIdentity(d, q, Committed(device), g.writes);
        LifeState(s.disk, s.queue, if s.verdict == Done then Idle(Some(Committed(device))) else Stuck)
    case BootPurge =>
      LifeState(Purged(d, g.writes), q, if g.writes < |PurgePlan()| then Stuck else BootAck)
    case BootAck =>
      var s := CompleteClear(d, q, g.writes);
      LifeState(s.disk, s.queue, if s.verdict == Done then Idle(None) else Stuck)
    case PairIntent(device) =>
      if g.writes == 0 then LifeState(d, q, Idle(None))
      else LifeState(Apply(d, PutItem(DEVICE_KEY, Identity(Intent(device)))), q, PairBind(device, CellAt(d, DEVICE_KEY)))
    case PairBind(device, previous) =>
      var s := BindScope(d, q, ScopeOf(device), true, g.writes);
      LifeState(s.disk, s.queue, if s.verdict == Done then PairSave(device, previous) else PairUndo(device, previous))
    case PairSave(device, previous) =>
      var s := SaveIdentity(d, q, Committed(device), g.writes);
      LifeState(s.disk, s.queue, if s.verdict == Done then Idle(Some(Committed(device))) else Idle(None))
    case PairUndo(device, previous) =>
      var restore := if previous.Some? then PutItem(DEVICE_KEY, previous.value) else DropItem(DEVICE_KEY);
      if CellAt(d, DEVICE_KEY) == Some(Identity(Intent(device))) && 0 < g.writes then
        LifeState(Apply(d, restore), q, Idle(None))
      else LifeState(d, q, Idle(None))
    case ForgetClear(current) =>
      var s := RunClear(d, q, protect, g.wipe);
      LifeState(s.disk, s.queue, if s.verdict == Done then ForgetPurge(current) else Idle(Some(current)))
    case ForgetPurge(current) =>
      LifeState(Purged(d, g.writes), q, if g.writes < |PurgePlan()| then Idle(Some(current)) else ForgetAck(current))
    case ForgetAck(current) =>
      var s := CompleteClear(d, q, g.writes);
      LifeState(s.disk, s.queue, if s.verdict == Done then Idle(None) else Idle(Some(current)))
    case Stuck => LifeState(d, q, life)
    case Idle(_) => LifeState(d, q, life)
  }

  datatype LifeStep =
    | Boot                    // load, first or retried
    | Pair(device: Device)    // a fresh device returned by the server
    | Forget
    | Go(grant: Grant)

  function TakeLifeStep(d: Disk, q: Queue, life: Life, protect: bool, step: LifeStep): LifeState {
    match step
    case Boot => if life.Stuck? || life.Idle? then LifeState(d, q, Booting) else LifeState(d, q, life)
    case Pair(device) => if life == Idle(None) then LifeState(d, q, PairIntent(device)) else LifeState(d, q, life)
    case Forget =>
      if life.Idle? && life.current.Some? && !q.invalidated && q.bound.Some?
      then LifeState(d, ClearCall(q), ForgetClear(life.current.value))
      else LifeState(d, q, life)
    case Go(grant) => Advance(d, q, life, protect, grant)
  }

  // ─── Actions ───

  datatype Action =
    | Open(win: nat)
    | Shut(win: nat)
    | Attach(win: nat, k: nat)
    | Enqueue(win: nat, entry: Entry, k: nat)
    | Acknowledge(win: nat, ids: set<Id>, k: nat)
    | ScopedWrite(win: nat, authority: Authority, key: Key, cell: Cell, k: nat)
    | ScopedErase(win: nat, authority: Authority, key: Key, k: nat)
    | Photograph(win: nat)
    | PassHead(win: nat, i: nat)
    | PassCheck(win: nat, i: nat, readable: bool)
    | PassIssue(win: nat, i: nat)
    | PassReply(win: nat, i: nat, reply: FlushPass.Reply)
    | PassResume(win: nat, i: nat, readable: bool, now: int)
    | PassCommit(win: nat, i: nat, k: nat, published: bool)
    | Lifecycle(step: LifeStep, crash: bool)

  function With(w: World, win: nat, s: Section): World
    requires win in w.windows
  {
    w.(disk := s.disk, windows := w.windows[win := w.windows[win].(queue := s.queue)])
  }

  function WithTrack(w: World, win: nat, i: nat, q: Queue, t: Track): World
    requires HasTrack(w, win, i)
  {
    w.(windows := w.windows[win := Window(q, w.windows[win].tracks[i := t])])
  }

  function CheckOf(s: Section, readable: bool): FlushPass.Check {
    if !readable || s.verdict == Corrupted then FlushPass.Unreadable("La file hors-ligne est illisible.")
    else if s.verdict == Done then FlushPass.Holds
    else FlushPass.Moved
  }

  /** A read that fails leaves the window as it was. */
  function Checked(d: Disk, q: Queue, readable: bool): Section {
    if readable then AssertScope(d, q) else Section(d, q, Corrupted)
  }

  /** Under the head of the loop a pass is current when its window has not changed generation. */
  function IsCurrent(q: Queue, t: Track): bool { t.pass.generation == q.generation }

  /** The photograph of the queue that a pass works on. */
  function NewTrack(q: Queue, births: nat): Track {
    Track(FlushPass.StartPass(q.entries, q.generation), q.epoch, q.bound.GetOr(""), births, 0)
  }

  function Sends(q: Queue, t: Track): Track {
    t.(pass := FlushPass.Issue(t.pass), lateSends := t.lateSends + if IsCurrent(q, t) then 0 else 1)
  }

  function Answers(past: History, id: Id, reply: FlushPass.Reply): History {
    match reply
    case Delivered => past.(confirmed := past.confirmed + {id})
    case Refusal(message, status) =>
      past.(refused := past.refused + {id}, rulings := past.rulings + {Ruling(id, message, status)})
    case Unavailable(_) => past
  }

  function BirthOf(past: History, e: Entry): History {
    past.(born := past.born[e.id := Birth(past.births, e)], births := past.births + 1,
          accepted := past.accepted + {e.id})
  }

  /** What the unprotected purge throws away. */
  function Dropped(past: History, life: Life, d: Disk, d': Disk, protect: bool): History {
    if life.ForgetClear? && Current(d') != Current(d) && !protect then
      past.(dropped := past.dropped + EntryIds(Current(d).entries) + RejectedIds(Current(d).rejected))
    else past
  }

  function OpenNext(w: World, win: nat): World {
    if win in w.windows then w else w.(windows := w.windows[win := FRESH_WINDOW])
  }

  function ShutNext(w: World, win: nat): World {
    if win == LIFE then w else w.(windows := w.windows - {win})
  }

  function AttachNext(w: World, win: nat, k: nat): World {
    if win == LIFE || win !in w.windows || Current(w.disk).scope.None? then w
    else With(w, win, BindScope(w.disk, w.windows[win].queue, Current(w.disk).scope.value, false, k))
  }

  function EnqueueNext(w: World, win: nat, e: Entry, k: nat): World {
    if win !in w.windows then w
    else
      var s := EnqueueSection(w.disk, w.windows[win].queue, e, k);
      With(w, win, s).(past := if s.verdict == Done then BirthOf(w.past, e) else w.past)
  }

  function Acked(past: History, d: Disk, ids: set<Id>): History {
    past.(acked := past.acked + (ids * RejectedIds(Current(d).rejected)))
  }

  function AcknowledgeNext(w: World, win: nat, ids: set<Id>, k: nat): World {
    if win !in w.windows then w
    else
      var s := AcknowledgeSection(w.disk, w.windows[win].queue, ids, k);
      With(w, win, s).(past := if s.verdict == Done then Acked(w.past, w.disk, ids) else w.past)
  }

  function WriteNext(w: World, win: nat, a: Authority, key: Key, cell: Cell, k: nat): World {
    if win !in w.windows then w
    else With(w, win, ScopedSet(w.disk, w.windows[win].queue, a, key, cell, k))
  }

  function EraseNext(w: World, win: nat, a: Authority, key: Key, k: nat): World {
    if win !in w.windows then w
    else With(w, win, ScopedRemove(w.disk, w.windows[win].queue, a, key, k))
  }

  function WithNewTrack(w: World, win: nat, t: Track): World
    requires win in w.windows
  {
    w.(windows := w.windows[win := w.windows[win].(tracks := w.windows[win].tracks + [t])])
  }

  function PhotographNext(w: World, win: nat): World {
    if win !in w.windows || Gate(w.windows[win].queue) != Done then w
    else
      var s := Refresh(w.disk, w.windows[win].queue);
      if s.verdict != Done then With(w, win, s)
      else WithNewTrack(With(w, win, s), win, NewTrack(s.queue, w.past.births))
  }

  predicate HasTrack(w: World, win: nat, i: nat) {
    win in w.windows && i < |w.windows[win].tracks| && w.windows[win].tracks[i].pass.WellFormed()
  }

  predicate AtStage(w: World, win: nat, i: nat, stage: FlushPass.Stage) {
    HasTrack(w, win, i) && w.windows[win].tracks[i].pass.stage == stage
  }

  function OnTrack(w: World, win: nat, i: nat, t: Track): World
    requires HasTrack(w, win, i)
  {
    WithTrack(w, win, i, w.windows[win].queue, t)
  }

  function HeadNext(w: World, win: nat, i: nat): World {
    if !HasTrack(w, win, i) then w
    else
      var t := w.windows[win].tracks[i];
      OnTrack(w, win, i, t.(pass := FlushPass.Head(t.pass, IsCurrent(w.windows[win].queue, t))))
  }

  function CheckNext(w: World, win: nat, i: nat, readable: bool): World {
    if !AtStage(w, win, i, FlushPass.Checking) then w
    else
      var t := w.windows[win].tracks[i];
      var s := Checked(w.disk, w.windows[win].queue, readable);
      WithTrack(w, win, i, s.queue, t.(pass := FlushPass.Checked(t.pass, CheckOf(s, readable))))
  }

  function IssueNext(w: World, win: nat, i: nat): World {
    if !AtStage(w, win, i, FlushPass.Ready) then w
    else OnTrack(w, win, i, Sends(w.windows[win].queue, w.windows[win].tracks[i]))
  }

  function ReplyNext(w: World, win: nat, i: nat, reply: FlushPass.Reply): World {
    if !AtStage(w, win, i, FlushPass.InFlight) then w
    else
      var t := w.windows[win].tracks[i];
      OnTrack(w, win, i, t.(pass := FlushPass.Answer(t.pass, reply)))
      .(past := Answers(w.past, t.pass.eligible[t.pass.index].id, reply))
  }

  function ResumeNext(w: World, win: nat, i: nat, readable: bool, now: int): World {
    if !HasTrack(w, win, i) || !w.windows[win].tracks[i].pass.stage.Answered? then w
    else
      var q, t := w.windows[win].queue, w.windows[win].tracks[i];
      if !IsCurrent(q, t) then OnTrack(w, win, i, t.(pass := FlushPass.Resume(t.pass, false, FlushPass.Holds, now)))
      else
        var s := Checked(w.disk, q, readable);
        WithTrack(w, win, i, s.queue, t.(pass := FlushPass.Resume(t.pass, true, CheckOf(s, readable), now)))
  }

  function Ended(t: Track): Track { t.(pass := t.pass.(stage := FlushPass.Over)) }

  function CommitNext(w: World, win: nat, i: nat, k: nat, published: bool): World {
    if !AtStage(w, win, i, FlushPass.Finishing) then w
    else
      var q, t := w.windows[win].queue, w.windows[win].tracks[i];
      if !IsCurrent(q, t) then OnTrack(w, win, i, Ended(t))
      else
        var s := CommitSection(w.disk, q, t.pass.outcomes, t.pass.generation, k, published);
        WithTrack(w, win, i, s.queue, Ended(t)).(disk := s.disk)
  }

  function LifecycleNext(w: World, step: LifeStep, crash: bool): World {
    if LIFE !in w.windows then w
    else
      var window := w.windows[LIFE];
      var s := TakeLifeStep(w.disk, window.queue, w.life, w.protect, step);
      w.(disk := s.disk,
         windows := w.windows[LIFE := if crash then FRESH_WINDOW else window.(queue := s.queue)],
         life := if crash then Booting else s.life,
         past := Dropped(w.past, w.life, w.disk, s.disk, w.protect))
  }

  function Next(w: World, a: Action): World {
    match a
    case Open(win) => OpenNext(w, win)
    case Shut(win) => ShutNext(w, win)
    case Attach(win, k) => AttachNext(w, win, k)
    case Enqueue(win, e, k) => EnqueueNext(w, win, e, k)
    case Acknowledge(win, ids, k) => AcknowledgeNext(w, win, ids, k)
    case ScopedWrite(win, authority, key, cell, k) => WriteNext(w, win, authority, key, cell, k)
    case ScopedErase(win, authority, key, k) => EraseNext(w, win, authority, key, k)
    case Photograph(win) => PhotographNext(w, win)
    case PassHead(win, i) => HeadNext(w, win, i)
    case PassCheck(win, i, readable) => CheckNext(w, win, i, readable)
    case PassIssue(win, i) => IssueNext(w, win, i)
    case PassReply(win, i, reply) => ReplyNext(w, win, i, reply)
    case PassResume(win, i, readable, now) => ResumeNext(w, win, i, readable, now)
    case PassCommit(win, i, k, published) => CommitNext(w, win, i, k, published)
    case Lifecycle(step, crash) => LifecycleNext(w, step, crash)
  }

  /** What the environment owes: fresh ids and pairing scopes, paths that start with "/", perimeter cells
    * signed by the authority that writes them. */
  predicate Admissible(w: World, a: Action) {
    match a
    case Enqueue(_, e, _) => e.id != "" && e.id !in w.past.born && ValidPath(e.path) && e.attempts == 0
    case ScopedWrite(_, authority, key, cell, _) =>
      key in PERIMETER &&
      if key == DEVICE_KEY
      then cell.Identity? && !cell.device.bindingPending && ScopeOf(cell.device) == authority.scope
      else cell == Data(authority.scope)
    case ScopedErase(_, _, key, _) => key != DEVICE_KEY
    case Lifecycle(Pair(device), _) =>
      && ScopeOf(device) !in Current(w.disk).retired
      && Current(w.disk).scope != Some(ScopeOf(device))
    case _ => true
  }
}

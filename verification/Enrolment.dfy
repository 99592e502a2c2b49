/** The enrolment of a card from the till: a persisted phase, one callback at a time, lost answers, restarts.
  *
  * The till talks to the server of `LoyaltyModel`.  A callback is a task that stands at its next await: a
  * write to the storage, or an exchange with the server.  A restart forgets the panel and its callback.
  */
module Enrolment {
  import opened Wrappers
  import opened LoyaltyModel
  import opened LoyaltyTheorems

  datatype Step = Preparing | Creating | AwaitingHandoff | AckPending

  /** What the till keeps under the recovery key. */
  datatype Record = Record(op: OpId, step: Step)

  /** The state of the open panel. */
  datatype Panel = Panel(ready: bool, createOp: Option<OpId>, recovery: Option<Record>, qr: Option<Qr>)

  const FRESH_PANEL := Panel(false, None, None, None)

  datatype Task =
    | Rest
    | Loading
    | SavePreparing(op: OpId)
    | SendPrepare(op: OpId, resumed: bool)
    | SaveCreating(op: OpId)
    | SendCreate(op: OpId)
    | SendRecover(op: OpId)
    | SaveAwaiting(op: OpId, qr: Qr, created: bool)
    | SaveAckPending(op: OpId)
    | SendAcknowledge(op: OpId)
    | RemoveConfirmed(op: OpId)   // after a confirmed hand-over
    | RemoveExpired(op: OpId)     // after a hand-over that came too late
    | RemoveRefused(op: OpId)     // after a refused creation
    | Discard(op: OpId)           // after a terminal answer

  datatype World = World(
    server: State, durable: Option<Record>, panel: Panel, task: Task, owner: Owner, clock: int,
    started: set<OpId>, handedOver: set<OpId>, confirmed: set<OpId>)

  /** How far an exchange went. */
  datatype Link = Unreached | Lost | Answered

  datatype Event =
    | Restart
    | Reload
    | Read(ok: bool)
    | ResetForm
    | Begin(id: OpId)
    | Retry
    | Replay
    | HandOver
    | Store(ok: bool)
    | Exchange(link: Link, now: int, phone: Option<string>)
    | Elsewhere(request: Request, now: int)

  function Forgotten(p: Panel): Panel { p.(createOp := None, recovery := None) }

  function With(w: World, task: Task, recovery: Option<Record>): World {
    w.(task := task, panel := w.panel.(recovery := recovery))
  }

  /** `load`, once the programme has been read: the phase on the disk says how to go on. */
  function Loaded(w: World): World {
    if w.durable.None? then w.(task := Rest, panel := w.panel.(ready := true))
    else
      var r := w.durable.value;
      var panel := w.panel.(ready := true, createOp := Some(r.op));
      match r.step
      case AckPending => w.(task := SendAcknowledge(r.op), panel := panel.(recovery := Some(r)))
      case Preparing => w.(task := SendPrepare(r.op, true), panel := panel.(recovery := Some(r)))
      case _ => w.(task := SendRecover(r.op), panel := panel.(recovery := Some(Record(r.op, Creating))))
  }

  /** A new card may be asked for unless an operation is under way beyond its preparation. */
  predicate MayCreate(p: Panel) {
    p.ready && p.qr.None? && (p.recovery.Some? ==> p.recovery.value.step.Preparing?)
  }

  function Begun(w: World, id: OpId): World {
    var op := w.panel.createOp.GetOr(id);
    w.(task := SavePreparing(op), panel := w.panel.(createOp := Some(op)), started := w.started + {op})
  }

  function Retried(w: World): World {
    if w.panel.ready && w.panel.qr.None? && w.panel.recovery.Some?
       && (w.panel.recovery.value.step.Creating? || w.panel.recovery.value.step.AwaitingHandoff?)
    then With(w, SendRecover(w.panel.recovery.value.op), Some(Record(w.panel.recovery.value.op, Creating)))
    else w
  }

  function Replayed(w: World): World {
    if w.panel.ready && w.panel.qr.None? && w.panel.recovery.Some? && w.panel.recovery.value.step.AckPending?
    then w.(task := SendAcknowledge(w.panel.recovery.value.op))
    else w
  }

  function HandedOverNext(w: World): World {
    if w.panel.qr.Some? && w.panel.recovery.Some?
    then w.(task := SaveAckPending(w.panel.recovery.value.op))
    else w
  }

  /** The next write to the storage, or removal from it. */
  function Stored(w: World, ok: bool): World {
    match w.task
    case SavePreparing(op) =>
      var r := Some(Record(op, Preparing));
      if ok then With(w, SendPrepare(op, false), r).(durable := r) else With(w, Rest, r)
    case SaveCreating(op) =>
      var r := Some(Record(op, Creating));
      if ok then With(w, SendCreate(op), r).(durable := r) else With(w, Rest, r)
    case SaveAwaiting(op, qr, created) =>
      var r := Some(Record(op, AwaitingHandoff));
      if ok then
        w.(task := Rest, durable := r, panel := w.panel.(recovery := r, qr := Some(qr), createOp := None))
      else With(w, Rest, if created then r else w.panel.recovery)
    case SaveAckPending(op) =>
      var r := Some(Record(op, AckPending));
      if ok then With(w, SendAcknowledge(op), r).(durable := r, handedOver := w.handedOver + {op})
      else w.(task := Rest)
    case RemoveConfirmed(_) =>
      if ok then w.(task := Rest, durable := None, panel := Forgotten(w.panel).(qr := None))
      else w.(task := Rest, panel := w.panel.(qr := None))
    case RemoveExpired(_) =>
      if ok then w.(task := Rest, durable := None, panel := Forgotten(w.panel).(qr := None))
      else w.(task := Rest, panel := w.panel.(qr := None))
    case RemoveRefused(_) =>
      if ok then w.(task := Rest, durable := None, panel := Forgotten(w.panel)) else w.(task := Rest)
    case Discard(_) =>
      w.(task := Rest, durable := if ok then None else w.durable, panel := Forgotten(w.panel).(qr := None))
    case _ => w
  }

  predicate Sends(t: Task) {
    t.SendPrepare? || t.SendCreate? || t.SendRecover? || t.SendAcknowledge?
  }

  function RequestOf(t: Task, owner: Owner, phone: Option<string>): Request
    requires Sends(t)
  {
    match t
    case SendPrepare(op, _) => Prepare(Some(op), owner)
    case SendCreate(op) => Create(op, owner, phone, true)
    case SendRecover(op) => Recover(Some(op), owner)
    case SendAcknowledge(op) => Acknowledge(Some(op), owner)
  }

  predicate Refusal(answer: Answer) { answer.Error? && 400 <= answer.status < 500 }

  predicate Terminal(answer: Answer) { answer == Error(410) }

  /** How a callback goes on without an answer. */
  function Unanswered(w: World): World {
    match w.task
    case SendPrepare(op, resumed) =>
      if resumed then w.(task := Rest, panel := w.panel.(ready := false)) else With(w, Rest, Some(Record(op, Preparing)))
    case SendCreate(op) => With(w, Rest, Some(Record(op, Creating)))
    case _ => w.(task := Rest)
  }

  /** How a callback goes on with its answer. */
  function Went(w: World, answer: Answer): World {
    match w.task
    case SendPrepare(op, resumed) =>
      if Terminal(answer) then w.(task := Discard(op))
      else if answer.PreparedAs? then
        if answer.ready then With(w, SendRecover(op), Some(Record(op, Creating)))
        else w.(task := if resumed then Rest else SaveCreating(op))
      else if !resumed && Refusal(answer) then w.(task := RemoveRefused(op))
      else Unanswered(w)
    case SendCreate(op) =>
      if Terminal(answer) then w.(task := Discard(op))
      else if answer.CardReady? then w.(task := SaveAwaiting(op, answer.card.qr, true))
      else if Refusal(answer) then w.(task := RemoveRefused(op))
      else Unanswered(w)
    case SendRecover(op) =>
      if Terminal(answer) then w.(task := Discard(op))
      else if answer.CardReady? then w.(task := SaveAwaiting(op, answer.card.qr, false))
      else Unanswered(w)
    case SendAcknowledge(op) =>
      if answer.Acked? then w.(task := RemoveConfirmed(op), confirmed := w.confirmed + {op})
      else if Terminal(answer) then w.(task := RemoveExpired(op))
      else Unanswered(w)
    case _ => w
  }

  function Exchanged(w: World, link: Link, now: int, phone: Option<string>): World
    requires Sends(w.task)
  {
    var served := Serve(w.server, RequestOf(w.task, w.owner, phone), now);
    var timed := w.(clock := now);
    match link
    case Unreached => Unanswered(timed)
    case Lost => Unanswered(timed).(server := served.state)
    case Answered => Went(timed, served.answer).(server := served.state)
  }

  function Next(w: World, e: Event): World {
    match e
    case Restart => w.(task := Loading, panel := FRESH_PANEL)
    case Reload => if w.task.Rest? && !w.panel.ready then w.(task := Loading) else w
    case Read(ok) => if !w.task.Loading? then w else if ok then Loaded(w) else w.(task := Rest)
    case ResetForm => if w.task.Rest? && w.panel.recovery.None? then w.(panel := w.panel.(createOp := None)) else w
    case Begin(id) => if w.task.Rest? && MayCreate(w.panel) then Begun(w, id) else w
    case Retry => if w.task.Rest? then Retried(w) else w
    case Replay => if w.task.Rest? then Replayed(w) else w
    case HandOver => if w.task.Rest? then HandedOverNext(w) else w
    case Store(ok) => Stored(w, ok)
    case Exchange(link, now, phone) => if Sends(w.task) then Exchanged(w, link, now, phone) else w
    case Elsewhere(request, now) => w.(server := Serve(w.server, request, now).state, clock := now)
  }

  /** The operation that an enrolment request names. */
  function Named(r: Request): Option<OpId> {
    match r
    case Prepare(op, _) => op
    case Recover(op, _) => op
    case Acknowledge(op, _) => op
    case Create(id, _, _, _) => Some(id)
    case _ => None
  }

  /** What the environment owes: a clock that does not go back, and fresh operation ids that nobody else uses. */
  predicate Admissible(w: World, e: Event) {
    match e
    case Begin(id) => id !in w.started && id !in w.server.enrolments
    case Exchange(_, now, _) => w.clock <= now
    case Elsewhere(request, now) => w.clock <= now && (Named(request).Some? ==> Named(request).value !in w.started)
    case _ => true
  }

  /** One step of a run. */
  predicate Follows(w: World, e: Event, w': World) { Admissible(w, e) && w' == Next(w, e) }

  /** A new till before a server. */
  function Start(server: State, owner: Owner, clock: int): World {
    World(server, None, FRESH_PANEL, Loading, owner, clock, {}, {}, {})
  }

  /** Any run of a new till, before a server in any state it can be in, leads here. */
  ghost predicate Reachable(w: World) {
    exists b, clock :: Lived(b) && Reaches(Follows, Start(b.state, w.owner, clock), w)
  }
}

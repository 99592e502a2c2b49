/** What every step of the enrolment keeps, and what follows for whole runs. */
module EnrolmentProofs {
  import opened Wrappers
  import opened LoyaltyModel
  import opened LoyaltyFacts
  import opened LoyaltyLedger
  import opened LoyaltyTheorems
  import opened Enrolment

  /** An operation that can neither make nor activate a card any more, or not yet. */
  predicate Settled(s: State, clock: int, op: OpId) {
    op in s.enrolments ==> Final(s.enrolments[op]) || Expired(s.enrolments[op], clock)
  }

  predicate CardOf(s: State, op: OpId) { op in s.enrolments && HasCard(s.enrolments[op]) }

  function OpOf(t: Task): Option<OpId> {
    match t
    case Rest => None
    case Loading => None
    case SavePreparing(op) => Some(op)
    case SendPrepare(op, _) => Some(op)
    case SaveCreating(op) => Some(op)
    case SendCreate(op) => Some(op)
    case SendRecover(op) => Some(op)
    case SaveAwaiting(op, _, _) => Some(op)
    case SaveAckPending(op) => Some(op)
    case SendAcknowledge(op) => Some(op)
    case RemoveConfirmed(op) => Some(op)
    case RemoveExpired(op) => Some(op)
    case RemoveRefused(op) => Some(op)
    case Discard(op) => Some(op)
  }

  predicate About(r: Option<Record>, op: OpId) { r.Some? && r.value.op == op }

  // ─── One operation at a time ───

  /** The server owes nothing to the till but for the operation on the disk. */
  predicate Focused(w: World) {
    forall op | op in w.started ::
      && (op in w.server.enrolments ==> w.server.enrolments[op].owner == w.owner)
      && (!Settled(w.server, w.clock, op) ==> About(w.durable, op))
  }

  predicate Known(w: World) {
    && (w.durable.Some? ==> w.durable.value.op in w.started)
    && (w.panel.createOp.Some? ==> w.panel.createOp.value in w.started)
    && (OpOf(w.task).Some? ==> OpOf(w.task).value in w.started)
    && w.handedOver <= w.started
  }

  /** The panel remembers what is on the disk, and a callback works on that. */
  predicate Aligned(durable: Option<Record>, panel: Panel, task: Task) {
    && (panel.recovery.Some? && !panel.recovery.value.step.Preparing? ==> About(durable, panel.recovery.value.op))
    && (OpOf(task).Some? ==> panel.ready) && (task.Loading? ==> !panel.ready)
    && (OpOf(task).Some? && !task.SavePreparing? ==> About(durable, OpOf(task).value) && About(panel.recovery, OpOf(task).value))
    && (task.SavePreparing? || task.SendPrepare? || task.SaveCreating? || task.SendCreate? ==> panel.createOp == OpOf(task))
    && (task.SendPrepare? || task.SaveCreating? ==> panel.recovery.value.step.Preparing?)
    && (panel.recovery.Some? && panel.recovery.value.step.Preparing? ==> panel.createOp == Some(panel.recovery.value.op))
    && (panel.qr.Some? ==> panel.recovery.Some? && panel.ready)
    && (panel.qr.Some? && OpOf(task).Some? ==>
          task.SaveAckPending? || task.SendAcknowledge? || task.RemoveConfirmed? || task.RemoveExpired?)
  }

  /** What is unsettled and on the disk is what the open panel would go on with. */
  predicate Resumes(w: World) {
    w.panel.ready && w.durable.Some? && !Settled(w.server, w.clock, w.durable.value.op) ==>
      if w.task.SavePreparing? then w.task.op == w.durable.value.op
      else About(w.panel.recovery, w.durable.value.op)
  }

  // ─── The card behind a hand-over ───

  predicate HandedStep(r: Option<Record>) { r.Some? && (r.value.step.AwaitingHandoff? || r.value.step.AckPending?) }

  predicate CardBehind(w: World) {
    && (HandedStep(w.durable) ==> CardOf(w.server, w.durable.value.op))
    && (HandedStep(w.panel.recovery) ==> CardOf(w.server, w.panel.recovery.value.op))
    && (w.panel.qr.Some? ==> HandedStep(w.panel.recovery))
    && (w.task.SaveAwaiting? || w.task.SaveAckPending? || w.task.SendAcknowledge? ==> CardOf(w.server, OpOf(w.task).value))
    && (w.task.RemoveExpired? || w.task.RemoveRefused? || w.task.Discard? || w.task.RemoveConfirmed? ==>
          Settled(w.server, w.clock, OpOf(w.task).value))
    && (forall op | op in w.confirmed :: op in w.server.enrolments && w.server.enrolments[op].phase.Acknowledged?)
  }

  // ─── No recovery after a hand-over ───

  predicate AskingForCard(t: Task) {
    t.SavePreparing? || t.SendPrepare? || t.SaveCreating? || t.SendCreate? || t.SendRecover? || t.SaveAwaiting?
  }

  predicate Sealed(w: World) {
    forall op | op in w.handedOver ::
      && (About(w.durable, op) ==> w.durable.value.step.AckPending?)
      && (About(w.panel.recovery, op) ==> w.panel.recovery.value.step.AckPending?)
      && (w.panel.createOp == Some(op) ==> About(w.panel.recovery, op))
      && (AskingForCard(w.task) ==> OpOf(w.task) != Some(op))
  }

  ghost predicate Inv(w: World) {
    && ServerInv(w.server) && Focused(w) && Known(w) && Aligned(w.durable, w.panel, w.task)
    && Resumes(w) && CardBehind(w) && Sealed(w)
  }

  // ─── What the server does to an operation ───

  /** A request leaves every operation it does not name as it was. */
  lemma OnlyTheNamed(s: State, r: Request, now: int, op: OpId)
    requires Named(r) != Some(op)
    ensures var s' := Serve(s, r, now).state;
            (op in s'.enrolments <==> op in s.enrolments) && (op in s.enrolments ==> s'.enrolments[op] == s.enrolments[op])
  {
  }

  /** The till's own request keeps its owner; it only ever brings to life the operation that it names. */
  lemma ServerSide(w: World, r: Request, now: int, w': World)
    requires ServerInv(w.server) && w.clock <= now
    requires w'.server == Serve(w.server, r, now).state && w'.clock == now && w'.owner == w.owner
    ensures ServerInv(w'.server)
    ensures forall op | op in w.started && Named(r) != Some(op) && Settled(w.server, w.clock, op) :: Settled(w'.server, w'.clock, op)
    ensures forall op | op in w.server.enrolments && Settled(w.server, w.clock, op) :: Settled(w'.server, w'.clock, op)
    ensures forall op | CardOf(w.server, op) :: CardOf(w'.server, op)
    ensures forall op | op in w.server.enrolments ::
              op in w'.server.enrolments && EnrolmentKeeps(w.server.enrolments[op], w'.server.enrolments[op])
  {
    ServeKept(w.server, r, now);
    ServeKeepsCards(w.server, r, now);
    forall op | op in w.started && Named(r) != Some(op) && Settled(w.server, w.clock, op) ensures Settled(w'.server, w'.clock, op) {
      OnlyTheNamed(w.server, r, now, op);
    }
  }

  // ─── Steps of the panel ───

  lemma RestartInv(w: World)
    requires Inv(w)
    ensures Inv(Next(w, Restart))
  {
  }

  lemma ReadInv(w: World, ok: bool)
    requires Inv(w) && w.task.Loading?
    ensures Inv(Next(w, Read(ok)))
  {
    if ok && w.durable.Some? {
      var r := w.durable.value;
      if r.step.AckPending? {
        LoadInv(w, SendAcknowledge(r.op), r);
      } else if r.step.Preparing? {
        LoadInv(w, SendPrepare(r.op, true), r);
      } else {
        LoadInv(w, SendRecover(r.op), Record(r.op, Creating));
      }
    }
  }

  lemma LoadInv(w: World, task: Task, r: Record)
    requires Inv(w) && w.task.Loading? && w.durable.Some? && r.op == w.durable.value.op
    requires task == if r.step.AckPending? then SendAcknowledge(r.op)
                     else if r.step.Preparing? then SendPrepare(r.op, true)
                     else SendRecover(r.op)
    requires r == w.durable.value || (r.step.Creating? && !w.durable.value.step.AckPending?)
    ensures Inv(w.(task := task, panel := w.panel.(ready := true, createOp := Some(r.op), recovery := Some(r))))
  {
  }

  lemma AgainInv(w: World, e: Event)
    requires Inv(w) && (e.Retry? || e.Replay?)
    ensures Inv(Next(w, e))
  {
  }

  lemma PanelInv(w: World, e: Event)
    requires Inv(w) && (e.Reload? || e.ResetForm? || e.Retry? || e.Replay? || e.HandOver?)
    ensures Inv(Next(w, e))
  {
    if e.Retry? || e.Replay? {
      AgainInv(w, e);
    }
  }

  lemma BeginInv(w: World, id: OpId)
    requires Inv(w) && Admissible(w, Begin(id))
    ensures Inv(Next(w, Begin(id)))
  {
  }

  lemma StorePreparing(w: World, ok: bool)
    requires Inv(w) && w.task.SavePreparing?
    ensures Inv(Stored(w, ok))
  {
  }

  lemma StoreCreating(w: World, ok: bool)
    requires Inv(w) && w.task.SaveCreating?
    ensures Inv(Stored(w, ok))
  {
  }

  lemma StoreAwaiting(w: World, ok: bool)
    requires Inv(w) && w.task.SaveAwaiting?
    ensures Inv(Stored(w, ok))
  {
  }

  lemma StoreAckPending(w: World, ok: bool)
    requires Inv(w) && w.task.SaveAckPending?
    ensures Inv(Stored(w, ok))
  {
  }

  lemma ClosingRefused(w: World)
    requires Inv(w) && (w.task.RemoveConfirmed? || w.task.RemoveExpired?)
    ensures Inv(Stored(w, false))
  {
  }

  lemma RefusalKept(w: World)
    requires Inv(w) && w.task.RemoveRefused?
    ensures Inv(Stored(w, false))
  {
  }

  /** What a discarded operation leaves on the disk is settled. */
  lemma DiscardRefused(w: World)
    requires Inv(w) && w.task.Discard?
    ensures Inv(Stored(w, false))
  {
    var w' := Stored(w, false);
    assert w'.server == w.server && w'.durable == w.durable;
    assert Focused(w') && Aligned(w'.durable, w'.panel, w'.task);
    assert Resumes(w');
  }

  lemma StoreRemovalRefused(w: World)
    requires Inv(w) && (w.task.RemoveConfirmed? || w.task.RemoveExpired? || w.task.RemoveRefused? || w.task.Discard?)
    ensures Inv(Stored(w, false))
  {
    if w.task.RemoveConfirmed? || w.task.RemoveExpired? {
      ClosingRefused(w);
    } else if w.task.RemoveRefused? {
      RefusalKept(w);
    } else {
      DiscardRefused(w);
    }
  }

  lemma StoreRemoval(w: World, ok: bool)
    requires Inv(w) && (w.task.RemoveConfirmed? || w.task.RemoveExpired? || w.task.RemoveRefused? || w.task.Discard?)
    ensures Inv(Stored(w, ok))
  {
    if !ok {
      StoreRemovalRefused(w);
    }
  }

  lemma StoreInv(w: World, ok: bool)
    requires Inv(w)
    ensures Inv(Next(w, Store(ok)))
  {
    match w.task
    case SavePreparing(_) => StorePreparing(w, ok);
    case SaveCreating(_) => StoreCreating(w, ok);
    case SaveAwaiting(_, _, _) => StoreAwaiting(w, ok);
    case SaveAckPending(_) => StoreAckPending(w, ok);
    case RemoveConfirmed(_) => StoreRemoval(w, ok);
    case RemoveExpired(_) => StoreRemoval(w, ok);
    case RemoveRefused(_) => StoreRemoval(w, ok);
    case Discard(_) => StoreRemoval(w, ok);
    case _ =>
  }

  // ─── Exchanges ───

  /** Whoever asks, the server's step and the passing of time keep everything the till relies on. */
  lemma ServedInv(w: World, r: Request, now: int)
    requires Inv(w) && w.clock <= now
    requires Named(r).Some? && Named(r).value in w.started ==>
               Sends(w.task) && About(w.durable, Named(r).value) && About(w.panel.recovery, Named(r).value)
    requires forall op | op in w.started && op !in w.server.enrolments && op in Serve(w.server, r, now).state.enrolments ::
               Serve(w.server, r, now).state.enrolments[op].owner == w.owner
    ensures Inv(w.(server := Serve(w.server, r, now).state, clock := now))
  {
    ServerSide(w, r, now, w.(server := Serve(w.server, r, now).state, clock := now));
  }

  /** The till's own request, before its answer is looked at. */
  lemma AskedInv(w: World, now: int, phone: Option<string>)
    requires Inv(w) && w.clock <= now && Sends(w.task)
    ensures Inv(w.(server := Serve(w.server, RequestOf(w.task, w.owner, phone), now).state, clock := now))
  {
    var r := RequestOf(w.task, w.owner, phone);
    forall op | op in w.started && op !in w.server.enrolments && op in Serve(w.server, r, now).state.enrolments
      ensures Serve(w.server, r, now).state.enrolments[op].owner == w.owner
    {
      if Named(r) != Some(op) {
        OnlyTheNamed(w.server, r, now, op);
      }
    }
    ServedInv(w, r, now);
  }

  lemma ElsewhereInv(w: World, r: Request, now: int)
    requires Inv(w) && Admissible(w, Event.Elsewhere(r, now))
    ensures Inv(Next(w, Event.Elsewhere(r, now)))
  {
    forall op | op in w.started && op !in w.server.enrolments ensures op !in Serve(w.server, r, now).state.enrolments {
      OnlyTheNamed(w.server, r, now, op);
    }
    ServedInv(w, r, now);
  }

  lemma UnansweredInv(w: World)
    requires Inv(w) && Sends(w.task)
    ensures Inv(Unanswered(w))
  {
  }

  lemma PassedInv(w: World, now: int)
    requires Inv(w) && w.clock <= now
    ensures Inv(w.(clock := now))
  {
  }

  /** What an answer tells about the operation it is about. */
  predicate Tells(w: World, answer: Answer)
    requires Sends(w.task)
  {
    var op := OpOf(w.task).value;
    && (Terminal(answer) ==> Settled(w.server, w.clock, op))
    && (w.task.SendCreate? && Refusal(answer) ==> Settled(w.server, w.clock, op))
    && (w.task.SendPrepare? ==> !Refusal(answer) || Terminal(answer))
    && (answer.CardReady? ==> CardOf(w.server, op))
    && (answer.Acked? ==> op in w.server.enrolments && w.server.enrolments[op].phase.Acknowledged?)
  }

  lemma CreateTells(w: World, now: int, phone: Option<string>)
    requires Inv(w) && w.clock <= now && w.task.SendCreate?
    ensures var served := ServeCreate(w.server, w.task.op, w.owner, phone, true, now);
            Tells(w.(server := served.state, clock := now), served.answer)
  {
  }

  lemma AcknowledgeTells(w: World, now: int)
    requires Inv(w) && w.clock <= now && w.task.SendAcknowledge?
    ensures var served := ServeAcknowledge(w.server, Some(w.task.op), w.owner, now);
            Tells(w.(server := served.state, clock := now), served.answer)
  {
    assert CardOf(w.server, w.task.op);
    assert Listed(w.server.members, w.server.enrolments[w.task.op].card.value.member);
  }

  lemma AnswerTells(w: World, now: int, phone: Option<string>)
    requires Inv(w) && w.clock <= now && Sends(w.task)
    ensures var served := Serve(w.server, RequestOf(w.task, w.owner, phone), now);
            Tells(w.(server := served.state, clock := now), served.answer)
  {
    if w.task.SendCreate? {
      CreateTells(w, now, phone);
    } else if w.task.SendAcknowledge? {
      AcknowledgeTells(w, now);
    }
  }

  lemma WentPrepare(w: World, answer: Answer)
    requires Inv(w) && w.task.SendPrepare? && Tells(w, answer)
    ensures Inv(Went(w, answer))
  {
    if !Terminal(answer) && !answer.PreparedAs? {
      UnansweredInv(w);
    }
  }

  lemma WentCreate(w: World, answer: Answer)
    requires Inv(w) && w.task.SendCreate? && Tells(w, answer)
    ensures Inv(Went(w, answer))
  {
    if !Terminal(answer) && !answer.CardReady? && !Refusal(answer) {
      UnansweredInv(w);
    }
  }

  lemma WentRecover(w: World, answer: Answer)
    requires Inv(w) && w.task.SendRecover? && Tells(w, answer)
    ensures Inv(Went(w, answer))
  {
  }

  lemma WentAcknowledge(w: World, answer: Answer)
    requires Inv(w) && w.task.SendAcknowledge? && Tells(w, answer)
    ensures Inv(Went(w, answer))
  {
  }

  lemma WentInv(w: World, answer: Answer)
    requires Inv(w) && Sends(w.task) && Tells(w, answer)
    ensures Inv(Went(w, answer))
  {
    match w.task
    case SendPrepare(_, _) => WentPrepare(w, answer);
    case SendCreate(_) => WentCreate(w, answer);
    case SendRecover(_) => WentRecover(w, answer);
    case SendAcknowledge(_) => WentAcknowledge(w, answer);
  }

  /** The answer is looked at in the world in which the server has served it. */
  lemma ExchangeIs(w: World, link: Link, now: int, phone: Option<string>)
    requires Sends(w.task)
    ensures var served := Serve(w.server, RequestOf(w.task, w.owner, phone), now);
            var asked := w.(server := served.state, clock := now);
            Exchanged(w, link, now, phone) == match link
              case Unreached => Unanswered(w.(clock := now))
              case Lost => Unanswered(asked)
              case Answered => Went(asked, served.answer)
  {
  }

  lemma ExchangeInv(w: World, link: Link, now: int, phone: Option<string>)
    requires Inv(w) && w.clock <= now && Sends(w.task)
    ensures Inv(Exchanged(w, link, now, phone))
  {
    var served := Serve(w.server, RequestOf(w.task, w.owner, phone), now);
    var asked := w.(server := served.state, clock := now);
    ExchangeIs(w, link, now, phone);
    if link.Unreached? {
      PassedInv(w, now);
      UnansweredInv(w.(clock := now));
    } else {
      AskedInv(w, now, phone);
      if link.Lost? {
        UnansweredInv(asked);
      } else {
        AnswerTells(w, now, phone);
        WentInv(asked, served.answer);
      }
    }
  }

  // ─── Runs ───

  lemma NextInv(w: World, e: Event)
    requires Inv(w) && Admissible(w, e)
    ensures Inv(Next(w, e))
  {
    match e
    case Restart => RestartInv(w);
    case Read(ok) => if w.task.Loading? { ReadInv(w, ok); }
    case Begin(id) => BeginInv(w, id);
    case Store(ok) => StoreInv(w, ok);
    case Exchange(link, now, phone) => if Sends(w.task) { ExchangeInv(w, link, now, phone); }
    case Elsewhere(request, now) => ElsewhereInv(w, request, now);
    case _ => PanelInv(w, e);
  }

  lemma StartInv(server: State, owner: Owner, clock: int)
    requires ServerInv(server)
    ensures Inv(Start(server, owner, clock))
  {
  }

  lemma ReachableInv(w: World)
    requires Reachable(w)
    ensures Inv(w)
  {
    var b, clock :| Lived(b) && Reaches(Follows, Start(b.state, w.owner, clock), w);
    KeptInv(b);
    StartInv(b.state, w.owner, clock);
    forall x, e, y | Follows(x, e, y) && Inv(x) ensures Inv(y) {
      NextInv(x, e);
    }
    ReachKeeps(Follows, Inv, Start(b.state, w.owner, clock), w);
  }

  /** Once the hand-over of a card is on the disk, the till never asks for that card again. */
  lemma NoRecoveryAfterHandOver(w: World)
    requires Reachable(w) && AskingForCard(w.task)
    ensures OpOf(w.task).value !in w.handedOver
  {
    ReachableInv(w);
  }

  /** However answers are lost and the till restarts, at most one of its operations can still make or activate
    * a card: a new operation only begins once the last one is over for good. */
  lemma OneLiveOperation(w: World, op: OpId, other: OpId)
    requires Reachable(w) && op in w.started && other in w.started
    requires !Settled(w.server, w.clock, op) && !Settled(w.server, w.clock, other)
    ensures op == other
  {
    ReachableInv(w);
    assert About(w.durable, op) && About(w.durable, other);
  }

  /** A hand-over that the till sends is never refused but for being late. */
  lemma HandOverRefusedIffLate(w: World, now: int)
    requires Reachable(w) && w.task.SendAcknowledge?
    ensures var answer := ServeAcknowledge(w.server, Some(w.task.op), w.owner, now).answer;
            && w.task.op in w.server.enrolments
            && (answer.Acked? || answer == Error(410))
            && (answer == Error(410) <==> w.server.enrolments[w.task.op].phase.Ready? && Expired(w.server.enrolments[w.task.op], now))
  {
    ReachableInv(w);
    HandOverAnswer(w, now);
  }

  lemma HandOverAnswer(w: World, now: int)
    requires Inv(w) && w.task.SendAcknowledge?
    ensures var answer := ServeAcknowledge(w.server, Some(w.task.op), w.owner, now).answer;
            && w.task.op in w.server.enrolments
            && (answer.Acked? || answer == Error(410))
            && (answer == Error(410) <==> w.server.enrolments[w.task.op].phase.Ready? && Expired(w.server.enrolments[w.task.op], now))
  {
    assert CardOf(w.server, w.task.op);
    assert Listed(w.server.members, w.server.enrolments[w.task.op].card.value.member);
  }

  /** A card whose hand-over was confirmed to the till serves. */
  lemma ConfirmedCardsServe(w: World, op: OpId)
    requires Reachable(w) && op in w.confirmed
    ensures var s := w.server;
            && CardOf(s, op) && s.enrolments[op].card.Some?
            && exists i :: 0 <= i < |s.members| && s.members[i].id == s.enrolments[op].card.value.member && Usable(s.members[i])
  {
    ReachableInv(w);
    var id := w.server.enrolments[op].card.value.member;
    assert Listed(w.server.members, id);
    var i :| 0 <= i < |w.server.members| && w.server.members[i].id == id;
    assert Holds(w.server, op, id);
    assert HandedOver(w.server, id);
  }

  // ─── After a restart ───

  /** The next opening of the panel, uninterrupted: its first exchange answered, its write let through. */
  function Reopened(w: World, now: int): World {
    Next(Next(Next(Next(w, Restart), Read(true)), Exchange(Answered, now, None)), Store(true))
  }

  /** The panel opens on the callback that the disk calls for. */
  lemma Opens(w: World)
    requires Inv(w) && w.durable.Some?
    ensures var w2 := Next(Next(w, Restart), Read(true));
            && Inv(w2) && w2 == Loaded(w.(task := Loading, panel := FRESH_PANEL)) && w2.server == w.server
  {
    RestartInv(w);
    ReadInv(Next(w, Restart), true);
  }

  /** The two steps that follow the opening. */
  function AnsweredAndStored(w: World, now: int): World { Next(Next(w, Exchange(Answered, now, None)), Store(true)) }

  lemma HandOverCloses(w: World, now: int)
    requires Inv(w) && w.task.SendAcknowledge?
    ensures var w' := AnsweredAndStored(w, now);
            var op := w.task.op;
            && w'.durable.None? && w'.task.Rest? && w'.panel.recovery.None? && op in w.server.enrolments
            && (op in w'.confirmed <==> w.server.enrolments[op].phase.Acknowledged? || !Expired(w.server.enrolments[op], now))
  {
    HandOverAnswer(w, now);
  }

  /** From a hand-over on the disk, one opening closes the operation, and the card serves unless it is too late. */
  lemma HandOverResumes(w: World, now: int)
    requires Reachable(w) && w.durable.Some? && w.durable.value.step.AckPending? && w.clock <= now
    ensures var w' := Reopened(w, now);
            var op := w.durable.value.op;
            && w'.durable.None? && w'.task.Rest? && w'.panel.recovery.None? && op in w.server.enrolments
            && (op in w'.confirmed <==> w.server.enrolments[op].phase.Acknowledged? || !Expired(w.server.enrolments[op], now))
  {
    ReachableInv(w);
    Opens(w);
    HandOverCloses(Next(Next(w, Restart), Read(true)), now);
  }

  lemma CardShown(w: World, now: int)
    requires Inv(w) && w.task.SendRecover?
    requires w.task.op in w.server.enrolments && w.server.enrolments[w.task.op].phase.Ready? && !Expired(w.server.enrolments[w.task.op], now)
    ensures var w' := AnsweredAndStored(w, now);
            && w'.durable == Some(Record(w.task.op, AwaitingHandoff))
            && w'.panel.qr == Some(w.server.enrolments[w.task.op].card.value.qr)
            && w'.server == w.server
  {
  }

  /** From a creation whose answer was lost, one opening shows the code of the card that was made then. */
  lemma LostCardResumes(w: World, now: int)
    requires Reachable(w) && w.durable.Some? && w.durable.value.step.Creating? && w.clock <= now
    requires var op := w.durable.value.op;
             op in w.server.enrolments && w.server.enrolments[op].phase.Ready? && !Expired(w.server.enrolments[op], now)
    ensures var w' := Reopened(w, now);
            var op := w.durable.value.op;
            && w'.durable == Some(Record(op, AwaitingHandoff))
            && w'.panel.qr == Some(w.server.enrolments[op].card.value.qr)
            && w'.server == w.server
  {
    ReachableInv(w);
    Opens(w);
    CardShown(Next(Next(w, Restart), Read(true)), now);
  }
}

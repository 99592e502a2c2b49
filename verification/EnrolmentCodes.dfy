/** Which code the panel shows, and how an enrolment goes when its answers come: stated on the card that the server
  * holds for the operation. */
module EnrolmentCodes {
  import opened Wrappers
  import opened LoyaltyModel
  import opened LoyaltyFacts
  import opened LoyaltyLedger
  import opened LoyaltyTheorems
  import opened LoyaltyAnswers
  import opened Enrolment
  import opened EnrolmentProofs

  // ─── The code on the panel ───

  /** The code of the card that an operation holds. */
  predicate CodeOf(s: State, op: OpId, qr: Qr) {
    op in s.enrolments && s.enrolments[op].card.Some? && s.enrolments[op].card.value.qr == qr
  }

  predicate Codes(w: World) {
    && (w.panel.qr.Some? ==> w.panel.recovery.Some? && CodeOf(w.server, w.panel.recovery.value.op, w.panel.qr.value))
    && (w.task.SaveAwaiting? ==> CodeOf(w.server, w.task.op, w.task.qr))
  }

  lemma ServerKeepsCode(s: State, r: Request, now: int, op: OpId, qr: Qr)
    requires ServerInv(s) && CodeOf(s, op, qr)
    ensures CodeOf(Serve(s, r, now).state, op, qr)
  {
    ServeKeepsCards(s, r, now);
  }

  lemma StoredCodes(w: World, ok: bool)
    requires Inv(w) && Codes(w)
    ensures Codes(Stored(w, ok))
  {
  }

  lemma PanelCodes(w: World, e: Event)
    requires Inv(w) && Codes(w) && !e.Store? && !e.Exchange? && !e.Elsewhere?
    ensures Codes(Next(w, e))
  {
  }

  /** The server's step, whoever asks, leaves every code where it is. */
  lemma ServedCodes(w: World, r: Request, now: int)
    requires Inv(w) && Codes(w)
    ensures Codes(w.(server := Serve(w.server, r, now).state, clock := now))
  {
    if w.panel.qr.Some? {
      ServerKeepsCode(w.server, r, now, w.panel.recovery.value.op, w.panel.qr.value);
    }
    if w.task.SaveAwaiting? {
      ServerKeepsCode(w.server, r, now, w.task.op, w.task.qr);
    }
  }

  lemma UnansweredCodes(w: World)
    requires Codes(w) && Sends(w.task) && Aligned(w.durable, w.panel, w.task)
    ensures Codes(Unanswered(w))
  {
  }

  lemma WentCodes(w: World, answer: Answer)
    requires Codes(w) && Sends(w.task) && Aligned(w.durable, w.panel, w.task)
    requires answer.CardReady? ==> CodeOf(w.server, OpOf(w.task).value, answer.card.qr)
    ensures Codes(Went(w, answer))
  {
  }

  lemma ExchangedCodes(w: World, link: Link, now: int, phone: Option<string>)
    requires Inv(w) && Codes(w) && w.clock <= now && Sends(w.task)
    ensures Codes(Exchanged(w, link, now, phone))
  {
    var r := RequestOf(w.task, w.owner, phone);
    var served := Serve(w.server, r, now);
    ExchangeIs(w, link, now, phone);
    if link.Unreached? {
      UnansweredCodes(w.(clock := now));
    } else {
      ServedCodes(w, r, now);
      var asked := w.(server := served.state, clock := now);
      if link.Lost? {
        UnansweredCodes(asked);
      } else {
        if served.answer.CardReady? {
          var op := CardReadyNames(w.server, r, now);
          assert op == OpOf(w.task).value;
        }
        WentCodes(asked, served.answer);
      }
    }
  }

  lemma NextCodes(w: World, e: Event)
    requires Inv(w) && Codes(w) && Admissible(w, e)
    ensures Codes(Next(w, e))
  {
    match e
    case Store(ok) => StoredCodes(w, ok);
    case Exchange(link, now, phone) => if Sends(w.task) { ExchangedCodes(w, link, now, phone); }
    case Elsewhere(request, now) => ServedCodes(w, request, now);
    case _ => PanelCodes(w, e);
  }

  ghost predicate Coded(w: World) { Inv(w) && Codes(w) }

  /** However the till got there, the code that its panel shows, or is about to show, is that of the card which the
    * server holds for the operation under way, and for no other. */
  lemma CodeShownIsTheCards(w: World)
    requires Reachable(w)
    ensures w.panel.qr.Some? ==> w.panel.recovery.Some? && CodeOf(w.server, w.panel.recovery.value.op, w.panel.qr.value)
    ensures w.task.SaveAwaiting? ==> CodeOf(w.server, w.task.op, w.task.qr)
  {
    var b, clock :| Lived(b) && Reaches(Follows, Start(b.state, w.owner, clock), w);
    KeptInv(b);
    EnrolmentProofs.StartInv(b.state, w.owner, clock);
    forall x, e, y | Follows(x, e, y) && Coded(x) ensures Coded(y) {
      EnrolmentProofs.NextInv(x, e);
      NextCodes(x, e);
    }
    ReachKeeps(Follows, Coded, Start(b.state, w.owner, clock), w);
  }

  // ─── The ordinary enrolment ───

  /** A panel on which a new operation may be begun. */
  predicate Blank(w: World) {
    w.task.Rest? && w.panel.ready && w.panel.qr.None? && w.panel.recovery.None? && w.panel.createOp.None?
  }

  /** The form sent once: intention written, operation prepared, phase written, card asked for. */
  function FormSent(w: World, id: OpId, now: int, phone: Option<string>): World {
    Next(Next(Next(Next(w, Begin(id)), Store(true)), Exchange(Answered, now, phone)), Store(true))
  }

  lemma AnswerCounts(w: World, now: int, phone: Option<string>)
    requires Sends(w.task)
    ensures var served := Serve(w.server, RequestOf(w.task, w.owner, phone), now);
            Next(w, Exchange(Answered, now, phone)) == Went(w.(server := served.state, clock := now), served.answer)
  {
    ExchangeIs(w, Answered, now, phone);
  }

  lemma IntentionWritten(w: World, id: OpId)
    requires Blank(w)
    ensures Next(Next(w, Begin(id)), Store(true)) ==
            w.(task := SendPrepare(id, false), durable := Some(Record(id, Preparing)), started := w.started + {id},
               panel := Panel(true, Some(id), Some(Record(id, Preparing)), None))
  {
  }

  lemma PreparationGoesThrough(w: World, id: OpId, now: int, phone: Option<string>)
    requires Inv(w) && Blank(w) && Admissible(w, Begin(id)) && w.clock <= now
    ensures var e := Enrolment(w.owner, Prepared, now + 1_800_000, None);
            FormSent(w, id, now, phone) ==
            w.(server := w.server.(enrolments := w.server.enrolments[id := e]), clock := now, task := SendCreate(id),
               durable := Some(Record(id, Creating)), started := w.started + {id},
               panel := Panel(true, Some(id), Some(Record(id, Creating)), None))
    ensures ServerInv(FormSent(w, id, now, phone).server)
  {
    UnknownOperation(w.server, id, w.owner, phone, true, now);
    ServeKept(w.server, Prepare(Some(id), w.owner), now);
    IntentionWritten(w, id);
    AnswerCounts(Next(Next(w, Begin(id)), Store(true)), now, phone);
  }

  /** And the card asked for. */
  function Shown(w: World, id: OpId, now: int, at: int, phone: Option<string>): World {
    CardAnswered(FormSent(w, id, now, phone), at, phone)
  }

  /** A creation about to be sent, its operation prepared and in time. */
  predicate AsksForCard(w: World, id: OpId, at: int) {
    && w.task == SendCreate(id) && id in w.server.enrolments && w.server.enrolments[id].owner == w.owner
    && w.server.enrolments[id].phase == Prepared && at < w.server.enrolments[id].expiresAt
    && w.panel.ready && w.panel.qr.None?
  }

  /** What the preparation leaves for the creation. */
  lemma FormIsAccepted(w: World, id: OpId, now: int, phone: Option<string>)
    requires Reachable(w) && Blank(w) && Admissible(w, Begin(id)) && w.clock <= now
    ensures var sent := FormSent(w, id, now, phone);
            && ServerInv(sent.server) && (forall at | at < now + 1_800_000 :: AsksForCard(sent, id, at))
            && sent.server.members == w.server.members && sent.server.sequence == w.server.sequence
            && sent.server.enrolments == w.server.enrolments[id := Enrolment(w.owner, Prepared, now + 1_800_000, None)]
            && sent.owner == w.owner && sent.confirmed == w.confirmed
  {
    ReachableInv(w);
    PreparationGoesThrough(w, id, now, phone);
  }

  /** The creation answered and its phase written. */
  function CardAnswered(w: World, at: int, phone: Option<string>): World {
    Next(Next(w, Exchange(Answered, at, phone)), Store(true))
  }

  lemma CreationShows(w: World, id: OpId, at: int, phone: Option<string>, before: map<OpId, LoyaltyModel.Enrolment>)
    requires id in w.server.enrolments && w.server.enrolments == before[id := w.server.enrolments[id]]
    requires ServerInv(w.server) && AsksForCard(w, id, at) && !SomeoneHas(w.server, phone)
    ensures var end, card := CardAnswered(w, at, phone), w.server.sequence + 1;
            && end.server.members == w.server.members + [Member(card, phone, Issued(card), false, true, 0, 0, 0)]
            && end.server.enrolments
            == before[id := Enrolment(w.owner, Ready, w.server.enrolments[id].expiresAt, Some(Card(card, Issued(card))))]
            && end.panel == Panel(true, None, Some(Record(id, AwaitingHandoff)), Some(Issued(card)))
            && end.durable == Some(Record(id, AwaitingHandoff)) && end.task.Rest?
            && end.confirmed == w.confirmed && end.owner == w.owner && end.clock == at && ServerInv(end.server)
  {
    PreparedOperation(w.server, id, phone, true, at);
    ServeKept(w.server, Create(id, w.owner, phone, true), at);
    AnswerCounts(w, at, phone);
  }

  lemma CreationRefused(w: World, id: OpId, at: int, phone: Option<string>)
    requires ServerInv(w.server) && AsksForCard(w, id, at) && SomeoneHas(w.server, phone)
    ensures var end := CardAnswered(w, at, phone);
            end.server.members == w.server.members && end.durable.None? && Blank(end)
  {
    TakenAnswer(w.server, id, phone, at);
    AnswerCounts(w, at, phone);
    RefusalForgets(Next(w, Exchange(Answered, at, phone)));
  }

  lemma TakenAnswer(s: State, id: OpId, phone: Option<string>, at: int)
    requires ServerInv(s) && id in s.enrolments && Open(s.enrolments[id], at) && s.enrolments[id].phase == Prepared
    requires SomeoneHas(s, phone)
    ensures var served := Serve(s, Create(id, s.enrolments[id].owner, phone, true), at);
            served.answer == Error(409) && served.state.members == s.members
  {
    PreparedOperation(s, id, phone, true, at);
  }

  lemma RefusalForgets(w: World)
    requires w.task.RemoveRefused? && w.panel.ready && w.panel.qr.None?
    ensures var end := Next(w, Store(true));
            end.server == w.server && end.durable.None? && Blank(end)
  {
  }

  /** From a blank panel, a form whose terms are accepted and whose phone nobody has, every answer coming in time and
    * every write granted: one new card is made, its code is on the panel, and the disk waits for its hand-over. */
  lemma NewCardIsShown(w: World, id: OpId, now: int, at: int, phone: Option<string>)
    requires Reachable(w) && Blank(w) && Admissible(w, Begin(id)) && w.clock <= now <= at < now + 1_800_000
    requires !SomeoneHas(w.server, phone)
    ensures var end, card := Shown(w, id, now, at, phone), w.server.sequence + 1;
            && end.server.members == w.server.members + [Member(card, phone, Issued(card), false, true, 0, 0, 0)]
            && end.panel == Panel(true, None, Some(Record(id, AwaitingHandoff)), Some(Issued(card)))
            && end.durable == Some(Record(id, AwaitingHandoff)) && end.task.Rest?
            && end.server.enrolments == w.server.enrolments[id := Enrolment(w.owner, Ready, now + 1_800_000, Some(Card(card, Issued(card))))]
            && end.confirmed == w.confirmed && end.owner == w.owner && end.clock == at && ServerInv(end.server)
  {
    var sending := FormSent(w, id, now, phone);
    FormIsAccepted(w, id, now, phone);
    CreationShows(sending, id, at, phone, w.server.enrolments);
  }

  /** The hand-over pressed, its phase written, the acknowledgement answered and the phase removed. */
  function HandedIn(w: World, now: int): World {
    Next(Next(Next(Next(w, HandOver), Store(true)), Exchange(Answered, now, None)), Store(true))
  }

  lemma HandOverPutsInUse(w: World, op: OpId, now: int, i: nat)
    requires ServerInv(w.server) && w.task.Rest? && w.clock <= now && w.panel.ready
    requires w.panel.qr.Some? && w.panel.recovery == Some(Record(op, AwaitingHandoff))
    requires op in w.server.enrolments && w.server.enrolments[op].owner == w.owner
    requires w.server.enrolments[op].phase == Ready && now < w.server.enrolments[op].expiresAt
    requires i < |w.server.members| && w.server.members[i].id == w.server.enrolments[op].card.value.member
    ensures var end := HandedIn(w, now);
            && end.server.members == w.server.members[i := w.server.members[i].(handedOff := true)]
            && end.confirmed == w.confirmed + {op} && end.durable.None? && Blank(end)
  {
    ReadyOperation(w.server, op, None, true, now, i);
    HandOverWritten(w, op);
    AnswerCounts(Next(Next(w, HandOver), Store(true)), now, None);
  }

  lemma HandOverWritten(w: World, op: OpId)
    requires w.task.Rest? && w.panel.qr.Some? && w.panel.recovery == Some(Record(op, AwaitingHandoff))
    ensures Next(Next(w, HandOver), Store(true)) ==
            w.(task := SendAcknowledge(op), durable := Some(Record(op, AckPending)), handedOver := w.handedOver + {op},
               panel := w.panel.(recovery := Some(Record(op, AckPending))))
  {
  }

  /** And handed over in time, the card serves, the till says so, and a new operation may begin. */
  lemma NewCardServes(w: World, id: OpId, now: int, at: int, later: int, phone: Option<string>)
    requires Reachable(w) && Blank(w) && Admissible(w, Begin(id)) && w.clock <= now <= at <= later < now + 1_800_000
    requires !SomeoneHas(w.server, phone)
    ensures var end, card := HandedIn(Shown(w, id, now, at, phone), later), w.server.sequence + 1;
            && end.server.members == w.server.members + [Member(card, phone, Issued(card), true, true, 0, 0, 0)]
            && end.confirmed == w.confirmed + {id} && end.durable.None? && Blank(end)
  {
    NewCardIsShown(w, id, now, at, phone);
    var shown := Shown(w, id, now, at, phone);
    HandOverPutsInUse(shown, id, later, |w.server.members|);
  }

  /** A form with a phone that somebody has is refused, makes no card, and leaves the panel blank for another one. */
  lemma TakenPhoneIsRefused(w: World, id: OpId, now: int, at: int, phone: Option<string>)
    requires Reachable(w) && Blank(w) && Admissible(w, Begin(id)) && w.clock <= now <= at < now + 1_800_000
    requires SomeoneHas(w.server, phone)
    ensures var end := Shown(w, id, now, at, phone);
            end.server.members == w.server.members && end.durable.None? && Blank(end)
  {
    FormIsAccepted(w, id, now, phone);
    CreationRefused(FormSent(w, id, now, phone), id, at, phone);
  }

  // ─── Reopening on an unfinished form ───

  /** A preparation that was answered or not: one opening finds it again, and the form goes on with the same operation. */
  lemma PreparationResumes(w: World, now: int)
    requires Reachable(w) && w.durable.Some? && w.durable.value.step.Preparing? && w.clock <= now
    requires var op := w.durable.value.op;
             op in w.server.enrolments ==> w.server.enrolments[op].phase == Prepared && now < w.server.enrolments[op].expiresAt
    ensures var w' := Reopened(w, now);
            && w'.task.Rest? && MayCreate(w'.panel) && w'.panel.createOp == Some(w.durable.value.op)
            && w'.server.members == w.server.members
  {
    ReachableInv(w);
    Opens(w);
    var op := w.durable.value.op;
    if op in w.server.enrolments {
      PreparedOperation(w.server, op, None, true, now);
    } else {
      UnknownOperation(w.server, op, w.owner, None, true, now);
    }
  }

  /** An operation that is over for good, before its hand-over was written: one opening forgets it, and a new one may
    * begin. */
  lemma ClosedOperationIsForgotten(w: World, now: int)
    requires Reachable(w) && w.durable.Some? && !w.durable.value.step.AckPending? && w.clock <= now
    requires w.durable.value.op in w.server.enrolments && !Open(w.server.enrolments[w.durable.value.op], now)
    ensures var w' := Reopened(w, now);
            w'.durable.None? && Blank(w') && w'.server == w.server
  {
    ReachableInv(w);
    Opens(w);
    ClosedOperation(w.server, w.durable.value.op, None, true, now);
    GoneIsDiscarded(Next(Next(w, Restart), Read(true)), now);
  }

  lemma GoneIsDiscarded(w: World, now: int)
    requires (w.task.SendPrepare? || w.task.SendRecover?) && w.panel.ready && w.panel.qr.None?
    requires Serve(w.server, RequestOf(w.task, w.owner, None), now) == Served(w.server, Error(410))
    ensures var w' := AnsweredAndStored(w, now);
            w'.durable.None? && Blank(w') && w'.server == w.server
  {
    AnswerCounts(w, now, None);
  }

  // ─── When something fails ───

  /** The panel waits on a card that the server holds, and has not shown it. */
  predicate CardWaits(w: World, op: OpId, now: int) {
    && op in w.server.enrolments && w.server.enrolments[op].owner == w.owner
    && w.server.enrolments[op].phase == Ready && w.server.enrolments[op].card.Some? && now < w.server.enrolments[op].expiresAt
  }

  /** The code of the card on the panel, and the disk waiting for its hand-over. */
  predicate ShowsCard(w: World, server: State, op: OpId) {
    && w.server == server && op in server.enrolments && server.enrolments[op].card.Some? && w.task.Rest?
    && w.durable == Some(Record(op, AwaitingHandoff)) && w.panel.recovery == w.durable
    && w.panel.qr == Some(server.enrolments[op].card.value.qr)
  }

  lemma RecoveryShows(w: World, op: OpId, now: int)
    requires w.task == SendRecover(op) && CardWaits(w, op, now)
    ensures ShowsCard(AnsweredAndStored(w, now), w.server, op)
  {
    AnswerCounts(w, now, None);
  }

  /** A card whose answer or whose phase was lost is shown by one press of the retry. */
  lemma RetryShowsTheCard(w: World, step: Step, op: OpId, now: int)
    requires w.task.Rest? && w.panel.ready && w.panel.qr.None? && w.panel.recovery == Some(Record(op, step))
    requires (step.Creating? || step.AwaitingHandoff?) && CardWaits(w, op, now)
    ensures ShowsCard(AnsweredAndStored(Next(w, Retry), now), w.server, op)
  {
    RecoveryShows(Next(w, Retry), op, now);
  }

  /** A preparation that finds its card made already goes on to recover it, from the form or after a restart. */
  lemma MadeMeanwhileIsShown(w: World, op: OpId, resumed: bool, now: int)
    requires w.task == SendPrepare(op, resumed) && CardWaits(w, op, now)
    ensures ShowsCard(AnsweredAndStored(Next(w, Exchange(Answered, now, None)), now), w.server, op)
  {
    AnswerCounts(w, now, None);
    RecoveryShows(Next(w, Exchange(Answered, now, None)), op, now);
  }

  /** A phase that cannot be written shows no code: the panel remembers how far the operation is, the disk does not. */
  lemma UnwrittenPhaseShowsNothing(w: World)
    requires w.task.SaveAwaiting? && w.panel.qr.None?
    ensures var end := Next(w, Store(false));
            && end.panel.qr.None? && end.durable == w.durable && end.task.Rest?
            && end.panel.recovery == (if w.task.created then Some(Record(w.task.op, AwaitingHandoff)) else w.panel.recovery)
  {
  }

  /** A hand-over that went unanswered is confirmed by one press of the replay, unless it is too late. */
  lemma ReplayConfirms(w: World, op: OpId, now: int)
    requires Reachable(w) && w.task.Rest? && w.clock <= now && w.panel.ready && w.panel.qr.None?
    requires w.panel.recovery == Some(Record(op, AckPending))
    ensures var end := AnsweredAndStored(Next(w, Replay), now);
            && end.durable.None? && Blank(end) && op in w.server.enrolments
            && (op in end.confirmed <==> w.server.enrolments[op].phase.Acknowledged? || !Expired(w.server.enrolments[op], now))
  {
    ReachableInv(w);
    AgainInv(w, Replay);
    ReplaySends(w, op);
    HandOverCloses(Next(w, Replay), now);
    HandOverBlanks(Next(w, Replay), now);
  }

  lemma ReplaySends(w: World, op: OpId)
    requires w.task.Rest? && w.panel.ready && w.panel.qr.None? && w.panel.recovery == Some(Record(op, AckPending))
    ensures Next(w, Replay) == w.(task := SendAcknowledge(op))
  {
  }

  lemma HandOverBlanks(w: World, now: int)
    requires Inv(w) && w.task.SendAcknowledge? && w.clock <= now
    ensures Blank(AnsweredAndStored(w, now))
  {
    HandOverAnswer(w, now);
    AnswerCounts(w, now, None);
  }

  /** A hand-over whose phase cannot be removed hides its code all the same, and stays to be replayed. */
  lemma ClosedButNotForgotten(w: World)
    requires w.task.RemoveConfirmed? || w.task.RemoveExpired?
    ensures var end := Next(w, Store(false));
            end.panel == w.panel.(qr := None) && end.durable == w.durable && end.task.Rest?
  {
  }

  /** A form that the server refuses is forgotten, on the disk and on the panel, and another may be sent. */
  lemma RefusedFormIsForgotten(w: World, answer: Answer)
    requires w.task.SendCreate? || (w.task.SendPrepare? && !w.task.resumed)
    requires w.panel.ready && w.panel.qr.None? && Refusal(answer)
    ensures var end := Next(Went(w, answer), Store(true));
            end.durable.None? && Blank(end)
  {
  }

  /** A preparation that a restart resumes and that goes unanswered leaves the panel to be loaded again; one that the
    * form sends leaves the form, with the same operation. */
  lemma UnansweredPreparation(w: World, link: Link, now: int, phone: Option<string>, id: OpId)
    requires w.task.SendPrepare? && w.panel.ready && w.panel.qr.None? && !link.Answered?
    requires w.panel.createOp == Some(w.task.op)
    ensures var end := Next(w, Exchange(link, now, phone));
            if w.task.resumed then Next(end, Reload).task == Loading
            else MayCreate(end.panel) && Next(end, Begin(id)).task == SavePreparing(w.task.op)
  {
  }

  /** A form that is given up before it was written is started afresh, under a new operation. */
  lemma ResetStartsAfresh(w: World, id: OpId)
    requires w.task.Rest? && w.panel.ready && w.panel.qr.None? && w.panel.recovery.None?
    ensures Next(Next(w, ResetForm), Begin(id)).task == SavePreparing(id)
  {
  }
}

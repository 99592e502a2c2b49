/** What the loyalty server answers, and to whom: stated on its members, operations and sales as a session sees them. */
module LoyaltyAnswers {
  import opened Wrappers
  import opened LoyaltyModel
  import opened LoyaltyFacts
  import opened LoyaltyLedger
  import opened LoyaltyTheorems

  // ─── Who may ask ───

  /** A session asks about an enrolment. */
  predicate Asks(r: Request, op: OpId, owner: Owner) {
    || ((r.Prepare? || r.Recover? || r.Acknowledge?) && r.op == Some(op) && r.owner == owner)
    || (r.Create? && r.id == op && r.owner == owner)
  }

  /** Another session than the one that prepared an operation is refused at any moment, and changes nothing. */
  lemma ForeignSessionIsRefused(s: State, r: Request, op: OpId, owner: Owner, now: int)
    requires Asks(r, op, owner) && op in s.enrolments && owner != s.enrolments[op].owner
    ensures Serve(s, r, now) == Served(s, Error(403))
  {
  }

  /** The server's owner of an operation is the session that opened it. */
  predicate OpenedInv(b: Book) {
    && b.sessions.Keys == b.state.enrolments.Keys
    && forall op | op in b.sessions :: b.sessions[op] == b.state.enrolments[op].owner
  }

  /** The same operations, each with its session. */
  predicate SameSessions(before: map<OpId, Enrolment>, after: map<OpId, Enrolment>) {
    after.Keys == before.Keys && forall op | op in before :: after[op].owner == before[op].owner
  }

  lemma EnrolmentsUntouched(s: State, r: Request, now: int)
    requires !r.Prepare? && !r.Acknowledge? && !r.Create?
    ensures Serve(s, r, now).state.enrolments == s.enrolments
  {
  }

  lemma AcknowledgeKeepsSessions(s: State, op: Option<OpId>, owner: Owner, now: int)
    ensures SameSessions(s.enrolments, ServeAcknowledge(s, op, owner, now).state.enrolments)
  {
  }

  lemma CreateKeepsSessions(s: State, op: OpId, owner: Owner, phone: Option<string>, terms: bool, now: int)
    ensures SameSessions(s.enrolments, ServeCreate(s, op, owner, phone, terms, now).state.enrolments)
  {
  }

  lemma PrepareOpens(b: Book, r: Request, now: int)
    requires OpenedInv(b) && r.Prepare?
    ensures OpenedInv(After(b, r, now))
  {
  }

  lemma OpenedStep(b: Book, r: Request, now: int)
    requires OpenedInv(b)
    ensures OpenedInv(After(b, r, now))
  {
    if r.Prepare? {
      PrepareOpens(b, r, now);
    } else if r.Acknowledge? {
      AcknowledgeKeepsSessions(b.state, r.op, r.owner, now);
    } else if r.Create? {
      CreateKeepsSessions(b.state, r.id, r.owner, r.phone, r.termsAccepted, now);
    } else {
      EnrolmentsUntouched(b.state, r, now);
    }
  }

  lemma OpenedAlways(b: Book)
    requires Lived(b)
    ensures OpenedInv(b)
  {
    forall x, t, y | Asked(x, t, y) && OpenedInv(x) ensures OpenedInv(y) {
      OpenedStep(x, t.request, t.now);
    }
    ReachKeeps(Asked, OpenedInv, NEW_BOOK, b);
  }

  /** Over any session a card is only ever given to the session that first prepared its operation, and it is the card
    * that this operation holds, with its own code. */
  lemma CardsOnlyToTheirSession(b: Book, r: Request, now: int)
    requires Lived(b) && Serve(b.state, r, now).answer.CardReady?
    ensures var card := Serve(b.state, r, now).answer.card;
            exists op, owner ::
              && Asks(r, op, owner) && op in b.sessions && b.sessions[op] == owner
              && Holds(After(b, r, now).state, op, card.member) && card.qr == Issued(card.member)
  {
    OpenedAlways(b);
    KeptInv(b);
    var op := CardReadyNames(b.state, r, now);
    ServeKept(b.state, r, now);
  }

  /** A card that is given is the one that the named operation holds afterwards, and its session asked for it. */
  lemma CardReadyNames(s: State, r: Request, now: int) returns (op: OpId)
    requires Serve(s, r, now).answer.CardReady?
    ensures var served := Serve(s, r, now);
            && op in s.enrolments && Asks(r, op, s.enrolments[op].owner)
            && op in served.state.enrolments && served.state.enrolments[op].card == Some(served.answer.card)
  {
    op := if r.Create? then r.id else r.op.value;
  }

  // ─── Enrolment ───

  /** Up to its hand-over or its refusal an operation is open, for half an hour. */
  predicate Open(e: Enrolment, now: int) { (e.phase.Prepared? || e.phase.Ready?) && now < e.expiresAt }

  /** An unknown operation: preparing it opens it for half an hour, nothing else knows it. */
  lemma UnknownOperation(s: State, op: OpId, owner: Owner, phone: Option<string>, terms: bool, now: int)
    requires op !in s.enrolments
    ensures Serve(s, Prepare(Some(op), owner), now)
         == Served(s.(enrolments := s.enrolments[op := Enrolment(owner, Prepared, now + 1_800_000, None)]),
                   PreparedAs(false, now + 1_800_000))
    ensures Serve(s, Recover(Some(op), owner), now) == Served(s, Error(404))
    ensures Serve(s, Acknowledge(Some(op), owner), now) == Served(s, Error(404))
    ensures Serve(s, Create(op, owner, phone, terms), now) == Served(s, Error(409))
  {
  }

  /** A request that names no operation is refused. */
  lemma NoOperation(s: State, owner: Owner, now: int)
    ensures Serve(s, Prepare(None, owner), now) == Served(s, Error(400))
    ensures Serve(s, Recover(None, owner), now) == Served(s, Error(404))
    ensures Serve(s, Acknowledge(None, owner), now) == Served(s, Error(404))
  {
  }

  /** Once handed over, refused or late, an operation answers its own session that it is gone, except that a hand-over
    * already acknowledged is acknowledged again; and nothing changes. */
  lemma ClosedOperation(s: State, op: OpId, phone: Option<string>, terms: bool, now: int)
    requires op in s.enrolments && !Open(s.enrolments[op], now)
    ensures var e := s.enrolments[op];
            && Serve(s, Prepare(Some(op), e.owner), now) == Served(s, Error(410))
            && Serve(s, Recover(Some(op), e.owner), now) == Served(s, Error(410))
            && Serve(s, Create(op, e.owner, phone, terms), now) == Served(s, Error(410))
            && Serve(s, Acknowledge(Some(op), e.owner), now)
            == Served(s, if e.phase == Acknowledged then Acked(true) else Error(410))
  {
  }

  /** An open operation that holds its card: every question about it gives the same card again and changes nothing, and
    * its hand-over puts that card in use, for good. */
  lemma ReadyOperation(s: State, op: OpId, phone: Option<string>, terms: bool, now: int, i: nat)
    requires ServerInv(s) && op in s.enrolments && Open(s.enrolments[op], now) && s.enrolments[op].phase == Ready
    requires i < |s.members| && s.members[i].id == s.enrolments[op].card.value.member
    ensures var e := s.enrolments[op];
            && Serve(s, Prepare(Some(op), e.owner), now) == Served(s, PreparedAs(true, e.expiresAt))
            && Serve(s, Recover(Some(op), e.owner), now) == Served(s, CardReady(e.card.value, true))
            && Serve(s, Create(op, e.owner, phone, terms), now) == Served(s, CardReady(e.card.value, true))
            && Serve(s, Acknowledge(Some(op), e.owner), now)
            == Served(s.(members := s.members[i := s.members[i].(handedOff := true)],
                         enrolments := s.enrolments[op := Enrolment(e.owner, Acknowledged, e.expiresAt, e.card)]),
                      Acked(false))
  {
    var j := IndexOf(s.members, s.enrolments[op].card.value.member);
    assert j == i;
  }

  /** Somebody has this phone already, written in whatever way. */
  predicate SomeoneHas(s: State, phone: Option<string>) {
    phone.Some? && phone.value != "" &&
    exists i :: 0 <= i < |s.members| && s.members[i].phone.Some? && s.members[i].phone.value != ""
                && Digits(s.members[i].phone.value) == Digits(phone.value)
  }

  /** An open operation without a card: it can be prepared again and has nothing to recover nor to hand over; creating
    * makes a new card, not yet in use and with nothing on it, exactly when the terms are accepted and nobody has the
    * phone, and otherwise refuses the operation for good. */
  lemma PreparedOperation(s: State, op: OpId, phone: Option<string>, terms: bool, now: int)
    requires ServerInv(s) && op in s.enrolments && Open(s.enrolments[op], now) && s.enrolments[op].phase == Prepared
    ensures var e := s.enrolments[op];
            && Serve(s, Prepare(Some(op), e.owner), now) == Served(s, PreparedAs(false, e.expiresAt))
            && Serve(s, Recover(Some(op), e.owner), now) == Served(s, StillPending)
            && Serve(s, Acknowledge(Some(op), e.owner), now) == Served(s, Error(409))
    ensures var e, id := s.enrolments[op], s.sequence + 1;
            Serve(s, Create(op, e.owner, phone, terms), now) ==
            if terms && !SomeoneHas(s, phone) then
              Served(State(s.members + [Member(id, phone, Issued(id), false, true, 0, 0, 0)], s.operations,
                           s.enrolments[op := Enrolment(e.owner, Ready, e.expiresAt, Some(Card(id, Issued(id))))],
                           s.orderEarns, s.intents, id),
                     CardReady(Card(id, Issued(id)), false))
            else
              Served(s.(enrolments := s.enrolments[op := Enrolment(e.owner, Rejected, e.expiresAt, None)]),
                     Error(if terms then 409 else 400))
  {
    assert PhoneTaken(s.members, phone) <==> SomeoneHas(s, phone) by {
      if PhoneTaken(s.members, phone) {
        var i :| 0 <= i < |s.members| && SamePhone(s.members[i].phone, phone);
        assert Digits(s.members[i].phone.value) == Digits(phone.value);
      }
      if SomeoneHas(s, phone) {
        var i :| 0 <= i < |s.members| && s.members[i].phone.Some? && s.members[i].phone.value != ""
                 && Digits(s.members[i].phone.value) == Digits(phone.value);
        assert SamePhone(s.members[i].phone, phone);
      }
    }
  }

  /** A card that a lookup finds, or that earns, was handed over and is active, whatever the state. */
  lemma OnlyCardsInUse(s: State, lookup: Lookup, member: MemberId, op: OpId, purchase: int, now: int)
    ensures Serve(s, Resolve(lookup), now).state == s
    ensures Serve(s, Resolve(lookup), now).answer.Found? ==>
              var m := Serve(s, Resolve(lookup), now).answer.member;
              m in s.members && m.handedOff && m.active
    ensures (forall m | m in s.members && m.id == member :: !m.handedOff || !m.active) ==>
              && Serve(s, Earn(member, op, purchase), now) == Served(s, Error(404))
              && Serve(s, Redeem(member), now) == Served(s, Error(404))
              && forall granted :: Serve(s, Consent(member, op, granted), now) == Served(s, Error(404))
  {
  }

  // ─── Phones ───

  predicate AllDigits(s: string) { forall i | 0 <= i < |s| :: '0' <= s[i] <= '9' }

  /** Spaces, dots, dashes and signs do not matter. */
  lemma {:induction false} PunctuationIsIgnored(a: string, c: char, b: string)
    requires !('0' <= c <= '9')
    ensures OnlyDigits(a + [c] + b) == OnlyDigits(a + b) && Digits(a + [c] + b) == Digits(a + b)
  {
    if a == "" {
      assert a + [c] + b == [c] + b && a + b == b;
    } else {
      PunctuationIsIgnored(a[1..], c, b);
      assert (a + [c] + b)[1..] == a[1..] + [c] + b && (a + b)[1..] == a[1..] + b;
    }
  }

  lemma {:induction false} DigitsStay(s: string)
    requires AllDigits(s)
    ensures OnlyDigits(s) == s
  {
    if s != "" {
      DigitsStay(s[1..]);
      assert s == [s[0]] + s[1..];
    }
  }

  /** A national number stands for itself, and a French number written from abroad stands for the national one. */
  lemma NationalForm(s: string)
    requires AllDigits(s)
    ensures !("33" <= s) ==> Digits(s) == s
    ensures Digits("33" + s) == "0" + s && Digits("+33" + s) == "0" + s
  {
    DigitsStay(s);
    DigitsStay("33" + s);
    assert ("33" + s)[..2] == "33" && ("33" + s)[2..] == s;
    assert "+33" + s == "" + ['+'] + ("33" + s) && "" + ("33" + s) == "33" + s;
    PunctuationIsIgnored("", '+', "33" + s);
    if |s| >= 2 && s[..2] == "33" {
      assert "33" <= s;
    }
  }

  // ─── Earnings ───

  /** One point for each whole euro from five euros on, a hundred at most. */
  lemma PointsOfAPurchase(cents: int)
    ensures Units(cents) == if cents < 500 then 0 else if 10_000 <= cents then 100 else cents / 100
  {
  }

  /** A direct earning on a card in use: a new operation id credits that card alone by the points of the purchase and is
    * kept; a card that is not in use earns nothing and keeps nothing. */
  lemma EarningAnswers(s: State, member: MemberId, op: OpId, purchase: int, now: int, i: nat)
    requires ServerInv(s) && i < |s.members| && s.members[i].id == member && op !in s.operations
    ensures var s', answer := Serve(s, Earn(member, op, purchase), now).state, Serve(s, Earn(member, op, purchase), now).answer;
            if Usable(s.members[i]) then
              && answer == EarnedUnits(Units(purchase), false)
              && s'.members == s.members[i := Credited(s.members[i], Units(purchase))]
              && s'.operations == s.operations[op := KeptEarn(Units(purchase))]
              && s'.enrolments == s.enrolments && s'.orderEarns == s.orderEarns && s'.intents == s.intents
            else s' == s && answer == Error(404)
  {
    FoundIs(s, member, i);
  }

  lemma FoundIs(s: State, member: MemberId, i: nat)
    requires ServerInv(s) && i < |s.members| && s.members[i].id == member
    ensures FirstAnswering(s.members, ByMember(member)) == if Usable(s.members[i]) then i else |s.members|
  {
    var j := FirstAnswering(s.members, ByMember(member));
    if Usable(s.members[i]) {
      assert Answers(s.members[i], ByMember(member));
    }
  }

  predicate Earned(b: Book, op: OpId, units: nat) {
    op in b.state.operations && b.state.operations[op] == KeptEarn(units)
  }

  lemma EarnedStep(b: Book, r: Request, now: int, op: OpId, units: nat)
    requires Earned(b, op, units)
    ensures Earned(After(b, r, now), op, units)
  {
  }

  /** An earning that was answered is answered again with the same points by every replay at any later moment, whatever
    * the replay says of the purchase, and the replay changes nothing. */
  lemma EarningReplays(b: Book, member: MemberId, op: OpId, purchase: int, at: int, units: nat,
                       b': Book, member': MemberId, purchase': int, now: int)
    requires Serve(b.state, Earn(member, op, purchase), at).answer == EarnedUnits(units, false)
    requires Reaches(Asked, After(b, Earn(member, op, purchase), at), b')
    requires FirstAnswering(b'.state.members, ByMember(member')) < |b'.state.members|
    ensures Serve(b'.state, Earn(member', op, purchase'), now) == Served(b'.state, EarnedUnits(units, true))
  {
    forall x, t, y | Asked(x, t, y) && Earned(x, op, units) ensures Earned(y, op, units) {
      EarnedStep(x, t.request, t.now, op, units);
    }
    ReachKeeps(Asked, x => Earned(x, op, units), After(b, Earn(member, op, purchase), at), b');
  }

  /** Consents share the table of operations: a withdrawal is kept under its id and replayed, a grant is refused while
    * the channel is closed; a redemption always asks for a sale. */
  lemma ConsentAnswers(s: State, member: MemberId, op: OpId, now: int, i: nat)
    requires ServerInv(s) && i < |s.members| && s.members[i].id == member && Usable(s.members[i])
    ensures Serve(s, Redeem(member), now) == Served(s, Error(410))
    ensures op in s.operations ==> forall granted :: Serve(s, Consent(member, op, granted), now) == Served(s, ConsentKept(true))
    ensures op !in s.operations ==>
              && Serve(s, Consent(member, op, true), now) == Served(s, Error(409))
              && Serve(s, Consent(member, op, false), now)
              == Served(s.(operations := s.operations[op := KeptConsent]), ConsentKept(false))
  {
    FoundIs(s, member, i);
  }

  /** What an answer about a sale does while its earning waits: a cancellation or a refund ends it; anything but a
    * delivered and paid order leaves it waiting; a delivered and paid one credits the card of the order alone, by the
    * points of its total, or fails when that card is not in use or the total is not a non-negative safe integer. */
  lemma SaleAnswers(s: State, order: string, projection: Order, now: int, i: nat)
    requires ServerInv(s) && order in s.intents && Waiting(s, s.intents[order].client)
    requires i < |s.members| && s.members[i].id == s.intents[order].member
    ensures var intent := s.intents[order];
            var attempts := s.orderEarns[intent.client].attempts;
            var paid := Usable(s.members[i]) && projection.total.Some? && 0 <= projection.total.value <= MAX_SAFE_INTEGER;
            Serve(s, OrderStatus(order, projection), now).state ==
            if projection.cancelled || projection.refunded then
              s.(orderEarns := s.orderEarns[intent.client := Tracking(Cancelled, attempts)])
            else if !(projection.delivered && projection.paid) then s
            else if paid then
              s.(members := s.members[i := Credited(s.members[i], Units(projection.total.value))],
                 orderEarns := s.orderEarns[intent.client := Tracking(Completed, attempts + 1)])
            else s.(orderEarns := s.orderEarns[intent.client := Tracking(Failed, attempts + 1)])
    ensures var intent := s.intents[order];
            Serve(s, OrderCancelled(order), now).state ==
            s.(orderEarns := s.orderEarns[intent.client := Tracking(Cancelled, s.orderEarns[intent.client].attempts)])
  {
    FoundIs(s, s.intents[order].member, i);
  }

  /** An order waits for its outcome under its client id, with the card and the operation id it carried; without an
    * order id it has failed at once; and a client id counts once. */
  lemma OrderAnswers(s: State, client: string, member: MemberId, op: OpId, now: int)
    ensures client in s.orderEarns ==> forall orderId :: Serve(s, OrderPosted(client, orderId, member, op), now).state == s
    ensures client !in s.orderEarns ==>
              && Serve(s, OrderPosted(client, None, member, op), now).state
              == s.(orderEarns := s.orderEarns[client := Tracking(Failed, 1)])
              && forall order ::
                   Serve(s, OrderPosted(client, Some(order), member, op), now).state ==
                   s.(intents := s.intents[order := Intent(client, member, op)],
                      orderEarns := s.orderEarns[client := Tracking(Pending, 0)])
  {
  }
}

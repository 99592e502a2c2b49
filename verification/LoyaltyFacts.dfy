/** What the loyalty server keeps over any sequence of requests. */
module LoyaltyFacts {
  import opened Wrappers
  import opened LoyaltyModel

  predicate Holds(s: State, op: OpId, id: MemberId) {
    op in s.enrolments && s.enrolments[op].card.Some? && s.enrolments[op].card.value.member == id
  }

  /** Some operation made this card and was acknowledged. */
  ghost predicate HandedOver(s: State, id: MemberId) {
    exists op :: Holds(s, op, id) && s.enrolments[op].phase.Acknowledged?
  }

  predicate Listed(members: seq<Member>, id: MemberId) {
    exists i :: 0 <= i < |members| && members[i].id == id
  }

  predicate IdInv(ms: seq<Member>, sequence: nat) {
    && INITIAL_SEQUENCE <= sequence
    && (forall i | 0 <= i < |ms| :: ms[i].id <= sequence)
    && (forall i | 0 <= i < |ms| :: ms[i].qr == if ms[i].id == INITIAL_MEMBER_ID then Seeded else Issued(ms[i].id))
    && (forall i, j | 0 <= i < j < |ms| :: ms[i].id != ms[j].id)
    && (forall i, j | 0 <= i < j < |ms| :: !SamePhone(ms[i].phone, ms[j].phone))
  }

  predicate HasCard(e: Enrolment) { e.phase.Ready? || e.phase.Acknowledged? }

  ghost predicate CardInv(s: State) {
    && (forall op | op in s.enrolments :: s.enrolments[op].card.Some? <==> HasCard(s.enrolments[op]))
    && (forall op | op in s.enrolments && s.enrolments[op].card.Some? ::
          && INITIAL_SEQUENCE < s.enrolments[op].card.value.member <= s.sequence
          && s.enrolments[op].card.value.qr == Issued(s.enrolments[op].card.value.member)
          && Listed(s.members, s.enrolments[op].card.value.member))
    && (forall op, op', id :: Holds(s, op, id) && Holds(s, op', id) ==> op == op')
  }

  ghost predicate UseInv(s: State) {
    forall i | 0 <= i < |s.members| ::
      s.members[i].handedOff <==> s.members[i].id == INITIAL_MEMBER_ID || HandedOver(s, s.members[i].id)
  }

  predicate BalanceInv(ms: seq<Member>) {
    forall i | 0 <= i < |ms| ::
      ms[i].active && ms[i].redeemed == SpentAtStart(ms[i].id) && 0 <= ms[i].balance == ms[i].earned - ms[i].redeemed
  }

  /** No request spends: redemptions ask for a sale. */
  function SpentAtStart(id: MemberId): int { if id == INITIAL_MEMBER_ID then 14 else 0 }

  ghost predicate ServerInv(s: State) {
    IdInv(s.members, s.sequence) && CardInv(s) && UseInv(s) && BalanceInv(s.members)
  }

  lemma InitialInv()
    ensures ServerInv(INITIAL)
  {
  }

  // ─── One request ───

  /** A change to one enrolment that leaves its card alone and does not acknowledge it. */
  lemma EnrolmentKept(s: State, op: OpId, e: Enrolment)
    requires ServerInv(s) && (e.card.Some? <==> HasCard(e)) && !e.phase.Acknowledged?
    requires if op in s.enrolments then e.card == s.enrolments[op].card && !s.enrolments[op].phase.Acknowledged?
             else e.card.None?
    ensures ServerInv(s.(enrolments := s.enrolments[op := e]))
  {
    var s' := s.(enrolments := s.enrolments[op := e]);
    assert forall o, id :: Holds(s', o, id) <==> Holds(s, o, id);
    forall i | 0 <= i < |s.members| ensures HandedOver(s', s.members[i].id) <==> HandedOver(s, s.members[i].id) {
      var id := s.members[i].id;
      if HandedOver(s, id) {
        var o :| Holds(s, o, id) && s.enrolments[o].phase.Acknowledged?;
        assert Holds(s', o, id) && s'.enrolments[o].phase.Acknowledged?;
      }
      if HandedOver(s', id) {
        var o :| Holds(s', o, id) && s'.enrolments[o].phase.Acknowledged?;
        assert Holds(s, o, id) && s.enrolments[o].phase.Acknowledged?;
      }
    }
  }

  /** A credit changes one balance. */
  lemma CreditKept(s: State, i: nat, units: nat, sequence: nat)
    requires ServerInv(s) && i < |s.members| && s.sequence <= sequence
    ensures ServerInv(Credit(s, i, units).(sequence := sequence))
  {
    var s' := Credit(s, i, units).(sequence := sequence);
    var ms, ms' := s.members, s'.members;
    assert forall j | 0 <= j < |ms| :: ms'[j].id == ms[j].id && ms'[j].qr == ms[j].qr && ms'[j].phone == ms[j].phone
                                       && ms'[j].handedOff == ms[j].handedOff;
    assert forall o, id :: Holds(s', o, id) <==> Holds(s, o, id);
    forall op | op in s.enrolments && s.enrolments[op].card.Some? ensures Listed(ms', s.enrolments[op].card.value.member) {
      var j :| 0 <= j < |ms| && ms[j].id == s.enrolments[op].card.value.member;
      assert ms'[j].id == ms[j].id;
    }
    forall j | 0 <= j < |ms| ensures HandedOver(s', ms[j].id) <==> HandedOver(s, ms[j].id) {
    }
  }

  /** The orders and the operations play no part in the invariant. */
  lemma BooksKept(s: State, s': State)
    requires ServerInv(s) && s'.members == s.members && s'.enrolments == s.enrolments && s'.sequence == s.sequence
    ensures ServerInv(s')
  {
    assert forall o, id :: Holds(s', o, id) <==> Holds(s, o, id);
    forall j | 0 <= j < |s.members| ensures HandedOver(s', s.members[j].id) <==> HandedOver(s, s.members[j].id) {
      var id := s.members[j].id;
      if HandedOver(s, id) {
        var o :| Holds(s, o, id) && s.enrolments[o].phase.Acknowledged?;
        assert Holds(s', o, id);
      }
    }
  }

  /** Members that differ in use only: the same ids, phones and codes. */
  predicate SameCards(ms: seq<Member>, ms': seq<Member>) {
    |ms'| == |ms| && forall j | 0 <= j < |ms| :: ms'[j].id == ms[j].id && ms'[j].phone == ms[j].phone && ms'[j].qr == ms[j].qr
  }

  lemma StillListed(ms: seq<Member>, ms': seq<Member>, id: MemberId)
    requires SameCards(ms, ms') && Listed(ms, id)
    ensures Listed(ms', id)
  {
    var j :| 0 <= j < |ms| && ms[j].id == id;
    assert ms'[j].id == id;
  }

  lemma AcknowledgeCards(s: State, s': State, op: OpId)
    requires CardInv(s) && op in s.enrolments && s.enrolments[op].phase.Ready? && s'.sequence == s.sequence
    requires s'.enrolments == s.enrolments[op := s.enrolments[op].(phase := Acknowledged)] && SameCards(s.members, s'.members)
    ensures CardInv(s')
  {
    assert forall p, m :: Holds(s', p, m) <==> Holds(s, p, m);
    forall p | p in s'.enrolments && s'.enrolments[p].card.Some? ensures Listed(s'.members, s'.enrolments[p].card.value.member) {
      StillListed(s.members, s'.members, s.enrolments[p].card.value.member);
    }
  }

  lemma AcknowledgeKept(s: State, op: Option<OpId>, owner: Owner, now: int)
    requires ServerInv(s)
    ensures ServerInv(ServeAcknowledge(s, op, owner, now).state)
  {
    var s' := ServeAcknowledge(s, op, owner, now).state;
    if s' != s {
      AcknowledgeCards(s, s', op.value);
      forall j | 0 <= j < |s.members|
        ensures s'.members[j].handedOff <==> s'.members[j].id == INITIAL_MEMBER_ID || HandedOver(s', s'.members[j].id)
      {
        AcknowledgedOne(s, s', op.value, s.members[j].id);
      }
    }
  }

  lemma AcknowledgedOne(s: State, s': State, op: OpId, id: MemberId)
    requires CardInv(s) && op in s.enrolments && s.enrolments[op].card.Some?
    requires s'.enrolments == s.enrolments[op := s.enrolments[op].(phase := Acknowledged)]
    ensures HandedOver(s', id) <==> HandedOver(s, id) || id == s.enrolments[op].card.value.member
  {
    if HandedOver(s, id) {
      var o :| Holds(s, o, id) && s.enrolments[o].phase.Acknowledged?;
      assert Holds(s', o, id) && s'.enrolments[o].phase.Acknowledged?;
    }
    if id == s.enrolments[op].card.value.member {
      assert Holds(s', op, id) && s'.enrolments[op].phase.Acknowledged?;
    }
    if HandedOver(s', id) {
      var o :| Holds(s', o, id) && s'.enrolments[o].phase.Acknowledged?;
      assert Holds(s, o, id);
    }
  }

  /** A new card: a fresh id, held by its operation alone, not yet in use. */
  function Made(s: State, op: OpId, phone: Option<string>): State
    requires op in s.enrolments
  {
    var id := s.sequence + 1;
    s.(members := s.members + [Member(id, phone, Issued(id), false, true, 0, 0, 0)],
       enrolments := s.enrolments[op := s.enrolments[op].(phase := Ready, card := Some(Card(id, Issued(id))))],
       sequence := id)
  }

  lemma MadeIds(s: State, op: OpId, phone: Option<string>)
    requires IdInv(s.members, s.sequence) && BalanceInv(s.members) && op in s.enrolments && !PhoneTaken(s.members, phone)
    ensures var s' := Made(s, op, phone); IdInv(s'.members, s'.sequence) && BalanceInv(s'.members)
  {
  }

  lemma MadeCards(s: State, op: OpId, phone: Option<string>)
    requires CardInv(s) && INITIAL_SEQUENCE <= s.sequence && op in s.enrolments && s.enrolments[op].card.None?
    ensures CardInv(Made(s, op, phone))
  {
    var s' := Made(s, op, phone);
    var n, id := |s.members|, s.sequence + 1;
    assert forall o, x :: Holds(s', o, x) <==> Holds(s, o, x) || (o == op && x == id);
    assert s'.members[n].id == id;
    forall o | o in s'.enrolments && s'.enrolments[o].card.Some? ensures Listed(s'.members, s'.enrolments[o].card.value.member) {
      if o != op {
        var j :| 0 <= j < n && s.members[j].id == s.enrolments[o].card.value.member;
        assert s'.members[j] == s.members[j];
      }
    }
  }

  lemma CardMade(s: State, op: OpId, phone: Option<string>)
    requires ServerInv(s) && op in s.enrolments && s.enrolments[op].card.None? && !PhoneTaken(s.members, phone)
    ensures ServerInv(Made(s, op, phone))
  {
    var s' := Made(s, op, phone);
    MadeIds(s, op, phone);
    MadeCards(s, op, phone);
    forall j | 0 <= j < |s'.members|
      ensures s'.members[j].handedOff <==> s'.members[j].id == INITIAL_MEMBER_ID || HandedOver(s', s'.members[j].id)
    {
      MadeInUse(s, s', op, s'.members[j].id);
    }
  }

  lemma MadeInUse(s: State, s': State, op: OpId, id: MemberId)
    requires CardInv(s) && op in s.enrolments && s.enrolments[op].card.None? && op in s'.enrolments && s'.enrolments[op].phase.Ready?
    requires forall o | o in s.enrolments && o != op :: o in s'.enrolments && s'.enrolments[o] == s.enrolments[o]
    requires forall o | o in s'.enrolments :: o in s.enrolments
    ensures HandedOver(s', id) <==> HandedOver(s, id)
    ensures HandedOver(s, id) ==> id <= s.sequence
  {
    if HandedOver(s, id) {
      var o :| Holds(s, o, id) && s.enrolments[o].phase.Acknowledged?;
      assert Holds(s', o, id) && s'.enrolments[o].phase.Acknowledged?;
    }
    if HandedOver(s', id) {
      var o :| Holds(s', o, id) && s'.enrolments[o].phase.Acknowledged?;
      assert Holds(s, o, id) && s.enrolments[o].phase.Acknowledged?;
    }
  }

  lemma CreateKept(s: State, op: OpId, owner: Owner, phone: Option<string>, termsAccepted: bool, now: int)
    requires ServerInv(s)
    ensures ServerInv(ServeCreate(s, op, owner, phone, termsAccepted, now).state)
  {
    if op in s.enrolments {
      var e := s.enrolments[op];
      if Closed(e, owner, now).None? && !(e.phase.Ready? && e.card.Some?) {
        if !termsAccepted || PhoneTaken(s.members, phone) {
          EnrolmentKept(s, op, e.(phase := Rejected));
        } else {
          CardMade(s, op, phone);
        }
      }
    }
  }

  lemma ReconcileKept(s: State, orderId: string, order: Order, cancelPath: bool)
    requires ServerInv(s)
    ensures ServerInv(Reconcile(s, orderId, order, cancelPath))
  {
    var s' := Reconcile(s, orderId, order, cancelPath);
    if s'.members != s.members {
      var i := FirstAnswering(s.members, ByMember(s.intents[orderId].member));
      CreditKept(s, i, Units(order.total.value), s.sequence);
      BooksKept(Credit(s, i, Units(order.total.value)), s');
    } else {
      BooksKept(s, s');
    }
  }

  lemma EarnKept(s: State, member: MemberId, op: OpId, purchase: int)
    requires ServerInv(s)
    ensures ServerInv(ServeEarn(s, member, op, purchase).state)
  {
    var i := FirstAnswering(s.members, ByMember(member));
    if i < |s.members| && op !in s.operations {
      var s' := ServeEarn(s, member, op, purchase).state;
      CreditKept(s, i, Units(purchase), s'.sequence);
      BooksKept(Credit(s, i, Units(purchase)).(sequence := s'.sequence), s');
    }
  }

  lemma PrepareKept(s: State, op: Option<OpId>, owner: Owner, now: int)
    requires ServerInv(s)
    ensures ServerInv(ServePrepare(s, op, owner, now).state)
  {
    if op.Some? && op.value !in s.enrolments {
      EnrolmentKept(s, op.value, Enrolment(owner, Prepared, now + HANDOFF_WINDOW_MS, None));
    }
  }

  /** The requests that touch neither a card nor a balance. */
  predicate Bookkeeping(r: Request) {
    r.Recover? || r.Resolve? || r.Consent? || r.Redeem? || r.OrderPosted?
  }

  lemma BookkeepingKept(s: State, r: Request, now: int)
    requires Bookkeeping(r)
    ensures var s' := Serve(s, r, now).state;
            s'.members == s.members && s'.enrolments == s.enrolments && s'.sequence == s.sequence
  {
  }

  lemma ServeKept(s: State, r: Request, now: int)
    requires ServerInv(s)
    ensures ServerInv(Serve(s, r, now).state)
  {
    if Bookkeeping(r) {
      BookkeepingKept(s, r, now);
      BooksKept(s, Serve(s, r, now).state);
    } else if r.Prepare? {
      PrepareKept(s, r.op, r.owner, now);
    } else if r.Acknowledge? {
      AcknowledgeKept(s, r.op, r.owner, now);
    } else if r.Create? {
      CreateKept(s, r.id, r.owner, r.phone, r.termsAccepted, now);
    } else if r.Earn? {
      EarnKept(s, r.member, r.id, r.purchase);
    } else if r.OrderStatus? {
      ReconcileKept(s, r.order, r.projection, false);
    } else {
      ReconcileKept(s, r.order, NO_ORDER, true);
    }
  }
}

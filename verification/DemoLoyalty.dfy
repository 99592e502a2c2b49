/** The loyalty server as it is: maps and a list of members, changed in place by each request. */
module DemoLoyalty {
  import opened Wrappers
  import opened LoyaltyModel

  class DemoLoyalty {
    var members: seq<Member>
    var operations: map<OpId, Kept>
    var enrolments: map<OpId, Enrolment>
    var orderEarns: map<string, Tracking>
    var intents: map<string, Intent>
    var sequence: nat

    constructor ()
      ensures View() == INITIAL
    {
      members, sequence := [SEEDED_MEMBER], INITIAL_SEQUENCE;
      operations, enrolments, orderEarns, intents := map[], map[], map[], map[];
    }

    function View(): State
      reads this
    {
      State(members, operations, enrolments, orderEarns, intents, sequence)
    }

    /** `find` over the cards in use. */
    method FindUsable(lookup: Lookup) returns (i: nat)
      ensures i == FirstAnswering(members, lookup)
    {
      i := 0;
      while i < |members| && !Answers(members[i], lookup)
        invariant i <= |members|
        invariant forall j | 0 <= j < i :: !Answers(members[j], lookup)
      {
        i := i + 1;
      }
    }

    method FindMember(id: MemberId) returns (i: nat)
      ensures i == IndexOf(members, id)
    {
      i := 0;
      while i < |members| && members[i].id != id
        invariant i <= |members|
        invariant forall j | 0 <= j < i :: members[j].id != id
      {
        i := i + 1;
      }
    }

    method SomeoneHas(phone: Option<string>) returns (taken: bool)
      ensures taken <==> PhoneTaken(members, phone)
    {
      for i := 0 to |members|
        invariant forall j | 0 <= j < i :: !SamePhone(members[j].phone, phone)
      {
        if SamePhone(members[i].phone, phone) { return true; }
      }
      return false;
    }

    /** `nextUuid`. */
    method NextId() returns (id: nat)
      modifies this`sequence
      ensures id == sequence == old(sequence) + 1
    {
      sequence := sequence + 1;
      id := sequence;
    }

    method Prepare(op: Option<OpId>, owner: Owner, now: int) returns (answer: Answer)
      modifies this`enrolments
      ensures Served(View(), answer) == ServePrepare(old(View()), op, owner, now)
    {
      if op.None? { return Error(400); }
      if op.value in enrolments {
        var stored := enrolments[op.value];
        if stored.owner != owner { return Error(403); }
        if stored.phase.Acknowledged? || stored.phase.Rejected? { return Error(410); }
        if stored.expiresAt <= now { return Error(410); }
        return PreparedAs(stored.phase.Ready?, stored.expiresAt);
      }
      var expiresAt := now + HANDOFF_WINDOW_MS;
      enrolments := enrolments[op.value := Enrolment(owner, Prepared, expiresAt, None)];
      return PreparedAs(false, expiresAt);
    }

    method Recover(op: Option<OpId>, owner: Owner, now: int) returns (answer: Answer)
      ensures Served(View(), answer) == ServeRecover(View(), op, owner, now)
    {
      if op.None? || op.value !in enrolments { return Error(404); }
      var stored := enrolments[op.value];
      if stored.owner != owner { return Error(403); }
      if stored.phase.Acknowledged? || stored.phase.Rejected? { return Error(410); }
      if stored.expiresAt <= now { return Error(410); }
      if stored.phase.Prepared? || stored.card.None? { return StillPending; }
      return CardReady(stored.card.value, true);
    }

    method Acknowledge(op: Option<OpId>, owner: Owner, now: int) returns (answer: Answer)
      modifies this`members, this`enrolments
      ensures Served(View(), answer) == ServeAcknowledge(old(View()), op, owner, now)
    {
      if op.None? || op.value !in enrolments { return Error(404); }
      var stored := enrolments[op.value];
      if stored.owner != owner { return Error(403); }
      if stored.phase.Acknowledged? { return Acked(true); }
      if stored.phase.Rejected? || stored.expiresAt <= now { return Error(410); }
      if !stored.phase.Ready? || stored.card.None? { return Error(409); }
      var i := FindMember(stored.card.value.member);
      if i == |members| { return Error(410); }
      members := members[i := members[i].(handedOff := true)];
      enrolments := enrolments[op.value := stored.(phase := Acknowledged)];
      return Acked(false);
    }

    method Create(op: OpId, owner: Owner, phone: Option<string>, termsAccepted: bool, now: int) returns (answer: Answer)
      modifies this`members, this`enrolments, this`sequence
      ensures Served(View(), answer) == ServeCreate(old(View()), op, owner, phone, termsAccepted, now)
    {
      if op !in enrolments { return Error(409); }
      var prepared := enrolments[op];
      if prepared.owner != owner { return Error(403); }
      if prepared.phase.Acknowledged? || prepared.phase.Rejected? { return Error(410); }
      if prepared.expiresAt <= now { return Error(410); }
      if prepared.phase.Ready? && prepared.card.Some? { return CardReady(prepared.card.value, true); }
      if !termsAccepted {
        enrolments := enrolments[op := prepared.(phase := Rejected)];
        return Error(400);
      }
      var taken := SomeoneHas(phone);
      if taken {
        enrolments := enrolments[op := prepared.(phase := Rejected)];
        return Error(409);
      }
      var id := NextId();
      members := members + [Member(id, phone, Issued(id), false, true, 0, 0, 0)];
      enrolments := enrolments[op := prepared.(phase := Ready, card := Some(Card(id, Issued(id))))];
      return CardReady(Card(id, Issued(id)), false);
    }

    method Resolve(lookup: Lookup) returns (answer: Answer)
      ensures Served(View(), answer) == ServeResolve(View(), lookup)
    {
      var i := FindUsable(lookup);
      return if i < |members| then Found(members[i]) else Error(404);
    }

    method Earn(member: MemberId, op: OpId, purchase: int) returns (answer: Answer)
      modifies this`members, this`operations, this`sequence
      ensures Served(View(), answer) == ServeEarn(old(View()), member, op, purchase)
    {
      var i := FindUsable(ByMember(member));
      if i == |members| { return Error(404); }
      if op in operations {
        return EarnedUnits(if operations[op].KeptEarn? then operations[op].units else 0, true);
      }
      var units := Units(purchase);
      var m := members[i];
      members := members[i := m.(balance := m.balance + units, earned := m.earned + units)];
      if units != 0 {
        var entry := NextId();
      }
      operations := operations[op := KeptEarn(units)];
      return EarnedUnits(units, false);
    }

    method Consent(member: MemberId, op: OpId, granted: bool) returns (answer: Answer)
      modifies this`operations
      ensures Served(View(), answer) == ServeConsent(old(View()), member, op, granted)
    {
      var i := FindUsable(ByMember(member));
      if i == |members| { return Error(404); }
      if op in operations { return ConsentKept(true); }
      if granted { return Error(409); }
      operations := operations[op := KeptConsent];
      return ConsentKept(false);
    }

    /** `registerOrderEarn`. */
    method RegisterOrderEarn(client: string, orderId: Option<string>, member: MemberId, op: OpId)
      modifies this`orderEarns, this`intents
      ensures View() == Register(old(View()), client, orderId, member, op)
    {
      if client in orderEarns { return; }
      if orderId.None? {
        orderEarns := orderEarns[client := Tracking(Failed, 1)];
        return;
      }
      intents := intents[orderId.value := Intent(client, member, op)];
      orderEarns := orderEarns[client := Tracking(Pending, 0)];
    }

    /** `cancelOrderEarn`. */
    method CancelOrderEarn(intent: Intent)
      modifies this`orderEarns
      ensures View() == CancelEarn(old(View()), intent)
    {
      if intent.client !in orderEarns || !orderEarns[intent.client].state.Pending? { return; }
      orderEarns := orderEarns[intent.client := orderEarns[intent.client].(state := Cancelled)];
    }

    /** `completeOrderEarn`. */
    method CompleteOrderEarn(intent: Intent, order: Order)
      modifies this`members, this`orderEarns
      ensures View() == CompleteEarn(old(View()), intent, order)
    {
      if intent.client !in orderEarns || !orderEarns[intent.client].state.Pending? { return; }
      if !order.delivered || !order.paid { return; }
      var attempts := orderEarns[intent.client].attempts + 1;
      var i := FindUsable(ByMember(intent.member));
      if i == |members| || !GoodTotal(order.total) {
        orderEarns := orderEarns[intent.client := Tracking(Failed, attempts)];
        return;
      }
      var units := Units(order.total.value);
      if units > 0 {
        var m := members[i];
        members := members[i := m.(balance := m.balance + units, earned := m.earned + units)];
      }
      orderEarns := orderEarns[intent.client := Tracking(Completed, attempts)];
    }

    /** `reconcileOrderEarnMutation`. */
    method ReconcileOrderEarn(orderId: string, order: Order, cancelPath: bool)
      modifies this`members, this`orderEarns
      ensures View() == Reconcile(old(View()), orderId, order, cancelPath)
    {
      if orderId !in intents { return; }
      if cancelPath || order.cancelled || order.refunded {
        CancelOrderEarn(intents[orderId]);
      } else {
        CompleteOrderEarn(intents[orderId], order);
      }
    }

    /** One request: the loyalty route that it names, or what an answer of the base transport means for a sale. */
    method Handle(r: Request, now: int) returns (answer: Answer)
      modifies this
      ensures Served(View(), answer) == Serve(old(View()), r, now)
    {
      answer := Delegated;
      match r
      case Prepare(op, owner) => answer := Prepare(op, owner, now);
      case Recover(op, owner) => answer := Recover(op, owner, now);
      case Acknowledge(op, owner) => answer := Acknowledge(op, owner, now);
      case Create(id, owner, phone, termsAccepted) => answer := Create(id, owner, phone, termsAccepted, now);
      case Resolve(lookup) => answer := Resolve(lookup);
      case Earn(member, id, purchase) => answer := Earn(member, id, purchase);
      case Consent(member, id, granted) => answer := Consent(member, id, granted);
      case Redeem(member) =>
        var i := FindUsable(ByMember(member));
        answer := Error(if i == |members| then 404 else 410);
      case OrderPosted(client, orderId, memberRef, earnOp) => RegisterOrderEarn(client, orderId, memberRef, earnOp);
      case OrderStatus(order, projection) => ReconcileOrderEarn(order, projection, false);
      case OrderCancelled(order) => ReconcileOrderEarn(order, NO_ORDER, true);
    }
  }
}

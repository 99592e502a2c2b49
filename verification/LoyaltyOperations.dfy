/** What an operation id protects: the direct earning that carries it, and nothing that an order carries. */
module LoyaltyOperations {
  import opened Wrappers
  import opened LoyaltyModel
  import opened LoyaltyFacts
  import opened LoyaltyLedger
  import opened LoyaltyTheorems

  /** The credits that carry an operation id. */
  function Count(ledger: seq<Line>, op: OpId): nat {
    if ledger == [] then 0
    else Count(ledger[..|ledger| - 1], op) + if ledger[|ledger| - 1].op == op then 1 else 0
  }

  /** The direct earning kept under an operation id. */
  function Direct(s: State, op: OpId): nat { if op in s.operations && s.operations[op].KeptEarn? then 1 else 0 }

  /** The completed sales whose order carried an operation id. */
  function Sold(b: Book, op: OpId): set<string> {
    set client | client in b.posted && b.posted[client] == op
                 && client in b.state.orderEarns && b.state.orderEarns[client].state.Completed?
  }

  /** Every sale in the server's hands was told with the operation id that its intent carries. */
  predicate PostsInv(b: Book) {
    && b.posted.Keys == b.state.orderEarns.Keys
    && forall order | order in b.state.intents ::
         var intent := b.state.intents[order];
         intent.client in b.posted && b.posted[intent.client] == intent.op
  }

  predicate Counted(b: Book, op: OpId) { Count(b.ledger, op) == Direct(b.state, op) + |Sold(b, op)| }

  lemma CountOne(ledger: seq<Line>, line: Line, op: OpId)
    ensures Count(ledger + [line], op) == Count(ledger, op) + if line.op == op then 1 else 0
  {
    assert (ledger + [line])[..|ledger|] == ledger;
  }

  predicate OnOrders(r: Request) { r.OrderPosted? || r.OrderStatus? || r.OrderCancelled? }

  lemma OrdersUntouched(s: State, r: Request, now: int)
    requires !OnOrders(r)
    ensures Serve(s, r, now).state.orderEarns == s.orderEarns && Serve(s, r, now).state.intents == s.intents
  {
  }

  lemma OperationsUntouched(s: State, r: Request, now: int)
    requires !r.Earn? && !r.Consent?
    ensures Serve(s, r, now).state.operations == s.operations
  {
  }

  /** An answer about an order leaves the intents, and the clients it knows. */
  lemma ReconcileKeepsClients(s: State, order: string, projection: Order, cancelPath: bool)
    requires order in s.intents ==> s.intents[order].client in s.orderEarns
    ensures var s' := Reconcile(s, order, projection, cancelPath);
            s'.intents == s.intents && s'.orderEarns.Keys == s.orderEarns.Keys
  {
  }

  lemma PostsStep(b: Book, r: Request, now: int)
    requires PostsInv(b)
    ensures PostsInv(After(b, r, now))
  {
    if !OnOrders(r) {
      OrdersUntouched(b.state, r, now);
    } else if r.OrderStatus? {
      ReconcileKeepsClients(b.state, r.order, r.projection, false);
    } else if r.OrderCancelled? {
      ReconcileKeepsClients(b.state, r.order, NO_ORDER, true);
    }
  }

  /** What an answer about an order completes is a credit. */
  lemma CompletedIsCredited(s: State, order: string, projection: Order, client: string)
    requires Credits(s, OrderStatus(order, projection)) == [] && client in s.orderEarns
    ensures var s' := Reconcile(s, order, projection, false);
            client in s'.orderEarns && (s'.orderEarns[client].state.Completed? <==> s.orderEarns[client].state.Completed?)
  {
  }

  lemma CancellingCompletesNothing(s: State, order: string, client: string)
    requires client in s.orderEarns
    ensures var s' := Reconcile(s, order, NO_ORDER, true);
            client in s'.orderEarns && (s'.orderEarns[client].state.Completed? <==> s.orderEarns[client].state.Completed?)
  {
  }

  /** A request without a credit completes no sale and keeps no earning. */
  lemma NothingCounted(b: Book, r: Request, now: int, op: OpId)
    requires PostsInv(b) && Credits(b.state, r) == []
    ensures Direct(After(b, r, now).state, op) == Direct(b.state, op) && Sold(After(b, r, now), op) == Sold(b, op)
  {
    PostsStep(b, r, now);
    if !OnOrders(r) {
      OrdersUntouched(b.state, r, now);
    } else {
      OperationsUntouched(b.state, r, now);
      forall client | client in b.state.orderEarns
        ensures var after := After(b, r, now).state.orderEarns;
                client in after && (after[client].state.Completed? <==> b.state.orderEarns[client].state.Completed?)
      {
        if r.OrderStatus? {
          CompletedIsCredited(b.state, r.order, r.projection, client);
        } else if r.OrderCancelled? {
          CancellingCompletesNothing(b.state, r.order, client);
        }
      }
    }
  }

  lemma EarnCounted(b: Book, r: Request, now: int, op: OpId)
    requires r.Earn? && Credits(b.state, r) != []
    ensures var b' := After(b, r, now);
            && Direct(b'.state, op) == Direct(b.state, op) + (if r.id == op then 1 else 0)
            && Sold(b', op) == Sold(b, op)
  {
  }

  /** A credited sale is one more completed sale under the id its order carried. */
  lemma SaleCounted(b: Book, r: Request, now: int, op: OpId)
    requires PostsInv(b) && r.OrderStatus? && Credits(b.state, r) != []
    ensures var b' := After(b, r, now);
            && Direct(b'.state, op) == Direct(b.state, op)
            && |Sold(b', op)| == |Sold(b, op)| + (if Credits(b.state, r)[0].op == op then 1 else 0)
  {
    var intent := b.state.intents[r.order];
    var b' := After(b, r, now);
    if intent.op == op {
      assert Sold(b', op) == Sold(b, op) + {intent.client};
    } else {
      assert Sold(b', op) == Sold(b, op);
    }
  }

  lemma CountedStep(b: Book, r: Request, now: int, op: OpId)
    requires PostsInv(b) && Counted(b, op)
    ensures Counted(After(b, r, now), op)
  {
    var lines := Credits(b.state, r);
    if lines == [] {
      NothingCounted(b, r, now, op);
      assert b.ledger + lines == b.ledger;
    } else {
      assert lines == [lines[0]];
      CountOne(b.ledger, lines[0], op);
      if r.Earn? {
        EarnCounted(b, r, now, op);
      } else {
        SaleCounted(b, r, now, op);
      }
    }
  }

  lemma CountedAlways(b: Book, op: OpId)
    requires Lived(b)
    ensures PostsInv(b) && Counted(b, op)
  {
    assert Sold(NEW_BOOK, op) == {};
    forall x, t, y | Asked(x, t, y) && PostsInv(x) && Counted(x, op) ensures PostsInv(y) && Counted(y, op) {
      PostsStep(x, t.request, t.now);
      CountedStep(x, t.request, t.now, op);
    }
    ReachKeeps(Asked, x => PostsInv(x) && Counted(x, op), NEW_BOOK, b);
  }

  /** Over any session, what is credited under an operation id is its direct earning, once, and every completed sale
    * whose order carried it: so the id credits at most once if and only if it served for one of these at most. */
  lemma CreditsUnderAnOperation(b: Book, op: OpId)
    requires Lived(b)
    ensures Count(b.ledger, op) == Direct(b.state, op) + |Sold(b, op)|
    ensures Count(b.ledger, op) <= 1 <==> Direct(b.state, op) + |Sold(b, op)| <= 1
  {
    CountedAlways(b, op);
  }

  /** A delivered and paid order, as the base transport returns it. */
  function DeliveredAndPaid(total: int): Order { Order(true, false, true, false, Some(total)) }

  /** A sale from its order to its delivery. */
  function SaleMade(b: Book, client: string, order: string, member: MemberId, op: OpId, total: int, now: int): Book {
    After(After(b, OrderPosted(client, Some(order), member, op), now), OrderStatus(order, DeliveredAndPaid(total)), now)
  }

  /** A sale with a new client id credits in full, whatever was already credited under the operation id it carries. */
  lemma EachSaleCredits(b: Book, client: string, order: string, member: MemberId, op: OpId, total: int, now: int)
    requires client !in b.state.orderEarns && 0 <= total <= MAX_SAFE_INTEGER
    requires FirstAnswering(b.state.members, ByMember(member)) < |b.state.members|
    ensures var b' := SaleMade(b, client, order, member, op, total, now);
            && b'.ledger == b.ledger + [Line(Sale(client), op, member, Units(total))]
            && Count(b'.ledger, op) == Count(b.ledger, op) + 1
            && Balances(b'.state.members) == Balances(b.state.members) + Units(total)
  {
    var posted := After(b, OrderPosted(client, Some(order), member, op), now);
    var line := Line(Sale(client), op, member, Units(total));
    assert posted.ledger == b.ledger && posted.state.members == b.state.members;
    assert Credits(posted.state, OrderStatus(order, DeliveredAndPaid(total))) == [line];
    CountOne(b.ledger, line, op);
    ServeBalances(posted.state, OrderStatus(order, DeliveredAndPaid(total)), now);
    assert [line][..0] == [];
  }

  /** A credit leaves its card in use. */
  lemma StillAnswers(s: State, r: Request, now: int, member: MemberId)
    requires (r.Earn? || r.OrderStatus?) && FirstAnswering(s.members, ByMember(member)) < |s.members|
    ensures var s' := Serve(s, r, now).state;
            FirstAnswering(s'.members, ByMember(member)) < |s'.members|
  {
    var s' := Serve(s, r, now).state;
    var i := FirstAnswering(s.members, ByMember(member));
    assert Answers(s'.members[i], ByMember(member));
  }

  lemma EarningCredits(b: Book, member: MemberId, op: OpId, purchase: int, now: int)
    requires op !in b.state.operations && FirstAnswering(b.state.members, ByMember(member)) < |b.state.members|
    ensures var b' := After(b, Earn(member, op, purchase), now);
            && Count(b'.ledger, op) == Count(b.ledger, op) + 1
            && Balances(b'.state.members) == Balances(b.state.members) + Units(purchase)
            && b'.state.orderEarns == b.state.orderEarns
  {
    var line := Line(Operation(op), op, member, Units(purchase));
    assert Credits(b.state, Earn(member, op, purchase)) == [line];
    CountOne(b.ledger, line, op);
    ServeBalances(b.state, Earn(member, op, purchase), now);
    assert [line][..0] == [];
  }

  /** A purchase told once directly and once with its order is credited twice under one operation id. */
  lemma TwoChannelsCreditTwice(b: Book, client: string, order: string, member: MemberId, op: OpId, total: int, now: int)
    requires op !in b.state.operations && client !in b.state.orderEarns && 0 <= total <= MAX_SAFE_INTEGER
    requires FirstAnswering(b.state.members, ByMember(member)) < |b.state.members|
    ensures var b' := SaleMade(After(b, Earn(member, op, total), now), client, order, member, op, total, now);
            && Count(b'.ledger, op) == Count(b.ledger, op) + 2
            && Balances(b'.state.members) == Balances(b.state.members) + 2 * Units(total)
  {
    EarningCredits(b, member, op, total, now);
    StillAnswers(b.state, Earn(member, op, total), now, member);
    EachSaleCredits(After(b, Earn(member, op, total), now), client, order, member, op, total, now);
  }

  lemma SaleFrame(b: Book, client: string, order: string, member: MemberId, op: OpId, total: int, now: int)
    requires FirstAnswering(b.state.members, ByMember(member)) < |b.state.members|
    ensures var b' := SaleMade(b, client, order, member, op, total, now);
            && b'.state.orderEarns.Keys == b.state.orderEarns.Keys + {client}
            && FirstAnswering(b'.state.members, ByMember(member)) < |b'.state.members|
  {
    var posted := After(b, OrderPosted(client, Some(order), member, op), now).state;
    assert posted.members == b.state.members;
    if order in posted.intents && posted.intents[order].client in posted.orderEarns {
      ReconcileKeepsClients(posted, order, DeliveredAndPaid(total), false);
    }
    StillAnswers(posted, OrderStatus(order, DeliveredAndPaid(total)), now, member);
  }

  /** And so is one told with two orders: the order channel does not read the id at all. */
  lemma TwoSalesCreditTwice(b: Book, client: string, order: string, client': string, order': string,
                            member: MemberId, op: OpId, total: int, now: int)
    requires client != client' && client !in b.state.orderEarns && client' !in b.state.orderEarns
    requires 0 <= total <= MAX_SAFE_INTEGER && FirstAnswering(b.state.members, ByMember(member)) < |b.state.members|
    ensures var sold := SaleMade(b, client, order, member, op, total, now);
            var b' := SaleMade(sold, client', order', member, op, total, now);
            && Count(b'.ledger, op) == Count(b.ledger, op) + 2
            && Balances(b'.state.members) == Balances(b.state.members) + 2 * Units(total)
  {
    EachSaleCredits(b, client, order, member, op, total, now);
    SaleFrame(b, client, order, member, op, total, now);
    EachSaleCredits(SaleMade(b, client, order, member, op, total, now), client', order', member, op, total, now);
  }
}

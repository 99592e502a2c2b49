/** The loyalty server of the till: members, enrolment operations, earnings.
  *
  * A request is a value, and so is the state; `Serve` is one request.  Ids that the server makes are the
  * numbers its sequence gives out.
  */
module LoyaltyModel {
  import opened Wrappers

  type OpId = string
  type Owner = string
  type MemberId = nat

  const HANDOFF_WINDOW_MS := 30 * 60_000
  const MINIMUM_PURCHASE_CENTS := 500
  const SPEND_STEP_CENTS := 100
  const UNITS_PER_STEP := 1
  const MAXIMUM_UNITS := 100
  const MAX_SAFE_INTEGER := 0x1F_FFFF_FFFF_FFFF

  const INITIAL_MEMBER_ID: MemberId := 2
  const INITIAL_SEQUENCE: nat := 20

  datatype Qr = Seeded | Issued(sequence: nat)

  datatype Member = Member(
    id: MemberId, phone: Option<string>, qr: Qr, handedOff: bool, active: bool,
    balance: int, earned: int, redeemed: int)

  datatype Phase = Prepared | Ready | Acknowledged | Rejected

  datatype Card = Card(member: MemberId, qr: Qr)

  datatype Enrolment = Enrolment(owner: Owner, phase: Phase, expiresAt: int, card: Option<Card>)

  /** What a mutation keeps under its operation id: an earning, or a consent. */
  datatype Kept = KeptEarn(units: nat) | KeptConsent

  datatype EarnState = Pending | Failed | Cancelled | Completed

  datatype Tracking = Tracking(state: EarnState, attempts: nat)

  /** What an order asks for once it is settled; the operation id is kept, and nothing reads it again. */
  datatype Intent = Intent(client: string, member: MemberId, op: OpId)

  datatype State = State(
    members: seq<Member>, operations: map<OpId, Kept>, enrolments: map<OpId, Enrolment>,
    orderEarns: map<string, Tracking>, intents: map<string, Intent>, sequence: nat)

  const SEEDED_MEMBER := Member(INITIAL_MEMBER_ID, Some("0612345678"), Seeded, true, true, 24, 38, 14)

  const INITIAL := State([SEEDED_MEMBER], map[], map[], map[], map[], INITIAL_SEQUENCE)

  // ─── Phones ───

  function OnlyDigits(s: string): string {
    if s == "" then "" else (if '0' <= s[0] <= '9' then [s[0]] else []) + OnlyDigits(s[1..])
  }

  /** `digits`: the national form of a number. */
  function Digits(phone: string): string {
    var raw := OnlyDigits(phone);
    if |raw| >= 2 && raw[..2] == "33" then "0" + raw[2..] else raw
  }

  /** A phone that counts: an absent or empty one never collides. */
  predicate HasPhone(phone: Option<string>) { phone.Some? && phone.value != "" }

  predicate SamePhone(a: Option<string>, b: Option<string>) {
    HasPhone(a) && HasPhone(b) && Digits(a.value) == Digits(b.value)
  }

  // ─── Requests and answers ───

  datatype Lookup = ByMember(id: MemberId) | ByQr(qr: Qr) | ByPhone(phone: string)

  /** An order as the base transport returns it. */
  datatype Order = Order(delivered: bool, cancelled: bool, paid: bool, refunded: bool, total: Option<int>)

  datatype Request =
    | Prepare(op: Option<OpId>, owner: Owner)
    | Recover(op: Option<OpId>, owner: Owner)
    | Acknowledge(op: Option<OpId>, owner: Owner)
    | Create(id: OpId, owner: Owner, phone: Option<string>, termsAccepted: bool)
    | Resolve(lookup: Lookup)
    | Earn(member: MemberId, id: OpId, purchase: int)
    | Consent(member: MemberId, id: OpId, granted: bool)
    | Redeem(member: MemberId)
    | OrderPosted(client: string, orderId: Option<string>, memberRef: MemberId, earnOp: OpId)
    | OrderStatus(order: string, projection: Order)
    | OrderCancelled(order: string)

  datatype Answer =
    | Error(status: nat)
    | PreparedAs(ready: bool, expiresAt: int)
    | StillPending
    | CardReady(card: Card, replayed: bool)
    | Acked(again: bool)
    | Found(member: Member)
    | EarnedUnits(units: nat, earnReplayed: bool)
    | ConsentKept(consentReplayed: bool)
    | Delegated

  datatype Served = Served(state: State, answer: Answer)

  // ─── Enrolment ───

  predicate Expired(e: Enrolment, now: int) { e.expiresAt <= now }

  /** The refusals that `prepare`, `recover` and `create` share. */
  function Closed(e: Enrolment, owner: Owner, now: int): Option<nat> {
    if e.owner != owner then Some(403)
    else if e.phase.Acknowledged? || e.phase.Rejected? then Some(410)
    else if Expired(e, now) then Some(410)
    else None
  }

  function ServePrepare(s: State, op: Option<OpId>, owner: Owner, now: int): Served {
    if op.None? then Served(s, Error(400))
    else if op.value in s.enrolments then
      var e := s.enrolments[op.value];
      if Closed(e, owner, now).Some? then Served(s, Error(Closed(e, owner, now).value))
      else Served(s, PreparedAs(e.phase.Ready?, e.expiresAt))
    else
      var e := Enrolment(owner, Prepared, now + HANDOFF_WINDOW_MS, None);
      Served(s.(enrolments := s.enrolments[op.value := e]), PreparedAs(false, e.expiresAt))
  }

  function ServeRecover(s: State, op: Option<OpId>, owner: Owner, now: int): Served {
    if op.None? || op.value !in s.enrolments then Served(s, Error(404))
    else
      var e := s.enrolments[op.value];
      if Closed(e, owner, now).Some? then Served(s, Error(Closed(e, owner, now).value))
      else if e.phase.Prepared? || e.card.None? then Served(s, StillPending)
      else Served(s, CardReady(e.card.value, true))
  }

  function IndexOf(members: seq<Member>, id: MemberId): (i: nat)
    ensures i <= |members|
    ensures i < |members| ==> members[i].id == id
    ensures forall j | 0 <= j < i :: members[j].id != id
  {
    First(members, (m: Member) => m.id == id)
  }

  function ServeAcknowledge(s: State, op: Option<OpId>, owner: Owner, now: int): Served {
    if op.None? || op.value !in s.enrolments then Served(s, Error(404))
    else
      var e := s.enrolments[op.value];
      if e.owner != owner then Served(s, Error(403))
      else if e.phase.Acknowledged? then Served(s, Acked(true))
      else if e.phase.Rejected? || Expired(e, now) then Served(s, Error(410))
      else if !e.phase.Ready? || e.card.None? then Served(s, Error(409))
      else
        var i := IndexOf(s.members, e.card.value.member);
        if i == |s.members| then Served(s, Error(410))
        else
          Served(s.(members := s.members[i := s.members[i].(handedOff := true)],
                    enrolments := s.enrolments[op.value := e.(phase := Acknowledged)]),
                 Acked(false))
  }

  predicate PhoneTaken(members: seq<Member>, phone: Option<string>) {
    exists i :: 0 <= i < |members| && SamePhone(members[i].phone, phone)
  }

  function ServeCreate(s: State, op: OpId, owner: Owner, phone: Option<string>, termsAccepted: bool, now: int): Served {
    if op !in s.enrolments then Served(s, Error(409))
    else
      var e := s.enrolments[op];
      var rejected := s.(enrolments := s.enrolments[op := e.(phase := Rejected)]);
      if Closed(e, owner, now).Some? then Served(s, Error(Closed(e, owner, now).value))
      else if e.phase.Ready? && e.card.Some? then Served(s, CardReady(e.card.value, true))
      else if !termsAccepted then Served(rejected, Error(400))
      else if PhoneTaken(s.members, phone) then Served(rejected, Error(409))
      else
        var id := s.sequence + 1;
        var card := Card(id, Issued(id));
        Served(s.(members := s.members + [Member(id, phone, card.qr, false, true, 0, 0, 0)],
                  enrolments := s.enrolments[op := e.(phase := Ready, card := Some(card))],
                  sequence := id),
               CardReady(card, false))
  }

  // ─── Cards in use ───

  /** A card serves once it was handed over. */
  predicate Usable(m: Member) { m.handedOff && m.active }

  predicate Answers(m: Member, lookup: Lookup) {
    Usable(m) &&
    match lookup
    case ByMember(id) => m.id == id
    case ByQr(qr) => m.qr == qr
    case ByPhone(phone) => m.phone.Some? && Digits(m.phone.value) == Digits(phone)
  }

  function FirstAnswering(members: seq<Member>, lookup: Lookup): (i: nat)
    ensures i <= |members|
    ensures i < |members| ==> Answers(members[i], lookup)
    ensures forall j | 0 <= j < i :: !Answers(members[j], lookup)
  {
    First(members, m => Answers(m, lookup))
  }

  function ServeResolve(s: State, lookup: Lookup): Served {
    var i := FirstAnswering(s.members, lookup);
    Served(s, if i < |s.members| then Found(s.members[i]) else Error(404))
  }

  // ─── Earnings ───

  /** `earnedUnits`: below the maximum, the number of whole steps that the purchase holds. */
  function Units(purchase: int): (units: nat)
    ensures units <= MAXIMUM_UNITS
    ensures units == 0 <==> purchase < MINIMUM_PURCHASE_CENTS
    ensures MINIMUM_PURCHASE_CENTS <= purchase ==> SPEND_STEP_CENTS * units <= purchase
    ensures MINIMUM_PURCHASE_CENTS <= purchase && units < MAXIMUM_UNITS ==> purchase < SPEND_STEP_CENTS * (units + 1)
  {
    if purchase < MINIMUM_PURCHASE_CENTS then 0
    else Min(MAXIMUM_UNITS, purchase / SPEND_STEP_CENTS * UNITS_PER_STEP)
  }

  function Credited(m: Member, units: nat): Member {
    m.(balance := m.balance + units, earned := m.earned + units)
  }

  function Credit(s: State, i: nat, units: nat): State
    requires i < |s.members|
  {
    s.(members := s.members[i := Credited(s.members[i], units)])
  }

  function ServeEarn(s: State, member: MemberId, op: OpId, purchase: int): Served {
    var i := FirstAnswering(s.members, ByMember(member));
    if i == |s.members| then Served(s, Error(404))
    else if op in s.operations then
      Served(s, EarnedUnits(if s.operations[op].KeptEarn? then s.operations[op].units else 0, true))
    else
      var units := Units(purchase);
      var credited := Credit(s, i, units);
      Served(credited.(operations := s.operations[op := KeptEarn(units)],
                       sequence := s.sequence + if units == 0 then 0 else 1),
             EarnedUnits(units, false))
  }

  function ServeConsent(s: State, member: MemberId, op: OpId, granted: bool): Served {
    if FirstAnswering(s.members, ByMember(member)) == |s.members| then Served(s, Error(404))
    else if op in s.operations then Served(s, ConsentKept(true))
    else if granted then Served(s, Error(409))
    else Served(s.(operations := s.operations[op := KeptConsent]), ConsentKept(false))
  }

  function ServeRedeem(s: State, member: MemberId): Served {
    Served(s, Error(if FirstAnswering(s.members, ByMember(member)) == |s.members| then 404 else 410))
  }

  /** `registerOrderEarn`: an order only records an intent. */
  function Register(s: State, client: string, orderId: Option<string>, member: MemberId, op: OpId): State {
    if client in s.orderEarns then s
    else if orderId.None? then s.(orderEarns := s.orderEarns[client := Tracking(Failed, 1)])
    else s.(intents := s.intents[orderId.value := Intent(client, member, op)],
            orderEarns := s.orderEarns[client := Tracking(Pending, 0)])
  }

  predicate Waiting(s: State, client: string) {
    client in s.orderEarns && s.orderEarns[client].state.Pending?
  }

  /** `cancelOrderEarn`. */
  function CancelEarn(s: State, intent: Intent): State {
    if !Waiting(s, intent.client) then s
    else s.(orderEarns := s.orderEarns[intent.client := Tracking(Cancelled, s.orderEarns[intent.client].attempts)])
  }

  predicate GoodTotal(total: Option<int>) { total.Some? && 0 <= total.value <= MAX_SAFE_INTEGER }

  /** `completeOrderEarn`. */
  function CompleteEarn(s: State, intent: Intent, order: Order): State {
    if !Waiting(s, intent.client) then s
    else if !order.delivered || !order.paid then s
    else
      var i := FirstAnswering(s.members, ByMember(intent.member));
      var attempts := s.orderEarns[intent.client].attempts + 1;
      if i == |s.members| || !GoodTotal(order.total) then
        s.(orderEarns := s.orderEarns[intent.client := Tracking(Failed, attempts)])
      else
        Credit(s, i, Units(order.total.value))
        .(orderEarns := s.orderEarns[intent.client := Tracking(Completed, attempts)])
  }

  /** `reconcileOrderEarnMutation`. */
  function Reconcile(s: State, orderId: string, order: Order, cancelPath: bool): State {
    if orderId !in s.intents then s
    else if cancelPath || order.cancelled || order.refunded then CancelEarn(s, s.intents[orderId])
    else CompleteEarn(s, s.intents[orderId], order)
  }

  const NO_ORDER := Order(false, false, false, false, None)

  /** One request, at one moment of the clock. */
  function Serve(s: State, r: Request, now: int): Served {
    match r
    case Prepare(op, owner) => ServePrepare(s, op, owner, now)
    case Recover(op, owner) => ServeRecover(s, op, owner, now)
    case Acknowledge(op, owner) => ServeAcknowledge(s, op, owner, now)
    case Create(id, owner, phone, termsAccepted) => ServeCreate(s, id, owner, phone, termsAccepted, now)
    case Resolve(lookup) => ServeResolve(s, lookup)
    case Earn(member, id, purchase) => ServeEarn(s, member, id, purchase)
    case Consent(member, id, granted) => ServeConsent(s, member, id, granted)
    case Redeem(member) => ServeRedeem(s, member)
    case OrderPosted(client, orderId, memberRef, earnOp) => Served(Register(s, client, orderId, memberRef, earnOp), Delegated)
    case OrderStatus(order, projection) => Served(Reconcile(s, order, projection, false), Delegated)
    case OrderCancelled(order) => Served(Reconcile(s, order, NO_ORDER, true), Delegated)
  }
}

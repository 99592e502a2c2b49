/** What one request does to the cards, and the line that it adds to the ledger. */
module LoyaltyLedger {
  import opened Wrappers
  import opened LoyaltyModel
  import opened LoyaltyFacts

  // ─── Cards ───

  predicate Names(m: Member, lookup: Lookup) {
    match lookup
    case ByMember(id) => m.id == id
    case ByQr(qr) => m.qr == qr
    case ByPhone(phone) => m.phone.Some? && Digits(m.phone.value) == Digits(phone) && Digits(phone) != ""
  }

  lemma NamesOne(s: State, lookup: Lookup, i: nat, j: nat)
    requires ServerInv(s) && i < |s.members| && j < |s.members|
    requires Names(s.members[i], lookup) && Answers(s.members[j], lookup)
    ensures i == j
  {
    if lookup.ByPhone? {
      assert SamePhone(s.members[i].phone, s.members[j].phone);
      assert SamePhone(s.members[j].phone, s.members[i].phone);
    }
  }

  lemma FindsOnly(s: State, lookup: Lookup, i: nat)
    requires ServerInv(s) && i < |s.members| && Names(s.members[i], lookup)
    ensures ServeResolve(s, lookup).answer == if Usable(s.members[i]) then Found(s.members[i]) else Error(404)
  {
    var j := FirstAnswering(s.members, lookup);
    if j < |s.members| {
      NamesOne(s, lookup, i, j);
    } else {
      assert !Answers(s.members[i], lookup);
    }
  }

  /** The card that one request makes, if any. */
  function MakesCard(s: State, r: Request, now: int): seq<OpId> {
    if r.Create? && ServeCreate(s, r.id, r.owner, r.phone, r.termsAccepted, now).state.members != s.members
    then [r.id] else []
  }

  predicate CardsFit(s: State, made: seq<OpId>) {
    |s.members| == 1 + |made| && forall k | 0 <= k < |made| :: Holds(s, made[k], s.members[k + 1].id)
  }

  /** What a request leaves of the cards: none disappears, none changes hands, what is final stays. */
  ghost predicate CardsKept(s: State, s': State) {
    && (forall op, id :: Holds(s, op, id) ==> Holds(s', op, id))
    && (forall op | op in s.enrolments :: op in s'.enrolments && EnrolmentKeeps(s.enrolments[op], s'.enrolments[op]))
    && |s.members| <= |s'.members|
    && (forall k | 0 <= k < |s.members| :: s'.members[k].id == s.members[k].id)
  }

  predicate Final(e: Enrolment) { e.phase.Acknowledged? || e.phase.Rejected? }

  predicate EnrolmentKeeps(e: Enrolment, e': Enrolment) {
    && e'.owner == e.owner && e'.expiresAt == e.expiresAt
    && (Final(e) ==> e' == e)
    && (e.phase.Ready? ==> e'.card == e.card && (e'.phase.Ready? || e'.phase.Acknowledged?))
  }

  lemma AcknowledgeKeepsCards(s: State, op: Option<OpId>, owner: Owner, now: int)
    ensures CardsKept(s, ServeAcknowledge(s, op, owner, now).state)
  {
  }

  lemma CreateKeepsCards(s: State, op: OpId, owner: Owner, phone: Option<string>, termsAccepted: bool, now: int)
    requires CardInv(s)
    ensures CardsKept(s, ServeCreate(s, op, owner, phone, termsAccepted, now).state)
  {
  }

  lemma PrepareKeepsCards(s: State, op: Option<OpId>, owner: Owner, now: int)
    ensures CardsKept(s, ServePrepare(s, op, owner, now).state)
  {
  }

  /** A credit changes neither the enrolments nor whose card is whose. */
  lemma CreditKeepsIds(s: State, r: Request, now: int)
    requires !r.Prepare? && !r.Acknowledge? && !r.Create?
    ensures var s' := Serve(s, r, now).state;
            && s'.enrolments == s.enrolments && |s'.members| == |s.members|
            && forall k | 0 <= k < |s.members| :: s'.members[k].id == s.members[k].id
  {
    if Bookkeeping(r) {
      BookkeepingKept(s, r, now);
    }
  }

  lemma OthersKeepCards(s: State, r: Request, now: int)
    requires !r.Prepare? && !r.Acknowledge? && !r.Create?
    ensures var s' := Serve(s, r, now).state;
            CardsKept(s, s') && |s'.members| == |s.members|
  {
    var s' := Serve(s, r, now).state;
    CreditKeepsIds(s, r, now);
    SameEnrolmentsKeep(s, s');
  }

  lemma SameEnrolmentsKeep(s: State, s': State)
    requires s'.enrolments == s.enrolments && |s'.members| == |s.members|
    requires forall k | 0 <= k < |s.members| :: s'.members[k].id == s.members[k].id
    ensures CardsKept(s, s')
  {
  }

  /** No request gives or takes a card otherwise than by making one. */
  lemma ServeKeepsCards(s: State, r: Request, now: int)
    requires CardInv(s)
    ensures var s' := Serve(s, r, now).state;
            CardsKept(s, s') && |s'.members| == |s.members| + |MakesCard(s, r, now)|
  {
    if r.Prepare? {
      PrepareKeepsCards(s, r.op, r.owner, now);
    } else if r.Acknowledge? {
      AcknowledgeKeepsCards(s, r.op, r.owner, now);
    } else if r.Create? {
      CreateKeepsCards(s, r.id, r.owner, r.phone, r.termsAccepted, now);
    } else {
      OthersKeepCards(s, r, now);
    }
  }

  // ─── The ledger ───

  /** Where a credit comes from. */
  datatype Source = Operation(op: OpId) | Sale(client: string)

  /** A credit, with the operation id that its request or its order carried. */
  datatype Line = Line(source: Source, op: OpId, member: MemberId, units: nat)

  /** The credit that one request makes, if any. */
  function Credits(s: State, r: Request): seq<Line> {
    match r
    case Earn(member, id, purchase) =>
      if FirstAnswering(s.members, ByMember(member)) < |s.members| && id !in s.operations
      then [Line(Operation(id), id, member, Units(purchase))] else []
    case OrderStatus(order, projection) =>
      if order in s.intents && !projection.cancelled && !projection.refunded && projection.delivered && projection.paid
         && Waiting(s, s.intents[order].client) && GoodTotal(projection.total)
         && FirstAnswering(s.members, ByMember(s.intents[order].member)) < |s.members|
      then
        var intent := s.intents[order];
        [Line(Sale(intent.client), intent.op, intent.member, Units(projection.total.value))]
      else []
    case _ => []
  }

  /** The source can give nothing any more: its operation is kept, or its sale is settled one way or another. */
  predicate Spent(s: State, source: Source) {
    match source
    case Operation(op) => op in s.operations
    case Sale(client) => client in s.orderEarns && !s.orderEarns[client].state.Pending?
  }

  lemma CreditsSpend(s: State, r: Request, now: int, source: Source)
    ensures var s' := Serve(s, r, now).state;
            && (Spent(s, source) ==> Spent(s', source))
            && (forall line | line in Credits(s, r) :: !Spent(s, line.source) && Spent(s', line.source))
  {
  }

  predicate OncePerSource(ledger: seq<Line>) {
    forall i, j | 0 <= i < j < |ledger| :: ledger[i].source != ledger[j].source
  }

  lemma OneMore(past: seq<Line>, added: seq<Line>)
    requires OncePerSource(past) && |added| <= 1
    requires forall a, b | a in past && b in added :: a.source != b.source
    ensures OncePerSource(past + added)
  {
    var ledger := past + added;
    forall i, j | 0 <= i < j < |ledger| ensures ledger[i].source != ledger[j].source {
      assert ledger[i] in past && (j < |past| || ledger[j] in added);
    }
  }

  function Balances(members: seq<Member>): int {
    if members == [] then 0 else Balances(members[..|members| - 1]) + members[|members| - 1].balance
  }

  function Total(ledger: seq<Line>): nat {
    if ledger == [] then 0 else Total(ledger[..|ledger| - 1]) + ledger[|ledger| - 1].units
  }

  /** What the ledger gave to one member. */
  function Given(ledger: seq<Line>, id: MemberId): nat {
    if ledger == [] then 0
    else
      var line := ledger[|ledger| - 1];
      Given(ledger[..|ledger| - 1], id) + if line.member == id then line.units else 0
  }

  lemma {:induction false} BalancesCredit(members: seq<Member>, i: nat, units: nat)
    requires i < |members|
    ensures Balances(members[i := Credited(members[i], units)]) == Balances(members) + units
  {
    var n := |members| - 1;
    var after := members[i := Credited(members[i], units)];
    if i < n {
      BalancesCredit(members[..n], i, units);
      assert after[..n] == members[..n][i := Credited(members[i], units)];
    } else {
      assert after[..n] == members[..n];
    }
  }

  lemma {:induction false} BalancesSame(ms: seq<Member>, ms': seq<Member>)
    requires |ms'| == |ms| && forall i | 0 <= i < |ms| :: ms'[i].balance == ms[i].balance
    ensures Balances(ms') == Balances(ms)
  {
    if ms != [] {
      BalancesSame(ms[..|ms| - 1], ms'[..|ms| - 1]);
    }
  }

  lemma ServeBalances(s: State, r: Request, now: int)
    ensures Balances(Serve(s, r, now).state.members) == Balances(s.members) + Total(Credits(s, r))
  {
    var ms, ms' := s.members, Serve(s, r, now).state.members;
    var lines := Credits(s, r);
    if lines != [] {
      assert lines[..0] == [] && Total(lines) == lines[0].units;
      BalancesCredit(ms, FirstAnswering(ms, ByMember(lines[0].member)), lines[0].units);
    } else if r.Create? && ms' != ms {
      assert ms'[..|ms|] == ms;
    } else if r.Acknowledge? && ms' != ms {
      BalancesSame(ms, ms');
    }
  }

  lemma {:induction false} TotalConcat(a: seq<Line>, b: seq<Line>)
    ensures Total(a + b) == Total(a) + Total(b)
  {
    if b == [] {
      assert a + b == a;
    } else {
      TotalConcat(a, b[..|b| - 1]);
      assert (a + b)[..|a + b| - 1] == a + b[..|b| - 1];
    }
  }

  function SeededUnits(id: MemberId): int { if id == INITIAL_MEMBER_ID then 38 else 0 }

  /** Each card has earned what the ledger gave it, and the ledger gives nothing to a card not yet made. */
  predicate Accounts(s: State, ledger: seq<Line>) {
    && (forall i | 0 <= i < |s.members| :: s.members[i].earned == SeededUnits(s.members[i].id) + Given(ledger, s.members[i].id))
    && (forall i | 0 <= i < |ledger| :: ledger[i].member <= s.sequence)
  }

  lemma {:induction false} GivenConcat(a: seq<Line>, b: seq<Line>, id: MemberId)
    ensures Given(a + b, id) == Given(a, id) + Given(b, id)
  {
    if b == [] {
      assert a + b == a;
    } else {
      GivenConcat(a, b[..|b| - 1], id);
      assert (a + b)[..|a + b| - 1] == a + b[..|b| - 1];
    }
  }

  lemma {:induction false} NothingGiven(ledger: seq<Line>, id: MemberId)
    requires forall i | 0 <= i < |ledger| :: ledger[i].member != id
    ensures Given(ledger, id) == 0
  {
    if ledger != [] {
      NothingGiven(ledger[..|ledger| - 1], id);
    }
  }

  lemma GivenOne(line: Line, id: MemberId)
    ensures Given([line], id) == if line.member == id then line.units else 0
  {
    assert [line][..0] == [];
  }

  /** What a request without a credit leaves of a card's earnings. */
  lemma NothingEarned(s: State, r: Request, now: int, i: nat)
    requires CardInv(s) && i < |s.members| && Credits(s, r) == []
    ensures i < |Serve(s, r, now).state.members| && Serve(s, r, now).state.members[i].earned == s.members[i].earned
  {
    if Bookkeeping(r) {
      BookkeepingKept(s, r, now);
    }
  }

  lemma OneEarned(s: State, r: Request, now: int, i: nat)
    requires IdInv(s.members, s.sequence) && i < |s.members| && Credits(s, r) != []
    ensures var line := Credits(s, r)[0];
            && i < |Serve(s, r, now).state.members|
            && Serve(s, r, now).state.members[i].earned
               == s.members[i].earned + if line.member == s.members[i].id then line.units else 0
  {
    var line := Credits(s, r)[0];
    var j := FirstAnswering(s.members, ByMember(line.member));
    assert s.members[j].id == line.member;
    assert Serve(s, r, now).state.members == Credit(s, j, line.units).members;
  }

  lemma ServeEarned(s: State, r: Request, now: int, i: nat)
    requires ServerInv(s) && i < |s.members|
    ensures var s' := Serve(s, r, now).state;
            i < |s'.members| && s'.members[i].earned == s.members[i].earned + Given(Credits(s, r), s.members[i].id)
  {
    var lines := Credits(s, r);
    if lines == [] {
      NothingEarned(s, r, now, i);
    } else {
      OneEarned(s, r, now, i);
      assert lines == [lines[0]];
      GivenOne(lines[0], s.members[i].id);
    }
  }

  lemma CreditsListed(s: State, r: Request)
    requires IdInv(s.members, s.sequence)
    ensures forall line | line in Credits(s, r) :: line.member <= s.sequence
  {
  }

  lemma CreateAdds(s: State, op: OpId, owner: Owner, phone: Option<string>, termsAccepted: bool, now: int)
    ensures var s' := ServeCreate(s, op, owner, phone, termsAccepted, now).state;
            && s.sequence <= s'.sequence
            && (s'.members == s.members
                || (|s'.members| == |s.members| + 1
                    && s'.members[|s.members|] == Member(s.sequence + 1, phone, Issued(s.sequence + 1), false, true, 0, 0, 0)))
  {
  }

  /** A card that a request makes has earned nothing yet. */
  lemma NewCardsEmpty(s: State, r: Request, now: int)
    requires ServerInv(s)
    ensures var s' := Serve(s, r, now).state;
            && s.sequence <= s'.sequence
            && forall i | |s.members| <= i < |s'.members| :: s'.members[i].earned == 0 && s'.members[i].id == s.sequence + 1
                                                             && Credits(s, r) == []
  {
    var s' := Serve(s, r, now).state;
    if Bookkeeping(r) {
      BookkeepingKept(s, r, now);
    } else if r.Create? {
      CreateAdds(s, r.id, r.owner, r.phone, r.termsAccepted, now);
    } else {
      assert |s'.members| == |s.members|;
    }
  }

  lemma ServeAccounts(s: State, r: Request, now: int, ledger: seq<Line>)
    requires ServerInv(s) && Accounts(s, ledger)
    ensures Accounts(Serve(s, r, now).state, ledger + Credits(s, r))
  {
    var s', lines := Serve(s, r, now).state, Credits(s, r);
    ServeKeepsCards(s, r, now);
    NewCardsEmpty(s, r, now);
    CreditsListed(s, r);
    forall i | 0 <= i < |s'.members|
      ensures s'.members[i].earned == SeededUnits(s'.members[i].id) + Given(ledger + lines, s'.members[i].id)
    {
      GivenConcat(ledger, lines, s'.members[i].id);
      if i < |s.members| {
        ServeEarned(s, r, now, i);
      } else {
        NothingGiven(ledger, s.sequence + 1);
      }
    }
    forall i | 0 <= i < |ledger + lines| ensures (ledger + lines)[i].member <= s'.sequence {
      assert (ledger + lines)[i] in ledger || (ledger + lines)[i] in lines;
    }
  }
}

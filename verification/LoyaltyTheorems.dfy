/** What the loyalty server promises: one card per operation, a card that serves once it was handed over,
  * and a ledger in which nothing counts twice. */
module LoyaltyTheorems {
  import opened Wrappers
  import opened LoyaltyModel
  import opened LoyaltyFacts
  import opened LoyaltyLedger

  // ─── Books ───

  /** The server with its history: every credit it made, every operation for which it made a card, the operation id of
    * every sale it was told of, and who first prepared each operation. */
  datatype Book = Book(state: State, ledger: seq<Line>, made: seq<OpId>, posted: map<string, OpId>, sessions: map<OpId, Owner>)

  const NEW_BOOK := Book(INITIAL, [], [], map[], map[])

  datatype Timed = Timed(request: Request, now: int)

  /** A sale is told once per client id. */
  function Posted(b: Book, r: Request): map<string, OpId> {
    if r.OrderPosted? && r.client !in b.state.orderEarns then b.posted[r.client := r.earnOp] else b.posted
  }

  /** An operation is opened by the first session that is told it is prepared. */
  function Opened(b: Book, r: Request, answer: Answer): map<OpId, Owner> {
    if r.Prepare? && r.op.Some? && r.op.value !in b.sessions && answer.PreparedAs? then b.sessions[r.op.value := r.owner]
    else b.sessions
  }

  /** One request, at any moment of the clock. */
  function After(b: Book, r: Request, now: int): Book {
    Book(Serve(b.state, r, now).state, b.ledger + Credits(b.state, r), b.made + MakesCard(b.state, r, now),
         Posted(b, r), Opened(b, r, Serve(b.state, r, now).answer))
  }

  predicate Asked(b: Book, t: Timed, b': Book) { b' == After(b, t.request, t.now) }

  /** Any requests, at any moments, lead here. */
  ghost predicate Lived(b: Book) { Reaches(Asked, NEW_BOOK, b) }

  ghost predicate BookInv(b: Book) {
    && ServerInv(b.state) && CardsFit(b.state, b.made) && Accounts(b.state, b.ledger)
    && OncePerSource(b.ledger) && (forall line | line in b.ledger :: Spent(b.state, line.source))
    && Balances(b.state.members) == Balances(INITIAL.members) + Total(b.ledger)
  }

  lemma NewBookInv()
    ensures BookInv(NEW_BOOK)
  {
    InitialInv();
  }

  lemma CardsStep(b: Book, r: Request, now: int)
    requires ServerInv(b.state) && CardsFit(b.state, b.made)
    ensures CardsFit(After(b, r, now).state, After(b, r, now).made)
  {
    var b' := After(b, r, now);
    ServeKeepsCards(b.state, r, now);
    if r.Create? {
      CreateAdds(b.state, r.id, r.owner, r.phone, r.termsAccepted, now);
    }
    forall k | 0 <= k < |b'.made| ensures Holds(b'.state, b'.made[k], b'.state.members[k + 1].id) {
      if k < |b.made| {
        assert Holds(b.state, b.made[k], b.state.members[k + 1].id);
      }
    }
  }

  lemma LedgerStep(b: Book, r: Request, now: int)
    requires OncePerSource(b.ledger) && forall line | line in b.ledger :: Spent(b.state, line.source)
    ensures var b' := After(b, r, now);
            OncePerSource(b'.ledger) && forall line | line in b'.ledger :: Spent(b'.state, line.source)
  {
    var added := Credits(b.state, r);
    CreditsSpend(b.state, r, now, Operation(""));
    OneMore(b.ledger, added);
    forall line | line in b.ledger + added ensures Spent(After(b, r, now).state, line.source) {
      if line in b.ledger {
        CreditsSpend(b.state, r, now, line.source);
      }
    }
  }

  lemma BookStep(b: Book, r: Request, now: int)
    requires BookInv(b)
    ensures BookInv(After(b, r, now))
  {
    ServeKept(b.state, r, now);
    CardsStep(b, r, now);
    LedgerStep(b, r, now);
    ServeAccounts(b.state, r, now, b.ledger);
    ServeBalances(b.state, r, now);
    TotalConcat(b.ledger, Credits(b.state, r));
  }

  lemma ReachedInv(b: Book, b': Book)
    requires BookInv(b) && Reaches(Asked, b, b')
    ensures BookInv(b')
  {
    forall x, t, y | Asked(x, t, y) && BookInv(x) ensures BookInv(y) {
      BookStep(x, t.request, t.now);
    }
    ReachKeeps(Asked, BookInv, b, b');
  }

  lemma KeptInv(b: Book)
    requires Lived(b)
    ensures BookInv(b)
  {
    NewBookInv();
    ReachedInv(NEW_BOOK, b);
  }

  // ─── Cards ───

  /** A card serves exactly when it is the seeded one or its operation was acknowledged. */
  lemma UsableIffAcknowledged(b: Book, i: nat)
    requires Lived(b) && i < |b.state.members|
    ensures var m := b.state.members[i];
            Usable(m) <==> m.id == INITIAL_MEMBER_ID || HandedOver(b.state, m.id)
  {
    KeptInv(b);
  }

  /** A member id, a code and a phone with at least one digit each find their own card, and only in use. */
  lemma ResolveFindsTheCard(b: Book, i: nat)
    requires Lived(b) && i < |b.state.members|
    ensures var m := b.state.members[i];
            && ServeResolve(b.state, ByMember(m.id)).answer == (if Usable(m) then Found(m) else Error(404))
            && ServeResolve(b.state, ByQr(m.qr)).answer == (if Usable(m) then Found(m) else Error(404))
            && (m.phone.Some? && Digits(m.phone.value) != "" ==>
                  ServeResolve(b.state, ByPhone(m.phone.value)).answer == (if Usable(m) then Found(m) else Error(404)))
  {
    KeptInv(b);
    var m := b.state.members[i];
    FindsOnly(b.state, ByMember(m.id), i);
    FindsOnly(b.state, ByQr(m.qr), i);
    if m.phone.Some? && Digits(m.phone.value) != "" {
      FindsOnly(b.state, ByPhone(m.phone.value), i);
    }
  }

  /** An operation makes at most one card, however often it is replayed; and every card but the seeded one
    * was made by the operation that still holds it. */
  lemma OneCardPerOperation(b: Book)
    requires Lived(b)
    ensures forall i, j | 0 <= i < j < |b.made| :: b.made[i] != b.made[j]
    ensures |b.state.members| == 1 + |b.made|
    ensures forall k | 0 <= k < |b.made| :: Holds(b.state, b.made[k], b.state.members[k + 1].id)
  {
    KeptInv(b);
    forall i, j | 0 <= i < j < |b.made| ensures b.made[i] != b.made[j] {
      assert Holds(b.state, b.made[i], b.state.members[i + 1].id) && Holds(b.state, b.made[j], b.state.members[j + 1].id);
    }
  }

  ghost predicate AckedBook(b: Book, op: OpId, owner: Owner) {
    ServerInv(b.state) && op in b.state.enrolments && b.state.enrolments[op].owner == owner && b.state.enrolments[op].phase.Acknowledged?
  }

  lemma AckedStep(b: Book, r: Request, now: int, op: OpId, owner: Owner)
    requires AckedBook(b, op, owner)
    ensures AckedBook(After(b, r, now), op, owner)
  {
    ServeKept(b.state, r, now);
    ServeKeepsCards(b.state, r, now);
  }

  /** Once acknowledged, an operation is acknowledged again by every replay of its owner, at any later moment,
    * expired or not, and the replay changes nothing. */
  lemma AcknowledgementReplays(b: Book, op: OpId, owner: Owner, at: int, b': Book, now: int)
    requires Lived(b) && ServeAcknowledge(b.state, Some(op), owner, at).answer.Acked?
    requires Reaches(Asked, After(b, Acknowledge(Some(op), owner), at), b')
    ensures ServeAcknowledge(b'.state, Some(op), owner, now) == Served(b'.state, Acked(true))
  {
    KeptInv(b);
    AcknowledgeKept(b.state, Some(op), owner, at);
    forall x, t, y | Asked(x, t, y) && AckedBook(x, op, owner) ensures AckedBook(y, op, owner) {
      AckedStep(x, t.request, t.now, op, owner);
    }
    ReachKeeps(Asked, x => AckedBook(x, op, owner), After(b, Acknowledge(Some(op), owner), at), b');
  }

  // ─── The ledger ───

  /** Each operation and each sale credits at most once. */
  lemma CreditsAtMostOnce(b: Book, i: nat, j: nat)
    requires Lived(b) && i < j < |b.ledger|
    ensures b.ledger[i].source != b.ledger[j].source
  {
    KeptInv(b);
  }

  /** A source that is spent, and every line that came after this book, is another source's. */
  predicate NothingFrom(b: Book, b': Book, source: Source) {
    && Spent(b'.state, source) && b.ledger <= b'.ledger
    && forall k | |b.ledger| <= k < |b'.ledger| :: b'.ledger[k].source != source
  }

  lemma NothingMore(b: Book, x: Book, r: Request, now: int, source: Source)
    requires NothingFrom(b, x, source)
    ensures NothingFrom(b, After(x, r, now), source)
  {
    CreditsSpend(x.state, r, now, source);
    var added := Credits(x.state, r);
    forall k | |b.ledger| <= k < |x.ledger + added| ensures (x.ledger + added)[k].source != source {
      if |x.ledger| <= k {
        assert added[k - |x.ledger|] in added;
      }
    }
  }

  /** What is settled, one way or another, credits nothing any more; and no line is ever taken back. */
  lemma SettledCreditsNothing(b: Book, b': Book, source: Source)
    requires Spent(b.state, source) && Reaches(Asked, b, b')
    ensures b.ledger <= b'.ledger
    ensures forall k | |b.ledger| <= k < |b'.ledger| :: b'.ledger[k].source != source
  {
    forall x, t, y | Asked(x, t, y) && NothingFrom(b, x, source) ensures NothingFrom(b, y, source) {
      NothingMore(b, x, t.request, t.now, source);
    }
    ReachKeeps(Asked, x => NothingFrom(b, x, source), b, b');
  }

  /** The answers that end a sale without a credit: the cancel route, or a status that reads cancelled or refunded. */
  predicate Undoes(r: Request, order: string) {
    || r == OrderCancelled(order)
    || (r.OrderStatus? && r.order == order && (r.projection.cancelled || r.projection.refunded))
  }

  /** A sale cancelled or refunded while its earning is pending never credits, by whichever route the news comes and
    * whatever else the answer says. */
  lemma CancelledNeverCredits(b: Book, order: string, r: Request, at: int, b': Book, line: Line)
    requires Lived(b) && order in b.state.intents && Waiting(b.state, b.state.intents[order].client)
    requires Undoes(r, order) && Reaches(Asked, After(b, r, at), b') && line in b'.ledger
    ensures line.source != Sale(b.state.intents[order].client)
  {
    var source := Sale(b.state.intents[order].client);
    var cancelled := After(b, r, at);
    KeptInv(b);
    SettledCreditsNothing(cancelled, b', source);
    var k :| 0 <= k < |b'.ledger| && b'.ledger[k] == line;
    if k < |cancelled.ledger| {
      assert cancelled.ledger == b.ledger && b.ledger[k] in b.ledger;
    }
  }

  /** The points in circulation grow by exactly what the ledger credits, whatever else is asked. */
  lemma CirculationIsTheLedger(b: Book)
    requires Lived(b)
    ensures Balances(b.state.members) == 24 + Total(b.ledger)
  {
    KeptInv(b);
    assert INITIAL.members == [SEEDED_MEMBER] && INITIAL.members[..0] == [];
    assert Balances([]) == 0;
  }

  /** A card's balance is what it was seeded with plus what the ledger gave it, and it is what it earned less
    * what it spent. */
  lemma BalanceIsTheLedger(b: Book, i: nat)
    requires Lived(b) && i < |b.state.members|
    ensures var m := b.state.members[i];
            && m.balance == m.earned - m.redeemed >= 0
            && m.earned == SeededUnits(m.id) + Given(b.ledger, m.id)
            && m.redeemed == SpentAtStart(m.id)
  {
    KeptInv(b);
  }
}

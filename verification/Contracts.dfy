/** A client's contract: the public price, the founder discount frozen at signature, and what falls due each month.
  *
  * Amounts are integers of cents.  The price grid is a parameter; a month is its absolute number, and a calendar
  * gives the instant at which a month starts.
  */
module Contracts {
  import opened Wrappers

  datatype Plan = Essentiel | Complet | Boost
  datatype Cadence = Hebdo | Bihebdo

  datatype Grid = Grid(essentiel: nat, complet: nat, boost: nat, ordering: nat, presence: nat, hebdo: nat, bihebdo: nat)

  /** The grid in force. */
  const PUBLIC_GRID := Grid(9_900, 15_900, 19_900, 7_900, 6_900, 14_900, 24_900)

  const YEARLY_MONTHS_BILLED := 10

  datatype Offer = Offer(
    plan: Option<Plan>, ordering: bool, presence: bool, social: Option<Cadence>,
    founderUntil: Option<int>, discount: Option<int>, yearly: bool)

  // ─── The public price ───

  function PlanCents(g: Grid, o: Offer): nat {
    match o.plan
    case None => 0
    case Some(Essentiel) => g.essentiel
    case Some(Complet) => g.complet
    case Some(Boost) => g.boost
  }

  /** Boost includes the ordering module. */
  function OrderingCents(g: Grid, o: Offer): nat {
    if o.ordering && o.plan != Some(Boost) then g.ordering else 0
  }

  function PresenceCents(g: Grid, o: Offer): nat { if o.presence then g.presence else 0 }

  function SocialCents(g: Grid, o: Offer): nat {
    match o.social
    case None => 0
    case Some(Hebdo) => g.hebdo
    case Some(Bihebdo) => g.bihebdo
  }

  /** `tarifPublicMensuel`. */
  function Software(g: Grid, o: Offer): nat { PlanCents(g, o) + OrderingCents(g, o) }
  function Services(g: Grid, o: Offer): nat { PresenceCents(g, o) + SocialCents(g, o) }
  function Public(g: Grid, o: Offer): nat { Software(g, o) + Services(g, o) }

  // ─── The founder discount ───

  /** `remiseFondateurCents`: half, the odd half-cent to the client. */
  function HalfUp(cents: nat): (half: nat)
    ensures cents <= 2 * half <= cents + 1
  {
    (cents + 1) / 2
  }

  /** `prixFondateurCents`. */
  function FounderPrice(cents: nat): nat { cents - HalfUp(cents) }

  function Odd(cents: nat): nat { cents % 2 }

  /** `remiseFondateurContrat`: component by component, frozen at signature. */
  function ContractDiscount(g: Grid, o: Offer): nat {
    HalfUp(PlanCents(g, o)) + HalfUp(OrderingCents(g, o)) + HalfUp(PresenceCents(g, o)) + HalfUp(SocialCents(g, o))
  }

  /** `remiseFondateurActive`: no date is no discount, never a discount for life. */
  predicate Active(o: Offer, now: int) { o.founderUntil.Some? && now < o.founderUntil.value }

  /** `remiseFondateurDue`. */
  function DiscountDue(g: Grid, o: Offer, now: int): nat {
    if !Active(o, now) then 0 else Min(Max(0, o.discount.GetOr(0)), Public(g, o))
  }

  /** `abonnementMensuelCents`. */
  function MonthlyBill(g: Grid, o: Offer, now: int): nat {
    Max(0, Public(g, o) - DiscountDue(g, o, now))
  }

  /** `chiffrageFondateur` on the two monthly lines of the quote. */
  function FounderQuote(g: Grid, o: Offer): nat { FounderPrice(Software(g, o)) + FounderPrice(Services(g, o)) }

  /** Each option adds its own price, whatever else is bought; only the ordering module is free under Boost. */
  lemma OptionsAddTheirPrice(g: Grid, o: Offer)
    ensures Public(g, o) - Public(g, o.(presence := false)) == (if o.presence then g.presence else 0)
    ensures Public(g, o) - Public(g, o.(ordering := false)) == (if o.ordering && o.plan != Some(Boost) then g.ordering else 0)
    ensures Public(g, o.(social := Some(Hebdo))) - Public(g, o.(social := None)) == g.hebdo
    ensures Public(g, o.(social := Some(Bihebdo))) - Public(g, o.(social := None)) == g.bihebdo
    ensures Public(g, Offer(None, o.ordering, false, None, o.founderUntil, o.discount, o.yearly))
         == (if o.ordering then g.ordering else 0)
    ensures Public(g, Offer(Some(Essentiel), false, false, None, o.founderUntil, o.discount, o.yearly)) == g.essentiel
    ensures Public(g, Offer(Some(Complet), false, false, None, o.founderUntil, o.discount, o.yearly)) == g.complet
    ensures Public(g, Offer(Some(Boost), o.ordering, false, None, o.founderUntil, o.discount, o.yearly)) == g.boost
    ensures Services(g, o.(plan := None, ordering := false)) == Public(g, o.(plan := None, ordering := false))
    ensures Software(g, o.(presence := false, social := None)) == Public(g, o.(presence := false, social := None))
  {
  }

  /** What the grid in force asks for the three plans with everything else that can be bought. */
  lemma PricesInForce(o: Offer)
    requires o.ordering && o.presence && o.social == Some(Hebdo)
    ensures Public(PUBLIC_GRID, o.(plan := Some(Essentiel))) == 9_900 + 7_900 + 6_900 + 14_900
    ensures Public(PUBLIC_GRID, o.(plan := Some(Complet))) == 15_900 + 7_900 + 6_900 + 14_900
    ensures Public(PUBLIC_GRID, o.(plan := Some(Boost), social := Some(Bihebdo))) == 19_900 + 6_900 + 24_900
  {
  }

  /** The discount runs up to its date, excluded; it takes the amount that was frozen, never more than the price. */
  lemma DiscountIsFrozen(g: Grid, o: Offer, now: int)
    ensures o.founderUntil.None? || o.founderUntil.value <= now ==> MonthlyBill(g, o, now) == Public(g, o)
    ensures o.founderUntil.Some? && now < o.founderUntil.value && o.discount.Some? && 0 <= o.discount.value <= Public(g, o) ==>
              MonthlyBill(g, o, now) == Public(g, o) - o.discount.value
    ensures o.founderUntil.Some? && now < o.founderUntil.value && o.discount.Some? && Public(g, o) < o.discount.value ==>
              MonthlyBill(g, o, now) == 0
    ensures o.discount.None? || o.discount.value < 0 ==> MonthlyBill(g, o, now) == Public(g, o)
  {
  }

  /** Twice the frozen discount is the public price plus one cent for each odd component: it exceeds half the
    * total by half a cent per odd component, and never by more than two cents. */
  lemma DiscountIsHalfUpPerComponent(g: Grid, o: Offer)
    ensures 2 * ContractDiscount(g, o)
         == Public(g, o) + Odd(PlanCents(g, o)) + Odd(OrderingCents(g, o)) + Odd(PresenceCents(g, o)) + Odd(SocialCents(g, o))
    ensures Public(g, o) <= 2 * ContractDiscount(g, o) <= Public(g, o) + 4
    ensures ContractDiscount(g, o) <= Public(g, o)
  {
    HalfUpIsExact(PlanCents(g, o));
    HalfUpIsExact(OrderingCents(g, o));
    HalfUpIsExact(PresenceCents(g, o));
    HalfUpIsExact(SocialCents(g, o));
  }

  lemma HalfUpIsExact(cents: nat)
    ensures 2 * HalfUp(cents) == cents + Odd(cents)
  {
  }

  /** A contract signed under the discount, while it runs. */
  predicate Signed(g: Grid, o: Offer, now: int) {
    Active(o, now) && o.discount == Some(ContractDiscount(g, o))
  }

  /** The first bill is the quote, except that two odd prices on one line of the quote round once there and twice
    * in the contract: the bill is then a cent lower, for each such line. */
  lemma BillAgainstQuote(g: Grid, o: Offer, now: int)
    requires Signed(g, o, now)
    ensures FounderQuote(g, o) - MonthlyBill(g, o, now)
         == Odd(PlanCents(g, o)) * Odd(OrderingCents(g, o)) + Odd(PresenceCents(g, o)) * Odd(SocialCents(g, o))
  {
    DiscountIsHalfUpPerComponent(g, o);
    assert MonthlyBill(g, o, now) == Public(g, o) - ContractDiscount(g, o);
    LineAgainstQuote(PlanCents(g, o), OrderingCents(g, o));
    LineAgainstQuote(PresenceCents(g, o), SocialCents(g, o));
  }

  /** Rounding two prices apart instead of together. */
  lemma LineAgainstQuote(a: nat, b: nat)
    ensures FounderPrice(a + b) - (a + b - HalfUp(a) - HalfUp(b)) == Odd(a) * Odd(b)
  {
    HalfUpIsExact(a);
    HalfUpIsExact(b);
    HalfUpIsExact(a + b);
    OddOfSum(a, b);
  }

  lemma OddOfSum(a: nat, b: nat)
    ensures Odd(a + b) == Odd(a) + Odd(b) - 2 * Odd(a) * Odd(b)
  {
    assert Odd(a) == 0 || Odd(a) == 1;
    assert Odd(b) == 0 || Odd(b) == 1;
  }

  lemma BillIsQuoteIff(g: Grid, o: Offer, now: int)
    requires Signed(g, o, now)
    ensures MonthlyBill(g, o, now) == FounderQuote(g, o) <==>
              && !(Odd(PlanCents(g, o)) == 1 && Odd(OrderingCents(g, o)) == 1)
              && !(Odd(PresenceCents(g, o)) == 1 && Odd(SocialCents(g, o)) == 1)
  {
    BillAgainstQuote(g, o, now);
    assert Odd(PlanCents(g, o)) == 0 || Odd(PlanCents(g, o)) == 1;
    assert Odd(PresenceCents(g, o)) == 0 || Odd(PresenceCents(g, o)) == 1;
  }

  /** On the grid in force the bill is always the quote. */
  lemma BillIsQuoteToday(o: Offer, now: int)
    requires Signed(PUBLIC_GRID, o, now)
    ensures MonthlyBill(PUBLIC_GRID, o, now) == FounderQuote(PUBLIC_GRID, o)
  {
    BillIsQuoteIff(PUBLIC_GRID, o, now);
  }

  /** Under the same frozen discount, a change of offer that adds `added` to the public price adds exactly that
    * to the bill if and only if the discount was not already larger than the whole price. */
  lemma AdditionAtPublicPrice(g: Grid, o: Offer, o': Offer, now: int)
    requires o'.founderUntil == o.founderUntil && o'.discount == o.discount && Public(g, o) < Public(g, o')
    ensures MonthlyBill(g, o', now) - MonthlyBill(g, o, now) == Public(g, o') - Public(g, o)
            <==> !Active(o, now) || o.discount.GetOr(0) <= Public(g, o)
  {
  }

  /** Whatever was signed, what is added later is paid at its public price, and what is removed never makes the
    * bill negative nor larger. */
  lemma FrozenAtSignature(g: Grid, signed: Offer, later: Offer, now: int)
    requires Signed(g, signed, now) && later.founderUntil == signed.founderUntil && later.discount == signed.discount
    ensures Public(g, signed) <= Public(g, later) ==>
              MonthlyBill(g, later, now) == MonthlyBill(g, signed, now) + Public(g, later) - Public(g, signed)
    ensures Public(g, later) <= Public(g, signed) ==> 0 <= MonthlyBill(g, later, now) <= MonthlyBill(g, signed, now)
  {
    DiscountIsHalfUpPerComponent(g, signed);
  }

  // ─── What falls due ───

  datatype Nature = SoftwareLine | ServicesLine

  datatype Due = Due(nature: Nature, yearly: bool, cents: nat)

  /** What is left of the software once the discount was taken from it first. */
  function NetSoftware(g: Grid, o: Offer, now: int): nat {
    Software(g, o) - Min(DiscountDue(g, o, now), Software(g, o))
  }

  function NetServices(g: Grid, o: Offer, now: int): nat {
    Services(g, o) - (DiscountDue(g, o, now) - Min(DiscountDue(g, o, now), Software(g, o)))
  }

  function SoftwareDue(g: Grid, o: Offer, now: int): seq<Due> {
    var net := NetSoftware(g, o, now);
    if net == 0 then []
    else [Due(SoftwareLine, o.yearly, if o.yearly then net * YEARLY_MONTHS_BILLED else net)]
  }

  function ServicesDue(g: Grid, o: Offer, now: int): seq<Due> {
    var net := NetServices(g, o, now);
    if net == 0 then [] else [Due(ServicesLine, false, net)]
  }

  function Lines(g: Grid, o: Offer, now: int): seq<Due> { SoftwareDue(g, o, now) + ServicesDue(g, o, now) }

  function Sum(lines: seq<Due>): nat {
    if lines == [] then 0 else Sum(lines[..|lines| - 1]) + lines[|lines| - 1].cents
  }

  /** A line of nothing is no line. */
  function LineOf(nature: Nature, yearly: bool, cents: int): seq<Due> {
    if cents <= 0 then [] else [Due(nature, yearly, cents)]
  }

  /** The lines of an offer under a discount that comes off the software before it touches the services: as long as the
    * software can bear it the services are due whole, and beyond that only what is left of both is due, as services. */
  function SoftwareFirst(o: Offer, software: nat, services: nat, discount: nat): seq<Due> {
    if discount <= software
    then LineOf(SoftwareLine, o.yearly, if o.yearly then 10 * (software - discount) else software - discount)
         + LineOf(ServicesLine, false, services)
    else LineOf(ServicesLine, false, software + services - discount)
  }

  lemma DiscountComesOffTheSoftwareFirst(g: Grid, o: Offer, now: int)
    ensures Lines(g, o, now) == SoftwareFirst(o, Software(g, o), Services(g, o), DiscountDue(g, o, now))
  {
    var net := NetSoftware(g, o, now);
    assert DiscountDue(g, o, now) <= Public(g, o);
    if Software(g, o) < DiscountDue(g, o, now) {
      assert SoftwareDue(g, o, now) == [];
    } else {
      assert net == Software(g, o) - DiscountDue(g, o, now) && NetServices(g, o, now) == Services(g, o);
    }
  }

  /** `echeancesDues`: the lines are pushed one after the other, and a line of zero is left out. */
  method DueLines(g: Grid, o: Offer, now: int) returns (lines: seq<Due>)
    ensures lines == Lines(g, o, now)
    ensures forall l | l in lines :: 0 < l.cents
    ensures lines == SoftwareFirst(o, Software(g, o), Services(g, o), DiscountDue(g, o, now))
  {
    var software, services := Software(g, o), Services(g, o);
    var discount := DiscountDue(g, o, now);
    var onSoftware := Min(discount, software);
    lines := [];
    if software - onSoftware > 0 {
      var net := software - onSoftware;
      lines := lines + [if o.yearly then Due(SoftwareLine, true, net * YEARLY_MONTHS_BILLED) else Due(SoftwareLine, false, net)];
    }
    if services - (discount - onSoftware) > 0 {
      lines := lines + [Due(ServicesLine, false, services - (discount - onSoftware))];
    }
    DiscountComesOffTheSoftwareFirst(g, o, now);
  }

  /** The discount is spread over the two nets without losing a cent. */
  lemma NetsAddUp(g: Grid, o: Offer, now: int)
    ensures NetSoftware(g, o, now) + NetServices(g, o, now) == MonthlyBill(g, o, now)
  {
  }

  /** A client who pays by the month is asked for exactly the monthly bill. */
  lemma MonthlyLinesSumToTheBill(g: Grid, o: Offer, now: int)
    requires !o.yearly
    ensures Sum(Lines(g, o, now)) == MonthlyBill(g, o, now)
  {
    SumOfLines(g, o, now);
    NetsAddUp(g, o, now);
  }

  lemma {:induction false} SumConcat(a: seq<Due>, b: seq<Due>)
    ensures Sum(a + b) == Sum(a) + Sum(b)
  {
    if b == [] {
      assert a + b == a;
    } else {
      SumConcat(a, b[..|b| - 1]);
      assert (a + b)[..|a + b| - 1] == a + b[..|b| - 1];
    }
  }

  lemma SumOne(l: Due)
    ensures Sum([l]) == l.cents
  {
    assert [l][..0] == [];
  }

  lemma SumOfLines(g: Grid, o: Offer, now: int)
    ensures Sum(Lines(g, o, now))
         == NetSoftware(g, o, now) * (if o.yearly then YEARLY_MONTHS_BILLED else 1) + NetServices(g, o, now)
  {
    SumConcat(SoftwareDue(g, o, now), ServicesDue(g, o, now));
    SumOfEach(g, o, now);
  }

  lemma SumOfEach(g: Grid, o: Offer, now: int)
    ensures Sum(SoftwareDue(g, o, now)) == NetSoftware(g, o, now) * (if o.yearly then YEARLY_MONTHS_BILLED else 1)
    ensures Sum(ServicesDue(g, o, now)) == NetServices(g, o, now)
  {
    if NetSoftware(g, o, now) != 0 {
      SumOne(SoftwareDue(g, o, now)[0]);
    }
    if NetServices(g, o, now) != 0 {
      SumOne(ServicesDue(g, o, now)[0]);
    }
  }

  /** `echeanceDuMois`: a yearly line only falls due in its anniversary month, or always without a signature date. */
  function FallingDue(lines: seq<Due>, month: int, signed: Option<int>): seq<Due> {
    if lines == [] then []
    else
      var n := |lines| - 1;
      FallingDue(lines[..n], month, signed)
      + if !lines[n].yearly || signed.None? || signed.value % 12 == month % 12 then [lines[n]] else []
  }

  function MonthDue(g: Grid, o: Offer, month: int, signed: Option<int>, now: int): nat {
    Sum(FallingDue(Lines(g, o, now), month, signed))
  }

  predicate Anniversary(month: int, signed: Option<int>) { signed.None? || signed.value % 12 == month % 12 }

  lemma {:induction false} FallingDueConcat(a: seq<Due>, b: seq<Due>, month: int, signed: Option<int>)
    ensures FallingDue(a + b, month, signed) == FallingDue(a, month, signed) + FallingDue(b, month, signed)
  {
    if b == [] {
      assert a + b == a;
    } else {
      FallingDueConcat(a, b[..|b| - 1], month, signed);
      assert (a + b)[..|a + b| - 1] == a + b[..|b| - 1];
    }
  }

  lemma FallingDueOne(l: Due, month: int, signed: Option<int>)
    ensures FallingDue([l], month, signed) == if !l.yearly || Anniversary(month, signed) then [l] else []
  {
    assert [l][..0] == [];
  }

  lemma SoftwareOnMonth(g: Grid, o: Offer, month: int, signed: Option<int>, now: int)
    ensures Sum(FallingDue(SoftwareDue(g, o, now), month, signed))
         == OnMonth(o.yearly, Anniversary(month, signed), NetSoftware(g, o, now))
  {
    if NetSoftware(g, o, now) != 0 {
      var l := SoftwareDue(g, o, now)[0];
      FallingDueOne(l, month, signed);
      SumOne(l);
    }
  }

  lemma ServicesOnMonth(g: Grid, o: Offer, month: int, signed: Option<int>, now: int)
    ensures Sum(FallingDue(ServicesDue(g, o, now), month, signed)) == NetServices(g, o, now)
  {
    if NetServices(g, o, now) != 0 {
      var l := ServicesDue(g, o, now)[0];
      FallingDueOne(l, month, signed);
      SumOne(l);
    }
  }

  /** What a month owes, in closed form. */
  lemma MonthDueIs(g: Grid, o: Offer, month: int, signed: Option<int>, now: int)
    ensures MonthDue(g, o, month, signed, now) == OnMonth(o.yearly, Anniversary(month, signed), NetSoftware(g, o, now)) + NetServices(g, o, now)
  {
    var a, b := SoftwareDue(g, o, now), ServicesDue(g, o, now);
    FallingDueConcat(a, b, month, signed);
    SumConcat(FallingDue(a, month, signed), FallingDue(b, month, signed));
    SoftwareOnMonth(g, o, month, signed, now);
    ServicesOnMonth(g, o, month, signed, now);
  }

  /** The software's part of a month. */
  function OnMonth(yearly: bool, anniversary: bool, net: nat): nat {
    if !yearly then net else if anniversary then net * YEARLY_MONTHS_BILLED else 0
  }

  // ─── A year of dues ───

  /** What each month owes, the discount being looked up at the instant that the month starts. */
  function Dues(g: Grid, o: Offer, signed: Option<int>, at: int -> int): int -> nat {
    m => MonthDue(g, o, m, signed, at(m))
  }

  /** The dues of `months` months from `first`. */
  function Span(due: int -> nat, first: int, months: nat): nat {
    if months == 0 then 0 else Span(due, first, months - 1) + due(first + months - 1)
  }

  /** `mrrNormaliseCents`: a yearly line counts for a twelfth, rounded down. */
  function NormalisedMrr(g: Grid, o: Offer, now: int): nat {
    (if o.yearly then NetSoftware(g, o, now) * YEARLY_MONTHS_BILLED / 12 else NetSoftware(g, o, now)) + NetServices(g, o, now)
  }

  function Twelfths(lines: seq<Due>): nat {
    if lines == [] then 0
    else
      var n := |lines| - 1;
      Twelfths(lines[..n]) + if lines[n].yearly then lines[n].cents / 12 else lines[n].cents
  }

  /** It is the sum over the lines that are due. */
  lemma NormalisedMrrIsASum(g: Grid, o: Offer, now: int)
    ensures NormalisedMrr(g, o, now) == Twelfths(Lines(g, o, now))
  {
    var a, b := SoftwareDue(g, o, now), ServicesDue(g, o, now);
    TwelfthsConcat(a, b);
    if a != [] {
      assert a == [a[0]] && a[..0] == [];
    }
    if b != [] {
      assert b == [b[0]] && b[..0] == [];
    }
  }

  lemma {:induction false} TwelfthsConcat(a: seq<Due>, b: seq<Due>)
    ensures Twelfths(a + b) == Twelfths(a) + Twelfths(b)
  {
    if b == [] {
      assert a + b == a;
    } else {
      TwelfthsConcat(a, b[..|b| - 1]);
      assert (a + b)[..|a + b| - 1] == a + b[..|b| - 1];
    }
  }

  lemma OneMonthMore(months: nat, services: nat)
    ensures (months + 1) * services == months * services + services
  {
  }

  /** A yearly client's months: the services each month, the software when its anniversary comes. */
  lemma {:induction false} SpanOfYearly(due: int -> nat, first: int, months: nat, signed: int, software: nat, services: nat)
    requires months <= 12
    requires forall m | first <= m < first + months :: due(m) == OnMonth(true, Anniversary(m, Some(signed)), software) + services
    ensures Span(due, first, months) == OnMonth(true, (signed - first) % 12 < months, software) + months * services
  {
    if months != 0 {
      SpanOfYearly(due, first, months - 1, signed, software, services);
      OneMonthMore(months - 1, services);
      ComesOnce(first, months - 1, signed);
    }
  }

  /** Within a year the anniversary comes once. */
  lemma ComesOnce(first: int, k: nat, signed: int)
    requires k < 12
    ensures Anniversary(first + k, Some(signed)) <==> (signed - first) % 12 == k
  {
  }

  /** Over any twelve consecutive months of an unchanged discount, a yearly client owes ten times the software and
    * twelve times the services, whenever the year starts; that is at least twelve normalised months and never
    * more than ten cents above them. */
  lemma YearOfDues(g: Grid, o: Offer, first: int, signed: int, at: int -> int, now: int)
    requires o.yearly
    requires forall m | first <= m < first + 12 :: Active(o, at(m)) <==> Active(o, now)
    ensures var year := Span(Dues(g, o, Some(signed), at), first, 12);
            && year == 10 * NetSoftware(g, o, now) + 12 * NetServices(g, o, now)
            && 12 * NormalisedMrr(g, o, now) <= year <= 12 * NormalisedMrr(g, o, now) + 10
  {
    var due := Dues(g, o, Some(signed), at);
    forall m | first <= m < first + 12
      ensures due(m) == OnMonth(true, Anniversary(m, Some(signed)), NetSoftware(g, o, now)) + NetServices(g, o, now)
    {
      MonthDueIs(g, o, m, Some(signed), at(m));
      SameDiscount(g, o, at(m), now);
    }
    SpanOfYearly(due, first, 12, signed, NetSoftware(g, o, now), NetServices(g, o, now));
    TwelfthRounding(NetSoftware(g, o, now));
  }

  lemma SameDiscount(g: Grid, o: Offer, now: int, later: int)
    requires Active(o, now) <==> Active(o, later)
    ensures NetSoftware(g, o, now) == NetSoftware(g, o, later) && NetServices(g, o, now) == NetServices(g, o, later)
  {
  }

  lemma TwelfthRounding(software: nat)
    ensures 12 * (software * YEARLY_MONTHS_BILLED / 12) <= 10 * software <= 12 * (software * YEARLY_MONTHS_BILLED / 12) + 10
  {
    var q, r := software * 10 / 12, software * 10 % 12;
    assert software * 10 == 12 * q + r;
    assert r == 2 * (5 * software - 6 * q);
  }

  // ─── The next payment ───

  datatype Projection = Projection(month: int, cents: nat)

  /** The next month that owes something, looking `tries` months ahead. */
  function FirstOwing(due: int -> nat, after: int, tries: nat): Option<Projection>
    decreases tries
  {
    if tries == 0 then None
    else if due(after + 1) > 0 then Some(Projection(after + 1, due(after + 1)))
    else FirstOwing(due, after + 1, tries - 1)
  }

  /** The loop of twelve tries. */
  method Search(due: int -> nat, month: int) returns (next: Option<Projection>)
    ensures next == FirstOwing(due, month, 12)
  {
    var key := month;
    for tries := 0 to 12
      invariant key == month + tries
      invariant FirstOwing(due, month, 12) == FirstOwing(due, key, 12 - tries)
    {
      key := key + 1;
      var cents := due(key);
      if cents > 0 { return Some(Projection(key, cents)); }
    }
    return None;
  }

  /** What a client is shown: nothing unless the client is billable and pays something this month. */
  function Shown(g: Grid, o: Offer, mrrCents: int, signed: Option<int>, billable: bool, month: int, at: int -> int): Option<Projection> {
    if billable && 0 < mrrCents then FirstOwing(Dues(g, o, signed, at), month, 12) else None
  }

  /** `nextInvoiceDue`, once no issued piece is due: twelve tries from the month of `now`. */
  method NextDue(g: Grid, o: Offer, mrrCents: int, signed: Option<int>, billable: bool, month: int, at: int -> int)
    returns (next: Option<Projection>)
    ensures next == Shown(g, o, mrrCents, signed, billable, month, at)
    ensures !billable || mrrCents <= 0 ==> next.None?
    ensures billable && 0 < mrrCents && next.None? ==> forall m | month < m <= month + 12 :: MonthDue(g, o, m, signed, at(m)) == 0
  {
    FirstOwingIsFirst(Dues(g, o, signed, at), month, 12);
    assert forall m :: Dues(g, o, signed, at)(m) == MonthDue(g, o, m, signed, at(m));
    if !billable || mrrCents <= 0 { return None; }
    next := Search(Dues(g, o, signed, at), month);
  }

  /** What the search returns is the first month that owes, and nothing is found only when none of them owes. */
  lemma {:induction false} FirstOwingIsFirst(due: int -> nat, after: int, tries: nat)
    ensures var found := FirstOwing(due, after, tries);
            && (found.Some? ==>
                  && after < found.value.month <= after + tries
                  && found.value.cents == due(found.value.month) > 0
                  && forall m | after < m < found.value.month :: due(m) == 0)
            && (found.None? ==> forall m | after < m <= after + tries :: due(m) == 0)
    decreases tries
  {
    if tries != 0 {
      FirstOwingIsFirst(due, after + 1, tries - 1);
    }
  }

  /** The discount can only lapse: what a month bills never falls as time goes on. */
  lemma BillOnlyRises(g: Grid, o: Offer, now: int, later: int)
    requires now <= later
    ensures MonthlyBill(g, o, now) <= MonthlyBill(g, o, later)
  {
  }

  /** The month in which the search must stop at the latest. */
  function LatestMonth(month: int, signed: Option<int>): (m: int)
    ensures month < m <= month + 12 && Anniversary(m, signed)
  {
    if signed.None? then month + 1 else month + 1 + (signed.value - month - 1) % 12
  }

  /** A billable client with a positive bill today is always shown a next payment within twelve months, even if the
    * discount lapses on the way, and even one who signed for the year and buys no service. */
  lemma PositiveBillIsProjected(g: Grid, o: Offer, month: int, signed: Option<int>, at: int -> int, now: int)
    requires 0 < MonthlyBill(g, o, now)
    requires forall m | month < m :: now <= at(m)
    ensures Shown(g, o, MonthlyBill(g, o, now), signed, true, month, at).Some?
  {
    var due := Dues(g, o, signed, at);
    var m := LatestMonth(month, signed);
    FirstOwingIsFirst(due, month, 12);
    BillOnlyRises(g, o, now, at(m));
    NetsAddUp(g, o, at(m));
    MonthDueIs(g, o, m, signed, at(m));
    assert due(m) > 0;
  }

  /** One of the next twelve months owes something. */
  predicate OwesWithinAYear(g: Grid, o: Offer, month: int, signed: Option<int>, at: int -> int) {
    exists m :: month < m <= month + 12 && 0 < MonthDue(g, o, m, signed, at(m))
  }

  /** A month that starts without the discount and in which something of the offer falls due. */
  predicate FullPriceMonth(g: Grid, o: Offer, m: int, signed: Option<int>, at: int -> int) {
    !Active(o, at(m)) && (0 < Services(g, o) || (0 < Software(g, o) && (!o.yearly || Anniversary(m, signed))))
  }

  predicate FullPriceWithinAYear(g: Grid, o: Offer, month: int, signed: Option<int>, at: int -> int) {
    exists m :: month < m <= month + 12 && FullPriceMonth(g, o, m, signed, at)
  }

  /** What a covered client owes in a month: nothing under the discount, the public price without it. */
  lemma CoveredMonth(g: Grid, o: Offer, m: int, signed: Option<int>, at: int -> int, now: int)
    requires MonthlyBill(g, o, now) == 0
    ensures 0 < MonthDue(g, o, m, signed, at(m)) <==> FullPriceMonth(g, o, m, signed, at)
  {
    MonthDueIs(g, o, m, signed, at(m));
    NetsAddUp(g, o, at(m));
    if Active(o, at(m)) && Active(o, now) {
      SameDiscount(g, o, at(m), now);
      NetsAddUp(g, o, now);
    }
  }

  /** The page of a client is given the bill of the month as the recurrent amount (`abonnementMensuelCents`, in
    * my-billing.service.ts, lines 120 to 142): a payment that falls due within the
    * year is not shown if and only if the discount covers that bill and one of the twelve months starts without it
    * and owes something at the public price. */
  lemma PaymentHiddenIff(g: Grid, o: Offer, month: int, signed: Option<int>, at: int -> int, now: int)
    ensures Shown(g, o, MonthlyBill(g, o, now), signed, true, month, at).None? && OwesWithinAYear(g, o, month, signed, at)
            <==> MonthlyBill(g, o, now) == 0 && FullPriceWithinAYear(g, o, month, signed, at)
  {
    var due := Dues(g, o, signed, at);
    FirstOwingIsFirst(due, month, 12);
    if MonthlyBill(g, o, now) == 0 {
      forall m | month < m <= month + 12
        ensures 0 < MonthDue(g, o, m, signed, at(m)) <==> FullPriceMonth(g, o, m, signed, at)
      {
        CoveredMonth(g, o, m, signed, at, now);
      }
    } else if OwesWithinAYear(g, o, month, signed, at) {
      var m :| month < m <= month + 12 && 0 < MonthDue(g, o, m, signed, at(m));
      assert due(m) > 0;
    }
  }
}

/** What a client owes as time goes on: effective statuses, the outstanding balance and the payment score. */
module Billing {
  import opened Wrappers
  import Vat

  const DAY_MS := 86_400_000

  datatype Kind = Subscription | SetUp | Extra | Other | CreditNote

  datatype Status = Draft | Sent | Late | Paid | Cancelled

  /** An issued piece as it is stored; instants are in milliseconds. */
  datatype Invoice = Invoice(kind: Kind, stored: Status, dueAt: int, amount: int, vat: Vat.Regime)

  /** `effectiveInvoiceStatus`. */
  function Effective(stored: Status, dueAt: int, now: int): Status {
    if stored.Paid? || stored.Cancelled? || stored.Draft? then stored
    else if dueAt < now then Late
    else Sent
  }

  /** `daysLate`. */
  function DaysLate(dueAt: int, now: int): int { Max(0, (now - dueAt) / DAY_MS) }

  /** A piece as a screen reads it; what is due on a credit note is nothing. */
  datatype View = View(kind: Kind, status: Status, dueAt: int, due: int, dueWithTax: int)

  /** `invoiceView`. */
  function ViewOf(i: Invoice, now: int): View {
    var status := if i.kind.CreditNote? then i.stored else Effective(i.stored, i.dueAt, now);
    var owes := !i.kind.CreditNote? && (status.Sent? || status.Late?);
    View(i.kind, status, i.dueAt, if owes then i.amount else 0,
         if owes then Vat.TotalsOf(i.amount, i.vat).gross else 0)
  }

  function Views(invoices: seq<Invoice>, now: int): seq<View> {
    seq(|invoices|, k requires 0 <= k < |invoices| => ViewOf(invoices[k], now))
  }

  datatype Outstanding = Outstanding(
    total: int, totalWithTax: int, count: nat, overdue: int, overdueWithTax: int, overdueCount: nat,
    oldest: Option<int>, oldestDays: int)

  // ─── The sums, piece by piece ───

  function Owed(v: View): int { if v.due > 0 then v.due else 0 }
  function OwedWithTax(v: View): int { if v.due > 0 then v.dueWithTax else 0 }
  predicate Overdue(v: View) { v.due > 0 && v.status.Late? }

  function Total(views: seq<View>): int {
    if views == [] then 0 else Total(views[..|views| - 1]) + Owed(views[|views| - 1])
  }

  function TotalWithTax(views: seq<View>): int {
    if views == [] then 0 else TotalWithTax(views[..|views| - 1]) + OwedWithTax(views[|views| - 1])
  }

  function CountOwed(views: seq<View>): nat {
    if views == [] then 0 else CountOwed(views[..|views| - 1]) + if views[|views| - 1].due > 0 then 1 else 0
  }

  function OverdueTotal(views: seq<View>): int {
    if views == [] then 0
    else OverdueTotal(views[..|views| - 1]) + if Overdue(views[|views| - 1]) then views[|views| - 1].due else 0
  }

  function OverdueWithTax(views: seq<View>): int {
    if views == [] then 0
    else OverdueWithTax(views[..|views| - 1]) + if Overdue(views[|views| - 1]) then views[|views| - 1].dueWithTax else 0
  }

  function OverdueCount(views: seq<View>): nat {
    if views == [] then 0 else OverdueCount(views[..|views| - 1]) + if Overdue(views[|views| - 1]) then 1 else 0
  }

  /** The earliest deadline among the overdue pieces. */
  function Oldest(views: seq<View>): Option<int> {
    if views == [] then None
    else
      var before, v := Oldest(views[..|views| - 1]), views[|views| - 1];
      if !Overdue(v) then before
      else if before.None? || v.dueAt < before.value then Some(v.dueAt)
      else before
  }

  function Summary(views: seq<View>, now: int): Outstanding {
    var oldest := Oldest(views);
    Outstanding(Total(views), TotalWithTax(views), CountOwed(views), OverdueTotal(views), OverdueWithTax(views),
                OverdueCount(views), oldest, if oldest.Some? then DaysLate(oldest.value, now) else 0)
  }

  /** `summarizeOutstanding`: one pass over the pieces. */
  method SummarizeOutstanding(views: seq<View>, now: int) returns (o: Outstanding)
    ensures o == Summary(views, now)
  {
    var total, totalWithTax, count := 0, 0, 0;
    var overdue, overdueWithTax, overdueCount := 0, 0, 0;
    var oldest: Option<int> := None;
    for i := 0 to |views|
      invariant total == Total(views[..i]) && totalWithTax == TotalWithTax(views[..i]) && count == CountOwed(views[..i])
      invariant overdue == OverdueTotal(views[..i]) && overdueWithTax == OverdueWithTax(views[..i])
      invariant overdueCount == OverdueCount(views[..i]) && oldest == Oldest(views[..i])
    {
      var v := views[i];
      assert views[..i + 1][..i] == views[..i];
      if v.due <= 0 { continue; }
      total, totalWithTax, count := total + v.due, totalWithTax + v.dueWithTax, count + 1;
      if !v.status.Late? { continue; }
      overdue, overdueWithTax, overdueCount := overdue + v.due, overdueWithTax + v.dueWithTax, overdueCount + 1;
      if oldest.None? || v.dueAt < oldest.value {
        oldest := Some(v.dueAt);
      }
    }
    assert views[..|views|] == views;
    o := Outstanding(total, totalWithTax, count, overdue, overdueWithTax, overdueCount, oldest,
                     if oldest.Some? then DaysLate(oldest.value, now) else 0);
  }

  /** The oldest is the deadline of an overdue piece, and no overdue piece is older. */
  lemma {:induction false} OldestIsEarliest(views: seq<View>)
    ensures Oldest(views).None? <==> OverdueCount(views) == 0
    ensures Oldest(views).None? <==> forall k | 0 <= k < |views| :: !Overdue(views[k])
    ensures Oldest(views).Some? ==> exists k :: 0 <= k < |views| && Overdue(views[k]) && views[k].dueAt == Oldest(views).value
    ensures Oldest(views).Some? ==> forall k | 0 <= k < |views| && Overdue(views[k]) :: Oldest(views).value <= views[k].dueAt
  {
    if views != [] {
      var n := |views| - 1;
      OldestIsEarliest(views[..n]);
      assert views == views[..n] + [views[n]];
    }
  }

  /** What a stored piece is and owes: settled, cancelled and draft pieces, and credit notes, are what they are stored
    * as and owe nothing; any other owes its whole amount and is late exactly when its deadline is past, whatever it was
    * stored as. */
  lemma DueByStatus(i: Invoice, now: int)
    ensures var v := ViewOf(i, now);
            if i.kind.CreditNote? then v.status == i.stored && v.due == 0 && v.dueWithTax == 0
            else if i.stored.Paid? || i.stored.Cancelled? || i.stored.Draft?
            then v.status == i.stored && v.due == 0 && v.dueWithTax == 0
            else v.due == i.amount && v.dueWithTax == Vat.TotalsOf(i.amount, i.vat).gross
                 && v.status == (if i.dueAt < now then Late else Sent)
  {
  }

  /** The summary of no piece, and of one. */
  lemma SummaryOfOne(v: View, now: int)
    ensures Summary([], now) == Outstanding(0, 0, 0, 0, 0, 0, None, 0)
    ensures v.due <= 0 ==> Summary([v], now) == Summary([], now)
    ensures 0 < v.due && v.status != Late ==> Summary([v], now) == Outstanding(v.due, v.dueWithTax, 1, 0, 0, 0, None, 0)
    ensures 0 < v.due && v.status == Late ==>
              Summary([v], now) == Outstanding(v.due, v.dueWithTax, 1, v.due, v.dueWithTax, 1, Some(v.dueAt),
                                               if v.dueAt <= now then (now - v.dueAt) / 86_400_000 else 0)
  {
    assert [v][..0] == [];
    assert v.dueAt <= now ==> (now - v.dueAt) / DAY_MS >= 0;
    assert now < v.dueAt ==> (now - v.dueAt) / DAY_MS <= 0;
  }

  /** Two lists of pieces add up, and the older of their oldest overdue deadlines is that of both: with the summary of
    * one piece, this determines the summary of any list. */
  lemma SummariesAddUp(a: seq<View>, b: seq<View>, now: int)
    ensures var s, t, u := Summary(a, now), Summary(b, now), Summary(a + b, now);
            && u.total == s.total + t.total && u.totalWithTax == s.totalWithTax + t.totalWithTax && u.count == s.count + t.count
            && u.overdue == s.overdue + t.overdue && u.overdueWithTax == s.overdueWithTax + t.overdueWithTax
            && u.overdueCount == s.overdueCount + t.overdueCount
            && u.oldest == (if s.oldest.None? then t.oldest
                            else if t.oldest.None? then s.oldest
                            else Some(Min(s.oldest.value, t.oldest.value)))
            && u.oldestDays == Max(s.oldestDays, t.oldestDays)
  {
    SumsConcat(a, b);
    OldestConcat(a, b);
    if Oldest(a).Some? && Oldest(b).Some? {
      OlderIsLater(Oldest(a).value, Oldest(b).value, now);
    }
  }

  lemma OlderIsLater(x: int, y: int, now: int)
    ensures DaysLate(Min(x, y), now) == Max(DaysLate(x, now), DaysLate(y, now))
  {
  }

  lemma {:induction false} OldestConcat(a: seq<View>, b: seq<View>)
    ensures Oldest(a + b) == if Oldest(a).None? then Oldest(b)
                             else if Oldest(b).None? then Oldest(a)
                             else Some(Min(Oldest(a).value, Oldest(b).value))
  {
    if b == [] {
      assert a + b == a;
    } else {
      OldestConcat(a, b[..|b| - 1]);
      assert (a + b)[..|a + b| - 1] == a + b[..|b| - 1];
    }
  }

  // ─── As time goes on ───

  /** One piece, looked at twice: what it owes is the same, and once overdue it stays overdue. */
  lemma PieceOverTime(i: Invoice, now: int, later: int)
    requires now <= later
    ensures var v, w := ViewOf(i, now), ViewOf(i, later);
            && w.due == v.due && w.dueWithTax == v.dueWithTax && w.dueAt == v.dueAt
            && (Overdue(v) ==> Overdue(w))
            && (Overdue(w) && !Overdue(v) ==> now <= v.dueAt < later)
            && (Overdue(v) ==> v.dueAt < now)
  {
  }

  lemma {:induction false} SumsOverTime(invoices: seq<Invoice>, now: int, later: int)
    requires now <= later
    ensures var vs, ws := Views(invoices, now), Views(invoices, later);
            && Total(ws) == Total(vs) && TotalWithTax(ws) == TotalWithTax(vs) && CountOwed(ws) == CountOwed(vs)
            && OverdueTotal(vs) <= OverdueTotal(ws) <= Total(ws) && OverdueCount(vs) <= OverdueCount(ws)
  {
    if invoices != [] {
      var n := |invoices| - 1;
      var vs, ws := Views(invoices, now), Views(invoices, later);
      SumsOverTime(invoices[..n], now, later);
      assert vs[..n] == Views(invoices[..n], now) && ws[..n] == Views(invoices[..n], later);
      PieceOverTime(invoices[n], now, later);
    }
  }

  /** A piece that becomes overdue later is never older than one that was overdue before. */
  lemma OldestStays(invoices: seq<Invoice>, now: int, later: int)
    requires now <= later && Oldest(Views(invoices, now)).Some?
    ensures Oldest(Views(invoices, later)) == Oldest(Views(invoices, now))
  {
    var vs, ws := Views(invoices, now), Views(invoices, later);
    OldestIsEarliest(vs);
    OldestIsEarliest(ws);
    var k :| 0 <= k < |vs| && Overdue(vs[k]) && vs[k].dueAt == Oldest(vs).value;
    PieceOverTime(invoices[k], now, later);
    assert Overdue(ws[k]);
    var j :| 0 <= j < |ws| && Overdue(ws[j]) && ws[j].dueAt == Oldest(ws).value;
    PieceOverTime(invoices[j], now, later);
    assert ws[j].dueAt <= ws[k].dueAt < now;
    assert Overdue(vs[j]);
  }

  /** With the same pieces, later: the balance is the same, the overdue part has not shrunk, and the oldest overdue
    * piece is the one it was. */
  lemma OutstandingOverTime(invoices: seq<Invoice>, now: int, later: int)
    requires now <= later
    ensures var a, b := Summary(Views(invoices, now), now), Summary(Views(invoices, later), later);
            && b.total == a.total && b.totalWithTax == a.totalWithTax && b.count == a.count
            && a.overdue <= b.overdue <= b.total && a.overdueCount <= b.overdueCount
            && (a.oldest.Some? ==> b.oldest == a.oldest)
            && a.oldestDays <= b.oldestDays
  {
    SumsOverTime(invoices, now, later);
    if Oldest(Views(invoices, now)).Some? {
      OldestStays(invoices, now, later);
    }
  }

  // ─── Credit notes ───

  lemma {:induction false} SumsConcat(a: seq<View>, b: seq<View>)
    ensures Total(a + b) == Total(a) + Total(b) && TotalWithTax(a + b) == TotalWithTax(a) + TotalWithTax(b)
    ensures CountOwed(a + b) == CountOwed(a) + CountOwed(b) && OverdueTotal(a + b) == OverdueTotal(a) + OverdueTotal(b)
    ensures OverdueWithTax(a + b) == OverdueWithTax(a) + OverdueWithTax(b) && OverdueCount(a + b) == OverdueCount(a) + OverdueCount(b)
  {
    if b == [] {
      assert a + b == a;
    } else {
      SumsConcat(a, b[..|b| - 1]);
      assert (a + b)[..|a + b| - 1] == a + b[..|b| - 1];
    }
  }

  lemma {:induction false} OldestWithout(a: seq<View>, v: View, b: seq<View>)
    requires !Overdue(v)
    ensures Oldest(a + [v] + b) == Oldest(a + b)
  {
    if b == [] {
      assert a + [v] + b == a + [v] && a + b == a;
      assert (a + [v])[..|a|] == a;
    } else {
      var n := |b| - 1;
      OldestWithout(a, v, b[..n]);
      assert (a + [v] + b)[..|a| + 1 + n] == a + [v] + b[..n];
      assert (a + b)[..|a| + n] == a + b[..n];
    }
  }

  /** A piece that owes nothing adds nothing. */
  lemma NothingOwed(v: View)
    requires v.due <= 0
    ensures Total([v]) == 0 && TotalWithTax([v]) == 0 && CountOwed([v]) == 0
    ensures OverdueTotal([v]) == 0 && OverdueWithTax([v]) == 0 && OverdueCount([v]) == 0
  {
    assert [v][..0] == [];
  }

  lemma NothingChanges(vs: seq<View>, v: View, ws: seq<View>, now: int)
    requires v.due <= 0
    ensures Summary(vs + [v] + ws, now) == Summary(vs + ws, now)
  {
    SumsConcat(vs + [v], ws);
    SumsConcat(vs, [v]);
    SumsConcat(vs, ws);
    NothingOwed(v);
    OldestWithout(vs, v, ws);
  }

  /** A credit note, wherever it stands and whatever its amount, changes nothing in the balance. */
  lemma CreditNoteChangesNothing(a: seq<Invoice>, note: Invoice, b: seq<Invoice>, now: int)
    requires note.kind.CreditNote?
    ensures Summary(Views(a + [note] + b, now), now) == Summary(Views(a + b, now), now)
  {
    var vs, ws := Views(a, now), Views(b, now);
    var v := ViewOf(note, now);
    assert Views(a + [note] + b, now) == vs + [v] + ws;
    assert Views(a + b, now) == vs + ws;
    NothingChanges(vs, v, ws, now);
  }

  // ─── The payment score ───

  datatype Account = Trial | Current | Suspended | Churned

  /** `PAYMENT_SCORE_BANDS`, from the gravest. */
  const BANDS: seq<(int, int)> := [(60, 0), (30, 20), (15, 40), (8, 60), (1, 80)]

  /** The score of the first band that the delay reaches. */
  function BandScore(days: int, bands: seq<(int, int)>): int {
    if bands == [] then 80 else if days >= bands[0].0 then bands[0].1 else BandScore(days, bands[1..])
  }

  /** `paiementAxis`. */
  function Score(account: Account, o: Outstanding): int {
    if account.Suspended? then 0
    else if o.overdueCount > 0 then BandScore(o.oldestDays, BANDS)
    else if account.Churned? then 50
    else 100
  }

  lemma BandsDescend(days: int, more: int)
    requires days <= more
    ensures BandScore(more, BANDS) <= BandScore(days, BANDS) <= 80
    ensures BandScore(days, BANDS) > 50 <==> days < 15
  {
    BandValues(days);
    BandValues(more);
  }

  lemma BandValues(days: int)
    ensures BandScore(days, BANDS) == if days >= 60 then 0 else if days >= 30 then 20 else if days >= 15 then 40 else if days >= 8 then 60 else 80
  {
    var b4 := [(1, 80)];
    var b3 := [(8, 60)] + b4;
    var b2 := [(15, 40)] + b3;
    var b1 := [(30, 20)] + b2;
    assert BANDS == [(60, 0)] + b1;
    assert b4[1..] == [] && b3[1..] == b4 && b2[1..] == b3 && b1[1..] == b2 && BANDS[1..] == b1;
    assert BandScore(days, b4) == 80;
    assert BandScore(days, b3) == if days >= 8 then 60 else 80;
    assert BandScore(days, b2) == if days >= 15 then 40 else if days >= 8 then 60 else 80;
  }

  /** The score, by account and by the delay of the oldest overdue piece. */
  lemma ScoreIs(account: Account, o: Outstanding)
    ensures account == Suspended ==> Score(account, o) == 0
    ensures account != Suspended && 0 < o.overdueCount ==>
              Score(account, o) == if o.oldestDays >= 60 then 0 else if o.oldestDays >= 30 then 20
                                   else if o.oldestDays >= 15 then 40 else if o.oldestDays >= 8 then 60 else 80
    ensures account != Suspended && o.overdueCount == 0 ==> Score(account, o) == if account == Churned then 50 else 100
  {
    BandValues(o.oldestDays);
  }

  /** With the same pieces, the score rises as time goes on in one case exactly: a client who has left, whose first
    * piece has become overdue by less than fifteen days.  Every other score never rises. */
  lemma ScoreRisesIff(account: Account, invoices: seq<Invoice>, now: int, later: int)
    requires now <= later
    ensures var a, b := Summary(Views(invoices, now), now), Summary(Views(invoices, later), later);
            Score(account, b) > Score(account, a) <==>
              account.Churned? && a.overdueCount == 0 && b.overdueCount > 0 && b.oldestDays < 15
  {
    var a, b := Summary(Views(invoices, now), now), Summary(Views(invoices, later), later);
    OutstandingOverTime(invoices, now, later);
    BandsDescend(a.oldestDays, b.oldestDays);
    BandsDescend(b.oldestDays, b.oldestDays);
  }

  /** A client who left with one unpaid piece scores better the day after its deadline than the day before. */
  lemma ChurnedScoreRises(dueAt: int, amount: int)
    requires 0 < amount
    ensures var invoices := [Invoice(Subscription, Sent, dueAt, amount, Vat.LEGACY)];
            && Score(Churned, Summary(Views(invoices, dueAt), dueAt)) == 50
            && Score(Churned, Summary(Views(invoices, dueAt + DAY_MS), dueAt + DAY_MS)) == 80
  {
    var invoices := [Invoice(Subscription, Sent, dueAt, amount, Vat.LEGACY)];
    var a, b := Views(invoices, dueAt), Views(invoices, dueAt + DAY_MS);
    assert a == [ViewOf(invoices[0], dueAt)] && b == [ViewOf(invoices[0], dueAt + DAY_MS)];
    assert a[..0] == [] && b[..0] == [];
    assert !Overdue(a[0]) && Overdue(b[0]);
    assert Oldest([]) == None && OverdueCount([]) == 0;
    assert Oldest(b) == Some(dueAt) && OverdueCount(b) == 1 && OverdueCount(a) == 0;
    BandValues(1);
  }
}

/** Kitchen tickets: which status wins, how an order is merged into a list, and the board between polls. */
module Tickets {
  import opened Wrappers

  datatype Status = New | Preparing | Ready | Delivered | Cancelled

  function Rank(s: Status): int {
    match s
    case New => 0
    case Preparing => 1
    case Ready => 2
    case Delivered => 3
    case Cancelled => -1
  }

  predicate Terminal(s: Status) { s.Delivered? || s.Cancelled? }

  /** The statuses that the board shows. */
  predicate OnBoard(s: Status) { s.New? || s.Preparing? || s.Ready? }

  function NextStatus(s: Status): Option<Status> {
    match s
    case New => Some(Preparing)
    case Preparing => Some(Ready)
    case Ready => Some(Delivered)
    case _ => None
  }

  /** `mostAdvancedStatus`. */
  function MostAdvanced(current: Status, incoming: Status): Status {
    if current == incoming then current
    else if Terminal(current) then current
    else if Terminal(incoming) then incoming
    else if Rank(incoming) > Rank(current) then incoming
    else current
  }

  // ─── A sequence of statuses ───

  function Reconciled(first: Status, later: seq<Status>): Status { Fold(MostAdvanced, first, later) }

  function FirstTerminal(all: seq<Status>): (first: Option<Status>)
    ensures first.Some? ==> Terminal(first.value)
  {
    if all == [] then None
    else
      var before, last := FirstTerminal(all[..|all| - 1]), all[|all| - 1];
      if before.Some? then before else if Terminal(last) then Some(last) else None
  }

  lemma {:induction false} FirstTerminalIsFirst(all: seq<Status>)
    ensures FirstTerminal(all).None? <==> forall k | 0 <= k < |all| :: !Terminal(all[k])
    ensures FirstTerminal(all).Some? ==>
              exists k :: 0 <= k < |all| && Terminal(all[k]) && FirstTerminal(all) == Some(all[k]) && FirstTerminal(all[..k]).None?
  {
    if all != [] {
      var n := |all| - 1;
      FirstTerminalIsFirst(all[..n]);
      if FirstTerminal(all[..n]).Some? {
        var k :| 0 <= k < n && Terminal(all[..n][k]) && FirstTerminal(all[..n]) == Some(all[..n][k]) && FirstTerminal(all[..n][..k]).None?;
        assert all[..n][..k] == all[..k];
      }
      assert forall k | 0 <= k < n :: all[..n][k] == all[k];
    }
  }

  /** Whatever comes in, in whatever order and however often: the first terminal status is final, and without one
    * the highest rank wins. */
  lemma {:induction false} FirstTerminalElseHighest(first: Status, later: seq<Status>)
    ensures var s := Reconciled(first, later);
            var all := [first] + later;
            && s in all
            && (FirstTerminal(all).Some? ==> FirstTerminal(all) == Some(s))
            && (FirstTerminal(all).None? ==> !Terminal(s) && forall k | 0 <= k < |all| :: Rank(all[k]) <= Rank(s))
  {
    if later == [] {
      assert [first] + later == [first] && [first][..0] == [];
      assert FirstTerminal([]) == None;
    } else {
      var n := |later| - 1;
      var before := [first] + later[..n];
      FirstTerminalElseHighest(first, later[..n]);
      assert [first] + later == before + [later[n]];
      assert (before + [later[n]])[..|before|] == before;
    }
  }

  // ─── Merging an order into a list ───

  datatype Order = Order(id: string, client: Option<string>, status: Status, content: int)

  /** Two records of the same order: by id, or by a client id that both carry. */
  predicate Same(a: Order, b: Order) {
    a.id == b.id || (a.client.Some? && a.client.value != "" && a.client == b.client)
  }

  function Find(list: seq<Order>, o: Order): (i: nat)
    ensures i <= |list|
    ensures i < |list| ==> Same(list[i], o)
    ensures forall j | 0 <= j < i :: !Same(list[j], o)
  {
    First(list, (x: Order) => Same(x, o))
  }

  function Merged(current: Order, incoming: Order): Order {
    Order(incoming.id, if incoming.client.Some? then incoming.client else current.client,
          MostAdvanced(current.status, incoming.status), incoming.content)
  }

  /** `mergeOrder`. */
  function Merge(list: seq<Order>, o: Order): seq<Order> {
    var i := Find(list, o);
    if i == |list| then [o] + list else list[i := Merged(list[i], o)]
  }

  /** A merge shows the incoming order: its id, its content, its client id unless it has none; every other order of the
    * list stays as it was, in its place. */
  lemma MergeTakesTheIncoming(list: seq<Order>, o: Order)
    ensures var i, list' := Find(list, o), Merge(list, o);
            if i == |list| then list' == [o] + list
            else && |list'| == |list| && list'[i].id == o.id && list'[i].content == o.content
                 && list'[i].client == (if o.client.Some? then o.client else list[i].client)
                 && forall j | 0 <= j < |list| && j != i :: list'[j] == list[j]
  {
  }

  predicate UniqueIds(list: seq<Order>) {
    forall i, j | 0 <= i < j < |list| :: list[i].id != list[j].id
  }

  /** A merge keeps ids unique if and only if no order behind the one it matched carries the incoming id: a match by
    * client id must not rename an order into another one. */
  lemma MergeUniqueIff(list: seq<Order>, o: Order)
    requires UniqueIds(list)
    ensures UniqueIds(Merge(list, o)) <==> forall j | Find(list, o) < j < |list| :: list[j].id != o.id
  {
    var i := Find(list, o);
    var list' := Merge(list, o);
    if i == |list| {
      assert forall j | 0 <= j < |list| :: list'[j + 1] == list[j];
    } else {
      assert list'[i].id == o.id;
      assert forall j | 0 <= j < |list| && j != i :: list'[j] == list[j];
    }
  }

  /** Client ids that stand for one order each, and each order for one client id. */
  ghost predicate OneToOne(clientOf: string -> string) {
    forall a, b :: clientOf(a) == clientOf(b) ==> a == b
  }

  predicate Stands(o: Order, clientOf: string -> string) {
    o.client.Some? ==> o.client.value == clientOf(o.id)
  }

  predicate AllStand(list: seq<Order>, clientOf: string -> string) {
    forall i | 0 <= i < |list| :: Stands(list[i], clientOf)
  }

  lemma SameIsSameId(a: Order, b: Order, clientOf: string -> string)
    requires OneToOne(clientOf) && Stands(a, clientOf) && Stands(b, clientOf)
    ensures Same(a, b) <==> a.id == b.id
  {
  }

  function Ids(list: seq<Order>): set<string> { set i | 0 <= i < |list| :: list[i].id }

  /** The status of a listed order. */
  function StatusOf(list: seq<Order>, id: string): (s: Status)
    requires id in Ids(list)
    ensures exists i :: 0 <= i < |list| && list[i].id == id && list[i].status == s
  {
    var i := First(list, (x: Order) => x.id == id);
    list[i].status
  }

  ghost predicate Good(list: seq<Order>, clientOf: string -> string) {
    UniqueIds(list) && AllStand(list, clientOf) && forall i | 0 <= i < |list| :: OnBoard(list[i].status)
  }

  lemma StatusAt(list: seq<Order>, i: nat)
    requires UniqueIds(list) && i < |list|
    ensures list[i].id in Ids(list) && StatusOf(list, list[i].id) == list[i].status
  {
    var id := list[i].id;
    assert id in Ids(list);
    var j :| 0 <= j < |list| && list[j].id == id && list[j].status == StatusOf(list, id);
  }

  /** A new order at the head. */
  lemma PrependGood(list: seq<Order>, o: Order, clientOf: string -> string)
    requires Good(list, clientOf) && Stands(o, clientOf) && OnBoard(o.status) && o.id !in Ids(list)
    ensures Good([o] + list, clientOf)
    ensures forall id | id in Ids(list) :: id in Ids([o] + list) && StatusOf([o] + list, id) == StatusOf(list, id)
  {
    var list' := [o] + list;
    assert forall j | 0 <= j < |list| :: list'[j + 1] == list[j];
    forall i, j | 0 <= i < j < |list'| ensures list'[i].id != list'[j].id {
      assert list'[j] == list[j - 1] && list[j - 1].id in Ids(list);
    }
    forall id | id in Ids(list) ensures id in Ids(list') && StatusOf(list', id) == StatusOf(list, id) {
      var j :| 0 <= j < |list| && list[j].id == id;
      StatusAt(list, j);
      StatusAt(list', j + 1);
    }
  }

  /** A newer record of an order in its place. */
  lemma ReplaceGood(list: seq<Order>, i: nat, o: Order, clientOf: string -> string)
    requires Good(list, clientOf) && i < |list| && Stands(o, clientOf) && OnBoard(o.status)
    requires o.id == list[i].id && Rank(list[i].status) <= Rank(o.status)
    ensures Good(list[i := o], clientOf)
    ensures forall id | id in Ids(list) :: id in Ids(list[i := o]) && Rank(StatusOf(list, id)) <= Rank(StatusOf(list[i := o], id))
  {
    var list' := list[i := o];
    forall id | id in Ids(list) ensures id in Ids(list') && Rank(StatusOf(list, id)) <= Rank(StatusOf(list', id)) {
      var j :| 0 <= j < |list| && list[j].id == id;
      StatusAt(list, j);
      StatusAt(list', j);
    }
  }

  /** When ids and client ids correspond, a merge adds at most the incoming order, keeps ids unique, leaves every
    * other order alone, and never sends one back. */
  lemma MergeGood(list: seq<Order>, o: Order, clientOf: string -> string)
    requires OneToOne(clientOf) && Good(list, clientOf) && Stands(o, clientOf) && OnBoard(o.status)
    ensures var list' := Merge(list, o);
            && Good(list', clientOf) && Ids(list') == Ids(list) + {o.id}
            && forall id | id in Ids(list) :: Rank(StatusOf(list, id)) <= Rank(StatusOf(list', id))
  {
    var i := Find(list, o);
    if i == |list| {
      assert forall j | 0 <= j < |list| :: list[j].id != o.id;
      PrependGood(list, o, clientOf);
    } else {
      SameIsSameId(list[i], o, clientOf);
      ReplaceGood(list, i, Merged(list[i], o), clientOf);
    }
    MergeIds(list, o);
  }

  lemma MergeIds(list: seq<Order>, o: Order)
    requires Find(list, o) < |list| ==> list[Find(list, o)].id == o.id
    ensures Ids(Merge(list, o)) == Ids(list) + {o.id}
  {
    var i := Find(list, o);
    var list' := Merge(list, o);
    var k := if i == |list| then 1 else 0;
    assert list'[if i == |list| then 0 else i].id == o.id;
    forall j | 0 <= j < |list| ensures list[j].id in Ids(list') {
      assert list'[j + k].id == list[j].id;
    }
    forall j' | 0 <= j' < |list'| ensures list'[j'].id in Ids(list) + {o.id} {
      if j' != (if i == |list| then 0 else i) {
        assert list'[j'] == list[j' - k];
      }
    }
  }

  // ─── The board ───

  datatype Board = Board(orders: seq<Order>, delivered: set<string>)

  datatype Event = Poll(rows: seq<Order>) | Committed(order: Order, next: Status)

  function MergeRows(list: seq<Order>, rows: seq<Order>, delivered: set<string>): seq<Order> {
    if rows == [] then list
    else
      var n := |rows| - 1;
      var before := MergeRows(list, rows[..n], delivered);
      if rows[n].id in delivered then before else Merge(before, rows[n])
  }

  function Kept(list: seq<Order>, ids: set<string>): seq<Order> {
    if list == [] then []
    else
      var n := |list| - 1;
      Kept(list[..n], ids) + if list[n].id in ids && OnBoard(list[n].status) then [list[n]] else []
  }

  /** `poll`, once the server's pages are there. */
  function Polled(b: Board, rows: seq<Order>): Board {
    var delivered := b.delivered * Ids(rows);
    Board(Kept(MergeRows(b.orders, rows, delivered), Ids(rows) - delivered), delivered)
  }

  /** `advance`, once its gesture is durable. */
  function Advanced(b: Board, o: Order, next: Status): Board {
    if next.Delivered? then Board(Without(b.orders, o.id), b.delivered + {o.id})
    else b.(orders := Merge(b.orders, o.(status := next)))
  }

  function Without(list: seq<Order>, id: string): seq<Order> {
    if list == [] then []
    else Without(list[..|list| - 1], id) + if list[|list| - 1].id == id then [] else [list[|list| - 1]]
  }

  function Step(b: Board, e: Event): Board {
    match e
    case Poll(rows) => Polled(b, rows)
    case Committed(order, next) => Advanced(b, order, next)
  }

  /** The server lists board tickets, and a gesture moves a board ticket one status on. */
  ghost predicate Admissible(e: Event, clientOf: string -> string) {
    match e
    case Poll(rows) => AllStand(rows, clientOf) && forall i | 0 <= i < |rows| :: OnBoard(rows[i].status)
    case Committed(order, next) => Stands(order, clientOf) && NextStatus(order.status) == Some(next)
  }

  /** The list is good, holds these ids, and shows no order of the other one further back. */
  ghost predicate Ahead(list: seq<Order>, list': seq<Order>, added: set<string>, clientOf: string -> string) {
    && Good(list', clientOf) && Ids(list') == Ids(list) + added
    && forall id | id in Ids(list) :: Rank(StatusOf(list, id)) <= Rank(StatusOf(list', id))
  }

  lemma MergeAhead(list: seq<Order>, before: seq<Order>, added: set<string>, o: Order, clientOf: string -> string)
    requires OneToOne(clientOf) && Ahead(list, before, added, clientOf) && Stands(o, clientOf) && OnBoard(o.status)
    ensures Ahead(list, Merge(before, o), added + {o.id}, clientOf)
  {
    MergeGood(before, o, clientOf);
  }

  /** One more row, merged or passed over. */
  lemma RowAhead(list: seq<Order>, before: seq<Order>, rows: seq<Order>, delivered: set<string>, clientOf: string -> string)
    requires OneToOne(clientOf) && rows != []
    requires var n := |rows| - 1;
             && Ahead(list, before, Ids(rows[..n]) - delivered, clientOf) && Stands(rows[n], clientOf) && OnBoard(rows[n].status)
    ensures var o := rows[|rows| - 1];
            Ahead(list, if o.id in delivered then before else Merge(before, o), Ids(rows) - delivered, clientOf)
  {
    var n := |rows| - 1;
    IdsOfInit(rows);
    if rows[n].id in delivered {
      assert Ids(rows) - delivered == Ids(rows[..n]) - delivered;
    } else {
      MergeAhead(list, before, Ids(rows[..n]) - delivered, rows[n], clientOf);
      assert Ids(rows) - delivered == Ids(rows[..n]) - delivered + {rows[n].id};
    }
  }

  lemma {:induction false} MergeRowsGood(list: seq<Order>, rows: seq<Order>, delivered: set<string>, clientOf: string -> string)
    requires OneToOne(clientOf) && Good(list, clientOf) && AllStand(rows, clientOf)
    requires forall i | 0 <= i < |rows| :: OnBoard(rows[i].status)
    ensures Ahead(list, MergeRows(list, rows, delivered), Ids(rows) - delivered, clientOf)
  {
    if rows != [] {
      var n := |rows| - 1;
      MergeRowsGood(list, rows[..n], delivered, clientOf);
      RowAhead(list, MergeRows(list, rows[..n], delivered), rows, delivered, clientOf);
    }
  }

  lemma IdsOfInit(rows: seq<Order>)
    requires rows != []
    ensures Ids(rows) == Ids(rows[..|rows| - 1]) + {rows[|rows| - 1].id}
  {
    assert forall i | 0 <= i < |rows| - 1 :: rows[..|rows| - 1][i] == rows[i];
  }

  lemma {:induction false} KeptFrom(list: seq<Order>, ids: set<string>)
    ensures forall o :: o in Kept(list, ids) <==> o in list && o.id in ids && OnBoard(o.status)
    ensures UniqueIds(list) ==> UniqueIds(Kept(list, ids))
  {
    if list != [] {
      var n := |list| - 1;
      KeptFrom(list[..n], ids);
      assert list == list[..n] + [list[n]];
      if UniqueIds(list) {
        OneMoreUnique(Kept(list[..n], ids), list[..n], list[n]);
      }
    }
  }

  lemma OneMoreUnique(kept: seq<Order>, list: seq<Order>, o: Order)
    requires UniqueIds(kept) && UniqueIds(list + [o]) && forall x | x in kept :: x in list
    ensures UniqueIds(kept + [o])
  {
    forall i | 0 <= i < |kept| ensures kept[i].id != o.id {
      assert kept[i] in list;
      var j :| 0 <= j < |list| && list[j] == kept[i];
      assert (list + [o])[j] == list[j] && (list + [o])[|list|] == o;
    }
  }

  lemma {:induction false} WithoutFrom(list: seq<Order>, id: string)
    ensures forall o :: o in Without(list, id) <==> o in list && o.id != id
    ensures UniqueIds(list) ==> UniqueIds(Without(list, id))
  {
    if list != [] {
      var n := |list| - 1;
      WithoutFrom(list[..n], id);
      assert list == list[..n] + [list[n]];
      if UniqueIds(list) {
        OneMoreUnique(Without(list[..n], id), list[..n], list[n]);
      }
    }
  }

  /** A part of a good list is good, and shows the same statuses. */
  lemma PartGood(list: seq<Order>, part: seq<Order>, clientOf: string -> string)
    requires Good(list, clientOf) && UniqueIds(part) && forall o | o in part :: o in list
    ensures Good(part, clientOf) && Ids(part) <= Ids(list)
    ensures forall id | id in Ids(part) :: StatusOf(part, id) == StatusOf(list, id)
  {
    forall i | 0 <= i < |part| ensures exists j :: 0 <= j < |list| && list[j] == part[i] {
      assert part[i] in part;
    }
    forall i | 0 <= i < |part| ensures part[i].id in Ids(list) && StatusOf(part, part[i].id) == StatusOf(list, part[i].id) {
      var j :| 0 <= j < |list| && list[j] == part[i];
      StatusAt(part, i);
      StatusAt(list, j);
    }
  }

  /** One event: the board stays good, and no ticket that is still there has gone back. */
  ghost predicate Forward(b: Board, b': Board) {
    forall id | id in Ids(b.orders) && id in Ids(b'.orders) :: Rank(StatusOf(b.orders, id)) <= Rank(StatusOf(b'.orders, id))
  }

  lemma PollGood(b: Board, rows: seq<Order>, clientOf: string -> string)
    requires OneToOne(clientOf) && Good(b.orders, clientOf) && Admissible(Poll(rows), clientOf)
    ensures var b' := Polled(b, rows);
            && Good(b'.orders, clientOf) && Forward(b, b')
            && Ids(b'.orders) == Ids(rows) - b'.delivered && b'.delivered <= b.delivered
  {
    var b' := Polled(b, rows);
    var merged := MergeRows(b.orders, rows, b'.delivered);
    MergeRowsGood(b.orders, rows, b'.delivered, clientOf);
    KeptFrom(merged, Ids(rows) - b'.delivered);
    PartGood(merged, b'.orders, clientOf);
    forall id | id in Ids(rows) - b'.delivered ensures id in Ids(b'.orders) {
      assert id in Ids(merged);
      var j :| 0 <= j < |merged| && merged[j].id == id;
      assert merged[j] in b'.orders;
    }
    forall id | id in Ids(b'.orders) ensures id in Ids(rows) - b'.delivered {
      var j :| 0 <= j < |b'.orders| && b'.orders[j].id == id;
      assert b'.orders[j] in b'.orders;
    }
  }

  lemma AdvanceGood(b: Board, o: Order, next: Status, clientOf: string -> string)
    requires OneToOne(clientOf) && Good(b.orders, clientOf) && Admissible(Committed(o, next), clientOf)
    ensures Good(Advanced(b, o, next).orders, clientOf) && Forward(b, Advanced(b, o, next))
  {
    if next.Delivered? {
      WithoutFrom(b.orders, o.id);
      PartGood(b.orders, Without(b.orders, o.id), clientOf);
    } else {
      MergeGood(b.orders, o.(status := next), clientOf);
    }
  }

  /** A new order at the head: its status is its own, no other moves. */
  lemma PrependStatus(list: seq<Order>, o: Order, id: string)
    requires UniqueIds(list) && UniqueIds([o] + list) && id in Ids(list) + {o.id}
    ensures id in Ids([o] + list) && StatusOf([o] + list, id) == if id == o.id then o.status else StatusOf(list, id)
  {
    var list' := [o] + list;
    assert list'[0] == o;
    StatusAt(list', 0);
    if id != o.id {
      var j :| 0 <= j < |list| && list[j].id == id;
      assert list'[j + 1] == list[j];
      StatusAt(list, j);
      StatusAt(list', j + 1);
    }
  }

  lemma ReplaceStatus(list: seq<Order>, i: nat, o: Order, id: string)
    requires UniqueIds(list) && i < |list| && list[i].id == o.id && id in Ids(list)
    ensures id in Ids(list[i := o]) && StatusOf(list[i := o], id) == if id == o.id then o.status else StatusOf(list, id)
  {
    var list' := list[i := o];
    assert forall j | 0 <= j < |list| :: list'[j].id == list[j].id;
    var j :| 0 <= j < |list| && list[j].id == id;
    StatusAt(list, j);
    StatusAt(list', j);
  }

  /** What a merge does to each status: the incoming order's is the more advanced of two, no other moves. */
  lemma MergeStatus(list: seq<Order>, o: Order, clientOf: string -> string, id: string)
    requires OneToOne(clientOf) && Good(list, clientOf) && Stands(o, clientOf) && OnBoard(o.status)
    requires id in Ids(list) + {o.id}
    ensures id in Ids(Merge(list, o))
    ensures StatusOf(Merge(list, o), id)
         == if id != o.id then StatusOf(list, id)
            else if id in Ids(list) then MostAdvanced(StatusOf(list, id), o.status) else o.status
  {
    var i := Find(list, o);
    MergeGood(list, o, clientOf);
    if i == |list| {
      assert forall j | 0 <= j < |list| :: list[j].id != o.id;
      PrependStatus(list, o, id);
    } else {
      SameIsSameId(list[i], o, clientOf);
      StatusAt(list, i);
      ReplaceStatus(list, i, Merged(list[i], o), id);
    }
  }

  /** The statuses under which an order is listed. */
  function Statuses(list: seq<Order>, id: string): set<Status> {
    set i | 0 <= i < |list| && list[i].id == id :: list[i].status
  }

  predicate IsMostAdvanced(s: Status, all: set<Status>) { s in all && forall t | t in all :: Rank(t) <= Rank(s) }

  /** The list shows an order in the most advanced of these statuses, and does not show it when there is none. */
  predicate Tells(list: seq<Order>, id: string, all: set<Status>) {
    if id in Ids(list) then IsMostAdvanced(StatusOf(list, id), all) else all == {}
  }

  lemma StatusesOfInit(rows: seq<Order>, id: string)
    requires rows != []
    ensures var last := rows[|rows| - 1];
            Statuses(rows, id) == Statuses(rows[..|rows| - 1], id) + if last.id == id then {last.status} else {}
  {
    assert forall i | 0 <= i < |rows| - 1 :: rows[..|rows| - 1][i] == rows[i];
  }

  lemma TellsItself(list: seq<Order>, id: string)
    requires UniqueIds(list)
    ensures Tells(list, id, Statuses(list, id))
    ensures id in Ids(list) ==> Statuses(list, id) == {StatusOf(list, id)}
  {
    if id in Ids(list) {
      var i :| 0 <= i < |list| && list[i].id == id;
      StatusAt(list, i);
    } else {
      assert forall i | 0 <= i < |list| :: list[i].id in Ids(list);
    }
  }

  lemma MergeTells(list: seq<Order>, o: Order, clientOf: string -> string, id: string, all: set<Status>)
    requires OneToOne(clientOf) && Good(list, clientOf) && Stands(o, clientOf) && OnBoard(o.status)
    requires Tells(list, id, all)
    ensures Tells(Merge(list, o), id, all + if o.id == id then {o.status} else {})
  {
    MergeGood(list, o, clientOf);
    if id in Ids(list) + {o.id} {
      MergeStatus(list, o, clientOf, id);
      if id in Ids(list) {
        GoodStatus(list, clientOf, id);
      }
    }
  }

  lemma GoodStatus(list: seq<Order>, clientOf: string -> string, id: string)
    requires Good(list, clientOf) && id in Ids(list)
    ensures OnBoard(StatusOf(list, id))
  {
  }

  lemma {:induction false} MergeRowsTell(list: seq<Order>, rows: seq<Order>, delivered: set<string>,
                                         clientOf: string -> string, id: string)
    requires OneToOne(clientOf) && Good(list, clientOf) && AllStand(rows, clientOf) && id !in delivered
    requires forall i | 0 <= i < |rows| :: OnBoard(rows[i].status)
    ensures Tells(MergeRows(list, rows, delivered), id, Statuses(list, id) + Statuses(rows, id))
  {
    if rows == [] {
      TellsItself(list, id);
      assert Statuses(list, id) + Statuses(rows, id) == Statuses(list, id);
    } else {
      var n := |rows| - 1;
      var before, all := MergeRows(list, rows[..n], delivered), Statuses(list, id) + Statuses(rows[..n], id);
      MergeRowsTell(list, rows[..n], delivered, clientOf, id);
      MergeRowsGood(list, rows[..n], delivered, clientOf);
      StatusesOfInit(rows, id);
      assert Statuses(list, id) + Statuses(rows, id) == all + if rows[n].id == id then {rows[n].status} else {};
      if rows[n].id !in delivered {
        MergeTells(before, rows[n], clientOf, id, all);
      } else {
        assert all + {} == all;
      }
    }
  }

  /** After a poll the board remembers the hand-overs that the server still lists, and shows exactly its other tickets, each in the most
    * advanced of the statuses that the board and the rows give it, however often the pages repeat it. */
  lemma PollShowsTheServer(b: Board, rows: seq<Order>, clientOf: string -> string)
    requires OneToOne(clientOf) && Good(b.orders, clientOf) && Admissible(Poll(rows), clientOf)
    ensures var shown := Polled(b, rows).orders;
            && Ids(shown) == Ids(rows) - b.delivered && Polled(b, rows).delivered == b.delivered * Ids(rows)
            && forall id | id in Ids(shown) ::
                 IsMostAdvanced(StatusOf(shown, id), Statuses(b.orders, id) + Statuses(rows, id))
  {
    PollGood(b, rows, clientOf);
    var b' := Polled(b, rows);
    var merged := MergeRows(b.orders, rows, b'.delivered);
    MergeRowsGood(b.orders, rows, b'.delivered, clientOf);
    KeptFrom(merged, Ids(rows) - b'.delivered);
    PartGood(merged, b'.orders, clientOf);
    forall id | id in Ids(b'.orders)
      ensures IsMostAdvanced(StatusOf(b'.orders, id), Statuses(b.orders, id) + Statuses(rows, id))
    {
      MergeRowsTell(b.orders, rows, b'.delivered, clientOf, id);
    }
  }

  /** When the pages list a ticket once, that is the merge of the board's status with the row's. */
  lemma RowOnBoard(b: Board, rows: seq<Order>, clientOf: string -> string, i: nat)
    requires OneToOne(clientOf) && Good(b.orders, clientOf) && Admissible(Poll(rows), clientOf)
    requires UniqueIds(rows) && i < |rows| && rows[i].id !in b.delivered
    ensures rows[i].id in Ids(Polled(b, rows).orders)
    ensures StatusOf(Polled(b, rows).orders, rows[i].id)
         == if rows[i].id in Ids(b.orders) then MostAdvanced(StatusOf(b.orders, rows[i].id), rows[i].status)
            else rows[i].status
  {
    var id := rows[i].id;
    PollShowsTheServer(b, rows, clientOf);
    assert id in Ids(rows);
    StatusAt(rows, i);
    TellsItself(rows, id);
    if id in Ids(b.orders) {
      TellsItself(b.orders, id);
      var j :| 0 <= j < |b.orders| && b.orders[j].id == id;
      StatusAt(b.orders, j);
      var s := StatusOf(Polled(b, rows).orders, id);
      assert StatusOf(b.orders, id) in Statuses(b.orders, id) && rows[i].status in Statuses(rows, id);
    } else {
      assert forall j | 0 <= j < |b.orders| :: b.orders[j].id in Ids(b.orders);
      assert Statuses(b.orders, id) == {};
    }
  }

  /** A gesture: a hand-over takes the ticket off the board and remembers it, any other step moves it on where it
    * stands, unless the board is already further; nothing else moves. */
  lemma AdvanceAnswers(b: Board, o: Order, next: Status, clientOf: string -> string)
    requires OneToOne(clientOf) && Good(b.orders, clientOf) && Admissible(Committed(o, next), clientOf)
    ensures var b' := Advanced(b, o, next);
            if next.Delivered? then
              && b'.delivered == b.delivered + {o.id} && (forall x :: x in b'.orders <==> x in b.orders && x.id != o.id)
            else
              && b'.delivered == b.delivered && Ids(b'.orders) == Ids(b.orders) + {o.id}
              && forall id | id in Ids(b'.orders) ::
                   StatusOf(b'.orders, id) == if id != o.id then StatusOf(b.orders, id)
                                              else if id in Ids(b.orders) then MostAdvanced(StatusOf(b.orders, id), next)
                                              else next
  {
    if next.Delivered? {
      WithoutFrom(b.orders, o.id);
    } else {
      var moved := o.(status := next);
      MergeGood(b.orders, moved, clientOf);
      forall id | id in Ids(b.orders) + {o.id}
        ensures StatusOf(Merge(b.orders, moved), id)
             == if id != o.id then StatusOf(b.orders, id)
                else if id in Ids(b.orders) then MostAdvanced(StatusOf(b.orders, id), next) else next
      {
        MergeStatus(b.orders, moved, clientOf, id);
      }
    }
  }

  // ─── Runs ───

  function Run(b: Board, events: seq<Event>): Board { Fold(Step, b, events) }

  lemma {:induction false} RunGood(b: Board, events: seq<Event>, clientOf: string -> string)
    requires OneToOne(clientOf) && Good(b.orders, clientOf) && forall e | e in events :: Admissible(e, clientOf)
    ensures Good(Run(b, events).orders, clientOf)
  {
    if events != [] {
      var n := |events| - 1;
      RunGood(b, events[..n], clientOf);
      StepGood(Run(b, events[..n]), events[n], clientOf);
    }
  }

  lemma StepGood(b: Board, e: Event, clientOf: string -> string)
    requires OneToOne(clientOf) && Good(b.orders, clientOf) && Admissible(e, clientOf)
    ensures Good(Step(b, e).orders, clientOf) && Forward(b, Step(b, e))
  {
    match e
    case Poll(rows) => PollGood(b, rows, clientOf);
    case Committed(order, next) => AdvanceGood(b, order, next, clientOf);
  }

  /** Over any interleaving of polls, however late their pages, and of gestures, however late their commit, a ticket
    * that stays on the board never goes back. */
  lemma {:induction false} TicketsNeverGoBack(b: Board, events: seq<Event>, clientOf: string -> string, id: string)
    requires OneToOne(clientOf) && Good(b.orders, clientOf) && forall e | e in events :: Admissible(e, clientOf)
    requires forall k | 0 <= k <= |events| :: id in Ids(Run(b, events[..k]).orders)
    ensures id in Ids(b.orders) && id in Ids(Run(b, events).orders)
    ensures Rank(StatusOf(b.orders, id)) <= Rank(StatusOf(Run(b, events).orders, id))
  {
    assert events[..|events|] == events && events[..0] == [];
    assert Run(b, []) == b;
    if events != [] {
      var n := |events| - 1;
      assert forall k | 0 <= k <= n :: events[..n][..k] == events[..k];
      TicketsNeverGoBack(b, events[..n], clientOf, id);
      RunGood(b, events[..n], clientOf);
      StepGood(Run(b, events[..n]), events[n], clientOf);
    }
  }
}

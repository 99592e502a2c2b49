/** The board as the hook keeps it: a list of orders and the set of tickets handed over here. */
module KitchenBoard {
  import opened Wrappers
  import opened Tickets

  class KitchenBoard {
    var orders: seq<Order>
    var delivered: set<string>

    constructor ()
      ensures View() == Board([], {})
    {
      orders, delivered := [], {};
    }

    function View(): Board
      reads this
    {
      Board(orders, delivered)
    }

    /** `mergeOrder`. */
    static method MergeOrder(list: seq<Order>, o: Order) returns (next: seq<Order>)
      ensures next == Merge(list, o)
    {
      var i := 0;
      while i < |list| && !Same(list[i], o)
        invariant i <= |list|
        invariant forall j | 0 <= j < i :: !Same(list[j], o)
      {
        i := i + 1;
      }
      assert i == Find(list, o);
      if i == |list| {
        return [o] + list;
      }
      var keep := MostAdvanced(list[i].status, o.status);
      next := list[i := Order(o.id, if o.client.Some? then o.client else list[i].client, keep, o.content)];
    }

    /** The confirmed hand-overs are forgotten. */
    method ForgetConfirmed(serverIds: set<string>)
      modifies this`delivered
      ensures delivered == old(delivered) * serverIds
    {
      var rest := delivered;
      while rest != {}
        invariant rest <= old(delivered)
        invariant forall id :: id in delivered <==> id in old(delivered) && (id in rest || id in serverIds)
        decreases |rest|
      {
        var id :| id in rest;
        if id !in serverIds {
          delivered := delivered - {id};
        }
        rest := rest - {id};
      }
    }

    /** `poll`, once the pages are there: forget, merge row by row, then filter. */
    method Poll(rows: seq<Order>)
      modifies this
      ensures View() == Polled(old(View()), rows)
    {
      var serverIds := Ids(rows);
      ForgetConfirmed(serverIds);
      var next := orders;
      for i := 0 to |rows|
        invariant next == MergeRows(orders, rows[..i], delivered)
        invariant orders == old(orders) && delivered == old(delivered) * Ids(rows)
      {
        assert rows[..i + 1][..i] == rows[..i];
        if rows[i].id !in delivered {
          next := MergeOrder(next, rows[i]);
        }
      }
      assert rows[..|rows|] == rows;
      var kept := [];
      ghost var ids := Ids(rows) - delivered;
      for i := 0 to |next|
        invariant kept == Kept(next[..i], ids)
        invariant orders == old(orders) && delivered == old(delivered) * Ids(rows)
      {
        assert next[..i + 1][..i] == next[..i];
        if next[i].id in serverIds && next[i].id !in delivered && OnBoard(next[i].status) {
          kept := kept + [next[i]];
        }
      }
      assert next[..|next|] == next;
      orders := kept;
    }

    /** `advance`, once its gesture is durable. */
    method Advance(o: Order, next: Status)
      modifies this
      ensures View() == Advanced(old(View()), o, next)
    {
      if next.Delivered? {
        delivered := delivered + {o.id};
        var rest := [];
        for i := 0 to |orders|
          invariant rest == Without(orders[..i], o.id)
          invariant orders == old(orders) && delivered == old(delivered) + {o.id}
        {
          assert orders[..i + 1][..i] == orders[..i];
          if orders[i].id != o.id {
            rest := rest + [orders[i]];
          }
        }
        assert orders[..|orders|] == orders;
        orders := rest;
      } else {
        orders := MergeOrder(orders, o.(status := next));
      }
    }
  }
}

/** The seeder's order loop, in paise: orders, kitchen tickets, bills and payments are
    created one round at a time while table status is overwritten.  What the program
    draws at random is an input. */
module SeedOrders {
  import opened Prelude

  datatype Status = PENDING | PREPARING | READY | COMPLETED | CANCELLED
  datatype KotStatus = KOT_PENDING | KOT_PREPARING | KOT_READY | KOT_SERVED

  datatype Pick = Pick(price: nat, quantity: nat)

  /** The draws of one round: the items with their quantities, a status, a table. */
  datatype Draw = Draw(picks: seq<Pick>, status: Status, table: Option<int>)

  datatype Order = Order(
    dineIn: bool, table: Option<int>, status: Status, subtotal: nat, discount: nat, serviceCharge: nat, total: int, picks: seq<Pick>)
  datatype Kot = Kot(number: nat, order: nat, status: KotStatus)
  datatype Bill = Bill(number: nat, order: nat, grandTotal: int, paidAmount: int, balanceAmount: int)
  datatype Payment = Payment(number: nat, bill: nat, amount: int)

  /** Row ids are positions. */
  datatype Db = Db(orders: seq<Order>, kots: seq<Kot>, bills: seq<Bill>, payments: seq<Payment>, occupied: map<int, bool>)

  predicate Finished(s: Status) { s.COMPLETED? || s.CANCELLED? }

  function LineTotals(picks: seq<Pick>): nat {
    if picks == [] then 0 else LineTotals(picks[..|picks| - 1]) + picks[|picks| - 1].price * picks[|picks| - 1].quantity
  }

  function TenPercent(n: nat): nat { (n + 5) / 10 }

  function FivePercent(n: nat): nat { (n + 10) / 20 }

  function KotStatusFor(s: Status): KotStatus {
    match s
    case COMPLETED => KOT_SERVED
    case READY => KOT_READY
    case PREPARING => KOT_PREPARING
    case _ => KOT_PENDING
  }

  function OrderFor(oi: nat, d: Draw): Order {
    var sub := LineTotals(d.picks);
    var discount, service := if oi % 7 == 0 then TenPercent(sub) else 0, if oi % 5 == 0 then FivePercent(sub) else 0;
    var dineIn := oi % 4 != 0;
    Order(dineIn, if dineIn then d.table else None, d.status, sub, discount, service, sub + service - discount, d.picks)
  }

  function Round(db: Db, oi: nat, d: Draw): Db {
    var o := OrderFor(oi, d);
    Db(db.orders + [o],
       if d.status.CANCELLED? then db.kots else db.kots + [Kot(|db.kots| + 1, |db.orders|, KotStatusFor(d.status))],
       if d.status.COMPLETED? then db.bills + [Bill(|db.bills| + 1, |db.orders|, o.total, o.total, 0)] else db.bills,
       if d.status.COMPLETED? then db.payments + [Payment(|db.payments| + 1, |db.bills|, o.total)] else db.payments,
       if o.table.Some? then db.occupied[o.table.value := !Finished(d.status)] else db.occupied)
  }

  /** The loop from an emptied database with every table free. */
  function Rounds(tables: set<int>, draws: seq<Draw>): Db {
    if draws == [] then Db([], [], [], [], map t | t in tables :: false)
    else Round(Rounds(tables, draws[..|draws| - 1]), |draws| - 1, draws[|draws| - 1])
  }

  // ---------- Totals ----------

  /** Every total is the line totals with service charge and less discount, never
      negative, each percentage within half a paisa. */
  lemma TotalsAreFair(oi: nat, d: Draw)
    ensures var o := OrderFor(oi, d);
            && o.subtotal == LineTotals(o.picks) && o.total == o.subtotal + o.serviceCharge - o.discount
            && 0 <= o.discount <= o.subtotal && o.total >= 0
            && (oi % 7 == 0 ==> -5 <= 10 * o.discount - o.subtotal <= 5) && (oi % 7 != 0 ==> o.discount == 0)
            && (oi % 5 == 0 ==> -10 <= 20 * o.serviceCharge - o.subtotal <= 10) && (oi % 5 != 0 ==> o.serviceCharge == 0)
            && 100 * o.total <= 105 * o.subtotal + 50
  {}

  /** A pick is worth its price for each of its quantity, and picks add up. */
  lemma {:induction false} PicksAddUp(a: seq<Pick>, b: seq<Pick>, p: Pick)
    ensures LineTotals([]) == 0 && LineTotals([p]) == p.price * p.quantity
    ensures LineTotals(a + b) == LineTotals(a) + LineTotals(b)
  {
    assert [p][..0] == [];
    if b == [] {
      assert a + b == a;
    } else {
      assert (a + b)[..|a + b| - 1] == a + b[..|b| - 1];
      PicksAddUp(a, b[..|b| - 1], p);
    }
  }

  lemma {:induction false} OrdersAreDrawn(tables: set<int>, draws: seq<Draw>)
    ensures var db := Rounds(tables, draws);
            |db.orders| == |draws| && forall i :: 0 <= i < |draws| ==>
              && db.orders[i] == OrderFor(i, draws[i])
              && db.orders[i].dineIn == (i % 4 != 0) && db.orders[i].table == (if i % 4 != 0 then draws[i].table else None)
              && db.orders[i].status == draws[i].status && db.orders[i].picks == draws[i].picks
  {
    if draws != [] { OrdersAreDrawn(tables, draws[..|draws| - 1]); }
  }

  // ---------- Money ----------

  function CompletedTotals(os: seq<Order>): int {
    if os == [] then 0
    else CompletedTotals(os[..|os| - 1]) + (if os[|os| - 1].status.COMPLETED? then os[|os| - 1].total else 0)
  }

  function Completed(os: seq<Order>): seq<nat> {
    if os == [] then []
    else Completed(os[..|os| - 1]) + (if os[|os| - 1].status.COMPLETED? then [|os| - 1] else [])
  }

  function Uncancelled(os: seq<Order>): seq<nat> {
    if os == [] then []
    else Uncancelled(os[..|os| - 1]) + (if os[|os| - 1].status.CANCELLED? then [] else [|os| - 1])
  }

  function Billed(bs: seq<Bill>): int { if bs == [] then 0 else Billed(bs[..|bs| - 1]) + bs[|bs| - 1].grandTotal }

  function Paid(ps: seq<Payment>): int { if ps == [] then 0 else Paid(ps[..|ps| - 1]) + ps[|ps| - 1].amount }

  ghost predicate SumsAgree(db: Db) {
    Billed(db.bills) == CompletedTotals(db.orders) && Paid(db.payments) == CompletedTotals(db.orders)
  }

  /** One bill and one payment for each completed order, in their order, settled in full. */
  ghost predicate BillsKept(db: Db) {
    && |db.bills| == |Completed(db.orders)| && |db.payments| == |db.bills|
    && (forall i :: 0 <= i < |db.bills| ==>
          && db.bills[i].order == Completed(db.orders)[i] < |db.orders| && db.bills[i].number == i + 1
          && db.bills[i].grandTotal == db.orders[db.bills[i].order].total
          && db.bills[i].paidAmount + db.bills[i].balanceAmount == db.bills[i].grandTotal
          && db.payments[i] == Payment(i + 1, i, db.bills[i].paidAmount))
  }

  ghost predicate KotsKept(db: Db) {
    && |db.kots| == |Uncancelled(db.orders)|
    && (forall k :: 0 <= k < |db.kots| ==>
          && db.kots[k].order == Uncancelled(db.orders)[k] < |db.orders| && db.kots[k].number == k + 1
          && KotFollows(db.orders[db.kots[k].order].status, db.kots[k].status))
  }

  /** A completed order's ticket is served, a ready one's ready, a preparing one's being
      prepared, any other's pending. */
  predicate KotFollows(order: Status, kot: KotStatus) {
    && (kot == KOT_SERVED <==> order == COMPLETED) && (kot == KOT_READY <==> order == READY)
    && (kot == KOT_PREPARING <==> order == PREPARING) && (kot == KOT_PENDING <==> order == PENDING || order == CANCELLED)
  }

  lemma SumsRound(db: Db, oi: nat, d: Draw)
    requires SumsAgree(db)
    ensures SumsAgree(Round(db, oi, d))
  {
    var end := Round(db, oi, d);
    assert end.orders[..|db.orders|] == db.orders;
    if d.status.COMPLETED? {
      assert end.bills[..|db.bills|] == db.bills;
      assert end.payments[..|db.payments|] == db.payments;
    }
  }

  lemma BillsRound(db: Db, oi: nat, d: Draw)
    requires BillsKept(db)
    ensures BillsKept(Round(db, oi, d))
  {
    assert Round(db, oi, d).orders[..|db.orders|] == db.orders;
  }

  lemma KotsRound(db: Db, oi: nat, d: Draw)
    requires KotsKept(db)
    ensures KotsKept(Round(db, oi, d))
  {
    assert Round(db, oi, d).orders[..|db.orders|] == db.orders;
  }

  ghost predicate BooksKept(db: Db) { SumsAgree(db) && BillsKept(db) && KotsKept(db) }

  lemma {:induction false} BooksStay(tables: set<int>, draws: seq<Draw>)
    ensures BooksKept(Rounds(tables, draws))
  {
    if draws != [] {
      var before, oi, d := Rounds(tables, draws[..|draws| - 1]), |draws| - 1, draws[|draws| - 1];
      BooksStay(tables, draws[..|draws| - 1]);
      SumsRound(before, oi, d);
      BillsRound(before, oi, d);
      KotsRound(before, oi, d);
      assert Rounds(tables, draws) == Round(before, oi, d);
    }
  }

  lemma {:induction false} CompletedAre(os: seq<Order>, i: nat)
    ensures i in Completed(os) <==> i < |os| && os[i].status.COMPLETED?
    ensures i in Uncancelled(os) <==> i < |os| && !os[i].status.CANCELLED?
  {
    if os != [] { CompletedAre(os[..|os| - 1], i); }
  }

  predicate Ascending(xs: seq<nat>) { forall i, j :: 0 <= i < j < |xs| ==> xs[i] < xs[j] }

  predicate Rising(xs: seq<nat>, bound: nat) { Ascending(xs) && forall i :: 0 <= i < |xs| ==> xs[i] < bound }

  lemma RisingNext(xs: seq<nat>, n: nat)
    requires Rising(xs, n)
    ensures Rising(xs, n + 1) && Rising(xs + [n], n + 1)
  {}

  lemma {:induction false} CompletedAscend(os: seq<Order>)
    ensures Rising(Completed(os), |os|) && Rising(Uncancelled(os), |os|)
  {
    if os != [] {
      var init := os[..|os| - 1];
      CompletedAscend(init);
      RisingNext(Completed(init), |init|);
      RisingNext(Uncancelled(init), |init|);
      assert Completed(init) + [] == Completed(init) && Uncancelled(init) + [] == Uncancelled(init);
    }
  }

  predicate HasBill(db: Db, o: nat) { exists i :: 0 <= i < |db.bills| && db.bills[i].order == o }

  predicate HasKot(db: Db, o: nat) { exists k :: 0 <= k < |db.kots| && db.kots[k].order == o }

  lemma BilledAre(db: Db, o: nat)
    requires BillsKept(db) && KotsKept(db)
    ensures HasBill(db, o) <==> o < |db.orders| && db.orders[o].status.COMPLETED?
    ensures HasKot(db, o) <==> o < |db.orders| && !db.orders[o].status.CANCELLED?
  {
    CompletedAre(db.orders, o);
    if o in Completed(db.orders) {
      var i :| 0 <= i < |Completed(db.orders)| && Completed(db.orders)[i] == o;
      assert db.bills[i].order == o;
    }
    if o in Uncancelled(db.orders) {
      var k :| 0 <= k < |Uncancelled(db.orders)| && Uncancelled(db.orders)[k] == o;
      assert db.kots[k].order == o;
    }
  }

  /** For any number of rounds and any draws: an order has a bill exactly when it is
      completed, and then one, paid in full by one payment; it has a ticket exactly when
      it is not cancelled, and then one; and completed totals, bills and payments add up
      to the same. */
  lemma MoneyIsConserved(tables: set<int>, draws: seq<Draw>)
    ensures var db := Rounds(tables, draws);
            && Billed(db.bills) == CompletedTotals(db.orders) == Paid(db.payments)
            && (forall o: nat :: HasBill(db, o) <==> o < |db.orders| && db.orders[o].status.COMPLETED?)
            && (forall o: nat :: HasKot(db, o) <==> o < |db.orders| && !db.orders[o].status.CANCELLED?)
            && (forall i, j :: 0 <= i < j < |db.bills| ==> db.bills[i].order < db.bills[j].order)
            && (forall i, j :: 0 <= i < j < |db.kots| ==> db.kots[i].order < db.kots[j].order)
            && BillsKept(db) && KotsKept(db)
  {
    BooksStay(tables, draws);
    var db := Rounds(tables, draws);
    CompletedAscend(db.orders);
    forall o: nat
      ensures HasBill(db, o) <==> o < |db.orders| && db.orders[o].status.COMPLETED?
      ensures HasKot(db, o) <==> o < |db.orders| && !db.orders[o].status.CANCELLED?
    {
      BilledAre(db, o);
    }
  }

  // ---------- Tables ----------

  /** The last order that took the table, if any did. */
  function LastAt(os: seq<Order>, t: int): Option<nat> {
    if os == [] then None
    else if os[|os| - 1].table == Some(t) then Some(|os| - 1)
    else LastAt(os[..|os| - 1], t)
  }

  lemma {:induction false} LastAtIsLast(os: seq<Order>, t: int)
    ensures var last := LastAt(os, t);
            && (last.Some? ==> last.value < |os| && os[last.value].table == Some(t))
            && (forall i :: (if last.Some? then last.value + 1 else 0) <= i < |os| ==> os[i].table != Some(t))
  {
    if os != [] { LastAtIsLast(os[..|os| - 1], t); }
  }

  /** A table is occupied exactly when its last order is unfinished. */
  lemma {:induction false} TableFollowsLastOrder(tables: set<int>, draws: seq<Draw>, t: int)
    requires t in tables
    ensures var db := Rounds(tables, draws);
            var last := LastAt(db.orders, t);
            && t in db.occupied
            && (last.Some? ==> last.value < |db.orders|)
            && (db.occupied[t] <==> last.Some? && db.orders[last.value].status != COMPLETED && db.orders[last.value].status != CANCELLED)
  {
    if draws != [] {
      TableFollowsLastOrder(tables, draws[..|draws| - 1], t);
      var before, db := Rounds(tables, draws[..|draws| - 1]), Rounds(tables, draws);
      assert db.orders[..|before.orders|] == before.orders;
      LastAtIsLast(before.orders, t);
    }
  }

  /** An occupied table has an unfinished order; the converse fails, since a later
      finished order frees the table under an earlier unfinished one. */
  lemma OccupiedMeansUnfinished(tables: set<int>, draws: seq<Draw>, t: int)
    requires t in tables
    ensures t in Rounds(tables, draws).occupied
    ensures Rounds(tables, draws).occupied[t] ==>
      exists i :: 0 <= i < |draws| && i % 4 != 0 && draws[i].table == Some(t) && draws[i].status in {PENDING, PREPARING, READY}
  {
    TableFollowsLastOrder(tables, draws, t);
    OrdersAreDrawn(tables, draws);
    var db := Rounds(tables, draws);
    if db.occupied[t] {
      var i := LastAt(db.orders, t).value;
      LastAtIsLast(db.orders, t);
      assert draws[i].table == Some(t) && i % 4 != 0;
    }
  }

  /** Two dine-in rounds on one table, the second finished: free, with an order still
      open on it. */
  lemma FreeWithOpenOrder(tables: set<int>, draws: seq<Draw>, t: int, open: Draw, done: Draw)
    requires t in tables && |draws| % 4 == 1 && open.table == Some(t) == done.table
    requires open.status in {PENDING, PREPARING, READY} && done.status in {COMPLETED, CANCELLED}
    ensures var db := Rounds(tables, draws + [open, done]);
            && t in db.occupied && !db.occupied[t] && |db.orders| == |draws| + 2
            && db.orders[|draws|].table == Some(t) && db.orders[|draws|].status == open.status
  {
    TwoRounds(tables, draws, open, done);
    TablesStay(tables, draws);
    LaterFrees(Rounds(tables, draws), |draws|, open, done, t);
  }

  lemma TwoRounds(tables: set<int>, draws: seq<Draw>, d: Draw, e: Draw)
    ensures Rounds(tables, draws + [d, e]) == Round(Round(Rounds(tables, draws), |draws|, d), |draws| + 1, e)
  {
    assert draws + [d, e] == (draws + [d]) + [e];
    NextRound(tables, draws, d);
    NextRound(tables, draws + [d], e);
  }

  lemma LaterFrees(db: Db, n: nat, open: Draw, done: Draw, t: int)
    requires t in db.occupied && n % 4 == 1 && open.table == Some(t) == done.table && done.status in {COMPLETED, CANCELLED}
    ensures var mid := Round(db, n, open);
            var end := Round(mid, n + 1, done);
            && t in end.occupied && !end.occupied[t] && |end.orders| == |db.orders| + 2
            && end.orders[|db.orders|].table == Some(t) && end.orders[|db.orders|].status == open.status
  {
    var mid := Round(db, n, open);
    TakesTable(db, n, open, t);
    TakesTable(mid, n + 1, done, t);
    assert Round(mid, n + 1, done).orders[..|mid.orders|][|db.orders|] == mid.orders[|db.orders|];
  }

  lemma TakesTable(db: Db, oi: nat, d: Draw, t: int)
    requires oi % 4 != 0 && d.table == Some(t)
    ensures var after := Round(db, oi, d);
            && after.occupied == db.occupied[t := !Finished(d.status)] && |after.orders| == |db.orders| + 1
            && after.orders[..|db.orders|] == db.orders
            && after.orders[|db.orders|].table == Some(t) && after.orders[|db.orders|].status == d.status
  {}

  lemma NextRound(tables: set<int>, draws: seq<Draw>, d: Draw)
    ensures Rounds(tables, draws + [d]) == Round(Rounds(tables, draws), |draws|, d)
  {
    assert (draws + [d])[..|draws|] == draws;
  }

  lemma {:induction false} TablesStay(tables: set<int>, draws: seq<Draw>)
    ensures |Rounds(tables, draws).orders| == |draws|
    ensures forall t :: t in tables ==> t in Rounds(tables, draws).occupied
  {
    if draws != [] { TablesStay(tables, draws[..|draws| - 1]); }
  }

  // ---------- The program ----------

  class OrderSeeder {
    var orders: seq<Order>
    var kots: seq<Kot>
    var bills: seq<Bill>
    var payments: seq<Payment>
    var occupied: map<int, bool>

    function Tables(): Db
      reads this
    {
      Db(orders, kots, bills, payments, occupied)
    }

    method Subtotal(picks: seq<Pick>) returns (sub: nat)
      ensures sub == LineTotals(picks)
    {
      sub := 0;
      for i := 0 to |picks|
        invariant sub == LineTotals(picks[..i])
      {
        assert picks[..i + 1][..i] == picks[..i];
        sub := sub + picks[i].price * picks[i].quantity;
      }
      assert picks[..|picks|] == picks;
    }

    method CreateOrder(oi: nat, d: Draw) returns (id: nat, total: int)
      modifies this`orders, this`occupied
      ensures id == |old(orders)| && orders == old(orders) + [OrderFor(oi, d)] && total == OrderFor(oi, d).total
      ensures var table := OrderFor(oi, d).table;
              occupied == if table.Some? then old(occupied)[table.value := !Finished(d.status)] else old(occupied)
    {
      id := |orders|;
      var sub := Subtotal(d.picks);
      var disc, svc := 0, 0;
      if oi % 7 == 0 { disc := (sub + 5) / 10; }
      if oi % 5 == 0 { svc := (sub + 10) / 20; }
      total := sub + svc - disc;
      var dineIn := oi % 4 != 0;
      var table := if dineIn then d.table else None;
      orders := orders + [Order(dineIn, table, d.status, sub, disc, svc, total, d.picks)];
      if table.Some? {
        occupied := occupied[table.value := !(d.status.COMPLETED? || d.status.CANCELLED?)];
      }
    }

    method SeedRound(oi: nat, d: Draw, kots0: nat, bills0: nat, payments0: nat) returns (kCnt: nat, bCnt: nat, pCnt: nat)
      requires kots0 == |kots| && bills0 == |bills| && payments0 == |payments|
      modifies this
      ensures Tables() == Round(old(Tables()), oi, d)
      ensures kCnt == |kots| && bCnt == |bills| && pCnt == |payments|
    {
      kCnt, bCnt, pCnt := kots0, bills0, payments0;
      var id, total := CreateOrder(oi, d);
      if !d.status.CANCELLED? {
        kCnt := kCnt + 1;
        var ks := KOT_PENDING;
        if d.status.COMPLETED? { ks := KOT_SERVED; }
        else if d.status.READY? { ks := KOT_READY; }
        else if d.status.PREPARING? { ks := KOT_PREPARING; }
        kots := kots + [Kot(kCnt, id, ks)];
      }
      if d.status.COMPLETED? {
        bCnt := bCnt + 1;
        var billRef := |bills|;
        bills := bills + [Bill(bCnt, id, total, total, 0)];
        pCnt := pCnt + 1;
        payments := payments + [Payment(pCnt, billRef, total)];
      }
    }

    /** The counters the program prints are the sizes of the tables it filled. */
    method SeedOrders(tables: set<int>, draws: seq<Draw>) returns (oCnt: nat, kCnt: nat, bCnt: nat, pCnt: nat)
      modifies this
      ensures Tables() == Rounds(tables, draws)
      ensures oCnt == |orders| && kCnt == |kots| && bCnt == |bills| && pCnt == |payments|
    {
      oCnt, kCnt, bCnt, pCnt := 0, 0, 0, 0;
      orders, kots, bills, payments := [], [], [], [];
      occupied := map t | t in tables :: false;
      for oi := 0 to |draws|
        invariant Tables() == Rounds(tables, draws[..oi])
        invariant oCnt == |orders| && kCnt == |kots| && bCnt == |bills| && pCnt == |payments|
      {
        assert draws[..oi + 1][..oi] == draws[..oi];
        oCnt := oCnt + 1;
        kCnt, bCnt, pCnt := SeedRound(oi, draws[oi], kCnt, bCnt, pCnt);
      }
      assert draws[..|draws|] == draws;
    }
  }
}

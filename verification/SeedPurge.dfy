/** The seeder's purge of one restaurant's transactional rows: payments, bills, tickets,
    order items, orders, in that order, each committed before the next. */
module SeedPurge {
  import opened Prelude
  import opened OrderTables

  function OrdersAt(orders: map<int, Order>, r: int): set<int> { set o | o in orders && orders[o].restaurant == r }

  function KotsAt(kots: map<int, Kot>, r: int): set<int> { set k | k in kots && kots[k].restaurant == r }

  function BillsAt(bills: map<int, Bill>, r: int): set<int> { set b | b in bills && bills[b].restaurant == r }

  function PaymentsAt(payments: map<int, Payment>, r: int): set<int> { set p | p in payments && payments[p].restaurant == r }

  function Purge(db: Db, r: int): Outcome {
    var one := DeletePayments(db, PaymentsAt(db.payments, r));
    var two := DeleteBills(one, BillsAt(one.bills, r));
    if two.None? then Outcome(one, false)
    else
      var three := DeleteKots(two.value, KotsAt(two.value.kots, r));
      var four := DeleteItems(three, ItemsOf(three.items, OrdersAt(three.orders, r)));
      var five := DeleteOrders(four, OrdersAt(four.orders, r));
      if five.None? then Outcome(four, false) else Outcome(five.value, true)
  }

  /** The restaurant of a row is the restaurant of the row it refers to. */
  ghost predicate OneTenant(db: Db) {
    && (forall k :: k in db.kots && db.kots[k].order in db.orders ==> db.kots[k].restaurant == db.orders[db.kots[k].order].restaurant)
    && (forall b :: b in db.bills && db.bills[b].order in db.orders ==> db.bills[b].restaurant == db.orders[db.bills[b].order].restaurant)
    && (forall p :: p in db.payments && db.payments[p].bill in db.bills ==> db.payments[p].restaurant == db.bills[db.payments[p].bill].restaurant)
  }

  /** Every reference into the restaurant's rows comes from its own rows. */
  predicate OwnReferences(db: Db, r: int) {
    && PaymentsOf(db.payments, BillsAt(db.bills, r)) <= PaymentsAt(db.payments, r)
    && BillsOf(db.bills, OrdersAt(db.orders, r)) <= BillsAt(db.bills, r)
    && KotsOf(db.kots, OrdersAt(db.orders, r)) <= KotsAt(db.kots, r)
  }

  lemma TenantOwnsReferences(db: Db, r: int)
    requires Consistent(db) && OneTenant(db)
    ensures OwnReferences(db, r)
  {
    forall p | p in PaymentsOf(db.payments, BillsAt(db.bills, r)) ensures p in PaymentsAt(db.payments, r) {
      assert p in db.payments && db.payments[p].bill in db.bills;
    }
    forall b | b in BillsOf(db.bills, OrdersAt(db.orders, r)) ensures b in BillsAt(db.bills, r) {
      assert b in db.bills && db.bills[b].order in db.orders;
    }
    forall k | k in KotsOf(db.kots, OrdersAt(db.orders, r)) ensures k in KotsAt(db.kots, r) {
      assert k in db.kots && db.kots[k].order in db.orders;
    }
  }

  /** The database without the restaurant's rows. */
  function Purged(db: Db, r: int): Db {
    var os := OrdersAt(db.orders, r);
    Itemless(db, r).(orders := db.orders - os, discounts := db.discounts - DiscountsOf(db.discounts, os), movements := Unlinked(db.movements, os))
  }

  function Itemless(db: Db, r: int): Db {
    var os, ks := OrdersAt(db.orders, r), KotsAt(db.kots, r);
    var lines := db.kotLines - LinesOfKots(db.kotLines, ks);
    db.(payments := db.payments - PaymentsAt(db.payments, r), bills := db.bills - BillsAt(db.bills, r), kots := db.kots - ks,
    items := db.items - ItemsOf(db.items, os), kotLines := lines - LinesOfItems(lines, ItemsOf(db.items, os)))
  }

  lemma Leftovers(db: Db, r: int)
    ensures var os := OrdersAt(db.orders, r);
            && PaymentsOf(db.payments - PaymentsAt(db.payments, r), BillsAt(db.bills, r))
               == PaymentsOf(db.payments, BillsAt(db.bills, r)) - PaymentsAt(db.payments, r)
            && BillsOf(db.bills - BillsAt(db.bills, r), os) == BillsOf(db.bills, os) - BillsAt(db.bills, r)
            && KotsOf(db.kots - KotsAt(db.kots, r), os) == KotsOf(db.kots, os) - KotsAt(db.kots, r)
  {}

  /** The purge completes exactly when nothing outside the restaurant's own rows refers
      into them and no merge row names its orders; then it removes all of its rows and
      nothing else.  A merge row stops it at the orders, with everything else gone. */
  lemma PurgeCompletesIff(db: Db, r: int)
    ensures var os := OrdersAt(db.orders, r);
            && (Purge(db, r).completed <==> OwnReferences(db, r) && NotMerged(db, os))
            && (Purge(db, r).completed ==> Purge(db, r).db == Purged(db, r))
            && (OwnReferences(db, r) && !NotMerged(db, os) ==> Purge(db, r).db == Itemless(db, r))
  {
    var os := OrdersAt(db.orders, r);
    Leftovers(db, r);
    SubsetIff(PaymentsOf(db.payments, BillsAt(db.bills, r)), PaymentsAt(db.payments, r));
    SubsetIff(BillsOf(db.bills, os), BillsAt(db.bills, r));
    SubsetIff(KotsOf(db.kots, os), KotsAt(db.kots, r));
    ItemsGone(db.items, os);
    NotMergedIff(db, os);
  }

  /** In a database whose references stay within one tenant only merged orders can stop
      the purge. */
  lemma TenantPurgeCompletesIff(db: Db, r: int)
    requires Consistent(db) && OneTenant(db)
    ensures Purge(db, r).completed <==> NotMerged(db, OrdersAt(db.orders, r))
  {
    TenantOwnsReferences(db, r);
    PurgeCompletesIff(db, r);
  }

  /** Nothing of the restaurant is left, and every row of another restaurant is there
      unchanged. */
  lemma PurgeTakesExactlyOne(db: Db, r: int)
    requires Consistent(db) && OneTenant(db) && Purge(db, r).completed
    ensures var end := Purge(db, r).db;
            && OrdersAt(end.orders, r) == {} && KotsAt(end.kots, r) == {} && BillsAt(end.bills, r) == {} && PaymentsAt(end.payments, r) == {}
            && (forall o :: o in db.orders && db.orders[o].restaurant != r ==> o in end.orders && end.orders[o] == db.orders[o])
            && (forall i :: i in db.items && db.orders[db.items[i].order].restaurant != r <==> i in end.items)
            && (forall b :: b in db.bills && db.bills[b].restaurant != r ==> b in end.bills && end.bills[b] == db.bills[b])
            && (forall p :: p in db.payments && db.payments[p].restaurant != r ==> p in end.payments && end.payments[p] == db.payments[p])
            && (forall k :: k in db.kots && db.kots[k].restaurant != r ==> k in end.kots && end.kots[k] == db.kots[k])
            && end.groups == db.groups && end.members == db.members && end.stock == db.stock && end.available == db.available
  {
    PurgeCompletesIff(db, r);
  }

  /** Every intermediate state, and the final one, is free of dangling references. */
  lemma PurgeKeepsReferences(db: Db, r: int)
    requires Consistent(db)
    ensures Consistent(Purge(db, r).db)
    ensures var one := DeletePayments(db, PaymentsAt(db.payments, r));
            var two := DeleteBills(one, BillsAt(one.bills, r));
            && Consistent(one)
            && (two.Some? ==>
                  var three := DeleteKots(two.value, KotsAt(two.value.kots, r));
                  Consistent(two.value) && Consistent(three)
                  && Consistent(DeleteItems(three, ItemsOf(three.items, OrdersAt(three.orders, r)))))
  {
    PaymentDeletionKeepsReferences(db, PaymentsAt(db.payments, r));
    var one := DeletePayments(db, PaymentsAt(db.payments, r));
    var two := DeleteBills(one, BillsAt(one.bills, r));
    if two.Some? {
      BillDeletionKeepsReferences(one, BillsAt(one.bills, r));
      KotDeletionKeepsReferences(two.value, KotsAt(two.value.kots, r));
      var three := DeleteKots(two.value, KotsAt(two.value.kots, r));
      ItemDeletionKeepsReferences(three, ItemsOf(three.items, OrdersAt(three.orders, r)));
      var four := DeleteItems(three, ItemsOf(three.items, OrdersAt(three.orders, r)));
      if DeleteOrders(four, OrdersAt(four.orders, r)).Some? { OrderDeletionKeepsReferences(four, OrdersAt(four.orders, r)); }
    }
  }
}

/** The programs that delete: each method is its chain of deletions on a database that
    only it is changing. */
module TenantTables {
  import opened Prelude
  import opened OrderTables
  import C = Cleanup
  import P = SeedPurge

  class Tenant {
    var db: Db

    /** One attempt: the first refused deletion ends it. */
    method ClearOrders(os: set<int>) returns (completed: bool)
      modifies this
      ensures Outcome(db, completed) == C.ClearOrders(old(db), os)
    {
      var bills := DeleteBills(db, BillsOf(db.bills, os));
      if bills.None? { return false; }
      db := bills.value;
      db := DeleteItems(db, ItemsOf(db.items, os));
      var orders := DeleteOrders(db, os);
      if orders.None? { return false; }
      db := orders.value;
      return true;
    }

    method ClearTickets(os: set<int>)
      modifies this
      ensures db == C.ClearTickets(old(db), os)
    {
      db := DeleteMovements(db, MovementsOf(db.movements, os));
      var kots := KotsOf(db.kots, os);
      if kots != {} {
        db := DeleteKotLines(db, LinesOfKots(db.kotLines, kots));
        db := DeleteKots(db, kots);
      } else {
        assert LinesOfKots(db.kotLines, {}) == {};
        MinusNothing(db.kotLines);
        MinusNothing(db.kots);
      }
    }

    /** The noted items, in whatever order they are listed. */
    method RestoreStock(before: map<int, int>, items: seq<int>)
      requires forall i :: i in items <==> i in before
      modifies this
      ensures db == old(db).(stock := map i | i in old(db).stock :: if i in before then before[i] else old(db).stock[i])
    {
      for k := 0 to |items|
        invariant db == old(db).(stock := map i | i in old(db).stock ::
            if i in items[..k] && i in before then before[i] else old(db).stock[i])
      {
        var item := items[k];
        assert item in items && items[..k + 1] == items[..k] + [item];
        if item in db.stock { db := db.(stock := db.stock[item := before[item]]); }
      }
      assert items[..|items|] == items;
      ghost var want := map i | i in old(db).stock :: if i in before then before[i] else old(db).stock[i];
      assert db.stock.Keys == want.Keys && forall i :: i in want ==> db.stock[i] == want[i];
      SameMap(db.stock, want);
    }

    method FreeTables(tables: set<int>, order: seq<int>)
      requires forall t :: t in order <==> t in tables
      modifies this
      ensures db == old(db).(available := map t | t in old(db).available :: t in tables || old(db).available[t])
    {
      for k := 0 to |order|
        invariant db == old(db).(available := map t | t in old(db).available :: t in order[..k] || old(db).available[t])
      {
        assert order[..k + 1] == order[..k] + [order[k]];
        if order[k] in db.available { db := db.(available := db.available[order[k] := true]); }
      }
      assert order[..|order|] == order;
      ghost var want := map t | t in old(db).available :: t in tables || old(db).available[t];
      assert db.available.Keys == want.Keys && forall t :: t in want ==> db.available[t] == want[t];
      SameMap(db.available, want);
    }

    method CleanupGoldenGrill(c: C.Created, items: seq<int>, tables: seq<int>) returns (completed: bool)
      requires (forall i :: i in items <==> i in c.stockBefore) && forall t :: t in tables <==> t in c.tablesUsed
      modifies this
      ensures Outcome(db, completed) == C.CleanUpGoldenGrill(old(db), c)
    {
      for i := 0 to |c.groupIds|
        invariant db == C.ClearGroups(old(db), c.groupIds[..i])
      {
        assert c.groupIds[..i + 1][..i] == c.groupIds[..i];
        db := DeleteMembers(db, MembersIn(db.members, {c.groupIds[i]}));
        db := DeleteGroups(db, {c.groupIds[i]});
      }
      assert c.groupIds[..|c.groupIds|] == c.groupIds;
      completed := true;
      if c.orderIds != {} {
        ClearTickets(c.orderIds);
        db := DeleteMembers(db, MembersOf(db.members, c.orderIds));
        completed := ClearOrders(c.orderIds);
      }
      RestoreStock(c.stockBefore, items);
      FreeTables(c.tablesUsed, tables);
    }

    method CleanupPrint(c: C.Created, items: seq<int>, tables: seq<int>) returns (completed: bool)
      requires (forall i :: i in items <==> i in c.stockBefore) && forall t :: t in tables <==> t in c.tablesUsed
      modifies this
      ensures Outcome(db, completed) == C.CleanUpPrint(old(db), c)
    {
      completed := true;
      if c.orderIds != {} {
        ClearTickets(c.orderIds);
        var bills := BillsOf(db.bills, c.orderIds);
        if bills != {} {
          db := DeletePayments(db, PaymentsOf(db.payments, bills));
        } else {
          assert PaymentsOf(db.payments, {}) == {};
          MinusNothing(db.payments);
        }
        completed := ClearOrders(c.orderIds);
      }
      RestoreStock(c.stockBefore, items);
      FreeTables(c.tablesUsed, tables);
    }

    /** Goes through exactly when nothing else refers into the restaurant's rows and none of
        its orders is merged; then exactly its rows are gone.  Otherwise the payments are
        gone and its orders are all still there. */
    method Purge(r: int) returns (completed: bool)
      modifies this
      ensures completed <==> P.OwnReferences(old(db), r) && NotMerged(old(db), P.OrdersAt(old(db).orders, r))
      ensures completed ==> db == P.Purged(old(db), r)
      ensures !completed ==> db.orders == old(db).orders && P.PaymentsAt(db.payments, r) == {}
      ensures Outcome(db, completed) == P.Purge(old(db), r)
    {
      P.PurgeCompletesIff(db, r);
      db := DeletePayments(db, P.PaymentsAt(db.payments, r));
      var bills := DeleteBills(db, P.BillsAt(db.bills, r));
      if bills.None? { return false; }
      db := bills.value;
      db := DeleteKots(db, P.KotsAt(db.kots, r));
      db := DeleteItems(db, ItemsOf(db.items, P.OrdersAt(db.orders, r)));
      var orders := DeleteOrders(db, P.OrdersAt(db.orders, r));
      if orders.None? { return false; }
      db := orders.value;
      return true;
    }
  }
}

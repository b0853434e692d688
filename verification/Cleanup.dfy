/** The two cleanup routines that remove what a run created: a chain of deletions, each
    committed on its own, where the first refused one ends the chain; then stock and
    table status are written back. */
module Cleanup {
  import opened Prelude
  import opened OrderTables

  /** What the run noted: its orders and groups, its tables, and the stock it found. */
  datatype Created = Created(orderIds: set<int>, groupIds: seq<int>, tablesUsed: set<int>, stockBefore: map<int, int>)

  function Restore(db: Db, c: Created): Db {
    db.(stock := map i | i in db.stock :: if i in c.stockBefore then c.stockBefore[i] else db.stock[i],
    available := map t | t in db.available :: t in c.tablesUsed || db.available[t])
  }

  // ---------- The chain of the print and RBAC suite ----------

  function ClearTickets(db: Db, os: set<int>): Db {
    var one := DeleteMovements(db, MovementsOf(db.movements, os));
    var kots := KotsOf(one.kots, os);
    DeleteKots(DeleteKotLines(one, LinesOfKots(one.kotLines, kots)), kots)
  }

  /** Bills, items, orders: the shared end of both chains. */
  function ClearOrders(db: Db, os: set<int>): Outcome {
    var one := DeleteBills(db, BillsOf(db.bills, os));
    if one.None? then Outcome(db, false)
    else
      var two := DeleteItems(one.value, ItemsOf(one.value.items, os));
      var three := DeleteOrders(two, os);
      if three.None? then Outcome(two, false) else Outcome(three.value, true)
  }

  function PrintChain(db: Db, os: set<int>): Outcome {
    var one := ClearTickets(db, os);
    ClearOrders(DeletePayments(one, PaymentsOf(one.payments, BillsOf(one.bills, os))), os)
  }

  function CleanUpPrint(db: Db, c: Created): Outcome {
    var cleared := if c.orderIds == {} then Outcome(db, true) else PrintChain(db, c.orderIds);
    cleared.(db := Restore(cleared.db, c))
  }

  // ---------- The chain of the live suite ----------

  function ClearGroups(db: Db, gs: seq<int>): Db {
    if gs == [] then db
    else
      var before, g := ClearGroups(db, gs[..|gs| - 1]), gs[|gs| - 1];
      DeleteGroups(DeleteMembers(before, MembersIn(before.members, {g})), {g})
  }

  function GoldenGrillChain(db: Db, os: set<int>): Outcome {
    var one := ClearTickets(db, os);
    ClearOrders(DeleteMembers(one, MembersOf(one.members, os)), os)
  }

  function CleanUpGoldenGrill(db: Db, c: Created): Outcome {
    var ungrouped := ClearGroups(db, c.groupIds);
    var cleared := if c.orderIds == {} then Outcome(ungrouped, true) else GoldenGrillChain(ungrouped, c.orderIds);
    cleared.(db := Restore(cleared.db, c))
  }

  // ---------- What belongs to the tracked orders ----------

  /** The database without any row of the given orders, and without the given groups. */
  function Without(db: Db, os: set<int>, gs: set<int>): Db {
    Db(db.orders - os, db.items - ItemsOf(db.items, os), db.kots - KotsOf(db.kots, os),
       db.kotLines - (LinesOfKots(db.kotLines, KotsOf(db.kots, os)) + LinesOfItems(db.kotLines, ItemsOf(db.items, os))),
       db.bills - BillsOf(db.bills, os), db.payments - PaymentsOf(db.payments, BillsOf(db.bills, os)),
       db.movements - MovementsOf(db.movements, os), db.discounts - DiscountsOf(db.discounts, os),
       db.groups - gs, db.members - (MembersIn(db.members, gs) + MembersOf(db.members, os)),
       db.available, db.stock)
  }

  function Ids(gs: seq<int>): set<int> { set g | g in gs }

  /** A database in which the run added rows of its own orders and groups, changed stock
      only where it noted it, and only tables it used, which were free. */
  ghost predicate RanOn(d: Db, after: Db, c: Created) {
    && Without(after, c.orderIds, Ids(c.groupIds)) == d.(available := after.available, stock := after.stock)
    && d.available.Keys == after.available.Keys && d.stock.Keys == after.stock.Keys
    && (forall t :: t in d.available ==> if t in c.tablesUsed then d.available[t] else d.available[t] == after.available[t])
    && (forall i :: i in d.stock ==> if i in c.stockBefore then d.stock[i] == c.stockBefore[i] else d.stock[i] == after.stock[i])
  }

  lemma RestoreReturns(d: Db, after: Db, c: Created)
    requires RanOn(d, after, c)
    ensures Restore(Without(after, c.orderIds, Ids(c.groupIds)), c) == d
  {
    var back := Restore(Without(after, c.orderIds, Ids(c.groupIds)), c);
    forall i | i in d.stock ensures back.stock[i] == d.stock[i] {}
    assert back.stock.Keys == d.stock.Keys;
    forall t | t in d.available ensures back.available[t] == d.available[t] {}
    assert back.available.Keys == d.available.Keys;
  }

  // ---------- The shared steps ----------

  lemma TicketsCleared(db: Db, os: set<int>)
    ensures ClearTickets(db, os) ==
            db.(movements := db.movements - MovementsOf(db.movements, os), kots := db.kots - KotsOf(db.kots, os),
            kotLines := db.kotLines - LinesOfKots(db.kotLines, KotsOf(db.kots, os)))
  {
    var kots := KotsOf(db.kots, os);
    LinesGone(db.kotLines, kots);
    MinusNothing(db.kotLines - LinesOfKots(db.kotLines, kots));
  }

  predicate Unpaid(db: Db, os: set<int>) { PaymentsOf(db.payments, BillsOf(db.bills, os)) == {} }

  /** Once the tickets are gone the rest goes through exactly when no payment holds a
      bill and no merge row an order; a payment stops it before anything else, a merge
      row after the items. */
  lemma OrdersCleared(db: Db, os: set<int>)
    requires KotsOf(db.kots, os) == {} && Unlinked(db.movements, os) == db.movements
    ensures ClearOrders(db, os).completed <==> Unpaid(db, os) && NotMerged(db, os)
    ensures var itemless := db.(items := db.items - ItemsOf(db.items, os), bills := db.bills - BillsOf(db.bills, os),
                            kotLines := db.kotLines - LinesOfItems(db.kotLines, ItemsOf(db.items, os)));
            ClearOrders(db, os).db ==
            if !Unpaid(db, os) then db
            else if !NotMerged(db, os) then itemless
            else itemless.(orders := db.orders - os, discounts := db.discounts - DiscountsOf(db.discounts, os))
  {
    BillsGone(db.bills, os);
    ItemsGone(db.items, os);
    NotMergedIff(db.(bills := db.bills - BillsOf(db.bills, os)), os);
    NotMergedIff(db, os);
  }

  // ---------- Print and RBAC suite ----------

  function Ticketless(db: Db, os: set<int>): Db {
    db.(movements := db.movements - MovementsOf(db.movements, os), kots := db.kots - KotsOf(db.kots, os),
    kotLines := db.kotLines - LinesOfKots(db.kotLines, KotsOf(db.kots, os)))
  }

  function Unbilled(db: Db, os: set<int>): Db {
    Ticketless(db, os).(payments := db.payments - PaymentsOf(db.payments, BillsOf(db.bills, os)))
  }

  lemma PrintRemainder(db: Db, os: set<int>)
    requires NotMerged(db, os)
    ensures var two := Unbilled(db, os);
            two.(orders := two.orders - os, items := two.items - ItemsOf(two.items, os), bills := two.bills - BillsOf(two.bills, os),
            kotLines := two.kotLines - LinesOfItems(two.kotLines, ItemsOf(two.items, os)),
            discounts := two.discounts - DiscountsOf(two.discounts, os)) == Without(db, os, {})
  {
    NotMergedIff(db, os);
    LinesOfBoth(db.kotLines, KotsOf(db.kots, os), ItemsOf(db.items, os));
    MinusNothing(db.groups);
    NoMembers(db, os);
  }

  lemma UnbilledIsReady(db: Db, os: set<int>)
    ensures var two := Unbilled(db, os);
            && KotsOf(two.kots, os) == {} && Unlinked(two.movements, os) == two.movements
            && Unpaid(two, os) && (NotMerged(two, os) <==> NotMerged(db, os))
            && two.orders == db.orders && two.items == db.items
  {
    PaymentsGone(db.payments, BillsOf(db.bills, os));
    KotsGone(db.kots, os);
    MovementsGone(db.movements, os);
  }

  lemma PrintChainIs(db: Db, os: set<int>)
    ensures PrintChain(db, os) == ClearOrders(Unbilled(db, os), os)
  {
    TicketsCleared(db, os);
  }

  lemma PrintCleared(db: Db, os: set<int>)
    ensures PrintChain(db, os).completed <==> NotMerged(db, os)
    ensures NotMerged(db, os) ==> PrintChain(db, os).db == Without(db, os, {})
    ensures !NotMerged(db, os) ==> PrintChain(db, os).db.orders == db.orders && ItemsOf(PrintChain(db, os).db.items, os) == {}
  {
    PrintChainIs(db, os);
    UnbilledIsReady(db, os);
    OrdersCleared(Unbilled(db, os), os);
    ItemsGone(db.items, os);
    if NotMerged(db, os) { PrintRemainder(db, os); }
  }

  lemma NoMembers(db: Db, os: set<int>)
    ensures MembersIn(db.members, {}) == {}
    ensures MembersOf(db.members, os) == {} ==> db.members - (MembersIn(db.members, {}) + MembersOf(db.members, os)) == db.members
  {
    MinusNothing(db.members);
  }

  /** The chain completes exactly when no merge group or member names a tracked order;
      otherwise every child row is gone and the bare orders stay. */
  lemma PrintCleanupCompletesIff(db: Db, c: Created)
    requires c.orderIds != {}
    ensures CleanUpPrint(db, c).completed <==> NotMerged(db, c.orderIds)
    ensures !NotMerged(db, c.orderIds) ==>
      CleanUpPrint(db, c).db.orders == db.orders && ItemsOf(CleanUpPrint(db, c).db.items, c.orderIds) == {}
  {
    PrintCleared(db, c.orderIds);
  }

  /** Cleanup undoes the run: the database before it comes back, row for row. */
  lemma PrintCleanupUndoes(d: Db, after: Db, c: Created)
    requires RanOn(d, after, c) && c.groupIds == [] && NotMerged(after, c.orderIds)
    ensures CleanUpPrint(after, c) == Outcome(d, true)
  {
    assert Ids([]) == {};
    RestoreReturns(d, after, c);
    PrintCleared(after, c.orderIds);
    if c.orderIds == {} { WithoutOrders(after, {}); WithoutGroups(after); }
  }

  lemma WithoutOrders(db: Db, gs: set<int>)
    ensures Without(db, {}, gs) == db.(groups := db.groups - gs, members := db.members - MembersIn(db.members, gs))
  {
    assert ItemsOf(db.items, {}) == {} && KotsOf(db.kots, {}) == {} && BillsOf(db.bills, {}) == {};
    assert MovementsOf(db.movements, {}) == {} && DiscountsOf(db.discounts, {}) == {} && MembersOf(db.members, {}) == {};
    assert LinesOfKots(db.kotLines, {}) + LinesOfItems(db.kotLines, {}) == {} && PaymentsOf(db.payments, {}) == {};
    assert MembersIn(db.members, gs) + {} == MembersIn(db.members, gs);
    MinusNothing(db.orders);
    MinusNothing(db.items);
    MinusNothing(db.kots);
    MinusNothing(db.kotLines);
    MinusNothing(db.bills);
    MinusNothing(db.payments);
    MinusNothing(db.movements);
    MinusNothing(db.discounts);
  }

  lemma WithoutGroups(db: Db)
    ensures db.(groups := db.groups - {}, members := db.members - MembersIn(db.members, {})) == db
  {
    NoMembers(db, {});
    MinusNothing(db.groups);
    MinusNothing(db.members);
  }

  // ---------- Live suite ----------

  function Ungrouped(db: Db, gs: set<int>): Db {
    db.(groups := db.groups - gs, members := db.members - MembersIn(db.members, gs))
  }

  lemma UngroupNext(db: Db, gs: set<int>, g: int)
    ensures var before := Ungrouped(db, gs);
            DeleteGroups(DeleteMembers(before, MembersIn(before.members, {g})), {g}) == Ungrouped(db, gs + {g})
  {
    var members := db.members - MembersIn(db.members, gs);
    var left := members - MembersIn(members, {g});
    assert MembersIn(left, {g}) == {};
    MinusNothing(left);
    assert left == db.members - MembersIn(db.members, gs + {g});
    MinusTwice(db.groups, gs, {g});
  }

  lemma {:induction false} GroupsCleared(db: Db, gs: seq<int>)
    ensures ClearGroups(db, gs) == Ungrouped(db, Ids(gs))
  {
    if gs == [] {
      assert Ids(gs) == {};
      WithoutGroups(db);
    } else {
      var init, g := gs[..|gs| - 1], gs[|gs| - 1];
      GroupsCleared(db, init);
      assert gs == init + [g];
      assert Ids(gs) == Ids(init) + {g};
      UngroupNext(db, Ids(init), g);
    }
  }

  /** Every group that a tracked order leads was noted. */
  predicate GroupsTracked(db: Db, os: set<int>, gs: set<int>) { forall g :: g in db.groups && db.groups[g].primary in os ==> g in gs }

  /** The database when the orders are about to go: no ticket, and no member of theirs. */
  function Unmerged(db: Db, os: set<int>, gs: set<int>): Db {
    var start := Ungrouped(db, gs);
    Ticketless(start, os).(members := start.members - MembersOf(start.members, os))
  }

  lemma UnmergedIsReady(db: Db, os: set<int>, gs: set<int>)
    ensures var two := Unmerged(db, os, gs);
            && KotsOf(two.kots, os) == {} && Unlinked(two.movements, os) == two.movements
            && (Unpaid(two, os) <==> Unpaid(db, os))
            && (NotMerged(two, os) <==> GroupsTracked(db, os, gs))
  {
    KotsGone(db.kots, os);
    MovementsGone(db.movements, os);
    MembersGone(Ungrouped(db, gs).members, os);
    assert GroupsOf(db.groups - gs, os) == GroupsOf(db.groups, os) - gs;
    SubsetIff(GroupsOf(db.groups, os), gs);
    NotMergedIff(Unmerged(db, os, gs), os);
    assert GroupsOf(db.groups, os) <= gs <==> GroupsTracked(db, os, gs) by {
      if GroupsOf(db.groups, os) <= gs {
        forall g | g in db.groups && db.groups[g].primary in os ensures g in gs { assert g in GroupsOf(db.groups, os); }
      }
    }
  }

  lemma GoldenGrillChainIs(db: Db, os: set<int>, gs: set<int>)
    ensures GoldenGrillChain(Ungrouped(db, gs), os) == ClearOrders(Unmerged(db, os, gs), os)
  {
    TicketsCleared(Ungrouped(db, gs), os);
  }

  lemma GoldenGrillRemainder(db: Db, os: set<int>, gs: set<int>)
    requires Unpaid(db, os)
    ensures var two := Unmerged(db, os, gs);
            two.(orders := two.orders - os, items := two.items - ItemsOf(two.items, os), bills := two.bills - BillsOf(two.bills, os),
            kotLines := two.kotLines - LinesOfItems(two.kotLines, ItemsOf(two.items, os)),
            discounts := two.discounts - DiscountsOf(two.discounts, os)) == Without(db, os, gs)
  {
    LinesOfBoth(db.kotLines, KotsOf(db.kots, os), ItemsOf(db.items, os));
    MembersBoth(db.members, gs, os);
    MinusNothing(db.payments);
  }

  lemma GoldenGrillCleared(db: Db, os: set<int>, gs: set<int>)
    ensures var end := GoldenGrillChain(Ungrouped(db, gs), os);
            && (end.completed <==> Unpaid(db, os) && GroupsTracked(db, os, gs))
            && (Unpaid(db, os) && GroupsTracked(db, os, gs) ==> end.db == Without(db, os, gs))
            && (!Unpaid(db, os) ==>
                  && end.db.orders == db.orders && end.db.items == db.items && end.db.bills == db.bills
                  && end.db.payments == db.payments && KotsOf(end.db.kots, os) == {})
  {
    GoldenGrillChainIs(db, os, gs);
    UnmergedIsReady(db, os, gs);
    OrdersCleared(Unmerged(db, os, gs), os);
    if Unpaid(db, os) { GoldenGrillRemainder(db, os, gs); }
  }

  lemma MembersBoth(members: map<int, Member>, gs: set<int>, os: set<int>)
    ensures var left := members - MembersIn(members, gs);
            left - MembersOf(left, os) == members - (MembersIn(members, gs) + MembersOf(members, os))
  {}

  /** The chain completes exactly when no tracked order has been paid and every group it
      leads was noted; a payment stops it after the tickets, with bills, items and
      orders left behind. */
  lemma GoldenGrillCleanupCompletesIff(db: Db, c: Created)
    requires c.orderIds != {}
    ensures CleanUpGoldenGrill(db, c).completed <==> Unpaid(db, c.orderIds) && GroupsTracked(db, c.orderIds, Ids(c.groupIds))
    ensures !Unpaid(db, c.orderIds) ==>
      var end := CleanUpGoldenGrill(db, c).db;
      end.bills == db.bills && end.items == db.items && end.orders == db.orders && end.payments == db.payments
      && KotsOf(end.kots, c.orderIds) == {}
  {
    GroupsCleared(db, c.groupIds);
    GoldenGrillCleared(db, c.orderIds, Ids(c.groupIds));
  }

  /** Cleanup undoes the run whenever it completes: tickets, merges and all. */
  lemma GoldenGrillCleanupUndoes(d: Db, after: Db, c: Created)
    requires RanOn(d, after, c) && Unpaid(after, c.orderIds) && GroupsTracked(after, c.orderIds, Ids(c.groupIds))
    ensures CleanUpGoldenGrill(after, c) == Outcome(d, true)
  {
    RestoreReturns(d, after, c);
    GroupsCleared(after, c.groupIds);
    GoldenGrillCleared(after, c.orderIds, Ids(c.groupIds));
    if c.orderIds == {} { WithoutOrders(after, Ids(c.groupIds)); }
  }

  // ---------- References along the way ----------

  ghost predicate AllConsistent(states: seq<Db>) { forall i :: 0 <= i < |states| ==> Consistent(states[i]) }

  lemma Joined(a: seq<Db>, b: seq<Db>)
    requires AllConsistent(a) && AllConsistent(b)
    ensures AllConsistent(a + b)
  {}

  lemma Single(db: Db)
    requires Consistent(db)
    ensures AllConsistent([db])
  {}

  /** What each deletion commits, in order; a refused one commits nothing. */
  function TicketStates(db: Db, os: set<int>): (states: seq<Db>)
    ensures |states| == 3 && states[2] == ClearTickets(db, os)
  {
    var one := DeleteMovements(db, MovementsOf(db.movements, os));
    var two := DeleteKotLines(one, LinesOfKots(one.kotLines, KotsOf(one.kots, os)));
    [one, two, DeleteKots(two, KotsOf(one.kots, os))]
  }

  function OrderStates(db: Db, os: set<int>): (states: seq<Db>)
    ensures ClearOrders(db, os).db == if states == [] then db else states[|states| - 1]
  {
    var one := DeleteBills(db, BillsOf(db.bills, os));
    if one.None? then []
    else
      var two := DeleteItems(one.value, ItemsOf(one.value.items, os));
      var three := DeleteOrders(two, os);
      if three.None? then [one.value, two] else [one.value, two, three.value]
  }

  function GroupStates(db: Db, gs: seq<int>): (states: seq<Db>)
    ensures ClearGroups(db, gs) == if states == [] then db else states[|states| - 1]
  {
    if gs == [] then []
    else
      var before, g := ClearGroups(db, gs[..|gs| - 1]), gs[|gs| - 1];
      var memberless := DeleteMembers(before, MembersIn(before.members, {g}));
      GroupStates(db, gs[..|gs| - 1]) + [memberless, DeleteGroups(memberless, {g})]
  }

  function PrintStates(db: Db, c: Created): seq<Db> {
    if c.orderIds == {} then [db, CleanUpPrint(db, c).db]
    else
      var one := ClearTickets(db, c.orderIds);
      var two := DeletePayments(one, PaymentsOf(one.payments, BillsOf(one.bills, c.orderIds)));
      [db] + TicketStates(db, c.orderIds) + [two] + OrderStates(two, c.orderIds) + [CleanUpPrint(db, c).db]
  }

  function GoldenGrillStates(db: Db, c: Created): seq<Db> {
    var ungrouped := ClearGroups(db, c.groupIds);
    if c.orderIds == {} then [db] + GroupStates(db, c.groupIds) + [CleanUpGoldenGrill(db, c).db]
    else
      var one := ClearTickets(ungrouped, c.orderIds);
      var two := DeleteMembers(one, MembersOf(one.members, c.orderIds));
      [db] + GroupStates(db, c.groupIds) + TicketStates(ungrouped, c.orderIds) + [two] + OrderStates(two, c.orderIds)
      + [CleanUpGoldenGrill(db, c).db]
  }

  /** The orders' movements go first, then the lines of their tickets, then the tickets. */
  lemma TicketsGoInOrder(db: Db, os: set<int>)
    ensures var states := TicketStates(db, os);
            && (forall m :: m in states[0].movements ==> states[0].movements[m].order == None || states[0].movements[m].order.value !in os)
            && states[0].kots == states[1].kots == db.kots && states[0].kotLines == db.kotLines
            && (forall l :: l in states[1].kotLines && states[1].kotLines[l].kot in db.kots ==> db.kots[states[1].kotLines[l].kot].order !in os)
            && (forall k :: k in states[2].kots ==> states[2].kots[k].order !in os)
  {}

  lemma TicketsKeepReferences(db: Db, os: set<int>)
    requires Consistent(db)
    ensures AllConsistent(TicketStates(db, os))
  {
    MovementDeletionKeepsReferences(db, MovementsOf(db.movements, os));
    var one := DeleteMovements(db, MovementsOf(db.movements, os));
    LineDeletionKeepsReferences(one, LinesOfKots(one.kotLines, KotsOf(one.kots, os)));
    KotDeletionKeepsReferences(DeleteKotLines(one, LinesOfKots(one.kotLines, KotsOf(one.kots, os))), KotsOf(one.kots, os));
  }

  lemma OrdersKeepReferences(db: Db, os: set<int>)
    requires Consistent(db)
    ensures AllConsistent(OrderStates(db, os))
  {
    var one := DeleteBills(db, BillsOf(db.bills, os));
    if one.Some? {
      BillDeletionKeepsReferences(db, BillsOf(db.bills, os));
      ItemDeletionKeepsReferences(one.value, ItemsOf(one.value.items, os));
      var two := DeleteItems(one.value, ItemsOf(one.value.items, os));
      Single(one.value);
      Single(two);
      Joined([one.value], [two]);
      var three := DeleteOrders(two, os);
      if three.Some? {
        OrderDeletionKeepsReferences(two, os);
        Single(three.value);
        Joined([one.value] + [two], [three.value]);
        assert OrderStates(db, os) == [one.value] + [two] + [three.value];
      } else {
        assert OrderStates(db, os) == [one.value] + [two];
      }
    }
  }

  lemma OneGroupKeeps(before: Db, g: int)
    requires Consistent(before)
    ensures var memberless := DeleteMembers(before, MembersIn(before.members, {g}));
            Consistent(memberless) && Consistent(DeleteGroups(memberless, {g})) && AllConsistent([memberless, DeleteGroups(memberless, {g})])
  {
    MemberDeletionKeepsReferences(before, MembersIn(before.members, {g}));
    var memberless := DeleteMembers(before, MembersIn(before.members, {g}));
    GroupDeletionKeepsReferences(memberless, {g});
    Single(memberless);
    Single(DeleteGroups(memberless, {g}));
    Joined([memberless], [DeleteGroups(memberless, {g})]);
    assert [memberless, DeleteGroups(memberless, {g})] == [memberless] + [DeleteGroups(memberless, {g})];
  }

  lemma {:induction false} GroupsKeepReferences(db: Db, gs: seq<int>)
    requires Consistent(db)
    ensures AllConsistent(GroupStates(db, gs)) && Consistent(ClearGroups(db, gs))
  {
    if gs != [] {
      var init, g := gs[..|gs| - 1], gs[|gs| - 1];
      GroupsKeepReferences(db, init);
      var before := ClearGroups(db, init);
      OneGroupKeeps(before, g);
      var memberless := DeleteMembers(before, MembersIn(before.members, {g}));
      Joined(GroupStates(db, init), [memberless, DeleteGroups(memberless, {g})]);
    }
  }

  lemma RestoreKeepsReferences(db: Db, c: Created)
    requires Consistent(db)
    ensures Consistent(Restore(db, c))
  {}

  /** The shared end of both chains, and the write-back after it. */
  lemma EndKeepsReferences(db: Db, c: Created)
    requires Consistent(db)
    ensures AllConsistent(OrderStates(db, c.orderIds)) && Consistent(Restore(ClearOrders(db, c.orderIds).db, c))
  {
    OrdersKeepReferences(db, c.orderIds);
    var states := OrderStates(db, c.orderIds);
    assert Consistent(ClearOrders(db, c.orderIds).db) by { assert states != [] ==> Consistent(states[|states| - 1]); }
    RestoreKeepsReferences(ClearOrders(db, c.orderIds).db, c);
  }

  /** The part the two chains share, given the state before it and the last one. */
  lemma ChainKeepsReferences(before: seq<Db>, two: Db, os: set<int>, c: Created, end: Db)
    requires AllConsistent(before) && Consistent(two) && c.orderIds == os && end == Restore(ClearOrders(two, os).db, c)
    ensures AllConsistent(before + [two] + OrderStates(two, os) + [end])
  {
    EndKeepsReferences(two, c);
    Single(two);
    Joined(before, [two]);
    Joined(before + [two], OrderStates(two, os));
    Single(end);
    Joined(before + [two] + OrderStates(two, os), [end]);
  }

  lemma PrintKeepsReferences(db: Db, c: Created)
    requires Consistent(db)
    ensures AllConsistent(PrintStates(db, c))
  {
    var os, one := c.orderIds, ClearTickets(db, c.orderIds);
    Single(db);
    if os == {} {
      RestoreKeepsReferences(db, c);
      Single(CleanUpPrint(db, c).db);
      Joined([db], [CleanUpPrint(db, c).db]);
      assert PrintStates(db, c) == [db] + [CleanUpPrint(db, c).db];
    } else {
      TicketsKeepReferences(db, os);
      assert Consistent(one) by { assert TicketStates(db, os)[2] == one; }
      Joined([db], TicketStates(db, os));
      var payments := PaymentsOf(one.payments, BillsOf(one.bills, os));
      PaymentDeletionKeepsReferences(one, payments);
      ChainKeepsReferences([db] + TicketStates(db, os), DeletePayments(one, payments), os, c, CleanUpPrint(db, c).db);
    }
  }

  lemma GoldenGrillKeepsReferences(db: Db, c: Created)
    requires Consistent(db)
    ensures AllConsistent(GoldenGrillStates(db, c))
  {
    var os, ungrouped := c.orderIds, ClearGroups(db, c.groupIds);
    GroupsKeepReferences(db, c.groupIds);
    Single(db);
    Joined([db], GroupStates(db, c.groupIds));
    var before := [db] + GroupStates(db, c.groupIds);
    if os == {} {
      RestoreKeepsReferences(ungrouped, c);
      Single(CleanUpGoldenGrill(db, c).db);
      Joined(before, [CleanUpGoldenGrill(db, c).db]);
    } else {
      TicketsKeepReferences(ungrouped, os);
      var one := ClearTickets(ungrouped, os);
      assert Consistent(one) by { assert TicketStates(ungrouped, os)[2] == one; }
      Joined(before, TicketStates(ungrouped, os));
      MemberDeletionKeepsReferences(one, MembersOf(one.members, os));
      ChainKeepsReferences(before + TicketStates(ungrouped, os), DeleteMembers(one, MembersOf(one.members, os)), os, c, CleanUpGoldenGrill(db, c).db);
    }
  }

  /** At every state a cleanup commits, completed or stopped anywhere, no reference dangles. */
  lemma CleanupsKeepReferences(db: Db, c: Created)
    requires Consistent(db)
    ensures AllConsistent(PrintStates(db, c)) && AllConsistent(GoldenGrillStates(db, c))
  {
    PrintKeepsReferences(db, c);
    GoldenGrillKeepsReferences(db, c);
  }
}

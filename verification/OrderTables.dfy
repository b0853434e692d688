/** The order tables of one database with their foreign keys.  A deletion either fails,
    when a restricting reference remains, or takes the cascading rows with it. */
module OrderTables {
  import opened Prelude

  datatype Order = Order(restaurant: int)
  datatype Item = Item(order: int)
  datatype Kot = Kot(order: int, restaurant: int)
  datatype KotLine = KotLine(kot: int, item: int)
  datatype Bill = Bill(order: int, restaurant: int)
  datatype Payment = Payment(bill: int, restaurant: int)
  datatype Movement = Movement(order: Option<int>, menuItem: int)
  datatype Discount = Discount(order: int)
  datatype Group = Group(primary: int)
  datatype Member = Member(group: int, order: int, table: int)

  datatype Db = Db(
    orders: map<int, Order>, items: map<int, Item>, kots: map<int, Kot>, kotLines: map<int, KotLine>,
    bills: map<int, Bill>, payments: map<int, Payment>, movements: map<int, Movement>, discounts: map<int, Discount>,
    groups: map<int, Group>, members: map<int, Member>,
    available: map<int, bool>,       // tables
    stock: map<int, int>)            // menu items

  ghost predicate Consistent(db: Db) {
    && (forall i :: i in db.items ==> db.items[i].order in db.orders)
    && (forall k :: k in db.kots ==> db.kots[k].order in db.orders)
    && (forall l :: l in db.kotLines ==> db.kotLines[l].kot in db.kots && db.kotLines[l].item in db.items)
    && (forall b :: b in db.bills ==> db.bills[b].order in db.orders)
    && (forall p :: p in db.payments ==> db.payments[p].bill in db.bills)
    && (forall m :: m in db.movements && db.movements[m].order.Some? ==> db.movements[m].order.value in db.orders)
    && (forall d :: d in db.discounts ==> db.discounts[d].order in db.orders)
    && (forall g :: g in db.groups ==> db.groups[g].primary in db.orders)
    && (forall m :: m in db.members ==> db.members[m].group in db.groups && db.members[m].order in db.orders)
  }

  // ---------- Rows by what they refer to ----------

  function ItemsOf(items: map<int, Item>, os: set<int>): set<int> { set i | i in items && items[i].order in os }

  function KotsOf(kots: map<int, Kot>, os: set<int>): set<int> { set k | k in kots && kots[k].order in os }

  function BillsOf(bills: map<int, Bill>, os: set<int>): set<int> { set b | b in bills && bills[b].order in os }

  function MovementsOf(movements: map<int, Movement>, os: set<int>): set<int> {
    set m | m in movements && movements[m].order.Some? && movements[m].order.value in os
  }

  function DiscountsOf(discounts: map<int, Discount>, os: set<int>): set<int> { set d | d in discounts && discounts[d].order in os }

  function GroupsOf(groups: map<int, Group>, os: set<int>): set<int> { set g | g in groups && groups[g].primary in os }

  function MembersOf(members: map<int, Member>, os: set<int>): set<int> { set m | m in members && members[m].order in os }

  function MembersIn(members: map<int, Member>, gs: set<int>): set<int> { set m | m in members && members[m].group in gs }

  function PaymentsOf(payments: map<int, Payment>, bs: set<int>): set<int> { set p | p in payments && payments[p].bill in bs }

  function LinesOfKots(lines: map<int, KotLine>, ks: set<int>): set<int> { set l | l in lines && lines[l].kot in ks }

  function LinesOfItems(lines: map<int, KotLine>, is': set<int>): set<int> { set l | l in lines && lines[l].item in is' }

  function Unlinked(movements: map<int, Movement>, os: set<int>): map<int, Movement> {
    map m | m in movements :: if m in MovementsOf(movements, os) then movements[m].(order := None) else movements[m]
  }

  // ---------- Deletions ----------

  function DeleteMovements(db: Db, ms: set<int>): Db { db.(movements := db.movements - ms) }

  function DeleteKotLines(db: Db, ls: set<int>): Db { db.(kotLines := db.kotLines - ls) }

  function DeletePayments(db: Db, ps: set<int>): Db { db.(payments := db.payments - ps) }

  function DeleteMembers(db: Db, ms: set<int>): Db { db.(members := db.members - ms) }

  /** Lines go with their ticket. */
  function DeleteKots(db: Db, ks: set<int>): Db {
    db.(kots := db.kots - ks, kotLines := db.kotLines - LinesOfKots(db.kotLines, ks))
  }

  /** Lines go with their order item. */
  function DeleteItems(db: Db, is': set<int>): Db {
    db.(items := db.items - is', kotLines := db.kotLines - LinesOfItems(db.kotLines, is'))
  }

  /** Members go with their group. */
  function DeleteGroups(db: Db, gs: set<int>): Db {
    db.(groups := db.groups - gs, members := db.members - MembersIn(db.members, gs))
  }

  function DeleteBills(db: Db, bs: set<int>): Option<Db> {
    if PaymentsOf(db.payments, bs) != {} then None else Some(db.(bills := db.bills - bs))
  }

  predicate Unreferenced(db: Db, os: set<int>) {
    && ItemsOf(db.items, os) == {} && KotsOf(db.kots, os) == {} && BillsOf(db.bills, os) == {}
    && GroupsOf(db.groups, os) == {} && MembersOf(db.members, os) == {}
  }

  /** Refused while an item, ticket, bill, group or member refers to an order; promotion
      rows go with it and stock movements lose the reference. */
  function DeleteOrders(db: Db, os: set<int>): Option<Db> {
    if !Unreferenced(db, os) then None
    else
      Some(db.(orders := db.orders - os, discounts := db.discounts - DiscountsOf(db.discounts, os), movements := Unlinked(db.movements, os)))
  }

  /** A chain of deletions, each committed on its own: where it ended, and whether it went
      through. */
  datatype Outcome = Outcome(db: Db, completed: bool)

  /** No merge group or member names one of the orders. */
  /** No merge group has one of the orders as its primary, and no member row names one. */
  predicate NotMerged(db: Db, os: set<int>) {
    && (forall g :: g in db.groups ==> db.groups[g].primary !in os)
    && (forall m :: m in db.members ==> db.members[m].order !in os)
  }

  lemma NotMergedIff(db: Db, os: set<int>)
    ensures NotMerged(db, os) <==> GroupsOf(db.groups, os) == {} && MembersOf(db.members, os) == {}
  {
    if GroupsOf(db.groups, os) == {} && MembersOf(db.members, os) == {} {
      forall g | g in db.groups ensures db.groups[g].primary !in os { assert g !in GroupsOf(db.groups, os); }
      forall m | m in db.members ensures db.members[m].order !in os { assert m !in MembersOf(db.members, os); }
    }
    if NotMerged(db, os) {
      assert forall g :: g !in GroupsOf(db.groups, os);
      assert forall m :: m !in MembersOf(db.members, os);
    }
  }

  // ---------- References stay whole ----------

  lemma MovementDeletionKeepsReferences(db: Db, ids: set<int>)
    requires Consistent(db)
    ensures Consistent(DeleteMovements(db, ids))
  {}

  lemma LineDeletionKeepsReferences(db: Db, ids: set<int>)
    requires Consistent(db)
    ensures Consistent(DeleteKotLines(db, ids))
  {}

  lemma PaymentDeletionKeepsReferences(db: Db, ids: set<int>)
    requires Consistent(db)
    ensures Consistent(DeletePayments(db, ids))
  {}

  lemma MemberDeletionKeepsReferences(db: Db, ids: set<int>)
    requires Consistent(db)
    ensures Consistent(DeleteMembers(db, ids))
  {}

  lemma KotDeletionKeepsReferences(db: Db, ks: set<int>)
    requires Consistent(db)
    ensures Consistent(DeleteKots(db, ks))
  {
    var end := DeleteKots(db, ks);
    forall l | l in end.kotLines ensures end.kotLines[l].kot in end.kots { assert l !in LinesOfKots(db.kotLines, ks); }
  }

  lemma ItemDeletionKeepsReferences(db: Db, is': set<int>)
    requires Consistent(db)
    ensures Consistent(DeleteItems(db, is'))
  {
    var end := DeleteItems(db, is');
    forall l | l in end.kotLines ensures end.kotLines[l].item in end.items { assert l !in LinesOfItems(db.kotLines, is'); }
  }

  lemma GroupDeletionKeepsReferences(db: Db, gs: set<int>)
    requires Consistent(db)
    ensures Consistent(DeleteGroups(db, gs))
  {
    var end := DeleteGroups(db, gs);
    forall m | m in end.members ensures end.members[m].group in end.groups { assert m !in MembersIn(db.members, gs); }
  }

  lemma BillDeletionKeepsReferences(db: Db, bs: set<int>)
    requires Consistent(db) && DeleteBills(db, bs).Some?
    ensures Consistent(DeleteBills(db, bs).value)
  {
    forall p | p in db.payments ensures db.payments[p].bill !in bs { assert p !in PaymentsOf(db.payments, bs); }
  }

  lemma OrderDeletionKeepsReferences(db: Db, os: set<int>)
    requires Consistent(db) && DeleteOrders(db, os).Some?
    ensures Consistent(DeleteOrders(db, os).value)
  {
    var end := DeleteOrders(db, os).value;
    forall i | i in db.items ensures db.items[i].order !in os { assert i !in ItemsOf(db.items, os); }
    forall k | k in db.kots ensures db.kots[k].order !in os { assert k !in KotsOf(db.kots, os); }
    forall b | b in db.bills ensures db.bills[b].order !in os { assert b !in BillsOf(db.bills, os); }
    forall g | g in db.groups ensures db.groups[g].primary !in os { assert g !in GroupsOf(db.groups, os); }
    forall m | m in db.members ensures db.members[m].order !in os { assert m !in MembersOf(db.members, os); }
    forall d | d in end.discounts ensures end.discounts[d].order in end.orders { assert d !in DiscountsOf(db.discounts, os); }
    forall m | m in end.movements && end.movements[m].order.Some? ensures end.movements[m].order.value in end.orders {
      assert m !in MovementsOf(db.movements, os);
    }
  }

  // ---------- Removing rows from one table ----------

  lemma MinusNothing<V>(m: map<int, V>)
    ensures m - {} == m
  {}

  lemma MinusTwice<V>(m: map<int, V>, a: set<int>, b: set<int>)
    ensures (m - a) - b == m - (a + b)
  {}

  lemma KotsGone(kots: map<int, Kot>, os: set<int>)
    ensures KotsOf(kots - KotsOf(kots, os), os) == {}
  {}

  lemma ItemsGone(items: map<int, Item>, os: set<int>)
    ensures ItemsOf(items - ItemsOf(items, os), os) == {}
  {}

  lemma BillsGone(bills: map<int, Bill>, os: set<int>)
    ensures BillsOf(bills - BillsOf(bills, os), os) == {}
  {}

  lemma PaymentsGone(payments: map<int, Payment>, bs: set<int>)
    ensures PaymentsOf(payments - PaymentsOf(payments, bs), bs) == {}
  {}

  lemma MembersGone(members: map<int, Member>, os: set<int>)
    ensures MembersOf(members - MembersOf(members, os), os) == {}
  {}

  lemma LinesGone(lines: map<int, KotLine>, ks: set<int>)
    ensures LinesOfKots(lines - LinesOfKots(lines, ks), ks) == {}
  {}

  lemma MovementsGone(movements: map<int, Movement>, os: set<int>)
    ensures var left := movements - MovementsOf(movements, os);
            MovementsOf(left, os) == {} && Unlinked(left, os) == left
  {}

  lemma LinesOfBoth(lines: map<int, KotLine>, ks: set<int>, is': set<int>)
    ensures var left := lines - LinesOfKots(lines, ks);
            left - LinesOfItems(left, is') == lines - (LinesOfKots(lines, ks) + LinesOfItems(lines, is'))
  {}
}

/** Which transactions keep every order alone at an occupied table, exactly; and whole
    runs of groups and tables together. */
module KitchenTables {
  import opened Prelude
  import opened KitchenLedger
  import opened KitchenSeating
  import opened KitchenGroups

  predicate Taken(tables: map<int, TableStatus>, table: Option<int>) { table.Some? ==> Occupied(tables, table.value) }

  /** Every order that keeps a table has an occupied one, and no two have the same. */
  ghost predicate TablesOk(s: Seats) {
    && (forall o :: Holds(s, o) ==> Taken(s.tables, s.orders[o].tableId))
    && (forall o, p :: Holds(s, o) && Holds(s, p) && o != p ==> s.orders[o].tableId != s.orders[p].tableId)
  }

  ghost predicate HeldAt(s: Seats, t: int) { exists o :: Holds(s, o) && s.orders[o].tableId == Some(t) }

  ghost predicate HeldByOther(s: Seats, order: int, t: int) { exists o :: o != order && Holds(s, o) && s.orders[o].tableId == Some(t) }

  ghost predicate SeatsOk(db: Db) { GroupsOk(db.seats, db.jobs) && TablesOk(db.seats) }

  // ---------- Placing ----------

  ghost predicate SameSources(s: Seats, s': Seats) {
    && (forall g :: ActiveIn(s'.groups, g) ==> ActiveIn(s.groups, g) && s'.groups[g] == s.groups[g])
    && (forall g :: ActiveIn(s.groups, g) ==> ActiveIn(s'.groups, g))
  }

  lemma SameWaiting(s: Seats, s': Seats, o: int)
    requires SameSources(s, s')
    ensures (exists g :: Source(s', g, o)) <==> exists g :: Source(s, g, o)
  {
    if g :| Source(s', g, o) { assert Source(s, g, o); }
    if g :| Source(s, g, o) { assert Source(s', g, o); }
  }

  lemma PlacedHolds(s: Seats, table: Option<int>, id: nat, o: int)
    requires WiredSeats(s, id)
    ensures Holds(PlaceSeats(s, table, id), o) <==> if o == id then table.Some? else Holds(s, o)
  {
    SameWaiting(s, PlaceSeats(s, table, id), o);
  }

  lemma PlaceTablesIff(s: Seats, table: Option<int>, id: nat)
    requires WiredSeats(s, id) && TablesOk(s)
    ensures TablesOk(PlaceSeats(s, table, id)) <==> (table.Some? ==> !HeldAt(s, table.value))
  {
    var s' := PlaceSeats(s, table, id);
    forall o ensures Holds(s', o) <==> if o == id then table.Some? else Holds(s, o) { PlacedHolds(s, table, id, o); }
    if table.Some? && HeldAt(s, table.value) {
      var o :| Holds(s, o) && s.orders[o].tableId == table;
      assert Holds(s', o) && Holds(s', id) && o != id && s'.orders[o].tableId == s'.orders[id].tableId;
    }
  }

  // ---------- Merging ----------

  /** An order has its table to itself, if it should keep it. */
  ghost predicate KeepsOwnTable(s: Seats, o: int) {
    Holds(s, o) || (o in s.orders && s.orders[o].tableId.Some? && Taken(s.tables, s.orders[o].tableId)
                    && !HeldAt(s, s.orders[o].tableId.value))
  }

  /** One order more keeps its table, and nothing else changes. */
  lemma OneMoreHolds(s: Seats, s': Seats, o: int)
    requires TablesOk(s) && s'.tables == s.tables && o in s.orders && s.orders[o].tableId.Some?
    requires forall p :: p in s.orders ==> p in s'.orders && s'.orders[p].tableId == s.orders[p].tableId
    requires forall p :: Holds(s', p) <==> Holds(s, p) || p == o
    ensures TablesOk(s') <==> KeepsOwnTable(s, o)
  {
    if TablesOk(s') {
      assert Holds(s', o);
      if !Holds(s, o) {
        forall p | Holds(s, p) ensures s.orders[p].tableId != s.orders[o].tableId { assert Holds(s', p); }
      }
    }
  }

  lemma JoinedHolds(s: Seats, jobs: map<int, Job>, source: int, target: int, joins: Option<int>, sourceTable: int, targetTable: Option<int>, id: nat, o: int)
    requires WiredSeats(s, id) && WiredMerge(s, source, target, joins, targetTable)
    requires GroupsOk(s, jobs) && MergeSafe(s, jobs, source, target, joins) && (joins.Some? ==> ActiveIn(s.groups, joins.value))
    ensures Holds(MergeSeats(s, source, target, joins, sourceTable, targetTable, id), o) <==> Holds(s, o) || o == source
  {
    var s' := MergeSeats(s, source, target, joins, sourceTable, targetTable, id);
    var g := if joins.Some? then joins.value else id;
    if o == source {
      var members := s'.groups[g].members;
      assert members[if joins.Some? then |members| - 1 else 0].orderId == source;
      assert Source(s', g, source);
    } else {
      forall h ensures Source(s', h, o) <==> Source(s, h, o) {
        if h == g && joins.Some? { Joined(s.groups[g].members, Member(sourceTable, source), o); }
      }
    }
  }

  lemma LateMergeTables(s: Seats, source: int, target: int, g: int, sourceTable: int, targetTable: Option<int>, id: nat)
    requires TablesOk(s) && source in s.orders && g in s.groups && !ActiveIn(s.groups, g)
    ensures TablesOk(MergeSeats(s, source, target, Some(g), sourceTable, targetTable, id))
  {
    var s' := MergeSeats(s, source, target, Some(g), sourceTable, targetTable, id);
    forall o | Holds(s', o) ensures Holds(s, o) { SameWaiting(s, s', o); }
  }

  /** A source that will wait in a group has its table to itself. */
  ghost predicate MergeSafeTable(s: Seats, source: int, joins: Option<int>) {
    (joins.Some? && !ActiveIn(s.groups, joins.value)) || KeepsOwnTable(s, source)
  }

  lemma MergeTablesIff(s: Seats, jobs: map<int, Job>, source: int, target: int, joins: Option<int>, sourceTable: int, targetTable: Option<int>, id: nat)
    requires WiredSeats(s, id) && WiredMerge(s, source, target, joins, targetTable)
    requires GroupsOk(s, jobs) && TablesOk(s) && MergeSafe(s, jobs, source, target, joins)
    ensures TablesOk(MergeSeats(s, source, target, joins, sourceTable, targetTable, id)) <==> MergeSafeTable(s, source, joins)
  {
    if joins.Some? && !ActiveIn(s.groups, joins.value) {
      LateMergeTables(s, source, target, joins.value, sourceTable, targetTable, id);
    } else {
      var s' := MergeSeats(s, source, target, joins, sourceTable, targetTable, id);
      forall o ensures Holds(s', o) <==> Holds(s, o) || o == source {
        JoinedHolds(s, jobs, source, target, joins, sourceTable, targetTable, id, o);
      }
      OneMoreHolds(s, s', source);
    }
  }

  // ---------- Splitting ----------

  /** What keeps a table after a split: open orders, reopened ones, sources of other groups. */
  ghost predicate HoldsPast(s: Seats, g: int, o: int) {
    o in s.orders && s.orders[o].tableId.Some? && (IsOpen(s.orders[o]) || exists h :: h != g && Source(s, h, o))
  }

  /** Every reopened order finds its table occupied, if only by the split itself, and with
      no other order that keeps it. */
  ghost predicate SplitSafeTable(s: Seats, g: int, primary: int, members: seq<Member>) {
    forall o :: Reopened(members, primary, o) && o in s.orders && s.orders[o].tableId.Some? ==>
      && (Occupied(s.tables, s.orders[o].tableId.value) || Reseated(members, primary, s.orders[o].tableId.value))
      && forall p :: p in s.orders && o != p && (Reopened(members, primary, p) || HoldsPast(s, g, p)) ==>
           s.orders[o].tableId != s.orders[p].tableId
  }

  lemma SplitHolds(s: Seats, g: int, primary: int, members: seq<Member>, o: int)
    requires WiredSplit(s, g, primary, members)
    ensures Holds(SplitSeats(s, g, primary, members), o) <==> Reopened(members, primary, o) || HoldsPast(s, g, o)
    ensures Reopened(members, primary, o) ==> o in s.orders && s.orders[o].tableId.Some?
  {
    var s' := SplitSeats(s, g, primary, members);
    ReopenEffect(s.orders, members, primary);
    if Reopened(members, primary, o) {
      var m :| m in members && m.orderId == o;
      assert WiredMember(s, m);
    } else {
      forall h ensures Source(s', h, o) <==> h != g && Source(s, h, o) {}
    }
  }

  lemma SplitTablesIff(s: Seats, g: int, primary: int, members: seq<Member>)
    requires WiredSplit(s, g, primary, members) && TablesOk(s)
    ensures TablesOk(SplitSeats(s, g, primary, members)) <==> SplitSafeTable(s, g, primary, members)
  {
    var s' := SplitSeats(s, g, primary, members);
    ReopenEffect(s.orders, members, primary);
    OccupyEffect(s.tables, members, primary);
    forall o
      ensures Holds(s', o) <==> Reopened(members, primary, o) || HoldsPast(s, g, o)
      ensures Reopened(members, primary, o) ==> o in s.orders && s.orders[o].tableId.Some?
    {
      SplitHolds(s, g, primary, members, o);
    }
    if SplitSafeTable(s, g, primary, members) { SplitKeepsTables(s, g, primary, members); }
    if TablesOk(s') {
      forall o | Reopened(members, primary, o) && o in s.orders && s.orders[o].tableId.Some?
        ensures Occupied(s.tables, s.orders[o].tableId.value) || Reseated(members, primary, s.orders[o].tableId.value)
        ensures forall p :: p in s.orders && o != p && (Reopened(members, primary, p) || HoldsPast(s, g, p)) ==>
                              s.orders[o].tableId != s.orders[p].tableId
      {
        assert Holds(s', o) && s'.orders[o].tableId == s.orders[o].tableId;
      }
    }
  }

  lemma SplitKeepsTables(s: Seats, g: int, primary: int, members: seq<Member>)
    requires WiredSplit(s, g, primary, members) && TablesOk(s) && SplitSafeTable(s, g, primary, members)
    ensures TablesOk(SplitSeats(s, g, primary, members))
  {
    var s' := SplitSeats(s, g, primary, members);
    ReopenEffect(s.orders, members, primary);
    OccupyEffect(s.tables, members, primary);
    forall o | Holds(s', o)
      ensures o in s.orders && s'.orders[o].tableId == s.orders[o].tableId && Taken(s'.tables, s'.orders[o].tableId)
      ensures Reopened(members, primary, o) || (HoldsPast(s, g, o) && Holds(s, o))
    {
      SplitHolds(s, g, primary, members, o);
      assert !Reopened(members, primary, o) ==> Holds(s, o);
    }
  }

  // ---------- Cancelling and releasing ----------

  lemma StatusHolds(s: Seats, s': Seats, order: int, status: OrderStatus, o: int)
    requires order in s.orders && s'.groups == s.groups && s'.orders == s.orders[order := s.orders[order].(status := status)]
    ensures o != order ==> (Holds(s', o) <==> Holds(s, o))
    ensures Holds(s', order) <==> s.orders[order].tableId.Some? && (IsOpen(s'.orders[order]) || exists g :: Source(s, g, order))
  {
    SameWaiting(s, s', o);
    SameWaiting(s, s', order);
  }

  /** Fewer orders keep a table and some tables are freed. */
  lemma FreedIff(s: Seats, s': Seats, freed: set<int>)
    requires TablesOk(s)
    requires forall o :: Holds(s', o) ==> Holds(s, o) && s'.orders[o].tableId == s.orders[o].tableId
    requires forall t :: t in freed ==> t in s'.tables && s'.tables[t] == AVAILABLE
    requires forall t :: t !in freed && Occupied(s.tables, t) ==> Occupied(s'.tables, t)
    ensures TablesOk(s') <==> forall o :: Holds(s', o) ==> s.orders[o].tableId.value !in freed
  {
    if TablesOk(s') {
      forall o | Holds(s', o) ensures s.orders[o].tableId.value !in freed { assert Taken(s'.tables, s'.orders[o].tableId); }
    }
  }

  /** The table a cancel read is not another order's by now. */
  ghost predicate CancelSafeTable(s: Seats, order: int, table: Option<int>) {
    CancelLands(s, order) && table.Some? ==> !HeldByOther(s, order, table.value)
  }

  lemma CancelTablesIff(s: Seats, jobs: map<int, Job>, order: int, table: Option<int>)
    requires GroupsOk(s, jobs) && TablesOk(s) && CancelLands(s, order)
    ensures TablesOk(CancelSeats(s, order, table)) <==> CancelSafeTable(s, order, table)
  {
    var s' := CancelSeats(s, order, table);
    forall g ensures !Source(s, g, order) {
      if Source(s, g, order) { SourceWaits(s, jobs, g, order); }
    }
    forall o ensures Holds(s', o) <==> Holds(s, o) && o != order {
      StatusHolds(s, s', order, CANCELLED, o);
      StatusHolds(s, s', order, CANCELLED, order);
    }
    FreedIff(s, s', if table.Some? then {table.value} else {});
  }

  /** No order that goes on keeping a table sits at one the release frees. */
  ghost predicate ReleaseSafe(s: Seats, order: int, next: nat) {
    var g := ActiveGroup(s.groups, order, 0, next);
    g.Some? ==> forall o :: HoldsPast(s, g.value, o) ==> !TableListed(s.groups[g.value].members, s.orders[o].tableId.value)
  }

  lemma ReleaseHolds(s: Seats, order: int, next: nat, o: int)
    requires ActiveGroup(s.groups, order, 0, next).Some?
    ensures Holds(ReleaseSeats(s, order, next), o) <==> HoldsPast(s, ActiveGroup(s.groups, order, 0, next).value, o)
  {
    var s', g := ReleaseSeats(s, order, next), ActiveGroup(s.groups, order, 0, next).value;
    forall h ensures Source(s', h, o) <==> h != g && Source(s, h, o) {}
  }

  function Listing(members: seq<Member>): set<int> { set m | m in members :: m.tableId }

  lemma ReleaseTablesIff(s: Seats, order: int, next: nat)
    requires TablesOk(s)
    ensures TablesOk(ReleaseSeats(s, order, next)) <==> ReleaseSafe(s, order, next)
  {
    var s', found := ReleaseSeats(s, order, next), ActiveGroup(s.groups, order, 0, next);
    if found.Some? {
      var members := s.groups[found.value].members;
      FreeEffect(s.tables, members);
      forall o ensures Holds(s', o) <==> HoldsPast(s, found.value, o) { ReleaseHolds(s, order, next, o); }
      assert forall o :: HoldsPast(s, found.value, o) ==> Holds(s, o);
      assert forall t :: t in Listing(members) <==> TableListed(members, t);
      FreedIff(s, s', Listing(members));
    }
  }

  // ---------- Paying ----------

  /** Who keeps a table once an order is paid and the group it led released. */
  ghost predicate HoldsPaid(s: Seats, order: int, next: nat, o: int) {
    var g := ActiveGroup(s.groups, order, 0, next);
    o != order && if g.Some? then HoldsPast(s, g.value, o) else Holds(s, o)
  }

  function FreedByPayment(s: Seats, order: int, table: Option<int>, next: nat): set<int> {
    var g := ActiveGroup(s.groups, order, 0, next);
    (if table.Some? then {table.value} else {}) + (if g.Some? then Listing(s.groups[g.value].members) else {})
  }

  /** Nobody goes on sitting at the table the payment read or one its group lists. */
  ghost predicate PaySafeTable(s: Seats, order: int, table: Option<int>, next: nat) {
    forall o :: HoldsPaid(s, order, next, o) ==> s.orders[o].tableId.value !in FreedByPayment(s, order, table, next)
  }

  lemma PaidHolds(s: Seats, order: int, table: Option<int>, next: nat, o: int)
    requires order in s.orders && PaySafe(s, order)
    ensures Holds(PaySeats(s, order, table, next), o) <==> HoldsPaid(s, order, next, o)
  {
    var s' := PaySeats(s, order, table, next);
    forall h ensures Source(s', h, o) <==> Source(s, h, o) && ActiveGroup(s.groups, order, 0, next) != Some(h) {
      PaidGroups(s, order, table, next, h);
    }
  }

  lemma PaidTables(s: Seats, order: int, table: Option<int>, next: nat, t: int)
    requires order in s.orders
    ensures var freed, after := FreedByPayment(s, order, table, next), PaySeats(s, order, table, next).tables;
            if t in freed then t in after && after[t] == AVAILABLE else Occupied(s.tables, t) ==> Occupied(after, t)
  {
    var g := ActiveGroup(s.groups, order, 0, next);
    if g.Some? {
      FreeEffect(CloseSeats(s, order, COMPLETED, table).tables, s.groups[g.value].members);
      assert t in Listing(s.groups[g.value].members) <==> TableListed(s.groups[g.value].members, t);
    }
  }

  lemma PayTablesIff(s: Seats, order: int, table: Option<int>, next: nat)
    requires TablesOk(s) && order in s.orders && PaySafe(s, order)
    ensures TablesOk(PaySeats(s, order, table, next)) <==> PaySafeTable(s, order, table, next)
  {
    var s' := PaySeats(s, order, table, next);
    forall o ensures Holds(s', o) <==> HoldsPaid(s, order, next, o) { PaidHolds(s, order, table, next, o); }
    assert forall o :: HoldsPaid(s, order, next, o) ==> Holds(s, o);
    forall t ensures var freed := FreedByPayment(s, order, table, next);
                     if t in freed then t in s'.tables && s'.tables[t] == AVAILABLE else Occupied(s.tables, t) ==> Occupied(s'.tables, t)
    {
      PaidTables(s, order, table, next, t);
    }
    FreedIff(s, s', FreedByPayment(s, order, table, next));
  }

  // ---------- Transfers ----------

  /** The old table is nobody else's, nor the new one if the order will keep it. */
  ghost predicate MoveSafeTable(s: Seats, order: int, from: int, to: int) {
    && (from != to ==> !HeldByOther(s, order, from))
    && (Holds(s, order) ==> !HeldByOther(s, order, to))
  }

  lemma MovedHolds(s: Seats, order: int, from: int, to: int, o: int)
    requires order in s.orders && s.orders[order].tableId.Some?
    ensures Holds(MoveSeats(s, order, from, to), o) <==> Holds(s, o)
  {
    SameWaiting(s, MoveSeats(s, order, from, to), o);
  }

  lemma MoveTablesIff(s: Seats, order: int, from: int, to: int)
    requires TablesOk(s) && order in s.orders && s.orders[order].tableId.Some?
    ensures TablesOk(MoveSeats(s, order, from, to)) <==> MoveSafeTable(s, order, from, to)
  {
    var s' := MoveSeats(s, order, from, to);
    forall o ensures Holds(s', o) <==> Holds(s, o) { MovedHolds(s, order, from, to, o); }
    if TablesOk(s') {
      forall o | o != order && Holds(s, o)
        ensures from != to ==> s.orders[o].tableId != Some(from)
        ensures Holds(s, order) ==> s.orders[o].tableId != Some(to)
      {
        assert Holds(s', o) && Taken(s'.tables, s'.orders[o].tableId);
        assert Holds(s, order) ==> Holds(s', order);
      }
    }
  }

  // ---------- Setting a status ----------

  ghost predicate SetSafeTable(s: Seats, order: int, status: OrderStatus) {
    order in s.orders && s.orders[order].tableId.Some? && !status.COMPLETED? && !status.CANCELLED? ==>
      KeepsOwnTable(s, order)
  }

  lemma SetTablesIff(s: Seats, order: int, status: OrderStatus)
    requires TablesOk(s) && order in s.orders
    ensures TablesOk(SetSeats(s, order, status)) <==> SetSafeTable(s, order, status)
  {
    var s' := SetSeats(s, order, status);
    forall o ensures o != order ==> (Holds(s', o) <==> Holds(s, o)) { StatusHolds(s, s', order, status, o); }
    StatusHolds(s, s', order, status, order);
    if IsOpen(s'.orders[order]) && s.orders[order].tableId.Some? {
      OneMoreHolds(s, s', order);
    } else {
      assert forall o :: Holds(s', o) ==> Holds(s, o);
    }
  }

  // ---------- One event, and whole runs ----------

  ghost predicate JobKeepsTables(db: Db, job: Job) {
    match job
    case Placing(table, _, _) => table.Some? ==> !HeldAt(db.seats, table.value)
    case Merging(source, _, moved, joins, _, _) => AllPresent(db.rows.items, moved) ==> MergeSafeTable(db.seats, source, joins)
    case Splitting(g, primary, members) => SplitSafeTable(db.seats, g, primary, members)
    case Cancelling(order, table) => CancelSafeTable(db.seats, order, table)
    case Releasing(order) => ReleaseSafe(db.seats, order, db.next)
    case Setting(order, status) => SetSafeTable(db.seats, order, status)
    case Moving(order, from, to) => MoveSafeTable(db.seats, order, from, to)
    case Paying(order, table) => PaySafeTable(db.seats, order, table, db.next)
    case _ => true
  }

  ghost predicate Safe(db: Db, e: Event) {
    KeepsGroups(db, e) && (e.Commit? && e.worker in db.jobs ==> JobKeepsTables(db, db.jobs[e.worker]))
  }

  lemma CommitTablesIff(db: Db, job: Job)
    requires Wired(db) && WiredJob(db.seats, job) && SeatsOk(db) && JobKeepsGroups(db, job)
    ensures TablesOk(SeatsAfter(db, job)) <==> JobKeepsTables(db, job)
  {
    var s := db.seats;
    match job
    case Placing(table, _, _) => PlaceTablesIff(s, table, db.next);
    case Merging(source, target, moved, joins, sourceTable, targetTable) =>
      if AllPresent(db.rows.items, moved) { MergeTablesIff(s, db.jobs, source, target, joins, sourceTable, targetTable, db.next); }
    case Splitting(g, primary, members) => SplitTablesIff(s, g, primary, members);
    case Cancelling(order, table) => if CancelLands(s, order) { CancelTablesIff(s, db.jobs, order, table); }
    case Releasing(order) => ReleaseTablesIff(s, order, db.next);
    case Setting(order, status) => SetTablesIff(s, order, status);
    case Moving(order, from, to) => MoveTablesIff(s, order, from, to);
    case Paying(order, table) => PayTablesIff(s, order, table, db.next);
    case _ =>
  }

  lemma StepSafeIff(db: Db, e: Event)
    requires Wired(db) && SeatsOk(db)
    ensures SeatsOk(Apply(db, e)) <==> Safe(db, e)
  {
    StepGroupsIff(db, e);
    if KeepsGroups(db, e) && e.Commit? && e.worker in db.jobs { CommitTablesIff(db, db.jobs[e.worker]); }
  }

  ghost predicate SeatedThroughout(db: Db, es: seq<Event>) { forall k :: 0 <= k <= |es| ==> SeatsOk(Run(db, es[..k])) }

  ghost predicate AllSafe(db: Db, es: seq<Event>) { forall k :: 0 <= k < |es| ==> Safe(Run(db, es[..k]), es[k]) }

  lemma OneMoreSafe(db: Db, es: seq<Event>, k: nat)
    requires Wired(db) && k < |es| && SeatsOk(Run(db, es[..k]))
    ensures SeatsOk(Run(db, es[..k + 1])) <==> Safe(Run(db, es[..k]), es[k])
  {
    WiredRun(db, es[..k]);
    StepSafeIff(Run(db, es[..k]), es[k]);
    RunNext(db, es, k);
  }

  lemma {:induction false} SafeKeeps(db: Db, es: seq<Event>, k: nat)
    requires Wired(db) && SeatsOk(db) && AllSafe(db, es) && k <= |es|
    ensures SeatsOk(Run(db, es[..k]))
  {
    if k > 0 {
      SafeKeeps(db, es, k - 1);
      OneMoreSafe(db, es, k - 1);
    }
  }

  /** Over every run of all requests in every interleaving, with crashes: each order waits
      in at most one active group, under an open or leaving primary, and each order that
      keeps a table is alone at an occupied one, throughout the run exactly when every
      event is safe where it happens. */
  lemma SeatedThroughoutIffSafe(db: Db, es: seq<Event>)
    requires Wired(db) && SeatsOk(db)
    ensures SeatedThroughout(db, es) <==> AllSafe(db, es)
  {
    if AllSafe(db, es) {
      forall k | 0 <= k <= |es| ensures SeatsOk(Run(db, es[..k])) { SafeKeeps(db, es, k); }
    }
    if SeatedThroughout(db, es) {
      forall k | 0 <= k < |es| ensures Safe(Run(db, es[..k]), es[k]) {
        assert SeatsOk(Run(db, es[..k])) && SeatsOk(Run(db, es[..k + 1]));
        OneMoreSafe(db, es, k);
      }
    }
  }

  // ---------- Checks that still pass make a request safe ----------

  lemma OpenHolds(s: Seats, jobs: map<int, Job>, o: int, g: int)
    requires GroupsOk(s, jobs) && o in s.orders && IsOpen(s.orders[o])
    ensures !Source(s, g, o)
  {
    if Source(s, g, o) { SourceWaits(s, jobs, g, o); }
  }

  lemma MergeGuardIsSafe(db: Db, source: int, target: int)
    requires Wired(db) && SeatsOk(db) && Start(db, MergeOrders(source, target)).Some?
    ensures JobKeepsGroups(db, Start(db, MergeOrders(source, target)).value)
    ensures JobKeepsTables(db, Start(db, MergeOrders(source, target)).value)
  {
    var s, joins := db.seats, ActiveGroup(db.seats.groups, target, 0, db.next);
    if joins.None? {
      forall g | g in s.groups ensures !InActive(s.groups, g, target) {
        OpenHolds(s, db.jobs, target, g);
        assert !Leads(s.groups, g, target);
      }
    }
    assert Holds(s, source);
  }

  lemma SplitGuardIsSafe(db: Db, g: int)
    requires Wired(db) && SeatsOk(db) && Start(db, SplitGroup(g)).Some?
    ensures JobKeepsGroups(db, Start(db, SplitGroup(g)).value)
    ensures JobKeepsTables(db, Start(db, SplitGroup(g)).value)
  {
    var s := db.seats;
    var primary, members := s.groups[g].primary, s.groups[g].members;
    forall h, m | h in s.groups && m in members && h != g && m.orderId != primary ensures !Source(s, h, m.orderId) {
      assert InActive(s.groups, g, m.orderId);
      if Source(s, h, m.orderId) { OneGroup(s, db.jobs, g, h, m.orderId); }
    }
    forall o | Reopened(members, primary, o) ensures Holds(s, o) {
      var m :| m in members && m.orderId == o;
      assert WiredGroup(s, s.groups[g]) && WiredMember(s, m);
      assert Source(s, g, o);
    }
    assert forall o :: HoldsPast(s, g, o) ==> Holds(s, o);
  }

  /** A request to place, merge, split or cancel whose checks would pass again with the
      same reads where it commits is safe. */
  lemma UnchangedChecksAreSafe(db: Db, w: int, r: Request, updates: nat)
    requires Wired(db) && SeatsOk(db) && w in db.jobs && Start(db, r) == Some(db.jobs[w])
    requires !r.SetStatus? && !r.Transfer? && !r.PayOrder?
    ensures Safe(db, Commit(w, updates))
  {
    match r
    case MergeOrders(source, target) => MergeGuardIsSafe(db, source, target);
    case SplitGroup(g) => SplitGuardIsSafe(db, g);
    case _ =>
  }

  /** A transfer whose checks would pass again is safe exactly when no other order keeps
      the old table, as none does while the transferred order is open. */
  lemma TransferIsSafeIff(db: Db, w: int, order: int, to: int, updates: nat)
    requires Wired(db) && SeatsOk(db) && w in db.jobs && Start(db, Transfer(order, to)) == Some(db.jobs[w])
    ensures Safe(db, Commit(w, updates)) <==> !HeldByOther(db.seats, order, db.seats.orders[order].tableId.value)
    ensures IsOpen(db.seats.orders[order]) ==> Safe(db, Commit(w, updates))
  {
    assert IsOpen(db.seats.orders[order]) ==> Holds(db.seats, order);
  }

  lemma PaidMembers(db: Db, order: int, o: int)
    requires Wired(db) && SeatsOk(db) && order in db.seats.orders && IsOpen(db.seats.orders[order])
    ensures var g := ActiveGroup(db.seats.groups, order, 0, db.next);
            HoldsPaid(db.seats, order, db.next, o)
            <==> o != order && Holds(db.seats, o) && (g.Some? ==> !HasMember(db.seats.groups[g.value], o))
  {
    var s, g := db.seats, ActiveGroup(db.seats.groups, order, 0, db.next);
    if g.Some? {
      assert GroupOk(s.orders, db.jobs, s.groups[g.value]);
      if HasMember(s.groups[g.value], o) && o != order {
        assert Source(s, g.value, o);
        SourceWaits(s, db.jobs, g.value, o);
        forall h | Source(s, h, o) ensures h == g.value { OneGroup(s, db.jobs, g.value, h, o); }
      } else if o != order {
        assert !Source(s, g.value, o);
      }
    }
  }

  lemma LedOnce(db: Db, order: int, g: int)
    requires Wired(db) && SeatsOk(db) && Leads(db.seats.groups, g, order)
    ensures ActiveGroup(db.seats.groups, order, 0, db.next) == Some(g)
  {
    var s, found := db.seats, ActiveGroup(db.seats.groups, order, 0, db.next);
    assert found.Some?;
    assert GroupOk(s.orders, db.jobs, s.groups[g]) && GroupOk(s.orders, db.jobs, s.groups[found.value]);
    OneGroup(s, db.jobs, g, found.value, order);
  }

  /** No table the group lists is kept by an order outside it. */
  ghost predicate ListsOwnTables(s: Seats, grp: Group) {
    forall o :: Holds(s, o) && !HasMember(grp, o) ==> !TableListed(grp.members, s.orders[o].tableId.value)
  }

  lemma PaymentChecked(db: Db, order: int)
    requires Wired(db) && SeatsOk(db) && Start(db, PayOrder(order)).Some?
    ensures PaySafe(db.seats, order)
    ensures var s, g := db.seats, ActiveGroup(db.seats.groups, order, 0, db.next);
            PaySafeTable(s, order, s.orders[order].tableId, db.next) <==> (g.Some? ==> ListsOwnTables(s, s.groups[g.value]))
  {
    var s, g := db.seats, ActiveGroup(db.seats.groups, order, 0, db.next);
    forall h | h in s.groups ensures !Source(s, h, order) { OpenHolds(s, db.jobs, order, h); }
    assert s.orders[order].tableId.Some? ==> Holds(s, order);
    forall o ensures HoldsPaid(s, order, db.next, o) <==> o != order && Holds(s, o) && (g.Some? ==> !HasMember(s.groups[g.value], o)) {
      PaidMembers(db, order, o);
    }
    if g.Some? {
      assert GroupOk(s.orders, db.jobs, s.groups[g.value]);
      assert forall t :: t in Listing(s.groups[g.value].members) <==> TableListed(s.groups[g.value].members, t);
    }
  }

  /** A payment whose checks would pass again is safe exactly when no order outside the
      group it leads keeps a table the group lists. */
  lemma PaymentIsSafeIff(db: Db, w: int, order: int, updates: nat)
    requires Wired(db) && SeatsOk(db) && w in db.jobs && Start(db, PayOrder(order)) == Some(db.jobs[w])
    ensures Safe(db, Commit(w, updates)) <==>
            forall g :: Leads(db.seats.groups, g, order) ==> ListsOwnTables(db.seats, db.seats.groups[g])
  {
    PaymentChecked(db, order);
    forall g | Leads(db.seats.groups, g, order) ensures ActiveGroup(db.seats.groups, order, 0, db.next) == Some(g) { LedOnce(db, order, g); }
  }

  /** As long as every member names its own order's table, no order outside keeps one. */
  lemma NamedTablesAreOwn(db: Db, g: int)
    requires Wired(db) && SeatsOk(db) && ActiveIn(db.seats.groups, g) && IsOpen(db.seats.orders[db.seats.groups[g].primary])
    requires NamedGroup(db.seats, db.seats.groups[g])
    ensures ListsOwnTables(db.seats, db.seats.groups[g])
  {
    var s, grp := db.seats, db.seats.groups[g];
    assert GroupOk(s.orders, db.jobs, grp);
    forall m | m in grp.members ensures Holds(s, m.orderId) && HasMember(grp, m.orderId) {
      assert NamesOwnTable(s, m) && InActive(s.groups, g, m.orderId);
      if m.orderId != grp.primary { assert Source(s, g, m.orderId); }
    }
    forall o, m | Holds(s, o) && !HasMember(grp, o) && m in grp.members ensures s.orders[o].tableId != Some(m.tableId) {
      assert NamesOwnTable(s, m) && Holds(s, m.orderId) && m.orderId != o;
    }
  }
}

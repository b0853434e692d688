/** Short runs after which groups or tables are inconsistent. */
module KitchenRaces {
  import opened Prelude
  import opened KitchenLedger
  import opened KitchenSeating
  import opened KitchenGroups
  import opened KitchenTables
  import opened KitchenRuns
  import opened KitchenSplits

  function At(table: int): Order { Order(PENDING, Some(table), None) }

  function Into(table: int, primary: int): Order { Order(CANCELLED, Some(table), Some(primary)) }

  function Floor(orders: map<int, Order>, groups: map<int, Group>, tables: map<int, TableStatus>, jobs: map<int, Job>, next: nat): Db {
    Db(Rows([], [], []), Seats(orders, groups, tables), map[], [], jobs, next)
  }

  /** Three taken tables and a free one. */
  function Full(): map<int, TableStatus> { map[10 := OCCUPIED, 11 := OCCUPIED, 12 := OCCUPIED, 13 := AVAILABLE] }

  /** Three open orders at three tables. */
  function Three(): Db { Floor(map[0 := At(10), 1 := At(11), 2 := At(12)], map[], Full(), map[], 3) }

  /** Order 0 merged into order 1. */
  function Pair(): Db {
    Floor(map[0 := Into(10, 1), 1 := At(11), 2 := At(12)], map[3 := Group(1, ACTIVE, [Member(10, 0), Member(11, 1)])], Full(), map[], 4)
  }

  lemma ThreeIsOk()
    ensures Wired(Three()) && SeatsOk(Three())
  {}

  lemma PairGroups()
    ensures GroupsOk(Pair().seats, map[])
  {
    var members := Pair().seats.groups[3].members;
    assert members[1] in members;
  }

  lemma PairTables()
    ensures TablesOk(Pair().seats)
  {}

  lemma PairIsWired()
    ensures Wired(Pair())
  {}

  lemma PairIsOk()
    ensures Wired(Pair()) && SeatsOk(Pair())
  {
    PairIsWired();
    PairGroups();
    PairTables();
  }

  lemma Steps(db: Db, es: seq<Event>, k: nat, before: Db)
    requires k < |es| && Run(db, es[..k]) == before
    ensures Run(db, es[..k + 1]) == Apply(before, es[k])
    ensures k + 1 == |es| ==> Run(db, es) == Apply(before, es[k])
  {
    RunNext(db, es, k);
    if k + 1 == |es| { assert es[..k + 1] == es; }
  }

  // ---------- Two merges of one source ----------

  function MergeTwice(): seq<Event> { [Begin(1, MergeOrders(0, 1)), Begin(2, MergeOrders(0, 2)), Commit(1, 0), Commit(2, 0)] }

  lemma NotYetMerged(s: Seats, order: int)
    requires s.groups == map[]
    ensures forall g :: !InActive(s.groups, g, order)
  {}

  lemma BothMergesBegin()
    ensures Run(Three(), MergeTwice()[..2]) ==
            Three().(jobs := map[1 := Merging(0, 1, [], None, 10, Some(11)), 2 := Merging(0, 2, [], None, 10, Some(12))])
  {
    var es := MergeTwice();
    NotYetMerged(Three().seats, 0);
    assert ItemIds([], 0) == [];
    Steps(Three(), es, 0, Three());
    var one := Three().(jobs := map[1 := Merging(0, 1, [], None, 10, Some(11))]);
    assert Run(Three(), es[..1]) == one;
    Steps(Three(), es, 1, one);
  }

  lemma FirstMergeCommits()
    ensures var first := Run(Three(), MergeTwice()[..3]);
            && first.seats.groups == map[3 := Group(1, ACTIVE, [Member(10, 0), Member(11, 1)])] && first.next == 4
            && 2 in first.jobs && first.jobs[2] == Merging(0, 2, [], None, 10, Some(12)) && 0 in first.seats.orders
  {
    BothMergesBegin();
    Steps(Three(), MergeTwice(), 2, Run(Three(), MergeTwice()[..2]));
  }

  lemma InBoth(groups: map<int, Group>)
    requires groups == map[3 := Group(1, ACTIVE, [Member(10, 0), Member(11, 1)]), 4 := Group(2, ACTIVE, [Member(10, 0), Member(12, 2)])]
    ensures InActive(groups, 3, 0) && InActive(groups, 4, 0) && !Apart(groups)
  {
    assert groups[3].members[0] == Member(10, 0) && groups[4].members[0] == Member(10, 0);
  }

  /** Both merges check the source before either commits: it ends in two active groups. */
  lemma TwoMergesOfOneSource()
    ensures SeatsOk(Three()) && !GroupsOk(Run(Three(), MergeTwice()).seats, Run(Three(), MergeTwice()).jobs)
    ensures var groups := Run(Three(), MergeTwice()).seats.groups; InActive(groups, 3, 0) && InActive(groups, 4, 0)
  {
    ThreeIsOk();
    FirstMergeCommits();
    Steps(Three(), MergeTwice(), 3, Run(Three(), MergeTwice()[..3]));
    InBoth(Run(Three(), MergeTwice()).seats.groups);
  }

  // ---------- Two orders at one table ----------

  function Vacant(): Db { Floor(map[], map[], map[10 := AVAILABLE], map[], 0) }

  function PlaceTwice(): seq<Event> {
    [Begin(1, PlaceOrder(Some(10), [], false)), Begin(2, PlaceOrder(Some(10), [], false)), Commit(1, 0), Commit(2, 0)]
  }

  lemma NothingPlaced(db: Db)
    requires db.rows == Rows([], [], [])
    ensures RowsAfter(db.rows, Placing(Some(10), [], false), 0, db.next) == db.rows
  {
    assert [] + NewItems(db.next, [], db.next + 1) == [];
  }

  /** Both orders check the table before either commits: both are open at it. */
  lemma TwoOrdersOneTable()
    ensures SeatsOk(Vacant()) && !TablesOk(Run(Vacant(), PlaceTwice()).seats)
    ensures Run(Vacant(), PlaceTwice()).seats.orders == map[0 := At(10), 1 := At(10)]
  {
    var es, placing := PlaceTwice(), Placing(Some(10), [], false);
    Steps(Vacant(), es, 0, Vacant());
    Steps(Vacant(), es, 1, Vacant().(jobs := map[1 := placing]));
    var two := Vacant().(jobs := map[1 := placing, 2 := placing]);
    assert Run(Vacant(), es[..2]) == two;
    NothingPlaced(two);
    Steps(Vacant(), es, 2, two);
    var first := Run(Vacant(), es[..3]);
    assert first.rows == Rows([], [], []) && first.seats.orders == map[0 := At(10)] && first.next == 1 && first.jobs[2] == placing;
    NothingPlaced(first);
    Steps(Vacant(), es, 3, first);
    var s := Run(Vacant(), es).seats;
    assert Holds(s, 0) && Holds(s, 1);
  }

  // ---------- A primary closed under its group ----------

  function StatusCancel(): seq<Event> { [Begin(1, SetStatus(1, CANCELLED)), Commit(1, 0)] }

  lemma Stranded(s: Seats, jobs: map<int, Job>)
    requires ActiveIn(s.groups, 3) && s.groups[3].primary == 1 && 1 in s.orders && s.orders[1].status == CANCELLED && jobs == map[]
    ensures !GroupsOk(s, jobs)
  {
    assert GroupOk(s.orders, jobs, s.groups[3]) ==> LeadOk(s.orders, jobs, 1);
  }

  lemma StatusSet()
    ensures var db := Run(Pair(), StatusCancel());
            db.seats == Pair().seats.(orders := Pair().seats.orders[1 := At(11).(status := CANCELLED)]) && db.jobs == map[]
  {
    var es := StatusCancel();
    Steps(Pair(), es, 0, Pair());
    Steps(Pair(), es, 1, Pair().(jobs := map[1 := Setting(1, CANCELLED)]));
  }

  /** PATCH /orders/:id/status cancels the primary of a group and leaves the group active,
      with no race at all. */
  lemma StatusCancelStrandsGroup()
    ensures SeatsOk(Pair()) && !GroupsOk(Run(Pair(), StatusCancel()).seats, Run(Pair(), StatusCancel()).jobs)
  {
    PairIsOk();
    StatusSet();
    Stranded(Run(Pair(), StatusCancel()).seats, Run(Pair(), StatusCancel()).jobs);
  }

  function CancelAndCrash(): seq<Event> { [Begin(1, CancelOrder(1)), Commit(1, 0), Crash(1)] }

  function Cancelled(): Db {
    Pair().(seats := Pair().seats.(orders := Pair().seats.orders[1 := At(11).(status := CANCELLED)], tables := Full()[11 := AVAILABLE]),
            jobs := map[1 := Releasing(1)], next := 5)
  }

  lemma CancelCommits(es: seq<Event>)
    requires |es| >= 2 && es[0] == Begin(1, CancelOrder(1)) && es[1] == Commit(1, 0)
    ensures Run(Pair(), es[..2]) == Cancelled()
  {
    Steps(Pair(), es, 0, Pair());
    Steps(Pair(), es, 1, Pair().(jobs := map[1 := Cancelling(1, Some(11))]));
  }

  /** The release runs after the cancel's transaction: lost in between, the group stays
      active under a cancelled primary. */
  lemma CrashAfterCancelStrandsGroup()
    ensures SeatsOk(Pair()) && !GroupsOk(Run(Pair(), CancelAndCrash()).seats, Run(Pair(), CancelAndCrash()).jobs)
  {
    PairIsOk();
    var es := CancelAndCrash();
    CancelCommits(es);
    Steps(Pair(), es, 2, Cancelled());
    Stranded(Run(Pair(), es).seats, Run(Pair(), es).jobs);
  }

  function PlaceMeanwhile(): seq<Event> {
    [Begin(1, CancelOrder(1)), Commit(1, 0), Begin(2, PlaceOrder(Some(11), [], false)), Commit(2, 0), Commit(1, 0)]
  }

  function PlacingMeanwhile(): Db { Cancelled().(jobs := map[1 := Releasing(1)][2 := Placing(Some(11), [], false)]) }

  lemma PlaceBegins()
    ensures Run(Pair(), PlaceMeanwhile()[..3]) == PlacingMeanwhile()
  {
    CancelCommits(PlaceMeanwhile());
    Steps(Pair(), PlaceMeanwhile(), 2, Cancelled());
  }

  lemma PlacedAtFreedTable()
    ensures var db := Run(Pair(), PlaceMeanwhile()[..4]);
            && db.jobs == map[1 := Releasing(1)] && db.next == 6
            && db.seats == PlaceSeats(Cancelled().seats, Some(11), 5)
  {
    PlaceBegins();
    JobsBack(map[1 := Releasing(1)], 2, Placing(Some(11), [], false));
    Steps(Pair(), PlaceMeanwhile(), 3, PlacingMeanwhile());
  }

  lemma FirstGroup(groups: map<int, Group>)
    requires groups == Pair().seats.groups
    ensures ActiveGroup(groups, 1, 0, 6) == Some(3)
  {
    var g := ActiveGroup(groups, 1, 0, 6);
    assert Leads(groups, 3, 1);
  }

  lemma ReleasedAgain()
    ensures var s := Run(Pair(), PlaceMeanwhile()).seats;
            && s.orders == Cancelled().seats.orders[5 := At(11)]
            && s.tables == Free(Cancelled().seats.tables[11 := OCCUPIED], Pair().seats.groups[3].members)
  {
    PlacedAtFreedTable();
    var before := Run(Pair(), PlaceMeanwhile()[..4]);
    FirstGroup(before.seats.groups);
    Steps(Pair(), PlaceMeanwhile(), 4, before);
  }

  /** An order placed at the freed table before the release finds it freed again. */
  lemma PlacedBeforeRelease()
    ensures SeatsOk(Pair())
    ensures var s := Run(Pair(), PlaceMeanwhile()).seats;
            5 in s.orders && s.orders[5] == At(11) && 11 in s.tables && s.tables[11] == AVAILABLE && !TablesOk(s)
  {
    PairIsOk();
    ReleasedAgain();
    var members := Pair().seats.groups[3].members;
    FreeEffect(Cancelled().seats.tables[11 := OCCUPIED], members);
    assert members[1] in members;
    assert Holds(Run(Pair(), PlaceMeanwhile()).seats, 5);
  }

  // ---------- Transfers: no two requests overlap ----------

  lemma TransferredAlone(db: Db, w: int, order: int, to: int)
    requires w !in db.jobs && Start(db, Transfer(order, to)).Some?
    ensures var db' := Alone(db, w, Transfer(order, to));
            && db'.jobs == db.jobs && db'.next == db.next + 1 && db'.rows == db.rows
            && db'.seats == MoveSeats(db.seats, order, db.seats.orders[order].tableId.value, to)
  {
    AloneIs(db, w, Transfer(order, to));
  }

  lemma TransferAloneOk(db: Db, w: int, order: int, to: int)
    requires Wired(db) && SeatsOk(db) && w !in db.jobs && Start(db, Transfer(order, to)).Some? && IsOpen(db.seats.orders[order])
    ensures Wired(Alone(db, w, Transfer(order, to))) && SeatsOk(Alone(db, w, Transfer(order, to)))
  {
    var begun := Apply(db, Begin(w, Transfer(order, to)));
    WiredStep(db, Begin(w, Transfer(order, to)));
    StepSafeIff(db, Begin(w, Transfer(order, to)));
    assert begun.seats == db.seats && Start(begun, Transfer(order, to)) == Some(begun.jobs[w]);
    TransferIsSafeIff(begun, w, order, to, 0);
    WiredStep(begun, Commit(w, 0));
    StepSafeIff(begun, Commit(w, 0));
  }

  /** The primary moves to table 13. */
  function Moved(): Db { Alone(Pair(), 1, Transfer(1, 13)) }

  lemma MovedIs()
    ensures var s := Moved().seats;
            && s.groups == Pair().seats.groups && s.orders == Pair().seats.orders[1 := At(13)]
            && s.tables == Full()[11 := AVAILABLE][13 := OCCUPIED]
    ensures Moved().jobs == map[] && Moved().next == 5 && Wired(Moved()) && SeatsOk(Moved())
  {
    PairIsOk();
    TransferredAlone(Pair(), 1, 1, 13);
    TransferAloneOk(Pair(), 1, 1, 13);
  }

  /** And order 2 to the table it left. */
  function Swapped(): Db { Alone(Moved(), 2, Transfer(2, 11)) }

  lemma SecondTransfer(db: Db)
    requires db.jobs == map[] && Wired(db) && SeatsOk(db) && IsFree(db.seats.tables, 11)
    requires 2 in db.seats.orders && db.seats.orders[2] == At(12)
    ensures var db' := Alone(db, 2, Transfer(2, 11));
            && db'.seats.groups == db.seats.groups && db'.seats.orders == db.seats.orders[2 := At(11)]
            && db'.jobs == map[] && db'.next == db.next + 1 && Wired(db') && SeatsOk(db')
  {
    TransferredAlone(db, 2, 2, 11);
    TransferAloneOk(db, 2, 2, 11);
  }

  lemma SwappedIs()
    ensures var s := Swapped().seats;
            s.groups == Pair().seats.groups && 1 in s.orders && s.orders[1] == At(13) && 2 in s.orders && s.orders[2] == At(11)
    ensures Swapped().jobs == map[] && Swapped().next == 6 && Wired(Swapped()) && SeatsOk(Swapped())
  {
    MovedIs();
    SecondTransfer(Moved());
  }

  lemma CancelBegun(db: Db, w: int, order: int)
    requires w !in db.jobs && CancelLands(db.seats, order)
    ensures var once := Alone(db, w, CancelOrder(order));
            && w in once.jobs && once.jobs[w] == Releasing(order) && once.next == db.next + 1
            && once.seats == CloseSeats(db.seats, order, CANCELLED, db.seats.orders[order].tableId)
  {}

  lemma CancelledAlone(db: Db, w: int, order: int)
    requires w !in db.jobs && CancelLands(db.seats, order)
    ensures Apply(Alone(db, w, CancelOrder(order)), Commit(w, 0)).seats
            == ReleaseSeats(CloseSeats(db.seats, order, CANCELLED, db.seats.orders[order].tableId), order, db.next + 1)
  {
    CancelBegun(db, w, order);
  }

  lemma PaidAlone(db: Db, w: int, order: int)
    requires w !in db.jobs && order in db.seats.orders && IsOpen(db.seats.orders[order])
    ensures Alone(db, w, PayOrder(order)).seats == PaySeats(db.seats, order, db.seats.orders[order].tableId, db.next)
  {}

  /** A release of the pair's group frees table 11 whoever sits there. */
  lemma FreedUnder(s: Seats, next: nat)
    requires s.groups == Pair().seats.groups && next >= 4 && 2 in s.orders && s.orders[2] == At(11)
    ensures var s' := ReleaseSeats(s, 1, next);
            s'.orders == s.orders && 11 in s'.tables && s'.tables[11] == AVAILABLE && !TablesOk(s')
  {
    var members := s.groups[3].members;
    assert Leads(s.groups, 3, 1) && members[1].tableId == 11;
    FreeEffect(s.tables, members);
    assert Holds(ReleaseSeats(s, 1, next), 2);
  }

  lemma CancelFrees(db: Db)
    requires 3 !in db.jobs && CancelLands(db.seats, 1) && db.next >= 4
    requires db.seats.groups == Pair().seats.groups && 2 in db.seats.orders && db.seats.orders[2] == At(11)
    ensures var s := Apply(Alone(db, 3, CancelOrder(1)), Commit(3, 0)).seats;
            2 in s.orders && s.orders[2] == At(11) && 11 in s.tables && s.tables[11] == AVAILABLE && !TablesOk(s)
  {
    CancelledAlone(db, 3, 1);
    FreedUnder(CloseSeats(db.seats, 1, CANCELLED, db.seats.orders[1].tableId), db.next + 1);
  }

  /** Cancelling the transferred primary frees the table its group still lists, under the
      order that sits there now. */
  lemma TransferThenCancel()
    ensures SeatsOk(Pair()) && SeatsOk(Moved()) && SeatsOk(Swapped())
    ensures var s := Apply(Alone(Swapped(), 3, CancelOrder(1)), Commit(3, 0)).seats;
            2 in s.orders && s.orders[2] == At(11) && 11 in s.tables && s.tables[11] == AVAILABLE && !TablesOk(s)
  {
    PairIsOk();
    MovedIs();
    SwappedIs();
    CancelFrees(Swapped());
  }

  /** So does paying it. */
  lemma TransferThenPay()
    ensures SeatsOk(Swapped())
    ensures var s := Alone(Swapped(), 3, PayOrder(1)).seats;
            2 in s.orders && s.orders[2] == At(11) && 11 in s.tables && s.tables[11] == AVAILABLE && !TablesOk(s)
  {
    SwappedIs();
    PaidAlone(Swapped(), 3, 1);
    FreedUnder(CloseSeats(Swapped().seats, 1, COMPLETED, Some(13)), 6);
  }

  /** A completed order at a table given to another. */
  function Reseat(): Db { Floor(map[0 := At(10).(status := COMPLETED), 1 := At(10)], map[], map[10 := OCCUPIED, 11 := AVAILABLE], map[], 2) }

  lemma ReseatIsOk()
    ensures SeatsOk(Reseat())
  {}

  /** A completed order can be transferred too, and frees the table of whoever sits there. */
  lemma CompletedOrderTransferred()
    ensures SeatsOk(Reseat())
    ensures var s := Alone(Reseat(), 1, Transfer(0, 11)).seats;
            1 in s.orders && s.orders[1] == At(10) && 10 in s.tables && s.tables[10] == AVAILABLE && !TablesOk(s)
  {
    ReseatIsOk();
    TransferredAlone(Reseat(), 1, 0, 11);
    var s := Alone(Reseat(), 1, Transfer(0, 11)).seats;
    assert s.orders[1] == At(10) && s.tables[10] == AVAILABLE;
    assert Holds(s, 1);
  }
}

/** The shortest runs after which the stock is not what it should be. */
module StockRaces {
  import opened Prelude
  import opened Inventory
  import opened StockRuns
  import opened StockReturns

  function Held(): Claim { Claim(true, false, false, false) }

  function Shelf(level: int, log: seq<Movement>, claims: map<int, Claim>): Store { Store(map[7 := Some(level)], log, claims) }

  lemma Steps(db: Db, es: seq<Event>, k: nat, before: Db)
    requires k < |es| && Run(db, es[..k]) == before
    ensures Run(db, es[..k + 1]) == Apply(before, es[k])
    ensures k + 1 == |es| ==> Run(db, es) == Apply(before, es[k])
  {
    RunNext(db, es, k);
    if k + 1 == |es| { assert es[..k + 1] == es; }
  }

  // ---------- Two orders take two each; two are gone ----------

  function TwoOrders(): Db { Db(Shelf(25, [], map[1 := Held(), 2 := Held()]), map[]) }

  function TakeTwo(order: int): Request { Adjust(order, [Change(7, -2)]) }

  function Taking2(order: int, read: bool): Job {
    if read then Job(TakeTwo(order), false, [Change(7, -2)], 1, map[7 := 25], map[7 := Some(23)], [Movement(7, order, UPDATED, -2)])
    else NewJob(TakeTwo(order))
  }

  function BothTake(): seq<Event> { [Begin(1, TakeTwo(1)), Begin(2, TakeTwo(2)), Read(1), Read(2), Commit(1), Commit(2)] }

  /** One read of a plan's only change. */
  lemma ReadsOnly(level: int, log: seq<Movement>, claims: map<int, Claim>, job: Job, c: Change)
    requires c.item == 7 && c.delta != 0 && level + c.delta >= 0
    requires job.plan == [c] && job.at == 0 && job.base == map[] && job.buffer == map[] && job.moves == []
    ensures ReadNext(Shelf(level, log, claims), job)
            == job.(at := 1, base := map[7 := level], buffer := map[7 := Some(level + c.delta)],
                    moves := [Movement(7, job.request.order, KindOf(job.request), c.delta)])
  {
    assert [] + [Movement(7, job.request.order, KindOf(job.request), c.delta)] == [Movement(7, job.request.order, KindOf(job.request), c.delta)];
  }

  function InFlight(first: bool, second: bool): map<int, Job> { map[1 := Taking2(1, first)][2 := Taking2(2, second)] }

  lemma BothBegin()
    ensures Run(TwoOrders(), BothTake()[..2]) == TwoOrders().(jobs := InFlight(false, false))
  {
    Steps(TwoOrders(), BothTake(), 0, TwoOrders());
    Steps(TwoOrders(), BothTake(), 1, TwoOrders().(jobs := map[1 := Taking2(1, false)]));
  }

  lemma OneRead()
    ensures Run(TwoOrders(), BothTake()[..3]) == TwoOrders().(jobs := InFlight(true, false))
  {
    BothBegin();
    ReadsOnly(25, [], TwoOrders().store.claims, Taking2(1, false), Change(7, -2));
    Steps(TwoOrders(), BothTake(), 2, TwoOrders().(jobs := InFlight(false, false)));
    assert InFlight(false, false)[1 := Taking2(1, true)] == InFlight(true, false);
  }

  lemma BothRead()
    ensures Run(TwoOrders(), BothTake()[..4]) == TwoOrders().(jobs := InFlight(true, true))
  {
    OneRead();
    ReadsOnly(25, [], TwoOrders().store.claims, Taking2(2, false), Change(7, -2));
    Steps(TwoOrders(), BothTake(), 3, TwoOrders().(jobs := InFlight(true, false)));
    assert InFlight(true, false)[2 := Taking2(2, true)] == InFlight(true, true);
  }

  lemma Takes(level: int, log: seq<Movement>, order: int)
    requires order == 1 || order == 2
    ensures Land(Shelf(level, log, TwoOrders().store.claims), Taking2(order, true))
            == Shelf(23, log + [Movement(7, order, UPDATED, -2)], TwoOrders().store.claims)
  {
    assert map[7 := Some(level)] + map[7 := Some(23)] == map[7 := Some(23)];
    var claims := TwoOrders().store.claims;
    assert claims[order := Held()] == claims;
  }

  lemma FirstTakes()
    ensures Run(TwoOrders(), BothTake()[..5])
            == Db(Shelf(23, [Movement(7, 1, UPDATED, -2)], map[1 := Held(), 2 := Held()]), map[2 := Taking2(2, true)])
  {
    BothRead();
    Takes(25, [], 1);
    assert [] + [Movement(7, 1, UPDATED, -2)] == [Movement(7, 1, UPDATED, -2)];
    assert InFlight(true, true) - {1} == map[2 := Taking2(2, true)];
    Steps(TwoOrders(), BothTake(), 4, Run(TwoOrders(), BothTake()[..4]));
  }

  lemma BothTaken()
    ensures Run(TwoOrders(), BothTake()).store
            == Shelf(23, [Movement(7, 1, UPDATED, -2)] + [Movement(7, 2, UPDATED, -2)], TwoOrders().store.claims)
  {
    FirstTakes();
    Takes(23, [Movement(7, 1, UPDATED, -2)], 2);
    Steps(TwoOrders(), BothTake(), 5, Db(Shelf(23, [Movement(7, 1, UPDATED, -2)], TwoOrders().store.claims), map[2 := Taking2(2, true)]));
  }

  lemma FourMoved()
    ensures Moved([Movement(7, 1, UPDATED, -2)] + [Movement(7, 2, UPDATED, -2)], 7) == -4
  {
    MovedNext([Movement(7, 1, UPDATED, -2)], Movement(7, 2, UPDATED, -2), 7);
    MovedNext([], Movement(7, 1, UPDATED, -2), 7);
    assert [] + [Movement(7, 1, UPDATED, -2)] == [Movement(7, 1, UPDATED, -2)];
  }

  /** Two additions of two units each read 25 before either writes: 23 are left, with two
      movements of two. */
  lemma LostUpdate()
    ensures var end := Run(TwoOrders(), BothTake()).store;
            Level(end, 7) == 23 && Moved(end.log, 7) == -4 && !Balanced(TwoOrders().store, end)
  {
    BothTaken();
    FourMoved();
    assert !BalancedAt(TwoOrders().store, Run(TwoOrders(), BothTake()).store, 7);
  }

  // ---------- An edit after the stock went back ----------

  function Reserved(): Db { Db(Shelf(23, [Movement(7, 1, CREATED, -2)], map[1 := Held()]), map[]) }

  function DropLine(): Request { Adjust(1, [Change(7, 2)]) }

  function CancelThenEdit(): seq<Event> { [Begin(1, DropLine()), Begin(2, Cancel(1)), Gather(2), Read(2), Commit(2), Read(1), Commit(1)] }

  function Restoring(at: nat): Job {
    var plan := [Change(7, 2)];
    if at == 0 then Job(Cancel(1), true, plan, 0, map[], map[], [])
    else Job(Cancel(1), true, plan, 1, map[7 := 23], map[7 := Some(25)], [Movement(7, 1, RESTORED, 2)])
  }

  lemma NetIsTwo()
    ensures Gathered(Reserved().store, NewJob(Cancel(1))) == Restoring(0)
  {
    var log := Reserved().store.log;
    assert log[..0] == [] && Touched([], 1) == [] && Touched(log, 1) == [7];
    assert Net([], 1, 7) == 0 && Net(log, 1, 7) == -2;
    assert GiveBack(log, 1, [7]) == [Change(7, 2)];
  }

  lemma CancelReads()
    ensures Run(Reserved(), CancelThenEdit()[..4]) == Reserved().(jobs := map[1 := NewJob(DropLine()), 2 := Restoring(1)])
  {
    var es, db, drop := CancelThenEdit(), Reserved(), NewJob(DropLine());
    Steps(db, es, 0, db);
    Steps(db, es, 1, db.(jobs := map[1 := drop]));
    var both := db.(jobs := map[1 := drop, 2 := NewJob(Cancel(1))]);
    assert Run(db, es[..2]) == both;
    NetIsTwo();
    Steps(db, es, 2, both);
    var gathered := db.(jobs := map[1 := drop, 2 := Restoring(0)]);
    assert Run(db, es[..3]) == gathered;
    ReadsOnly(23, db.store.log, db.store.claims, Restoring(0), Change(7, 2));
    Steps(db, es, 3, gathered);
  }

  function Returned(): Store { Shelf(25, [Movement(7, 1, CREATED, -2), Movement(7, 1, RESTORED, 2)], map[1 := Claim(true, true, true, false)]) }

  lemma GivesBack()
    ensures Land(Reserved().store, Restoring(1)) == Returned()
  {
    assert map[7 := Some(23)] + map[7 := Some(25)] == map[7 := Some(25)];
    assert [Movement(7, 1, CREATED, -2)] + [Movement(7, 1, RESTORED, 2)] == Returned().log;
    assert Reserved().store.claims[1 := Claim(true, true, true, false)] == Returned().claims;
  }

  lemma CancelLands()
    ensures Run(Reserved(), CancelThenEdit()[..5]) == Db(Returned(), map[1 := NewJob(DropLine())])
  {
    CancelReads();
    GivesBack();
    assert map[1 := NewJob(DropLine()), 2 := Restoring(1)] - {2} == map[1 := NewJob(DropLine())];
    Steps(Reserved(), CancelThenEdit(), 4, Reserved().(jobs := map[1 := NewJob(DropLine()), 2 := Restoring(1)]));
  }

  function Dropping(): Job {
    Job(DropLine(), false, [Change(7, 2)], 1, map[7 := 25], map[7 := Some(27)], [Movement(7, 1, UPDATED, 2)])
  }

  lemma EditReads()
    ensures Run(Reserved(), CancelThenEdit()[..6]) == Db(Returned(), map[1 := Dropping()])
  {
    CancelLands();
    ReadsOnly(25, Returned().log, Returned().claims, NewJob(DropLine()), Change(7, 2));
    assert map[1 := NewJob(DropLine())][1 := Dropping()] == map[1 := Dropping()];
    Steps(Reserved(), CancelThenEdit(), 5, Db(Returned(), map[1 := NewJob(DropLine())]));
  }

  lemma EditLands()
    ensures Run(Reserved(), CancelThenEdit()).store == Shelf(27, Returned().log + [Movement(7, 1, UPDATED, 2)], Returned().claims)
  {
    EditReads();
    Steps(Reserved(), CancelThenEdit(), 6, Db(Returned(), map[1 := Dropping()]));
    assert map[7 := Some(25)] + map[7 := Some(27)] == map[7 := Some(27)];
    assert Returned().claims[1 := Returned().claims[1]] == Returned().claims;
  }

  lemma TwoOut()
    ensures OutOn(Reserved().store.log, Reserved().store.claims, 7) == 2
  {
    var log := Reserved().store.log;
    assert log[..0] == [] && OutOn([], Reserved().store.claims, 7) == 0;
  }

  /** The handlers read the order's status before their transaction: an edit begun before
      a cancel hands the units back a second time after it.  Two were taken of 25, and 27
      are there. */
  lemma EditAfterRestore()
    ensures var end := Run(Reserved(), CancelThenEdit()).store;
            Level(end, 7) == 27 && 1 in end.claims && end.claims[1].restored && !Accounted(Reserved().store, end)
  {
    EditLands();
    TwoOut();
    var end := Run(Reserved(), CancelThenEdit()).store;
    NothingOut(end.log, end.claims);
    assert !AccountedAt(Reserved().store, end, 7);
  }

  lemma {:induction false} NothingOut(log: seq<Movement>, claims: map<int, Claim>)
    requires forall o :: o in claims ==> claims[o].restored
    ensures OutOn(log, claims, 7) == 0
  {
    if log != [] { NothingOut(log[..|log| - 1], claims); }
  }

  // ---------- Without any race ----------

  lemma OneChange(s: Store, order: int, kind: Kind, c: Change)
    requires c.delta != 0
    ensures ApplyAll(s, order, kind, [c]) == ApplyDelta(s, order, kind, c)
  {
    assert [c][..0] == [] && ApplyAll(s, order, kind, []) == s;
  }

  /** Ordering 100 of an item with 25 in stock and then halving the line leaves 50 in
      stock: the clamp took 25, the edit returned 50. */
  lemma ClampThenEditInflates()
    ensures var s0 := Shelf(25, [], map[]);
            Level(Perform(Perform(s0, Place(1, [Change(7, 100)])), Adjust(1, [Change(7, 50)])), 7) == 50
  {
    var s0, lines := Shelf(25, [], map[]), [Change(7, 100)];
    assert lines[..0] == [] && Reservations([]) == [];
    assert Reservations(lines) == [Change(7, -100)];
    var open := s0.(claims := map[1 := Claim(false, false, false, false)]);
    OneChange(open.(claims := open.claims[1 := Held()]), 1, CREATED, Change(7, -100));
    var placed := Perform(s0, Place(1, lines));
    assert placed.stock == map[7 := Some(0)] && 1 in placed.claims && !placed.claims[1].cancelled;
    OneChange(placed, 1, UPDATED, Change(7, 50));
  }
}

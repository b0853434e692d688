/** Requests run undisturbed, and the shortest runs in which the kitchen gets a unit twice. */
module KitchenRuns {
  import opened Prelude
  import opened KitchenLedger
  import opened KitchenRows
  import opened KitchenTickets

  /** A request whose commit follows its checks at once. */
  function Alone(db: Db, w: int, r: Request): Db { Apply(Apply(db, Begin(w, r)), Commit(w, 0)) }

  lemma JobsBack(jobs: map<int, Job>, w: int, job: Job)
    requires w !in jobs
    ensures Without(jobs[w := job], w) == jobs
  {
    var left := Without(jobs[w := job], w);
    forall i | i in left ensures left[i] == jobs[i] {}
    assert left.Keys == jobs.Keys;
  }

  // ---------- One ticket ----------

  lemma PendingItemsExist(items: seq<Item>, log: seq<KotItem>, order: int)
    requires Ordered(items)
    ensures LinesPresent(items, PendingLines(items, log, order))
  {
    var sends := PendingLines(items, log, order);
    PendingLinesAre(items, log, order);
    forall k | 0 <= k < |sends| ensures HasItem(items, sends[k].itemId) {
      assert sends[k] in sends;
      var it :| IsPendingLine(items, log, order, sends[k], it);
    }
  }

  function SentRows(rows: Rows, order: int, kot: int): Rows {
    var lines := PendingLines(rows.items, rows.history, order);
    if lines == [] then rows else Rows(MarkSent(rows.items, lines), Record(rows.history, kot, lines), Record(rows.printed, kot, lines))
  }

  lemma SendUnfolds(db: Db, w: int, order: int)
    requires Ordered(db.rows.items) && order in db.seats.orders && w !in db.jobs
    ensures Alone(db, w, SendTicket(order)) ==
            if PendingLines(db.rows.items, db.rows.history, order) == [] then db
            else db.(rows := SentRows(db.rows, order, db.next), kots := db.kots + [order], next := db.next + 1)
  {
    var lines := PendingLines(db.rows.items, db.rows.history, order);
    if lines != [] {
      PendingItemsExist(db.rows.items, db.rows.history, order);
      JobsBack(db.jobs, w, Ticketing(order, lines, false));
    }
  }

  function PendingIn(it: Item, log: seq<KotItem>, order: int): int { if it.orderId == order then PendingOf(it, log) else 0 }

  function SentTo(it: Item, log: seq<KotItem>, order: int): Item {
    if PendingIn(it, log, order) > 0 then it.(sent := it.quantity) else it
  }

  lemma LineOfPending(items: seq<Item>, log: seq<KotItem>, order: int, it: Item)
    requires Ordered(items) && it in items
    ensures LineOf(PendingLines(items, log, order), it.id) ==
            if PendingIn(it, log, order) > 0 then Some(Line(it.id, PendingOf(it, log), History(log, it.id))) else None
  {
    var sends := PendingLines(items, log, order);
    PendingLinesAre(items, log, order);
    LineOfIs(sends, it.id);
    var l := LineOf(sends, it.id);
    if l.Some? {
      var found :| IsPendingLine(items, log, order, l.value, found);
      SameRow(items, found, it);
    }
  }

  lemma SentRow(rows: Rows, order: int, kot: int, it: Item)
    requires Ordered(rows.items) && it in rows.items
    ensures var lines := PendingLines(rows.items, rows.history, order);
            && MarkRow(it, lines) == SentTo(it, rows.history, order)
            && History(Record(rows.history, kot, lines), it.id) == History(rows.history, it.id) + PendingIn(it, rows.history, order)
  {
    PendingLinesAre(rows.items, rows.history, order);
    LineOfPending(rows.items, rows.history, order, it);
    RecordAt(rows.history, kot, PendingLines(rows.items, rows.history, order), it.id);
  }

  lemma {:induction false} NothingPending(items: seq<Item>, log: seq<KotItem>, order: int)
    requires forall i :: 0 <= i < |items| ==> PendingIn(items[i], log, order) <= 0
    ensures PendingLines(items, log, order) == []
  {
    if items != [] { NothingPending(items[..|items| - 1], log, order); }
  }

  lemma SentRowsAre(rows: Rows, order: int, kot: int)
    requires Ordered(rows.items)
    ensures var after := SentRows(rows, order, kot);
            && |after.items| == |rows.items|
            && (forall i :: 0 <= i < |rows.items| ==>
                  var it := rows.items[i];
                  && after.items[i] == SentTo(it, rows.history, order)
                  && History(after.history, it.id) == History(rows.history, it.id) + PendingIn(it, rows.history, order))
            && PendingLines(after.items, after.history, order) == []
  {
    var after := SentRows(rows, order, kot);
    forall i | 0 <= i < |rows.items|
      ensures |after.items| == |rows.items| && after.items[i] == SentTo(rows.items[i], rows.history, order)
      ensures History(after.history, rows.items[i].id) == History(rows.history, rows.items[i].id) + PendingIn(rows.items[i], rows.history, order)
    {
      SentRow(rows, order, kot, rows.items[i]);
      LineOfPending(rows.items, rows.history, order, rows.items[i]);
    }
    NothingPending(after.items, after.history, order);
  }

  /** POST /kot run undisturbed sends every outstanding unit of the order and nothing
      else, and afterwards there is nothing left to send. */
  lemma TicketSendsExactlyThePending(db: Db, w: int, order: int)
    requires Sound(db) && order in db.seats.orders && w !in db.jobs
    ensures var rows, db' := db.rows, Alone(db, w, SendTicket(order));
            && |db'.rows.items| == |rows.items|
            && (forall i :: 0 <= i < |rows.items| ==>
                  var it := rows.items[i];
                  && db'.rows.items[i] == SentTo(it, rows.history, order)
                  && History(db'.rows.history, it.id) == History(rows.history, it.id) + PendingIn(it, rows.history, order))
            && PendingLines(db'.rows.items, db'.rows.history, order) == []
            && |db'.kots| == |db.kots| + (if PendingLines(rows.items, rows.history, order) == [] then 0 else 1)
  {
    SendUnfolds(db, w, order);
    SentRowsAre(db.rows, order, db.next);
    assert Alone(db, w, SendTicket(order)).rows == SentRows(db.rows, order, db.next);
  }

  lemma NothingToSend(db: Db, w: int, order: int)
    requires w !in db.jobs && PendingLines(db.rows.items, db.rows.history, order) == []
    ensures Alone(db, w, SendTicket(order)) == db
  {}

  /** Repeating the request writes nothing. */
  lemma RepeatedTicketIsIdempotent(db: Db, w: int, order: int)
    requires Sound(db) && order in db.seats.orders && w !in db.jobs
    ensures Alone(Alone(db, w, SendTicket(order)), w, SendTicket(order)) == Alone(db, w, SendTicket(order))
  {
    var db' := Alone(db, w, SendTicket(order));
    assert w !in db'.jobs && PendingLines(db'.rows.items, db'.rows.history, order) == [] by {
      SendUnfolds(db, w, order);
      SentRowsAre(db.rows, order, db.next);
    }
    NothingToSend(db', w, order);
  }

  // ---------- One edit ----------

  /** Editing a line undisturbed keeps sent quantities equal to ticket history exactly
      when the new quantity is not below what was sent. */
  lemma EditKeepsExactIff(db: Db, w: int, order: int, it: Item, quantity: int, notes: Option<string>)
    requires Sound(db) && AllMeet(Exact, db.rows) && w !in db.jobs
    requires Modifiable(db.seats, order) && it in db.rows.items && it.orderId == order && quantity > 0
    ensures AllMeet(Exact, Alone(db, w, EditItem(order, it.id, quantity, notes)).rows) <==> quantity >= it.sent
  {
    FindsItem(db.rows.items, it.id);
    Unfold(db, w, EditItem(order, it.id, quantity, notes));
    JobKeepsIff(Exact, db.rows, Editing(order, it.id, quantity, notes, it.sent), 0, db.next);
    forall other | other in db.rows.items && other.id == it.id ensures other == it { SameRow(db.rows.items, other, it); }
  }

  predicate HandsOutOwn(items: seq<Item>, order: int, m: Matching) {
    && (forall k :: 0 <= k < |m.created| ==>
          SentSum(items, order, m.created[k].line.menuItemId) <= 0 || m.created[k].line.quantity <= 0)
    && (forall it :: it in items && it.id in m.kept ==>
          SentSum(items, order, m.kept[it.id].line.menuItemId) <= it.sent || m.kept[it.id].line.quantity <= it.sent)
  }

  lemma HandsOutOwnIff(rows: Rows, order: int, lines: seq<NewLine>)
    requires AllMeet(Exact, rows)
    ensures var m := Match(rows.items, order, EditLines(rows.items, order, lines));
            UpdatePasses(Backed, rows, m) <==> HandsOutOwn(rows.items, order, m)
  {
    var edits := EditLines(rows.items, order, lines);
    var m := Match(rows.items, order, edits);
    MatchKeepsOwn(rows.items, order, edits);
    forall k | 0 <= k < |m.created|
      ensures m.created[k].sent == Min(SentSum(rows.items, order, m.created[k].line.menuItemId), m.created[k].line.quantity)
    {
      assert m.created[k] in edits;
    }
    forall it | it in rows.items && it.id in m.kept
      ensures m.kept[it.id].sent == Min(SentSum(rows.items, order, m.kept[it.id].line.menuItemId), m.kept[it.id].line.quantity)
      ensures it.sent == History(rows.history, it.id)
    {
      assert m.kept[it.id] in edits;
    }
  }

  lemma Unfold(db: Db, w: int, r: Request)
    requires Sound(db) && w !in db.jobs && Start(db, r).Some?
    ensures SoundJob(Start(db, r).value, db.next)
    ensures Alone(db, w, r).rows == RowsAfter(db.rows, Start(db, r).value, 0, db.next)
  {
    StartSound(db, r);
  }

  /** A whole-order edit run undisturbed keeps sent quantities backed exactly when every
      row it creates is for a menu item with nothing sent (or asks for nothing) and every
      row it keeps is the only one of its menu item with units sent (or asks for no more
      than its own). */
  lemma WholeEditKeepsBackedIff(db: Db, w: int, order: int, lines: seq<NewLine>)
    requires Sound(db) && AllMeet(Exact, db.rows) && w !in db.jobs
    requires Start(db, UpdateOrder(order, lines)).Some?
    ensures AllMeet(Backed, Alone(db, w, UpdateOrder(order, lines)).rows)
            <==> HandsOutOwn(db.rows.items, order, Match(db.rows.items, order, EditLines(db.rows.items, order, lines)))
  {
    Unfold(db, w, UpdateOrder(order, lines));
    JobKeepsIff(Backed, db.rows, Start(db, UpdateOrder(order, lines)).value, 0, db.next);
    HandsOutOwnIff(db.rows, order, lines);
  }

  lemma TwoSteps(db: Db, es: seq<Event>, w: int, r: Request, k: nat)
    requires k + 2 == |es| && es[k] == Begin(w, r) && es[k + 1] == Commit(w, 0)
    ensures Run(db, es) == Alone(Run(db, es[..k]), w, r)
  {
    RunNext(db, es, k);
    RunNext(db, es, k + 1);
    assert es[..k + 2] == es;
  }

  // ---------- Two units ordered, four sent ----------

  function Blank(): Db { Db(Rows([], [], []), Seats(map[], map[], map[]), map[], [], map[], 0) }

  function TwoUnits(): NewLine { NewLine(7, "", 100, 2) }

  function Renoted(): NewLine { NewLine(7, "no salt", 100, 2) }

  function Row(id: int, line: NewLine, sent: int): Item { NewItem(0, line, id, sent) }

  /** One order with one line. */
  function Kitchen1(item: Item, history: seq<KotItem>, printed: seq<KotItem>, kots: seq<int>, jobs: map<int, Job>, next: nat): Db {
    Db(Rows([item], history, printed), Seats(map[0 := Order(PENDING, None, None)], map[], map[]), map[0 := 200], kots, jobs, next)
  }

  function Auto(): Job { Ticketing(0, [Line(1, 2, 0)], true) }

  function Placed(): Db { Kitchen1(Row(1, TwoUnits(), 0), [], [], [], map[1 := Auto()], 2) }

  function Placing1(): Db { Blank().(jobs := map[1 := Placing(None, [TwoUnits()], true)]) }

  lemma PlaceCommits()
    ensures Apply(Placing1(), Commit(1, 0)) == Placed()
  {
    var made := NewItems(0, [TwoUnits()], 1);
    assert made == [Row(1, TwoUnits(), 0)] && [] + made == made;
    assert FirstLines(made) == [Line(1, 2, 0)];
    assert made[..0] == [] && Subtotal([], 0) == 0 && Subtotal(made, 0) == 200;
  }

  lemma Place()
    ensures Run(Blank(), [Begin(1, PlaceOrder(None, [TwoUnits()], true)), Commit(1, 0)]) == Placed()
  {
    var es := [Begin(1, PlaceOrder(None, [TwoUnits()], true)), Commit(1, 0)];
    assert Run(Blank(), es[..0]) == Blank();
    RunNext(Blank(), es, 0);
    RunNext(Blank(), es, 1);
    PlaceCommits();
    assert es[..2] == es;
  }

  lemma Prints(job: Job, sent: int, log: seq<KotItem>, kot: int)
    requires job.Ticketing? && job.sends == [Line(1, 2, 0)]
    ensures TicketRows(Rows([Row(1, TwoUnits(), sent)], log, log), job.sends, job.auto, 9, kot)
            == Rows([Row(1, TwoUnits(), 2)], log + [KotItem(kot, 1, 2)], log + [KotItem(kot, 1, 2)])
  {
    var items := [Row(1, TwoUnits(), sent)];
    assert items[0].id == 1 && HasItem(items, 1) && LinesPresent(items, job.sends);
    assert MarkSent(items, job.sends) == [Row(1, TwoUnits(), 2)];
    assert Record(log, kot, job.sends) == log + [KotItem(kot, 1, 2)];
  }

  function Doubling(): seq<Event> {
    [Begin(1, PlaceOrder(None, [TwoUnits()], true)), Commit(1, 0), Begin(2, SendTicket(0)), Commit(2, 0), Commit(1, 9)]
  }

  lemma FirstRows()
    ensures PendingLines([Row(1, TwoUnits(), 0)], [], 0) == [Line(1, 2, 0)]
    ensures SentRows(Rows([Row(1, TwoUnits(), 0)], [], []), 0, 2) == Rows([Row(1, TwoUnits(), 2)], [KotItem(2, 1, 2)], [KotItem(2, 1, 2)])
  {
    var items := [Row(1, TwoUnits(), 0)];
    assert items[..0] == [] && PendingLines([], [], 0) == [] && PendingLines(items, [], 0) == [Line(1, 2, 0)];
    assert MarkSent(items, [Line(1, 2, 0)]) == [Row(1, TwoUnits(), 2)];
    assert Record([], 2, [Line(1, 2, 0)]) == [KotItem(2, 1, 2)];
  }

  lemma ManualOvertakes()
    ensures var one := Run(Blank(), Doubling()[..4]);
            one.rows == Rows([Row(1, TwoUnits(), 2)], [KotItem(2, 1, 2)], [KotItem(2, 1, 2)]) && one.jobs == map[1 := Auto()] && one.next == 3
  {
    var es := Doubling()[..4];
    Place();
    assert es[..2] == [Begin(1, PlaceOrder(None, [TwoUnits()], true)), Commit(1, 0)];
    TwoSteps(Blank(), es, 2, SendTicket(0), 2);
    SendUnfolds(Placed(), 2, 0);
    FirstRows();
  }

  lemma TwoTickets(kot: int, other: int)
    ensures History([KotItem(kot, 1, 2)], 1) == 2 && History([KotItem(kot, 1, 2)] + [KotItem(other, 1, 2)], 1) == 4
  {
    HistoryNext([], KotItem(kot, 1, 2), 1);
    assert [] + [KotItem(kot, 1, 2)] == [KotItem(kot, 1, 2)];
    HistoryNext([KotItem(kot, 1, 2)], KotItem(other, 1, 2), 1);
  }

  lemma AutomaticFollows(db: Db)
    requires 1 in db.jobs && db.jobs[1] == Auto()
    ensures Apply(db, Commit(1, 9)).rows == TicketRows(db.rows, Auto().sends, true, 9, db.next)
  {}

  /** A second terminal sends the ticket of a new order while the order's automatic
      ticket is still in flight. */
  lemma StaleTicketDoubles()
    ensures var rows := Run(Blank(), Doubling()).rows;
            rows.items == [Row(1, TwoUnits(), 2)] && History(rows.history, 1) == 4 && History(rows.printed, 1) == 4
  {
    var es := Doubling();
    ManualOvertakes();
    AutomaticFollows(Run(Blank(), es[..4]));
    Prints(Auto(), 2, [KotItem(2, 1, 2)], 3);
    RunNext(Blank(), es, 4);
    assert es[..5] == es;
    TwoTickets(2, 3);
  }

  function Renoting(): seq<Event> {
    [Begin(1, PlaceOrder(None, [TwoUnits()], true)), Commit(1, 0), Commit(1, 9), Begin(2, UpdateOrder(0, [Renoted()])), Commit(2, 0),
     Begin(2, SendTicket(0)), Commit(2, 0)]
  }

  function AllSent(): Db { Kitchen1(Row(1, TwoUnits(), 2), [KotItem(2, 1, 2)], [KotItem(2, 1, 2)], [0], map[], 3) }

  lemma AutomaticSends()
    ensures Apply(Placed(), Commit(1, 9)) == AllSent()
  {
    Prints(Auto(), 0, [], 2);
    JobsBack(map[], 1, Auto());
    assert [] + [KotItem(2, 1, 2)] == [KotItem(2, 1, 2)];
  }

  lemma Sent()
    ensures Run(Blank(), Renoting()[..3]) == AllSent()
  {
    var es := Renoting();
    Place();
    assert es[..2] == [Begin(1, PlaceOrder(None, [TwoUnits()], true)), Commit(1, 0)];
    AutomaticSends();
    RunNext(Blank(), es, 2);
  }

  lemma RenotedRows()
    ensures EditLines([Row(1, TwoUnits(), 2)], 0, [Renoted()]) == [EditLine(Renoted(), 2)]
    ensures UpdateRows(Rows([Row(1, TwoUnits(), 2)], [KotItem(2, 1, 2)], [KotItem(2, 1, 2)]), 0, [EditLine(Renoted(), 2)], 3)
            == Rows([Row(3, Renoted(), 2)], [], [KotItem(2, 1, 2)])
  {
    var items, log, e := [Row(1, TwoUnits(), 2)], [KotItem(2, 1, 2)], EditLine(Renoted(), 2);
    assert items[..0] == [] && SentSum([], 0, 7) == 0 && SentSum(items, 0, 7) == 2;
    assert FirstMatch([], 0, Renoted(), {}) == None && FirstMatch(items, 0, Renoted(), {}) == None;
    assert [e][..0] == [] && Match(items, 0, []) == Matching(map[], []);
    assert Match(items, 0, [e]) == Matching(map[], [e]);
    assert items[0] in items;
    assert Dropped(items, 0, map[]) == {1};
    assert WithoutRows([], {1}) == [] && WithoutRows(items, {1}) == [];
    assert log[..0] == [] && WithoutHistory([], {1}) == [] && WithoutHistory(log, {1}) == [];
    assert Overwrite([], map[]) == [] && CreatedRows(0, [e], 3) == [Row(3, Renoted(), 2)];
    assert [] + CreatedRows(0, [e], 3) == CreatedRows(0, [e], 3);
  }

  function Renoted1(): Job { Updating(0, [EditLine(Renoted(), 2)]) }

  lemma UpdateBegins()
    ensures Apply(AllSent(), Begin(2, UpdateOrder(0, [Renoted()]))) == AllSent().(jobs := map[2 := Renoted1()])
  {
    RenotedRows();
  }

  lemma UpdateCommits()
    ensures Apply(AllSent().(jobs := map[2 := Renoted1()]), Commit(2, 0))
            == Kitchen1(Row(3, Renoted(), 2), [], [KotItem(2, 1, 2)], [0], map[], 5)
  {
    RenotedRows();
    JobsBack(map[], 2, Renoted1());
    var items := [Row(3, Renoted(), 2)];
    assert items[..0] == [] && Subtotal([], 0) == 0 && Subtotal(items, 0) == 200;
  }

  lemma Updated()
    ensures Run(Blank(), Renoting()[..5]) == Kitchen1(Row(3, Renoted(), 2), [], [KotItem(2, 1, 2)], [0], map[], 5)
  {
    var es := Renoting();
    Sent();
    UpdateBegins();
    UpdateCommits();
    RunNext(Blank(), es, 3);
    RunNext(Blank(), es, 4);
  }

  lemma ResentRows()
    ensures PendingLines([Row(3, Renoted(), 2)], [], 0) == [Line(3, 2, 0)]
    ensures SentRows(Rows([Row(3, Renoted(), 2)], [], [KotItem(2, 1, 2)]), 0, 5)
            == Rows([Row(3, Renoted(), 2)], [KotItem(5, 3, 2)], [KotItem(2, 1, 2), KotItem(5, 3, 2)])
  {
    var items := [Row(3, Renoted(), 2)];
    assert items[..0] == [] && PendingLines([], [], 0) == [] && PendingLines(items, [], 0) == [Line(3, 2, 0)];
    assert MarkSent(items, [Line(3, 2, 0)]) == items;
    assert Record([], 5, [Line(3, 2, 0)]) == [KotItem(5, 3, 2)];
    assert Record([KotItem(2, 1, 2)], 5, [Line(3, 2, 0)]) == [KotItem(2, 1, 2), KotItem(5, 3, 2)];
  }

  /** No race is needed: replacing a sent line by the same dish with another note gives a
      row that says two sent with no ticket behind it, and the next ticket sends the two
      units again. */
  lemma RenotedItemIsSentAgain()
    ensures var edited := Run(Blank(), Renoting()[..5]).rows;
            edited.items == [Row(3, Renoted(), 2)] && edited.items[0].sent == 2 && History(edited.history, 3) == 0
    ensures var rows := Run(Blank(), Renoting()).rows;
            && rows.items == [Row(3, Renoted(), 2)] && rows.items[0].quantity == 2
            && rows.printed == [KotItem(2, 1, 2), KotItem(5, 3, 2)]
  {
    Updated();
    TwoSteps(Blank(), Renoting(), 2, SendTicket(0), 5);
    SendUnfolds(Run(Blank(), Renoting()[..5]), 2, 0);
    ResentRows();
  }
}

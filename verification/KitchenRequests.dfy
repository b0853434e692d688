/** What each kitchen request asks for before its transaction, and what the simple ones
    leave behind. */
module KitchenRequests {
  import opened Prelude
  import opened KitchenLedger
  import opened KitchenRows
  import opened KitchenRuns
  import opened KitchenSeating
  import opened KitchenSplits

  ghost predicate HasRow(items: seq<Item>, order: int, id: int) { exists it :: it in items && it.id == id && it.orderId == order }

  // ---------- Guards ----------

  /** An item goes onto an order that is not cancelled, in a positive quantity; it is edited
      or taken off there if it is the order's own, and never taken off as its last one. */
  lemma ItemRequestsAskFor(db: Db, order: int, line: NewLine, item: int, quantity: int, notes: Option<string>)
    requires Ordered(db.rows.items)
    ensures var there := order in db.seats.orders && db.seats.orders[order].status != CANCELLED;
            && (Start(db, AddItem(order, line)).Some? <==> there && line.quantity > 0)
            && (Start(db, EditItem(order, item, quantity, notes)).Some? <==> there && quantity > 0 && HasRow(db.rows.items, order, item))
            && (Start(db, RemoveItem(order, item)).Some? <==>
                  there && HasRow(db.rows.items, order, item)
                  && exists other :: other != item && HasRow(db.rows.items, order, other))
  {
    FindsItem(db.rows.items, item);
    RowsCounted(db.rows.items, order);
    var ids := ItemIds(db.rows.items, order);
    if HasRow(db.rows.items, order, item) {
      assert item in ids;
      if |ids| > 1 {
        var other := if ids[0] == item then ids[1] else ids[0];
        assert ids[0] in ids && ids[1] in ids;
        assert HasRow(db.rows.items, order, other);
      }
      if other :| other != item && HasRow(db.rows.items, order, other) {
        assert other in ids;
        TwoMembers(ids, item, other);
      }
    }
  }

  lemma TwoMembers(ids: seq<int>, a: int, b: int)
    requires a in ids && b in ids && a != b
    ensures |ids| != 1
  {
    assert ids != [a];
  }

  lemma {:induction false} RowsCounted(items: seq<Item>, order: int)
    requires Ordered(items)
    ensures forall id :: id in ItemIds(items, order) <==> HasRow(items, order, id)
    ensures forall i, j :: 0 <= i < j < |ItemIds(items, order)| ==> ItemIds(items, order)[i] < ItemIds(items, order)[j]
  {
    if items != [] {
      var init, last := items[..|items| - 1], items[|items| - 1];
      RowsCounted(init, order);
      assert items == init + [last];
      forall id ensures HasRow(items, order, id) <==> HasRow(init, order, id) || (last.orderId == order && last.id == id) {
        HasRowNext(init, last, order, id);
      }
      var ids := ItemIds(init, order);
      forall i | 0 <= i < |ids| ensures ids[i] < last.id {
        assert ids[i] in ids;
        var it :| it in init && it.id == ids[i] && it.orderId == order;
      }
    }
  }

  lemma HasRowNext(items: seq<Item>, last: Item, order: int, id: int)
    ensures HasRow(items + [last], order, id) <==> HasRow(items, order, id) || (last.orderId == order && last.id == id)
  {
    if HasRow(items, order, id) {
      var it :| it in items && it.id == id && it.orderId == order;
      assert it in items + [last];
    }
    if last.orderId == order && last.id == id { assert last in items + [last]; }
  }

  /** A new order needs a free table, if it takes one; a whole-order edit a pending or held
      order; a ticket an order with units the tickets do not cover. */
  lemma OrderRequestsAskFor(db: Db, order: int, lines: seq<NewLine>, table: Option<int>, auto: bool)
    requires Ordered(db.rows.items)
    ensures Start(db, PlaceOrder(table, lines, auto)).Some? <==>
              table == None || (table.value in db.seats.tables && db.seats.tables[table.value] == AVAILABLE)
    ensures Start(db, UpdateOrder(order, lines)).Some? <==>
              order in db.seats.orders && (db.seats.orders[order].status == PENDING || db.seats.orders[order].status == HOLD)
    ensures Start(db, SendTicket(order)).Some? <==> order in db.seats.orders && SomeUnsent(db.rows, order)
  {
    UnsentIff(db.rows, order);
  }

  ghost predicate SomeUnsent(rows: Rows, order: int) {
    exists it :: it in rows.items && it.orderId == order && History(rows.history, it.id) < it.quantity
  }

  lemma UnsentIff(rows: Rows, order: int)
    requires Ordered(rows.items)
    ensures PendingLines(rows.items, rows.history, order) != [] <==> SomeUnsent(rows, order)
  {
    PendingLinesAre(rows.items, rows.history, order);
    var lines := PendingLines(rows.items, rows.history, order);
    if lines != [] {
      assert lines[0] in lines;
      var it :| IsPendingLine(rows.items, rows.history, order, lines[0], it);
    }
    if it :| it in rows.items && it.orderId == order && History(rows.history, it.id) < it.quantity {
      assert PendingOf(it, rows.history) > 0;
    }
  }

  ghost predicate LeadsOne(db: Db, order: int) { exists g :: g in db.seats.groups && db.seats.groups[g].status == ACTIVE && db.seats.groups[g].primary == order }

  ghost predicate InOne(db: Db, order: int) {
    exists g, m :: g in db.seats.groups && db.seats.groups[g].status == ACTIVE && m in db.seats.groups[g].members && m.orderId == order
  }

  ghost predicate StillOpen(db: Db, order: int) {
    order in db.seats.orders && db.seats.orders[order].status != COMPLETED && db.seats.orders[order].status != CANCELLED
  }

  /** A merge needs two different open orders, the source at a table and in no active group,
      the target at a table or leading a group. */
  lemma MergeAsksFor(db: Db, source: int, target: int)
    requires WiredSeats(db.seats, db.next)
    ensures Start(db, MergeOrders(source, target)).Some? <==>
              && source != target && StillOpen(db, source) && StillOpen(db, target) && !InOne(db, source)
              && db.seats.orders[source].tableId != None && (db.seats.orders[target].tableId != None || LeadsOne(db, target))
  {
    LedOne(db, target);
    InOneIff(db, source);
  }

  lemma LedOne(db: Db, order: int)
    requires WiredSeats(db.seats, db.next)
    ensures ActiveGroup(db.seats.groups, order, 0, db.next).Some? <==> LeadsOne(db, order)
  {
    var found := ActiveGroup(db.seats.groups, order, 0, db.next);
    if found.Some? { assert Leads(db.seats.groups, found.value, order); }
    if h :| h in db.seats.groups && db.seats.groups[h].status == ACTIVE && db.seats.groups[h].primary == order {
      assert Leads(db.seats.groups, h, order);
    }
  }

  lemma InOneIff(db: Db, order: int)
    ensures InOne(db, order) <==> exists g :: g in db.seats.groups && InActive(db.seats.groups, g, order)
  {
    if g, m :| g in db.seats.groups && db.seats.groups[g].status == ACTIVE && m in db.seats.groups[g].members && m.orderId == order {
      assert InActive(db.seats.groups, g, order);
    }
    if g :| g in db.seats.groups && InActive(db.seats.groups, g, order) {
      var m :| m in db.seats.groups[g].members && m.orderId == order;
    }
  }

  /** A split needs an active group; a cancel and a payment an open order; a status write
      one that is not cancelled; a transfer that, at a table, to a free one. */
  lemma SeatRequestsAskFor(db: Db, source: int, g: int, status: OrderStatus, to: int)
    ensures Start(db, SplitGroup(g)).Some? <==> g in db.seats.groups && db.seats.groups[g].status == ACTIVE
    ensures Start(db, CancelOrder(source)).Some? <==> StillOpen(db, source)
    ensures Start(db, PayOrder(source)).Some? <==> StillOpen(db, source)
    ensures Start(db, SetStatus(source, status)).Some? <==> source in db.seats.orders && db.seats.orders[source].status != CANCELLED
    ensures Start(db, Transfer(source, to)).Some? <==>
              && source in db.seats.orders && db.seats.orders[source].status != CANCELLED && db.seats.orders[source].tableId != None
              && to in db.seats.tables && db.seats.tables[to] == AVAILABLE
  {}

  // ---------- What a commit finds ----------

  predicate Gone(items: seq<Item>, id: int) { forall it :: it in items ==> it.id != id }

  /** A merge moves all the rows it read, or, if one of them is gone, writes nothing. */
  lemma MergeFinds(db: Db, job: Job, updates: nat)
    requires job.Merging?
    ensures var db' := Write(db, job, updates);
            if exists k :: 0 <= k < |job.moved| && Gone(db.rows.items, job.moved[k]) then db' == db.(next := db.next + 1)
            else
              && |db'.rows.items| == |db.rows.items|
              && (forall i :: 0 <= i < |db.rows.items| ==>
                    var it := db.rows.items[i];
                    db'.rows.items[i] == if it.id in job.moved then it.(orderId := job.target) else it)
              && db'.subtotals == db.subtotals[job.target := Subtotal(db'.rows.items, job.target)]
  {
    if k :| 0 <= k < |job.moved| && Gone(db.rows.items, job.moved[k]) {
      assert !HasItem(db.rows.items, job.moved[k]);
    } else {
      forall k | 0 <= k < |job.moved| ensures HasItem(db.rows.items, job.moved[k]) {
        assert !Gone(db.rows.items, job.moved[k]);
      }
    }
  }

  /** A ticket for a row that is gone writes nothing, except that an automatic one stays,
      without lines. */
  lemma TicketFinds(db: Db, job: Job, k: nat, updates: nat)
    requires job.Ticketing? && k < |job.sends| && Gone(db.rows.items, job.sends[k].itemId)
    ensures Write(db, job, updates) == db.(next := db.next + 1, kots := if job.auto then db.kots + [job.order] else db.kots)
  {
    assert !HasItem(db.rows.items, job.sends[k].itemId);
  }

  // ---------- Totals ----------

  /** An order's subtotal adds up its own rows, price times quantity. */
  lemma SubtotalAdds(items: seq<Item>, it: Item, order: int)
    ensures Subtotal([], order) == 0
    ensures Subtotal(items + [it], order) == Subtotal(items, order) + (if it.orderId == order then it.price * it.quantity else 0)
  {
    assert (items + [it])[..|items|] == items;
  }

  // ---------- Placing, adding, taking off ----------

  /** A new order is PENDING at its table, now OCCUPIED, with a row for each line and
      nothing sent. */
  lemma PlacedAlone(db: Db, w: int, table: Option<int>, lines: seq<NewLine>)
    requires w !in db.jobs && Start(db, PlaceOrder(table, lines, false)).Some?
    ensures var db' := Alone(db, w, PlaceOrder(table, lines, false));
            && db'.seats.orders == db.seats.orders[db.next := Order(PENDING, table, None)]
            && db'.seats.tables == (if table.Some? then db.seats.tables[table.value := OCCUPIED] else db.seats.tables)
            && db'.seats.groups == db.seats.groups && db'.jobs == db.jobs && db'.kots == db.kots
            && db'.rows.history == db.rows.history && db'.rows.printed == db.rows.printed
            && |db'.rows.items| == |db.rows.items| + |lines| && db'.rows.items[..|db.rows.items|] == db.rows.items
            && (forall k :: 0 <= k < |lines| ==>
                  db'.rows.items[|db.rows.items| + k]
                  == Item(db.next + 1 + k, db.next, lines[k].menuItemId, lines[k].notes, lines[k].price, lines[k].quantity, 0))
            && db'.subtotals == db.subtotals[db.next := Subtotal(db'.rows.items, db.next)] && db'.next == db.next + 1 + |lines|
  {
    AloneIs(db, w, PlaceOrder(table, lines, false));
  }

  /** An added item is a row of its own, nothing of it sent. */
  lemma AddedAlone(db: Db, w: int, order: int, line: NewLine)
    requires w !in db.jobs && Start(db, AddItem(order, line)).Some?
    ensures var db' := Alone(db, w, AddItem(order, line));
            && db'.rows.items == db.rows.items + [Item(db.next, order, line.menuItemId, line.notes, line.price, line.quantity, 0)]
            && db'.rows.history == db.rows.history && db'.rows.printed == db.rows.printed
            && db'.seats == db.seats && db'.jobs == db.jobs && db'.kots == db.kots && db'.next == db.next + 1
            && db'.subtotals == db.subtotals[order := Subtotal(db'.rows.items, order)]
  {
    AloneIs(db, w, AddItem(order, line));
    assert NewItems(order, [line], db.next) == [Item(db.next, order, line.menuItemId, line.notes, line.price, line.quantity, 0)];
  }

  /** An edited line has the new quantity, the note if one was given, and is sent at most
      that; a removed one is gone with its ticket lines, though the kitchen keeps what it
      received.  Other rows stay. */
  lemma EditedAlone(db: Db, w: int, order: int, it: Item, quantity: int, notes: Option<string>)
    requires Sound(db) && w !in db.jobs && it in db.rows.items && Start(db, EditItem(order, it.id, quantity, notes)).Some?
    ensures var db' := Alone(db, w, EditItem(order, it.id, quantity, notes));
            && |db'.rows.items| == |db.rows.items|
            && (forall i :: 0 <= i < |db.rows.items| ==>
                  db'.rows.items[i] ==
                  if db.rows.items[i].id != it.id then db.rows.items[i]
                  else Item(it.id, it.orderId, it.menuItemId, if notes.Some? then notes.value else it.notes, it.price, quantity,
                            if it.sent < quantity then it.sent else quantity))
            && db'.rows.history == db.rows.history && db'.rows.printed == db.rows.printed && db'.seats == db.seats
            && db'.subtotals == db.subtotals[order := Subtotal(db'.rows.items, order)]
  {
    AloneIs(db, w, EditItem(order, it.id, quantity, notes));
    FindsItem(db.rows.items, it.id);
    forall i | 0 <= i < |db.rows.items| && db.rows.items[i].id == it.id ensures db.rows.items[i] == it {
      SameRow(db.rows.items, db.rows.items[i], it);
    }
  }

  lemma RemovedAlone(db: Db, w: int, order: int, item: int)
    requires Sound(db) && w !in db.jobs && Start(db, RemoveItem(order, item)).Some?
    ensures var db' := Alone(db, w, RemoveItem(order, item));
            && (forall it: Item :: it in db'.rows.items <==> it in db.rows.items && it.id != item)
            && (forall id :: History(db'.rows.history, id) == if id == item then 0 else History(db.rows.history, id))
            && db'.rows.printed == db.rows.printed && db'.seats == db.seats
            && db'.subtotals == db.subtotals[order := Subtotal(db'.rows.items, order)]
  {
    AloneIs(db, w, RemoveItem(order, item));
    WithoutRowsAre(db.rows.items, {item});
    forall id ensures History(WithoutHistory(db.rows.history, {item}), id) == if id == item then 0 else History(db.rows.history, id) {
      ErasedAt(db.rows.history, {item}, id);
    }
  }

  // ---------- Seats ----------

  /** A status write sets the status; a cancel frees the order's table; a payment completes
      the order and frees its table, with the tables of the group it leads; a transfer
      frees the old table and takes the new one. */
  lemma StatusAlone(db: Db, w: int, order: int, status: OrderStatus)
    requires w !in db.jobs && Start(db, SetStatus(order, status)).Some?
    ensures var was := db.seats.orders[order];
            Alone(db, w, SetStatus(order, status))
            == db.(next := db.next + 1, seats := db.seats.(orders := db.seats.orders[order := Order(status, was.tableId, was.mergedInto)]))
  {
    AloneIs(db, w, SetStatus(order, status));
  }

  lemma CancelAlone(db: Db, w: int, order: int)
    requires w !in db.jobs && Start(db, CancelOrder(order)).Some?
    ensures var was := db.seats.orders[order];
            Alone(db, w, CancelOrder(order))
            == db.(next := db.next + 1, jobs := db.jobs[w := Releasing(order)], seats := db.seats.(
                 orders := db.seats.orders[order := Order(CANCELLED, was.tableId, was.mergedInto)],
                 tables := if was.tableId.Some? then db.seats.tables[was.tableId.value := AVAILABLE] else db.seats.tables))
  {
    assert db.jobs[w := Cancelling(order, db.seats.orders[order].tableId)][w := Releasing(order)] == db.jobs[w := Releasing(order)];
  }

  lemma TransferAlone(db: Db, w: int, order: int, to: int)
    requires w !in db.jobs && Start(db, Transfer(order, to)).Some?
    ensures var was := db.seats.orders[order];
            Alone(db, w, Transfer(order, to))
            == db.(next := db.next + 1, seats := db.seats.(
                 orders := db.seats.orders[order := Order(was.status, Some(to), was.mergedInto)],
                 tables := db.seats.tables[was.tableId.value := AVAILABLE][to := OCCUPIED]))
  {
    AloneIs(db, w, Transfer(order, to));
  }

  /** The table of the order and those of the group it leads. */
  ghost predicate Freed(s: Seats, order: int, next: nat, t: int) {
    || (order in s.orders && s.orders[order].tableId == Some(t))
    || exists g, m :: ActiveGroup(s.groups, order, 0, next) == Some(g) && g in s.groups && m in s.groups[g].members && m.tableId == t
  }

  lemma PaidAlone(db: Db, w: int, order: int, t: int)
    requires w !in db.jobs && Start(db, PayOrder(order)).Some?
    ensures var s, s' := db.seats, Alone(db, w, PayOrder(order)).seats;
            && s'.orders == s.orders[order := Order(COMPLETED, s.orders[order].tableId, s.orders[order].mergedInto)]
            && (Freed(s, order, db.next, t) ==> t in s'.tables && s'.tables[t] == AVAILABLE)
            && (!Freed(s, order, db.next, t) ==> (t in s'.tables <==> t in s.tables) && (t in s.tables ==> s'.tables[t] == s.tables[t]))
            && s'.groups.Keys == s.groups.Keys
            && (forall g :: g in s.groups ==>
                  s'.groups[g] == if ActiveGroup(s.groups, order, 0, db.next) == Some(g) then Group(s.groups[g].primary, RELEASED, s.groups[g].members)
                                  else s.groups[g])
            && Alone(db, w, PayOrder(order)) == db.(seats := s', next := db.next + 1)
  {
    var s, found := db.seats, ActiveGroup(db.seats.groups, order, 0, db.next);
    AloneIs(db, w, PayOrder(order));
    if found.Some? {
      FreeEffect(CloseSeats(s, order, COMPLETED, s.orders[order].tableId).tables, s.groups[found.value].members);
      assert TableListed(s.groups[found.value].members, t) <==> exists m :: m in s.groups[found.value].members && m.tableId == t;
    }
  }
}

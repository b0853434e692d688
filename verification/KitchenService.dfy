/** The request handlers that loop over rows, in the form the controllers have. */
module KitchenService {
  import opened Prelude
  import opened KitchenLedger
  import opened KitchenRows
  import opened KitchenRuns
  import opened KitchenSplits

  lemma OverwriteNext(existing: seq<Item>, kept: map<int, EditLine>, id: int, e: EditLine, items: seq<Item>)
    requires id !in kept && |items| == |existing|
    requires forall i :: 0 <= i < |items| ==>
      items[i] == if existing[i].id == id then Overwritten(Overwrite(existing, kept)[i], e) else Overwrite(existing, kept)[i]
    ensures items == Overwrite(existing, kept[id := e])
  {}

  lemma {:induction false} WithoutAppended(a: seq<Item>, b: seq<Item>, gone: set<int>)
    requires forall i :: 0 <= i < |b| ==> b[i].id !in gone
    ensures WithoutRows(a + b, gone) == WithoutRows(a, gone) + b
  {
    if b == [] {
      assert a + b == a && WithoutRows(a, gone) + b == WithoutRows(a, gone);
    } else {
      var init, last := b[..|b| - 1], b[|b| - 1];
      WithoutAppended(a, init, gone);
      assert (a + b)[..|a + b| - 1] == a + init;
      assert WithoutRows(a, gone) + init + [last] == WithoutRows(a, gone) + b;
    }
  }

  lemma {:induction false} OverwriteCommutes(items: seq<Item>, gone: set<int>, kept: map<int, EditLine>)
    ensures WithoutRows(Overwrite(items, kept), gone) == Overwrite(WithoutRows(items, gone), kept)
  {
    if items != [] {
      var init, last := items[..|items| - 1], items[|items| - 1];
      OverwriteCommutes(init, gone, kept);
      assert Overwrite(items, kept)[..|items| - 1] == Overwrite(init, kept);
      if last.id !in gone {
        assert Overwrite(WithoutRows(init, gone) + [last], kept) == Overwrite(WithoutRows(init, gone), kept) + [Overwrite(items, kept)[|items| - 1]];
      }
    }
  }

  /** Create, then delete what was not matched: the order the handler writes in. */
  lemma CreatedThenDeleted(rows: Rows, order: int, edits: seq<EditLine>, next: int)
    requires SoundRows(rows, next)
    ensures var m := Match(rows.items, order, edits);
            WithoutRows(Overwrite(rows.items, m.kept) + CreatedRows(order, m.created, next), Dropped(rows.items, order, m.kept))
            == UpdateRows(rows, order, edits, next).items
  {
    var m := Match(rows.items, order, edits);
    var gone := Dropped(rows.items, order, m.kept);
    WithoutAppended(Overwrite(rows.items, m.kept), CreatedRows(order, m.created, next), gone);
    OverwriteCommutes(rows.items, gone, m.kept);
  }

  lemma UpdateUnfolds(db: Db, order: int, lines: seq<NewLine>)
    requires 0 !in db.jobs && order in db.seats.orders && (db.seats.orders[order].status.PENDING? || db.seats.orders[order].status.HOLD?)
    ensures var edits := EditLines(db.rows.items, order, lines);
            var rows := UpdateRows(db.rows, order, edits, db.next);
            Alone(db, 0, Request.UpdateOrder(order, lines))
            == db.(rows := rows, subtotals := db.subtotals[order := Subtotal(rows.items, order)], next := db.next + 1 + |edits|)
  {
    AloneIs(db, 0, Request.UpdateOrder(order, lines));
  }

  lemma Refused(db: Db, r: Request)
    requires 0 !in db.jobs && Start(db, r).None?
    ensures Alone(db, 0, r) == db
  {}

  lemma RefusedCancel(db: Db, order: int)
    requires 0 !in db.jobs && !CancelLands(db.seats, order)
    ensures Apply(Alone(db, 0, Request.CancelOrder(order)), Commit(0, 0)) == db
  {
    Refused(db, Request.CancelOrder(order));
  }

  lemma CancelIs(db: Db, order: int)
    requires db.jobs == map[] && CancelLands(db.seats, order)
    ensures var s := CloseSeats(db.seats, order, CANCELLED, db.seats.orders[order].tableId);
            Apply(Alone(db, 0, Request.CancelOrder(order)), Commit(0, 0)) == db.(seats := ReleaseSeats(s, order, db.next + 1), next := db.next + 2)
  {
    var once := Alone(db, 0, Request.CancelOrder(order));
    assert once == db.(seats := CloseSeats(db.seats, order, CANCELLED, db.seats.orders[order].tableId), next := db.next + 1, jobs := map[0 := Releasing(order)]);
  }

  lemma SplitIs(db: Db, g: int)
    requires db.jobs == map[] && g in db.seats.groups && db.seats.groups[g].status.ACTIVE?
    ensures Alone(db, 0, SplitGroup(g))
            == db.(seats := SplitSeats(db.seats, g, db.seats.groups[g].primary, db.seats.groups[g].members), next := db.next + 1)
  {
    AloneIs(db, 0, SplitGroup(g));
  }

  lemma PayIs(db: Db, order: int)
    requires db.jobs == map[] && order in db.seats.orders && IsOpen(db.seats.orders[order])
    ensures Alone(db, 0, Request.PayOrder(order))
            == db.(seats := PaySeats(db.seats, order, db.seats.orders[order].tableId, db.next), next := db.next + 1)
  {
    AloneIs(db, 0, Request.PayOrder(order));
  }

  lemma TransferIs(db: Db, order: int, to: int)
    requires db.jobs == map[] && Start(db, Request.Transfer(order, to)).Some?
    ensures Alone(db, 0, Request.Transfer(order, to))
            == db.(seats := MoveSeats(db.seats, order, db.seats.orders[order].tableId.value, to), next := db.next + 1)
  {
    AloneIs(db, 0, Request.Transfer(order, to));
  }

  class Kitchen {
    var items: seq<Item>
    var history: seq<KotItem>
    var printed: seq<KotItem>
    var orders: map<int, Order>
    var groups: map<int, Group>
    var tables: map<int, TableStatus>
    var subtotals: map<int, int>
    var kots: seq<int>
    var next: nat

    ghost function State(): Db
      reads this
    {
      Db(Rows(items, history, printed), Seats(orders, groups, tables), subtotals, kots, map[], next)
    }

    constructor (tables: map<int, TableStatus>)
      ensures State() == Db(Rows([], [], []), Seats(map[], map[], tables), map[], [], map[], 0)
    {
      items, history, printed, kots := [], [], [], [];
      orders, groups, this.tables, subtotals, next := map[], map[], tables, map[], 0;
    }

    /** Sum the ticket lines per order item, then list what is still outstanding. */
    method PendingForOrder(order: int) returns (delta: seq<Line>)
      ensures delta == PendingLines(items, history, order)
    {
      var sentByItem: map<int, int> := map[];
      for k := 0 to |history|
        invariant forall id :: (if id in sentByItem then sentByItem[id] else 0) == History(history[..k], id)
      {
        var ki := history[k];
        assert history[..k + 1][..k] == history[..k];
        sentByItem := sentByItem[ki.itemId := (if ki.itemId in sentByItem then sentByItem[ki.itemId] else 0) + ki.quantity];
      }
      assert history[..|history|] == history;
      delta := [];
      for i := 0 to |items|
        invariant delta == PendingLines(items[..i], history, order)
      {
        var oi := items[i];
        assert items[..i + 1][..i] == items[..i];
        if oi.orderId == order {
          var historical := if oi.id in sentByItem then sentByItem[oi.id] else 0;
          var pending := Max(0, oi.quantity - historical);
          if pending > 0 {
            delta := delta + [Line(oi.id, pending, historical)];
          }
        }
      }
      assert items[..|items|] == items;
    }

    /** POST /kot in one transaction: false means no order or nothing pending. */
    method CreateKot(order: int) returns (created: bool)
      requires Sound(State())
      modifies this
      ensures State() == Alone(old(State()), 0, SendTicket(order))
      ensures created <==> order in old(orders) && PendingLines(old(items), old(history), order) != []
    {
      if order !in orders { return false; }
      var delta := PendingForOrder(order);
      SendUnfolds(State(), 0, order);
      if delta == [] { return false; }
      WriteTicket(order, delta);
      return true;
    }

    method WriteTicket(order: int, delta: seq<Line>)
      modifies this
      ensures State() == old(State()).(rows := Rows(MarkSent(old(items), delta), Record(old(history), old(next), delta),
                                                    Record(old(printed), old(next), delta)),
                           kots := old(kots) + [order], next := old(next) + 1)
    {
      WriteTicketLines(delta);
      WriteSent(delta);
      kots, next := kots + [order], next + 1;
    }

    method WriteTicketLines(delta: seq<Line>)
      modifies this`history, this`printed
      ensures history == Record(old(history), next, delta) && printed == Record(old(printed), next, delta)
    {
      for k := 0 to |delta|
        invariant history == Record(old(history), next, delta[..k]) && printed == Record(old(printed), next, delta[..k])
      {
        var line := KotItem(next, delta[k].itemId, delta[k].pending);
        history, printed := history + [line], printed + [line];
      }
    }

    method WriteSent(delta: seq<Line>)
      modifies this`items
      ensures items == MarkSent(old(items), delta)
    {
      for k := 0 to |delta|
        invariant items == MarkSent(old(items), delta[..k])
      {
        assert delta[..k + 1][..k] == delta[..k];
        UpdateSent(delta[k].itemId, delta[k].seen + delta[k].pending);
      }
      assert delta[..|delta|] == delta;
    }

    method UpdateSent(id: int, sent: int)
      modifies this`items
      ensures |items| == |old(items)|
      ensures forall j :: 0 <= j < |items| ==> items[j] == if old(items)[j].id == id then old(items)[j].(sent := sent) else old(items)[j]
    {
      var rows := items;
      for i := 0 to |rows|
        invariant |items| == |rows|
        invariant forall j :: 0 <= j < i ==> items[j] == if rows[j].id == id then rows[j].(sent := sent) else rows[j]
        invariant forall j :: i <= j < |rows| ==> items[j] == rows[j]
      {
        if rows[i].id == id { items := items[i := rows[i].(sent := sent)]; }
      }
    }

    // ---------- PUT /orders/:id ----------

    /** The sent quantity each line inherits: the sum over its menu item, at most its own. */
    method SentForLines(order: int, lines: seq<NewLine>) returns (edits: seq<EditLine>)
      ensures edits == EditLines(items, order, lines)
    {
      var sentByMenu: map<int, int> := map[];
      for i := 0 to |items|
        invariant forall m :: (if m in sentByMenu then sentByMenu[m] else 0) == SentSum(items[..i], order, m)
      {
        var oi := items[i];
        assert items[..i + 1][..i] == items[..i];
        if oi.orderId == order {
          sentByMenu := sentByMenu[oi.menuItemId := (if oi.menuItemId in sentByMenu then sentByMenu[oi.menuItemId] else 0) + oi.sent];
        }
      }
      assert items[..|items|] == items;
      edits := [];
      for k := 0 to |lines|
        invariant edits == EditLines(items, order, lines)[..k]
      {
        var before := if lines[k].menuItemId in sentByMenu then sentByMenu[lines[k].menuItemId] else 0;
        edits := edits + [EditLine(lines[k], Min(before, lines[k].quantity))];
      }
    }

    method FindMatch(existing: seq<Item>, order: int, line: NewLine, taken: set<int>) returns (id: Option<int>)
      ensures id == FirstMatch(existing, order, line, taken)
    {
      id := None;
      for i := 0 to |existing|
        invariant id == FirstMatch(existing[..i], order, line, taken)
      {
        var it := existing[i];
        assert existing[..i + 1][..i] == existing[..i];
        if id.None? && it.orderId == order && it.menuItemId == line.menuItemId && it.notes == line.notes && it.id !in taken {
          id := Some(it.id);
        }
      }
      assert existing[..|existing|] == existing;
    }

    method OverwriteRow(id: int, e: EditLine)
      modifies this`items
      ensures |items| == |old(items)|
      ensures forall j :: 0 <= j < |items| ==> items[j] == if old(items)[j].id == id then Overwritten(old(items)[j], e) else old(items)[j]
    {
      var rows := items;
      for i := 0 to |rows|
        invariant |items| == |rows|
        invariant forall j :: 0 <= j < i ==> items[j] == if rows[j].id == id then Overwritten(rows[j], e) else rows[j]
        invariant forall j :: i <= j < |rows| ==> items[j] == rows[j]
      {
        if rows[i].id == id { items := items[i := Overwritten(rows[i], e)]; }
      }
    }

    /** Match line by line and write matched rows in place; what found no row is created later. */
    method MatchLines(order: int, edits: seq<EditLine>) returns (kept: set<int>, created: seq<EditLine>)
      modifies this`items
      ensures var m := Match(old(items), order, edits);
              items == Overwrite(old(items), m.kept) && kept == m.kept.Keys && created == m.created
    {
      var existing := items;
      kept, created := {}, [];
      ghost var rows: map<int, EditLine> := map[];
      assert Overwrite(existing, rows) == existing;
      for k := 0 to |edits|
        invariant Matching(rows, created) == Match(existing, order, edits[..k])
        invariant kept == rows.Keys && items == Overwrite(existing, rows)
      {
        assert edits[..k + 1][..k] == edits[..k];
        var id := FindMatch(existing, order, edits[k].line, kept);
        if id.Some? {
          OverwriteRow(id.value, edits[k]);
          OverwriteNext(existing, rows, id.value, edits[k], items);
          kept, rows := kept + {id.value}, rows[id.value := edits[k]];
        } else {
          created := created + [edits[k]];
        }
      }
      assert edits[..|edits|] == edits;
    }

    method RemoveRows(existing: seq<Item>, order: int, kept: map<int, EditLine>, keptIds: set<int>)
      requires keptIds == kept.Keys
      modifies this`items, this`history
      ensures items == WithoutRows(old(items), Dropped(existing, order, kept))
      ensures history == WithoutHistory(old(history), Dropped(existing, order, kept))
    {
      var gone := set it | it in existing && it.orderId == order && it.id !in keptIds :: it.id;
      assert gone == Dropped(existing, order, kept);
      var rows: seq<Item> := [];
      for i := 0 to |items|
        invariant rows == WithoutRows(items[..i], gone) && items == old(items) && history == old(history)
      {
        assert items[..i + 1][..i] == items[..i];
        if items[i].id !in gone { rows := rows + [items[i]]; }
      }
      assert items[..|items|] == items;
      var log: seq<KotItem> := [];
      for k := 0 to |history|
        invariant log == WithoutHistory(history[..k], gone) && items == old(items) && history == old(history)
      {
        assert history[..k + 1][..k] == history[..k];
        if history[k].itemId !in gone { log := log + [history[k]]; }
      }
      assert history[..|history|] == history;
      items, history := rows, log;
    }

    method OrderSubtotal(order: int) returns (subtotal: int)
      ensures subtotal == Subtotal(items, order)
    {
      subtotal := 0;
      for i := 0 to |items|
        invariant subtotal == Subtotal(items[..i], order)
      {
        assert items[..i + 1][..i] == items[..i];
        if items[i].orderId == order { subtotal := subtotal + items[i].price * items[i].quantity; }
      }
      assert items[..|items|] == items;
    }

    method WriteLines(order: int, edits: seq<EditLine>)
      requires SoundRows(Rows(items, history, printed), next)
      modifies this`items, this`history
      ensures Rows(items, history, printed) == UpdateRows(Rows(old(items), old(history), printed), order, edits, next)
    {
      CreatedThenDeleted(Rows(items, history, printed), order, edits, next);
      var existing := items;
      var kept, created := MatchLines(order, edits);
      items := items + CreatedRows(order, created, next);
      RemoveRows(existing, order, Match(existing, order, edits).kept, kept);
    }

    method WriteUpdate(order: int, lines: seq<NewLine>)
      requires SoundRows(Rows(items, history, printed), next)
      modifies this`items, this`history, this`next, this`subtotals
      ensures Rows(items, history, printed)
              == UpdateRows(Rows(old(items), old(history), printed), order, EditLines(old(items), order, lines), old(next))
      ensures subtotals == old(subtotals)[order := Subtotal(items, order)] && next == old(next) + 1 + |lines|
    {
      var edits := SentForLines(order, lines);
      WriteLines(order, edits);
      next := next + 1 + |edits|;
      var subtotal := OrderSubtotal(order);
      subtotals := subtotals[order := subtotal];
    }

    /** PUT /orders/:id: only pending and held orders; match, create, delete. */
    method UpdateOrder(order: int, lines: seq<NewLine>) returns (ok: bool)
      requires Sound(State())
      modifies this
      ensures ok <==> order in old(orders) && (old(orders)[order].status.PENDING? || old(orders)[order].status.HOLD?)
      ensures State() == Alone(old(State()), 0, Request.UpdateOrder(order, lines))
    {
      if order !in orders || !(orders[order].status.PENDING? || orders[order].status.HOLD?) {
        Refused(State(), Request.UpdateOrder(order, lines));
        return false;
      }
      UpdateUnfolds(State(), order, lines);
      WriteUpdate(order, lines);
      return true;
    }

    // ---------- Merges, splits, cancels ----------

    method FindActiveGroup(primary: int) returns (found: Option<int>)
      ensures found == ActiveGroup(groups, primary, 0, next)
    {
      var g := 0;
      while g < next
        invariant g <= next && ActiveGroup(groups, primary, 0, next) == ActiveGroup(groups, primary, g, next)
      {
        if g in groups && groups[g].status.ACTIVE? && groups[g].primary == primary { return Some(g); }
        g := g + 1;
      }
      return None;
    }

    predicate InNoActiveGroup(order: int)
      reads this
    {
      forall g :: g in groups ==> !InActive(groups, g, order)
    }

    method MoveItems(source: int, target: int)
      requires Ordered(items)
      modifies this`items
      ensures items == MoveRows(old(items), ItemIds(old(items), source), target)
    {
      var rows := items;
      ItemIdsAre(rows, source);
      for i := 0 to |rows|
        invariant |items| == |rows|
        invariant forall j :: 0 <= j < i ==> items[j] == if rows[j].orderId == source then rows[j].(orderId := target) else rows[j]
        invariant forall j :: i <= j < |rows| ==> items[j] == rows[j]
      {
        if rows[i].orderId == source { items := items[i := rows[i].(orderId := target)]; }
      }
      forall j | 0 <= j < |rows| ensures rows[j].id in ItemIds(rows, source) <==> rows[j].orderId == source { assert rows[j] in rows; }
    }

    /** The refusals, in the handler's order. */
    method CheckMerge(source: int, target: int) returns (ok: bool, existing: Option<int>)
      ensures ok <==> Start(State(), Request.MergeOrders(source, target)).Some?
      ensures ok ==> existing == ActiveGroup(groups, target, 0, next)
    {
      existing := None;
      if source !in orders || target !in orders || !IsOpen(orders[source]) || !IsOpen(orders[target]) || source == target {
        return false, existing;
      }
      if !InNoActiveGroup(source) || orders[source].tableId.None? { return false, existing; }
      existing := FindActiveGroup(target);
      ok := existing.Some? || orders[target].tableId.Some?;
    }

    /** Items one by one, the group extended or opened, the source cancelled, the target's
        subtotal anew. */
    method WriteMerge(source: int, target: int, existing: Option<int>)
      requires Ordered(items) && source in orders && orders[source].tableId.Some? && source != target
      requires if existing.Some? then existing.value in groups else target in orders && orders[target].tableId.Some?
      requires target in orders
      modifies this
      ensures items == MoveRows(old(items), ItemIds(old(items), source), target)
      ensures subtotals == old(subtotals)[target := Subtotal(items, target)]
      ensures Seats(orders, groups, tables) == MergeSeats(Seats(old(orders), old(groups), old(tables)), source, target, existing,
                                                          old(orders)[source].tableId.value, old(orders)[target].tableId, old(next))
      ensures history == old(history) && printed == old(printed) && kots == old(kots) && next == old(next) + 1
    {
      var joined := Member(orders[source].tableId.value, source);
      MoveItems(source, target);
      JoinGroup(existing, target, joined);
      orders := orders[source := orders[source].(status := CANCELLED, mergedInto := Some(target))];
      next := next + 1;
      var subtotal := OrderSubtotal(target);
      subtotals := subtotals[target := subtotal];
    }

    /** POST /orders/:id/merge. */
    method MergeOrders(source: int, target: int) returns (ok: bool)
      requires Sound(State())
      modifies this
      ensures ok <==> Start(old(State()), Request.MergeOrders(source, target)).Some?
      ensures State() == Alone(old(State()), 0, Request.MergeOrders(source, target))
    {
      var existing;
      ok, existing := CheckMerge(source, target);
      if !ok {
        Refused(State(), Request.MergeOrders(source, target));
        return;
      }
      MergeUnfolds(State(), 0, source, target);
      WriteMerge(source, target, existing);
    }

    method JoinGroup(existing: Option<int>, target: int, joined: Member)
      requires if existing.Some? then existing.value in groups else target in orders && orders[target].tableId.Some?
      modifies this`groups
      ensures existing.Some? ==>
                groups == old(groups)[existing.value := old(groups)[existing.value].(members := old(groups)[existing.value].members + [joined])]
      ensures existing.None? ==> groups == old(groups)[next := Group(target, ACTIVE, [joined, Member(orders[target].tableId.value, target)])]
    {
      if existing.Some? {
        var grp := groups[existing.value];
        groups := groups[existing.value := grp.(members := grp.members + [joined])];
      } else {
        groups := groups[next := Group(target, ACTIVE, [joined, Member(orders[target].tableId.value, target)])];
      }
    }

    /** Reopen every original order except the primary and occupy its table again. */
    method ReopenMembers(grp: Group)
      modifies this`orders, this`tables
      ensures orders == Reopen(old(orders), grp.members, grp.primary)
      ensures tables == Occupy(old(tables), grp.members, grp.primary)
    {
      for k := 0 to |grp.members|
        invariant orders == Reopen(old(orders), grp.members[..k], grp.primary)
        invariant tables == Occupy(old(tables), grp.members[..k], grp.primary)
      {
        var m := grp.members[k];
        assert grp.members[..k + 1][..k] == grp.members[..k];
        if m.orderId != grp.primary {
          if m.orderId in orders {
            orders := orders[m.orderId := orders[m.orderId].(status := PENDING, mergedInto := None)];
          }
          tables := tables[m.tableId := OCCUPIED];
        }
      }
      assert grp.members[..|grp.members|] == grp.members;
    }

    /** POST /orders/split. */
    method SplitOrders(g: int) returns (ok: bool)
      modifies this
      ensures ok <==> g in old(groups) && old(groups)[g].status.ACTIVE?
      ensures State() == Alone(old(State()), 0, SplitGroup(g))
    {
      if g !in groups || !groups[g].status.ACTIVE? { return false; }
      SplitIs(State(), g);
      ReopenMembers(groups[g]);
      groups := groups[g := groups[g].(status := SPLIT)];
      next := next + 1;
      return true;
    }

    /** Free the group's tables one by one and close it. */
    method ReleaseMergeGroup(g: int)
      requires g in groups
      modifies this`tables, this`groups
      ensures tables == Free(old(tables), old(groups)[g].members)
      ensures groups == old(groups)[g := old(groups)[g].(status := RELEASED)]
    {
      var members := groups[g].members;
      for k := 0 to |members|
        invariant tables == Free(old(tables), members[..k]) && groups == old(groups)
      {
        assert members[..k + 1][..k] == members[..k];
        tables := tables[members[k].tableId := AVAILABLE];
      }
      assert members[..|members|] == members;
      groups := groups[g := groups[g].(status := RELEASED)];
    }

    method WriteClosed(order: int, status: OrderStatus)
      requires order in orders
      modifies this`orders, this`tables
      ensures Seats(orders, groups, tables)
              == CloseSeats(Seats(old(orders), groups, old(tables)), order, status, old(orders)[order].tableId)
    {
      var table := orders[order].tableId;
      orders := orders[order := orders[order].(status := status)];
      if table.Some? { tables := tables[table.value := AVAILABLE]; }
    }

    method ReleaseLedGroup(order: int)
      modifies this`tables, this`groups
      ensures Seats(orders, groups, tables) == ReleaseSeats(Seats(orders, old(groups), old(tables)), order, next)
    {
      var group := FindActiveGroup(order);
      if group.Some? { ReleaseMergeGroup(group.value); }
    }

    /** The cancel's transaction, and after it the release of the group. */
    method CloseThenRelease(order: int)
      requires order in orders
      modifies this`orders, this`tables, this`groups, this`next
      ensures var s := Seats(old(orders), old(groups), old(tables));
              Seats(orders, groups, tables)
              == ReleaseSeats(CloseSeats(s, order, CANCELLED, s.orders[order].tableId), order, old(next) + 1)
      ensures next == old(next) + 2
    {
      WriteClosed(order, CANCELLED);
      next := next + 1;
      ReleaseLedGroup(order);
      next := next + 1;
    }

    /** POST /orders/:id/cancel. */
    method CancelOrder(order: int) returns (ok: bool)
      modifies this
      ensures ok <==> order in old(orders) && IsOpen(old(orders)[order])
      ensures State() == Apply(Alone(old(State()), 0, Request.CancelOrder(order)), Commit(0, 0))
    {
      if order !in orders || !IsOpen(orders[order]) {
        RefusedCancel(State(), order);
        return false;
      }
      CancelIs(State(), order);
      CloseThenRelease(order);
      return true;
    }

    method WritePaid(order: int)
      requires order in orders
      modifies this`orders, this`tables, this`groups
      ensures var s := Seats(old(orders), old(groups), old(tables));
              Seats(orders, groups, tables) == PaySeats(s, order, s.orders[order].tableId, next)
    {
      WriteClosed(order, COMPLETED);
      ReleaseLedGroup(order);
    }

    /** The completion of an order by a payment in full, inside the payment's transaction. */
    method CompletePaidOrder(order: int) returns (ok: bool)
      modifies this
      ensures ok <==> order in old(orders) && IsOpen(old(orders)[order])
      ensures State() == Alone(old(State()), 0, Request.PayOrder(order))
    {
      if order !in orders || !IsOpen(orders[order]) {
        Refused(State(), Request.PayOrder(order));
        return false;
      }
      PayIs(State(), order);
      WritePaid(order);
      next := next + 1;
      return true;
    }

    /** PATCH /orders/:id/change-table. */
    method ChangeTable(order: int, to: int) returns (ok: bool)
      modifies this
      ensures ok <==> Start(old(State()), Request.Transfer(order, to)).Some?
      ensures State() == Alone(old(State()), 0, Request.Transfer(order, to))
    {
      if order !in orders || orders[order].status.CANCELLED? || orders[order].tableId.None? || !IsFree(tables, to) {
        Refused(State(), Request.Transfer(order, to));
        return false;
      }
      TransferIs(State(), order, to);
      tables := tables[orders[order].tableId.value := AVAILABLE];
      tables := tables[to := OCCUPIED];
      orders := orders[order := orders[order].(tableId := Some(to))];
      next := next + 1;
      return true;
    }
  }
}

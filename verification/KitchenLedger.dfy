/** Orders, order items, kitchen tickets (KOTs) and table merges of one restaurant, with
    every request split between its checks and its transaction.

    A request that passed its checks is a job holding what it read; other requests may
    commit before it does.  Cancelling an order goes on after its transaction, to release
    the order's merge group, and placing one goes on to send its automatic ticket; a payment
    releases the group in its own transaction.  A job that is lost stands for a crash or a
    transaction that rolled back.
    `history` is the table of ticket lines, which cascades with its order items;
    `printed` is what the kitchen received, which nothing takes back. */
module KitchenLedger {
  import opened Prelude

  datatype OrderStatus = PENDING | PREPARING | READY | SERVED | COMPLETED | CANCELLED | HOLD
  datatype TableStatus = AVAILABLE | OCCUPIED | RESERVED | CLEANING
  datatype GroupStatus = ACTIVE | SPLIT | RELEASED

  datatype Order = Order(status: OrderStatus, tableId: Option<int>, mergedInto: Option<int>)
  datatype Item = Item(id: int, orderId: int, menuItemId: int, notes: string, price: int, quantity: int, sent: int)
  datatype KotItem = KotItem(kotId: int, itemId: int, quantity: int)
  datatype Line = Line(itemId: int, pending: int, seen: int)
  datatype Member = Member(tableId: int, orderId: int)
  datatype Group = Group(primary: int, status: GroupStatus, members: seq<Member>)

  datatype NewLine = NewLine(menuItemId: int, notes: string, price: int, quantity: int)

  /** A line of a whole-order edit with the sent quantity carried over to it. */
  datatype EditLine = EditLine(line: NewLine, sent: int)

  datatype Request =
    | PlaceOrder(table: Option<int>, lines: seq<NewLine>, auto: bool)
    | AddItem(order: int, line: NewLine)
    | EditItem(order: int, item: int, quantity: int, notes: Option<string>)
    | RemoveItem(order: int, item: int)
    | UpdateOrder(order: int, lines: seq<NewLine>)
    | SendTicket(order: int)
    | MergeOrders(source: int, target: int)
    | SplitGroup(group: int)
    | CancelOrder(order: int)
    | SetStatus(order: int, status: OrderStatus)
    | Transfer(order: int, to: int)
    | PayOrder(order: int)

  datatype Job =
    | Placing(table: Option<int>, lines: seq<NewLine>, auto: bool)
    | Adding(order: int, line: NewLine)
    | Editing(order: int, item: int, quantity: int, notes: Option<string>, seenSent: int)
    | Removing(order: int, item: int)
    | Updating(order: int, edits: seq<EditLine>)
    | Ticketing(order: int, sends: seq<Line>, auto: bool)
    | Merging(source: int, target: int, moved: seq<int>, joins: Option<int>, sourceTable: int, targetTable: Option<int>)
    | Splitting(group: int, primary: int, members: seq<Member>)
    | Cancelling(order: int, table: Option<int>)
    | Releasing(order: int)
    | Setting(order: int, status: OrderStatus)
    | Moving(order: int, from: int, to: int)
    | Paying(order: int, table: Option<int>)

  datatype Rows = Rows(items: seq<Item>, history: seq<KotItem>, printed: seq<KotItem>)
  datatype Seats = Seats(orders: map<int, Order>, groups: map<int, Group>, tables: map<int, TableStatus>)

  datatype Db = Db(rows: Rows, seats: Seats, subtotals: map<int, int>, kots: seq<int>, jobs: map<int, Job>, next: nat)

  datatype Event = Begin(worker: int, request: Request) | Commit(worker: int, updates: nat) | Crash(worker: int)

  // ---------- Reading ----------

  /** Units of an order item recorded on tickets so far. */
  function History(log: seq<KotItem>, id: int): int {
    if log == [] then 0
    else History(log[..|log| - 1], id) + (if log[|log| - 1].itemId == id then log[|log| - 1].quantity else 0)
  }

  function PendingOf(it: Item, log: seq<KotItem>): int { Max(0, it.quantity - History(log, it.id)) }

  function PendingLines(items: seq<Item>, log: seq<KotItem>, order: int): seq<Line> {
    if items == [] then []
    else
      var it := items[|items| - 1];
      PendingLines(items[..|items| - 1], log, order)
      + (if it.orderId == order && PendingOf(it, log) > 0
         then [Line(it.id, PendingOf(it, log), History(log, it.id))] else [])
  }

  predicate HasItem(items: seq<Item>, id: int) { exists it :: it in items && it.id == id }

  function FindItem(items: seq<Item>, id: int): Option<Item> {
    if items == [] then None
    else if items[|items| - 1].id == id then Some(items[|items| - 1])
    else FindItem(items[..|items| - 1], id)
  }

  function ItemIds(items: seq<Item>, order: int): seq<int> {
    if items == [] then []
    else ItemIds(items[..|items| - 1], order) + (if items[|items| - 1].orderId == order then [items[|items| - 1].id] else [])
  }

  /** What a whole-order edit carries over for a menu item: the sent quantities of all
      its rows together. */
  function SentSum(items: seq<Item>, order: int, menuItemId: int): int {
    if items == [] then 0
    else
      var it := items[|items| - 1];
      SentSum(items[..|items| - 1], order, menuItemId) + (if it.orderId == order && it.menuItemId == menuItemId then it.sent else 0)
  }

  function EditLines(items: seq<Item>, order: int, lines: seq<NewLine>): (r: seq<EditLine>)
    ensures |r| == |lines|
    ensures forall k :: 0 <= k < |r| ==>
              r[k] == EditLine(lines[k], Min(SentSum(items, order, lines[k].menuItemId), lines[k].quantity))
  {
    seq(|lines|, k requires 0 <= k < |lines| =>
      EditLine(lines[k], Min(SentSum(items, order, lines[k].menuItemId), lines[k].quantity)))
  }

  function Subtotal(items: seq<Item>, order: int): int {
    if items == [] then 0
    else
      var it := items[|items| - 1];
      Subtotal(items[..|items| - 1], order) + (if it.orderId == order then it.price * it.quantity else 0)
  }

  predicate IsOpen(o: Order) { !o.status.COMPLETED? && !o.status.CANCELLED? }

  predicate HasMember(grp: Group, order: int) { exists m :: m in grp.members && m.orderId == order }

  predicate InActive(groups: map<int, Group>, g: int, order: int) {
    g in groups && groups[g].status.ACTIVE? && HasMember(groups[g], order)
  }

  predicate Leads(groups: map<int, Group>, g: int, order: int) {
    g in groups && groups[g].status.ACTIVE? && groups[g].primary == order
  }

  /** The first active group an order leads, by id. */
  function ActiveGroup(groups: map<int, Group>, order: int, from: nat, next: nat): (g: Option<int>)
    ensures g.Some? ==> from <= g.value < next && Leads(groups, g.value, order)
    ensures g.None? ==> forall h :: from <= h < next ==> !Leads(groups, h, order)
    decreases next - from
  {
    if from >= next then None
    else if Leads(groups, from, order) then Some(from)
    else ActiveGroup(groups, order, from + 1, next)
  }

  /** The table screen: a table shows as merged while an active group lists it. */
  predicate ShownMerged(groups: map<int, Group>, table: int) {
    exists g :: g in groups && groups[g].status.ACTIVE? && exists m :: m in groups[g].members && m.tableId == table
  }

  // ---------- Checks ----------

  predicate Modifiable(seats: Seats, order: int) { order in seats.orders && !seats.orders[order].status.CANCELLED? }

  predicate IsFree(tables: map<int, TableStatus>, t: int) { t in tables && tables[t].AVAILABLE? }

  predicate OwnsItem(items: seq<Item>, order: int, item: int) {
    FindItem(items, item).Some? && FindItem(items, item).value.orderId == order
  }

  predicate MayMerge(seats: Seats, source: int, target: int) {
    && source in seats.orders && target in seats.orders && source != target
    && IsOpen(seats.orders[source]) && IsOpen(seats.orders[target])
    && (forall g :: g in seats.groups ==> !InActive(seats.groups, g, source))
  }

  /** What a request reads before its transaction; None when it is refused. */
  function Start(db: Db, r: Request): Option<Job> {
    match r
    case PlaceOrder(table, lines, auto) =>
      if table.Some? && !IsFree(db.seats.tables, table.value) then None
      else Some(Placing(table, lines, auto))
    case AddItem(order, line) => if Modifiable(db.seats, order) && line.quantity > 0 then Some(Adding(order, line)) else None
    case EditItem(order, item, quantity, notes) =>
      if Modifiable(db.seats, order) && OwnsItem(db.rows.items, order, item) && quantity > 0
      then Some(Editing(order, item, quantity, notes, FindItem(db.rows.items, item).value.sent)) else None
    case RemoveItem(order, item) =>
      if Modifiable(db.seats, order) && OwnsItem(db.rows.items, order, item) && |ItemIds(db.rows.items, order)| != 1
      then Some(Removing(order, item)) else None
    case UpdateOrder(order, lines) =>
      if order in db.seats.orders && (db.seats.orders[order].status.PENDING? || db.seats.orders[order].status.HOLD?)
      then Some(Updating(order, EditLines(db.rows.items, order, lines))) else None
    case SendTicket(order) =>
      var sends := PendingLines(db.rows.items, db.rows.history, order);
      if order in db.seats.orders && sends != [] then Some(Ticketing(order, sends, false)) else None
    case MergeOrders(source, target) =>
      if !MayMerge(db.seats, source, target) || db.seats.orders[source].tableId.None? then None
      else
        var group, table := ActiveGroup(db.seats.groups, target, 0, db.next), db.seats.orders[target].tableId;
        // a new group needs a row for the target's table too
        if group.None? && table.None? then None
        else Some(Merging(source, target, ItemIds(db.rows.items, source), group, db.seats.orders[source].tableId.value, table))
    case SplitGroup(g) =>
      if g in db.seats.groups && db.seats.groups[g].status.ACTIVE?
      then Some(Splitting(g, db.seats.groups[g].primary, db.seats.groups[g].members)) else None
    case CancelOrder(order) =>
      if order in db.seats.orders && IsOpen(db.seats.orders[order]) then Some(Cancelling(order, db.seats.orders[order].tableId)) else None
    case SetStatus(order, status) => if Modifiable(db.seats, order) then Some(Setting(order, status)) else None
    case Transfer(order, to) =>
      if Modifiable(db.seats, order) && db.seats.orders[order].tableId.Some? && IsFree(db.seats.tables, to)
      then Some(Moving(order, db.seats.orders[order].tableId.value, to)) else None
    case PayOrder(order) =>
      if order in db.seats.orders && IsOpen(db.seats.orders[order]) then Some(Paying(order, db.seats.orders[order].tableId)) else None
  }

  // ---------- Row updates ----------

  function NewItem(order: int, line: NewLine, id: int, sent: int): Item {
    Item(id, order, line.menuItemId, line.notes, line.price, line.quantity, sent)
  }

  function NewItems(order: int, lines: seq<NewLine>, next: int): (r: seq<Item>)
    ensures |r| == |lines|
    ensures forall i :: 0 <= i < |r| ==> r[i] == NewItem(order, lines[i], next + i, 0)
  {
    seq(|lines|, i requires 0 <= i < |lines| => NewItem(order, lines[i], next + i, 0))
  }

  function FirstLines(items: seq<Item>): (r: seq<Line>)
    ensures |r| == |items|
    ensures forall i :: 0 <= i < |r| ==> r[i] == Line(items[i].id, items[i].quantity, 0)
  {
    seq(|items|, i requires 0 <= i < |items| => Line(items[i].id, items[i].quantity, 0))
  }

  /** Notes left out of the request stay as they are. */
  function EditRow(it: Item, id: int, quantity: int, notes: Option<string>, sent: int): Item {
    if it.id != id then it
    else it.(quantity := quantity, sent := sent, notes := if notes.Some? then notes.value else it.notes)
  }

  function EditRows(items: seq<Item>, id: int, quantity: int, notes: Option<string>, sent: int): (r: seq<Item>)
    ensures |r| == |items|
    ensures forall i :: 0 <= i < |r| ==> r[i] == EditRow(items[i], id, quantity, notes, sent)
  {
    seq(|items|, i requires 0 <= i < |items| => EditRow(items[i], id, quantity, notes, sent))
  }

  function WithoutRows(items: seq<Item>, gone: set<int>): seq<Item> {
    if items == [] then []
    else WithoutRows(items[..|items| - 1], gone) + (if items[|items| - 1].id in gone then [] else [items[|items| - 1]])
  }

  /** Ticket lines cascade with their order item. */
  function WithoutHistory(log: seq<KotItem>, gone: set<int>): seq<KotItem> {
    if log == [] then []
    else WithoutHistory(log[..|log| - 1], gone) + (if log[|log| - 1].itemId in gone then [] else [log[|log| - 1]])
  }

  function Record(log: seq<KotItem>, kot: int, lines: seq<Line>): seq<KotItem> {
    log + seq(|lines|, i requires 0 <= i < |lines| => KotItem(kot, lines[i].itemId, lines[i].pending))
  }

  function LineOf(lines: seq<Line>, id: int): Option<Line> {
    if lines == [] then None
    else if lines[|lines| - 1].itemId == id then Some(lines[|lines| - 1])
    else LineOf(lines[..|lines| - 1], id)
  }

  function MarkRow(it: Item, lines: seq<Line>): Item {
    var l := LineOf(lines, it.id);
    if l.Some? then it.(sent := l.value.seen + l.value.pending) else it
  }

  function MarkSent(items: seq<Item>, lines: seq<Line>): (r: seq<Item>)
    ensures |r| == |items|
    ensures forall i :: 0 <= i < |r| ==> r[i] == MarkRow(items[i], lines)
  {
    seq(|items|, i requires 0 <= i < |items| => MarkRow(items[i], lines))
  }

  function MoveRows(items: seq<Item>, moved: seq<int>, to: int): (r: seq<Item>)
    ensures |r| == |items|
    ensures forall i :: 0 <= i < |r| ==> r[i] == if items[i].id in moved then items[i].(orderId := to) else items[i]
  {
    seq(|items|, i requires 0 <= i < |items| => if items[i].id in moved then items[i].(orderId := to) else items[i])
  }

  // ---------- A whole-order edit ----------

  /** Rows are matched by menu item and note, in id order, each at most once. */
  function FirstMatch(items: seq<Item>, order: int, line: NewLine, taken: set<int>): (id: Option<int>)
    ensures id.Some? ==> id.value !in taken && exists it :: it in items && it.id == id.value && it.orderId == order
                                                            && it.menuItemId == line.menuItemId && it.notes == line.notes
  {
    if items == [] then None
    else
      var earlier, it := FirstMatch(items[..|items| - 1], order, line, taken), items[|items| - 1];
      if earlier.Some? then earlier
      else if it.orderId == order && it.menuItemId == line.menuItemId && it.notes == line.notes && it.id !in taken then Some(it.id)
      else None
  }

  datatype Matching = Matching(kept: map<int, EditLine>, created: seq<EditLine>)

  function Match(items: seq<Item>, order: int, edits: seq<EditLine>): Matching {
    if edits == [] then Matching(map[], [])
    else
      var before, e := Match(items, order, edits[..|edits| - 1]), edits[|edits| - 1];
      var id := FirstMatch(items, order, e.line, before.kept.Keys);
      if id.Some? then before.(kept := before.kept[id.value := e]) else before.(created := before.created + [e])
  }

  function Dropped(items: seq<Item>, order: int, kept: map<int, EditLine>): set<int> {
    set it | it in items && it.orderId == order && it.id !in kept :: it.id
  }

  function Overwritten(it: Item, e: EditLine): Item {
    it.(notes := e.line.notes, price := e.line.price, quantity := e.line.quantity, sent := e.sent)
  }

  function Overwrite(items: seq<Item>, kept: map<int, EditLine>): (r: seq<Item>)
    ensures |r| == |items|
    ensures forall i :: 0 <= i < |r| ==> r[i] == if items[i].id in kept then Overwritten(items[i], kept[items[i].id]) else items[i]
  {
    seq(|items|, i requires 0 <= i < |items| => if items[i].id in kept then Overwritten(items[i], kept[items[i].id]) else items[i])
  }

  function CreatedRows(order: int, created: seq<EditLine>, next: int): (r: seq<Item>)
    ensures |r| == |created|
    ensures forall i :: 0 <= i < |r| ==> r[i] == NewItem(order, created[i].line, next + i, created[i].sent)
  {
    seq(|created|, i requires 0 <= i < |created| => NewItem(order, created[i].line, next + i, created[i].sent))
  }

  function UpdateRows(rows: Rows, order: int, edits: seq<EditLine>, next: int): Rows {
    var m := Match(rows.items, order, edits);
    var gone := Dropped(rows.items, order, m.kept);
    rows.(items := Overwrite(WithoutRows(rows.items, gone), m.kept) + CreatedRows(order, m.created, next),
    history := WithoutHistory(rows.history, gone))
  }

  // ---------- Commits ----------

  predicate AllPresent(items: seq<Item>, ids: seq<int>) { forall k :: 0 <= k < |ids| ==> HasItem(items, ids[k]) }

  predicate LinesPresent(items: seq<Item>, lines: seq<Line>) { forall k :: 0 <= k < |lines| ==> HasItem(items, lines[k].itemId) }

  /** The sent quantities of an automatic ticket may stop after some rows. */
  function Marked(sends: seq<Line>, auto: bool, updates: nat): seq<Line> {
    if auto && updates < |sends| then sends[..updates] else sends
  }

  /** Lines need their order items (foreign key): a ticket with a missing one rolls back,
      an automatic one stays without lines. */
  function TicketRows(rows: Rows, sends: seq<Line>, auto: bool, updates: nat, kot: int): Rows {
    if !LinesPresent(rows.items, sends) then rows
    else Rows(MarkSent(rows.items, Marked(sends, auto, updates)), Record(rows.history, kot, sends), Record(rows.printed, kot, sends))
  }

  function RowsAfter(rows: Rows, job: Job, updates: nat, next: int): Rows {
    match job
    case Placing(_, lines, _) => rows.(items := rows.items + NewItems(next, lines, next + 1))
    case Adding(order, line) => rows.(items := rows.items + NewItems(order, [line], next))
    case Editing(_, item, quantity, notes, seenSent) => rows.(items := EditRows(rows.items, item, quantity, notes, Min(seenSent, quantity)))
    case Removing(_, item) => rows.(items := WithoutRows(rows.items, {item}), history := WithoutHistory(rows.history, {item}))
    case Updating(order, edits) => UpdateRows(rows, order, edits, next)
    case Ticketing(_, sends, auto) => TicketRows(rows, sends, auto, updates, next)
    case Merging(_, target, moved, _, _, _) => if AllPresent(rows.items, moved) then rows.(items := MoveRows(rows.items, moved, target)) else rows
    case _ => rows
  }

  function Reopen(orders: map<int, Order>, members: seq<Member>, primary: int): map<int, Order> {
    if members == [] then orders
    else
      var m := members[|members| - 1];
      var rest := Reopen(orders, members[..|members| - 1], primary);
      if m.orderId == primary || m.orderId !in rest then rest
      else rest[m.orderId := rest[m.orderId].(status := PENDING, mergedInto := None)]
  }

  function Occupy(tables: map<int, TableStatus>, members: seq<Member>, primary: int): map<int, TableStatus> {
    if members == [] then tables
    else
      var m := members[|members| - 1];
      var rest := Occupy(tables, members[..|members| - 1], primary);
      if m.orderId == primary then rest else rest[m.tableId := OCCUPIED]
  }

  function Free(tables: map<int, TableStatus>, members: seq<Member>): map<int, TableStatus> {
    if members == [] then tables
    else Free(tables, members[..|members| - 1])[members[|members| - 1].tableId := AVAILABLE]
  }

  function PlaceSeats(s: Seats, table: Option<int>, id: int): Seats {
    s.(orders := s.orders[id := Order(PENDING, table, None)],
    tables := if table.Some? then s.tables[table.value := OCCUPIED] else s.tables)
  }

  function MergeSeats(s: Seats, source: int, target: int, group: Option<int>, sourceTable: int, targetTable: Option<int>, id: int): Seats {
    if source !in s.orders then s
    else
      var orders := s.orders[source := s.orders[source].(status := CANCELLED, mergedInto := Some(target))];
      var joined := Member(sourceTable, source);
      if group.Some? && group.value in s.groups then
        var grp := s.groups[group.value];
        s.(orders := orders, groups := s.groups[group.value := grp.(members := grp.members + [joined])])
      else if targetTable.Some? then
        s.(orders := orders, groups := s.groups[id := Group(target, ACTIVE, [joined, Member(targetTable.value, target)])])
      else s
  }

  function SplitSeats(s: Seats, g: int, primary: int, members: seq<Member>): Seats {
    s.(orders := Reopen(s.orders, members, primary),
    tables := Occupy(s.tables, members, primary),
    groups := if g in s.groups then s.groups[g := s.groups[g].(status := SPLIT)] else s.groups)
  }

  /** The status update is conditional: a closed order is not cancelled again. */
  predicate CancelLands(s: Seats, order: int) { order in s.orders && IsOpen(s.orders[order]) }

  /** The order's status and the table read before, freed with it. */
  function CloseSeats(s: Seats, order: int, status: OrderStatus, table: Option<int>): Seats
    requires order in s.orders
  {
    s.(orders := s.orders[order := s.orders[order].(status := status)],
    tables := if table.Some? then s.tables[table.value := AVAILABLE] else s.tables)
  }

  function CancelSeats(s: Seats, order: int, table: Option<int>): Seats {
    if CancelLands(s, order) then CloseSeats(s, order, CANCELLED, table) else s
  }

  function ReleaseSeats(s: Seats, order: int, next: nat): Seats {
    var g := ActiveGroup(s.groups, order, 0, next);
    if g.None? then s
    else
      var grp := s.groups[g.value];
      s.(groups := s.groups[g.value := grp.(status := RELEASED)], tables := Free(s.tables, grp.members))
  }

  /** A payment in full completes the order whatever became of it and releases its group
      in the same transaction. */
  function PaySeats(s: Seats, order: int, table: Option<int>, next: nat): Seats {
    if order in s.orders then ReleaseSeats(CloseSeats(s, order, COMPLETED, table), order, next) else s
  }

  /** Member rows of merge groups keep the table they were written with. */
  function MoveSeats(s: Seats, order: int, from: int, to: int): Seats {
    if order in s.orders
    then s.(orders := s.orders[order := s.orders[order].(tableId := Some(to))], tables := s.tables[from := AVAILABLE][to := OCCUPIED])
    else s
  }

  function SetSeats(s: Seats, order: int, status: OrderStatus): Seats {
    if order in s.orders then s.(orders := s.orders[order := s.orders[order].(status := status)]) else s
  }

  function SeatsAfter(db: Db, job: Job): Seats {
    match job
    case Placing(table, _, _) => PlaceSeats(db.seats, table, db.next)
    case Merging(source, target, moved, group, sourceTable, targetTable) =>
      if AllPresent(db.rows.items, moved) then MergeSeats(db.seats, source, target, group, sourceTable, targetTable, db.next) else db.seats
    case Splitting(g, primary, members) => SplitSeats(db.seats, g, primary, members)
    case Cancelling(order, table) => CancelSeats(db.seats, order, table)
    case Releasing(order) => ReleaseSeats(db.seats, order, db.next)
    case Setting(order, status) => SetSeats(db.seats, order, status)
    case Moving(order, from, to) => MoveSeats(db.seats, order, from, to)
    case Paying(order, table) => PaySeats(db.seats, order, table, db.next)
    case _ => db.seats
  }

  function SubtotalsAfter(db: Db, job: Job, items: seq<Item>): map<int, int> {
    match job
    case Placing(_, _, _) => db.subtotals[db.next := Subtotal(items, db.next)]
    case Adding(order, _) => db.subtotals[order := Subtotal(items, order)]
    case Editing(order, _, _, _, _) => db.subtotals[order := Subtotal(items, order)]
    case Removing(order, _) => db.subtotals[order := Subtotal(items, order)]
    case Updating(order, _) => db.subtotals[order := Subtotal(items, order)]
    case Merging(_, target, moved, _, _, _) =>
      if AllPresent(db.rows.items, moved) then db.subtotals[target := Subtotal(items, target)] else db.subtotals
    case _ => db.subtotals
  }

  /** Row, order, ticket and group ids come from one counter. */
  function NextAfter(job: Job, next: nat): nat {
    match job
    case Placing(_, lines, _) => next + 1 + |lines|
    case Updating(_, edits) => next + 1 + |edits|
    case _ => next + 1
  }

  /** A ticket row appears even when an automatic ticket's lines fail. */
  function KotsAfter(db: Db, job: Job): seq<int> {
    if job.Ticketing? && (job.auto || LinesPresent(db.rows.items, job.sends)) then db.kots + [job.order] else db.kots
  }

  function FollowUp(db: Db, job: Job): Option<Job> {
    match job
    case Placing(_, lines, auto) => if auto then Some(Ticketing(db.next, FirstLines(NewItems(db.next, lines, db.next + 1)), true)) else None
    case Cancelling(order, _) => if CancelLands(db.seats, order) then Some(Releasing(order)) else None
    case _ => None
  }

  function Without(jobs: map<int, Job>, w: int): map<int, Job> { jobs - {w} }

  function Write(db: Db, job: Job, updates: nat): Db {
    var rows := RowsAfter(db.rows, job, updates, db.next);
    db.(rows := rows, seats := SeatsAfter(db, job), subtotals := SubtotalsAfter(db, job, rows.items),
    kots := KotsAfter(db, job), next := NextAfter(job, db.next))
  }

  function Apply(db: Db, e: Event): Db {
    match e
    case Begin(w, r) =>
      var job := Start(db, r);
      if w in db.jobs || job.None? then db else db.(jobs := db.jobs[w := job.value])
    case Commit(w, updates) =>
      if w !in db.jobs then db
      else
        var job := db.jobs[w];
        var more := FollowUp(db, job);
        Write(db, job, updates).(jobs := if more.Some? then db.jobs[w := more.value] else Without(db.jobs, w))
    case Crash(w) => db.(jobs := Without(db.jobs, w))
  }

  function Run(db: Db, es: seq<Event>): Db {
    if es == [] then db else Apply(Run(db, es[..|es| - 1]), es[|es| - 1])
  }

  lemma RunNext(db: Db, es: seq<Event>, k: nat)
    requires k < |es|
    ensures Run(db, es[..k + 1]) == Apply(Run(db, es[..k]), es[k])
  {
    assert es[..k + 1][..k] == es[..k];
  }

  ghost predicate Empty(db: Db) {
    && db.rows == Rows([], [], []) && db.seats.orders == map[] && db.seats.groups == map[] && db.jobs == map[]
  }
}

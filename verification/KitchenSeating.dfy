/** Orders, merge groups and tables: what refers to what, after any run. */
module KitchenSeating {
  import opened Prelude
  import opened KitchenLedger

  predicate ActiveIn(groups: map<int, Group>, g: int) { g in groups && groups[g].status.ACTIVE? }

  /** An order merged away and waiting in an active group. */
  predicate Source(s: Seats, g: int, o: int) { InActive(s.groups, g, o) && s.groups[g].primary != o }

  /** An order that keeps its table: open, or waiting in an active group. */
  ghost predicate Holds(s: Seats, o: int) {
    o in s.orders && s.orders[o].tableId.Some? && (IsOpen(s.orders[o]) || exists g :: Source(s, g, o))
  }

  // ---------- References ----------

  /** A member's order has a table, after a transfer not always the one the member names. */
  predicate WiredMember(s: Seats, m: Member) { m.orderId in s.orders && s.orders[m.orderId].tableId.Some? }

  predicate NamesOwnTable(s: Seats, m: Member) { m.orderId in s.orders && s.orders[m.orderId].tableId == Some(m.tableId) }

  predicate NamedGroup(s: Seats, grp: Group) { forall m :: m in grp.members ==> NamesOwnTable(s, m) }

  predicate WiredGroup(s: Seats, grp: Group) { grp.primary in s.orders && forall m :: m in grp.members ==> WiredMember(s, m) }

  predicate WiredSeats(s: Seats, next: nat) {
    && (forall o :: o in s.orders ==> 0 <= o < next)
    && (forall g :: g in s.groups ==> 0 <= g < next)
    && (forall g :: g in s.groups ==> WiredGroup(s, s.groups[g]))
  }

  predicate WiredMerge(s: Seats, source: int, target: int, joins: Option<int>, targetTable: Option<int>) {
    && source in s.orders && target in s.orders && source != target && s.orders[source].tableId.Some?
    && (joins.Some? ==> joins.value in s.groups && s.groups[joins.value].primary == target)
    && (joins.None? ==> targetTable.Some? && s.orders[target].tableId.Some?)
  }

  predicate WiredSplit(s: Seats, g: int, primary: int, members: seq<Member>) {
    g in s.groups && s.groups[g].primary == primary && forall m :: m in members ==> WiredMember(s, m)
  }

  predicate WiredJob(s: Seats, job: Job) {
    match job
    case Merging(source, target, _, joins, _, targetTable) => WiredMerge(s, source, target, joins, targetTable)
    case Splitting(g, primary, members) => WiredSplit(s, g, primary, members)
    case Cancelling(order, _) => order in s.orders
    case Releasing(order) => order in s.orders
    case Setting(order, _) => order in s.orders
    case Moving(order, _, _) => order in s.orders && s.orders[order].tableId.Some?
    case Paying(order, _) => order in s.orders
    case _ => true
  }

  ghost predicate Wired(db: Db) { WiredSeats(db.seats, db.next) && forall w :: w in db.jobs ==> WiredJob(db.seats, db.jobs[w]) }

  /** Orders keep having a table or none, and groups their primaries. */
  predicate Extends(s: Seats, s': Seats) {
    && (forall o :: o in s.orders ==> o in s'.orders && s'.orders[o].tableId.Some? == s.orders[o].tableId.Some?)
    && (forall g :: g in s.groups ==> g in s'.groups && s'.groups[g].primary == s.groups[g].primary)
  }

  lemma GroupKept(s: Seats, s': Seats, g: int)
    requires Extends(s, s') && g in s.groups
    ensures g in s'.groups && s'.groups[g].primary == s.groups[g].primary
  {}

  lemma JobExtends(s: Seats, s': Seats, job: Job)
    requires WiredJob(s, job) && Extends(s, s')
    ensures WiredJob(s', job)
  {
    match job
    case Splitting(g, primary, members) =>
      forall m | m in members ensures WiredMember(s', m) { assert WiredMember(s, m); }
    case Merging(_, target, _, joins, _, _) => if joins.Some? { GroupKept(s, s', joins.value); }
    case _ =>
  }

  // ---------- The loops over a group's members ----------

  predicate Listed(members: seq<Member>, o: int) { exists m :: m in members && m.orderId == o }

  predicate Reopened(members: seq<Member>, primary: int, o: int) { o != primary && Listed(members, o) }

  predicate TableListed(members: seq<Member>, t: int) { exists m :: m in members && m.tableId == t }

  lemma {:induction false} ReopenEffect(orders: map<int, Order>, members: seq<Member>, primary: int)
    ensures Reopen(orders, members, primary).Keys == orders.Keys
    ensures forall o :: o in orders ==> Reopen(orders, members, primary)[o] ==
                                        if Reopened(members, primary, o) then orders[o].(status := PENDING, mergedInto := None) else orders[o]
  {
    if members != [] {
      var init, last := members[..|members| - 1], members[|members| - 1];
      ReopenEffect(orders, init, primary);
      assert members == init + [last];
      forall o ensures Listed(members, o) <==> Listed(init, o) || last.orderId == o { ListedNext(init, last, o); }
    }
  }

  lemma ListedNext(members: seq<Member>, m: Member, o: int)
    ensures Listed(members + [m], o) <==> Listed(members, o) || m.orderId == o
  {
    if Listed(members, o) {
      var n :| n in members && n.orderId == o;
      assert n in members + [m];
    }
    if m.orderId == o { assert m in members + [m]; }
  }

  /** The tables a split occupies: those its members name, except the primary's. */
  predicate Reseated(members: seq<Member>, primary: int, t: int) { exists m :: m in members && m.orderId != primary && m.tableId == t }

  predicate Occupied(tables: map<int, TableStatus>, t: int) { t in tables && tables[t].OCCUPIED? }

  lemma {:induction false} OccupyEffect(tables: map<int, TableStatus>, members: seq<Member>, primary: int)
    ensures forall t :: Occupied(Occupy(tables, members, primary), t) <==> Occupied(tables, t) || Reseated(members, primary, t)
  {
    if members != [] {
      var init, last := members[..|members| - 1], members[|members| - 1];
      OccupyEffect(tables, init, primary);
      assert members == init + [last];
      forall t ensures Reseated(members, primary, t) <==> Reseated(init, primary, t) || (last.orderId != primary && last.tableId == t) {
        ReseatedNext(init, last, primary, t);
      }
    }
  }

  lemma ReseatedNext(members: seq<Member>, m: Member, primary: int, t: int)
    ensures Reseated(members + [m], primary, t) <==> Reseated(members, primary, t) || (m.orderId != primary && m.tableId == t)
  {
    if Reseated(members, primary, t) {
      var n :| n in members && n.orderId != primary && n.tableId == t;
      assert n in members + [m];
    }
    if m.orderId != primary && m.tableId == t { assert m in members + [m]; }
  }

  lemma {:induction false} FreeEffect(tables: map<int, TableStatus>, members: seq<Member>)
    ensures forall t :: !TableListed(members, t) ==> (t in Free(tables, members) <==> t in tables)
    ensures forall t :: !TableListed(members, t) && t in tables ==> Free(tables, members)[t] == tables[t]
    ensures forall m :: m in members ==> m.tableId in Free(tables, members) && Free(tables, members)[m.tableId] == AVAILABLE
  {
    if members != [] {
      var init, last := members[..|members| - 1], members[|members| - 1];
      FreeEffect(tables, init);
      assert members == init + [last];
      forall t | !TableListed(members, t) ensures !TableListed(init, t) && last.tableId != t {
        assert last in members;
        forall m | m in init ensures m.tableId != t { assert m in members; }
      }
    }
  }

  // ---------- Every run keeps the references ----------

  lemma GroupExtends(s: Seats, s': Seats, grp: Group)
    requires WiredGroup(s, grp) && Extends(s, s')
    ensures WiredGroup(s', grp)
  {
    forall m | m in grp.members ensures WiredMember(s', m) { assert WiredMember(s, m); }
  }

  lemma GroupsExtend(s: Seats, s': Seats, next: nat)
    requires WiredSeats(s, next) && Extends(s, s')
    requires forall o :: o in s'.orders ==> o in s.orders
    requires forall g :: g in s'.groups ==> g in s.groups && s'.groups[g].members == s.groups[g].members
    ensures WiredSeats(s', next)
  {
    forall g | g in s'.groups ensures WiredGroup(s', s'.groups[g]) {
      assert WiredGroup(s, s.groups[g]);
      forall m | m in s'.groups[g].members ensures WiredMember(s', m) { assert WiredMember(s, m); }
    }
  }

  lemma PlaceWired(s: Seats, table: Option<int>, id: nat)
    requires WiredSeats(s, id)
    ensures WiredSeats(PlaceSeats(s, table, id), id + 1) && Extends(s, PlaceSeats(s, table, id))
  {
    var s' := PlaceSeats(s, table, id);
    forall g | g in s'.groups ensures WiredGroup(s', s'.groups[g]) { GroupExtends(s, s', s.groups[g]); }
  }

  lemma MergeWired(s: Seats, source: int, target: int, joins: Option<int>, sourceTable: int, targetTable: Option<int>, id: nat)
    requires WiredSeats(s, id) && WiredMerge(s, source, target, joins, targetTable)
    ensures WiredSeats(MergeSeats(s, source, target, joins, sourceTable, targetTable, id), id + 1)
    ensures Extends(s, MergeSeats(s, source, target, joins, sourceTable, targetTable, id))
  {
    var s' := MergeSeats(s, source, target, joins, sourceTable, targetTable, id);
    forall g | g in s'.groups ensures WiredGroup(s', s'.groups[g]) {
      if g in s.groups { GroupExtends(s, s', s.groups[g]); }
    }
  }

  lemma SplitWired(s: Seats, g: int, primary: int, members: seq<Member>, next: nat)
    requires WiredSeats(s, next) && WiredSplit(s, g, primary, members)
    ensures WiredSeats(SplitSeats(s, g, primary, members), next) && Extends(s, SplitSeats(s, g, primary, members))
  {
    ReopenEffect(s.orders, members, primary);
    GroupsExtend(s, SplitSeats(s, g, primary, members), next);
  }

  lemma MoveWired(s: Seats, order: int, from: int, to: int, next: nat)
    requires WiredSeats(s, next) && order in s.orders && s.orders[order].tableId.Some?
    ensures WiredSeats(MoveSeats(s, order, from, to), next) && Extends(s, MoveSeats(s, order, from, to))
  {
    GroupsExtend(s, MoveSeats(s, order, from, to), next);
  }

  lemma PayWired(s: Seats, order: int, table: Option<int>, next: nat)
    requires WiredSeats(s, next)
    ensures WiredSeats(PaySeats(s, order, table, next), next) && Extends(s, PaySeats(s, order, table, next))
  {
    GroupsExtend(s, PaySeats(s, order, table, next), next);
  }

  lemma SeatsStayWired(db: Db, job: Job)
    requires WiredSeats(db.seats, db.next) && WiredJob(db.seats, job)
    ensures WiredSeats(SeatsAfter(db, job), NextAfter(job, db.next)) && Extends(db.seats, SeatsAfter(db, job))
  {
    match job
    case Placing(table, _, _) => PlaceWired(db.seats, table, db.next);
    case Merging(source, target, moved, joins, sourceTable, targetTable) =>
      MergeWired(db.seats, source, target, joins, sourceTable, targetTable, db.next);
    case Splitting(g, primary, members) => SplitWired(db.seats, g, primary, members, db.next);
    case Cancelling(order, table) => GroupsExtend(db.seats, CancelSeats(db.seats, order, table), db.next);
    case Releasing(order) => GroupsExtend(db.seats, ReleaseSeats(db.seats, order, db.next), db.next);
    case Setting(order, status) => GroupsExtend(db.seats, SetSeats(db.seats, order, status), db.next);
    case Moving(order, from, to) => MoveWired(db.seats, order, from, to, db.next);
    case Paying(order, table) => PayWired(db.seats, order, table, db.next);
    case _ =>
  }

  lemma StartWired(db: Db, r: Request)
    requires Wired(db) && Start(db, r).Some?
    ensures WiredJob(db.seats, Start(db, r).value)
  {
    match r
    case SplitGroup(g) => assert WiredGroup(db.seats, db.seats.groups[g]);
    case _ =>
  }

  lemma WiredStep(db: Db, e: Event)
    requires Wired(db)
    ensures Wired(Apply(db, e))
  {
    match e
    case Begin(w, r) => if Start(db, r).Some? { StartWired(db, r); }
    case Commit(w, updates) =>
      if w in db.jobs {
        SeatsStayWired(db, db.jobs[w]);
        var db' := Apply(db, e);
        forall v | v in db'.jobs && v != w ensures WiredJob(db'.seats, db'.jobs[v]) { JobExtends(db.seats, db'.seats, db.jobs[v]); }
      }
    case Crash(w) =>
  }

  lemma {:induction false} WiredRun(db: Db, es: seq<Event>)
    requires Wired(db)
    ensures Wired(Run(db, es))
  {
    if es != [] {
      WiredRun(db, es[..|es| - 1]);
      WiredStep(Run(db, es[..|es| - 1]), es[|es| - 1]);
    }
  }
}

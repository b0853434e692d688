/** What a merge moves, what a split restores, and what stays off the merged display. */
module KitchenSplits {
  import opened Prelude
  import opened KitchenLedger
  import opened KitchenRows
  import opened KitchenRuns
  import opened KitchenSeating
  import opened KitchenGroups
  import opened KitchenTables

  lemma AloneIs(db: Db, w: int, r: Request)
    requires w !in db.jobs && Start(db, r).Some? && FollowUp(db, Start(db, r).value).None?
    ensures Alone(db, w, r) == Write(db, Start(db, r).value, 0)
  {
    JobsBack(db.jobs, w, Start(db, r).value);
  }

  // ---------- Splits ----------

  ghost predicate AllLed(s: Seats) { forall g :: ActiveIn(s.groups, g) ==> s.groups[g].primary in s.orders && IsOpen(s.orders[s.groups[g].primary]) }

  /** Every member of an active group names its own order's table. */
  predicate AllNamed(s: Seats) { forall g :: g in s.groups && s.groups[g].status.ACTIVE? ==> NamedGroup(s, s.groups[g]) }

  lemma MemberHolds(s: Seats, jobs: map<int, Job>, next: nat, g: int, m: Member)
    requires WiredSeats(s, next) && GroupsOk(s, jobs) && AllLed(s) && AllNamed(s) && ActiveIn(s.groups, g) && m in s.groups[g].members
    ensures Holds(s, m.orderId) && s.orders[m.orderId].tableId == Some(m.tableId) && InActive(s.groups, g, m.orderId)
  {
    assert NamedGroup(s, s.groups[g]) && NamesOwnTable(s, m);
    if m.orderId != s.groups[g].primary { assert Source(s, g, m.orderId); }
  }

  lemma OffDisplay(db: Db, g: int, m: Member)
    requires Wired(db) && SeatsOk(db) && AllLed(db.seats) && AllNamed(db.seats) && ActiveIn(db.seats.groups, g) && m in db.seats.groups[g].members
    ensures !ShownMerged(db.seats.groups[g := db.seats.groups[g].(status := SPLIT)], m.tableId)
  {
    var s := db.seats;
    MemberHolds(s, db.jobs, db.next, g, m);
    forall h, n | h != g && ActiveIn(s.groups, h) && n in s.groups[h].members ensures n.tableId != m.tableId {
      MemberHolds(s, db.jobs, db.next, h, n);
      assert !HasMember(s.groups[h], m.orderId);
      assert n.orderId != m.orderId;
    }
  }

  /** Splitting a group undisturbed reopens every source as PENDING with its cancel
      fields cleared, occupies its table and moves no item; the tables leave the merged
      display once no other group waits for its release and no member was transferred. */
  lemma SplitRestores(db: Db, w: int, g: int)
    requires Wired(db) && SeatsOk(db) && w !in db.jobs && ActiveIn(db.seats.groups, g)
    ensures var s, s' := db.seats, Alone(db, w, SplitGroup(g)).seats;
            && Alone(db, w, SplitGroup(g)).rows == db.rows
            && s'.groups == s.groups[g := s.groups[g].(status := SPLIT)]
            && s'.orders.Keys == s.orders.Keys
            && (forall o :: o in s.orders ==>
                  (s'.orders[o] == if Reopened(s.groups[g].members, s.groups[g].primary, o)
                                   then s.orders[o].(status := PENDING, mergedInto := None) else s.orders[o]))
            && (forall m :: m in s.groups[g].members && m.orderId != s.groups[g].primary ==> Taken(s'.tables, Some(m.tableId)))
            && (AllLed(s) && AllNamed(s) ==> forall m :: m in s.groups[g].members ==> !ShownMerged(s'.groups, m.tableId))
            && SeatsOk(Alone(db, w, SplitGroup(g)))
  {
    var s := db.seats;
    var primary, members := s.groups[g].primary, s.groups[g].members;
    AloneIs(db, w, SplitGroup(g));
    ReopenEffect(s.orders, members, primary);
    OccupyEffect(s.tables, members, primary);
    if AllLed(s) && AllNamed(s) {
      forall m | m in members ensures !ShownMerged(s.groups[g := s.groups[g].(status := SPLIT)], m.tableId) { OffDisplay(db, g, m); }
    }
    SplitGuardIsSafe(db, g);
    SplitAloneOk(db, w, g);
  }

  lemma SplitAloneOk(db: Db, w: int, g: int)
    requires Wired(db) && SeatsOk(db) && w !in db.jobs && ActiveIn(db.seats.groups, g)
    ensures SeatsOk(Alone(db, w, SplitGroup(g)))
  {
    var begun := Apply(db, Begin(w, SplitGroup(g)));
    WiredStep(db, Begin(w, SplitGroup(g)));
    StepSafeIff(db, Begin(w, SplitGroup(g)));
    assert begun.seats == db.seats && begun.next == db.next;
    assert Start(begun, SplitGroup(g)) == Some(begun.jobs[w]);
    UnchangedChecksAreSafe(begun, w, SplitGroup(g), 0);
    StepSafeIff(begun, Commit(w, 0));
  }

  // ---------- Members name their tables until a transfer ----------

  predicate NamedJob(s: Seats, job: Job) {
    match job
    case Merging(source, target, _, _, sourceTable, targetTable) =>
      && source in s.orders && s.orders[source].tableId == Some(sourceTable)
      && target in s.orders && s.orders[target].tableId == targetTable
    case Moving(_, _, _) => false
    case _ => true
  }

  predicate Unmoved(db: Db) { AllNamed(db.seats) && forall w :: w in db.jobs ==> NamedJob(db.seats, db.jobs[w]) }

  predicate TablesKept(s: Seats, s': Seats) { forall o :: o in s.orders ==> o in s'.orders && s'.orders[o].tableId == s.orders[o].tableId }

  lemma CommitKeepsTables(db: Db, job: Job)
    requires WiredSeats(db.seats, db.next) && !job.Moving?
    ensures TablesKept(db.seats, SeatsAfter(db, job))
  {
    if job.Splitting? { ReopenEffect(db.seats.orders, job.members, job.primary); }
  }

  lemma CommitKeepsNames(db: Db, job: Job)
    requires Wired(db) && WiredJob(db.seats, job) && AllNamed(db.seats) && NamedJob(db.seats, job)
    ensures AllNamed(SeatsAfter(db, job))
  {
    var s, s' := db.seats, SeatsAfter(db, job);
    CommitKeepsTables(db, job);
    forall g | g in s'.groups && s'.groups[g].status.ACTIVE? ensures NamedGroup(s', s'.groups[g]) {
      if job.Merging? {
        MergeKeepsNames(db, job, g);
      } else {
        GroupsOnlyClose(db, job, g);
        forall m | m in s'.groups[g].members ensures NamesOwnTable(s', m) { assert NamesOwnTable(s, m); }
      }
    }
  }

  lemma MergeKeepsNames(db: Db, job: Job, g: int)
    requires job.Merging? && WiredJob(db.seats, job) && AllNamed(db.seats) && NamedJob(db.seats, job)
    requires TablesKept(db.seats, SeatsAfter(db, job)) && ActiveIn(SeatsAfter(db, job).groups, g)
    ensures NamedGroup(SeatsAfter(db, job), SeatsAfter(db, job).groups[g])
  {
    var s, s' := db.seats, SeatsAfter(db, job);
    forall m | m in s'.groups[g].members ensures NamesOwnTable(s', m) {
      if g in s.groups && m in s.groups[g].members && s.groups[g].status.ACTIVE? { assert NamesOwnTable(s, m); }
    }
  }

  lemma UnmovedStep(db: Db, e: Event)
    requires Wired(db) && Unmoved(db) && !(e.Begin? && e.request.Transfer?)
    ensures Unmoved(Apply(db, e))
  {
    if e.Commit? && e.worker in db.jobs {
      CommitKeepsNames(db, db.jobs[e.worker]);
      CommitKeepsTables(db, db.jobs[e.worker]);
    }
  }

  /** In any interleaving, as long as nobody transfers an order every member of an active
      group names its own order's table. */
  lemma {:induction false} NamedUntilTransfer(db: Db, es: seq<Event>)
    requires Wired(db) && Unmoved(db) && forall e :: e in es ==> !(e.Begin? && e.request.Transfer?)
    ensures Unmoved(Run(db, es))
  {
    if es != [] {
      assert es[|es| - 1] in es;
      NamedUntilTransfer(db, es[..|es| - 1]);
      WiredRun(db, es[..|es| - 1]);
      UnmovedStep(Run(db, es[..|es| - 1]), es[|es| - 1]);
    }
  }

  // ---------- The merged display ----------

  predicate NoMerging(db: Db) { forall w :: w in db.jobs ==> !db.jobs[w].Merging? }

  predicate NoMergeBegun(es: seq<Event>) { forall e :: e in es ==> !(e.Begin? && e.request.MergeOrders?) }

  lemma GroupsOnlyClose(db: Db, job: Job, g: int)
    requires !job.Merging? && ActiveIn(SeatsAfter(db, job).groups, g)
    ensures ActiveIn(db.seats.groups, g) && SeatsAfter(db, job).groups[g] == db.seats.groups[g]
  {}

  lemma NoMergingStep(db: Db, e: Event)
    requires NoMerging(db) && !(e.Begin? && e.request.MergeOrders?)
    ensures NoMerging(Apply(db, e))
    ensures forall g :: ActiveIn(Apply(db, e).seats.groups, g) ==>
                          ActiveIn(db.seats.groups, g) && Apply(db, e).seats.groups[g] == db.seats.groups[g]
  {
    if e.Commit? && e.worker in db.jobs {
      forall g | ActiveIn(SeatsAfter(db, db.jobs[e.worker]).groups, g)
        ensures ActiveIn(db.seats.groups, g) && SeatsAfter(db, db.jobs[e.worker]).groups[g] == db.seats.groups[g]
      {
        GroupsOnlyClose(db, db.jobs[e.worker], g);
      }
    }
  }

  /** Nothing but another merge puts a table back on the merged display. */
  lemma {:induction false} NeverRemerged(db: Db, es: seq<Event>, table: int)
    requires NoMerging(db) && NoMergeBegun(es) && !ShownMerged(db.seats.groups, table)
    ensures NoMerging(Run(db, es)) && !ShownMerged(Run(db, es).seats.groups, table)
  {
    if es != [] {
      assert es[|es| - 1] in es;
      NeverRemerged(db, es[..|es| - 1], table);
      NoMergingStep(Run(db, es[..|es| - 1]), es[|es| - 1]);
      var before, after := Run(db, es[..|es| - 1]).seats.groups, Run(db, es).seats.groups;
      forall g, m | ActiveIn(after, g) && m in after[g].members ensures m.tableId != table { assert ActiveIn(before, g); }
    }
  }

  // ---------- A merge and its split ----------

  lemma HasItemNext(items: seq<Item>, last: Item, id: int)
    ensures HasItem(items + [last], id) <==> HasItem(items, id) || last.id == id
  {
    if HasItem(items, id) {
      var it :| it in items && it.id == id;
      assert it in items + [last];
    }
    if last.id == id { assert last in items + [last]; }
  }

  lemma {:induction false} ItemIdsAre(items: seq<Item>, order: int)
    requires Ordered(items)
    ensures forall it :: it in items ==> (it.id in ItemIds(items, order) <==> it.orderId == order)
    ensures forall id :: id in ItemIds(items, order) ==> HasItem(items, id)
  {
    if items != [] {
      var init, last := items[..|items| - 1], items[|items| - 1];
      ItemIdsAre(init, order);
      assert items == init + [last];
      forall id ensures HasItem(items, id) <==> HasItem(init, id) || last.id == id { HasItemNext(init, last, id); }
      forall id | id in ItemIds(init, order) ensures id < last.id {
        var it :| it in init && it.id == id;
      }
    }
  }

  function Handed(it: Item, source: int, target: int): Item { if it.orderId == source then it.(orderId := target) else it }

  lemma {:induction false} LinesMove(items: seq<Item>, after: seq<Item>, source: int, target: int)
    requires source != target && |after| == |items| && forall i :: 0 <= i < |items| ==> after[i] == Handed(items[i], source, target)
    ensures Subtotal(after, target) == Subtotal(items, source) + Subtotal(items, target)
    ensures Subtotal(after, source) == 0
  {
    if items != [] { LinesMove(items[..|items| - 1], after[..|items| - 1], source, target); }
  }

  ghost function MergedGroup(db: Db, target: int): int {
    var g := ActiveGroup(db.seats.groups, target, 0, db.next);
    if g.Some? then g.value else db.next
  }

  lemma MovedRows(items: seq<Item>, source: int, target: int)
    requires Ordered(items) && source != target
    ensures var after := MoveRows(items, ItemIds(items, source), target);
            && AllPresent(items, ItemIds(items, source))
            && (forall i :: 0 <= i < |items| ==> after[i] == Handed(items[i], source, target))
            && Subtotal(after, target) == Subtotal(items, source) + Subtotal(items, target)
            && Subtotal(after, source) == 0
  {
    ItemIdsAre(items, source);
    var moved := ItemIds(items, source);
    forall k | 0 <= k < |moved| ensures HasItem(items, moved[k]) { assert moved[k] in moved; }
    forall i | 0 <= i < |items| ensures items[i].id in moved <==> items[i].orderId == source { assert items[i] in items; }
    LinesMove(items, MoveRows(items, moved, target), source, target);
  }

  lemma MergeUnfolds(db: Db, w: int, source: int, target: int)
    requires Sound(db) && w !in db.jobs && Start(db, MergeOrders(source, target)).Some?
    ensures var s, items := db.seats, MoveRows(db.rows.items, ItemIds(db.rows.items, source), target);
            Alone(db, w, MergeOrders(source, target))
            == db.(rows := db.rows.(items := items), subtotals := db.subtotals[target := Subtotal(items, target)], next := db.next + 1,
                 seats := MergeSeats(s, source, target, ActiveGroup(s.groups, target, 0, db.next),
                                     s.orders[source].tableId.value, s.orders[target].tableId, db.next))
  {
    MovedRows(db.rows.items, source, target);
    AloneIs(db, w, MergeOrders(source, target));
  }

  ghost function Merged(db: Db, w: int, source: int, target: int): Db { Alone(db, w, MergeOrders(source, target)) }

  ghost function MergedAndSplit(db: Db, w: int, source: int, target: int): Db {
    Alone(Merged(db, w, source, target), w, SplitGroup(MergedGroup(db, target)))
  }

  lemma SplitUnfolds(db: Db, w: int, g: int)
    requires w !in db.jobs && ActiveIn(db.seats.groups, g)
    ensures var s, db' := db.seats, Alone(db, w, SplitGroup(g));
            db'.rows == db.rows && db'.subtotals == db.subtotals && db'.seats == SplitSeats(s, g, s.groups[g].primary, s.groups[g].members)
  {
    AloneIs(db, w, SplitGroup(g));
  }

  /** What a split does to one source of the group. */
  lemma SplitOne(db: Db, w: int, g: int, o: int)
    requires w !in db.jobs && ActiveIn(db.seats.groups, g) && Reopened(db.seats.groups[g].members, db.seats.groups[g].primary, o)
    requires o in db.seats.orders
    ensures var db' := Alone(db, w, SplitGroup(g));
            && db'.rows == db.rows && db'.subtotals == db.subtotals
            && o in db'.seats.orders && db'.seats.orders[o] == db.seats.orders[o].(status := PENDING, mergedInto := None)
  {
    SplitUnfolds(db, w, g);
    ReopenEffect(db.seats.orders, db.seats.groups[g].members, db.seats.groups[g].primary);
  }

  /** The source waits in an active group, cancelled into the target. */
  predicate MergedInto(s: Seats, s': Seats, g: int, source: int, target: int) {
    && ActiveIn(s'.groups, g) && Reopened(s'.groups[g].members, s'.groups[g].primary, source)
    && source in s.orders && s.orders[source].tableId.Some? && ShownMerged(s'.groups, s.orders[source].tableId.value)
    && s'.orders == s.orders[source := s.orders[source].(status := CANCELLED, mergedInto := Some(target))]
  }

  lemma MergedGroupIs(db: Db, w: int, source: int, target: int)
    requires Sound(db) && Wired(db) && w !in db.jobs && Start(db, MergeOrders(source, target)).Some?
    ensures w !in Merged(db, w, source, target).jobs
    ensures MergedInto(db.seats, Merged(db, w, source, target).seats, MergedGroup(db, target), source, target)
  {
    MergeUnfolds(db, w, source, target);
    var s', g := Merged(db, w, source, target).seats, MergedGroup(db, target);
    assert Member(db.seats.orders[source].tableId.value, source) in s'.groups[g].members;
  }

  lemma MergedFields(db: Db, w: int, source: int, target: int)
    requires Sound(db) && w !in db.jobs && Start(db, MergeOrders(source, target)).Some?
    ensures var merged, items := Merged(db, w, source, target), MoveRows(db.rows.items, ItemIds(db.rows.items, source), target);
            merged.rows.items == items && merged.subtotals == db.subtotals[target := Subtotal(items, target)]
  {
    MergeUnfolds(db, w, source, target);
  }

  lemma MergedRows(db: Db, w: int, source: int, target: int)
    requires Sound(db) && w !in db.jobs && Start(db, MergeOrders(source, target)).Some?
    ensures var merged := Merged(db, w, source, target);
            && |merged.rows.items| == |db.rows.items|
            && (forall i :: 0 <= i < |db.rows.items| ==> merged.rows.items[i] == Handed(db.rows.items[i], source, target))
            && Subtotal(merged.rows.items, source) == 0
            && merged.subtotals == db.subtotals[target := Subtotal(db.rows.items, source) + Subtotal(db.rows.items, target)]
  {
    MergedFields(db, w, source, target);
    MovedAre(db, Merged(db, w, source, target), source, target);
  }

  lemma MovedAre(db: Db, merged: Db, source: int, target: int)
    requires Ordered(db.rows.items) && source != target
    requires var items := MoveRows(db.rows.items, ItemIds(db.rows.items, source), target);
             merged.rows.items == items && merged.subtotals == db.subtotals[target := Subtotal(items, target)]
    ensures |merged.rows.items| == |db.rows.items|
    ensures forall i :: 0 <= i < |db.rows.items| ==> merged.rows.items[i] == Handed(db.rows.items[i], source, target)
    ensures Subtotal(merged.rows.items, source) == 0
    ensures merged.subtotals == db.subtotals[target := Subtotal(db.rows.items, source) + Subtotal(db.rows.items, target)]
  {
    MovedRows(db.rows.items, source, target);
  }

  /** A merge hands all of the source's lines to the target and nothing else moves; undone
      by a split, the source gets its earlier row back exactly when that row was PENDING,
      but its lines stay with the target, whose subtotal counts them, while the source's
      stored subtotal still counts them too. */
  lemma MergeThenSplit(db: Db, w: int, source: int, target: int)
    requires Sound(db) && Wired(db) && w !in db.jobs && Start(db, MergeOrders(source, target)).Some?
    requires db.seats.orders[source].mergedInto == None
    ensures var merged, split := Merged(db, w, source, target), MergedAndSplit(db, w, source, target);
            && ShownMerged(merged.seats.groups, db.seats.orders[source].tableId.value)
            && source in merged.seats.orders && source in split.seats.orders
            && merged.seats.orders[source] == db.seats.orders[source].(status := CANCELLED, mergedInto := Some(target))
            && (split.seats.orders[source] == db.seats.orders[source] <==> db.seats.orders[source].status == PENDING)
            && |split.rows.items| == |db.rows.items|
            && (forall i :: 0 <= i < |db.rows.items| ==> split.rows.items[i] == Handed(db.rows.items[i], source, target))
            && Subtotal(split.rows.items, source) == 0
            && split.subtotals == db.subtotals[target := Subtotal(db.rows.items, source) + Subtotal(db.rows.items, target)]
  {
    MergedRows(db, w, source, target);
    MergedGroupIs(db, w, source, target);
    SplitOne(Merged(db, w, source, target), w, MergedGroup(db, target), source);
  }
}

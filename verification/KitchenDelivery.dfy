/** When sent quantities stay backed by tickets and each unit reaches the kitchen once. */
module KitchenDelivery {
  import opened Prelude
  import opened KitchenLedger
  import opened KitchenRows
  import opened KitchenTickets

  // ---------- What requests carry is never ahead of the tickets ----------

  predicate AskNonNegative(lines: seq<NewLine>) { forall k :: 0 <= k < |lines| ==> lines[k].quantity >= 0 }

  /** POST /orders does not bound quantities from below. */
  predicate NonNegative(e: Event) { e.Begin? && e.request.PlaceOrder? ==> AskNonNegative(e.request.lines) }

  predicate Counted(log: seq<KotItem>) { forall k :: 0 <= k < |log| ==> log[k].quantity >= 0 }

  predicate SteadyLine(rows: Rows, l: Line) {
    l.pending >= 0 && forall it :: it in rows.items && it.id == l.itemId ==> l.seen <= History(rows.history, it.id)
  }

  predicate SteadyJob(rows: Rows, job: Job) {
    match job
    case Placing(_, lines, _) => AskNonNegative(lines)
    case Ticketing(_, sends, _) => forall k :: 0 <= k < |sends| ==> SteadyLine(rows, sends[k])
    case Editing(_, item, _, _, seenSent) => forall it :: it in rows.items && it.id == item ==> seenSent <= History(rows.history, it.id)
    case _ => true
  }

  ghost predicate Steady(db: Db) {
    Sound(db) && Counted(db.rows.history) && forall w :: w in db.jobs ==> SteadyJob(db.rows, db.jobs[w])
  }

  lemma {:induction false} CountedHistory(log: seq<KotItem>, id: int)
    requires Counted(log)
    ensures History(log, id) >= 0
  {
    if log != [] { CountedHistory(log[..|log| - 1], id); }
  }

  lemma PendingForCounted(rows: Rows, sends: seq<Line>, id: int)
    requires forall k :: 0 <= k < |sends| ==> SteadyLine(rows, sends[k])
    ensures PendingFor(sends, id) >= 0
  {
    LineOfIs(sends, id);
  }

  predicate Known(items: seq<Item>, id: int) { exists was :: was in items && was.id == id }

  lemma EditedRowKept(rows: Rows, item: int, quantity: int, notes: Option<string>, sent: int, it: Item)
    requires it in EditRows(rows.items, item, quantity, notes, sent)
    ensures Known(rows.items, it.id)
  {
    EditedAre(rows.items, item, quantity, notes, sent);
    var was :| was in rows.items && it == EditRow(was, item, quantity, notes, sent);
  }

  lemma RemovedRowKept(rows: Rows, item: int, it: Item)
    requires Ordered(rows.items) && it in WithoutRows(rows.items, {item})
    ensures Known(rows.items, it.id)
    ensures History(WithoutHistory(rows.history, {item}), it.id) == History(rows.history, it.id)
  {
    WithoutRowsAre(rows.items, {item});
    ErasedAt(rows.history, {item}, it.id);
  }

  lemma TicketedRowKept(rows: Rows, sends: seq<Line>, auto: bool, updates: nat, kot: int, it: Item)
    requires Distinct(sends) && forall k :: 0 <= k < |sends| ==> SteadyLine(rows, sends[k])
    requires it in TicketRows(rows, sends, auto, updates, kot).items
    ensures Known(rows.items, it.id)
    ensures History(TicketRows(rows, sends, auto, updates, kot).history, it.id) >= History(rows.history, it.id)
  {
    if LinesPresent(rows.items, sends) {
      MarkedAre(rows.items, Marked(sends, auto, updates));
      RecordAt(rows.history, kot, sends, it.id);
      PendingForCounted(rows, sends, it.id);
    }
  }

  lemma MovedRowKept(rows: Rows, moved: seq<int>, to: int, it: Item)
    requires it in MoveRows(rows.items, moved, to)
    ensures Known(rows.items, it.id)
  {
    MovedAre(rows.items, moved, to);
  }

  /** A row that survives a transaction keeps all its ticket lines. */
  lemma RowKept(rows: Rows, job: Job, updates: nat, next: nat, it: Item)
    requires SoundRows(rows, next) && SoundJob(job, next) && SteadyJob(rows, job)
    requires it in RowsAfter(rows, job, updates, next).items && it.id < next
    ensures Known(rows.items, it.id)
    ensures History(RowsAfter(rows, job, updates, next).history, it.id) >= History(rows.history, it.id)
  {
    match job
    case Placing(_, lines, _) =>
    case Adding(order, line) =>
    case Editing(_, item, quantity, notes, seenSent) => EditedRowKept(rows, item, quantity, notes, Min(seenSent, quantity), it);
    case Removing(_, item) => RemovedRowKept(rows, item, it);
    case Updating(order, edits) => UpdatedRowKept(rows, order, edits, next, it);
    case Ticketing(_, sends, auto) => TicketedRowKept(rows, sends, auto, updates, next, it);
    case Merging(_, target, moved, _, _, _) => if AllPresent(rows.items, moved) { MovedRowKept(rows, moved, target, it); }
    case _ =>
  }

  lemma MovedAre(items: seq<Item>, moved: seq<int>, to: int)
    ensures forall it :: it in MoveRows(items, moved, to) ==>
                           exists was :: was in items && was.id == it.id && was.quantity == it.quantity
    ensures forall was :: was in items ==> exists it :: it in MoveRows(items, moved, to) && was.id == it.id && was.quantity == it.quantity
  {
    var after := MoveRows(items, moved, to);
    forall it | it in after ensures exists was :: was in items && was.id == it.id && was.quantity == it.quantity {
      var i :| 0 <= i < |after| && after[i] == it;
      assert items[i] in items;
    }
    forall was | was in items ensures exists it :: it in after && was.id == it.id && was.quantity == it.quantity {
      var i :| 0 <= i < |items| && items[i] == was;
      assert after[i] in after;
    }
  }

  lemma UpdatedRowKept(rows: Rows, order: int, edits: seq<EditLine>, next: nat, it: Item)
    requires SoundRows(rows, next) && it in UpdateRows(rows, order, edits, next).items && it.id < next
    ensures Known(rows.items, it.id)
    ensures History(UpdateRows(rows, order, edits, next).history, it.id) == History(rows.history, it.id)
  {
    var m := Match(rows.items, order, edits);
    UpdateRowsAre(rows, order, edits, next);
    if IsKept(rows.items, m.kept, it) {
      var was :| was in rows.items && was.id in m.kept && it == Overwritten(was, m.kept[was.id]);
      KeptHistory(rows, order, m, was);
    } else {
      assert IsOther(rows.items, order, m.kept, it);
      KeptHistory(rows, order, m, it);
    }
  }

  lemma RecordCounted(rows: Rows, kot: int, sends: seq<Line>)
    requires Counted(rows.history) && forall k :: 0 <= k < |sends| ==> SteadyLine(rows, sends[k])
    ensures Counted(Record(rows.history, kot, sends))
  {}

  lemma HistoryStaysCounted(rows: Rows, job: Job, updates: nat, next: nat)
    requires Counted(rows.history) && SteadyJob(rows, job)
    ensures Counted(RowsAfter(rows, job, updates, next).history)
  {
    match job
    case Removing(_, item) => ErasedCounted(rows.history, {item});
    case Updating(order, edits) => ErasedCounted(rows.history, Dropped(rows.items, order, Match(rows.items, order, edits).kept));
    case Ticketing(_, sends, _) => RecordCounted(rows, next, sends);
    case _ =>
  }

  lemma ErasedCounted(log: seq<KotItem>, gone: set<int>)
    requires Counted(log)
    ensures Counted(WithoutHistory(log, gone))
  {
    ErasedLength(log, gone);
    forall k | 0 <= k < |WithoutHistory(log, gone)| ensures WithoutHistory(log, gone)[k].quantity >= 0 {
      assert WithoutHistory(log, gone)[k] in log;
    }
  }

  /** What a waiting request carries stays true under any other transaction. */
  lemma OthersStaySteady(rows: Rows, job: Job, updates: nat, next: nat, other: Job)
    requires SoundRows(rows, next) && SoundJob(job, next) && SoundJob(other, next)
    requires SteadyJob(rows, job) && SteadyJob(rows, other)
    ensures SteadyJob(RowsAfter(rows, job, updates, next), other)
  {
    var after := RowsAfter(rows, job, updates, next);
    forall it | it in after.items && it.id < next
      ensures Known(rows.items, it.id) && History(after.history, it.id) >= History(rows.history, it.id)
    {
      RowKept(rows, job, updates, next, it);
    }
    if other.Ticketing? {
      forall k | 0 <= k < |other.sends| ensures SteadyLine(after, other.sends[k]) {
        assert SteadyLine(rows, other.sends[k]);
      }
    }
  }

  lemma StartSteady(db: Db, r: Request)
    requires Steady(db) && Start(db, r).Some? && NonNegative(Begin(0, r))
    requires r.EditItem? ==> AllMeet(Backed, db.rows)
    ensures SteadyJob(db.rows, Start(db, r).value)
  {
    match r
    case SendTicket(order) =>
      var sends := PendingLines(db.rows.items, db.rows.history, order);
      PendingLinesAre(db.rows.items, db.rows.history, order);
      forall k | 0 <= k < |sends| ensures SteadyLine(db.rows, sends[k]) {
        assert sends[k] in sends;
      }
    case EditItem(_, item, _, _) => FindsItem(db.rows.items, item);
    case _ =>
  }

  lemma FollowUpSteady(db: Db, job: Job, updates: nat)
    requires Counted(db.rows.history) && SteadyJob(db.rows, job) && FollowUp(db, job).Some?
    ensures SteadyJob(RowsAfter(db.rows, job, updates, db.next), FollowUp(db, job).value)
  {
    var more, after := FollowUp(db, job).value, RowsAfter(db.rows, job, updates, db.next);
    if more.Ticketing? {
      forall k | 0 <= k < |more.sends| ensures SteadyLine(after, more.sends[k]) {
        CountedHistory(after.history, more.sends[k].itemId);
      }
    }
  }

  lemma SteadyStep(db: Db, e: Event)
    requires Steady(db) && NonNegative(e)
    requires e.Begin? && e.request.EditItem? ==> AllMeet(Backed, db.rows)
    ensures Steady(Apply(db, e))
  {
    SoundStep(db, e);
    match e
    case Begin(w, r) => if Start(db, r).Some? { StartSteady(db, r); }
    case Commit(w, updates) =>
      if w in db.jobs {
        var job := db.jobs[w];
        HistoryStaysCounted(db.rows, job, updates, db.next);
        if FollowUp(db, job).Some? { FollowUpSteady(db, job, updates); }
        var db' := Apply(db, e);
        forall v | v in db'.jobs && v != w ensures SteadyJob(db'.rows, db'.jobs[v]) {
          OthersStaySteady(db.rows, job, updates, db.next, db.jobs[v]);
        }
      }
    case Crash(w) =>
  }

  // ---------- Sent quantities backed by tickets ----------

  /** A whole-order edit writes no sent quantity beyond the tickets of the row it goes to. */
  predicate Covered(rows: Rows, job: Job) {
    job.Updating? ==>
      var m := Match(rows.items, job.order, job.edits);
      && (forall it :: it in rows.items && it.id in m.kept ==> m.kept[it.id].sent <= History(rows.history, it.id))
      && (forall k :: 0 <= k < |m.created| ==> m.created[k].sent <= 0)
  }

  lemma {:induction false} MarkedLine(sends: seq<Line>, auto: bool, updates: nat, id: int)
    requires Distinct(sends) && LineOf(Marked(sends, auto, updates), id).Some?
    ensures LineOf(Marked(sends, auto, updates), id) == LineOf(sends, id)
  {
    var marked := Marked(sends, auto, updates);
    LineOfIs(marked, id);
    var k :| 0 <= k < |marked| && marked[k] == LineOf(marked, id).value;
    LineOfAt(sends, k);
  }

  lemma TicketBacked(rows: Rows, sends: seq<Line>, auto: bool, updates: nat)
    requires AllMeet(Backed, rows) && Distinct(sends) && forall k :: 0 <= k < |sends| ==> SteadyLine(rows, sends[k])
    ensures TicketPasses(Backed, rows, sends, Marked(sends, auto, updates))
  {
    var marked := Marked(sends, auto, updates);
    forall it | it in rows.items && LineOf(sends, it.id).Some?
      ensures MarkRow(it, marked).sent <= History(rows.history, it.id) + PendingFor(sends, it.id)
    {
      LineOfIs(sends, it.id);
      assert SteadyLine(rows, LineOf(sends, it.id).value);
      if LineOf(marked, it.id).Some? { MarkedLine(sends, auto, updates, it.id); }
    }
  }

  lemma BackedIffCovered(rows: Rows, job: Job, updates: nat, next: nat)
    requires SoundJob(job, next) && SteadyJob(rows, job) && AllMeet(Backed, rows)
    ensures Passes(Backed, rows, job, updates) <==> Covered(rows, job)
  {
    match job
    case Ticketing(_, sends, auto) => TicketBacked(rows, sends, auto, updates);
    case _ =>
  }

  predicate StepCovered(db: Db, e: Event) { e.Commit? && e.worker in db.jobs ==> Covered(db.rows, db.jobs[e.worker]) }

  ghost predicate AllCovered(db: Db, es: seq<Event>) { forall k :: 0 <= k < |es| ==> StepCovered(Run(db, es[..k]), es[k]) }

  lemma BackedStep(db: Db, e: Event)
    requires Steady(db) && AllMeet(Backed, db.rows) && NonNegative(e)
    ensures Steady(Apply(db, e))
    ensures StepPasses(Backed, db, e) <==> StepCovered(db, e)
  {
    SteadyStep(db, e);
    if e.Commit? && e.worker in db.jobs { BackedIffCovered(db.rows, db.jobs[e.worker], e.updates, db.next); }
  }

  lemma {:induction false} BackedUpTo(db: Db, es: seq<Event>, k: nat)
    requires Steady(db) && AllMeet(Backed, db.rows) && k <= |es| && forall e :: e in es ==> NonNegative(e)
    requires (forall j :: 0 <= j < k ==> AllMeet(Backed, Run(db, es[..j]).rows)) || AllCovered(db, es)
    ensures Steady(Run(db, es[..k]))
    ensures AllCovered(db, es) ==> AllMeet(Backed, Run(db, es[..k]).rows)
  {
    if k > 0 {
      BackedUpTo(db, es, k - 1);
      var before := Run(db, es[..k - 1]);
      assert AllCovered(db, es) ==> StepCovered(before, es[k - 1]);
      BackedStep(before, es[k - 1]);
      StepKeepsIff(Backed, before, es[k - 1]);
      RunNext(db, es, k - 1);
    }
  }

  /** Over every run of all requests in every interleaving, with crashes and half-finished
      automatic tickets: sent quantities stay backed by ticket lines exactly when every
      whole-order edit is covered where it commits.  No other request can break it. */
  lemma BackedThroughoutIffCovered(db: Db, es: seq<Event>)
    requires Empty(db) && forall e :: e in es ==> NonNegative(e)
    ensures Throughout(Backed, db, es) <==> AllCovered(db, es)
  {
    if AllCovered(db, es) {
      forall k | 0 <= k <= |es| ensures AllMeet(Backed, Run(db, es[..k]).rows) { BackedUpTo(db, es, k); }
    }
    if Throughout(Backed, db, es) {
      forall k | 0 <= k < |es| ensures StepCovered(Run(db, es[..k]), es[k]) {
        BackedUpTo(db, es, k);
        HoldsThroughoutIff(Backed, db, es);
        BackedStep(Run(db, es[..k]), es[k]);
      }
    }
  }
}

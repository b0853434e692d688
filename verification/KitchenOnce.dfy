/** Each unit reaches the kitchen once: when, and which requests break it. */
module KitchenOnce {
  import opened Prelude
  import opened KitchenLedger
  import opened KitchenRows
  import opened KitchenTickets
  import opened KitchenDelivery

  // ---------- Sent quantity equal to ticket history ----------

  predicate LineFaithful(rows: Rows, l: Line, marked: bool) {
    if marked then History(rows.history, l.itemId) == l.seen else l.pending == 0
  }

  /** An edit does not go below what the tickets carry and read the current sent quantity;
      a whole-order edit hands every row its own ticket units; a ticket finds the history
      it read and finishes its updates. */
  predicate Faithful(rows: Rows, job: Job, updates: nat) {
    match job
    case Editing(_, item, quantity, _, seenSent) => HasItem(rows.items, item) ==> Min(seenSent, quantity) == History(rows.history, item)
    case Updating(order, edits) =>
      var m := Match(rows.items, order, edits);
      && (forall it :: it in rows.items && it.id in m.kept ==> m.kept[it.id].sent == History(rows.history, it.id))
      && (forall k :: 0 <= k < |m.created| ==> m.created[k].sent == 0)
    case Ticketing(_, sends, auto) =>
      LinesPresent(rows.items, sends) ==>
        forall k :: 0 <= k < |sends| ==> LineFaithful(rows, sends[k], !auto || k < updates)
    case _ => true
  }

  lemma MarkedPrefix(sends: seq<Line>, auto: bool, updates: nat, k: nat)
    requires Distinct(sends) && k < |sends|
    ensures LineOf(Marked(sends, auto, updates), sends[k].itemId) == if !auto || k < updates then Some(sends[k]) else None
  {
    var marked := Marked(sends, auto, updates);
    if !auto || k < updates {
      LineOfAt(marked, k);
    } else {
      LineOfIs(marked, sends[k].itemId);
    }
  }

  lemma LinePasses(rows: Rows, sends: seq<Line>, auto: bool, updates: nat, it: Item, k: nat)
    requires AllMeet(Exact, rows) && Distinct(sends) && it in rows.items && k < |sends| && sends[k].itemId == it.id
    ensures LineOf(sends, it.id) == Some(sends[k])
    ensures MarkRow(it, Marked(sends, auto, updates)).sent == History(rows.history, it.id) + PendingFor(sends, it.id)
            <==> LineFaithful(rows, sends[k], !auto || k < updates)
  {
    LineOfAt(sends, k);
    MarkedPrefix(sends, auto, updates, k);
  }

  lemma TicketExactIff(rows: Rows, sends: seq<Line>, auto: bool, updates: nat)
    requires AllMeet(Exact, rows) && Distinct(sends) && LinesPresent(rows.items, sends)
    ensures TicketPasses(Exact, rows, sends, Marked(sends, auto, updates))
            <==> forall k :: 0 <= k < |sends| ==> LineFaithful(rows, sends[k], !auto || k < updates)
  {
    var marked := Marked(sends, auto, updates);
    if TicketPasses(Exact, rows, sends, marked) {
      forall k | 0 <= k < |sends| ensures LineFaithful(rows, sends[k], !auto || k < updates) {
        assert HasItem(rows.items, sends[k].itemId);
        var it :| it in rows.items && it.id == sends[k].itemId;
        LinePasses(rows, sends, auto, updates, it, k);
      }
    }
    if forall k :: 0 <= k < |sends| ==> LineFaithful(rows, sends[k], !auto || k < updates) {
      forall it | it in rows.items && LineOf(sends, it.id).Some?
        ensures MarkRow(it, marked).sent == History(rows.history, it.id) + PendingFor(sends, it.id)
      {
        LineOfIs(sends, it.id);
        var k :| 0 <= k < |sends| && sends[k] == LineOf(sends, it.id).value;
        LinePasses(rows, sends, auto, updates, it, k);
      }
    }
  }

  lemma ExactIffFaithful(rows: Rows, job: Job, updates: nat, next: nat)
    requires SoundJob(job, next) && AllMeet(Exact, rows)
    ensures Passes(Exact, rows, job, updates) <==> Faithful(rows, job, updates)
  {
    match job
    case Ticketing(_, sends, auto) => if LinesPresent(rows.items, sends) { TicketExactIff(rows, sends, auto, updates); }
    case _ =>
  }

  predicate StepFaithful(db: Db, e: Event) { e.Commit? && e.worker in db.jobs ==> Faithful(db.rows, db.jobs[e.worker], e.updates) }

  ghost predicate AllFaithful(db: Db, es: seq<Event>) { forall k :: 0 <= k < |es| ==> StepFaithful(Run(db, es[..k]), es[k]) }

  lemma ExactStepIff(db: Db, e: Event)
    requires Sound(db) && AllMeet(Exact, db.rows)
    ensures StepPasses(Exact, db, e) <==> StepFaithful(db, e)
  {
    if e.Commit? && e.worker in db.jobs { ExactIffFaithful(db.rows, db.jobs[e.worker], e.updates, db.next); }
  }

  lemma {:induction false} FaithfulKeeps(db: Db, es: seq<Event>, k: nat)
    requires Sound(db) && AllMeet(Exact, db.rows) && AllFaithful(db, es) && k <= |es|
    ensures AllMeet(Exact, Run(db, es[..k]).rows)
  {
    if k > 0 {
      var before := Run(db, es[..k - 1]);
      FaithfulKeeps(db, es, k - 1);
      SoundRun(db, es[..k - 1]);
      assert StepFaithful(before, es[k - 1]);
      ExactStepIff(before, es[k - 1]);
      StepKeepsIff(Exact, before, es[k - 1]);
      RunNext(db, es, k - 1);
    }
  }

  /** The stored sent quantity equals the ticket history throughout a run exactly when
      every commit is faithful to the history it finds. */
  lemma ExactThroughoutIffFaithful(db: Db, es: seq<Event>)
    requires Sound(db) && AllMeet(Exact, db.rows)
    ensures Throughout(Exact, db, es) <==> AllFaithful(db, es)
  {
    if AllFaithful(db, es) {
      forall k | 0 <= k <= |es| ensures AllMeet(Exact, Run(db, es[..k]).rows) { FaithfulKeeps(db, es, k); }
    }
    if Throughout(Exact, db, es) {
      HoldsThroughoutIff(Exact, db, es);
      forall k | 0 <= k < |es| ensures StepFaithful(Run(db, es[..k]), es[k]) {
        SoundRun(db, es[..k]);
        ExactStepIff(Run(db, es[..k]), es[k]);
      }
    }
  }

  // ---------- Nothing reaches the kitchen twice ----------

  /** What the kitchen received is on record against live rows, within their quantities. */
  predicate Clean(rows: Rows) { AllMeet(Within, rows) && rows.printed == rows.history }

  predicate LineFits(rows: Rows, l: Line) {
    forall it :: it in rows.items && it.id == l.itemId ==> l.pending <= it.quantity - History(rows.history, it.id)
  }

  /** No row is written below what its tickets carry, no row with a ticket goes, and a
      ticket asks for no more than is outstanding where it commits. */
  predicate Careful(rows: Rows, job: Job) {
    match job
    case Placing(_, lines, _) => AskNonNegative(lines)
    case Editing(_, item, quantity, _, _) => HasItem(rows.items, item) ==> History(rows.history, item) <= quantity
    case Removing(_, item) => NoTicket(rows.history, {item})
    case Updating(order, edits) =>
      var m := Match(rows.items, order, edits);
      && NoTicket(rows.history, Dropped(rows.items, order, m.kept))
      && (forall it :: it in rows.items && it.id in m.kept ==> History(rows.history, it.id) <= m.kept[it.id].line.quantity)
      && (forall k :: 0 <= k < |m.created| ==> m.created[k].line.quantity >= 0)
    case Ticketing(_, sends, _) => LinesPresent(rows.items, sends) ==> forall k :: 0 <= k < |sends| ==> LineFits(rows, sends[k])
    case _ => true
  }

  lemma TicketWithinIff(rows: Rows, sends: seq<Line>, auto: bool, updates: nat)
    requires Distinct(sends)
    ensures TicketPasses(Within, rows, sends, Marked(sends, auto, updates)) <==> forall k :: 0 <= k < |sends| ==> LineFits(rows, sends[k])
  {
    if TicketPasses(Within, rows, sends, Marked(sends, auto, updates)) {
      forall k | 0 <= k < |sends| ensures LineFits(rows, sends[k]) { LineOfAt(sends, k); }
    }
    if forall k :: 0 <= k < |sends| ==> LineFits(rows, sends[k]) {
      forall it | it in rows.items && LineOf(sends, it.id).Some?
        ensures History(rows.history, it.id) + PendingFor(sends, it.id) <= it.quantity
      {
        LineOfIs(sends, it.id);
        assert LineFits(rows, LineOf(sends, it.id).value);
      }
    }
  }

  lemma PrintedIff(rows: Rows, job: Job, updates: nat, next: nat)
    requires rows.printed == rows.history
    ensures var after := RowsAfter(rows, job, updates, next);
            after.printed == after.history <==>
              (job.Removing? ==> NoTicket(rows.history, {job.item}))
              && (job.Updating? ==> NoTicket(rows.history, Dropped(rows.items, job.order, Match(rows.items, job.order, job.edits).kept)))
  {
    match job
    case Removing(_, item) => ErasedLength(rows.history, {item});
    case Updating(order, edits) => ErasedLength(rows.history, Dropped(rows.items, order, Match(rows.items, order, edits).kept));
    case _ =>
  }

  lemma CleanIffCareful(rows: Rows, job: Job, updates: nat, next: nat)
    requires SoundRows(rows, next) && SoundJob(job, next) && Clean(rows)
    ensures Clean(RowsAfter(rows, job, updates, next)) <==> Careful(rows, job)
  {
    JobKeepsIff(Within, rows, job, updates, next);
    PrintedIff(rows, job, updates, next);
    match job
    case Ticketing(_, sends, auto) => if LinesPresent(rows.items, sends) { TicketWithinIff(rows, sends, auto, updates); }
    case _ =>
  }

  predicate StepCareful(db: Db, e: Event) { e.Commit? && e.worker in db.jobs ==> Careful(db.rows, db.jobs[e.worker]) }

  ghost predicate AllCareful(db: Db, es: seq<Event>) { forall k :: 0 <= k < |es| ==> StepCareful(Run(db, es[..k]), es[k]) }

  ghost predicate CleanThroughout(db: Db, es: seq<Event>) { forall k :: 0 <= k <= |es| ==> Clean(Run(db, es[..k]).rows) }

  lemma CleanStepIff(db: Db, e: Event)
    requires Sound(db) && Clean(db.rows)
    ensures Clean(Apply(db, e).rows) <==> StepCareful(db, e)
  {
    if e.Commit? && e.worker in db.jobs { CleanIffCareful(db.rows, db.jobs[e.worker], e.updates, db.next); }
  }

  lemma {:induction false} CarefulKeeps(db: Db, es: seq<Event>, k: nat)
    requires Sound(db) && Clean(db.rows) && AllCareful(db, es) && k <= |es|
    ensures Clean(Run(db, es[..k]).rows)
  {
    if k > 0 {
      var before := Run(db, es[..k - 1]);
      CarefulKeeps(db, es, k - 1);
      SoundRun(db, es[..k - 1]);
      assert StepCareful(before, es[k - 1]);
      CleanStepIff(before, es[k - 1]);
      RunNext(db, es, k - 1);
    }
  }

  /** Over every run of all requests in every interleaving: the kitchen never receives
      more than the live rows ask for, and nothing it received is forgotten, exactly when
      every commit is careful. */
  lemma OnceThroughoutIffCareful(db: Db, es: seq<Event>)
    requires Sound(db) && Clean(db.rows)
    ensures CleanThroughout(db, es) <==> AllCareful(db, es)
  {
    if AllCareful(db, es) {
      forall k | 0 <= k <= |es| ensures Clean(Run(db, es[..k]).rows) { CarefulKeeps(db, es, k); }
    }
    if CleanThroughout(db, es) {
      forall k | 0 <= k < |es| ensures StepCareful(Run(db, es[..k]), es[k]) {
        SoundRun(db, es[..k]);
        RunNext(db, es, k);
        assert Clean(Run(db, es[..k + 1]).rows);
        CleanStepIff(Run(db, es[..k]), es[k]);
      }
    }
  }

  // ---------- Without edits only stale tickets matter ----------

  predicate KeepsQuantities(job: Job) { !job.Editing? && !job.Removing? && !job.Updating? }

  predicate Plain(e: Event) { NonNegative(e) && (e.Begin? ==> !e.request.EditItem? && !e.request.RemoveItem? && !e.request.UpdateOrder?) }

  predicate Fits(rows: Rows, l: Line) { exists it :: it in rows.items && it.id == l.itemId && it.quantity == l.seen + l.pending }

  predicate FitJob(rows: Rows, job: Job) {
    KeepsQuantities(job) && (job.Ticketing? ==> forall k :: 0 <= k < |job.sends| ==> Fits(rows, job.sends[k]))
  }

  ghost predicate Fitted(db: Db) { Steady(db) && forall w :: w in db.jobs ==> FitJob(db.rows, db.jobs[w]) }

  /** The ticket commits on the history it was computed from. */
  predicate Fresh(rows: Rows, job: Job) {
    job.Ticketing? ==> forall k :: 0 <= k < |job.sends| ==> History(rows.history, job.sends[k].itemId) == job.sends[k].seen
  }

  lemma AppendFits(rows: Rows, more: seq<Item>, l: Line)
    requires Fits(rows, l)
    ensures Fits(rows.(items := rows.items + more), l)
  {
    var it :| it in rows.items && it.id == l.itemId && it.quantity == l.seen + l.pending;
    assert it in rows.items + more;
  }

  lemma MarkFits(rows: Rows, sends: seq<Line>, auto: bool, updates: nat, kot: int, l: Line)
    requires Fits(rows, l)
    ensures Fits(TicketRows(rows, sends, auto, updates, kot), l)
  {
    var it :| it in rows.items && it.id == l.itemId && it.quantity == l.seen + l.pending;
    if LinesPresent(rows.items, sends) {
      MarkedAre(rows.items, Marked(sends, auto, updates));
      assert MarkRow(it, Marked(sends, auto, updates)) in TicketRows(rows, sends, auto, updates, kot).items;
    }
  }

  lemma MoveFits(rows: Rows, moved: seq<int>, to: int, l: Line)
    requires Fits(rows, l)
    ensures Fits(rows.(items := MoveRows(rows.items, moved, to)), l)
  {
    MovedAre(rows.items, moved, to);
  }

  lemma FitsGrows(rows: Rows, job: Job, updates: nat, next: nat, l: Line)
    requires KeepsQuantities(job) && Fits(rows, l)
    ensures Fits(RowsAfter(rows, job, updates, next), l)
  {
    match job
    case Placing(_, lines, _) => AppendFits(rows, NewItems(next, lines, next + 1), l);
    case Adding(order, line) => AppendFits(rows, NewItems(order, [line], next), l);
    case Ticketing(_, sends, auto) => MarkFits(rows, sends, auto, updates, next, l);
    case Merging(_, target, moved, _, _, _) => MoveFits(rows, moved, target, l);
    case Splitting(_, _, _) =>
    case Cancelling(_, _) =>
    case Releasing(_) =>
    case Setting(_, _) =>
    case Moving(_, _, _) =>
    case Paying(_, _) =>
  }

  lemma StartFits(db: Db, e: Event)
    requires Fitted(db) && Plain(e) && e.Begin? && Start(db, e.request).Some?
    ensures FitJob(db.rows, Start(db, e.request).value)
  {
    if e.request.SendTicket? {
      var order := e.request.order;
      var sends := PendingLines(db.rows.items, db.rows.history, order);
      PendingLinesAre(db.rows.items, db.rows.history, order);
      forall k | 0 <= k < |sends| ensures Fits(db.rows, sends[k]) {
        assert sends[k] in sends;
        var it :| IsPendingLine(db.rows.items, db.rows.history, order, sends[k], it);
        assert it.quantity == sends[k].seen + sends[k].pending;
      }
    }
  }

  lemma FollowUpFits(db: Db, job: Job, updates: nat)
    requires KeepsQuantities(job) && FollowUp(db, job).Some?
    ensures FitJob(RowsAfter(db.rows, job, updates, db.next), FollowUp(db, job).value)
  {
    if job.Placing? {
      var more, after := FollowUp(db, job).value, RowsAfter(db.rows, job, updates, db.next);
      var made := NewItems(db.next, job.lines, db.next + 1);
      forall k | 0 <= k < |more.sends| ensures Fits(after, more.sends[k]) {
        assert made[k] in after.items;
      }
    }
  }

  lemma FittedStep(db: Db, e: Event)
    requires Fitted(db) && Plain(e)
    ensures Fitted(Apply(db, e))
  {
    SteadyStep(db, e);
    match e
    case Begin(w, r) => if Start(db, r).Some? { StartFits(db, e); }
    case Commit(w, updates) =>
      if w in db.jobs {
        var job, db' := db.jobs[w], Apply(db, e);
        if FollowUp(db, job).Some? { FollowUpFits(db, job, updates); }
        forall v | v in db'.jobs && v != w ensures FitJob(db'.rows, db'.jobs[v]) {
          if db.jobs[v].Ticketing? {
            forall k | 0 <= k < |db.jobs[v].sends| ensures Fits(db'.rows, db.jobs[v].sends[k]) {
              FitsGrows(db.rows, job, updates, db.next, db.jobs[v].sends[k]);
            }
          }
        }
      }
    case Crash(w) =>
  }

  lemma FreshLine(rows: Rows, l: Line)
    requires Ordered(rows.items) && Fits(rows, l) && SteadyLine(rows, l)
    ensures HasItem(rows.items, l.itemId)
    ensures LineFits(rows, l) <==> History(rows.history, l.itemId) == l.seen
  {
    var it :| it in rows.items && it.id == l.itemId && it.quantity == l.seen + l.pending;
    forall other | other in rows.items && other.id == l.itemId ensures other == it { SameRow(rows.items, other, it); }
  }

  /** The decisive step: where quantities are kept, a ticket commit sends nothing twice
      exactly when the history it read is unchanged. */
  lemma CarefulIffFresh(db: Db, w: int)
    requires Fitted(db) && w in db.jobs
    ensures Careful(db.rows, db.jobs[w]) <==> Fresh(db.rows, db.jobs[w])
  {
    var job := db.jobs[w];
    if job.Ticketing? {
      forall k | 0 <= k < |job.sends|
        ensures HasItem(db.rows.items, job.sends[k].itemId)
        ensures LineFits(db.rows, job.sends[k]) <==> History(db.rows.history, job.sends[k].itemId) == job.sends[k].seen
      {
        assert Fits(db.rows, job.sends[k]) && SteadyLine(db.rows, job.sends[k]);
        FreshLine(db.rows, job.sends[k]);
      }
    }
  }

  predicate StepFresh(db: Db, e: Event) { e.Commit? && e.worker in db.jobs ==> Fresh(db.rows, db.jobs[e.worker]) }

  ghost predicate AllFresh(db: Db, es: seq<Event>) { forall k :: 0 <= k < |es| ==> StepFresh(Run(db, es[..k]), es[k]) }

  lemma {:induction false} FittedRun(db: Db, es: seq<Event>)
    requires Fitted(db) && forall e :: e in es ==> Plain(e)
    ensures Fitted(Run(db, es))
  {
    if es != [] {
      assert es[|es| - 1] in es;
      FittedRun(db, es[..|es| - 1]);
      FittedStep(Run(db, es[..|es| - 1]), es[|es| - 1]);
    }
  }

  /** Over every run of creations, additions, tickets, merges, splits, cancels, status
      changes, transfers and payments, in any interleaving: no unit reaches the kitchen twice exactly when every
      ticket commits on the history it was computed from. */
  lemma OnceOnlyIffFresh(db: Db, es: seq<Event>)
    requires Empty(db) && forall e :: e in es ==> Plain(e)
    ensures CleanThroughout(db, es) <==> AllFresh(db, es)
  {
    OnceThroughoutIffCareful(db, es);
    forall k | 0 <= k < |es| ensures StepCareful(Run(db, es[..k]), es[k]) <==> StepFresh(Run(db, es[..k]), es[k]) {
      FittedRun(db, es[..k]);
      if es[k].Commit? && es[k].worker in Run(db, es[..k]).jobs { CarefulIffFresh(Run(db, es[..k]), es[k].worker); }
    }
  }
}

/** Sent quantities and kitchen deliveries over whole runs of all requests. */
module KitchenTickets {
  import opened Prelude
  import opened KitchenLedger
  import opened KitchenRows

  // ---------- A rule for every row, and what keeps it ----------

  /** Sent units are backed by ticket lines; they equal them; ticket lines stay within
      the quantity. */
  datatype Rule = Backed | Exact | Within

  predicate Meets(rule: Rule, sent: int, quantity: int, history: int) {
    match rule
    case Backed => sent <= history
    case Exact => sent == history
    case Within => history <= quantity
  }

  predicate AllMeet(rule: Rule, rows: Rows) {
    forall it :: it in rows.items ==> Meets(rule, it.sent, it.quantity, History(rows.history, it.id))
  }

  predicate UpdatePasses(rule: Rule, rows: Rows, m: Matching) {
    && (forall it :: it in rows.items && it.id in m.kept ==>
          Meets(rule, m.kept[it.id].sent, m.kept[it.id].line.quantity, History(rows.history, it.id)))
    && (forall k :: 0 <= k < |m.created| ==> Meets(rule, m.created[k].sent, m.created[k].line.quantity, 0))
  }

  predicate TicketPasses(rule: Rule, rows: Rows, sends: seq<Line>, marked: seq<Line>) {
    forall it :: it in rows.items && LineOf(sends, it.id).Some? ==>
      Meets(rule, MarkRow(it, marked).sent, it.quantity, History(rows.history, it.id) + PendingFor(sends, it.id))
  }

  /** The rows a transaction writes meet the rule, with what is on record when it does. */
  predicate Passes(rule: Rule, rows: Rows, job: Job, updates: nat) {
    match job
    case Placing(_, lines, _) => forall k :: 0 <= k < |lines| ==> Meets(rule, 0, lines[k].quantity, 0)
    case Adding(_, line) => Meets(rule, 0, line.quantity, 0)
    case Editing(_, item, quantity, _, seenSent) =>
      forall it :: it in rows.items && it.id == item ==> Meets(rule, Min(seenSent, quantity), quantity, History(rows.history, item))
    case Updating(order, edits) => UpdatePasses(rule, rows, Match(rows.items, order, edits))
    case Ticketing(_, sends, auto) => LinesPresent(rows.items, sends) ==> TicketPasses(rule, rows, sends, Marked(sends, auto, updates))
    case _ => true
  }

  lemma AppendMeets(rule: Rule, rows: Rows, more: seq<Item>, next: int)
    requires SoundRows(rows, next) && AllMeet(rule, rows) && forall i :: 0 <= i < |more| ==> more[i].id >= next
    ensures AllMeet(rule, rows.(items := rows.items + more)) <==>
              forall i :: 0 <= i < |more| ==> Meets(rule, more[i].sent, more[i].quantity, 0)
  {
    forall i | 0 <= i < |more| ensures History(rows.history, more[i].id) == 0 && more[i] in rows.items + more {
      Unknown(rows.history, next, more[i].id);
    }
  }

  lemma EditedAre(items: seq<Item>, id: int, quantity: int, notes: Option<string>, sent: int)
    ensures forall it :: it in items ==> EditRow(it, id, quantity, notes, sent) in EditRows(items, id, quantity, notes, sent)
    ensures forall it :: it in EditRows(items, id, quantity, notes, sent) ==> exists was :: was in items && it == EditRow(was, id, quantity, notes, sent)
  {
    var edited := EditRows(items, id, quantity, notes, sent);
    forall it | it in items ensures EditRow(it, id, quantity, notes, sent) in edited {
      var i :| 0 <= i < |items| && items[i] == it;
      assert edited[i] in edited;
    }
    forall it | it in edited ensures exists was :: was in items && it == EditRow(was, id, quantity, notes, sent) {
      var i :| 0 <= i < |edited| && edited[i] == it;
      assert items[i] in items;
    }
  }

  lemma EditMeets(rule: Rule, rows: Rows, item: int, quantity: int, notes: Option<string>, sent: int)
    requires AllMeet(rule, rows)
    ensures AllMeet(rule, rows.(items := EditRows(rows.items, item, quantity, notes, sent))) <==>
              forall it :: it in rows.items && it.id == item ==> Meets(rule, sent, quantity, History(rows.history, item))
  {
    EditedAre(rows.items, item, quantity, notes, sent);
    var after := rows.(items := EditRows(rows.items, item, quantity, notes, sent));
    if AllMeet(rule, after) {
      forall it | it in rows.items && it.id == item ensures Meets(rule, sent, quantity, History(rows.history, item)) {
        assert EditRow(it, item, quantity, notes, sent) in after.items;
      }
    }
    if forall it :: it in rows.items && it.id == item ==> Meets(rule, sent, quantity, History(rows.history, item)) {
      forall it | it in after.items ensures Meets(rule, it.sent, it.quantity, History(rows.history, it.id)) {
        var was :| was in rows.items && it == EditRow(was, item, quantity, notes, sent);
      }
    }
  }

  lemma RemoveMeets(rule: Rule, rows: Rows, item: int, next: int)
    requires SoundRows(rows, next) && AllMeet(rule, rows)
    ensures AllMeet(rule, Rows(WithoutRows(rows.items, {item}), WithoutHistory(rows.history, {item}), rows.printed))
  {
    WithoutRowsAre(rows.items, {item});
    forall it | it in WithoutRows(rows.items, {item})
      ensures Meets(rule, it.sent, it.quantity, History(WithoutHistory(rows.history, {item}), it.id))
    {
      ErasedAt(rows.history, {item}, it.id);
    }
  }

  lemma KeptHistory(rows: Rows, order: int, m: Matching, it: Item)
    requires Ordered(rows.items) && it in rows.items && (it.id in m.kept || it.orderId != order)
    ensures History(WithoutHistory(rows.history, Dropped(rows.items, order, m.kept)), it.id) == History(rows.history, it.id)
  {
    NotDropped(rows.items, order, m.kept, it);
    ErasedAt(rows.history, Dropped(rows.items, order, m.kept), it.id);
  }

  lemma UpdateMeets(rule: Rule, rows: Rows, order: int, edits: seq<EditLine>, next: int)
    requires SoundRows(rows, next) && AllMeet(rule, rows)
    ensures AllMeet(rule, UpdateRows(rows, order, edits, next)) <==> UpdatePasses(rule, rows, Match(rows.items, order, edits))
  {
    var m, after := Match(rows.items, order, edits), UpdateRows(rows, order, edits, next);
    UpdateRowsAre(rows, order, edits, next);
    UpdateSound(rows, order, edits, next);
    var gone := Dropped(rows.items, order, m.kept);
    ErasedBelow(rows.history, gone, next);
    if UpdatePasses(rule, rows, m) {
      forall it | it in after.items ensures Meets(rule, it.sent, it.quantity, History(after.history, it.id)) {
        if IsKept(rows.items, m.kept, it) {
          var old' :| old' in rows.items && old'.id in m.kept && it == Overwritten(old', m.kept[old'.id]);
          KeptHistory(rows, order, m, old');
        } else if IsOther(rows.items, order, m.kept, it) {
          KeptHistory(rows, order, m, it);
        } else {
          assert IsCreated(order, m.created, next, it);
          var k :| 0 <= k < |m.created| && it == NewItem(order, m.created[k].line, next + k, m.created[k].sent);
          Unknown(after.history, next, it.id);
        }
      }
    }
    if AllMeet(rule, after) {
      forall it | it in rows.items && it.id in m.kept
        ensures Meets(rule, m.kept[it.id].sent, m.kept[it.id].line.quantity, History(rows.history, it.id))
      {
        KeptHistory(rows, order, m, it);
        assert Overwritten(it, m.kept[it.id]) in after.items;
      }
      forall k | 0 <= k < |m.created| ensures Meets(rule, m.created[k].sent, m.created[k].line.quantity, 0) {
        var it := NewItem(order, m.created[k].line, next + k, m.created[k].sent);
        assert IsCreated(order, m.created, next, it);
        Unknown(after.history, next, it.id);
      }
    }
  }

  lemma MarkedAre(items: seq<Item>, lines: seq<Line>)
    ensures forall it :: it in items ==> MarkRow(it, lines) in MarkSent(items, lines)
    ensures forall it :: it in MarkSent(items, lines) ==> exists old' :: old' in items && it == MarkRow(old', lines)
  {
    var marked := MarkSent(items, lines);
    forall it | it in items ensures MarkRow(it, lines) in marked {
      var i :| 0 <= i < |items| && items[i] == it;
      assert marked[i] in marked;
    }
    forall it | it in marked ensures exists old' :: old' in items && it == MarkRow(old', lines) {
      var i :| 0 <= i < |marked| && marked[i] == it;
      assert items[i] in items;
    }
  }

  lemma UnlistedUnmarked(sends: seq<Line>, auto: bool, updates: nat, it: Item)
    requires LineOf(sends, it.id).None?
    ensures MarkRow(it, Marked(sends, auto, updates)) == it && PendingFor(sends, it.id) == 0
  {
    LineOfIs(sends, it.id);
    var marked := Marked(sends, auto, updates);
    LineOfIs(marked, it.id);
    assert forall k :: 0 <= k < |marked| ==> marked[k] == sends[k];
  }

  lemma TicketMeets(rule: Rule, rows: Rows, sends: seq<Line>, auto: bool, updates: nat, kot: int)
    requires AllMeet(rule, rows) && Distinct(sends) && LinesPresent(rows.items, sends)
    ensures AllMeet(rule, TicketRows(rows, sends, auto, updates, kot)) <==> TicketPasses(rule, rows, sends, Marked(sends, auto, updates))
  {
    var marked, after := Marked(sends, auto, updates), TicketRows(rows, sends, auto, updates, kot);
    MarkedAre(rows.items, marked);
    forall it | it in rows.items
      ensures History(after.history, it.id) == History(rows.history, it.id) + PendingFor(sends, it.id)
      ensures LineOf(sends, it.id).None? ==> MarkRow(it, marked) == it && PendingFor(sends, it.id) == 0
    {
      RecordAt(rows.history, kot, sends, it.id);
      if LineOf(sends, it.id).None? { UnlistedUnmarked(sends, auto, updates, it); }
    }
    if TicketPasses(rule, rows, sends, marked) {
      forall it | it in after.items ensures Meets(rule, it.sent, it.quantity, History(after.history, it.id)) {
        var old' :| old' in rows.items && it == MarkRow(old', marked);
        assert Meets(rule, old'.sent, old'.quantity, History(rows.history, old'.id));
      }
    }
    if AllMeet(rule, after) {
      forall it | it in rows.items && LineOf(sends, it.id).Some?
        ensures Meets(rule, MarkRow(it, marked).sent, it.quantity, History(rows.history, it.id) + PendingFor(sends, it.id))
      {
        assert MarkRow(it, marked) in after.items;
      }
    }
  }

  lemma MoveMeets(rule: Rule, rows: Rows, moved: seq<int>, to: int)
    requires AllMeet(rule, rows)
    ensures AllMeet(rule, rows.(items := MoveRows(rows.items, moved, to)))
  {
    var items := MoveRows(rows.items, moved, to);
    forall it | it in items ensures Meets(rule, it.sent, it.quantity, History(rows.history, it.id)) {
      var i :| 0 <= i < |items| && items[i] == it;
      assert rows.items[i] in rows.items;
    }
  }

  /** One transaction keeps a rule exactly when the rows it writes meet it. */
  lemma JobKeepsIff(rule: Rule, rows: Rows, job: Job, updates: nat, next: nat)
    requires SoundRows(rows, next) && SoundJob(job, next) && AllMeet(rule, rows)
    ensures AllMeet(rule, RowsAfter(rows, job, updates, next)) <==> Passes(rule, rows, job, updates)
  {
    match job
    case Placing(_, lines, _) => AppendMeets(rule, rows, NewItems(next, lines, next + 1), next);
    case Adding(order, line) =>
      AppendMeets(rule, rows, NewItems(order, [line], next), next);
      assert NewItems(order, [line], next)[0] == NewItem(order, line, next, 0);
    case Editing(_, item, quantity, notes, seenSent) => EditMeets(rule, rows, item, quantity, notes, Min(seenSent, quantity));
    case Removing(_, item) => RemoveMeets(rule, rows, item, next);
    case Updating(order, edits) => UpdateMeets(rule, rows, order, edits, next);
    case Ticketing(_, sends, auto) => if LinesPresent(rows.items, sends) { TicketMeets(rule, rows, sends, auto, updates, next); }
    case Merging(_, target, moved, _, _, _) => MoveMeets(rule, rows, moved, target);
    case _ =>
  }

  predicate StepPasses(rule: Rule, db: Db, e: Event) {
    e.Commit? && e.worker in db.jobs ==> Passes(rule, db.rows, db.jobs[e.worker], e.updates)
  }

  lemma StepKeepsIff(rule: Rule, db: Db, e: Event)
    requires Sound(db) && AllMeet(rule, db.rows)
    ensures AllMeet(rule, Apply(db, e).rows) <==> StepPasses(rule, db, e)
  {
    if e.Commit? && e.worker in db.jobs { JobKeepsIff(rule, db.rows, db.jobs[e.worker], e.updates, db.next); }
  }

  ghost predicate Throughout(rule: Rule, db: Db, es: seq<Event>) { forall k :: 0 <= k <= |es| ==> AllMeet(rule, Run(db, es[..k]).rows) }

  ghost predicate AllPass(rule: Rule, db: Db, es: seq<Event>) { forall k :: 0 <= k < |es| ==> StepPasses(rule, Run(db, es[..k]), es[k]) }

  lemma {:induction false} PassingKeeps(rule: Rule, db: Db, es: seq<Event>, k: nat)
    requires Sound(db) && AllMeet(rule, db.rows) && AllPass(rule, db, es) && k <= |es|
    ensures AllMeet(rule, Run(db, es[..k]).rows)
  {
    if k > 0 {
      var before := Run(db, es[..k - 1]);
      PassingKeeps(rule, db, es, k - 1);
      SoundRun(db, es[..k - 1]);
      assert StepPasses(rule, before, es[k - 1]);
      StepKeepsIff(rule, before, es[k - 1]);
      RunNext(db, es, k - 1);
    }
  }

  /** Over every run of all requests in every interleaving, a rule holds throughout
      exactly when each commit meets it on the rows it writes. */
  lemma HoldsThroughoutIff(rule: Rule, db: Db, es: seq<Event>)
    requires Sound(db) && AllMeet(rule, db.rows)
    ensures Throughout(rule, db, es) <==> AllPass(rule, db, es)
  {
    if AllPass(rule, db, es) {
      forall k | 0 <= k <= |es| ensures AllMeet(rule, Run(db, es[..k]).rows) { PassingKeeps(rule, db, es, k); }
    }
    if Throughout(rule, db, es) {
      forall k | 0 <= k < |es| ensures StepPasses(rule, Run(db, es[..k]), es[k]) {
        SoundRun(db, es[..k]);
        RunNext(db, es, k);
        assert AllMeet(rule, Run(db, es[..k + 1]).rows);
        StepKeepsIff(rule, Run(db, es[..k]), es[k]);
      }
    }
  }
}

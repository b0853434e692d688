/** What each transaction does to the order items and the ticket lines. */
module KitchenRows {
  import opened Prelude
  import opened KitchenLedger

  predicate Ordered(items: seq<Item>) { forall i, j :: 0 <= i < j < |items| ==> items[i].id < items[j].id }

  predicate Distinct(lines: seq<Line>) { forall i, j :: 0 <= i < j < |lines| ==> lines[i].itemId != lines[j].itemId }

  predicate Below(log: seq<KotItem>, next: int) { forall k :: 0 <= k < |log| ==> log[k].itemId < next }

  predicate SoundRows(rows: Rows, next: int) {
    && Ordered(rows.items) && (forall it :: it in rows.items ==> it.id < next)
    && Below(rows.history, next) && Below(rows.printed, next)
  }

  predicate SoundJob(job: Job, next: int) {
    && (job.Ticketing? ==> Distinct(job.sends) && forall k :: 0 <= k < |job.sends| ==> job.sends[k].itemId < next)
    && (job.Editing? ==> job.item < next && job.quantity > 0)
    && (job.Adding? ==> job.line.quantity > 0)
  }

  ghost predicate Sound(db: Db) {
    SoundRows(db.rows, db.next) && forall w :: w in db.jobs ==> SoundJob(db.jobs[w], db.next)
  }

  // ---------- Ticket history ----------

  lemma {:induction false} Unrecorded(log: seq<KotItem>, id: int)
    requires forall k :: 0 <= k < |log| ==> log[k].itemId != id
    ensures History(log, id) == 0
  {
    if log != [] { Unrecorded(log[..|log| - 1], id); }
  }

  lemma Unknown(log: seq<KotItem>, next: int, id: int)
    requires Below(log, next) && id >= next
    ensures History(log, id) == 0
  {
    Unrecorded(log, id);
  }

  function PendingFor(lines: seq<Line>, id: int): int {
    var l := LineOf(lines, id);
    if l.Some? then l.value.pending else 0
  }

  lemma {:induction false} LineOfIs(lines: seq<Line>, id: int)
    ensures var l := LineOf(lines, id);
            && (l.Some? ==> l.value in lines && l.value.itemId == id)
            && (l.None? ==> forall k :: 0 <= k < |lines| ==> lines[k].itemId != id)
  {
    if lines != [] { LineOfIs(lines[..|lines| - 1], id); }
  }

  lemma {:induction false} LineOfAt(lines: seq<Line>, k: nat)
    requires Distinct(lines) && k < |lines|
    ensures LineOf(lines, lines[k].itemId) == Some(lines[k])
  {
    if k < |lines| - 1 { LineOfAt(lines[..|lines| - 1], k); }
  }

  lemma HistoryNext(log: seq<KotItem>, k: KotItem, id: int)
    ensures History(log + [k], id) == History(log, id) + (if k.itemId == id then k.quantity else 0)
  {
    assert (log + [k])[..|log|] == log;
  }

  lemma RecordNext(log: seq<KotItem>, kot: int, lines: seq<Line>)
    requires lines != []
    ensures var init, last := lines[..|lines| - 1], lines[|lines| - 1];
            Record(log, kot, lines) == Record(log, kot, init) + [KotItem(kot, last.itemId, last.pending)]
  {}

  lemma {:induction false} RecordAt(log: seq<KotItem>, kot: int, lines: seq<Line>, id: int)
    requires Distinct(lines)
    ensures History(Record(log, kot, lines), id) == History(log, id) + PendingFor(lines, id)
  {
    if lines == [] {
      assert Record(log, kot, lines) == log;
    } else {
      var init, last := lines[..|lines| - 1], lines[|lines| - 1];
      RecordAt(log, kot, init, id);
      RecordNext(log, kot, lines);
      HistoryNext(Record(log, kot, init), KotItem(kot, last.itemId, last.pending), id);
      LineOfIs(init, id);
    }
  }

  lemma {:induction false} ErasedAt(log: seq<KotItem>, gone: set<int>, id: int)
    ensures History(WithoutHistory(log, gone), id) == if id in gone then 0 else History(log, id)
  {
    if log != [] {
      var init, last := log[..|log| - 1], log[|log| - 1];
      ErasedAt(init, gone, id);
      assert (WithoutHistory(init, gone) + [last])[..|WithoutHistory(init, gone)|] == WithoutHistory(init, gone);
      assert WithoutHistory(init, gone) + [] == WithoutHistory(init, gone);
    }
  }

  lemma {:induction false} ErasedLength(log: seq<KotItem>, gone: set<int>)
    ensures |WithoutHistory(log, gone)| <= |log|
    ensures WithoutHistory(log, gone) == log <==> NoTicket(log, gone)
    ensures forall k :: 0 <= k < |WithoutHistory(log, gone)| ==> WithoutHistory(log, gone)[k] in log
  {
    if log != [] {
      var init := log[..|log| - 1];
      ErasedLength(init, gone);
      assert log == init + [log[|log| - 1]];
      if NoTicket(log, gone) { assert forall k :: 0 <= k < |init| ==> init[k] == log[k]; }
    }
  }

  predicate NoTicket(log: seq<KotItem>, gone: set<int>) { forall k :: 0 <= k < |log| ==> log[k].itemId !in gone }

  // ---------- Rows ----------

  lemma {:induction false} FindsItem(items: seq<Item>, id: int)
    requires Ordered(items)
    ensures var f := FindItem(items, id);
            && (f.Some? ==> f.value in items && f.value.id == id)
            && (forall it :: it in items && it.id == id ==> f == Some(it))
  {
    if items != [] {
      FindsItem(items[..|items| - 1], id);
      assert items == items[..|items| - 1] + [items[|items| - 1]];
    }
  }

  lemma SameRow(items: seq<Item>, a: Item, b: Item)
    requires Ordered(items) && a in items && b in items && a.id == b.id
    ensures a == b
  {
    FindsItem(items, a.id);
  }

  lemma {:induction false} WithoutRowsAre(items: seq<Item>, gone: set<int>)
    requires Ordered(items)
    ensures Ordered(WithoutRows(items, gone))
    ensures forall it :: it in WithoutRows(items, gone) <==> it in items && it.id !in gone
  {
    if items != [] {
      var init, last := items[..|items| - 1], items[|items| - 1];
      WithoutRowsAre(init, gone);
      assert items == init + [last];
      var rest := WithoutRows(init, gone);
      forall i | 0 <= i < |rest| ensures rest[i].id < last.id { assert rest[i] in init; }
    }
  }

  /** A pending line stands for one row of its order with units left to send. */
  predicate IsPendingLine(items: seq<Item>, log: seq<KotItem>, order: int, l: Line, it: Item) {
    && it in items && it.orderId == order && PendingOf(it, log) > 0
    && l == Line(it.id, PendingOf(it, log), History(log, it.id))
  }

  lemma {:induction false} PendingLinesAre(items: seq<Item>, log: seq<KotItem>, order: int)
    requires Ordered(items)
    ensures Distinct(PendingLines(items, log, order))
    ensures forall l :: l in PendingLines(items, log, order) ==> exists it :: IsPendingLine(items, log, order, l, it)
    ensures forall it :: it in items && it.orderId == order && PendingOf(it, log) > 0 ==>
                           Line(it.id, PendingOf(it, log), History(log, it.id)) in PendingLines(items, log, order)
  {
    if items != [] {
      var init, last := items[..|items| - 1], items[|items| - 1];
      PendingLinesAre(init, log, order);
      assert items == init + [last];
      var earlier := PendingLines(init, log, order);
      forall l | l in earlier ensures (exists it :: IsPendingLine(items, log, order, l, it)) && l.itemId < last.id {
        var it :| IsPendingLine(init, log, order, l, it);
        assert IsPendingLine(items, log, order, l, it);
      }
      forall k | 0 <= k < |earlier| ensures earlier[k].itemId < last.id { assert earlier[k] in earlier; }
      if last.orderId == order && PendingOf(last, log) > 0 {
        assert IsPendingLine(items, log, order, Line(last.id, PendingOf(last, log), History(log, last.id)), last);
      }
    }
  }

  /** The rows a whole-order edit keeps are the order's own. */
  lemma {:induction false} MatchKeepsOwn(items: seq<Item>, order: int, edits: seq<EditLine>)
    ensures var m := Match(items, order, edits);
            && (forall id :: id in m.kept ==> exists it :: it in items && it.id == id && it.orderId == order)
            && |m.created| <= |edits|
            && (forall id :: id in m.kept ==> m.kept[id] in edits)
            && (forall k :: 0 <= k < |m.created| ==> m.created[k] in edits)
  {
    if edits != [] {
      var init := edits[..|edits| - 1];
      MatchKeepsOwn(items, order, init);
      assert edits == init + [edits[|edits| - 1]];
    }
  }

  predicate IsKept(items: seq<Item>, kept: map<int, EditLine>, it: Item) {
    exists old' :: old' in items && old'.id in kept && it == Overwritten(old', kept[old'.id])
  }

  predicate IsCreated(order: int, created: seq<EditLine>, next: int, it: Item) {
    exists k :: 0 <= k < |created| && it == NewItem(order, created[k].line, next + k, created[k].sent)
  }

  predicate IsOther(items: seq<Item>, order: int, kept: map<int, EditLine>, it: Item) {
    it in items && it.id !in kept && it.orderId != order
  }

  lemma OverwriteAre(items: seq<Item>, kept: map<int, EditLine>)
    ensures forall it :: it in items ==> (if it.id in kept then Overwritten(it, kept[it.id]) else it) in Overwrite(items, kept)
    ensures forall it :: it in Overwrite(items, kept) ==> IsKept(items, kept, it) || (it in items && it.id !in kept)
  {
    var over := Overwrite(items, kept);
    forall it | it in items ensures (if it.id in kept then Overwritten(it, kept[it.id]) else it) in over {
      var i :| 0 <= i < |items| && items[i] == it;
      assert over[i] in over;
    }
    forall it | it in over ensures IsKept(items, kept, it) || (it in items && it.id !in kept) {
      var i :| 0 <= i < |over| && over[i] == it;
      assert items[i] in items;
    }
  }

  lemma CreatedRowsAre(order: int, created: seq<EditLine>, next: int)
    ensures forall it :: it in CreatedRows(order, created, next) <==> IsCreated(order, created, next, it)
  {
    var made := CreatedRows(order, created, next);
    forall it ensures it in made <==> IsCreated(order, created, next, it) {
      if IsCreated(order, created, next, it) {
        var k :| 0 <= k < |created| && it == NewItem(order, created[k].line, next + k, created[k].sent);
        assert made[k] == it;
      }
    }
  }

  /** After a whole-order edit: other orders' rows as they were, kept rows overwritten,
      created rows under new ids, and nothing else. */
  lemma UpdateRowsAre(rows: Rows, order: int, edits: seq<EditLine>, next: int)
    requires SoundRows(rows, next)
    ensures var m, after := Match(rows.items, order, edits), UpdateRows(rows, order, edits, next);
            && (forall it :: it in rows.items && it.id in m.kept ==> Overwritten(it, m.kept[it.id]) in after.items)
            && (forall it :: IsOther(rows.items, order, m.kept, it) ==> it in after.items)
            && (forall it :: IsCreated(order, m.created, next, it) ==> it in after.items)
            && (forall it :: it in after.items ==>
                  IsKept(rows.items, m.kept, it) || IsOther(rows.items, order, m.kept, it) || IsCreated(order, m.created, next, it))
  {
    var m := Match(rows.items, order, edits);
    var gone := Dropped(rows.items, order, m.kept);
    WithoutRowsAre(rows.items, gone);
    OverwriteAre(WithoutRows(rows.items, gone), m.kept);
    CreatedRowsAre(order, m.created, next);
    forall it | it in rows.items ensures it.id in gone <==> it.orderId == order && it.id !in m.kept {
      NotDropped(rows.items, order, m.kept, it);
    }
  }

  lemma NotDropped(items: seq<Item>, order: int, kept: map<int, EditLine>, it: Item)
    requires Ordered(items) && it in items
    ensures it.id in Dropped(items, order, kept) <==> it.orderId == order && it.id !in kept
  {
    forall other | other in items && other.id == it.id ensures other == it { SameRow(items, other, it); }
  }

  // ---------- Every transaction keeps the rows sound ----------

  lemma AppendSound(rows: Rows, more: seq<Item>, next: int, next': int)
    requires SoundRows(rows, next) && next <= next' && Ordered(more)
    requires forall i :: 0 <= i < |more| ==> next <= more[i].id < next'
    ensures SoundRows(rows.(items := rows.items + more), next')
  {
    var items := rows.items + more;
    forall i, j | 0 <= i < j < |items| ensures items[i].id < items[j].id {
      if i < |rows.items| <= j { assert rows.items[i] in rows.items; }
    }
    forall it | it in items ensures it.id < next' {}
  }

  lemma RecordBelow(log: seq<KotItem>, kot: int, lines: seq<Line>, next: int)
    requires Below(log, next) && forall k :: 0 <= k < |lines| ==> lines[k].itemId < next
    ensures Below(Record(log, kot, lines), next)
  {}

  lemma ErasedBelow(log: seq<KotItem>, gone: set<int>, next: int)
    requires Below(log, next)
    ensures Below(WithoutHistory(log, gone), next)
  {
    ErasedLength(log, gone);
    var left := WithoutHistory(log, gone);
    forall k | 0 <= k < |left| ensures left[k].itemId < next {
      assert left[k] in log;
    }
  }

  lemma UpdateSound(rows: Rows, order: int, edits: seq<EditLine>, next: int)
    requires SoundRows(rows, next)
    ensures SoundRows(UpdateRows(rows, order, edits, next), next + |edits|)
  {
    var m := Match(rows.items, order, edits);
    var gone := Dropped(rows.items, order, m.kept);
    WithoutRowsAre(rows.items, gone);
    MatchKeepsOwn(rows.items, order, edits);
    ErasedBelow(rows.history, gone, next);
    var over := Overwrite(WithoutRows(rows.items, gone), m.kept);
    assert Ordered(over);
    forall it | it in over ensures it.id < next {
      var i :| 0 <= i < |over| && over[i] == it;
      assert WithoutRows(rows.items, gone)[i] in rows.items;
    }
    AppendSound(rows.(items := over, history := WithoutHistory(rows.history, gone)), CreatedRows(order, m.created, next), next, next + |edits|);
  }

  lemma MappedSound(rows: Rows, items: seq<Item>, next: int)
    requires SoundRows(rows, next) && |items| == |rows.items| && forall i :: 0 <= i < |items| ==> items[i].id == rows.items[i].id
    ensures SoundRows(rows.(items := items), next)
  {
    forall it | it in items ensures it.id < next {
      var i :| 0 <= i < |items| && items[i] == it;
      assert rows.items[i] in rows.items;
    }
  }

  lemma RowsStaySound(rows: Rows, job: Job, updates: nat, next: nat)
    requires SoundRows(rows, next) && SoundJob(job, next)
    ensures SoundRows(RowsAfter(rows, job, updates, next), NextAfter(job, next))
  {
    match job
    case Placing(_, lines, _) => AppendSound(rows, NewItems(next, lines, next + 1), next, next + 1 + |lines|);
    case Adding(order, line) => AppendSound(rows, NewItems(order, [line], next), next, next + 1);
    case Editing(_, item, quantity, notes, seenSent) => MappedSound(rows, EditRows(rows.items, item, quantity, notes, Min(seenSent, quantity)), next);
    case Removing(_, item) =>
      WithoutRowsAre(rows.items, {item});
      ErasedBelow(rows.history, {item}, next);
    case Updating(order, edits) => UpdateSound(rows, order, edits, next);
    case Ticketing(_, sends, auto) =>
      if LinesPresent(rows.items, sends) {
        MappedSound(rows, MarkSent(rows.items, Marked(sends, auto, updates)), next);
        RecordBelow(rows.history, next, sends, next);
        RecordBelow(rows.printed, next, sends, next);
      }
    case Merging(_, target, moved, _, _, _) => MappedSound(rows, MoveRows(rows.items, moved, target), next);
    case _ =>
  }

  lemma StartSound(db: Db, r: Request)
    requires Sound(db) && Start(db, r).Some?
    ensures SoundJob(Start(db, r).value, db.next)
  {
    match r
    case SendTicket(order) =>
      PendingLinesAre(db.rows.items, db.rows.history, order);
      var sends := PendingLines(db.rows.items, db.rows.history, order);
      forall k | 0 <= k < |sends| ensures sends[k].itemId < db.next {
        assert sends[k] in sends;
        var it :| IsPendingLine(db.rows.items, db.rows.history, order, sends[k], it);
      }
    case EditItem(_, item, _, _) => FindsItem(db.rows.items, item);
    case _ =>
  }

  lemma JobStaysSound(job: Job, next: int, next': int)
    requires SoundJob(job, next) && next <= next'
    ensures SoundJob(job, next')
  {}

  lemma FollowUpSound(db: Db, job: Job)
    requires FollowUp(db, job).Some?
    ensures SoundJob(FollowUp(db, job).value, NextAfter(job, db.next))
  {}

  lemma SoundStep(db: Db, e: Event)
    requires Sound(db)
    ensures Sound(Apply(db, e))
  {
    match e
    case Begin(w, r) => if Start(db, r).Some? { StartSound(db, r); }
    case Commit(w, updates) =>
      if w in db.jobs {
        var job, db' := db.jobs[w], Apply(db, e);
        RowsStaySound(db.rows, job, updates, db.next);
        if FollowUp(db, job).Some? { FollowUpSound(db, job); }
        forall v | v in db'.jobs && v != w ensures SoundJob(db'.jobs[v], db'.next) { JobStaysSound(db.jobs[v], db.next, db'.next); }
      }
    case Crash(w) =>
  }

  lemma {:induction false} SoundRun(db: Db, es: seq<Event>)
    requires Sound(db)
    ensures Sound(Run(db, es))
  {
    if es != [] {
      SoundRun(db, es[..|es| - 1]);
      SoundStep(Run(db, es[..|es| - 1]), es[|es| - 1]);
    }
  }
}

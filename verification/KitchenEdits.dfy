/** What a whole-order edit leaves: the lines asked for, what each inherits, and which
    rows go on. */
module KitchenEdits {
  import opened Prelude
  import opened KitchenLedger
  import opened KitchenRows
  import opened KitchenRuns

  // ---------- What a line inherits ----------

  predicate OwnRow(it: Item, order: int, dish: int) { it.orderId == order && it.menuItemId == dish }

  /** `own` lists the rows the order has of the dish. */
  ghost predicate RowsOf(own: seq<Item>, items: seq<Item>, order: int, dish: int) {
    Ordered(own) && forall it :: it in own <==> it in items && OwnRow(it, order, dish)
  }

  function Sents(own: seq<Item>): seq<int> { seq(|own|, i requires 0 <= i < |own| => own[i].sent) }

  lemma FirstRowsOf(own: seq<Item>, items: seq<Item>, order: int, dish: int)
    requires Ordered(items) && items != [] && RowsOf(own, items, order, dish)
    ensures var init, last := items[..|items| - 1], items[|items| - 1];
            if OwnRow(last, order, dish) then own != [] && own[|own| - 1] == last && RowsOf(own[..|own| - 1], init, order, dish)
            else RowsOf(own, init, order, dish)
  {
    var init, last := items[..|items| - 1], items[|items| - 1];
    forall it ensures it in items <==> it in init || it == last { MembersNext(items, it); }
    forall it | it in init ensures it.id < last.id {
      var i :| 0 <= i < |init| && init[i] == it;
    }
    if OwnRow(last, order, dish) {
      LastOf(own, last);
      forall it ensures it in own <==> it in own[..|own| - 1] || it == last { MembersNext(own, it); }
    }
  }

  lemma MembersNext(items: seq<Item>, it: Item)
    requires items != []
    ensures it in items <==> it in items[..|items| - 1] || it == items[|items| - 1]
  {
    assert items == items[..|items| - 1] + [items[|items| - 1]];
  }

  lemma LastOf(own: seq<Item>, last: Item)
    requires Ordered(own) && last in own && forall it :: it in own ==> it.id <= last.id
    ensures own[|own| - 1] == last
    ensures last !in own[..|own| - 1]
  {
    var k :| 0 <= k < |own| && own[k] == last;
    assert own[|own| - 1] in own;
  }

  lemma EmptyIff(own: seq<Item>)
    ensures own == [] <==> forall it: Item :: it !in own
  {
    if own != [] { assert own[0] in own; }
  }

  lemma {:induction false} SentSumIs(own: seq<Item>, items: seq<Item>, order: int, dish: int)
    requires Ordered(items) && RowsOf(own, items, order, dish)
    ensures SentSum(items, order, dish) == Sum(Sents(own))
  {
    if items == [] {
      EmptyIff(own);
    } else {
      var init, last := items[..|items| - 1], items[|items| - 1];
      FirstRowsOf(own, items, order, dish);
      if OwnRow(last, order, dish) {
        SentSumIs(own[..|own| - 1], init, order, dish);
        assert Sents(own)[..|own| - 1] == Sents(own[..|own| - 1]);
      } else {
        SentSumIs(own, init, order, dish);
      }
    }
  }

  // ---------- Which row a line is written to ----------

  predicate HasKey(it: Item, order: int, line: NewLine) {
    it.orderId == order && it.menuItemId == line.menuItemId && it.notes == line.notes
  }

  lemma {:induction false} FirstMatchIs(items: seq<Item>, order: int, line: NewLine, taken: set<int>)
    requires Ordered(items)
    ensures var id := FirstMatch(items, order, line, taken);
            && (id.None? ==> forall it :: it in items && HasKey(it, order, line) ==> it.id in taken)
            && (id.Some? ==> forall it :: it in items && HasKey(it, order, line) && it.id < id.value ==> it.id in taken)
  {
    if items != [] {
      FirstMatchIs(items[..|items| - 1], order, line, taken);
      assert items == items[..|items| - 1] + [items[|items| - 1]];
    }
  }

  predicate KeepsKey(items: seq<Item>, order: int, id: int, e: EditLine) {
    exists it :: it in items && it.id == id && HasKey(it, order, e.line)
  }

  /** Kept rows have their line's dish and note, earlier ones of the same are kept too,
      and a line makes a new row only when none is left. */
  ghost predicate MatchesInOrder(items: seq<Item>, order: int, m: Matching) {
    && (forall id :: id in m.kept ==> KeepsKey(items, order, id, m.kept[id]))
    && (forall id, it :: id in m.kept && it in items && HasKey(it, order, m.kept[id].line) && it.id < id ==> it.id in m.kept)
    && (forall k, it :: 0 <= k < |m.created| && it in items && HasKey(it, order, m.created[k].line) ==> it.id in m.kept)
  }

  lemma {:induction false} MatchIs(items: seq<Item>, order: int, edits: seq<EditLine>)
    requires Ordered(items)
    ensures MatchesInOrder(items, order, Match(items, order, edits))
  {
    if edits != [] {
      var before, e := Match(items, order, edits[..|edits| - 1]), edits[|edits| - 1];
      MatchIs(items, order, edits[..|edits| - 1]);
      FirstMatchIs(items, order, e.line, before.kept.Keys);
      var id := FirstMatch(items, order, e.line, before.kept.Keys);
      if id.Some? {
        assert KeepsKey(items, order, id.value, e);
      }
    }
  }

  // ---------- The order's lines ----------

  function AsLine(it: Item): NewLine { NewLine(it.menuItemId, it.notes, it.price, it.quantity) }

  function LinesOf(items: seq<Item>, order: int): multiset<NewLine> {
    if items == [] then multiset{}
    else
      var last := items[|items| - 1];
      LinesOf(items[..|items| - 1], order) + (if last.orderId == order then multiset{AsLine(last)} else multiset{})
  }

  function LinesIn(edits: seq<EditLine>): multiset<NewLine> {
    if edits == [] then multiset{} else LinesIn(edits[..|edits| - 1]) + multiset{edits[|edits| - 1].line}
  }

  function KeptLines(items: seq<Item>, kept: map<int, EditLine>): multiset<NewLine> {
    if items == [] then multiset{}
    else
      var last := items[|items| - 1];
      KeptLines(items[..|items| - 1], kept) + (if last.id in kept then multiset{kept[last.id].line} else multiset{})
  }

  lemma {:induction false} LinesAppend(a: seq<Item>, b: seq<Item>, order: int)
    ensures LinesOf(a + b, order) == LinesOf(a, order) + LinesOf(b, order)
  {
    if b == [] {
      assert a + b == a;
    } else {
      assert (a + b)[..|a + b| - 1] == a + b[..|b| - 1];
      LinesAppend(a, b[..|b| - 1], order);
    }
  }

  lemma {:induction false} CreatedLines(order: int, created: seq<EditLine>, next: int)
    ensures LinesOf(CreatedRows(order, created, next), order) == LinesIn(created)
  {
    if created != [] {
      var init := created[..|created| - 1];
      CreatedLines(order, init, next);
      assert CreatedRows(order, created, next)[..|created| - 1] == CreatedRows(order, init, next);
    }
  }

  lemma {:induction false} KeptAbsent(items: seq<Item>, kept: map<int, EditLine>, id: int, e: EditLine)
    requires forall it :: it in items ==> it.id != id
    ensures KeptLines(items, kept[id := e]) == KeptLines(items, kept)
  {
    if items != [] {
      assert items[|items| - 1] in items;
      KeptAbsent(items[..|items| - 1], kept, id, e);
    }
  }

  lemma {:induction false} KeptOneMore(items: seq<Item>, kept: map<int, EditLine>, id: int, e: EditLine)
    requires Ordered(items) && HasItem(items, id) && id !in kept
    ensures KeptLines(items, kept[id := e]) == KeptLines(items, kept) + multiset{e.line}
  {
    var init, last := items[..|items| - 1], items[|items| - 1];
    assert items == init + [last];
    if last.id == id {
      forall it | it in init ensures it.id != id {
        var i :| 0 <= i < |init| && init[i] == it;
        assert items[i].id < last.id;
      }
      KeptAbsent(init, kept, id, e);
    } else {
      KeptOneMore(init, kept, id, e);
    }
  }

  lemma {:induction false} KeptNothing(items: seq<Item>)
    ensures KeptLines(items, map[]) == multiset{}
  {
    if items != [] { KeptNothing(items[..|items| - 1]); }
  }

  /** Every line goes to exactly one row, kept or created. */
  lemma {:induction false} MatchTakesEveryLine(items: seq<Item>, order: int, edits: seq<EditLine>)
    requires Ordered(items)
    ensures var m := Match(items, order, edits); KeptLines(items, m.kept) + LinesIn(m.created) == LinesIn(edits)
  {
    if edits == [] {
      KeptNothing(items);
    } else {
      var before, e := Match(items, order, edits[..|edits| - 1]), edits[|edits| - 1];
      MatchTakesEveryLine(items, order, edits[..|edits| - 1]);
      var id := FirstMatch(items, order, e.line, before.kept.Keys);
      if id.Some? {
        KeptOneMore(items, before.kept, id.value, e);
      } else {
        assert (before.created + [e])[..|before.created|] == before.created;
      }
    }
  }

  /** The rows the order keeps, overwritten, say what was asked of them. */
  lemma {:induction false} OverwrittenLines(items: seq<Item>, order: int, kept: map<int, EditLine>, gone: set<int>)
    requires forall it :: it in items ==> (it.id in gone <==> it.orderId == order && it.id !in kept)
    requires forall it :: it in items && it.id in kept ==> HasKey(it, order, kept[it.id].line)
    ensures LinesOf(Overwrite(WithoutRows(items, gone), kept), order) == KeptLines(items, kept)
  {
    if items != [] {
      var init, last := items[..|items| - 1], items[|items| - 1];
      assert items == init + [last];
      OverwrittenLines(init, order, kept, gone);
      var rest := WithoutRows(init, gone);
      if last.id !in gone {
        var row := if last.id in kept then Overwritten(last, kept[last.id]) else last;
        assert Overwrite(rest + [last], kept) == Overwrite(rest, kept) + [row];
        LinesAppend(Overwrite(rest, kept), [row], order);
        assert [row][..0] == [] && LinesOf([], order) == multiset{};
      } else {
        assert rest + [] == rest;
      }
    }
  }

  lemma {:induction false} EditLinesSay(edits: seq<EditLine>, lines: seq<NewLine>)
    requires |edits| == |lines| && forall k :: 0 <= k < |lines| ==> edits[k].line == lines[k]
    ensures LinesIn(edits) == multiset(lines)
  {
    if lines != [] {
      EditLinesSay(edits[..|edits| - 1], lines[..|lines| - 1]);
      assert lines == lines[..|lines| - 1] + [lines[|lines| - 1]];
    }
  }

  lemma KeptHaveKeys(items: seq<Item>, order: int, m: Matching)
    requires Ordered(items) && MatchesInOrder(items, order, m)
    ensures forall it :: it in items && it.id in m.kept ==> HasKey(it, order, m.kept[it.id].line)
  {
    forall it | it in items && it.id in m.kept ensures HasKey(it, order, m.kept[it.id].line) {
      var other :| other in items && other.id == it.id && HasKey(other, order, m.kept[it.id].line);
      SameRow(items, it, other);
    }
  }

  lemma UpdatedLines(rows: Rows, order: int, edits: seq<EditLine>, next: int)
    requires SoundRows(rows, next)
    ensures LinesOf(UpdateRows(rows, order, edits, next).items, order) == LinesIn(edits)
  {
    var m := Match(rows.items, order, edits);
    var gone := Dropped(rows.items, order, m.kept);
    MatchIs(rows.items, order, edits);
    KeptHaveKeys(rows.items, order, m);
    forall it | it in rows.items ensures it.id in gone <==> it.orderId == order && it.id !in m.kept {
      NotDropped(rows.items, order, m.kept, it);
    }
    OverwrittenLines(rows.items, order, m.kept, gone);
    CreatedLines(order, m.created, next);
    LinesAppend(Overwrite(WithoutRows(rows.items, gone), m.kept), CreatedRows(order, m.created, next), order);
    MatchTakesEveryLine(rows.items, order, edits);
  }

  // ---------- A whole-order edit, undisturbed ----------

  ghost function Edited(db: Db, w: int, order: int, lines: seq<NewLine>): Rows { Alone(db, w, UpdateOrder(order, lines)).rows }

  lemma EditedIs(db: Db, w: int, order: int, lines: seq<NewLine>)
    requires Sound(db) && w !in db.jobs && Start(db, UpdateOrder(order, lines)).Some?
    ensures Edited(db, w, order, lines) == UpdateRows(db.rows, order, EditLines(db.rows.items, order, lines), db.next)
  {
    Unfold(db, w, UpdateOrder(order, lines));
  }

  /** Afterwards the order's rows say what the request asked for, line for line, with its
      notes, prices and quantities; the rows of other orders are as they were. */
  lemma WholeEditLeavesTheLines(db: Db, w: int, order: int, lines: seq<NewLine>)
    requires Sound(db) && w !in db.jobs && Start(db, UpdateOrder(order, lines)).Some?
    ensures LinesOf(Edited(db, w, order, lines).items, order) == multiset(lines)
    ensures forall it: Item :: it.orderId != order ==> (it in Edited(db, w, order, lines).items <==> it in db.rows.items)
  {
    var edits := EditLines(db.rows.items, order, lines);
    EditedIs(db, w, order, lines);
    UpdatedLines(db.rows, order, edits, db.next);
    EditLinesSay(edits, lines);
    UpdateRowsAre(db.rows, order, edits, db.next);
    MatchKeepsOwn(db.rows.items, order, edits);
    OthersStay(db.rows, order, edits, db.next);
  }

  lemma OthersStay(rows: Rows, order: int, edits: seq<EditLine>, next: int)
    requires SoundRows(rows, next)
    ensures forall it: Item :: it.orderId != order ==> (it in UpdateRows(rows, order, edits, next).items <==> it in rows.items)
  {
    var m, after := Match(rows.items, order, edits), UpdateRows(rows, order, edits, next);
    UpdateRowsAre(rows, order, edits, next);
    MatchKeepsOwn(rows.items, order, edits);
    forall it: Item | it.orderId != order ensures it in after.items <==> it in rows.items {
      if it in rows.items && it.id in m.kept {
        var own :| own in rows.items && own.id == it.id && own.orderId == order;
        SameRow(rows.items, it, own);
      }
      if it in after.items && IsKept(rows.items, m.kept, it) { KeptIsOwn(rows.items, order, edits, it); }
    }
  }

  lemma KeptIsOwn(items: seq<Item>, order: int, edits: seq<EditLine>, it: Item)
    requires Ordered(items) && IsKept(items, Match(items, order, edits).kept, it)
    ensures it.orderId == order
  {
    var m := Match(items, order, edits);
    MatchKeepsOwn(items, order, edits);
    var was :| was in items && was.id in m.kept && it == Overwritten(was, m.kept[was.id]);
    var own :| own in items && own.id == was.id && own.orderId == order;
    SameRow(items, was, own);
  }

  /** A row of the order after the edit was written from one of the edit's lines. */
  lemma WrittenFrom(rows: Rows, order: int, edits: seq<EditLine>, next: int, it: Item) returns (e: EditLine)
    requires SoundRows(rows, next) && it in UpdateRows(rows, order, edits, next).items && it.orderId == order
    ensures e in edits && AsLine(it) == e.line && it.sent == e.sent
    ensures var m := Match(rows.items, order, edits);
            if it.id < next then it.id in m.kept && m.kept[it.id] == e else e in m.created
  {
    var m := Match(rows.items, order, edits);
    UpdateRowsAre(rows, order, edits, next);
    MatchKeepsOwn(rows.items, order, edits);
    MatchIs(rows.items, order, edits);
    KeptHaveKeys(rows.items, order, m);
    if IsKept(rows.items, m.kept, it) {
      e := m.kept[it.id];
    } else {
      assert IsCreated(order, m.created, next, it);
      var k :| 0 <= k < |m.created| && it == NewItem(order, m.created[k].line, next + k, m.created[k].sent);
      e := m.created[k];
    }
  }

  /** Each of them inherits what the order's own rows of the dish were sent, added up, up
      to its quantity; rows of other orders do not matter. */
  lemma WholeEditInherits(db: Db, w: int, order: int, lines: seq<NewLine>, it: Item, own: seq<Item>)
    requires Sound(db) && w !in db.jobs && Start(db, UpdateOrder(order, lines)).Some?
    requires it in Edited(db, w, order, lines).items && it.orderId == order
    requires RowsOf(own, db.rows.items, order, it.menuItemId)
    ensures it.sent == Min(Sum(Sents(own)), it.quantity)
    ensures own == [] ==> it.sent == if it.quantity < 0 then it.quantity else 0
    ensures |own| == 1 ==> it.sent == if own[0].sent < it.quantity then own[0].sent else it.quantity
    ensures |own| == 2 ==> it.sent == if own[0].sent + own[1].sent < it.quantity then own[0].sent + own[1].sent else it.quantity
  {
    EditedIs(db, w, order, lines);
    var e := WrittenFrom(db.rows, order, EditLines(db.rows.items, order, lines), db.next, it);
    SentSumIs(own, db.rows.items, order, it.menuItemId);
    FewSents(own);
  }

  lemma FewSents(own: seq<Item>)
    ensures own == [] ==> Sum(Sents(own)) == 0
    ensures |own| == 1 ==> Sum(Sents(own)) == own[0].sent
    ensures |own| == 2 ==> Sum(Sents(own)) == own[0].sent + own[1].sent
  {
    if |own| == 1 { assert Sents(own)[..0] == []; }
    if |own| == 2 {
      assert Sents(own)[..1] == [own[0].sent] && [own[0].sent][..0] == [];
      assert Sum([own[0].sent]) == own[0].sent;
    }
  }

  /** The rows that go on are matched by dish and note, the earliest first, and keep their
      tickets; a row is created only when none with its dish and note is left. */
  lemma WholeEditKeepsMatching(db: Db, w: int, order: int, lines: seq<NewLine>, it: Item)
    requires Sound(db) && w !in db.jobs && Start(db, UpdateOrder(order, lines)).Some?
    requires it in Edited(db, w, order, lines).items && it.orderId == order
    ensures var after := Edited(db, w, order, lines);
            && (it.id < db.next ==>
                  exists was :: was in db.rows.items && was.id == it.id && HasKey(was, order, AsLine(it)))
            && (it.id < db.next ==> History(after.history, it.id) == History(db.rows.history, it.id))
            && (forall was :: was in db.rows.items && HasKey(was, order, AsLine(it)) && (it.id >= db.next || was.id < it.id) ==>
                  HasItem(after.items, was.id))
  {
    var edits := EditLines(db.rows.items, order, lines);
    var rows, m := db.rows, Match(db.rows.items, order, edits);
    EditedIs(db, w, order, lines);
    var after := Edited(db, w, order, lines);
    var e := WrittenFrom(rows, order, edits, db.next, it);
    MatchIs(rows.items, order, edits);
    if it.id < db.next {
      assert KeepsKey(rows.items, order, it.id, e);
      var was :| was in rows.items && was.id == it.id && HasKey(was, order, e.line);
      KeepsTickets(rows, order, edits, db.next, was);
    } else {
      var k :| 0 <= k < |m.created| && m.created[k] == e;
    }
    forall was | was in rows.items && HasKey(was, order, AsLine(it)) && (it.id >= db.next || was.id < it.id)
      ensures HasItem(after.items, was.id)
    {
      assert was.id in m.kept;
      UpdateRowsAre(rows, order, edits, db.next);
      assert Overwritten(was, m.kept[was.id]) in after.items;
    }
  }

  lemma KeepsTickets(rows: Rows, order: int, edits: seq<EditLine>, next: int, was: Item)
    requires SoundRows(rows, next) && was in rows.items && was.id in Match(rows.items, order, edits).kept
    ensures History(UpdateRows(rows, order, edits, next).history, was.id) == History(rows.history, was.id)
  {
    var m := Match(rows.items, order, edits);
    NotDropped(rows.items, order, m.kept, was);
    ErasedAt(rows.history, Dropped(rows.items, order, m.kept), was.id);
  }
}

/** The stock of an order merged into another. */
module StockMerges {
  import opened Prelude
  import opened Inventory
  import opened StockRuns
  import opened StockReturns

  predicate NoJobOn(db: Db, o: int) { forall w :: w in db.jobs ==> db.jobs[w].request.order != o }

  /** No request that could make the order restorable again. */
  predicate LeavesAlone(es: seq<Event>, o: int) { forall e :: e in es && e.Begin? ==> e.request != Delete(o) && e.request != Reopen(o) }

  predicate Waiting(s: Store, o: int) { o in s.claims && s.claims[o].cancelled && !s.claims[o].restored }

  lemma OtherLands(s0: Store, s: Store, job: Job, o: int, m: int)
    requires JobOk(s0, job) && job.request.order != o && o in s.claims
    ensures o in Land(s, job).claims && Land(s, job).claims[o] == s.claims[o]
    ensures Net(Land(s, job).log, o, m) == Net(s.log, o, m)
  {
    LandNet(s0, s, job, o, m);
  }

  lemma WaitingStep(s0: Store, db: Db, e: Event, o: int, m: int)
    requires Kept(s0, db) && Waiting(db.store, o) && NoJobOn(db, o) && (e.Begin? ==> e.request != Delete(o) && e.request != Reopen(o))
    ensures Waiting(Apply(db, e).store, o) && NoJobOn(Apply(db, e), o)
    ensures Net(Apply(db, e).store.log, o, m) == Net(db.store.log, o, m)
  {
    match e
    case Begin(w, r) => assert MayStart(db.store, r) ==> r.order != o;
    case Commit(w) => if Committing(db, e) { OtherLands(s0, db.store, db.jobs[w], o, m); }
    case _ =>
  }

  /** A source stays cancelled and unrestored, and nothing moves under its id, until it is
      deleted or its merge is split. */
  lemma {:induction false} SourceStays(db: Db, es: seq<Event>, o: int, m: int)
    requires Kept(db.store, db) && Waiting(db.store, o) && NoJobOn(db, o) && LeavesAlone(es, o)
    ensures Waiting(Run(db, es).store, o) && NoJobOn(Run(db, es), o)
    ensures Net(Run(db, es).store.log, o, m) == Net(db.store.log, o, m)
  {
    if es != [] {
      assert es[|es| - 1] in es;
      SourceStays(db, es[..|es| - 1], o, m);
      KeptRun(db, es[..|es| - 1]);
      WaitingStep(db.store, Run(db, es[..|es| - 1]), es[|es| - 1], o, m);
    }
  }

  /** Every other order's stock has gone back. */
  predicate OthersBack(s: Store, kept: set<int>) { forall o :: o in s.claims && o !in kept ==> s.claims[o].restored }

  lemma {:induction false} OutOfOne(log: seq<Movement>, claims: map<int, Claim>, o: int, m: int)
    requires o in claims && !claims[o].restored && forall p :: p in claims && p != o ==> claims[p].restored
    requires forall k :: 0 <= k < |log| ==> log[k].order in claims && (log[k].kind == RESTORED ==> claims[log[k].order].restored)
    ensures OutOn(log, claims, m) == -Net(log, o, m)
  {
    if log != [] { OutOfOne(log[..|log| - 1], claims, o, m); }
  }

  lemma {:induction false} OutOfTwo(log: seq<Movement>, claims: map<int, Claim>, o: int, p: int, m: int)
    requires o != p && o in claims && !claims[o].restored && p in claims && !claims[p].restored
    requires forall q :: q in claims && q != o && q != p ==> claims[q].restored
    requires forall k :: 0 <= k < |log| ==> log[k].order in claims && (log[k].kind == RESTORED ==> claims[log[k].order].restored)
    ensures OutOn(log, claims, m) == -Net(log, o, m) - Net(log, p, m)
  {
    if log != [] { OutOfTwo(log[..|log| - 1], claims, o, p, m); }
  }

  /** What the shelf holds with everything returned. */
  function Whole(s: Store, m: int): int { Level(s, m) + OutOn(s.log, s.claims, m) }

  /** Over every interleaving whose commits are square, with any edits and the cancel of
      the target: once every other order's stock is back, the shelf is short of the whole
      by exactly what the merged-away order had taken. */
  lemma MergedReservationStaysOut(db: Db, es: seq<Event>, source: int)
    requires Kept(db.store, db) && AllSquare(db, es)
    requires Waiting(db.store, source) && NoJobOn(db, source) && LeavesAlone(es, source)
    requires OthersBack(Run(db, es).store, {source})
    ensures forall m :: Tracked(db.store, m) ==> Level(Run(db, es).store, m) == Whole(db.store, m) + Net(db.store.log, source, m)
  {
    var end := Run(db, es).store;
    KeptRun(db, es);
    SquareKeeps(db, es, |es|);
    assert es[..|es|] == es;
    forall m | Tracked(db.store, m) ensures Level(end, m) == Whole(db.store, m) + Net(db.store.log, source, m) {
      SourceStays(db, es, source, m);
      OutOfOne(end.log, end.claims, source, m);
      assert AccountedAt(db.store, end, m) && Tracked(end, m);
    }
  }

  // ---------- Editing a line that moved with the merge ----------

  lemma AdjustedAt(s: Store, order: int, m: int, q: int)
    requires Tracked(s, m) && Level(s, m) >= 0 && q > 0 && order in s.claims && !s.claims[order].cancelled
    ensures var s' := Perform(s, Adjust(order, [Change(m, q)]));
            && Tracked(s', m) && Level(s', m) == Level(s, m) + q && s'.claims == s.claims
            && Net(s'.log, order, m) == Net(s.log, order, m) + q
  {
    var c := Change(m, q);
    assert [c][..0] == [] && ApplyAll(s, order, UPDATED, []) == s;
    assert ApplyAll(s, order, UPDATED, [c]) == ApplyDelta(s, order, UPDATED, c);
    NetNext(s.log, Movement(m, order, UPDATED, q), order, m);
  }

  lemma CancelledAt(s: Store, order: int, m: int)
    requires Tracked(s, m) && Level(s, m) >= 0 && Restorable(s, order) && !s.claims[order].cancelled
    ensures Level(Perform(s, Cancel(order)), m) == Max(0, Level(s, m) - Net(s.log, order, m))
  {
    var flagged := Flagged(s, Cancel(order));
    RestoreAt(flagged, order, 0, m);
  }

  lemma EditThenCancel(s: Store, order: int, m: int, q: int)
    requires Restorable(s, order) && !s.claims[order].cancelled && Tracked(s, m) && Level(s, m) >= 0 && q > 0
    ensures var edited := Perform(s, Adjust(order, [Change(m, q)]));
            && Level(edited, m) == Level(s, m) + q
            && Level(Perform(edited, Cancel(order)), m) == Max(0, Level(s, m) - Net(s.log, order, m))
  {
    var edited := Perform(s, Adjust(order, [Change(m, q)]));
    AdjustedAt(s, order, m, q);
    CancelledAt(edited, order, m);
  }

  lemma WholeOfTwo(s: Store, source: int, target: int, m: int)
    requires Known(s) && source != target && source in s.claims && !s.claims[source].restored
    requires target in s.claims && !s.claims[target].restored && OthersBack(s, {source, target})
    ensures Level(s, m) == Whole(s, m) + Net(s.log, source, m) + Net(s.log, target, m)
  {
    OutOfTwo(s.log, s.claims, source, target, m);
  }

  /** Removing or reducing a moved line on the target puts its units on the shelf under
      the target's id.  They are the source's exactly so far as the target had fewer out
      itself; cancelling the target takes those out again. */
  lemma EditOfMovedLine(s: Store, source: int, target: int, m: int, q: int)
    requires Known(s) && source != target && source in s.claims && !s.claims[source].restored
    requires Restorable(s, target) && !s.claims[target].cancelled && OthersBack(s, {source, target})
    requires Tracked(s, m) && Level(s, m) >= 0 && q > 0
    ensures var short := Whole(s, m) + Net(s.log, source, m);
            var edited := Perform(s, Adjust(target, [Change(m, q)]));
            && Level(s, m) == short + Net(s.log, target, m)
            && Level(edited, m) == Level(s, m) + q
            && (Level(edited, m) > short <==> q > -Net(s.log, target, m))
            && Level(Perform(edited, Cancel(target)), m) == Max(0, short)
  {
    WholeOfTwo(s, source, target, m);
    EditThenCancel(s, target, m, q);
  }

  /** The one request on the merged-away order itself that returns its units is its
      deletion: it puts exactly its net back, short only where zero stops it. */
  lemma DeletionReturnsTheSource(s: Store, source: int, m: int)
    requires Waiting(s, source) && s.claims[source].deducted && !s.claims[source].deleted && Tracked(s, m) && Level(s, m) >= 0
    ensures Level(Perform(s, Delete(source)), m) == Max(0, Level(s, m) - Net(s.log, source, m))
    ensures forall r :: r == Cancel(source) || r == StatusCancel(source) || (r.Adjust? && r.order == source) ==> Perform(s, r) == s
  {
    RestoreAt(Flagged(s, Delete(source)), source, 0, m);
  }
}

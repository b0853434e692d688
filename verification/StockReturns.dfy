/** What orders took and gave back, over whole runs. */
module StockReturns {
  import opened Inventory
  import opened StockRuns

  // ---------- Movements belong to orders ----------

  /** Every movement names a known order, and a restoration its restored flag. */
  predicate Known(s: Store) {
    forall k :: 0 <= k < |s.log| ==> s.log[k].order in s.claims && (s.log[k].kind == RESTORED ==> s.claims[s.log[k].order].restored)
  }

  /** No order is forgotten and no restoration undone. */
  predicate ClaimsGrow(s: Store, s': Store) {
    forall o :: o in s.claims ==> o in s'.claims && (s.claims[o].restored ==> s'.claims[o].restored)
  }

  ghost predicate Kept(s0: Store, db: Db) { Sound(s0, db) && Known(db.store) }

  lemma LandClaims(s: Store, job: Job)
    ensures ClaimsGrow(s, Land(s, job))
    ensures Lands(s, job.request) && Restores(job.request) ==> Land(s, job).claims[job.request.order].restored
  {}

  lemma LandKnown(s0: Store, s: Store, job: Job)
    requires JobOk(s0, job) && Known(s)
    ensures Known(Land(s, job))
  {
    LandClaims(s, job);
    var s' := Land(s, job);
    forall k | 0 <= k < |s'.log| ensures s'.log[k].order in s'.claims && (s'.log[k].kind == RESTORED ==> s'.claims[s'.log[k].order].restored) {
      if k < |s.log| { assert s'.log[k] == s.log[k]; } else { assert s'.log[k] == job.moves[k - |s.log|]; }
    }
  }

  lemma KeptStep(s0: Store, db: Db, e: Event)
    requires Kept(s0, db)
    ensures Kept(s0, Apply(db, e))
  {
    SoundStep(s0, db, e);
    if Committing(db, e) { LandKnown(s0, db.store, db.jobs[e.worker]); }
  }

  lemma {:induction false} KeptRun(db: Db, es: seq<Event>)
    requires Kept(db.store, db)
    ensures Kept(db.store, Run(db, es))
  {
    if es != [] {
      KeptRun(db, es[..|es| - 1]);
      KeptStep(db.store, Run(db, es[..|es| - 1]), es[|es| - 1]);
    }
  }

  lemma {:induction false} NetTogether(a: seq<Movement>, b: seq<Movement>, o: int, m: int)
    ensures Net(a + b, o, m) == Net(a, o, m) + Net(b, o, m)
  {
    if b == [] {
      assert a + b == a;
    } else {
      NetTogether(a, b[..|b| - 1], o, m);
      assert (a + b)[..|a + b| - 1] == a + b[..|b| - 1];
    }
  }

  lemma {:induction false} NetOfMoves(moves: seq<Movement>, order: int, kind: Kind, o: int, m: int)
    requires forall k :: 0 <= k < |moves| ==> moves[k].order == order && moves[k].kind == kind
    ensures Net(moves, o, m) == if o == order && kind != RESTORED then Moved(moves, m) else 0
  {
    if moves != [] { NetOfMoves(moves[..|moves| - 1], order, kind, o, m); }
  }

  lemma {:induction false} NoNet(log: seq<Movement>, o: int, m: int)
    requires forall k :: 0 <= k < |log| ==> log[k].order != o
    ensures Net(log, o, m) == 0
  {
    if log != [] { NoNet(log[..|log| - 1], o, m); }
  }

  lemma LandNet(s0: Store, s: Store, job: Job, o: int, m: int)
    requires JobOk(s0, job)
    ensures Net(Land(s, job).log, o, m) == Net(s.log, o, m) +
              (if Lands(s, job.request) && o == job.request.order && !Restores(job.request) then Moved(job.moves, m) else 0)
  {
    if Lands(s, job.request) {
      NetTogether(s.log, job.moves, o, m);
      NetOfMoves(job.moves, job.request.order, KindOf(job.request), o, m);
    }
  }

  // ---------- When an order returns more than it took ----------

  ghost predicate NoOverpaid(s: Store) { forall o, m :: Net(s.log, o, m) <= 0 }

  /** An edit hands back no more of an item than the order has out when it commits. */
  predicate Within(s: Store, job: Job) {
    Lands(s, job.request) && job.request.Adjust? ==>
      forall i :: 0 <= i < |job.plan| && job.plan[i].delta > 0 && Tracked(s, job.plan[i].item) ==>
        job.plan[i].delta <= -Net(s.log, job.request.order, job.plan[i].item)
  }

  lemma WithinAt(s0: Store, s: Store, job: Job, o: int, m: int)
    requires JobOk(s0, job) && Ready(job) && SameTracked(s0, s) && Known(s) && NoOverpaid(s) && Within(s, job)
    ensures Net(Land(s, job).log, o, m) <= 0
  {
    LandNet(s0, s, job, o, m);
    if Lands(s, job.request) && o == job.request.order && !Restores(job.request) {
      if job.request.Place? {
        NoNet(s.log, o, m);
      } else {
        var items := ItemsOf(job.plan);
        assert items[..job.at] == items;
        if m in items {
          var i :| 0 <= i < |items| && items[i] == m;
          assert AnsweredAt(s0, job, i);
        }
      }
    }
  }

  lemma OverpaidNeeds(s0: Store, s: Store, job: Job)
    requires JobOk(s0, job) && Ready(job) && SameTracked(s0, s) && NoOverpaid(Land(s, job))
    ensures Within(s, job)
  {
    if Lands(s, job.request) && job.request.Adjust? {
      forall i | 0 <= i < |job.plan| && job.plan[i].delta > 0 && Tracked(s, job.plan[i].item)
        ensures job.plan[i].delta <= -Net(s.log, job.request.order, job.plan[i].item)
      {
        assert AnsweredAt(s0, job, i);
        LandNet(s0, s, job, job.request.order, job.plan[i].item);
        assert Net(Land(s, job).log, job.request.order, job.plan[i].item) <= 0;
      }
    }
  }

  predicate StepWithin(db: Db, e: Event) { Committing(db, e) ==> Within(db.store, db.jobs[e.worker]) }

  lemma StepOverpaidIff(s0: Store, db: Db, e: Event)
    requires Kept(s0, db) && NoOverpaid(db.store)
    ensures NoOverpaid(Apply(db, e).store) <==> StepWithin(db, e)
  {
    if Committing(db, e) {
      var job := db.jobs[e.worker];
      if Within(db.store, job) {
        forall o, m ensures Net(Land(db.store, job).log, o, m) <= 0 { WithinAt(s0, db.store, job, o, m); }
      }
      if NoOverpaid(Land(db.store, job)) { OverpaidNeeds(s0, db.store, job); }
    }
  }

  ghost predicate NeverOverpaid(db: Db, es: seq<Event>) { forall k :: 0 <= k <= |es| ==> NoOverpaid(Run(db, es[..k]).store) }

  ghost predicate AllWithin(db: Db, es: seq<Event>) { forall k :: 0 <= k < |es| ==> StepWithin(Run(db, es[..k]), es[k]) }

  lemma {:induction false} WithinKeeps(db: Db, es: seq<Event>, k: nat)
    requires Kept(db.store, db) && NoOverpaid(db.store) && AllWithin(db, es) && k <= |es|
    ensures NoOverpaid(Run(db, es[..k]).store)
  {
    if k > 0 {
      var before := Run(db, es[..k - 1]);
      WithinKeeps(db, es, k - 1);
      KeptRun(db, es[..k - 1]);
      assert StepWithin(before, es[k - 1]);
      StepOverpaidIff(db.store, before, es[k - 1]);
      RunNext(db, es, k - 1);
    }
  }

  /** Over every interleaving: no order ever gives back more of an item than it took,
      exactly when every edit hands back at most what its order has out where it commits. */
  lemma NeverOverpaidIffWithin(db: Db, es: seq<Event>)
    requires Kept(db.store, db) && NoOverpaid(db.store)
    ensures NeverOverpaid(db, es) <==> AllWithin(db, es)
  {
    if AllWithin(db, es) {
      forall k | 0 <= k <= |es| ensures NoOverpaid(Run(db, es[..k]).store) { WithinKeeps(db, es, k); }
    }
    if NeverOverpaid(db, es) {
      forall k | 0 <= k < |es| ensures StepWithin(Run(db, es[..k]), es[k]) {
        KeptRun(db, es[..k]);
        RunNext(db, es, k);
        assert NoOverpaid(Run(db, es[..k + 1]).store);
        StepOverpaidIff(db.store, Run(db, es[..k]), es[k]);
      }
    }
  }

  // ---------- Stock out on orders ----------

  /** What orders whose stock has not gone back hold of an item. */
  function OutOn(log: seq<Movement>, claims: map<int, Claim>, item: int): int {
    if log == [] then 0
    else
      var v := log[|log| - 1];
      OutOn(log[..|log| - 1], claims, item)
      + (if v.item == item && v.order in claims && !claims[v.order].restored then -v.quantity else 0)
  }

  lemma {:induction false} OutTogether(a: seq<Movement>, b: seq<Movement>, claims: map<int, Claim>, m: int)
    ensures OutOn(a + b, claims, m) == OutOn(a, claims, m) + OutOn(b, claims, m)
  {
    if b == [] {
      assert a + b == a;
    } else {
      OutTogether(a, b[..|b| - 1], claims, m);
      assert (a + b)[..|a + b| - 1] == a + b[..|b| - 1];
    }
  }

  lemma {:induction false} OutOfMoves(moves: seq<Movement>, order: int, claims: map<int, Claim>, m: int)
    requires order in claims && forall k :: 0 <= k < |moves| ==> moves[k].order == order
    ensures OutOn(moves, claims, m) == if claims[order].restored then 0 else -Moved(moves, m)
  {
    if moves != [] { OutOfMoves(moves[..|moves| - 1], order, claims, m); }
  }

  lemma {:induction false} SameOut(log: seq<Movement>, claims: map<int, Claim>, claims': map<int, Claim>, m: int)
    requires forall k :: 0 <= k < |log| ==> log[k].order in claims && log[k].order in claims'
                                            && claims[log[k].order].restored == claims'[log[k].order].restored
    ensures OutOn(log, claims', m) == OutOn(log, claims, m)
  {
    if log != [] { SameOut(log[..|log| - 1], claims, claims', m); }
  }

  /** Flagging an order restored takes its net out of the outstanding stock. */
  lemma {:induction false} FlagOut(log: seq<Movement>, claims: map<int, Claim>, order: int, c: Claim, m: int)
    requires order in claims && !claims[order].restored && c.restored
    requires forall k :: 0 <= k < |log| && log[k].order == order ==> log[k].kind != RESTORED
    ensures OutOn(log, claims[order := c], m) == OutOn(log, claims, m) + Net(log, order, m)
  {
    if log != [] { FlagOut(log[..|log| - 1], claims, order, c, m); }
  }

  predicate AccountedAt(s0: Store, s: Store, m: int) {
    Tracked(s, m) ==> Level(s, m) + OutOn(s.log, s.claims, m) == Level(s0, m) + OutOn(s0.log, s0.claims, m)
  }

  ghost predicate Accounted(s0: Store, s: Store) { forall m :: AccountedAt(s0, s, m) }

  /** A reservation or edit commits on the level it read; an edit of an order whose stock
      went back leaves the stock as it is; a restoration adds exactly the order's net. */
  predicate SquareAt(s: Store, job: Job, m: int) {
    Lands(s, job.request) && Tracked(s, m) ==>
      if Restores(job.request) then NewLevel(s, job, m) == Level(s, m) - Net(s.log, job.request.order, m)
      else if job.request.Adjust? && s.claims[job.request.order].restored then NewLevel(s, job, m) == Level(s, m)
      else m in job.buffer && m in job.base ==> Level(s, m) == job.base[m]
  }

  ghost predicate Square(s: Store, job: Job) { forall m :: SquareAt(s, job, m) }

  lemma ClaimedOut(s: Store, r: Request, m: int)
    requires Known(s) && Lands(s, r)
    ensures OutOn(s.log, s.claims[r.order := ClaimAfter(s, r)], m)
            == OutOn(s.log, s.claims, m) + (if Restores(r) then Net(s.log, r.order, m) else 0)
  {
    var c := ClaimAfter(s, r);
    if Restores(r) {
      FlagOut(s.log, s.claims, r.order, c, m);
    } else {
      SameOut(s.log, s.claims, s.claims[r.order := c], m);
    }
  }

  lemma LandOut(s0: Store, s: Store, job: Job, m: int)
    requires JobOk(s0, job) && Known(s) && Lands(s, job.request)
    ensures var r, s' := job.request, Land(s, job);
            OutOn(s'.log, s'.claims, m) == OutOn(s.log, s.claims, m)
              + (if Restores(r) then Net(s.log, r.order, m) else if r.Adjust? && s.claims[r.order].restored then 0 else -Moved(job.moves, m))
  {
    var r := job.request;
    var claims := s.claims[r.order := ClaimAfter(s, r)];
    OutTogether(s.log, job.moves, claims, m);
    OutOfMoves(job.moves, r.order, claims, m);
    ClaimedOut(s, r, m);
  }

  lemma FlaggedOut(s: Store, job: Job, m: int)
    requires Known(s) && !Lands(s, job.request)
    ensures OutOn(Land(s, job).log, Land(s, job).claims, m) == OutOn(s.log, s.claims, m)
  {
    if FlagOnly(s, job.request) { SameOut(s.log, s.claims, Land(s, job).claims, m); }
  }

  lemma SquareAtIff(s0: Store, s: Store, job: Job, m: int)
    requires JobOk(s0, job) && SameTracked(s0, s) && Known(s) && AccountedAt(s0, s, m)
    ensures AccountedAt(s0, Land(s, job), m) <==> SquareAt(s, job, m)
  {
    LandsAt(s0, s, job, m);
    assert JobAt(s0, job, m);
    if Lands(s, job.request) { LandOut(s0, s, job, m); } else { FlaggedOut(s, job, m); }
  }

  ghost predicate StepSquare(db: Db, e: Event) { Committing(db, e) ==> Square(db.store, db.jobs[e.worker]) }

  lemma StepAccountedIff(s0: Store, db: Db, e: Event)
    requires Kept(s0, db) && Accounted(s0, db.store)
    ensures Accounted(s0, Apply(db, e).store) <==> StepSquare(db, e)
  {
    if Committing(db, e) {
      var job := db.jobs[e.worker];
      forall m ensures AccountedAt(s0, Land(db.store, job), m) <==> SquareAt(db.store, job, m) {
        assert AccountedAt(s0, db.store, m);
        SquareAtIff(s0, db.store, job, m);
      }
    }
  }

  ghost predicate AccountedThroughout(db: Db, es: seq<Event>) { forall k :: 0 <= k <= |es| ==> Accounted(db.store, Run(db, es[..k]).store) }

  ghost predicate AllSquare(db: Db, es: seq<Event>) { forall k :: 0 <= k < |es| ==> StepSquare(Run(db, es[..k]), es[k]) }

  lemma {:induction false} SquareKeeps(db: Db, es: seq<Event>, k: nat)
    requires Kept(db.store, db) && AllSquare(db, es) && k <= |es|
    ensures Accounted(db.store, Run(db, es[..k]).store)
  {
    if k > 0 {
      var before := Run(db, es[..k - 1]);
      SquareKeeps(db, es, k - 1);
      KeptRun(db, es[..k - 1]);
      assert StepSquare(before, es[k - 1]);
      StepAccountedIff(db.store, before, es[k - 1]);
      RunNext(db, es, k - 1);
    }
  }

  /** Over every interleaving: stock plus what unrestored orders hold stays what it was,
      throughout the run exactly when every commit is square. */
  lemma StockPlusOutstandingIsInitialIff(db: Db, es: seq<Event>)
    requires Kept(db.store, db)
    ensures AccountedThroughout(db, es) <==> AllSquare(db, es)
  {
    if AllSquare(db, es) {
      forall k | 0 <= k <= |es| ensures Accounted(db.store, Run(db, es[..k]).store) { SquareKeeps(db, es, k); }
    }
    if AccountedThroughout(db, es) {
      forall k | 0 <= k < |es| ensures StepSquare(Run(db, es[..k]), es[k]) {
        KeptRun(db, es[..k]);
        RunNext(db, es, k);
        assert Accounted(db.store, Run(db, es[..k + 1]).store);
        StepAccountedIff(db.store, Run(db, es[..k]), es[k]);
      }
    }
  }
}

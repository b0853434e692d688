/** A request nothing interleaves with does to the stock what its changes do one by one. */
module StockAlone {
  import opened Prelude
  import opened Inventory
  import opened StockRuns

  function Reads(db: Db, w: int, n: nat): Db { if n == 0 then db else Apply(Reads(db, w, n - 1), Read(w)) }

  /** Begin, gather, every read, commit. */
  function Undisturbed(db: Db, w: int, r: Request): Db {
    var begun := Apply(Apply(db, Begin(w, r)), Gather(w));
    if w !in begun.jobs then begun else Apply(Reads(begun, w, |begun.jobs[w].plan|), Commit(w))
  }

  // ---------- Reading change after change ----------

  predicate BufferOk(s: Store, job: Job) { forall m :: m in job.buffer ==> Tracked(s, m) && job.buffer[m].Some? }

  function Fetch(s: Store, job: Job, n: nat): Job { if n == 0 then job else ReadNext(s, Fetch(s, job, n - 1)) }

  lemma WrittenStock(s: Store, job: Job, item: int, after: int)
    ensures Written(s, job.(buffer := job.buffer[item := Some(after)])).stock == Written(s, job).stock[item := Some(after)]
  {
    assert s.stock + job.buffer[item := Some(after)] == (s.stock + job.buffer)[item := Some(after)];
  }

  lemma ChangedWrites(s: Store, job: Job, c: Change)
    requires BufferOk(s, job)
    ensures BufferOk(s, Changed(s, job, c))
    ensures Written(s, Changed(s, job, c)) ==
            if c.delta == 0 then Written(s, job) else ApplyDelta(Written(s, job), job.request.order, KindOf(job.request), c)
  {
    if c.delta != 0 && Tracked(s, c.item) {
      var before := Before(s, job, c.item);
      var after := Max(0, before + c.delta);
      var w := Written(s, job);
      assert Tracked(w, c.item) && w.stock[c.item] == Some(before);
      WrittenStock(s, job, c.item, after);
      var v := Movement(c.item, job.request.order, KindOf(job.request), after - before);
      assert s.log + (job.moves + [v]) == (s.log + job.moves) + [v];
      if after == before { assert w.stock[c.item := Some(after)] == w.stock; }
    }
  }

  lemma ApplyNext(s: Store, order: int, kind: Kind, cs: seq<Change>, k: nat)
    requires k < |cs|
    ensures ApplyAll(s, order, kind, cs[..k + 1]) ==
            if cs[k].delta == 0 then ApplyAll(s, order, kind, cs[..k]) else ApplyDelta(ApplyAll(s, order, kind, cs[..k]), order, kind, cs[k])
  {
    assert cs[..k + 1][..k] == cs[..k];
  }

  lemma {:induction false} FetchKeeps(s: Store, job: Job, n: nat)
    requires job.at == 0 && n <= |job.plan|
    ensures var got := Fetch(s, job, n); got.at == n && got.plan == job.plan && got.request == job.request && got.gathered == job.gathered
  {
    if n > 0 { FetchKeeps(s, job, n - 1); }
  }

  lemma {:induction false} FetchWrites(s: Store, job: Job, n: nat)
    requires job.at == 0 && job.buffer == map[] && job.moves == [] && n <= |job.plan|
    ensures var got := Fetch(s, job, n);
            && got.at == n && got.plan == job.plan && got.request == job.request && got.gathered == job.gathered && BufferOk(s, got)
            && Written(s, got) == ApplyAll(s, job.request.order, KindOf(job.request), job.plan[..n])
  {
    if n == 0 {
      assert s.stock + map[] == s.stock && s.log + [] == s.log;
    } else {
      FetchWrites(s, job, n - 1);
      FetchKeeps(s, job, n);
      var before := Fetch(s, job, n - 1);
      ChangedWrites(s, before, job.plan[n - 1]);
      ApplyNext(s, job.request.order, KindOf(job.request), job.plan, n - 1);
    }
  }

  lemma {:induction false} ReadsFetch(db: Db, w: int, n: nat)
    requires w in db.jobs
    ensures Reads(db, w, n) == db.(jobs := db.jobs[w := Fetch(db.store, db.jobs[w], n)])
  {
    if n > 0 {
      ReadsFetch(db, w, n - 1);
      var got := Fetch(db.store, db.jobs[w], n - 1);
      assert db.jobs[w := got][w := ReadNext(db.store, got)] == db.jobs[w := ReadNext(db.store, got)];
    } else {
      assert db.jobs[w := db.jobs[w]] == db.jobs;
    }
  }

  // ---------- The whole request ----------

  lemma DeltaIgnoresClaims(s: Store, claims: map<int, Claim>, order: int, kind: Kind, c: Change)
    ensures ApplyDelta(s.(claims := claims), order, kind, c) == ApplyDelta(s, order, kind, c).(claims := claims)
  {}

  lemma {:induction false} ChangesIgnoreClaims(s: Store, claims: map<int, Claim>, order: int, kind: Kind, cs: seq<Change>)
    ensures ApplyAll(s.(claims := claims), order, kind, cs) == ApplyAll(s, order, kind, cs).(claims := claims)
    ensures ApplyAll(s, order, kind, cs).claims == s.claims
  {
    if cs != [] {
      ChangesIgnoreClaims(s, claims, order, kind, cs[..|cs| - 1]);
      DeltaIgnoresClaims(ApplyAll(s, order, kind, cs[..|cs| - 1]), claims, order, kind, cs[|cs| - 1]);
    }
  }

  function Fetched(s: Store, r: Request): Job {
    var job := Gathered(s, NewJob(r));
    Fetch(s, job, |job.plan|)
  }

  lemma FetchedIs(s: Store, r: Request)
    ensures var plan := Gathered(s, NewJob(r)).plan;
            && Ready(Fetched(s, r)) && Fetched(s, r).request == r
            && Written(s, Fetched(s, r)) == ApplyAll(s, r.order, KindOf(r), plan)
  {
    var job := Gathered(s, NewJob(r));
    FetchWrites(s, job, |job.plan|);
    assert job.plan[..|job.plan|] == job.plan;
  }

  lemma LandPerforms(s: Store, r: Request)
    requires MayStart(s, r)
    ensures Land(s, Fetched(s, r)) == Perform(s, r)
  {
    var job, plan := Fetched(s, r), Gathered(s, NewJob(r)).plan;
    FetchedIs(s, r);
    if Lands(s, r) {
      var claims := s.claims[r.order := ClaimAfter(s, r)];
      ChangesIgnoreClaims(s, claims, r.order, KindOf(r), plan);
      assert Land(s, job) == Written(s, job).(claims := claims);
      match r
      case Place(o, _) => assert s.claims[o := Claim(false, false, false, false)][o := Claim(true, false, false, false)] == claims;
      case Adjust(o, _) => assert claims == s.claims;
      case Cancel(o) => RestorePerforms(s, r, claims);
      case StatusCancel(o) => RestorePerforms(s, r, claims);
      case Delete(o) => RestorePerforms(s, r, claims);
    }
  }

  lemma RestorePerforms(s: Store, r: Request, claims: map<int, Claim>)
    requires MayStart(s, r) && Restores(r) && Lands(s, r) && claims == s.claims[r.order := ClaimAfter(s, r)]
    ensures Perform(s, r) == ApplyAll(s.(claims := claims), r.order, RESTORED, Gathered(s, NewJob(r)).plan)
  {
    var flagged := Flagged(s, r);
    assert flagged.claims[r.order := flagged.claims[r.order].(restored := true)] == claims;
    assert flagged.(claims := claims) == s.(claims := claims);
  }

  lemma GatheredStarts(db: Db, w: int, r: Request)
    requires w !in db.jobs && MayStart(db.store, r)
    ensures Apply(Apply(db, Begin(w, r)), Gather(w)) == db.(jobs := db.jobs[w := Gathered(db.store, NewJob(r))])
  {
    assert db.jobs[w := NewJob(r)][w := Gathered(db.store, NewJob(r))] == db.jobs[w := Gathered(db.store, NewJob(r))];
  }

  /** Run undisturbed, a request leaves exactly what its changes leave when applied one
      after another to the stock. */
  lemma UndisturbedPerforms(db: Db, w: int, r: Request)
    requires w !in db.jobs
    ensures Undisturbed(db, w, r) == db.(store := Perform(db.store, r))
  {
    if MayStart(db.store, r) {
      GatheredStarts(db, w, r);
      var begun := db.(jobs := db.jobs[w := Gathered(db.store, NewJob(r))]);
      ReadsFetch(begun, w, |begun.jobs[w].plan|);
      FetchedIs(db.store, r);
      LandPerforms(db.store, r);
      var read := Reads(begun, w, |begun.jobs[w].plan|);
      assert read.jobs[w] == Fetched(db.store, r);
      JobsBack(db.jobs, w, read.jobs);
    }
  }

  lemma JobsBack(jobs: map<int, Job>, w: int, more: map<int, Job>)
    requires w !in jobs && w in more && more.Keys == jobs.Keys + {w} && forall v :: v in jobs ==> more[v] == jobs[v]
    ensures more - {w} == jobs
  {
    forall v | v in jobs ensures (more - {w})[v] == jobs[v] {}
    assert (more - {w}).Keys == jobs.Keys;
  }
}

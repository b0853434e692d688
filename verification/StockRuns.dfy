/** Stock over whole runs, with every request split where another can commit.

    A change reads the level and later writes an absolute one: the transaction keeps its
    writes to itself until it commits, and no row is locked by a read. */
module StockRuns {
  import opened Prelude
  import opened Inventory

  /** `plan[..at]` is done; `base` is the level each written item was first read at. */
  datatype Job = Job(request: Request, gathered: bool, plan: seq<Change>, at: nat,
                     base: map<int, int>, buffer: map<int, Option<int>>, moves: seq<Movement>)

  datatype Db = Db(store: Store, jobs: map<int, Job>)

  datatype Event =
    | Begin(worker: int, request: Request)
    | Gather(worker: int)                  // a restore reads the order's movements
    | Read(worker: int)                    // the next change reads its level
    | Commit(worker: int)
    | Crash(worker: int)

  function KindOf(r: Request): Kind { if r.Place? then CREATED else if r.Adjust? then UPDATED else RESTORED }

  function PlanOf(r: Request): seq<Change> {
    match r
    case Place(_, lines) => Reservations(lines)
    case Adjust(_, changes) => changes
    case _ => []
  }

  function NewJob(r: Request): Job { Job(r, false, PlanOf(r), 0, map[], map[], []) }

  function Gathered(s: Store, job: Job): Job {
    if Restores(job.request) && !job.gathered
    then job.(gathered := true, plan := GiveBack(s.log, job.request.order, Touched(s.log, job.request.order)))
    else job
  }

  function Before(s: Store, job: Job, item: int): int {
    if item in job.buffer && job.buffer[item].Some? then job.buffer[item].value else Level(s, item)
  }

  /** One change: the clamped level is kept for writing only if it differs. */
  function Changed(s: Store, job: Job, c: Change): Job {
    if c.delta == 0 || !Tracked(s, c.item) then job
    else
      var before := Before(s, job, c.item);
      var after := Max(0, before + c.delta);
      var moved := job.(moves := job.moves + [Movement(c.item, job.request.order, KindOf(job.request), after - before)]);
      if after == before then moved
      else moved.(buffer := job.buffer[c.item := Some(after)],
             base := if c.item in job.buffer then job.base else job.base[c.item := before])
  }

  function ReadNext(s: Store, job: Job): Job {
    if job.at >= |job.plan| then job else Changed(s, job, job.plan[job.at]).(at := job.at + 1)
  }

  predicate Ready(job: Job) { job.at >= |job.plan| && (Restores(job.request) ==> job.gathered) }

  function Written(s: Store, job: Job): Store { s.(stock := s.stock + job.buffer, log := s.log + job.moves) }

  /** The transaction reaches its stock writes: its order is new, or its claims succeed. */
  predicate Lands(s: Store, r: Request) {
    match r
    case Place(o, _) => o !in s.claims
    case Adjust(o, _) => o in s.claims
    case Cancel(o) => o in s.claims && !s.claims[o].cancelled && Restorable(s, o)
    case StatusCancel(o) => Restorable(s, o)
    case Delete(o) => Restorable(s, o)
    case _ => false
  }

  predicate FlagOnly(s: Store, r: Request) {
    r.order in s.claims && !r.Place? && !r.Adjust? && (r.Cancel? ==> !s.claims[r.order].cancelled)
  }

  function ClaimAfter(s: Store, r: Request): Claim
    requires Lands(s, r)
  {
    match r
    case Place(_, _) => Claim(true, false, false, false)
    case Adjust(o, _) => s.claims[o]
    case Delete(o) => s.claims[o].(deleted := true, restored := true)
    case _ => s.claims[r.order].(cancelled := true, restored := true)
  }

  function Land(s: Store, job: Job): Store {
    var r := job.request;
    if Lands(s, r) then Written(s.(claims := s.claims[r.order := ClaimAfter(s, r)]), job)
    else if FlagOnly(s, r) then Flagged(s, r)
    else s
  }

  function Apply(db: Db, e: Event): Db {
    match e
    case Begin(w, r) => if w in db.jobs || !MayStart(db.store, r) then db else db.(jobs := db.jobs[w := NewJob(r)])
    case Gather(w) => if w in db.jobs then db.(jobs := db.jobs[w := Gathered(db.store, db.jobs[w])]) else db
    case Read(w) => if w in db.jobs then db.(jobs := db.jobs[w := ReadNext(db.store, db.jobs[w])]) else db
    case Commit(w) =>
      if w in db.jobs && Ready(db.jobs[w]) then Db(Land(db.store, db.jobs[w]), db.jobs - {w}) else db
    case Crash(w) => db.(jobs := db.jobs - {w})
  }

  function Run(db: Db, es: seq<Event>): Db {
    if es == [] then db else Apply(Run(db, es[..|es| - 1]), es[|es| - 1])
  }

  lemma RunNext(db: Db, es: seq<Event>, k: nat)
    requires k < |es|
    ensures Run(db, es[..k + 1]) == Apply(Run(db, es[..k]), es[k])
  {
    assert es[..k + 1][..k] == es[..k];
  }

  // ---------- What each step asks for ----------

  /** A change of a tracked item adds the clamped amount to the level, its own earlier write
      if there is one, records what was applied, and writes the level only if it differs. */
  lemma ChangeReads(s: Store, job: Job, c: Change)
    ensures (c.delta == 0 || c.item !in s.stock || s.stock[c.item] == None) ==> Changed(s, job, c) == job
    ensures c.delta != 0 && c.item in s.stock && s.stock[c.item] != None ==>
              var before := if c.item in job.buffer && job.buffer[c.item] != None then job.buffer[c.item].value else s.stock[c.item].value;
              var after := if before + c.delta < 0 then 0 else before + c.delta;
              var next := Changed(s, job, c);
              && next.moves == job.moves + [Movement(c.item, job.request.order, KindOf(job.request), after - before)]
              && next.buffer == (if after == before then job.buffer else job.buffer[c.item := Some(after)])
              && next.base == (if after == before || c.item in job.buffer then job.base else job.base[c.item := before])
  {}

  /** A transaction reaches its stock writes exactly if its conditional updates find the
      order as they need it: a new order, an order there to edit, a reservation not yet
      given back, and for the cancel route an order not yet cancelled. */
  lemma LandsIff(s: Store, o: int, cs: seq<Change>)
    ensures Lands(s, Place(o, cs)) <==> o !in s.claims
    ensures Lands(s, Adjust(o, cs)) <==> o in s.claims
    ensures Lands(s, Cancel(o)) <==> o in s.claims && s.claims[o].deducted && !s.claims[o].restored && !s.claims[o].cancelled
    ensures Lands(s, StatusCancel(o)) <==> o in s.claims && s.claims[o].deducted && !s.claims[o].restored
    ensures Lands(s, Delete(o)) <==> o in s.claims && s.claims[o].deducted && !s.claims[o].restored
    ensures !Lands(s, MergeAway(o)) && !Lands(s, Reopen(o))
  {}

  /** What one that does not land still writes: the flag of its request, except for a new
      order, an edit, and the cancel of an order cancelled meanwhile. */
  lemma OtherwiseFlagsOnly(s: Store, job: Job)
    requires !Lands(s, job.request)
    ensures var r := job.request;
            Land(s, job) == if r.order !in s.claims || r.Place? || r.Adjust? || (r.Cancel? && s.claims[r.order].cancelled) then s
                            else Flagged(s, r)
  {}

  /** A worker has one request at a time; a commit waits for every read, and a restoration
      for its movements; a crash loses the request. */
  lemma StepsAskFor(db: Db, w: int, r: Request)
    ensures w in db.jobs || !MayStart(db.store, r) ==> Apply(db, Begin(w, r)) == db
    ensures w in db.jobs && (db.jobs[w].at < |db.jobs[w].plan| || (r == db.jobs[w].request && (r.Cancel? || r.StatusCancel? || r.Delete?) && !db.jobs[w].gathered))
            ==> Apply(db, Commit(w)) == db
    ensures Apply(db, Crash(w)) == db.(jobs := db.jobs - {w})
  {}

  // ---------- What a request in progress holds ----------

  ghost predicate SameTracked(s: Store, s': Store) { forall m :: Tracked(s', m) <==> Tracked(s, m) }

  predicate LevelsOk(s: Store) { forall m :: m in s.stock && s.stock[m].Some? ==> s.stock[m].value >= 0 }

  /** At one item: what was recorded is what will be written less what was read. */
  predicate JobAt(s: Store, job: Job, m: int) {
    if m in job.buffer then
      && m in job.base && job.buffer[m].Some? && job.buffer[m].value >= 0 && Tracked(s, m)
      && Moved(job.moves, m) == job.buffer[m].value - job.base[m]
    else Moved(job.moves, m) == 0
  }

  predicate MovesOk(s: Store, job: Job) {
    forall k :: 0 <= k < |job.moves| ==>
      job.moves[k].order == job.request.order && job.moves[k].kind == KindOf(job.request) && Tracked(s, job.moves[k].item)
  }

  predicate Taking(cs: seq<Change>) { forall k :: 0 <= k < |cs| ==> cs[k].delta <= 0 }

  /** A positive change is recorded in full, and one that takes never gives. */
  predicate AnsweredAt(s: Store, job: Job, i: nat)
    requires i < |job.plan|
  {
    var c := job.plan[i];
    if c.delta > 0 && Tracked(s, c.item) then Moved(job.moves, c.item) == c.delta else Moved(job.moves, c.item) <= 0
  }

  ghost predicate SignsOk(s: Store, job: Job) {
    && (Taking(job.plan) ==> forall m :: Moved(job.moves, m) <= 0)
    && (Unique(ItemsOf(job.plan)) ==>
          && (forall i :: 0 <= i < job.at <= |job.plan| ==> AnsweredAt(s, job, i))
          && (forall m :: m !in ItemsOf(job.plan)[..Min(job.at, |job.plan|)] ==> Moved(job.moves, m) == 0 && m !in job.buffer))
  }

  ghost predicate JobOk(s: Store, job: Job) {
    && (forall m :: JobAt(s, job, m)) && MovesOk(s, job) && SignsOk(s, job) && job.at <= |job.plan|
    && (job.request.Place? ==> Taking(job.plan)) && (job.request.Adjust? ==> job.plan == job.request.changes && Unique(ItemsOf(job.plan)))
    && (Restores(job.request) && !job.gathered ==> job.plan == [])
  }

  ghost predicate Sound(s0: Store, db: Db) {
    && SameTracked(s0, db.store) && LevelsOk(db.store) && forall w :: w in db.jobs ==> JobOk(s0, db.jobs[w])
  }

  lemma {:induction false} ReservationsTake(lines: seq<Change>)
    ensures Taking(Reservations(lines))
  {
    if lines != [] { ReservationsTake(lines[..|lines| - 1]); }
  }

  lemma NewJobOk(s: Store, r: Request)
    requires r.Adjust? ==> Unique(ItemsOf(r.changes))
    ensures JobOk(s, NewJob(r))
  {
    if r.Place? { ReservationsTake(r.lines); }
  }

  lemma ChangedAt(s0: Store, s: Store, job: Job, c: Change, m: int)
    requires SameTracked(s0, s) && LevelsOk(s) && JobAt(s0, job, m)
    ensures JobAt(s0, Changed(s, job, c), m)
  {
    if c.delta != 0 && Tracked(s, c.item) {
      var before := Before(s, job, c.item);
      MovedNext(job.moves, Movement(c.item, job.request.order, KindOf(job.request), Max(0, before + c.delta) - before), m);
    }
  }

  /** What a change records: its whole amount if it gives, at most nothing if it takes. */
  lemma ChangedMoves(s: Store, job: Job, c: Change, m: int)
    requires LevelsOk(s) && (c.item in job.buffer ==> job.buffer[c.item].Some? && job.buffer[c.item].value >= 0)
    ensures var more := Moved(Changed(s, job, c).moves, m) - Moved(job.moves, m);
            && (m != c.item ==> more == 0 && (m in Changed(s, job, c).buffer <==> m in job.buffer))
            && (m == c.item ==> if c.delta > 0 && Tracked(s, m) then more == c.delta else more <= 0)
  {
    if c.delta != 0 && Tracked(s, c.item) {
      var before := Before(s, job, c.item);
      MovedNext(job.moves, Movement(c.item, job.request.order, KindOf(job.request), Max(0, before + c.delta) - before), m);
    }
  }

  lemma TakingKept(s0: Store, s: Store, job: Job)
    requires JobOk(s0, job) && SameTracked(s0, s) && LevelsOk(s) && job.at < |job.plan|
    ensures Taking(job.plan) ==> forall m :: Moved(ReadNext(s, job).moves, m) <= 0
  {
    if Taking(job.plan) {
      forall m ensures Moved(ReadNext(s, job).moves, m) <= 0 {
        assert JobAt(s0, job, job.plan[job.at].item);
        ChangedMoves(s, job, job.plan[job.at], m);
      }
    }
  }

  /** The item of the next change is none of those before it. */
  lemma NextItemIsNew(job: Job)
    requires job.at < |job.plan| && Unique(ItemsOf(job.plan))
    ensures job.plan[job.at].item !in ItemsOf(job.plan)[..job.at]
    ensures forall i :: 0 <= i < job.at ==> job.plan[i].item != job.plan[job.at].item
  {
    var items := ItemsOf(job.plan);
    forall i | 0 <= i < job.at ensures items[i] != items[job.at] {}
  }

  lemma AnswerKept(s0: Store, s: Store, job: Job, i: nat)
    requires JobOk(s0, job) && SameTracked(s0, s) && LevelsOk(s) && i <= job.at < |job.plan| && Unique(ItemsOf(job.plan))
    ensures AnsweredAt(s0, ReadNext(s, job), i)
  {
    var c := job.plan[job.at];
    assert JobAt(s0, job, c.item);
    NextItemIsNew(job);
    ChangedMoves(s, job, c, job.plan[i].item);
    if i < job.at { assert AnsweredAt(s0, job, i); }
  }

  lemma UntouchedKept(s0: Store, s: Store, job: Job, m: int)
    requires JobOk(s0, job) && SameTracked(s0, s) && LevelsOk(s) && job.at < |job.plan| && Unique(ItemsOf(job.plan))
    requires m !in ItemsOf(job.plan)[..job.at + 1]
    ensures Moved(ReadNext(s, job).moves, m) == 0 && m !in ReadNext(s, job).buffer
  {
    var c, items := job.plan[job.at], ItemsOf(job.plan);
    assert JobAt(s0, job, c.item);
    assert items[..job.at + 1] == items[..job.at] + [c.item];
    ChangedMoves(s, job, c, m);
  }

  lemma AnswersKept(s0: Store, s: Store, job: Job)
    requires JobOk(s0, job) && SameTracked(s0, s) && LevelsOk(s) && job.at < |job.plan| && Unique(ItemsOf(job.plan))
    ensures var next := ReadNext(s, job);
            && (forall i :: 0 <= i < next.at ==> AnsweredAt(s0, next, i))
            && (forall m :: m !in ItemsOf(job.plan)[..next.at] ==> Moved(next.moves, m) == 0 && m !in next.buffer)
  {
    var next := ReadNext(s, job);
    forall i | 0 <= i < next.at ensures AnsweredAt(s0, next, i) { AnswerKept(s0, s, job, i); }
    forall m | m !in ItemsOf(job.plan)[..next.at] ensures Moved(next.moves, m) == 0 && m !in next.buffer { UntouchedKept(s0, s, job, m); }
  }

  lemma MovesKept(s0: Store, s: Store, job: Job, c: Change)
    requires MovesOk(s0, job) && SameTracked(s0, s)
    ensures MovesOk(s0, Changed(s, job, c))
    ensures Changed(s, job, c).request == job.request && Changed(s, job, c).plan == job.plan && Changed(s, job, c).at == job.at
    ensures Changed(s, job, c).gathered == job.gathered
  {}

  lemma AtIrrelevant(s: Store, job: Job, at: nat, m: int)
    ensures JobAt(s, job.(at := at), m) == JobAt(s, job, m)
  {}

  lemma ReadOk(s0: Store, s: Store, job: Job)
    requires JobOk(s0, job) && SameTracked(s0, s) && LevelsOk(s)
    ensures JobOk(s0, ReadNext(s, job))
  {
    if job.at < |job.plan| {
      var next, changed := ReadNext(s, job), Changed(s, job, job.plan[job.at]);
      forall m ensures JobAt(s0, next, m) {
        assert JobAt(s0, job, m);
        ChangedAt(s0, s, job, job.plan[job.at], m);
        AtIrrelevant(s0, changed, next.at, m);
      }
      MovesKept(s0, s, job, job.plan[job.at]);
      assert MovesOk(s0, next) by { assert next.moves == changed.moves; }
      assert SignsOk(s0, next) by {
        TakingKept(s0, s, job);
        if Unique(ItemsOf(job.plan)) { AnswersKept(s0, s, job); }
      }
    }
  }

  lemma GatherOk(s0: Store, s: Store, job: Job)
    requires JobOk(s0, job)
    ensures JobOk(s0, Gathered(s, job))
  {
    if Restores(job.request) && !job.gathered {
      var next := Gathered(s, job);
      assert ItemsOf(job.plan)[..0] == [] && ItemsOf(next.plan)[..0] == [];
      forall m ensures Moved(job.moves, m) == 0 && m !in job.buffer { assert m !in ItemsOf(job.plan)[..0]; }
      forall m ensures JobAt(s0, next, m) { assert JobAt(s0, job, m); }
    }
  }

  // ---------- What a commit does at one item ----------

  lemma {:induction false} MovedTogether(a: seq<Movement>, b: seq<Movement>, m: int)
    ensures Moved(a + b, m) == Moved(a, m) + Moved(b, m)
  {
    if b == [] {
      assert a + b == a;
    } else {
      MovedTogether(a, b[..|b| - 1], m);
      assert (a + b)[..|a + b| - 1] == a + b[..|b| - 1];
    }
  }

  function NewLevel(s: Store, job: Job, m: int): int { Before(s, job, m) }

  lemma WrittenAt(s0: Store, s: Store, job: Job, m: int)
    requires JobOk(s0, job) && SameTracked(s0, s)
    ensures var s' := Written(s, job);
            && Tracked(s', m) == Tracked(s, m) && (Tracked(s, m) ==> Level(s', m) == NewLevel(s, job, m))
            && Moved(s'.log, m) == Moved(s.log, m) + Moved(job.moves, m)
  {
    assert JobAt(s0, job, m);
    MovedTogether(s.log, job.moves, m);
  }

  lemma WrittenOk(s0: Store, s: Store, job: Job)
    requires JobOk(s0, job) && SameTracked(s0, s) && LevelsOk(s)
    ensures SameTracked(s0, Written(s, job)) && LevelsOk(Written(s, job))
  {
    var s' := Written(s, job);
    forall m ensures Tracked(s', m) == Tracked(s, m) && (Tracked(s', m) ==> Level(s', m) >= 0) {
      WrittenAt(s0, s, job, m);
      assert JobAt(s0, job, m);
    }
    forall m | m in s'.stock && s'.stock[m].Some? ensures s'.stock[m].value >= 0 { assert Tracked(s', m); }
  }

  lemma LandOk(s0: Store, s: Store, job: Job)
    requires JobOk(s0, job) && SameTracked(s0, s) && LevelsOk(s)
    ensures SameTracked(s0, Land(s, job)) && LevelsOk(Land(s, job))
  {
    if Lands(s, job.request) {
      WrittenOk(s0, s.(claims := s.claims[job.request.order := ClaimAfter(s, job.request)]), job);
    }
  }

  lemma SoundStep(s0: Store, db: Db, e: Event)
    requires Sound(s0, db)
    ensures Sound(s0, Apply(db, e))
  {
    match e
    case Begin(w, r) => if MayStart(db.store, r) { NewJobOk(s0, r); }
    case Gather(w) => if w in db.jobs { GatherOk(s0, db.store, db.jobs[w]); }
    case Read(w) => if w in db.jobs { ReadOk(s0, db.store, db.jobs[w]); }
    case Commit(w) => if w in db.jobs { LandOk(s0, db.store, db.jobs[w]); }
    case Crash(w) =>
  }

  /** Whatever interleaves, stock never goes below zero and untracked items stay untracked. */
  lemma {:induction false} StockNeverNegative(db: Db, es: seq<Event>)
    requires Sound(db.store, db)
    ensures Sound(db.store, Run(db, es))
  {
    if es != [] {
      StockNeverNegative(db, es[..|es| - 1]);
      SoundStep(db.store, Run(db, es[..|es| - 1]), es[|es| - 1]);
    }
  }

  // ---------- Stock is what the movements say ----------

  predicate BalancedAt(s0: Store, s: Store, m: int) {
    Tracked(s, m) ==> Level(s, m) - Level(s0, m) == Moved(s.log, m) - Moved(s0.log, m)
  }

  ghost predicate Balanced(s0: Store, s: Store) { forall m :: BalancedAt(s0, s, m) }

  /** Every item the commit writes still has the level the job first read. */
  predicate Current(s: Store, job: Job) {
    Lands(s, job.request) ==> forall m :: m in job.buffer && m in job.base ==> Level(s, m) == job.base[m]
  }

  lemma LandsAt(s0: Store, s: Store, job: Job, m: int)
    requires JobOk(s0, job) && SameTracked(s0, s)
    ensures var s' := Land(s, job);
            && Tracked(s', m) == Tracked(s, m)
            && (Tracked(s, m) ==> Level(s', m) == if Lands(s, job.request) then NewLevel(s, job, m) else Level(s, m))
            && Moved(s'.log, m) == Moved(s.log, m) + (if Lands(s, job.request) then Moved(job.moves, m) else 0)
  {
    if Lands(s, job.request) {
      var claimed := s.(claims := s.claims[job.request.order := ClaimAfter(s, job.request)]);
      WrittenAt(s0, claimed, job, m);
      assert Level(claimed, m) == Level(s, m) && Tracked(claimed, m) == Tracked(s, m) && NewLevel(claimed, job, m) == NewLevel(s, job, m);
    }
  }

  lemma BalancedAtIff(s0: Store, s: Store, job: Job, m: int)
    requires JobOk(s0, job) && SameTracked(s0, s) && BalancedAt(s0, s, m)
    ensures BalancedAt(s0, Land(s, job), m) <==>
              (Lands(s, job.request) && m in job.buffer && m in job.base ==> Level(s, m) == job.base[m])
  {
    LandsAt(s0, s, job, m);
    assert JobAt(s0, job, m);
  }

  lemma CommitBalancedIff(s0: Store, s: Store, job: Job)
    requires JobOk(s0, job) && SameTracked(s0, s) && Balanced(s0, s)
    ensures Balanced(s0, Land(s, job)) <==> Current(s, job)
  {
    forall m ensures BalancedAt(s0, Land(s, job), m) <==>
                       (Lands(s, job.request) && m in job.buffer && m in job.base ==> Level(s, m) == job.base[m])
    {
      assert BalancedAt(s0, s, m);
      BalancedAtIff(s0, s, job, m);
    }
  }

  predicate Committing(db: Db, e: Event) { e.Commit? && e.worker in db.jobs && Ready(db.jobs[e.worker]) }

  predicate StepCurrent(db: Db, e: Event) { Committing(db, e) ==> Current(db.store, db.jobs[e.worker]) }

  lemma StepBalancedIff(s0: Store, db: Db, e: Event)
    requires Sound(s0, db) && Balanced(s0, db.store)
    ensures Balanced(s0, Apply(db, e).store) <==> StepCurrent(db, e)
  {
    if Committing(db, e) { CommitBalancedIff(s0, db.store, db.jobs[e.worker]); }
  }

  ghost predicate BalancedThroughout(db: Db, es: seq<Event>) {
    forall k :: 0 <= k <= |es| ==> Balanced(db.store, Run(db, es[..k]).store)
  }

  ghost predicate AllCurrent(db: Db, es: seq<Event>) { forall k :: 0 <= k < |es| ==> StepCurrent(Run(db, es[..k]), es[k]) }

  lemma {:induction false} CurrentKeeps(db: Db, es: seq<Event>, k: nat)
    requires Sound(db.store, db) && AllCurrent(db, es) && k <= |es|
    ensures Balanced(db.store, Run(db, es[..k]).store)
  {
    if k > 0 {
      var before := Run(db, es[..k - 1]);
      CurrentKeeps(db, es, k - 1);
      StockNeverNegative(db, es[..k - 1]);
      assert StepCurrent(before, es[k - 1]);
      StepBalancedIff(db.store, before, es[k - 1]);
      RunNext(db, es, k - 1);
    }
  }

  /** Over every interleaving: each item's stock is its initial stock plus its movements,
      throughout the run exactly when every transaction commits on the levels it read. */
  lemma StockIsItsMovementsIff(db: Db, es: seq<Event>)
    requires Sound(db.store, db)
    ensures BalancedThroughout(db, es) <==> AllCurrent(db, es)
  {
    if AllCurrent(db, es) {
      forall k | 0 <= k <= |es| ensures Balanced(db.store, Run(db, es[..k]).store) { CurrentKeeps(db, es, k); }
    }
    if BalancedThroughout(db, es) {
      forall k | 0 <= k < |es| ensures StepCurrent(Run(db, es[..k]), es[k]) {
        StockNeverNegative(db, es[..k]);
        RunNext(db, es, k);
        assert Balanced(db.store, Run(db, es[..k + 1]).store);
        StepBalancedIff(db.store, Run(db, es[..k]), es[k]);
      }
    }
  }
}

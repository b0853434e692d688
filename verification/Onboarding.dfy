/** One self-serve application from plan selection to activation, with every request
    split where another request's write can land. */
module Onboarding {
  import opened Prelude

  datatype Stage =
    | WIZARD          // any stage before a plan is selected
    | PLAN_SELECTED | PAYMENT_PENDING | PAYMENT_FAILED | UNDER_REVIEW | PROVISIONING | LIVE
    | MANUAL_PENDING | MANUAL_PAYMENT_PENDING | MANUAL_PAYMENT_RECEIVED | MANUAL_APPROVED | MANUAL_REJECTED
    | REJECTED | EXPIRED | SUSPENDED

  datatype RowStatus = CREATED | PAID | FAILED
  datatype Row = Row(plan: int, status: RowStatus)

  /** What a request in progress will write next. */
  datatype Job =
    | Failing(row: int, webhook: bool)
    | Voiding(row: int)
    | Refusing(webhook: bool)
    | Claiming(row: int)
    | Finishing
    | Renewing(row: int)
    | Opening(manual: bool)
    | Blocking(plan: int, manual: bool)
    | Building(plan: int, manual: bool)
    | Launching(plan: int, manual: bool)
    | Labelling
    | Marking(plan: int)
    | Recording(plan: int)
    | Ordering(plan: int)
    | Buying(plan: int)
    | Selecting(plan: int)
    | Freezing
    | Rejecting(manual: bool)
    | Lapsing

  datatype App = App(
    active: bool,
    schema: bool,
    stage: Stage,
    plan: Option<int>,
    subscribed: bool,          // the subscription row is ACTIVE
    rows: map<int, Row>,       // subscription payments
    created: seq<int>,         // plans of the CREATION history rows
    documents: bool,
    auto: bool,
    jobs: map<int, Job>)

  datatype Kind = Captured | Failure | Ignored

  datatype Event =
    | SelectPlan(worker: int, choice: int)
    | Checkout(worker: int)
    | PlainCheckout(worker: int, choice: int)
    | Webhook(worker: int, row: int, signed: bool, kind: Kind, amountMatches: bool)
    | Verify(worker: int, row: int, orderMatches: bool, signed: bool)
    | PlainVerify(worker: int, row: int, orderMatches: bool, signed: bool)
    | Submit(worker: int, complete: bool)
    | MarkReceived(worker: int, amountMatches: bool)
    | Approve(worker: int)
    | ApproveManual(worker: int)
    | Reject(worker: int, manual: bool)
    | Lapse(worker: int)
    | Review(documents: bool)
    | SetMode(auto: bool)
    | Step(worker: int, newId: int)
    | Fail(worker: int)

  predicate HasPaid(rows: map<int, Row>) { exists r :: r in rows && rows[r].status.PAID? }

  predicate AnyRow(rows: map<int, Row>) { exists r :: r in rows }

  predicate InManualFlow(stage: Stage) {
    stage.MANUAL_PENDING? || stage.MANUAL_PAYMENT_PENDING? || stage.MANUAL_PAYMENT_RECEIVED? || stage.MANUAL_APPROVED? || stage.MANUAL_REJECTED?
  }

  predicate AtPayment(stage: Stage) { stage.PAYMENT_PENDING? || stage.PAYMENT_FAILED? }

  predicate BeforeSubmit(stage: Stage) { stage.WIZARD? || stage.PLAN_SELECTED? || AtPayment(stage) }

  predicate Live(a: App) { a.active && a.schema }

  function Begin(a: App, w: int, job: Job): App {
    if w in a.jobs then a else a.(jobs := a.jobs[w := job])
  }

  predicate MayApprove(a: App) {
    && !Live(a) && a.documents && a.plan.Some?
    && (InManualFlow(a.stage) ==> a.stage.MANUAL_PAYMENT_RECEIVED?)
    && HasPaid(a.rows)
  }

  predicate MayApproveManually(a: App) { a.stage.MANUAL_PAYMENT_RECEIVED? && !Live(a) && a.plan.Some? }

  /** What a request reads before its first write. */
  function Start(a: App, e: Event): Option<Job> {
    match e
    case SelectPlan(_, choice) =>
      if BeforeSubmit(a.stage) && a.documents && !a.subscribed then Some(Selecting(choice)) else None
    case Checkout(_) =>
      if AtPayment(a.stage) && a.plan.Some? && !a.subscribed && !HasPaid(a.rows) then Some(Ordering(a.plan.value)) else None
    case PlainCheckout(_, choice) => if a.plan.Some? then Some(Buying(choice)) else None
    case Webhook(_, r, signed, kind, amountMatches) =>
      if !signed || r !in a.rows || kind.Ignored? then None
      else if kind.Failure? then Some(Failing(r, true))
      else if !amountMatches then None
      else if a.active then Some(Renewing(r))
      else Some(Claiming(r))
    case Verify(_, r, orderMatches, signed) =>
      if !(AtPayment(a.stage) || a.stage.UNDER_REVIEW? || a.stage.PROVISIONING?) then None
      else if r !in a.rows || !orderMatches || a.rows[r].status.PAID? then None
      else if !signed then Some(Failing(r, false))
      else Some(Claiming(r))
    case PlainVerify(_, r, orderMatches, signed) =>
      if r !in a.rows || a.rows[r].status.PAID? || !orderMatches then None
      else if !signed then Some(Voiding(r))
      else Some(Renewing(r))
    case Submit(_, complete) =>
      if BeforeSubmit(a.stage) && !a.active && complete && a.documents && a.plan.Some? then Some(Freezing) else None
    case MarkReceived(_, amountMatches) =>
      if (a.stage.MANUAL_PENDING? || a.stage.MANUAL_PAYMENT_PENDING?) && !a.active && a.plan.Some? && amountMatches
      then Some(Marking(a.plan.value)) else None
    case Approve(_) => if MayApprove(a) then Some(Opening(false)) else None
    case ApproveManual(_) => if MayApproveManually(a) then Some(Opening(true)) else None
    case Reject(_, manual) => if !a.active then Some(Rejecting(manual)) else None
    case Lapse(_) =>
      if (a.stage.MANUAL_PENDING? || a.stage.MANUAL_PAYMENT_PENDING? || a.stage.MANUAL_PAYMENT_RECEIVED?) && !a.active
      then Some(Lapsing) else None
    case _ => None
  }

  /** The job's next write and what is left to do. */
  function Write(a: App, job: Job, newId: int): (App, Option<Job>) {
    match job
    case Failing(r, webhook) =>
      (if r in a.rows then a.(rows := a.rows[r := a.rows[r].(status := FAILED)]) else a, Some(Refusing(webhook)))
    case Voiding(r) => (if r in a.rows then a.(rows := a.rows[r := a.rows[r].(status := FAILED)]) else a, None)
    case Refusing(webhook) => (if webhook && a.active then a else a.(stage := PAYMENT_FAILED), None)
    case Claiming(r) =>
      if r !in a.rows || a.rows[r].status.PAID? then (a, None)
      else (a.(rows := a.rows[r := a.rows[r].(status := PAID)]), Some(Finishing))
    case Finishing => if a.auto then (a, Some(Opening(false))) else (a.(stage := UNDER_REVIEW), None)
    case Renewing(r) =>
      if r !in a.rows || a.rows[r].status.PAID? || a.plan.None? then (a, None)
      else (a.(rows := a.rows[r := a.rows[r].(status := PAID)], plan := Some(a.rows[r].plan), active := true, subscribed := true), None)
    case Opening(manual) =>
      if Live(a) then (a, if manual then Some(Labelling) else None)
      else if a.plan.None? || !HasPaid(a.rows) then (a, None)
      else (a, Some(Blocking(a.plan.value, manual)))
    case Blocking(plan, manual) => (a.(stage := PROVISIONING, active := false), Some(Building(plan, manual)))
    case Building(plan, manual) => (a.(schema := true), Some(Launching(plan, manual)))
    case Launching(plan, manual) =>
      (a.(active := true, stage := LIVE, plan := Some(plan), subscribed := true, created := a.created + [plan]),
       if manual then Some(Labelling) else None)
    case Labelling => (a.(stage := MANUAL_APPROVED), None)
    case Marking(plan) => (a.(stage := MANUAL_PAYMENT_RECEIVED), Some(Recording(plan)))
    case Recording(plan) =>
      (if HasPaid(a.rows) || newId in a.rows then a else a.(rows := a.rows[newId := Row(plan, PAID)]), None)
    case Ordering(plan) =>
      (if newId in a.rows then a else a.(rows := a.rows[newId := Row(plan, CREATED)], stage := PAYMENT_PENDING), None)
    case Buying(plan) => (if newId in a.rows then a else a.(rows := a.rows[newId := Row(plan, CREATED)]), None)
    case Selecting(choice) => (a.(plan := Some(choice), subscribed := false, stage := PLAN_SELECTED), None)
    case Freezing => (if a.stage.MANUAL_PENDING? then a else a.(stage := MANUAL_PENDING, active := false), None)
    case Rejecting(manual) => (a.(stage := if manual then MANUAL_REJECTED else REJECTED, active := false), None)
    case Lapsing => (a.(stage := EXPIRED), None)
  }

  function Without(jobs: map<int, Job>, w: int): map<int, Job> { jobs - {w} }

  function Apply(a: App, e: Event): App {
    match e
    case Review(documents) => a.(documents := documents)
    case SetMode(auto) => a.(auto := auto)
    case Step(w, newId) =>
      if w !in a.jobs then a
      else
        var (b, next) := Write(a, a.jobs[w], newId);
        b.(jobs := if next.Some? then a.jobs[w := next.value] else Without(a.jobs, w))
    case Fail(w) =>
      // an error while provisioning leaves a retryable stage; anything else just ends
      var b := if w in a.jobs && (a.jobs[w].Building? || a.jobs[w].Launching?) then a.(stage := UNDER_REVIEW) else a;
      b.(jobs := Without(a.jobs, w))
    case _ => var job := Start(a, e); if job.Some? then Begin(a, e.worker, job.value) else a
  }

  function Run(a: App, es: seq<Event>): App {
    if es == [] then a else Apply(Run(a, es[..|es| - 1]), es[|es| - 1])
  }

  /** A registered application: nothing paid, provisioned or in progress. */
  ghost predicate Registered(a: App) {
    && !a.active && !a.schema && !a.subscribed && a.created == [] && a.jobs == map[]
    && !a.stage.MANUAL_PAYMENT_RECEIVED? && !HasPaid(a.rows)
  }

  /** A request's start, a failure or a setting change none of what the rows say. */
  predicate SameRows(a: App, b: App) {
    && b.active == a.active && b.schema == a.schema && b.plan == a.plan && b.subscribed == a.subscribed
    && b.rows == a.rows && b.created == a.created
  }

  lemma StartsOnly(a: App, e: Event)
    requires !(e.Step? && e.worker in a.jobs)
    ensures SameRows(a, Apply(a, e))
    ensures forall w :: w in Apply(a, e).jobs ==> (w in a.jobs && Apply(a, e).jobs[w] == a.jobs[w]) || Start(a, e) == Some(Apply(a, e).jobs[w])
    ensures Apply(a, e).stage == a.stage || Apply(a, e).stage == UNDER_REVIEW
  {
    match e
    case Fail(w) => FailsOnly(a, w);
    case Step(_, _) =>
    case Review(_) =>
    case SetMode(_) =>
    case _ => RequestStartsOnly(a, e);
  }

  lemma RequestStartsOnly(a: App, e: Event)
    requires !e.Fail? && !e.Step? && !e.Review? && !e.SetMode?
    ensures SameRows(a, Apply(a, e)) && Apply(a, e).stage == a.stage
    ensures forall w :: w in Apply(a, e).jobs ==> (w in a.jobs && Apply(a, e).jobs[w] == a.jobs[w]) || Start(a, e) == Some(Apply(a, e).jobs[w])
  {
    BeginsFor(a, e);
    if Start(a, e).Some? { BeginsOnly(a, e.worker, Start(a, e).value); }
  }

  lemma BeginsFor(a: App, e: Event)
    requires !e.Fail? && !e.Step? && !e.Review? && !e.SetMode?
    ensures Apply(a, e) == if Start(a, e).Some? then Begin(a, e.worker, Start(a, e).value) else a
  {}

  lemma BeginsOnly(a: App, w: int, job: Job)
    ensures SameRows(a, Begin(a, w, job)) && Begin(a, w, job).stage == a.stage
    ensures forall v :: v in Begin(a, w, job).jobs ==> (v in a.jobs && Begin(a, w, job).jobs[v] == a.jobs[v]) || Begin(a, w, job).jobs[v] == job
  {}

  lemma FailsOnly(a: App, w: int)
    ensures SameRows(a, Apply(a, Fail(w))) && (Apply(a, Fail(w)).stage == a.stage || Apply(a, Fail(w)).stage == UNDER_REVIEW)
    ensures forall v :: v in Apply(a, Fail(w)).jobs ==> v in a.jobs && Apply(a, Fail(w)).jobs[v] == a.jobs[v]
  {}

  lemma StepsTo(a: App, w: int, newId: int)
    requires w in a.jobs
    ensures var (b, next), after := Write(a, a.jobs[w], newId), Apply(a, Step(w, newId));
            && SameRows(b, after) && after.stage == b.stage
            && (forall v :: v in after.jobs ==> (v in a.jobs && v != w && after.jobs[v] == a.jobs[v]) || (v == w && next == Some(after.jobs[v])))
  {}

  // ---------- What an approval asks for ----------

  /** POST /applications/:id/approve opens provisioning exactly for an application that is
      not running, with a valid document, a plan and a PAID row, and in the manual flow
      only once its payment is received. */
  lemma ApprovalOpensIff(a: App, w: int)
    ensures Start(a, Approve(w)).Some? <==>
              && !(a.active && a.schema) && a.documents && a.plan != None
              && (exists r :: r in a.rows && a.rows[r].status == PAID)
              && a.stage !in {MANUAL_PENDING, MANUAL_PAYMENT_PENDING, MANUAL_APPROVED, MANUAL_REJECTED}
    ensures Start(a, Approve(w)).Some? ==> Start(a, Approve(w)).value == Opening(false)
    ensures Start(a, ApproveManual(w)).Some? <==>
              a.stage == MANUAL_PAYMENT_RECEIVED && !(a.active && a.schema) && a.plan != None
    ensures Start(a, ApproveManual(w)).Some? ==> Start(a, ApproveManual(w)).value == Opening(true)
  {
    assert HasPaid(a.rows) <==> exists r :: r in a.rows && a.rows[r].status == PAID;
  }

  /** Selecting a plan needs a document and no running subscription; a checkout the
      payment step, a plan and nothing paid; a submission a complete application with
      document and plan.  All of them only in the stages before one. */
  lemma ApplicantRequestsAskFor(a: App, w: int, choice: int, complete: bool)
    ensures var early := {WIZARD, PLAN_SELECTED, PAYMENT_PENDING, PAYMENT_FAILED};
            && Start(a, SelectPlan(w, choice))
               == (if a.stage in early && a.documents && !a.subscribed then Some(Selecting(choice)) else None)
            && Start(a, Checkout(w))
               == (if a.stage in {PAYMENT_PENDING, PAYMENT_FAILED} && a.plan != None && !a.subscribed
                      && (forall r :: r in a.rows ==> a.rows[r].status != PAID)
                   then Some(Ordering(a.plan.value)) else None)
            && Start(a, PlainCheckout(w, choice)) == (if a.plan != None then Some(Buying(choice)) else None)
            && Start(a, Submit(w, complete))
               == (if a.stage in early && !a.active && complete && a.documents && a.plan != None then Some(Freezing) else None)
  {
    assert HasPaid(a.rows) <==> exists r :: r in a.rows && a.rows[r].status == PAID;
  }

  /** A callback of the onboarding route is heard in four stages, for its own order's
      unpaid row; the plain one in any stage.  A webhook needs its signature, and a capture
      the amount, and renews if the restaurant runs already. */
  lemma PaymentRequestsAskFor(a: App, w: int, r: int, orderMatches: bool, signed: bool, amountMatches: bool)
    requires r in a.rows
    ensures var unpaid := a.rows[r].status != PAID;
            && Start(a, Verify(w, r, orderMatches, signed))
               == (if a.stage in {PAYMENT_PENDING, PAYMENT_FAILED, UNDER_REVIEW, PROVISIONING} && orderMatches && unpaid
                   then Some(if signed then Claiming(r) else Failing(r, false)) else None)
            && Start(a, PlainVerify(w, r, orderMatches, signed))
               == (if orderMatches && unpaid then Some(if signed then Renewing(r) else Voiding(r)) else None)
            && Start(a, Webhook(w, r, signed, Captured, amountMatches))
               == (if signed && amountMatches then Some(if a.active then Renewing(r) else Claiming(r)) else None)
            && Start(a, Webhook(w, r, signed, Failure, amountMatches)) == (if signed then Some(Failing(r, true)) else None)
            && Start(a, Webhook(w, r, signed, Ignored, amountMatches)) == None
  {}

  /** A receipt is booked in the two waiting stages of the manual flow, for the plan's
      amount; rejection needs an application that is not running; one lapses only while
      it waits. */
  lemma StaffRequestsAskFor(a: App, w: int, amountMatches: bool, manual: bool)
    ensures Start(a, MarkReceived(w, amountMatches))
            == if a.stage in {MANUAL_PENDING, MANUAL_PAYMENT_PENDING} && !a.active && a.plan != None && amountMatches
               then Some(Marking(a.plan.value)) else None
    ensures Start(a, Reject(w, manual)) == if a.active then None else Some(Rejecting(manual))
    ensures Start(a, Lapse(w))
            == if a.stage in {MANUAL_PENDING, MANUAL_PAYMENT_PENDING, MANUAL_PAYMENT_RECEIVED} && !a.active then Some(Lapsing) else None
  {}

  predicate OpensAt(a: App, es: seq<Event>, k: nat, w: int)
    requires k < |es|
  {
    var before, after := Run(a, es[..k]), Run(a, es[..k + 1]);
    w in after.jobs && after.jobs[w].Opening? && !(w in before.jobs && before.jobs[w].Opening?)
  }

  /** Along any run provisioning is opened only by an approval of a paid application with
      a document on file, by a manual approval of a received payment, or by automatic
      review of a verified capture. */
  lemma OpenedOnlyWithDocuments(a: App, es: seq<Event>, k: nat, w: int)
    requires k < |es| && OpensAt(a, es, k, w)
    ensures var before := Run(a, es[..k]);
            || (es[k] == Approve(w) && before.documents && exists r :: r in before.rows && before.rows[r].status == PAID)
            || (es[k] == ApproveManual(w) && before.stage == MANUAL_PAYMENT_RECEIVED)
            || (es[k].Step? && es[k].worker == w && w in before.jobs && before.jobs[w] == Finishing && before.auto)
  {
    var before := Run(a, es[..k]);
    RunNext(a, es, k);
    OpensBy(before, es[k], w);
    ApprovalOpensIff(before, w);
  }

  lemma OpensBy(a: App, e: Event, w: int)
    requires w in Apply(a, e).jobs && Apply(a, e).jobs[w].Opening? && !(w in a.jobs && a.jobs[w].Opening?)
    ensures || (e.Step? && e.worker == w && w in a.jobs && a.jobs[w] == Finishing && a.auto)
            || ((e == Approve(w) || e == ApproveManual(w)) && Start(a, e).Some?)
  {
    if e.Step? && e.worker in a.jobs {
      StepsTo(a, e.worker, e.newId);
      WriteOpens(a, a.jobs[e.worker], e.newId);
    } else {
      StartsOnly(a, e);
      BeginsBy(a, e, w);
      StartOpens(a, e);
    }
  }

  lemma WriteOpens(a: App, job: Job, newId: int)
    ensures var next := Write(a, job, newId).1; next.Some? && next.value.Opening? ==> job == Finishing && a.auto
  {}

  lemma StartOpens(a: App, e: Event)
    ensures Start(a, e).Some? && Start(a, e).value.Opening? ==> e.Approve? || e.ApproveManual?
  {}

  lemma BeginsBy(a: App, e: Event, w: int)
    requires w in Apply(a, e).jobs && w !in a.jobs && !e.Step?
    ensures !e.Fail? && !e.Review? && !e.SetMode? && e.worker == w && Start(a, e) == Some(Apply(a, e).jobs[w])
  {}

  // ---------- Nothing activates without payment and approval ----------

  /** A signed capture of the stored amount, a signed callback for the stored order, or
      a receipt of the plan's amount recorded by the administrator. */
  predicate Accepts(a: App, e: Event) {
    match e
    case Webhook(_, r, signed, kind, amountMatches) => signed && r in a.rows && kind.Captured? && amountMatches
    case Verify(_, r, orderMatches, signed) => signed && r in a.rows && orderMatches
    case PlainVerify(_, r, orderMatches, signed) => signed && r in a.rows && orderMatches
    case MarkReceived(_, amountMatches) => amountMatches
    case _ => false
  }

  /** An administrator's approval that passes its guard, or automatic review of a
      payment just verified. */
  predicate Approves(a: App, e: Event) {
    || (e.Approve? && MayApprove(a))
    || (e.ApproveManual? && MayApproveManually(a))
    || (e.Step? && e.worker in a.jobs && a.jobs[e.worker].Finishing? && a.auto)
  }

  predicate AcceptsAt(a: App, es: seq<Event>, i: nat)
    requires i < |es|
  {
    Accepts(Run(a, es[..i]), es[i])
  }

  predicate ApprovesAt(a: App, es: seq<Event>, i: nat)
    requires i < |es|
  {
    Approves(Run(a, es[..i]), es[i])
  }

  /** A payment was accepted among the first k events. */
  ghost predicate Accepted(a: App, es: seq<Event>, k: nat)
    requires k <= |es|
  {
    exists i: nat :: i < k && AcceptsAt(a, es, i)
  }

  /** And an approval came after it. */
  ghost predicate Approved(a: App, es: seq<Event>, k: nat)
    requires k <= |es|
  {
    exists i: nat, j: nat :: i < j < k && AcceptsAt(a, es, i) && ApprovesAt(a, es, j)
  }

  predicate Provisions(job: Job) { job.Opening? || job.Blocking? || job.Building? || job.Launching? || job.Labelling? }

  predicate Credits(job: Job) { job.Claiming? || job.Finishing? || job.Renewing? || job.Marking? || job.Recording? }

  /** The restaurant runs, or something only an activation leaves behind is there. */
  predicate Gated(a: App) { a.active || a.schema || a.subscribed || a.created != [] }

  /** What must have happened for the application to be as it is. */
  predicate Explained(a: App, accepted: bool, approved: bool) {
    && (HasPaid(a.rows) || a.stage.MANUAL_PAYMENT_RECEIVED? ==> accepted)
    && (Gated(a) ==> approved)
    && (forall w :: w in a.jobs && Credits(a.jobs[w]) ==> accepted)
    && (forall w :: w in a.jobs && Provisions(a.jobs[w]) ==> approved)
  }

  lemma StartIsExplained(a: App, e: Event, accepted: bool, approved: bool)
    requires Explained(a, accepted, approved) && Start(a, e).Some?
    ensures var job := Start(a, e).value;
            && (Credits(job) ==> accepted || Accepts(a, e))
            && (Provisions(job) ==> approved || (accepted && Approves(a, e)))
  {}

  lemma PaidByCredit(a: App, job: Job, newId: int)
    ensures HasPaid(Write(a, job, newId).0.rows) ==> HasPaid(a.rows) || Credits(job)
  {
    var b := Write(a, job, newId).0;
    if HasPaid(b.rows) && !Credits(job) {
      var r :| r in b.rows && b.rows[r].status.PAID?;
      PaidBefore(a, job, newId, r);
    }
  }

  lemma PaidBefore(a: App, job: Job, newId: int, r: int)
    requires var b := Write(a, job, newId).0; r in b.rows && b.rows[r].status.PAID? && !Credits(job)
    ensures r in a.rows && a.rows[r].status.PAID?
  {}

  /** A renewal, which POST /subscriptions/verify starts for applicants too, wins its
      claim: it activates without provisioning. */
  predicate RenewalLands(a: App, job: Job) {
    job.Renewing? && job.row in a.rows && !a.rows[job.row].status.PAID? && a.plan.Some?
  }

  predicate Renews(a: App, e: Event) { e.Step? && e.worker in a.jobs && RenewalLands(a, a.jobs[e.worker]) }

  lemma WriteKeeps(a: App, job: Job, newId: int)
    ensures var (b, next) := Write(a, job, newId);
            && b.jobs == a.jobs
            && (b.stage.MANUAL_PAYMENT_RECEIVED? ==> a.stage.MANUAL_PAYMENT_RECEIVED? || job.Marking?)
            && (Gated(b) ==> Gated(a) || Provisions(job) || RenewalLands(a, job))
            && (next.Some? && Credits(next.value) ==> Credits(job))
            && (next.Some? && Provisions(next.value) ==> Provisions(job) || (job.Finishing? && a.auto))
  {
    match job
    case Claiming(_) =>
    case Recording(_) =>
    case Launching(_, _) =>
    case _ =>
  }

  lemma ExplainedWrite(a: App, w: int, newId: int, accepted: bool, approved: bool)
    requires Explained(a, accepted, approved) && w in a.jobs && (RenewalLands(a, a.jobs[w]) ==> approved)
    ensures Explained(Apply(a, Step(w, newId)), accepted, approved || (accepted && a.jobs[w].Finishing? && a.auto))
  {
    PaidByCredit(a, a.jobs[w], newId);
    WriteKeeps(a, a.jobs[w], newId);
    StepsTo(a, w, newId);
  }

  lemma ExplainedStep(a: App, e: Event, accepted: bool, approved: bool)
    requires Explained(a, accepted, approved) && (Renews(a, e) ==> approved)
    ensures Explained(Apply(a, e), accepted || Accepts(a, e), approved || (accepted && Approves(a, e)))
  {
    if e.Step? && e.worker in a.jobs {
      ExplainedWrite(a, e.worker, e.newId, accepted, approved);
    } else {
      StartsOnly(a, e);
      if Start(a, e).Some? { StartIsExplained(a, e, accepted, approved); }
    }
  }

  lemma RunNext(a: App, es: seq<Event>, k: nat)
    requires k < |es|
    ensures Run(a, es[..k + 1]) == Apply(Run(a, es[..k]), es[k])
  {
    assert es[..k + 1][..k] == es[..k];
  }

  lemma AcceptedMore(a: App, es: seq<Event>, k: nat)
    requires k < |es| && (Accepted(a, es, k) || AcceptsAt(a, es, k))
    ensures Accepted(a, es, k + 1)
  {
    if Accepted(a, es, k) {
      var i: nat :| i < k && AcceptsAt(a, es, i);
    }
  }

  lemma ApprovedMore(a: App, es: seq<Event>, k: nat)
    requires k < |es| && (Approved(a, es, k) || (Accepted(a, es, k) && ApprovesAt(a, es, k)))
    ensures Approved(a, es, k + 1)
  {
    if Approved(a, es, k) {
      var i: nat, j: nat :| i < j < k && AcceptsAt(a, es, i) && ApprovesAt(a, es, j);
    } else {
      var i: nat :| i < k && AcceptsAt(a, es, i);
      assert ApprovesAt(a, es, k);
    }
  }

  lemma ApprovedLess(a: App, es: seq<Event>, k: nat)
    requires k < |es| && Approved(a, es, k + 1) && !ApprovesAt(a, es, k)
    ensures Approved(a, es, k)
  {
    var i: nat, j: nat :| i < j < k + 1 && AcceptsAt(a, es, i) && ApprovesAt(a, es, j);
  }

  lemma OneEventMore(a: App, es: seq<Event>, k: nat)
    requires k < |es|
    ensures Run(a, es[..k + 1]) == Apply(Run(a, es[..k]), es[k])
    ensures Accepted(a, es, k) || AcceptsAt(a, es, k) ==> Accepted(a, es, k + 1)
    ensures Approved(a, es, k) || (Accepted(a, es, k) && ApprovesAt(a, es, k)) ==> Approved(a, es, k + 1)
    ensures Approved(a, es, k + 1) && !ApprovesAt(a, es, k) ==> Approved(a, es, k)
  {
    RunNext(a, es, k);
    if Accepted(a, es, k) || AcceptsAt(a, es, k) { AcceptedMore(a, es, k); }
    if Approved(a, es, k) || (Accepted(a, es, k) && ApprovesAt(a, es, k)) { ApprovedMore(a, es, k); }
    if Approved(a, es, k + 1) && !ApprovesAt(a, es, k) { ApprovedLess(a, es, k); }
  }

  predicate RenewsAt(a: App, es: seq<Event>, i: nat)
    requires i < |es|
  {
    Renews(Run(a, es[..i]), es[i])
  }

  /** Every renewal that lands finds the application approved. */
  ghost predicate RenewedAfterApproval(a: App, es: seq<Event>, k: nat)
    requires k <= |es|
  {
    forall i: nat :: i < k && RenewsAt(a, es, i) ==> Approved(a, es, i)
  }

  /** The gate: at no point of the run is anything activated that was not paid and then
      approved. */
  ghost predicate GateHolds(a: App, es: seq<Event>) {
    forall k :: 0 <= k <= |es| && Gated(Run(a, es[..k])) ==> Approved(a, es, k)
  }

  lemma {:induction false} RunIsExplained(a: App, es: seq<Event>, k: nat)
    requires Registered(a) && k <= |es| && RenewedAfterApproval(a, es, k)
    ensures Explained(Run(a, es[..k]), Accepted(a, es, k), Approved(a, es, k))
  {
    if k > 0 {
      RunIsExplained(a, es, k - 1);
      assert RenewsAt(a, es, k - 1) ==> Approved(a, es, k - 1);
      ExplainedStep(Run(a, es[..k - 1]), es[k - 1], Accepted(a, es, k - 1), Approved(a, es, k - 1));
      OneEventMore(a, es, k - 1);
    }
  }

  lemma RenewalGates(a: App, e: Event)
    requires Renews(a, e)
    ensures Gated(Apply(a, e)) && !Approves(a, e)
  {
    StepsTo(a, e.worker, e.newId);
  }

  /** Over every interleaving, crash and retry: whatever is active, has a tenant schema, a
      subscription or a creation row was paid for by an accepted payment and approved
      after that, throughout the run exactly when no renewal lands before the approval. */
  lemma ActivationNeedsPaymentThenApprovalIff(a: App, es: seq<Event>)
    requires Registered(a)
    ensures GateHolds(a, es) <==> RenewedAfterApproval(a, es, |es|)
  {
    if RenewedAfterApproval(a, es, |es|) {
      forall k | 0 <= k <= |es| && Gated(Run(a, es[..k])) ensures Approved(a, es, k) { RunIsExplained(a, es, k); }
    }
    if GateHolds(a, es) {
      forall k: nat | k < |es| && RenewsAt(a, es, k) ensures Approved(a, es, k) {
        RenewalGates(Run(a, es[..k]), es[k]);
        OneEventMore(a, es, k);
        assert Gated(Run(a, es[..k + 1]));
      }
    }
  }

  /** A signed plain verification of an unpaid row that starts on an inactive application. */
  predicate VerifiesEarly(a: App, e: Event) { e.PlainVerify? && e.signed && !a.active && Start(a, e).Some? && e.worker !in a.jobs }

  predicate RenewingApproved(a: App, approved: bool) { forall w :: w in a.jobs && a.jobs[w].Renewing? ==> approved }

  lemma RenewingStep(a: App, e: Event, approved: bool)
    requires RenewingApproved(a, approved) && (a.active ==> approved) && !VerifiesEarly(a, e)
    ensures RenewingApproved(Apply(a, e), approved)
  {
    if e.Step? && e.worker in a.jobs {
      StepsTo(a, e.worker, e.newId);
      WriteNeverRenews(a, a.jobs[e.worker], e.newId);
    }
  }

  lemma WriteNeverRenews(a: App, job: Job, newId: int)
    ensures Write(a, job, newId).1.Some? ==> !Write(a, job, newId).1.value.Renewing?
  {}

  predicate VerifiesEarlyAt(a: App, es: seq<Event>, i: nat)
    requires i < |es|
  {
    VerifiesEarly(Run(a, es[..i]), es[i])
  }

  lemma {:induction false} NoEarlyRenewals(a: App, es: seq<Event>, k: nat)
    requires Registered(a) && k <= |es| && forall j: nat :: j < |es| ==> !VerifiesEarlyAt(a, es, j)
    ensures RenewedAfterApproval(a, es, k) && RenewingApproved(Run(a, es[..k]), Approved(a, es, k))
  {
    if k > 0 {
      var before := Run(a, es[..k - 1]);
      NoEarlyRenewals(a, es, k - 1);
      RunIsExplained(a, es, k - 1);
      assert RenewsAt(a, es, k - 1) ==> Approved(a, es, k - 1);
      assert !VerifiesEarlyAt(a, es, k - 1);
      RenewingStep(before, es[k - 1], Approved(a, es, k - 1));
      OneEventMore(a, es, k - 1);
    }
  }

  /** Applicants who only use the onboarding routes pass the gate: it holds throughout
      every run in which no signed plain verification starts on an inactive application. */
  lemma OnboardingRoutesKeepTheGate(a: App, es: seq<Event>)
    requires Registered(a) && forall j: nat :: j < |es| ==> !VerifiesEarlyAt(a, es, j)
    ensures GateHolds(a, es)
  {
    NoEarlyRenewals(a, es, |es|);
    ActivationNeedsPaymentThenApprovalIff(a, es);
  }

  function VerifiedPlainly(a: App, r: int): App
    requires r in a.rows
  {
    a.(rows := a.rows[r := a.rows[r].(status := PAID)], plan := Some(a.rows[r].plan), active := true, subscribed := true)
  }

  lemma PlainVerifyBegins(a: App, w: int, r: int)
    requires r in a.rows && !a.rows[r].status.PAID? && w !in a.jobs
    ensures Apply(a, PlainVerify(w, r, true, true)) == a.(jobs := a.jobs[w := Renewing(r)])
  {}

  lemma RenewalCommits(a: App, w: int, r: int)
    requires a.plan.Some? && r in a.rows && !a.rows[r].status.PAID? && w !in a.jobs
    ensures Apply(a.(jobs := a.jobs[w := Renewing(r)]), Step(w, 0)) == VerifiedPlainly(a, r)
  {
    assert a.jobs[w := Renewing(r)] - {w} == a.jobs;
  }

  /** Such a verification, run undisturbed, always activates: no approval, no schema and
      no creation row are needed. */
  lemma PlainVerifyActivates(a: App, w: int, r: int)
    requires a.plan.Some? && r in a.rows && !a.rows[r].status.PAID? && w !in a.jobs
    ensures Run(a, [PlainVerify(w, r, true, true), Step(w, 0)]) == VerifiedPlainly(a, r)
  {
    var es := [PlainVerify(w, r, true, true), Step(w, 0)];
    assert es[..0] == [] && es[..2] == es;
    OneEventMore(a, es, 0);
    OneEventMore(a, es, 1);
    PlainVerifyBegins(a, w, r);
    RenewalCommits(a, w, r);
  }

  /** A registered applicant with a plan and an unpaid row gets past the gate this way. */
  lemma PlainVerifyPassesTheGate(a: App, w: int, r: int)
    requires Registered(a) && a.plan.Some? && r in a.rows
    ensures var es := [PlainVerify(w, r, true, true), Step(w, 0)];
            && Run(a, es).active && Run(a, es).subscribed && !Run(a, es).schema && Run(a, es).created == []
            && !GateHolds(a, es)
  {
    PlainVerifyActivates(a, w, r);
    var es := [PlainVerify(w, r, true, true), Step(w, 0)];
    assert es[..0] == [] && es[..2] == es && Gated(Run(a, es[..2]));
    RunNext(a, es, 0);
    assert Run(a, es[..1]).jobs[w] == Renewing(r);
    assert !ApprovesAt(a, es, 1) && !Approved(a, es, 2);
  }

  // ---------- Activated once ----------

  predicate Launches(a: App, e: Event) { e.Step? && e.worker in a.jobs && a.jobs[e.worker].Launching? }

  /** A write that takes a running restaurant out of service: a freeze or a rejection
      begun before the activation, or a second provisioning. */
  predicate Stops(a: App, e: Event) {
    && a.active && e.Step? && e.worker in a.jobs
    && var job := a.jobs[e.worker];
       (job.Blocking? || job.Rejecting? || (job.Freezing? && !a.stage.MANUAL_PENDING?))
  }

  /** A renewal puts a restaurant that is not running into service, without a CREATION row. */
  predicate Revives(a: App, e: Event) { !a.active && Renews(a, e) }

  function One(b: bool): nat { if b then 1 else 0 }

  function Stopped(a: App, es: seq<Event>): nat {
    if es == [] then 0 else Stopped(a, es[..|es| - 1]) + One(Stops(Run(a, es[..|es| - 1]), es[|es| - 1]))
  }

  function Revived(a: App, es: seq<Event>): nat {
    if es == [] then 0 else Revived(a, es[..|es| - 1]) + One(Revives(Run(a, es[..|es| - 1]), es[|es| - 1]))
  }

  function Relaunched(a: App, es: seq<Event>): nat {
    if es == [] then 0
    else
      var before := Run(a, es[..|es| - 1]);
      Relaunched(a, es[..|es| - 1]) + One(Launches(before, es[|es| - 1]) && before.active)
  }

  /** The books of activation: every CREATION row and every activation by a renewal is the
      restaurant now running, one that was stopped since, or one launched over a running
      restaurant. */
  lemma {:induction false} CreationBalance(a: App, es: seq<Event>)
    requires Registered(a)
    ensures |Run(a, es).created| + Revived(a, es) == One(Run(a, es).active) + Stopped(a, es) + Relaunched(a, es)
  {
    if es != [] {
      CreationBalance(a, es[..|es| - 1]);
      CreationStep(Run(a, es[..|es| - 1]), es[|es| - 1]);
    }
  }

  lemma LaunchCreates(a: App, job: Job, newId: int)
    ensures |Write(a, job, newId).0.created| == |a.created| + One(job.Launching?)
  {
    if job.Launching? { assert |a.created + [job.plan]| == |a.created| + 1; }
  }

  predicate Deactivates(a: App, job: Job) { job.Blocking? || job.Rejecting? || (job.Freezing? && !a.stage.MANUAL_PENDING?) }

  lemma ActiveAfter(a: App, job: Job, newId: int)
    ensures Write(a, job, newId).0.active <==> job.Launching? || RenewalLands(a, job) || (a.active && !Deactivates(a, job))
  {}

  lemma CreationStep(a: App, e: Event)
    ensures |Apply(a, e).created| + One(Revives(a, e)) + One(a.active)
            == |a.created| + One(Apply(a, e).active) + One(Stops(a, e)) + One(Launches(a, e) && a.active)
    ensures Stops(a, e) <==> a.active && !Apply(a, e).active
  {
    if e.Step? && e.worker in a.jobs {
      LaunchCreates(a, a.jobs[e.worker], e.newId);
      ActiveAfter(a, a.jobs[e.worker], e.newId);
      StepsTo(a, e.worker, e.newId);
    } else {
      StartsOnly(a, e);
    }
  }

  predicate StaysActive(a: App, es: seq<Event>) {
    forall i, j :: 0 <= i <= j <= |es| && Run(a, es[..i]).active ==> Run(a, es[..j]).active
  }

  lemma {:induction false} ActiveUntilStopped(a: App, es: seq<Event>, i: nat)
    requires i <= |es| && Run(a, es[..i]).active && Stopped(a, es) == Stopped(a, es[..i])
    ensures Run(a, es).active
  {
    if i == |es| {
      assert es[..i] == es;
    } else {
      var before := es[..|es| - 1];
      assert before[..i] == es[..i];
      StoppedGrows(a, before, i);
      ActiveUntilStopped(a, before, i);
      CreationStep(Run(a, before), es[|es| - 1]);
    }
  }

  lemma {:induction false} StoppedGrows(a: App, es: seq<Event>, i: nat)
    requires i <= |es|
    ensures Stopped(a, es[..i]) <= Stopped(a, es)
  {
    if i == |es| {
      assert es[..i] == es;
    } else {
      assert es[..|es| - 1][..i] == es[..i];
      StoppedGrows(a, es[..|es| - 1], i);
    }
  }

  lemma {:induction false} FirstStop(a: App, es: seq<Event>) returns (k: nat)
    requires Stopped(a, es) > 0
    ensures k < |es| && Stops(Run(a, es[..k]), es[k])
  {
    if Stops(Run(a, es[..|es| - 1]), es[|es| - 1]) {
      k := |es| - 1;
    } else {
      k := FirstStop(a, es[..|es| - 1]);
      assert es[..|es| - 1][..k] == es[..k];
    }
  }

  lemma UnstoppedStays(a: App, es: seq<Event>, i: nat, j: nat)
    requires Stopped(a, es) == 0 && i <= j <= |es| && Run(a, es[..i]).active
    ensures Run(a, es[..j]).active
  {
    StoppedGrows(a, es, j);
    StoppedGrows(a, es, i);
    assert es[..j][..i] == es[..i];
    ActiveUntilStopped(a, es[..j], i);
  }

  lemma StoppedStops(a: App, es: seq<Event>)
    requires Stopped(a, es) > 0
    ensures !StaysActive(a, es)
  {
    var k := FirstStop(a, es);
    OneEventMore(a, es, k);
    CreationStep(Run(a, es[..k]), es[k]);
    assert Run(a, es[..k]).active && !Run(a, es[..k + 1]).active;
  }

  /** Once running a restaurant stays running exactly when no freeze, rejection or
      second provisioning commits on it; and then it has at most one CREATION row
      beyond those written over it. */
  lemma ActivationLastsIff(a: App, es: seq<Event>)
    requires Registered(a)
    ensures StaysActive(a, es) <==> Stopped(a, es) == 0
    ensures Stopped(a, es) == 0 ==> |Run(a, es).created| <= 1 + Relaunched(a, es)
  {
    CreationBalance(a, es);
    if Stopped(a, es) == 0 {
      forall i, j | 0 <= i <= j <= |es| && Run(a, es[..i]).active ensures Run(a, es[..j]).active { UnstoppedStays(a, es, i, j); }
    } else {
      StoppedStops(a, es);
    }
  }

  // ---------- The plan paid for ----------

  predicate Carries(job: Job) { job.Blocking? || job.Building? || job.Launching? }

  ghost predicate OnePlan(a: App) {
    && (forall r :: r in a.rows ==> a.plan == Some(a.rows[r].plan))
    && (forall w :: w in a.jobs && Carries(a.jobs[w]) ==>
          a.plan == Some(a.jobs[w].plan) && AnyRow(a.rows))
    && (forall k :: 0 <= k < |a.created| ==> a.plan == Some(a.created[k]) && AnyRow(a.rows))
  }

  /** A plan is chosen, or a payment row written, that disagrees with the other side. */
  predicate Mixes(a: App, e: Event) {
    e.Step? && e.worker in a.jobs && MixesIn(a, a.jobs[e.worker], e.newId)
  }

  predicate MixesIn(a: App, job: Job, newId: int) {
    match job
    case Selecting(choice) => AnyRow(a.rows) && a.plan != Some(choice)
    case Recording(plan) => !HasPaid(a.rows) && newId !in a.rows && a.plan != Some(plan)
    case Ordering(plan) => newId !in a.rows && a.plan != Some(plan)
    case Buying(plan) => newId !in a.rows && a.plan != Some(plan)
    case _ => false
  }

  lemma StatusSet(rows: map<int, Row>, x: int, status: RowStatus, r: int)
    requires x in rows && r in rows
    ensures var after := rows[x := rows[x].(status := status)]; r in after && after[r].plan == rows[r].plan
  {}

  lemma RowKept(a: App, job: Job, newId: int, r: int)
    requires r in a.rows
    ensures var b := Write(a, job, newId).0; r in b.rows && b.rows[r].plan == a.rows[r].plan
  {
    match job
    case Failing(x, _) => if x in a.rows { StatusSet(a.rows, x, FAILED, r); }
    case Voiding(x) => if x in a.rows { StatusSet(a.rows, x, FAILED, r); }
    case Claiming(x) => if x in a.rows { StatusSet(a.rows, x, PAID, r); }
    case Renewing(x) => if x in a.rows { StatusSet(a.rows, x, PAID, r); }
    case Recording(_) =>
    case Ordering(_) =>
    case Buying(_) =>
    case _ =>
  }

  lemma RowIsNew(a: App, job: Job, newId: int, r: int)
    requires r in Write(a, job, newId).0.rows && r !in a.rows
    ensures (job.Recording? && !HasPaid(a.rows)) || job.Ordering? || job.Buying?
    ensures r == newId && Write(a, job, newId).0.rows[r].plan == job.plan
  {}

  lemma PlanAfter(a: App, job: Job, newId: int)
    ensures var b := Write(a, job, newId).0;
            b.plan == match job case Selecting(choice) => Some(choice) case Launching(plan, _) => Some(plan)
                     case Renewing(r) => if RenewalLands(a, job) then Some(a.rows[r].plan) else a.plan case _ => a.plan
  {}

  lemma PlansAfter(a: App, job: Job, newId: int)
    requires OnePlan(a) && (Carries(job) ==> a.plan == Some(job.plan) && AnyRow(a.rows))
    requires !MixesIn(a, job, newId)
    ensures var b := Write(a, job, newId).0;
            && (AnyRow(a.rows) ==> b.plan == a.plan && AnyRow(b.rows))
            && (forall r :: r in b.rows ==> b.plan == Some(b.rows[r].plan))
  {
    PlanAfter(a, job, newId);
    var b := Write(a, job, newId).0;
    if AnyRow(a.rows) {
      var r :| r in a.rows;
      RowKept(a, job, newId, r);
      assert r in b.rows;
    }
    forall r | r in b.rows ensures b.plan == Some(b.rows[r].plan) {
      if r in a.rows {
        RowKept(a, job, newId, r);
        assert AnyRow(a.rows);
      } else {
        RowIsNew(a, job, newId, r);
      }
    }
  }

  lemma CarriedPlan(a: App, job: Job, newId: int)
    requires Carries(job) ==> a.plan == Some(job.plan)
    ensures var (b, next) := Write(a, job, newId);
            && (next.Some? && Carries(next.value) ==> a.plan == Some(next.value.plan) && (Carries(job) || HasPaid(a.rows)))
            && b.created == (if job.Launching? then a.created + [job.plan] else a.created)
  {}

  lemma CarriersAgree(a: App, after: App, w: int)
    requires OnePlan(a) && (AnyRow(a.rows) ==> after.plan == a.plan && AnyRow(after.rows))
    requires w in after.jobs && Carries(after.jobs[w]) ==> a.plan == Some(after.jobs[w].plan) && AnyRow(a.rows)
    requires forall v :: v in after.jobs && v != w ==> v in a.jobs && after.jobs[v] == a.jobs[v]
    ensures forall v :: v in after.jobs && Carries(after.jobs[v]) ==> after.plan == Some(after.jobs[v].plan) && AnyRow(after.rows)
  {}

  lemma CreationsAgree(a: App, job: Job, after: App)
    requires OnePlan(a) && (AnyRow(a.rows) ==> after.plan == a.plan && AnyRow(after.rows))
    requires job.Launching? ==> AnyRow(a.rows) && a.plan == Some(job.plan)
    requires after.created == if job.Launching? then a.created + [job.plan] else a.created
    ensures forall k :: 0 <= k < |after.created| ==> after.plan == Some(after.created[k]) && AnyRow(after.rows)
  {
    forall k | 0 <= k < |after.created| ensures after.plan == Some(after.created[k]) && AnyRow(after.rows) {
      if k < |a.created| { assert after.created[k] == a.created[k]; }
    }
  }

  lemma OnePlanWrite(a: App, e: Event)
    requires OnePlan(a) && e.Step? && e.worker in a.jobs && !Mixes(a, e)
    ensures OnePlan(Apply(a, e))
  {
    var job := a.jobs[e.worker];
    PlansAfter(a, job, e.newId);
    CarriedPlan(a, job, e.newId);
    StepsTo(a, e.worker, e.newId);
    assert HasPaid(a.rows) ==> AnyRow(a.rows);
    CarriersAgree(a, Apply(a, e), e.worker);
    CreationsAgree(a, job, Apply(a, e));
  }

  lemma RowAdded(a: App, job: Job, newId: int)
    requires MixesIn(a, job, newId) && !job.Selecting?
    ensures var b := Write(a, job, newId).0; newId in b.rows && b.rows[newId].plan == job.plan
  {}

  lemma MixedPlans(a: App, e: Event)
    requires OnePlan(a) && Mixes(a, e)
    ensures !OnePlan(Apply(a, e))
  {
    var b, job := Apply(a, e), a.jobs[e.worker];
    StepsTo(a, e.worker, e.newId);
    PlanAfter(a, job, e.newId);
    if job.Selecting? {
      var r :| r in a.rows;
      RowKept(a, job, e.newId, r);
      assert r in b.rows && b.rows[r].plan == a.rows[r].plan;
    } else {
      RowAdded(a, job, e.newId);
    }
  }

  lemma OnePlanStep(a: App, e: Event)
    requires OnePlan(a)
    ensures OnePlan(Apply(a, e)) <==> !Mixes(a, e)
  {
    if Mixes(a, e) {
      MixedPlans(a, e);
    } else if e.Step? && e.worker in a.jobs {
      OnePlanWrite(a, e);
    } else {
      OnePlanStart(a, e);
    }
  }

  lemma StartNeverCarries(a: App, e: Event)
    ensures Start(a, e).Some? ==> !Carries(Start(a, e).value)
  {}

  lemma OnePlanStart(a: App, e: Event)
    requires OnePlan(a) && !(e.Step? && e.worker in a.jobs)
    ensures OnePlan(Apply(a, e))
  {
    var b := Apply(a, e);
    StartsOnly(a, e);
    StartNeverCarries(a, e);
    SamePlans(a, b);
  }

  lemma SamePlans(a: App, b: App)
    requires OnePlan(a) && SameRows(a, b)
    requires forall w :: w in b.jobs && Carries(b.jobs[w]) ==> w in a.jobs && b.jobs[w] == a.jobs[w]
    ensures OnePlan(b)
  {}

  lemma {:induction false} OnePlanRun(a: App, es: seq<Event>)
    requires OnePlan(a) && forall k :: 0 <= k < |es| ==> !Mixes(Run(a, es[..k]), es[k])
    ensures OnePlan(Run(a, es))
  {
    if es != [] {
      var before := es[..|es| - 1];
      forall k | 0 <= k < |before| ensures !Mixes(Run(a, before[..k]), before[k]) {
        assert before[..k] == es[..k];
      }
      OnePlanRun(a, before);
      OnePlanStep(Run(a, before), es[|es| - 1]);
    }
  }

  lemma OnePlanUpTo(a: App, es: seq<Event>, k: nat)
    requires OnePlan(a) && k <= |es| && forall j :: 0 <= j < |es| ==> !Mixes(Run(a, es[..j]), es[j])
    ensures OnePlan(Run(a, es[..k]))
  {
    forall j | 0 <= j < k ensures !Mixes(Run(a, es[..k][..j]), es[..k][j]) {
      assert es[..k][..j] == es[..j];
    }
    OnePlanRun(a, es[..k]);
  }

  /** Throughout a run every payment, every activation and the selected plan agree,
      exactly when no plan is selected against an existing payment and no payment is
      written against a plan changed meanwhile. */
  lemma ActivatedPlanIsPaidForIff(a: App, es: seq<Event>)
    requires Registered(a) && a.rows == map[]
    ensures (forall k :: 0 <= k <= |es| ==> OnePlan(Run(a, es[..k])))
            <==> (forall k :: 0 <= k < |es| ==> !Mixes(Run(a, es[..k]), es[k]))
  {
    if forall k :: 0 <= k < |es| ==> !Mixes(Run(a, es[..k]), es[k]) {
      forall k | 0 <= k <= |es| ensures OnePlan(Run(a, es[..k])) { OnePlanUpTo(a, es, k); }
    }
    if forall k :: 0 <= k <= |es| ==> OnePlan(Run(a, es[..k])) {
      forall k | 0 <= k < |es| ensures !Mixes(Run(a, es[..k]), es[k]) {
        assert es[..k + 1][..k] == es[..k];
        assert OnePlan(Run(a, es[..k + 1]));
        OnePlanStep(Run(a, es[..k]), es[k]);
      }
    }
  }

  // ---------- Approving twice ----------

  /** The request's next n writes, with nothing in between. */
  function Steps(a: App, w: int, newId: int, n: nat): App {
    if n == 0 then a else Apply(Steps(a, w, newId, n - 1), Step(w, newId))
  }

  /** Once a restaurant runs, further approvals one after another change nothing. */
  lemma {:induction false} LaterApprovalsChangeNothing(a: App, es: seq<Event>, w: int)
    requires Live(a) && w !in a.jobs
    requires forall i :: 0 <= i < |es| ==> es[i] == Approve(w) || es[i] == ApproveManual(w) || (es[i].Step? && es[i].worker == w)
    ensures Run(a, es) == a
  {
    if es != [] { LaterApprovalsChangeNothing(a, es[..|es| - 1], w); }
  }

  function Activated(a: App, plan: int): App {
    a.(active := true, schema := true, stage := LIVE, plan := Some(plan), subscribed := true, created := a.created + [plan])
  }

  lemma StepMore(a: App, w: int, newId: int, n: nat)
    ensures Steps(a, w, newId, n + 1) == Apply(Steps(a, w, newId, n), Step(w, newId))
  {}

  lemma BlockStep(a: App, w: int, newId: int, plan: int)
    requires w in a.jobs && a.jobs[w] == Blocking(plan, false)
    ensures Apply(a, Step(w, newId)) == a.(stage := PROVISIONING, active := false, jobs := a.jobs[w := Building(plan, false)])
  {}

  lemma BuildStep(a: App, w: int, newId: int, plan: int)
    requires w in a.jobs && a.jobs[w] == Building(plan, false)
    ensures Apply(a, Step(w, newId)) == a.(schema := true, jobs := a.jobs[w := Launching(plan, false)])
  {}

  lemma LaunchStep(a: App, w: int, newId: int, plan: int)
    requires w in a.jobs && a.jobs[w] == Launching(plan, false)
    ensures Apply(a, Step(w, newId)) == a.(active := true, stage := LIVE, plan := Some(plan), subscribed := true,
                                           created := a.created + [plan], jobs := Without(a.jobs, w))
  {}

  lemma Provision(a: App, w: int, newId: int, plan: int)
    requires w in a.jobs && a.jobs[w] == Blocking(plan, false)
    ensures Steps(a, w, newId, 3) == Activated(a, plan).(jobs := Without(a.jobs, w))
  {
    var one := a.(stage := PROVISIONING, active := false, jobs := a.jobs[w := Building(plan, false)]);
    var two := one.(schema := true, jobs := a.jobs[w := Launching(plan, false)]);
    BlockStep(a, w, newId, plan);
    StepMore(a, w, newId, 0);
    BuildStep(one, w, newId, plan);
    assert one.jobs[w := Launching(plan, false)] == two.jobs;
    StepMore(a, w, newId, 1);
    LaunchStep(two, w, newId, plan);
    assert Without(two.jobs, w) == Without(a.jobs, w);
    StepMore(a, w, newId, 2);
  }

  lemma Opened(a: App, w: int, newId: int)
    requires w in a.jobs && a.jobs[w] == Opening(false) && !Live(a) && a.plan.Some? && HasPaid(a.rows)
    ensures Apply(a, Step(w, newId)) == a.(jobs := a.jobs[w := Blocking(a.plan.value, false)])
  {}

  lemma Begun(a: App, w: int)
    requires MayApprove(a) && w !in a.jobs
    ensures Apply(a, Approve(w)) == a.(jobs := a.jobs[w := Opening(false)])
    ensures MayApprove(Apply(a, Approve(w)))
  {}

  function BothOpen(a: App, w: int, v: int, newId: int): App {
    Apply(Apply(Apply(Apply(a, Approve(w)), Approve(v)), Step(w, newId)), Step(v, newId))
  }

  lemma BothOpened(a: App, w: int, v: int, newId: int)
    requires MayApprove(a) && w != v && w !in a.jobs && v !in a.jobs
    ensures var plan := a.plan.value;
            BothOpen(a, w, v, newId) == a.(jobs := a.jobs[w := Blocking(plan, false)][v := Blocking(plan, false)])
  {
    var open, block := Opening(false), Blocking(a.plan.value, false);
    Begun(a, w);
    Begun(a.(jobs := a.jobs[w := open]), v);
    var begun := a.(jobs := a.jobs[w := open][v := open]);
    Opened(begun, w, newId);
    assert begun.jobs[w := block] == a.jobs[w := block][v := open];
    var one := a.(jobs := a.jobs[w := block][v := open]);
    Opened(one, v, newId);
    assert one.jobs[v := block] == a.jobs[w := block][v := block];
  }

  lemma Stumble(a: App, v: int, newId: int, plan: int)
    requires v in a.jobs && a.jobs[v] == Blocking(plan, false)
    ensures Apply(Apply(a, Step(v, newId)), Fail(v)) == a.(active := false, stage := UNDER_REVIEW, jobs := Without(a.jobs, v))
  {
    var mid := Apply(a, Step(v, newId));
    assert mid == a.(stage := PROVISIONING, active := false, jobs := a.jobs[v := Building(plan, false)]);
    assert Without(mid.jobs, v) == Without(a.jobs, v);
  }

  lemma Removed(jobs: map<int, Job>, w: int, v: int, job: Job)
    requires w != v && w !in jobs && v !in jobs
    ensures Without(jobs[w := job][v := job], w) == jobs[v := job] && Without(jobs[v := job], v) == jobs
  {}

  /** Two approvals that both pass their guards before either activates: the restaurant
      gets two CREATION rows, and if the second stumbles it is out of service again. */
  lemma ConcurrentApprovalsCreateTwice(a: App, w: int, v: int, newId: int)
    requires MayApprove(a) && w != v && w !in a.jobs && v !in a.jobs
    ensures var first := Steps(BothOpen(a, w, v, newId), w, newId, 3);
            && Steps(first, v, newId, 3) == Activated(Activated(a, a.plan.value), a.plan.value)
            && Apply(Apply(first, Step(v, newId)), Fail(v)) == Activated(a, a.plan.value).(active := false, stage := UNDER_REVIEW)
  {
    var plan := a.plan.value;
    BothOpened(a, w, v, newId);
    Removed(a.jobs, w, v, Blocking(plan, false));
    var both := BothOpen(a, w, v, newId);
    Provision(both, w, newId, plan);
    var first := Steps(both, w, newId, 3);
    assert first == Activated(a, plan).(jobs := a.jobs[v := Blocking(plan, false)]);
    Provision(first, v, newId, plan);
    Stumble(first, v, newId, plan);
  }

  /** A general approval with nothing in between. */
  function Approval(a: App, w: int, newId: int): App { Steps(Apply(Apply(a, Approve(w)), Step(w, newId)), w, newId, 3) }

  lemma ApprovalActivates(a: App, w: int, newId: int)
    requires MayApprove(a) && w !in a.jobs
    ensures Approval(a, w, newId) == Activated(a, a.plan.value)
  {
    Begun(a, w);
    var begun := a.(jobs := a.jobs[w := Opening(false)]);
    Opened(begun, w, newId);
    var block := Blocking(a.plan.value, false);
    assert begun.jobs[w := block] == a.jobs[w := block];
    var ready := a.(jobs := a.jobs[w := block]);
    Provision(ready, w, newId, a.plan.value);
    assert Without(ready.jobs, w) == a.jobs;
  }

  /** A rejection does not close the application: with a payment on record the general
      approval still activates it, whatever the rejection reason; the manual-flow
      approval, and a rejection made in that flow, do stop it. */
  lemma RejectedMayStillBeApproved(a: App, w: int, newId: int)
    requires a.documents && a.plan.Some? && HasPaid(a.rows) && !Live(a) && w !in a.jobs
    ensures a.stage.REJECTED? ==> Approval(a, w, newId) == Activated(a, a.plan.value)
    ensures a.stage.REJECTED? ==> Apply(a, ApproveManual(w)) == a
    ensures a.stage.MANUAL_REJECTED? ==> Apply(a, Approve(w)) == a && Apply(a, ApproveManual(w)) == a
  {
    if a.stage.REJECTED? { ApprovalActivates(a, w, newId); }
  }

  // ---------- Requests that run undisturbed ----------

  lemma {:induction false} StepsIdle(a: App, w: int, newId: int, n: nat)
    requires w !in a.jobs
    ensures Steps(a, w, newId, n) == a
  {
    if n > 0 { StepsIdle(a, w, newId, n - 1); }
  }

  lemma ApprovalIdle(a: App, w: int, newId: int)
    requires w !in a.jobs && !MayApprove(a)
    ensures Approval(a, w, newId) == a
  {
    StepsIdle(a, w, newId, 3);
  }

  lemma {:induction false} StepsAdd(a: App, w: int, newId: int, m: nat, n: nat)
    ensures Steps(a, w, newId, m + n) == Steps(Steps(a, w, newId, m), w, newId, n)
  {
    if n > 0 {
      StepsAdd(a, w, newId, m, n - 1);
      StepMore(a, w, newId, m + n - 1);
      StepMore(Steps(a, w, newId, m), w, newId, n - 1);
    }
  }

  /** A general approval with nothing in between, which may fail at either step. */
  function ApprovalRun(a: App, w: int, newId: int, buildFails: bool, launchFails: bool): App {
    var blocked := Steps(Apply(a, Approve(w)), w, newId, 2);
    if buildFails then Apply(blocked, Fail(w))
    else if launchFails then Apply(Apply(blocked, Step(w, newId)), Fail(w))
    else Apply(Apply(blocked, Step(w, newId)), Step(w, newId))
  }

  lemma ApprovalRunIdle(a: App, w: int, newId: int, buildFails: bool, launchFails: bool)
    requires a.jobs == map[] && !MayApprove(a)
    ensures ApprovalRun(a, w, newId, buildFails, launchFails) == a
  {
    StepsIdle(a, w, newId, 2);
    assert Without(a.jobs, w) == a.jobs;
  }

  lemma ApprovalBlocks(a: App, w: int, newId: int)
    requires a.jobs == map[] && MayApprove(a)
    ensures Steps(Apply(a, Approve(w)), w, newId, 2)
            == a.(stage := PROVISIONING, active := false, jobs := map[w := Building(a.plan.value, false)])
  {
    var plan := a.plan.value;
    Begun(a, w);
    var begun := a.(jobs := a.jobs[w := Opening(false)]);
    Opened(begun, w, newId);
    StepMore(begun, w, newId, 0);
    var open := begun.(jobs := begun.jobs[w := Blocking(plan, false)]);
    BlockStep(open, w, newId, plan);
    StepMore(begun, w, newId, 1);
    assert open.jobs[w := Building(plan, false)] == map[w := Building(plan, false)];
  }

  /** An approval ends running with one creation row more, or back under review with its
      payment, keeping the schema if it was built. */
  lemma ApprovalRunIs(a: App, w: int, newId: int, buildFails: bool, launchFails: bool)
    requires a.jobs == map[] && MayApprove(a)
    ensures ApprovalRun(a, w, newId, buildFails, launchFails) ==
            if buildFails then a.(active := false, stage := UNDER_REVIEW)
            else if launchFails then a.(active := false, schema := true, stage := UNDER_REVIEW)
            else Activated(a, a.plan.value)
  {
    var plan := a.plan.value;
    ApprovalBlocks(a, w, newId);
    var blocked := Steps(Apply(a, Approve(w)), w, newId, 2);
    assert Without(map[w := Building(plan, false)], w) == map[];
    BuildStep(blocked, w, newId, plan);
    var built := Apply(blocked, Step(w, newId));
    assert built.jobs == map[w := Launching(plan, false)];
    assert Without(map[w := Launching(plan, false)], w) == map[];
    LaunchStep(built, w, newId, plan);
  }
}

/** The flows the onboarding suites walk through, for every application they apply to. */
module OnboardingFlows {
  import opened Prelude
  import opened Onboarding

  function Alone(a: App, w: int, job: Job): App { a.(jobs := map[w := job]) }

  lemma BeginsAlone(a: App, w: int, job: Job)
    requires a.jobs == map[]
    ensures Begin(a, w, job) == Alone(a, w, job)
  {
    assert a.jobs[w := job] == map[w := job];
  }

  lemma StepsAlone(a: App, w: int, job: Job, newId: int)
    ensures var (b, next) := Write(Alone(a, w, job), job, newId);
            Apply(Alone(a, w, job), Step(w, newId)) == b.(jobs := if next.Some? then map[w := next.value] else map[])
  {
    var jobs := map[w := job];
    var next := Write(Alone(a, w, job), job, newId).1;
    if next.Some? { assert jobs[w := next.value] == map[w := next.value]; }
    assert Without(jobs, w) == map[];
  }

  lemma NextStep(a: App, w: int, newId: int, n: nat)
    ensures Steps(a, w, newId, n + 1) == Apply(Steps(a, w, newId, n), Step(w, newId))
  {}

  // ---------- Manual payment ----------

  predicate ReadyToSubmit(a: App) {
    && BeforeSubmit(a.stage) && !a.active && !a.schema && a.documents && a.plan.Some? && a.jobs == map[] && !HasPaid(a.rows)
  }

  function Submitted(a: App, w: int): App { Steps(Apply(a, Submit(w, true)), w, 0, 1) }

  function Received(a: App, w: int, newId: int): App { Steps(Apply(a, MarkReceived(w, true)), w, newId, 2) }

  function ApprovedManually(a: App, w: int): App { Steps(Apply(a, ApproveManual(w)), w, 0, 5) }

  lemma SubmissionFreezes(a: App, w: int)
    requires ReadyToSubmit(a)
    ensures Submitted(a, w) == a.(stage := MANUAL_PENDING)
  {
    BeginsAlone(a, w, Freezing);
    StepsAlone(a, w, Freezing, 0);
    NextStep(Alone(a, w, Freezing), w, 0, 0);
    assert Apply(a, Submit(w, true)) == Alone(a, w, Freezing);
  }

  lemma ReceiptRecords(a: App, w: int, newId: int)
    requires a.stage.MANUAL_PENDING? && !a.active && a.plan.Some? && a.jobs == map[] && !HasPaid(a.rows) && newId !in a.rows
    ensures Received(a, w, newId) == a.(stage := MANUAL_PAYMENT_RECEIVED, rows := a.rows[newId := Row(a.plan.value, PAID)])
    ensures HasPaid(Received(a, w, newId).rows)
  {
    var plan := a.plan.value;
    BeginsAlone(a, w, Marking(plan));
    var begun := Alone(a, w, Marking(plan));
    assert Apply(a, MarkReceived(w, true)) == begun;
    StepsAlone(a, w, Marking(plan), newId);
    NextStep(begun, w, newId, 0);
    var marked := a.(stage := MANUAL_PAYMENT_RECEIVED);
    assert Steps(begun, w, newId, 1) == Alone(marked, w, Recording(plan));
    StepsAlone(marked, w, Recording(plan), newId);
    NextStep(begun, w, newId, 1);
    assert Received(a, w, newId).rows[newId].status.PAID?;
  }

  lemma ManualApprovalActivates(a: App, w: int)
    requires MayApproveManually(a) && HasPaid(a.rows) && a.jobs == map[]
    ensures ApprovedManually(a, w) == Activated(a, a.plan.value).(stage := MANUAL_APPROVED)
  {
    var plan := a.plan.value;
    BeginsAlone(a, w, Opening(true));
    var s0 := Alone(a, w, Opening(true));
    assert Apply(a, ApproveManual(w)) == s0;
    StepsAlone(a, w, Opening(true), 0);
    NextStep(s0, w, 0, 0);
    assert Steps(s0, w, 0, 1) == Alone(a, w, Blocking(plan, true));
    StepsAlone(a, w, Blocking(plan, true), 0);
    NextStep(s0, w, 0, 1);
    var b := a.(stage := PROVISIONING, active := false);
    assert Steps(s0, w, 0, 2) == Alone(b, w, Building(plan, true));
    ManualLaunch(a, b, w, s0, plan);
  }

  lemma ManualLaunch(a: App, b: App, w: int, s0: App, plan: int)
    requires b == a.(stage := PROVISIONING, active := false) && a.jobs == map[]
    requires Steps(s0, w, 0, 2) == Alone(b, w, Building(plan, true))
    ensures Steps(s0, w, 0, 5) == Activated(a, plan).(stage := MANUAL_APPROVED)
  {
    StepsAlone(b, w, Building(plan, true), 0);
    NextStep(s0, w, 0, 2);
    var c := b.(schema := true);
    assert Steps(s0, w, 0, 3) == Alone(c, w, Launching(plan, true));
    StepsAlone(c, w, Launching(plan, true), 0);
    NextStep(s0, w, 0, 3);
    assert Steps(s0, w, 0, 4) == Alone(Activated(a, plan), w, Labelling);
    StepsAlone(Activated(a, plan), w, Labelling, 0);
    NextStep(s0, w, 0, 4);
  }

  /** Submit, receipt, approval: the application waits without being active, approvals
      before the receipt change nothing, the receipt adds one PAID row and activates
      nothing, and the approval leaves it active with one creation row. */
  lemma ManualFlow(a: App, w: int, newId: int)
    requires ReadyToSubmit(a) && newId !in a.rows
    ensures var submitted := Submitted(a, w);
            var received := Received(submitted, w, newId);
            && submitted.stage.MANUAL_PENDING? && !submitted.active && submitted.rows == a.rows
            && Approval(submitted, w, newId) == submitted && Apply(submitted, ApproveManual(w)) == submitted
            && received.stage.MANUAL_PAYMENT_RECEIVED? && !received.active && !received.schema
            && received.rows == a.rows[newId := Row(a.plan.value, PAID)]
            && ApprovedManually(received, w) == Activated(received, a.plan.value).(stage := MANUAL_APPROVED)
  {
    SubmissionFreezes(a, w);
    ApprovalIdle(Submitted(a, w), w, newId);
    ReceiptRecords(Submitted(a, w), w, newId);
    ManualApprovalActivates(Received(Submitted(a, w), w, newId), w);
  }

  // ---------- Online payment ----------

  function CaptureSteps(a: App, w: int, r: int, n: nat): App { Steps(Apply(a, Webhook(w, r, true, Captured, true)), w, 0, n) }

  lemma IdleFrom(a: App, w: int, m: nat, n: nat)
    requires w !in Steps(a, w, 0, m).jobs
    ensures Steps(a, w, 0, m + n) == Steps(a, w, 0, m)
  {
    StepsAdd(a, w, 0, m, n);
    StepsIdle(Steps(a, w, 0, m), w, 0, n);
  }

  function Captured1(a: App, r: int): App
    requires r in a.rows
  {
    a.(rows := a.rows[r := a.rows[r].(status := PAID)])
  }

  lemma CaptureClaims(a: App, w: int, r: int)
    requires r in a.rows && !a.rows[r].status.PAID? && !a.active && a.jobs == map[]
    ensures CaptureSteps(a, w, r, 1) == Alone(Captured1(a, r), w, Finishing)
  {
    BeginsAlone(a, w, Claiming(r));
    var s0 := Alone(a, w, Claiming(r));
    assert Apply(a, Webhook(w, r, true, Captured, true)) == s0;
    StepsAlone(a, w, Claiming(r), 0);
    NextStep(s0, w, 0, 0);
  }

  lemma CaptureFinishes(a: App, w: int, r: int)
    requires r in a.rows && !a.rows[r].status.PAID? && !a.active && a.jobs == map[]
    ensures CaptureSteps(a, w, r, 2) == if a.auto then Alone(Captured1(a, r), w, Opening(false)) else Captured1(a, r).(stage := UNDER_REVIEW)
  {
    CaptureClaims(a, w, r);
    StepsAlone(Captured1(a, r), w, Finishing, 0);
    NextStep(Apply(a, Webhook(w, r, true, Captured, true)), w, 0, 1);
  }

  lemma CaptureOpens(a: App, w: int, r: int)
    requires r in a.rows && !a.rows[r].status.PAID? && !a.active && a.jobs == map[] && a.auto
    ensures CaptureSteps(a, w, r, 3) == if a.plan.Some? then Alone(Captured1(a, r), w, Blocking(a.plan.value, false)) else Captured1(a, r)
  {
    CaptureFinishes(a, w, r);
    assert Captured1(a, r).rows[r].status.PAID?;
    StepsAlone(Captured1(a, r), w, Opening(false), 0);
    NextStep(Apply(a, Webhook(w, r, true, Captured, true)), w, 0, 2);
  }

  /** A verified capture queues the application for review under manual review; under
      automatic review it activates it, if a plan is selected.  Either way the row is
      PAID once and a replay writes nothing more. */
  lemma CaptureFlow(a: App, w: int, r: int)
    requires r in a.rows && !a.rows[r].status.PAID? && !a.active && a.jobs == map[]
    ensures var paid := a.(rows := a.rows[r := a.rows[r].(status := PAID)]);
            CaptureSteps(a, w, r, 6) ==
            if !a.auto then paid.(stage := UNDER_REVIEW) else if a.plan.Some? then Activated(paid, a.plan.value) else paid
    ensures !a.auto ==> CaptureSteps(CaptureSteps(a, w, r, 6), w, r, 6) == CaptureSteps(a, w, r, 6)
  {
    var s0 := Apply(a, Webhook(w, r, true, Captured, true));
    CaptureFinishes(a, w, r);
    if !a.auto {
      IdleFrom(s0, w, 2, 4);
      ReplayedCapture(Captured1(a, r).(stage := UNDER_REVIEW), w, r);
    } else {
      CaptureOpens(a, w, r);
      if a.plan.Some? { AutoLaunch(Captured1(a, r), w, s0, a.plan.value); } else { IdleFrom(s0, w, 3, 3); }
    }
  }

  lemma ReplayedCapture(a: App, w: int, r: int)
    requires r in a.rows && a.rows[r].status.PAID? && !a.active && a.jobs == map[]
    ensures CaptureSteps(a, w, r, 6) == a
  {
    BeginsAlone(a, w, Claiming(r));
    var s0 := Alone(a, w, Claiming(r));
    assert Apply(a, Webhook(w, r, true, Captured, true)) == s0;
    StepsAlone(a, w, Claiming(r), 0);
    NextStep(s0, w, 0, 0);
    IdleFrom(s0, w, 1, 5);
  }

  lemma AutoLaunch(paid: App, w: int, s0: App, plan: int)
    requires paid.jobs == map[] && Steps(s0, w, 0, 3) == Alone(paid, w, Blocking(plan, false))
    ensures Steps(s0, w, 0, 6) == Activated(paid, plan)
  {
    var from := Alone(paid, w, Blocking(plan, false));
    StepsAdd(s0, w, 0, 3, 3);
    Provision(from, w, 0, plan);
    assert Without(from.jobs, w) == map[];
  }

  /** A signed failure event fails the row and sends the applicant back to the payment step. */
  lemma FailureFlow(a: App, w: int, r: int, amountMatches: bool)
    requires r in a.rows && !a.active && a.jobs == map[]
    ensures Steps(Apply(a, Webhook(w, r, true, Failure, amountMatches)), w, 0, 6)
            == a.(rows := a.rows[r := a.rows[r].(status := FAILED)], stage := PAYMENT_FAILED)
  {
    BeginsAlone(a, w, Failing(r, true));
    var s0 := Alone(a, w, Failing(r, true));
    assert Apply(a, Webhook(w, r, true, Failure, amountMatches)) == s0;
    StepsAlone(a, w, Failing(r, true), 0);
    NextStep(s0, w, 0, 0);
    var failed := a.(rows := a.rows[r := a.rows[r].(status := FAILED)]);
    StepsAlone(failed, w, Refusing(true), 0);
    NextStep(s0, w, 0, 1);
    IdleFrom(s0, w, 2, 4);
  }

  /** A forged callback fails its payment and sends the applicant back to the payment
      step; nothing else moves. */
  lemma ForgedCallback(a: App, w: int, r: int)
    requires r in a.rows && !a.rows[r].status.PAID? && AtPayment(a.stage) && a.jobs == map[]
    ensures Steps(Apply(a, Verify(w, r, true, false)), w, 0, 2)
            == a.(rows := a.rows[r := a.rows[r].(status := FAILED)], stage := PAYMENT_FAILED)
  {
    BeginsAlone(a, w, Failing(r, false));
    var s0 := Alone(a, w, Failing(r, false));
    assert Apply(a, Verify(w, r, true, false)) == s0;
    StepsAlone(a, w, Failing(r, false), 0);
    NextStep(s0, w, 0, 0);
    var failed := a.(rows := a.rows[r := a.rows[r].(status := FAILED)]);
    assert Steps(s0, w, 0, 1) == Alone(failed, w, Refusing(false));
    StepsAlone(failed, w, Refusing(false), 0);
    NextStep(s0, w, 0, 1);
  }

  // ---------- Rejection ----------

  function Turned(a: App, w: int, manual: bool): App { Steps(Apply(a, Reject(w, manual)), w, 0, 1) }

  /** A rejection in the manual flow is final for both approvals; a plain rejection of
      an application with a payment on record is not. */
  lemma RejectionFlow(a: App, w: int, manual: bool, newId: int)
    requires !a.active && a.documents && a.plan.Some? && HasPaid(a.rows) && a.jobs == map[]
    ensures var turned := Turned(a, w, manual);
            && turned == a.(stage := if manual then MANUAL_REJECTED else REJECTED)
            && Apply(turned, ApproveManual(w)) == turned
            && Approval(turned, w, newId) == if manual then turned else Activated(turned, a.plan.value)
  {
    BeginsAlone(a, w, Rejecting(manual));
    StepsAlone(a, w, Rejecting(manual), 0);
    NextStep(Alone(a, w, Rejecting(manual)), w, 0, 0);
    assert Apply(a, Reject(w, manual)) == Alone(a, w, Rejecting(manual));
    var turned := Turned(a, w, manual);
    if manual { ApprovalIdle(turned, w, newId); } else { ApprovalActivates(turned, w, newId); }
  }

  // ---------- The shorter requests ----------

  /** A plan selection sets plan and stage; one that a renewal overtakes takes the
      subscription back from ACTIVE. */
  lemma SelectionWrites(a: App, w: int, choice: int)
    requires a.jobs == map[]
    ensures Apply(Alone(a, w, Selecting(choice)), Step(w, 0)) == a.(plan := Some(choice), subscribed := false, stage := PLAN_SELECTED)
  {
    StepsAlone(a, w, Selecting(choice), 0);
  }

  lemma SelectionFlow(a: App, w: int, choice: int)
    requires a.jobs == map[] && Start(a, SelectPlan(w, choice)).Some?
    ensures Steps(Apply(a, SelectPlan(w, choice)), w, 0, 1) == a.(plan := Some(choice), subscribed := false, stage := PLAN_SELECTED)
  {
    BeginsAlone(a, w, Selecting(choice));
    SelectionWrites(a, w, choice);
    NextStep(Alone(a, w, Selecting(choice)), w, 0, 0);
    assert Apply(a, SelectPlan(w, choice)) == Alone(a, w, Selecting(choice));
  }

  /** A checkout adds a CREATED row, of the selected plan on the onboarding route, of the
      plan asked for on the plain one, which leaves the stage alone. */
  lemma CheckoutFlow(a: App, w: int, newId: int)
    requires a.jobs == map[] && Start(a, Checkout(w)).Some? && newId !in a.rows
    ensures Steps(Apply(a, Checkout(w)), w, newId, 1) == a.(rows := a.rows[newId := Row(a.plan.value, CREATED)], stage := PAYMENT_PENDING)
  {
    BeginsAlone(a, w, Ordering(a.plan.value));
    StepsAlone(a, w, Ordering(a.plan.value), newId);
    NextStep(Alone(a, w, Ordering(a.plan.value)), w, newId, 0);
    assert Apply(a, Checkout(w)) == Alone(a, w, Ordering(a.plan.value));
  }

  lemma PlainCheckoutFlow(a: App, w: int, choice: int, newId: int)
    requires a.jobs == map[] && a.plan.Some? && newId !in a.rows
    ensures Steps(Apply(a, PlainCheckout(w, choice)), w, newId, 1) == a.(rows := a.rows[newId := Row(choice, CREATED)])
  {
    BeginsAlone(a, w, Buying(choice));
    StepsAlone(a, w, Buying(choice), newId);
    NextStep(Alone(a, w, Buying(choice)), w, newId, 0);
    assert Apply(a, PlainCheckout(w, choice)) == Alone(a, w, Buying(choice));
  }

  /** A lapse only marks the application EXPIRED. */
  lemma LapseFlow(a: App, w: int)
    requires a.jobs == map[] && Start(a, Lapse(w)).Some?
    ensures Steps(Apply(a, Lapse(w)), w, 0, 1) == a.(stage := EXPIRED)
  {
    BeginsAlone(a, w, Lapsing);
    StepsAlone(a, w, Lapsing, 0);
    NextStep(Alone(a, w, Lapsing), w, 0, 0);
    assert Apply(a, Lapse(w)) == Alone(a, w, Lapsing);
  }

  /** A failure event for a restaurant that runs fails the payment and leaves the stage;
      a bad plain callback does the same whether it runs or not. */
  lemma FailureWhileRunning(a: App, w: int, r: int)
    requires a.jobs == map[] && a.active && r in a.rows
    ensures Steps(Apply(a, Webhook(w, r, true, Failure, false)), w, 0, 2) == a.(rows := a.rows[r := Row(a.rows[r].plan, FAILED)])
  {
    BeginsAlone(a, w, Failing(r, true));
    StepsAlone(a, w, Failing(r, true), 0);
    NextStep(Alone(a, w, Failing(r, true)), w, 0, 0);
    var failed := a.(rows := a.rows[r := Row(a.rows[r].plan, FAILED)]);
    assert Apply(a, Webhook(w, r, true, Failure, false)) == Alone(a, w, Failing(r, true));
    assert Steps(Alone(a, w, Failing(r, true)), w, 0, 1) == Alone(failed, w, Refusing(true));
    StepsAlone(failed, w, Refusing(true), 0);
    NextStep(Alone(a, w, Failing(r, true)), w, 0, 1);
  }

  lemma BadPlainCallback(a: App, w: int, r: int)
    requires a.jobs == map[] && r in a.rows && a.rows[r].status != PAID
    ensures Steps(Apply(a, PlainVerify(w, r, true, false)), w, 0, 1) == a.(rows := a.rows[r := Row(a.rows[r].plan, FAILED)])
  {
    BeginsAlone(a, w, Voiding(r));
    StepsAlone(a, w, Voiding(r), 0);
    NextStep(Alone(a, w, Voiding(r)), w, 0, 0);
    assert Apply(a, PlainVerify(w, r, true, false)) == Alone(a, w, Voiding(r));
  }

  /** An approval under way that finds the restaurant running already writes nothing, a
      manual one only its label; one that finds no plan or nothing paid just ends. */
  lemma OpeningFinds(a: App, w: int, manual: bool)
    requires a.jobs == map[]
    ensures a.active && a.schema ==>
              Apply(Alone(a, w, Opening(manual)), Step(w, 0)) == if manual then Alone(a, w, Labelling) else a
    ensures !(a.active && a.schema) && (a.plan == None || forall r :: r in a.rows ==> a.rows[r].status != PAID) ==>
              Apply(Alone(a, w, Opening(manual)), Step(w, 0)) == a
  {
    StepsAlone(a, w, Opening(manual), 0);
    assert HasPaid(a.rows) <==> exists r :: r in a.rows && a.rows[r].status == PAID;
  }

  lemma LabelFlow(a: App, w: int)
    requires a.jobs == map[]
    ensures Apply(Alone(a, w, Labelling), Step(w, 0)) == a.(stage := MANUAL_APPROVED)
  {
    StepsAlone(a, w, Labelling, 0);
  }

  /** A request that fails leaves everything as it was, unless it was provisioning: then
      the application is back under review.  Documents and review mode change alone. */
  lemma OtherEvents(a: App, w: int, documents: bool, auto: bool)
    ensures w in a.jobs ==>
              Apply(a, Fail(w)) == if a.jobs[w].Building? || a.jobs[w].Launching? then a.(stage := UNDER_REVIEW, jobs := a.jobs - {w})
                                   else a.(jobs := a.jobs - {w})
    ensures Apply(a, Review(documents)) == a.(documents := documents)
    ensures Apply(a, SetMode(auto)) == a.(auto := auto)
  {}
}

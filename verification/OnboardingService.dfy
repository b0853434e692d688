/** The onboarding service's writes, one request at a time on a record that nothing
    else is changing: each method is its request's steps run to the end. */
module OnboardingService {
  import opened Prelude
  import opened Onboarding
  import opened OnboardingFlows

  class Application {
    var active: bool
    var schema: bool
    var stage: Stage
    var plan: Option<int>
    var subscribed: bool
    var rows: map<int, Row>
    var created: seq<int>
    var documents: bool
    var auto: bool

    function Record(): App
      reads this
    {
      App(active, schema, stage, plan, subscribed, rows, created, documents, auto, map[])
    }

    /** Safe to retry: a running restaurant is left alone, a failure leaves the
        application under review with its payment. */
    method ProvisionAndActivate(buildFails: bool, launchFails: bool) returns (ok: bool)
      modifies this`active, this`schema, this`stage, this`plan, this`subscribed, this`created
      ensures ok <==> old(Live(Record())) || (old(plan.Some? && HasPaid(rows)) && (old(schema) || !buildFails) && !launchFails)
      ensures old(Live(Record()) || plan.None? || !HasPaid(rows)) ==> Record() == old(Record())
      ensures ok && old(!Live(Record())) ==> Record() == old(Activated(Record(), plan.value))
      ensures !ok && old(!Live(Record()) && plan.Some? && HasPaid(rows)) ==>
        Record() == old(Record()).(active := false, schema := old(schema) || !buildFails, stage := UNDER_REVIEW)
    {
      if active && schema { return true; }
      if plan.None? || !HasPaid(rows) { return false; }
      var chosen := plan.value;
      stage := PROVISIONING;
      active := false;
      if !schema {
        if buildFails { stage := UNDER_REVIEW; return false; }
        schema := true;
      }
      if launchFails { stage := UNDER_REVIEW; return false; }
      active, stage, plan, subscribed := true, LIVE, Some(chosen), true;
      created := created + [chosen];
      return true;
    }

    /** Guards, then provisioning, which may fail while building the schema or launching. */
    method ApproveApplication(newId: int, buildFails: bool, launchFails: bool) returns (ok: bool)
      modifies this`active, this`schema, this`stage, this`plan, this`subscribed, this`created
      ensures Record() == old(ApprovalRun(Record(), 0, newId, buildFails && !schema, launchFails))
      ensures ok <==> old(active && schema)
                      || (old(documents && plan != None && (exists r :: r in rows && rows[r].status == PAID)
                              && stage !in {MANUAL_PENDING, MANUAL_PAYMENT_PENDING, MANUAL_APPROVED, MANUAL_REJECTED}
                              && (schema || !buildFails)) && !launchFails)
    {
      ghost var before := Record();
      if active && schema {
        ApprovalRunIdle(before, 0, newId, buildFails && !schema, launchFails);
        return true;
      }
      var held := InManualFlow(stage) && !stage.MANUAL_PAYMENT_RECEIVED?;
      if !documents || plan.None? || held || !HasPaid(rows) {
        ApprovalRunIdle(before, 0, newId, buildFails && !schema, launchFails);
        return false;
      }
      ApprovalRunIs(before, 0, newId, buildFails && !schema, launchFails);
      ok := ProvisionAndActivate(buildFails, launchFails);
    }

    /** The webhook's branch for applications that are not active yet; provisioning
        succeeds if it is reached. */
    method ReceiveWebhook(r: int, signed: bool, kind: Kind, amountMatches: bool) returns (answer: int)
      requires !active
      modifies this`active, this`schema, this`stage, this`plan, this`subscribed, this`created, this`rows
      ensures Record() == old(Steps(Apply(Record(), Webhook(0, r, signed, kind, amountMatches)), 0, 0, 6))
      ensures answer == if !signed || (r in old(rows) && kind.Captured? && !amountMatches) then 400 else 200
    {
      ghost var before := Record();
      if !signed || r !in rows || kind.Ignored? || (kind.Captured? && !amountMatches) {
        StepsIdle(before, 0, 0, 6);
        return if !signed || (r in rows && kind.Captured?) then 400 else 200;
      }
      answer := 200;
      if kind.Failure? {
        assert Webhook(0, r, signed, kind, amountMatches) == Webhook(0, r, true, Failure, amountMatches);
        FailureFlow(before, 0, r, amountMatches);
        rows := rows[r := rows[r].(status := FAILED)];
        stage := PAYMENT_FAILED;
      } else if rows[r].status.PAID? {
        assert Webhook(0, r, signed, kind, amountMatches) == Webhook(0, r, true, Captured, true);
        ReplayedCapture(before, 0, r);
      } else {
        assert Webhook(0, r, signed, kind, amountMatches) == Webhook(0, r, true, Captured, true);
        CaptureFlow(before, 0, r);
        rows := rows[r := rows[r].(status := PAID)];
        assert rows[r].status.PAID?;
        if auto {
          var _ := ProvisionAndActivate(false, false);
        } else {
          stage := UNDER_REVIEW;
        }
      }
    }

    /** POST /subscriptions/verify, which has no branch for applications. */
    method VerifyPlainly(r: int, orderMatches: bool, signed: bool) returns (ok: bool)
      requires plan.Some?
      modifies this`active, this`plan, this`subscribed, this`rows
      ensures Record() == old(Steps(Apply(Record(), PlainVerify(0, r, orderMatches, signed)), 0, 0, 1))
      ensures ok && old(r in rows && !rows[r].status.PAID?) ==> active && schema == old(schema) && created == old(created)
      ensures ok <==> old(r in rows && (rows[r].status.PAID? || (orderMatches && signed)))
    {
      ghost var before := Record();
      if r !in rows { return false; }
      if rows[r].status.PAID? { return true; }
      if !orderMatches { return false; }
      PlainRuns(before, r, signed);
      if !signed {
        rows := rows[r := rows[r].(status := FAILED)];
        return false;
      }
      WriteRenewal(r);
      return true;
    }

    method WriteRenewal(r: int)
      requires r in rows
      modifies this`active, this`plan, this`subscribed, this`rows
      ensures Record() == VerifiedPlainly(old(Record()), r)
    {
      plan := Some(rows[r].plan);
      rows := rows[r := rows[r].(status := PAID)];
      active, subscribed := true, true;
    }

    method MarkPaymentReceived(amountMatches: bool, newId: int) returns (ok: bool)
      modifies this`stage, this`rows
      ensures Record() == old(Steps(Apply(Record(), MarkReceived(0, amountMatches)), 0, newId, 2))
      ensures ok ==> stage.MANUAL_PAYMENT_RECEIVED? && active == old(active) == false
      ensures ok && newId !in old(rows) ==> HasPaid(rows)
    {
      ghost var before := Record();
      if !(stage.MANUAL_PENDING? || stage.MANUAL_PAYMENT_PENDING?) || active || plan.None? || !amountMatches {
        StepsIdle(before, 0, newId, 2);
        return false;
      }
      ReceiptRuns(before, newId);
      stage := MANUAL_PAYMENT_RECEIVED;
      if !HasPaid(rows) && newId !in rows {
        rows := rows[newId := Row(plan.value, PAID)];
        assert rows[newId].status.PAID?;
      }
      return true;
    }
  }

  lemma PlainRuns(a: App, r: int, signed: bool)
    requires a.jobs == map[] && a.plan.Some? && r in a.rows && !a.rows[r].status.PAID?
    ensures Steps(Apply(a, PlainVerify(0, r, true, signed)), 0, 0, 1)
            == if signed then VerifiedPlainly(a, r) else a.(rows := a.rows[r := a.rows[r].(status := FAILED)])
  {
    var job := if signed then Renewing(r) else Voiding(r);
    BeginsAlone(a, 0, job);
    assert Apply(a, PlainVerify(0, r, true, signed)) == OnboardingFlows.Alone(a, 0, job);
    StepsAlone(a, 0, job, 0);
    NextStep(OnboardingFlows.Alone(a, 0, job), 0, 0, 0);
  }

  lemma MarkingStep(a: App, newId: int)
    requires (a.stage.MANUAL_PENDING? || a.stage.MANUAL_PAYMENT_PENDING?) && !a.active && a.plan.Some? && a.jobs == map[]
    ensures Steps(Apply(a, MarkReceived(0, true)), 0, newId, 1)
            == OnboardingFlows.Alone(a.(stage := MANUAL_PAYMENT_RECEIVED), 0, Recording(a.plan.value))
  {
    var plan := a.plan.value;
    BeginsAlone(a, 0, Marking(plan));
    var begun := OnboardingFlows.Alone(a, 0, Marking(plan));
    assert Apply(a, MarkReceived(0, true)) == begun;
    StepsAlone(a, 0, Marking(plan), newId);
    NextStep(begun, 0, newId, 0);
  }

  lemma RecordingStep(a: App, plan: int, newId: int)
    requires a.jobs == map[]
    ensures Apply(OnboardingFlows.Alone(a, 0, Recording(plan)), Step(0, newId))
            == a.(rows := if HasPaid(a.rows) || newId in a.rows then a.rows else a.rows[newId := Row(plan, PAID)])
  {
    StepsAlone(a, 0, Recording(plan), newId);
  }

  lemma ReceiptRuns(a: App, newId: int)
    requires (a.stage.MANUAL_PENDING? || a.stage.MANUAL_PAYMENT_PENDING?) && !a.active && a.plan.Some? && a.jobs == map[]
    ensures Steps(Apply(a, MarkReceived(0, true)), 0, newId, 2)
            == a.(stage := MANUAL_PAYMENT_RECEIVED,
                  rows := if HasPaid(a.rows) || newId in a.rows then a.rows else a.rows[newId := Row(a.plan.value, PAID)])
  {
    var marked := a.(stage := MANUAL_PAYMENT_RECEIVED);
    MarkingStep(a, newId);
    RecordingStep(marked, a.plan.value, newId);
    NextStep(Apply(a, MarkReceived(0, true)), 0, newId, 1);
  }
}

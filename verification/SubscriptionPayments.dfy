/** Subscription payments and expiry, split into the reads and writes that other
    requests can come between.  The calendar is a parameter: it gives the date one
    billing cycle after a date.

    A request in progress is a worker.  The activation transaction re-reads the
    payment and the subscription, then claims the payment with a conditional update;
    the failure paths write FAILED without a condition.  An expiry pass selects
    overdue rows first and flips each later. */
module SubscriptionPayments {
  import opened Prelude

  datatype PayStatus = CREATED | PAID | FAILED
  datatype Cycle = MONTHLY | YEARLY | ONCE
  datatype Payment = Payment(restaurant: int, cycle: Cycle, status: PayStatus)
  type Calendar = (Cycle, int) -> int

  datatype SubStatus = ACTIVE | TRIAL | EXPIRED | CANCELLED | SUSPENDED | PENDING_PAYMENT
  datatype Sub = Sub(status: SubStatus, expiry: int)

  datatype Entry =
    | Activated(payment: int, restaurant: int, cycle: Cycle, at: int, until: int)
    | Expiration(restaurant: int)
  datatype Notice = ExpiredNotice(restaurant: int) | Warning(restaurant: int, level: int)

  datatype Worker =
    | Failing(payment: int)
    | Activating(payment: int, seen: int)
    | Flipping(restaurant: int)
    | Warn(restaurant: int, expiry: int)

  datatype State = State(
    payments: map<int, Payment>,
    subs: map<int, Sub>,              // by restaurant
    history: seq<Entry>,
    notices: seq<Notice>,
    workers: map<int, Worker>,
    now: int)

  datatype EventKind = Captured | Failure | Ignored

  datatype Event =
    | Webhook(worker: int, payment: int, signed: bool, kind: EventKind, amountMatches: bool)
    | Verify(worker: int, payment: int, caller: int, orderMatches: bool, signed: bool)
    | SelectOverdue(worker: int, restaurant: int)
    | SelectExpiring(worker: int, restaurant: int)
    | Commit(worker: int)
    | Crash(worker: int)
    | Tick(elapsed: nat)

  const DAY := 86400000

  predicate Usable(s: SubStatus) { s.ACTIVE? || s.TRIAL? }

  function CeilDays(ms: int): int { -((-ms) / DAY) }

  /** Warning bucket for the days left, rounded up; 0 when none applies. */
  function WarningLevel(expiry: int, now: int): int {
    var days := CeilDays(expiry - now);
    if days <= 0 then 0 else if days == 1 then 1 else if days <= 3 then 3 else if days <= 7 then 7 else 0
  }

  predicate Known(s: State, p: int) { p in s.payments && s.payments[p].restaurant in s.subs }

  function Begin(s: State, w: int, job: Worker): State {
    if w in s.workers then s else s.(workers := s.workers[w := job])
  }

  function BeginActivation(s: State, w: int, p: int): State
    requires Known(s, p)
  {
    if s.payments[p].status.PAID? then s else Begin(s, w, Activating(p, s.subs[s.payments[p].restaurant].expiry))
  }

  function Finish(s: State, w: int): State { s.(workers := s.workers - {w}) }

  function Write(s: State, job: Worker, ext: Calendar): State {
    match job
    case Failing(p) => if p in s.payments then s.(payments := s.payments[p := s.payments[p].(status := FAILED)]) else s
    case Activating(p, seen) =>
      if !Known(s, p) || s.payments[p].status.PAID? then s
      else
        var pay := s.payments[p];
        // renewal counts from the later of the expiry read and the present
        var until := ext(pay.cycle, Max(seen, s.now));
        s.(payments := s.payments[p := pay.(status := PAID)],
        subs := s.subs[pay.restaurant := Sub(ACTIVE, until)],
        history := s.history + [Activated(p, pay.restaurant, pay.cycle, s.now, until)])
    case Flipping(r) =>
      if r in s.subs && Usable(s.subs[r].status) then
        s.(subs := s.subs[r := s.subs[r].(status := EXPIRED)],
        history := s.history + [Expiration(r)],
        notices := s.notices + [ExpiredNotice(r)])
      else s
    case Warn(r, expiry) =>
      var level := WarningLevel(expiry, s.now);
      if level == 0 || Warning(r, level) in s.notices then s else s.(notices := s.notices + [Warning(r, level)])
  }

  function Apply(s: State, e: Event, ext: Calendar): State {
    match e
    case Webhook(w, p, signed, kind, amountMatches) =>
      if !signed || !Known(s, p) || kind.Ignored? then s
      else if kind.Failure? then Begin(s, w, Failing(p))
      else if !amountMatches then s
      else BeginActivation(s, w, p)
    case Verify(w, p, caller, orderMatches, signed) =>
      if !Known(s, p) || s.payments[p].restaurant != caller || s.payments[p].status.PAID? || !orderMatches then s
      else if !signed then Begin(s, w, Failing(p))
      else BeginActivation(s, w, p)
    case SelectOverdue(w, r) =>
      if r in s.subs && Usable(s.subs[r].status) && s.subs[r].expiry < s.now then Begin(s, w, Flipping(r)) else s
    case SelectExpiring(w, r) =>
      if r in s.subs && Usable(s.subs[r].status) && s.now < s.subs[r].expiry <= s.now + 7 * DAY
      then Begin(s, w, Warn(r, s.subs[r].expiry)) else s
    case Commit(w) => if w in s.workers then Finish(Write(s, s.workers[w], ext), w) else s
    case Crash(w) => Finish(s, w)
    case Tick(d) => s.(now := s.now + d)
  }

  function Run(s: State, es: seq<Event>, ext: Calendar): State {
    if es == [] then s else Apply(Run(s, es[..|es| - 1], ext), es[|es| - 1], ext)
  }

  // ---------- Counting ----------

  function Activations(h: seq<Entry>, p: int): nat {
    if h == [] then 0 else Activations(h[..|h| - 1], p) + (if h[|h| - 1].Activated? && h[|h| - 1].payment == p then 1 else 0)
  }

  function Expirations(h: seq<Entry>, r: int): nat {
    if h == [] then 0 else Expirations(h[..|h| - 1], r) + (if h[|h| - 1] == Expiration(r) then 1 else 0)
  }

  function Notices(ns: seq<Notice>, n: Notice): nat {
    if ns == [] then 0 else Notices(ns[..|ns| - 1], n) + (if ns[|ns| - 1] == n then 1 else 0)
  }

  predicate IsPaid(s: State, p: int) { p in s.payments && s.payments[p].status.PAID? }

  /** The one write that leaves PAID: an unconditional FAILED on a paid row. */
  predicate Overwrites(s: State, e: Event, p: int) {
    e.Commit? && e.worker in s.workers && s.workers[e.worker] == Failing(p) && IsPaid(s, p)
  }

  function OverwriteCount(s: State, es: seq<Event>, ext: Calendar, p: int): nat {
    if es == [] then 0
    else OverwriteCount(s, es[..|es| - 1], ext, p) + (if Overwrites(Run(s, es[..|es| - 1], ext), es[|es| - 1], p) then 1 else 0)
  }

  /** The activation wins its payment's claim. */
  predicate Claims(s: State, job: Worker) { job.Activating? && Known(s, job.payment) && !IsPaid(s, job.payment) }

  predicate Revives(s: State, job: Worker, r: int) {
    Claims(s, job) && s.payments[job.payment].restaurant == r && !Usable(s.subs[r].status)
  }

  predicate Reactivates(s: State, e: Event, r: int) {
    e.Commit? && e.worker in s.workers && Revives(s, s.workers[e.worker], r)
  }

  function ReactivationCount(s: State, es: seq<Event>, ext: Calendar, r: int): nat {
    if es == [] then 0
    else ReactivationCount(s, es[..|es| - 1], ext, r) + (if Reactivates(Run(s, es[..|es| - 1], ext), es[|es| - 1], r) then 1 else 0)
  }

  function One(b: bool): nat { if b then 1 else 0 }

  // ---------- Payments ----------

  lemma NextEntry(h: seq<Entry>, e: Entry, p: int, r: int)
    ensures Activations(h + [e], p) == Activations(h, p) + One(e.Activated? && e.payment == p)
    ensures Expirations(h + [e], r) == Expirations(h, r) + One(e == Expiration(r))
  {
    assert (h + [e])[..|h|] == h;
  }

  predicate Flips(s: State, job: Worker, r: int) { job == Flipping(r) && r in s.subs && Usable(s.subs[r].status) }

  /** The history row a write adds, if any. */
  function Added(s: State, job: Worker, ext: Calendar): Option<Entry> {
    match job
    case Activating(p, seen) =>
      if !Claims(s, job) then None
      else Some(Activated(p, s.payments[p].restaurant, s.payments[p].cycle, s.now, ext(s.payments[p].cycle, Max(seen, s.now))))
    case Flipping(r) => if Flips(s, job, r) then Some(Expiration(r)) else None
    case _ => None
  }

  lemma HistoryWritten(s: State, job: Worker, ext: Calendar)
    ensures Write(s, job, ext).history
            == match Added(s, job, ext) case Some(x) => s.history + [x] case None => s.history
  {}

  lemma WriteHistory(s: State, job: Worker, ext: Calendar, p: int, r: int)
    ensures var h, h' := s.history, Write(s, job, ext).history;
            && Activations(h', p) == Activations(h, p) + One(job.Activating? && job.payment == p && Claims(s, job))
            && Expirations(h', r) == Expirations(h, r) + One(Flips(s, job, r))
  {
    HistoryWritten(s, job, ext);
    var x := Added(s, job, ext);
    if x.Some? { NextEntry(s.history, x.value, p, r); }
  }

  /** Who is paid after a write. */
  lemma PaidAfter(s: State, job: Worker, ext: Calendar, p: int)
    ensures IsPaid(Write(s, job, ext), p) <==>
              if job.Activating? && job.payment == p && Claims(s, job) then true else IsPaid(s, p) && job != Failing(p)
  {}

  lemma HistoryStep(s: State, e: Event, ext: Calendar, p: int)
    ensures var s' := Apply(s, e, ext);
            && Activations(s'.history, p) == Activations(s.history, p) + One(!IsPaid(s, p) && IsPaid(s', p))
            && One(IsPaid(s', p)) + One(Overwrites(s, e, p)) == One(IsPaid(s, p)) + One(!IsPaid(s, p) && IsPaid(s', p))
  {
    if e.Commit? && e.worker in s.workers {
      WriteHistory(s, s.workers[e.worker], ext, p, 0);
      PaidAfter(s, s.workers[e.worker], ext, p);
    }
  }

  /** Who is in use after a write. */
  lemma UsableAfter(s: State, job: Worker, ext: Calendar, r: int)
    requires r in s.subs
    ensures r in Write(s, job, ext).subs
    ensures Usable(Write(s, job, ext).subs[r].status) <==> Revives(s, job, r) || (Usable(s.subs[r].status) && !Flips(s, job, r))
  {}

  lemma ExpiryWrite(s: State, job: Worker, ext: Calendar, r: int)
    requires r in s.subs
    ensures var s' := Write(s, job, ext);
            && r in s'.subs
            && Expirations(s'.history, r) + One(!Usable(s.subs[r].status))
               == Expirations(s.history, r) + One(!Usable(s'.subs[r].status)) + One(Revives(s, job, r))
  {
    WriteHistory(s, job, ext, 0, r);
    UsableAfter(s, job, ext, r);
  }

  lemma ExpiryStep(s: State, e: Event, ext: Calendar, r: int)
    requires r in s.subs
    ensures var s' := Apply(s, e, ext);
            && r in s'.subs
            && Expirations(s'.history, r) + One(!Usable(s.subs[r].status))
               == Expirations(s.history, r) + One(!Usable(s'.subs[r].status)) + One(Reactivates(s, e, r))
  {
    if e.Commit? && e.worker in s.workers { ExpiryWrite(s, s.workers[e.worker], ext, r); }
  }

  /** The moves a payment can make: CREATED is never re-entered, PAID comes only from a
      committing activation, and PAID is left only by an overwriting failure. */
  lemma PaymentMoves(s: State, e: Event, ext: Calendar, p: int)
    requires p in s.payments
    ensures p in Apply(s, e, ext).payments
    ensures var before, after := s.payments[p].status, Apply(s, e, ext).payments[p].status;
            && Apply(s, e, ext).payments[p] == s.payments[p].(status := after)
            && (after.CREATED? ==> before.CREATED?)
            && (before.PAID? && !after.PAID? <==> Overwrites(s, e, p))
            && (!before.PAID? && after.PAID? ==> e.Commit? && exists seen :: s.workers[e.worker] == Activating(p, seen))
  {
    if e.Commit? && e.worker in s.workers && s.workers[e.worker].Activating? {
      assert s.workers[e.worker] == Activating(s.workers[e.worker].payment, s.workers[e.worker].seen);
    }
  }

  /** Only a signed capture of the stored amount, or a signed verify of the stored
      order, ever starts an activation. */
  lemma ActivationStartsSigned(s: State, e: Event, ext: Calendar, w: int)
    requires w !in s.workers && w in Apply(s, e, ext).workers && Apply(s, e, ext).workers[w].Activating?
    ensures (e.Webhook? && e.signed && e.kind.Captured? && e.amountMatches) || (e.Verify? && e.signed && e.orderMatches)
    ensures Apply(s, e, ext).workers[w].payment == e.payment && !IsPaid(s, e.payment)
  {}

  ghost predicate Initial(s: State) {
    s.history == [] && s.notices == [] && s.workers == map[] && forall p :: p in s.payments ==> !s.payments[p].status.PAID?
  }

  /** Conservation over every interleaving: a payment's activation rows are one per
      overwriting failure plus one if it stands PAID. */
  lemma {:induction false} ActivationBalance(s: State, es: seq<Event>, ext: Calendar, p: int)
    requires Initial(s)
    ensures Activations(Run(s, es, ext).history, p) == OverwriteCount(s, es, ext, p) + One(IsPaid(Run(s, es, ext), p))
  {
    if es != [] {
      ActivationBalance(s, es[..|es| - 1], ext, p);
      HistoryStep(Run(s, es[..|es| - 1], ext), es[|es| - 1], ext, p);
    }
  }

  ghost predicate PaidAbsorbs(s: State, es: seq<Event>, ext: Calendar, p: int) {
    forall i, j :: 0 <= i <= j <= |es| && IsPaid(Run(s, es[..i], ext), p) ==> IsPaid(Run(s, es[..j], ext), p)
  }

  lemma {:induction false} KeepsPaid(s: State, es: seq<Event>, ext: Calendar, p: int, i: nat)
    requires i <= |es| && OverwriteCount(s, es, ext, p) == 0 && IsPaid(Run(s, es[..i], ext), p)
    ensures IsPaid(Run(s, es, ext), p)
  {
    if i == |es| {
      assert es[..i] == es;
    } else {
      assert es[..|es| - 1][..i] == es[..i];
      KeepsPaid(s, es[..|es| - 1], ext, p, i);
      HistoryStep(Run(s, es[..|es| - 1], ext), es[|es| - 1], ext, p);
    }
  }

  lemma {:induction false} OverwritesGrow(s: State, es: seq<Event>, ext: Calendar, p: int, j: nat)
    requires j <= |es|
    ensures OverwriteCount(s, es[..j], ext, p) <= OverwriteCount(s, es, ext, p)
  {
    if j < |es| {
      assert es[..|es| - 1][..j] == es[..j];
      OverwritesGrow(s, es[..|es| - 1], ext, p, j);
    } else {
      assert es[..j] == es;
    }
  }

  lemma {:induction false} FirstOverwrite(s: State, es: seq<Event>, ext: Calendar, p: int) returns (k: nat)
    requires OverwriteCount(s, es, ext, p) > 0
    ensures k < |es| && Overwrites(Run(s, es[..k], ext), es[k], p)
  {
    if Overwrites(Run(s, es[..|es| - 1], ext), es[|es| - 1], p) {
      k := |es| - 1;
    } else {
      k := FirstOverwrite(s, es[..|es| - 1], ext, p);
      assert es[..|es| - 1][..k] == es[..k];
    }
  }

  /** PAID is absorbing along a run, and the payment activates at most once, exactly
      when no failure is written over a paid row: the check a writer could make. */
  lemma PaidAbsorbsIff(s: State, es: seq<Event>, ext: Calendar, p: int)
    requires Initial(s)
    ensures PaidAbsorbs(s, es, ext, p) <==> OverwriteCount(s, es, ext, p) == 0
    ensures OverwriteCount(s, es, ext, p) == 0 ==> Activations(Run(s, es, ext).history, p) <= 1
    ensures Activations(Run(s, es, ext).history, p) > 1 ==> OverwriteCount(s, es, ext, p) > 0
  {
    ActivationBalance(s, es, ext, p);
    if OverwriteCount(s, es, ext, p) == 0 {
      forall i, j | 0 <= i <= j <= |es| && IsPaid(Run(s, es[..i], ext), p) ensures IsPaid(Run(s, es[..j], ext), p) {
        OverwritesGrow(s, es, ext, p, j);
        assert es[..j][..i] == es[..i];
        KeepsPaid(s, es[..j], ext, p, i);
      }
    } else {
      var k := FirstOverwrite(s, es, ext, p);
      assert es[..k + 1][..k] == es[..k];
      HistoryStep(Run(s, es[..k], ext), es[k], ext, p);
      assert IsPaid(Run(s, es[..k], ext), p) && !IsPaid(Run(s, es[..k + 1], ext), p);
    }
  }

  // ---------- What starts ----------

  /** What each request asks of the rows it reads, told by its own fields: a capture its
      signature, amount and an unpaid row; a callback its signature, order, owner and an
      unpaid row; a failure event only its signature. */
  lemma PaymentRequestsStartIff(s: State, ext: Calendar, w: int, p: int, caller: int, signed: bool, matches: bool)
    requires w !in s.workers && p in s.payments && s.payments[p].restaurant in s.subs
    ensures w in Apply(s, Webhook(w, p, signed, Captured, matches), ext).workers <==> signed && matches && s.payments[p].status != PAID
    ensures w in Apply(s, Webhook(w, p, signed, Failure, matches), ext).workers <==> signed
    ensures w !in Apply(s, Webhook(w, p, signed, Ignored, matches), ext).workers
    ensures w in Apply(s, Verify(w, p, caller, matches, signed), ext).workers
            <==> s.payments[p].restaurant == caller && matches && s.payments[p].status != PAID
    ensures var job := Activating(p, s.subs[s.payments[p].restaurant].expiry);
            && (signed && matches && s.payments[p].status != PAID ==>
                  Apply(s, Webhook(w, p, signed, Captured, matches), ext) == s.(workers := s.workers[w := job]))
            && (s.payments[p].restaurant == caller && matches && s.payments[p].status != PAID ==>
                  Apply(s, Verify(w, p, caller, matches, signed), ext)
                  == s.(workers := s.workers[w := if signed then job else Failing(p)]))
            && (signed ==> Apply(s, Webhook(w, p, signed, Failure, matches), ext) == s.(workers := s.workers[w := Failing(p)]))
  {}

  /** A pass selects ACTIVE and TRIAL subscriptions only: past their date to expire them,
      with up to seven days left, in milliseconds, to warn of the date they have. */
  lemma PassSelectsIff(s: State, ext: Calendar, w: int, r: int)
    requires w !in s.workers && r in s.subs
    ensures var sub := s.subs[r];
            && Apply(s, SelectOverdue(w, r), ext)
               == (if (sub.status == ACTIVE || sub.status == TRIAL) && sub.expiry < s.now then s.(workers := s.workers[w := Flipping(r)]) else s)
            && Apply(s, SelectExpiring(w, r), ext)
               == (if (sub.status == ACTIVE || sub.status == TRIAL) && 0 < sub.expiry - s.now <= 604800000
                   then s.(workers := s.workers[w := Warn(r, sub.expiry)]) else s)
  {}

  /** A worker has one job at a time, and only the clock moves the clock. */
  lemma OneJobEach(s: State, e: Event, ext: Calendar)
    ensures !e.Tick? && !e.Commit? && !e.Crash? && e.worker in s.workers ==> Apply(s, e, ext) == s
    ensures e.Crash? ==> Apply(s, e, ext) == s.(workers := s.workers - {e.worker})
    ensures Apply(s, e, ext).now == s.now + if e.Tick? then e.elapsed else 0
  {}

  // ---------- Extensions ----------

  /** The commit that wins the payment's claim. */
  predicate Wins(s: State, e: Event) {
    e.Commit? && e.worker in s.workers && Claims(s, s.workers[e.worker])
  }

  /** A winning activation counts from the same day as the expiry it overwrites does. */
  predicate FreshCommit(s: State, e: Event) {
    Wins(s, e) ==>
      Max(s.workers[e.worker].seen, s.now) == Max(s.subs[s.payments[s.workers[e.worker].payment].restaurant].expiry, s.now)
  }

  ghost predicate AllFresh(s: State, es: seq<Event>, ext: Calendar) {
    forall k :: 0 <= k < |es| ==> FreshCommit(Run(s, es[..k], ext), es[k])
  }

  /** The expiry a restaurant is owed: every purchase on its record adds one cycle,
      counted from the later of the expiry owed before it and the day it was recorded. */
  function Owed(h: seq<Entry>, r: int, initial: int, ext: Calendar): int {
    if h == [] then initial
    else
      var before, e := Owed(h[..|h| - 1], r, initial, ext), h[|h| - 1];
      if e.Activated? && e.restaurant == r then ext(e.cycle, Max(before, e.at)) else before
  }

  ghost predicate Paying(s: State, s0: State, ext: Calendar) {
    forall r :: r in s0.subs ==> r in s.subs && s.subs[r].expiry == Owed(s.history, r, s0.subs[r].expiry, ext)
  }

  lemma OwedStep(s: State, e: Event, s0: State, ext: Calendar)
    requires Paying(s, s0, ext) && FreshCommit(s, e)
    ensures Paying(Apply(s, e, ext), s0, ext)
  {
    var s' := Apply(s, e, ext);
    forall r | r in s0.subs ensures r in s'.subs && s'.subs[r].expiry == Owed(s'.history, r, s0.subs[r].expiry, ext) {
      OwedAt(s, e, r, s0.subs[r].expiry, ext);
    }
  }

  lemma OwedNext(h: seq<Entry>, x: Entry, r: int, initial: int, ext: Calendar)
    ensures Owed(h + [x], r, initial, ext)
            == if x.Activated? && x.restaurant == r then ext(x.cycle, Max(Owed(h, r, initial, ext), x.at)) else Owed(h, r, initial, ext)
  {
    assert (h + [x])[..|h|] == h;
  }

  lemma Claimed(s: State, job: Worker, r: int, initial: int, ext: Calendar)
    requires Claims(s, job) && r in s.subs && s.subs[r].expiry == Owed(s.history, r, initial, ext)
    requires Max(job.seen, s.now) == Max(s.subs[s.payments[job.payment].restaurant].expiry, s.now)
    ensures var s' := Write(s, job, ext); r in s'.subs && s'.subs[r].expiry == Owed(s'.history, r, initial, ext)
  {
    var pay := s.payments[job.payment];
    OwedNext(s.history, Activated(job.payment, pay.restaurant, pay.cycle, s.now, ext(pay.cycle, Max(job.seen, s.now))), r, initial, ext);
  }

  lemma Unclaimed(s: State, job: Worker, r: int, initial: int, ext: Calendar)
    requires !Claims(s, job) && r in s.subs
    ensures var s' := Write(s, job, ext);
            r in s'.subs && s'.subs[r].expiry == s.subs[r].expiry && Owed(s'.history, r, initial, ext) == Owed(s.history, r, initial, ext)
  {
    if job.Flipping? { OwedNext(s.history, Expiration(job.restaurant), r, initial, ext); }
  }

  lemma OwedAt(s: State, e: Event, r: int, initial: int, ext: Calendar)
    requires FreshCommit(s, e) && r in s.subs && s.subs[r].expiry == Owed(s.history, r, initial, ext)
    ensures var s' := Apply(s, e, ext); r in s'.subs && s'.subs[r].expiry == Owed(s'.history, r, initial, ext)
  {
    if e.Commit? && e.worker in s.workers {
      var job := s.workers[e.worker];
      if Claims(s, job) { Claimed(s, job, r, initial, ext); } else { Unclaimed(s, job, r, initial, ext); }
    }
  }

  lemma {:induction false} OwedRun(s: State, es: seq<Event>, ext: Calendar)
    requires Initial(s) && AllFresh(s, es, ext)
    ensures Paying(Run(s, es, ext), s, ext)
  {
    if es != [] {
      var before := es[..|es| - 1];
      assert AllFresh(s, before, ext) by {
        forall k | 0 <= k < |before| ensures FreshCommit(Run(s, before[..k], ext), before[k]) {
          assert before[..k] == es[..k];
        }
      }
      OwedRun(s, before, ext);
      OwedStep(Run(s, before, ext), es[|es| - 1], s, ext);
    }
  }

  ghost predicate OneToOne(ext: Calendar) { forall c, t, u :: ext(c, t) == ext(c, u) ==> t == u }

  /** The step after which a restaurant holds less, or more, than it is owed. */
  lemma StaleStep(s: State, e: Event, s0: State, ext: Calendar)
    requires OneToOne(ext) && Paying(s, s0, ext) && !FreshCommit(s, e) && s.subs.Keys == s0.subs.Keys
    ensures !Paying(Apply(s, e, ext), s0, ext)
  {
    var s' := Apply(s, e, ext);
    var job := s.workers[e.worker];
    var r, c := s.payments[job.payment].restaurant, s.payments[job.payment].cycle;
    assert s'.history[..|s'.history| - 1] == s.history;
    assert s'.subs[r].expiry == ext(c, Max(job.seen, s.now));
    assert Owed(s'.history, r, s0.subs[r].expiry, ext) == ext(c, Max(s.subs[r].expiry, s.now));
  }

  lemma SameAfter(s: State, e: Event, ext: Calendar)
    ensures Apply(s, e, ext).subs.Keys == s.subs.Keys
  {}

  lemma {:induction false} SameRestaurants(s: State, es: seq<Event>, ext: Calendar)
    ensures Run(s, es, ext).subs.Keys == s.subs.Keys
  {
    if es != [] {
      SameRestaurants(s, es[..|es| - 1], ext);
      SameAfter(Run(s, es[..|es| - 1], ext), es[|es| - 1], ext);
    }
  }

  /** Every paid cycle is credited, at every point of a run, exactly when no winning
      activation commits against an expiry that changed since it was read. */
  lemma EveryCycleCreditedIff(s: State, es: seq<Event>, ext: Calendar)
    requires Initial(s)
    ensures AllFresh(s, es, ext) ==> forall k :: 0 <= k <= |es| ==> Paying(Run(s, es[..k], ext), s, ext)
    ensures OneToOne(ext) ==>
      (AllFresh(s, es, ext) <==> forall k :: 0 <= k <= |es| ==> Paying(Run(s, es[..k], ext), s, ext))
  {
    if AllFresh(s, es, ext) {
      forall k | 0 <= k <= |es| ensures Paying(Run(s, es[..k], ext), s, ext) {
        var before := es[..k];
        forall j | 0 <= j < |before| ensures FreshCommit(Run(s, before[..j], ext), before[j]) {
          assert before[..j] == es[..j];
        }
        OwedRun(s, before, ext);
      }
    }
    if OneToOne(ext) && !AllFresh(s, es, ext) {
      var k :| 0 <= k < |es| && !FreshCommit(Run(s, es[..k], ext), es[k]);
      SameRestaurants(s, es[..k], ext);
      assert es[..k + 1][..k] == es[..k];
      if Paying(Run(s, es[..k], ext), s, ext) {
        StaleStep(Run(s, es[..k], ext), es[k], s, ext);
        assert !Paying(Run(s, es[..k + 1], ext), s, ext);
      }
    }
  }

  // ---------- Two runs that break the promises ----------

  lemma RunAdds(s: State, es: seq<Event>, e: Event, ext: Calendar)
    ensures Run(s, es + [e], ext) == Apply(Run(s, es, ext), e, ext)
  {
    assert (es + [e])[..|es|] == es;
  }

  lemma RunFour(s: State, a: Event, b: Event, c: Event, d: Event, ext: Calendar)
    ensures Run(s, [a, b, c, d], ext) == Apply(Apply(Apply(Apply(s, a, ext), b, ext), c, ext), d, ext)
  {
    RunTwo(s, a, b, ext);
    RunTwo(Run(s, [a, b], ext), c, d, ext);
    RunAdds(s, [a, b], c, ext);
    RunAdds(s, [a, b] + [c], d, ext);
    assert [a, b] + [c] + [d] == [a, b, c, d];
  }

  lemma RunTwo(s: State, a: Event, b: Event, ext: Calendar)
    ensures Run(s, [a, b], ext) == Apply(Apply(s, a, ext), b, ext)
  {
    RunAdds(s, [], a, ext);
    RunAdds(s, [a], b, ext);
    assert [] + [a] == [a] && [a] + [b] == [a, b];
  }

  lemma CommitPays(s: State, w: int, p: int, seen: int, ext: Calendar)
    requires w in s.workers && s.workers[w] == Activating(p, seen) && Known(s, p) && !IsPaid(s, p)
    ensures var s', r := Apply(s, Commit(w), ext), s.payments[p].restaurant;
            && s'.payments == s.payments[p := s.payments[p].(status := PAID)]
            && s'.subs == s.subs[r := Sub(ACTIVE, ext(s.payments[p].cycle, Max(seen, s.now)))]
            && s'.workers == s.workers - {w} && s'.now == s.now
  {}

  /** Two unpaid purchases of one restaurant whose activations overlap: both end up
      PAID, and the expiry is the one the second purchase alone would have given. */
  lemma OverlappingActivationsLoseTheFirst(s: State, p: int, q: int, w: int, v: int, ext: Calendar)
    requires Known(s, p) && Known(s, q) && p != q && s.payments[p].restaurant == s.payments[q].restaurant
    requires !IsPaid(s, p) && !IsPaid(s, q) && w != v && w !in s.workers && v !in s.workers
    ensures var end := Run(s, [Webhook(w, p, true, Captured, true), Webhook(v, q, true, Captured, true), Commit(w), Commit(v)], ext);
            var r := s.payments[q].restaurant;
            && IsPaid(end, p) && IsPaid(end, q)
            && end.subs == s.subs[r := Sub(ACTIVE, ext(s.payments[q].cycle, Max(s.subs[r].expiry, s.now)))]
  {
    var a, b := Webhook(w, p, true, Captured, true), Webhook(v, q, true, Captured, true);
    RunFour(s, a, b, Commit(w), Commit(v), ext);
    var seen := s.subs[s.payments[p].restaurant].expiry;
    var s2 := Apply(Apply(s, a, ext), b, ext);
    CommitPays(s2, w, p, seen, ext);
    CommitPays(Apply(s2, Commit(w), ext), v, q, seen, ext);
  }

  function Paid(h: seq<Entry>, expiry: int, now: int): (s: State) {
    State(map[1 := Payment(9, YEARLY, PAID)], map[9 := Sub(ACTIVE, expiry)], h, [], map[], now)
  }

  lemma FailureReopens(h: seq<Entry>, expiry: int, now: int, ext: Calendar)
    ensures var s := Apply(Apply(Paid(h, expiry, now), Webhook(1, 1, true, Failure, true), ext), Commit(1), ext);
            s == Paid(h, expiry, now).(payments := map[1 := Payment(9, YEARLY, FAILED)])
  {
    var mid := Apply(Paid(h, expiry, now), Webhook(1, 1, true, Failure, true), ext);
    assert mid.workers == map[1 := Failing(1)];
    assert Finish(mid, 1).workers == map[];
  }

  lemma CaptureActivates(s: State, ext: Calendar)
    requires s.payments == map[1 := Payment(9, YEARLY, FAILED)] && 9 in s.subs && s.workers == map[]
    ensures var s' := Apply(Apply(s, Webhook(1, 1, true, Captured, true), ext), Commit(1), ext);
            && s'.history == s.history + [Activated(1, 9, YEARLY, s.now, ext(YEARLY, Max(s.subs[9].expiry, s.now)))]
            && 9 in s'.subs && s'.subs[9] == Sub(ACTIVE, ext(YEARLY, Max(s.subs[9].expiry, s.now)))
  {
    var mid := Apply(s, Webhook(1, 1, true, Captured, true), ext);
    assert mid.workers == map[1 := Activating(1, s.subs[9].expiry)];
  }

  /** A failure event arriving after the capture reopens the payment, and the next
      capture of the same payment activates it a second time. */
  lemma LateFailureActivatesTwice(h: seq<Entry>, expiry: int, now: int, ext: Calendar)
    ensures var capture, failure := Webhook(1, 1, true, Captured, true), Webhook(1, 1, true, Failure, true);
            var end := Run(Paid(h, expiry, now), [failure, Commit(1), capture, Commit(1)], ext);
            && Activations(end.history, 1) == Activations(h, 1) + 1
            && 9 in end.subs && end.subs[9].expiry == ext(YEARLY, Max(expiry, now))
  {
    var s := Paid(h, expiry, now);
    var capture, failure := Webhook(1, 1, true, Captured, true), Webhook(1, 1, true, Failure, true);
    RunFour(s, failure, Commit(1), capture, Commit(1), ext);
    FailureReopens(h, expiry, now, ext);
    var mid := Apply(Apply(s, failure, ext), Commit(1), ext);
    assert mid == s.(payments := map[1 := Payment(9, YEARLY, FAILED)]);
    CaptureActivates(mid, ext);
    var end := Run(s, [failure, Commit(1), capture, Commit(1)], ext);
    assert end.history[..|h|] == h;
  }
}

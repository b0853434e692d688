/** The expiry pass over whole runs, alone and raced against payments. */
module ExpiryPass {
  import opened SubscriptionPayments

  // ---------- One row, one notice, one expiry ----------

  lemma WriteNotices(s: State, job: Worker, ext: Calendar, r: int, level: int)
    ensures var ns, ns' := s.notices, Write(s, job, ext).notices;
            && Notices(ns', ExpiredNotice(r)) == Notices(ns, ExpiredNotice(r)) + One(job == Flipping(r) && r in s.subs && Usable(s.subs[r].status))
            && Notices(ns', Warning(r, level)) == Notices(ns, Warning(r, level))
               + One(job.Warn? && job.restaurant == r && level == WarningLevel(job.expiry, s.now) && level != 0 && Warning(r, level) !in ns)
  {
    var s' := Write(s, job, ext);
    if s'.notices != s.notices { assert s'.notices[..|s'.notices| - 1] == s.notices; }
  }

  lemma {:induction false} AbsentMeansNone(ns: seq<Notice>, n: Notice)
    ensures n !in ns <==> Notices(ns, n) == 0
  {
    if ns != [] {
      AbsentMeansNone(ns[..|ns| - 1], n);
      assert ns == ns[..|ns| - 1] + [ns[|ns| - 1]];
    }
  }

  /** Over every interleaving of payments and passes, crashes included: a restaurant
      has one EXPIRATION row, and one notice, for each time it fell out of use, and a
      reactivation for each time it came back. */
  lemma {:induction false} ExpiryBalance(s: State, es: seq<Event>, ext: Calendar, r: int)
    requires Initial(s) && r in s.subs
    ensures var end := Run(s, es, ext);
            && r in end.subs
            && Expirations(end.history, r) == Notices(end.notices, ExpiredNotice(r))
            && Expirations(end.history, r) + One(!Usable(s.subs[r].status))
               == ReactivationCount(s, es, ext, r) + One(!Usable(end.subs[r].status))
  {
    if es != [] {
      var s0, e := Run(s, es[..|es| - 1], ext), es[|es| - 1];
      ExpiryBalance(s, es[..|es| - 1], ext, r);
      ExpiryStep(s0, e, ext, r);
      if e.Commit? && e.worker in s0.workers {
        WriteNotices(s0, s0.workers[e.worker], ext, r, 1);
        WriteHistory(s0, s0.workers[e.worker], ext, 0, r);
      }
    }
  }

  /** However many passes overlap, a restaurant is warned at most once per level; and
      since nothing withdraws a notice, not again in a later cycle either. */
  lemma {:induction false} WarnedAtMostOnce(s: State, es: seq<Event>, ext: Calendar, r: int, level: int)
    requires Initial(s)
    ensures Notices(Run(s, es, ext).notices, Warning(r, level)) <= 1
  {
    if es != [] {
      var s0, e := Run(s, es[..|es| - 1], ext), es[|es| - 1];
      WarnedAtMostOnce(s, es[..|es| - 1], ext, r, level);
      AbsentMeansNone(s0.notices, Warning(r, level));
      if e.Commit? && e.worker in s0.workers { WriteNotices(s0, s0.workers[e.worker], ext, r, level); }
    }
  }

  // ---------- Passes on their own ----------

  predicate PassJob(job: Worker) { job.Flipping? || job.Warn? }

  predicate PassEvent(e: Event) { e.SelectOverdue? || e.SelectExpiring? || e.Commit? || e.Crash? || e.Tick? }

  function Flip(sub: Sub, now: int): Sub {
    if Usable(sub.status) && sub.expiry < now then sub.(status := EXPIRED) else sub
  }

  /** What a single pass at the given moment makes of the subscriptions. */
  function Flipped(subs: map<int, Sub>, now: int): map<int, Sub> {
    map r | r in subs :: Flip(subs[r], now)
  }

  /** Reached from s0 by passes alone: money untouched, each subscription as it was or
      as one pass would leave it, and pending flips are for overdue rows. */
  ghost predicate PassesOnly(s: State, s0: State) {
    && s.payments == s0.payments && s.subs.Keys == s0.subs.Keys && s0.now <= s.now
    && (forall r :: r in s0.subs ==> s.subs[r] == s0.subs[r] || s.subs[r] == Flip(s0.subs[r], s.now))
    && (forall w :: w in s.workers ==> PassJob(s.workers[w]))
    && (forall w :: w in s.workers && s.workers[w].Flipping? ==>
          s.workers[w].restaurant in s0.subs && s0.subs[s.workers[w].restaurant].expiry < s.now)
  }

  lemma PassStep(s: State, s0: State, e: Event, ext: Calendar)
    requires PassesOnly(s, s0) && PassEvent(e)
    ensures PassesOnly(Apply(s, e, ext), s0)
  {}

  lemma {:induction false} PassRun(s: State, es: seq<Event>, ext: Calendar)
    requires s.workers == map[] && forall i :: 0 <= i < |es| ==> PassEvent(es[i])
    ensures PassesOnly(Run(s, es, ext), s)
  {
    if es != [] {
      PassRun(s, es[..|es| - 1], ext);
      PassStep(Run(s, es[..|es| - 1], ext), s, es[|es| - 1], ext);
    }
  }

  lemma FlippedAt(before: map<int, Sub>, after: map<int, Sub>, now: int)
    requires before.Keys == after.Keys
    ensures after == Flipped(before, now) <==> forall r :: r in before ==> after[r] == Flip(before[r], now)
  {
    if forall r :: r in before ==> after[r] == Flip(before[r], now) { assert after == Flipped(before, now); }
  }

  lemma SettledIff(s: State, s0: State)
    requires PassesOnly(s, s0)
    ensures s.subs == Flipped(s.subs, s.now) <==> s.subs == Flipped(s0.subs, s.now)
  {
    FlippedAt(s.subs, s.subs, s.now);
    FlippedAt(s0.subs, s.subs, s.now);
  }

  /** Any number of passes, sequential, overlapping or crashed half way, never touches
      a payment, an expiry date or an unexpired row; and once no overdue row is left
      they have produced exactly the subscriptions of one pass. */
  lemma PassesConverge(s: State, es: seq<Event>, ext: Calendar)
    requires s.workers == map[] && forall i :: 0 <= i < |es| ==> PassEvent(es[i])
    ensures var end := Run(s, es, ext);
            && end.payments == s.payments && end.subs.Keys == s.subs.Keys
            && (forall r :: r in s.subs ==> end.subs[r].expiry == s.subs[r].expiry)
            && (forall r :: r in s.subs && end.subs[r] != s.subs[r] ==>
                  end.subs[r].status.EXPIRED? && s.subs[r].expiry < end.now && (s.subs[r].status == ACTIVE || s.subs[r].status == TRIAL))
            && (end.subs == Flipped(end.subs, end.now) <==> end.subs == Flipped(s.subs, end.now))
  {
    PassRun(s, es, ext);
    SettledIff(Run(s, es, ext), s);
  }

  /** Passes alone never expire a restaurant twice. */
  lemma {:induction false} NoReactivation(s: State, es: seq<Event>, ext: Calendar, r: int)
    requires s.workers == map[] && forall i :: 0 <= i < |es| ==> PassEvent(es[i])
    ensures ReactivationCount(s, es, ext, r) == 0
  {
    if es != [] {
      NoReactivation(s, es[..|es| - 1], ext, r);
      PassRun(s, es[..|es| - 1], ext);
    }
  }

  lemma ExpiredOnceIffFlipped(s: State, es: seq<Event>, ext: Calendar, r: int)
    requires Initial(s) && r in s.subs && forall i :: 0 <= i < |es| ==> PassEvent(es[i])
    ensures var end := Run(s, es, ext);
            && r in end.subs
            && Expirations(end.history, r) == Notices(end.notices, ExpiredNotice(r)) == One(end.subs[r] != s.subs[r])
  {
    ExpiryBalance(s, es, ext, r);
    NoReactivation(s, es, ext, r);
    PassRun(s, es, ext);
  }

  // ---------- A pass raced by a payment ----------

  /** Nobody is locked out before the paid date. */
  ghost predicate NoneExpiredEarly(s: State) {
    forall r :: r in s.subs && s.subs[r].status.EXPIRED? ==> s.subs[r].expiry < s.now
  }

  /** The row a flip finds at its commit is still overdue; the update checks the
      status only. */
  predicate DueFlip(s: State, e: Event) {
    e.Commit? && e.worker in s.workers && s.workers[e.worker].Flipping? ==>
      var r := s.workers[e.worker].restaurant;
      r in s.subs && Usable(s.subs[r].status) ==> s.subs[r].expiry < s.now
  }

  lemma EarlyStep(s: State, e: Event, ext: Calendar)
    requires NoneExpiredEarly(s)
    ensures NoneExpiredEarly(Apply(s, e, ext)) <==> DueFlip(s, e)
  {
    if !DueFlip(s, e) {
      var r := s.workers[e.worker].restaurant;
      assert Apply(s, e, ext).subs[r].status.EXPIRED? && Apply(s, e, ext).subs[r].expiry >= s.now;
    }
  }

  lemma {:induction false} EarlyRun(s: State, es: seq<Event>, ext: Calendar)
    requires NoneExpiredEarly(s) && forall k :: 0 <= k < |es| ==> DueFlip(Run(s, es[..k], ext), es[k])
    ensures NoneExpiredEarly(Run(s, es, ext))
  {
    if es != [] {
      var before := es[..|es| - 1];
      forall k | 0 <= k < |before| ensures DueFlip(Run(s, before[..k], ext), before[k]) {
        assert before[..k] == es[..k];
      }
      EarlyRun(s, before, ext);
      EarlyStep(Run(s, before, ext), es[|es| - 1], ext);
    }
  }

  /** Over a whole run nobody is locked out early exactly when every flip commits on a
      row that is still overdue. */
  lemma NoneExpiredEarlyIff(s: State, es: seq<Event>, ext: Calendar)
    requires NoneExpiredEarly(s)
    ensures (forall k :: 0 <= k <= |es| ==> NoneExpiredEarly(Run(s, es[..k], ext)))
            <==> (forall k :: 0 <= k < |es| ==> DueFlip(Run(s, es[..k], ext), es[k]))
  {
    if forall k :: 0 <= k < |es| ==> DueFlip(Run(s, es[..k], ext), es[k]) {
      forall k | 0 <= k <= |es| ensures NoneExpiredEarly(Run(s, es[..k], ext)) { EarlyPrefix(s, es, ext, k); }
    }
    if forall k :: 0 <= k <= |es| ==> NoneExpiredEarly(Run(s, es[..k], ext)) {
      forall k | 0 <= k < |es| ensures DueFlip(Run(s, es[..k], ext), es[k]) {
        var before := Run(s, es[..k], ext);
        RunNext(s, es, ext, k);
        assert NoneExpiredEarly(Run(s, es[..k + 1], ext));
        EarlyStep(before, es[k], ext);
      }
    }
  }

  lemma EarlyPrefix(s: State, es: seq<Event>, ext: Calendar, k: nat)
    requires NoneExpiredEarly(s) && k <= |es| && forall j :: 0 <= j < |es| ==> DueFlip(Run(s, es[..j], ext), es[j])
    ensures NoneExpiredEarly(Run(s, es[..k], ext))
  {
    forall j | 0 <= j < k ensures DueFlip(Run(s, es[..k][..j], ext), es[..k][j]) {
      assert es[..k][..j] == es[..j];
    }
    EarlyRun(s, es[..k], ext);
  }

  lemma RunNext(s: State, es: seq<Event>, ext: Calendar, k: nat)
    requires k < |es|
    ensures Run(s, es[..k + 1], ext) == Apply(Run(s, es[..k], ext), es[k], ext)
  {
    assert es[..k + 1][..k] == es[..k];
  }

  /** A renewal that lands between a pass's selection and its flip: the payment is
      PAID, the expiry is in the future, and the restaurant is EXPIRED. */
  lemma RenewedThenExpired(s: State, p: int, w: int, v: int, ext: Calendar)
    requires Known(s, p) && !IsPaid(s, p) && w != v && w !in s.workers && v !in s.workers
    requires var sub := s.subs[s.payments[p].restaurant]; Usable(sub.status) && sub.expiry < s.now
    ensures var r := s.payments[p].restaurant;
            var end := Run(s, [SelectOverdue(w, r), Webhook(v, p, true, Captured, true), Commit(v), Commit(w)], ext);
            && IsPaid(end, p) && r in end.subs
            && end.subs[r] == Sub(EXPIRED, ext(s.payments[p].cycle, s.now))
  {
    var r := s.payments[p].restaurant;
    var a, b := SelectOverdue(w, r), Webhook(v, p, true, Captured, true);
    RunFour(s, a, b, Commit(v), Commit(w), ext);
    CommitPays(Apply(Apply(s, a, ext), b, ext), v, p, s.subs[r].expiry, ext);
  }
}

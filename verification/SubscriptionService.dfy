/** The billing tables and the services that update them, one request at a time. */
module SubscriptionService {
  import opened SubscriptionPayments
  import opened ExpiryPass
  import opened ExpiryWarnings

  /** A whole request with nothing in between: read, then commit. */
  function Alone(s: State, e: Event, ext: Calendar): State {
    var begun := Apply(s, e, ext);
    if begun.workers == map[] then begun else Apply(begun, Commit(0), ext)
  }

  function FlipRows(s: State, rows: seq<int>, ext: Calendar): State {
    if rows == [] then s else Write(FlipRows(s, rows[..|rows| - 1], ext), Flipping(rows[|rows| - 1]), ext)
  }

  predicate Overdue(s: State, r: int) { r in s.subs && Usable(s.subs[r].status) && s.subs[r].expiry < s.now }

  lemma {:induction false} FlippedRows(s: State, rows: seq<int>, ext: Calendar)
    requires forall k :: 0 <= k < |rows| ==> Overdue(s, rows[k])
    ensures var end := FlipRows(s, rows, ext);
            && end.payments == s.payments && end.now == s.now && end.workers == s.workers && end.subs.Keys == s.subs.Keys
            && (forall r :: r in s.subs ==> end.subs[r] == if r in rows then Flip(s.subs[r], s.now) else s.subs[r])
  {
    if rows != [] { FlippedRows(s, rows[..|rows| - 1], ext); }
  }

  lemma {:induction false} FlipRowsOnce(s: State, rows: seq<int>, ext: Calendar, r: int)
    requires forall k :: 0 <= k < |rows| ==> Overdue(s, rows[k])
    requires r in s.subs
    ensures var end := FlipRows(s, rows, ext);
            && Expirations(end.history, r) == Expirations(s.history, r) + One(r in rows)
            && Notices(end.notices, ExpiredNotice(r)) == Notices(s.notices, ExpiredNotice(r)) + One(r in rows)
  {
    if rows != [] {
      var init, last := rows[..|rows| - 1], rows[|rows| - 1];
      FlipRowsOnce(s, init, ext, r);
      FlippedRows(s, init, ext);
      assert r in rows <==> r in init || r == last;
      WriteHistory(FlipRows(s, init, ext), Flipping(last), ext, 0, r);
      WriteNotices(FlipRows(s, init, ext), Flipping(last), ext, r, 1);
    }
  }

  /** A complete pass: every ACTIVE or TRIAL subscription past its date ends EXPIRED with
      one more history row and one more notice; every other is as it was, with none. */
  lemma CompletePass(s: State, rows: seq<int>, ext: Calendar)
    requires forall r :: r in rows <==> Overdue(s, r)
    ensures FlipRows(s, rows, ext).subs == Flipped(s.subs, s.now)
    ensures forall r :: !Overdue(FlipRows(s, rows, ext), r)
    ensures forall r :: r in s.subs ==> PassedOver(s, FlipRows(s, rows, ext), r)
  {
    FlippedRows(s, rows, ext);
    FlippedAt(s.subs, FlipRows(s, rows, ext).subs, s.now);
    forall r | r in s.subs ensures PassedOver(s, FlipRows(s, rows, ext), r) {
      FlipRowsOnce(s, rows, ext, r);
    }
  }

  /** What a pass does to one restaurant, told by its status and date. */
  ghost predicate PassedOver(s: State, end: State, r: int) {
    && r in s.subs && r in end.subs && end.subs[r].expiry == s.subs[r].expiry
    && if (s.subs[r].status == ACTIVE || s.subs[r].status == TRIAL) && s.subs[r].expiry < s.now then
         && end.subs[r].status == EXPIRED
         && Expirations(end.history, r) == Expirations(s.history, r) + 1
         && Notices(end.notices, ExpiredNotice(r)) == Notices(s.notices, ExpiredNotice(r)) + 1
       else
         && end.subs[r].status == s.subs[r].status
         && Expirations(end.history, r) == Expirations(s.history, r)
         && Notices(end.notices, ExpiredNotice(r)) == Notices(s.notices, ExpiredNotice(r))
  }

  lemma {:induction false} FlipsKeepNotices(s: State, rows: seq<int>, ext: Calendar)
    ensures forall n :: n in s.notices ==> n in FlipRows(s, rows, ext).notices
    ensures forall n :: n in FlipRows(s, rows, ext).notices && n !in s.notices ==> n.ExpiredNotice?
  {
    if rows != [] { FlipsKeepNotices(s, rows[..|rows| - 1], ext); }
  }

  lemma {:induction false} WarnsKeepExpired(s: State, rows: seq<int>, ext: Calendar, r: int)
    ensures Notices(WarnRows(s, rows, ext).notices, ExpiredNotice(r)) == Notices(s.notices, ExpiredNotice(r))
  {
    if rows != [] {
      var before, last := WarnRows(s, rows[..|rows| - 1], ext), rows[|rows| - 1];
      WarnsKeepExpired(s, rows[..|rows| - 1], ext, r);
      if last in before.subs { WriteNotices(before, Warn(last, before.subs[last].expiry), ext, r, 1); }
    }
  }

  /** The payment is PAID, its restaurant ACTIVE until one cycle after the later of its old
      date and now, and the history has a row for it; nothing else changes. */
  predicate Renewed(s: State, end: State, p: int, ext: Calendar) {
    && p in s.payments && s.payments[p].restaurant in s.subs
    && var pay := s.payments[p];
    var until := ext(pay.cycle, if s.subs[pay.restaurant].expiry > s.now then s.subs[pay.restaurant].expiry else s.now);
    && end.payments == s.payments[p := Payment(pay.restaurant, pay.cycle, PAID)]
    && end.subs == s.subs[pay.restaurant := Sub(ACTIVE, until)]
    && end.history == s.history + [Activated(p, pay.restaurant, pay.cycle, s.now, until)]
    && end.notices == s.notices && end.workers == s.workers && end.now == s.now
  }

  /** The payment is FAILED, whatever it was, and nothing else changes. */
  predicate FailedOnly(s: State, end: State, p: int) {
    p in s.payments && end == s.(payments := s.payments[p := Payment(s.payments[p].restaurant, s.payments[p].cycle, FAILED)])
  }

  class Billing {
    var payments: map<int, Payment>
    var subs: map<int, Sub>
    var history: seq<Entry>
    var notices: seq<Notice>
    var now: int

    function Tables(): State
      reads this
    {
      State(payments, subs, history, notices, map[], now)
    }

    /** Claims the payment if nobody has, and extends from the later of the current
        expiry and the present. */
    method ActivateSubscriptionPayment(p: int, ext: Calendar) returns (alreadyPaid: bool)
      requires Known(Tables(), p)
      modifies this`payments, this`subs, this`history
      ensures alreadyPaid <==> old(payments[p].status == PAID)
      ensures alreadyPaid ==> Tables() == old(Tables())
      ensures !alreadyPaid ==> Renewed(old(Tables()), Tables(), p, ext)
      ensures Tables() == old(Write(Tables(), Activating(p, subs[payments[p].restaurant].expiry), ext))
    {
      var pay := payments[p];
      if pay.status.PAID? { return true; }
      var sub := subs[pay.restaurant];
      payments := payments[p := pay.(status := PAID)];
      var base := now;
      if sub.expiry > now { base := sub.expiry; }
      var newExpiry := ext(pay.cycle, base);
      subs := subs[pay.restaurant := Sub(ACTIVE, newExpiry)];
      history := history + [Activated(p, pay.restaurant, pay.cycle, now, newExpiry)];
      return false;
    }

    method VerifyPayment(p: int, caller: int, orderMatches: bool, signed: bool, ext: Calendar) returns (paid: bool)
      requires p in payments ==> Known(Tables(), p)
      modifies this`payments, this`subs, this`history
      ensures Tables() == old(Alone(Tables(), Verify(0, p, caller, orderMatches, signed), ext))
      ensures paid <==> old(p in payments && payments[p].restaurant == caller)
                        && (old(payments[p].status == PAID) || (orderMatches && signed))
      ensures if paid && old(payments[p].status != PAID) then Renewed(old(Tables()), Tables(), p, ext)
              else if !paid && old(p in payments && payments[p].restaurant == caller) && orderMatches then FailedOnly(old(Tables()), Tables(), p)
              else Tables() == old(Tables())
    {
      if p !in payments || payments[p].restaurant != caller { return false; }
      if payments[p].status.PAID? { return true; }
      if !orderMatches { return false; }
      if !signed {
        payments := payments[p := payments[p].(status := FAILED)];
        return false;
      }
      var _ := ActivateSubscriptionPayment(p, ext);
      return true;
    }

    /** An event without an amount, or with another one, matches nothing and is refused. */
    method ReceiveWebhook(p: int, signed: bool, kind: EventKind, amountMatches: bool, ext: Calendar) returns (answer: int)
      requires p in payments ==> Known(Tables(), p)
      modifies this`payments, this`subs, this`history
      ensures Tables() == old(Alone(Tables(), Webhook(0, p, signed, kind, amountMatches), ext))
      ensures answer == if !signed || (p in old(payments) && kind.Captured? && !amountMatches) then 400 else 200
      ensures if answer == 200 && p in old(payments) && kind == Failure then FailedOnly(old(Tables()), Tables(), p)
              else if answer == 200 && p in old(payments) && kind == Captured && old(payments[p].status != PAID)
                then Renewed(old(Tables()), Tables(), p, ext)
              else Tables() == old(Tables())
    {
      if !signed { return 400; }
      if p !in payments { return 200; }
      if kind.Failure? {
        payments := payments[p := payments[p].(status := FAILED)];
      } else if kind.Captured? {
        if !amountMatches { return 400; }
        var _ := ActivateSubscriptionPayment(p, ext);
      }
      return 200;
    }

    method NotifyExpirySoon(r: int)
      requires r in subs
      modifies this`notices
      ensures forall ext :: Tables() == old(Write(Tables(), Warn(r, subs[r].expiry), ext))
    {
      var level := WarningLevel(subs[r].expiry, now);
      if level != 0 && Warning(r, level) !in notices { notices := notices + [Warning(r, level)]; }
    }

    method ExpireOne(r: int)
      modifies this`subs, this`history, this`notices
      ensures forall ext :: Tables() == old(Write(Tables(), Flipping(r), ext))
    {
      if r in subs && Usable(subs[r].status) {
        subs := subs[r := subs[r].(status := EXPIRED)];
        history := history + [Expiration(r)];
        notices := notices + [ExpiredNotice(r)];
      }
    }

    /** The rows the two queries return, in whatever order, are the arguments. */
    method RunExpiryPass(expiringSoon: seq<int>, overdue: seq<int>, ext: Calendar)
      requires forall r :: r in expiringSoon <==> ExpiresSoon(Tables(), r)
      requires forall r :: r in overdue <==> Overdue(Tables(), r)
      modifies this`subs, this`history, this`notices
      ensures forall r :: r in old(subs) ==> PassedOver(old(Tables()), Tables(), r)
      ensures forall r :: r in old(subs) ==> WarnedInTime(old(Tables()), notices, r)
      ensures forall r, level :: Warning(r, level) in notices && Warning(r, level) !in old(notices) ==> EndsSoon(old(Tables()), r, level)
      ensures subs.Keys == old(subs).Keys && Tables() == FlipRows(WarnRows(old(Tables()), expiringSoon, ext), overdue, ext)
    {
      ghost var s := Tables();
      for i := 0 to |expiringSoon|
        invariant Tables() == WarnRows(s, expiringSoon[..i], ext)
        invariant subs == s.subs && history == s.history
      {
        assert expiringSoon[i] in expiringSoon;
        assert expiringSoon[..i + 1][..i] == expiringSoon[..i];
        NotifyExpirySoon(expiringSoon[i]);
      }
      assert expiringSoon[..|expiringSoon|] == expiringSoon;
      ghost var warned := Tables();
      WarnedRows(s, expiringSoon, ext);
      EveryoneInTimeWarned(s, expiringSoon, ext);
      assert forall r :: Overdue(warned, r) <==> Overdue(s, r);
      for i := 0 to |overdue|
        invariant Tables() == FlipRows(warned, overdue[..i], ext)
      {
        assert overdue[..i + 1][..i] == overdue[..i];
        ExpireOne(overdue[i]);
      }
      assert overdue[..|overdue|] == overdue;
      CompletePass(warned, overdue, ext);
      FlippedRows(warned, overdue, ext);
      FlipsKeepNotices(warned, overdue, ext);
      forall r, level | Warning(r, level) in notices && Warning(r, level) !in s.notices ensures EndsSoon(s, r, level) {
        OnlyInTimeWarned(s, expiringSoon, ext, Warning(r, level));
      }
      forall r | r in s.subs ensures PassedOver(s, Tables(), r) {
        assert PassedOver(warned, Tables(), r);
        WarnsKeepExpired(s, expiringSoon, ext, r);
      }
    }
  }
}

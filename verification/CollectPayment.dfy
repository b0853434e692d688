/** Collecting payment for one order, with other requests allowed between the checks and
    the transaction.  A bill's order is unique, cancelled bills included. */
module CollectPayment {
  import opened Prelude
  import D = BillDiscount

  datatype Status = OPEN | COMPLETED | CANCELLED

  datatype Bill = Bill(grandTotal: nat, paidAmount: int, settled: bool, cancelled: bool)

  /** A request past its checks: what it will record, and whether it saw a bill to
      update. */
  datatype Attempt = Attempt(amounts: seq<nat>, grandTotal: nat, seesBill: bool)

  datatype State = State(
    order: D.Order, status: Status, tableFree: bool, bill: Option<Bill>, payments: seq<int>, attempts: map<int, Attempt>)

  datatype Event =
    | Collect(worker: int, amounts: seq<nat>, req: D.Request)
    | Commit(worker: int)
    | Crash(worker: int)
    | CancelOrder
    | CancelBill
    | Amend(order: D.Order)

  function GrandTotal(o: D.Order, req: D.Request): nat {
    Max(0, D.Total(o.subtotal, D.CollectDiscount(o, req), req.serviceCharge, o.tax, req.roundOff))
  }

  /** Every payment is positive and together they are the total, give or take a paisa. */
  predicate Offers(amounts: seq<nat>, grandTotal: nat) {
    && amounts != [] && (forall i :: 0 <= i < |amounts| ==> amounts[i] > 0)
    && -1 <= Sum(amounts) - grandTotal <= 1
  }

  predicate PaidBill(b: Option<Bill>) { b.Some? && !b.value.cancelled && b.value.settled }

  predicate OpenBill(b: Option<Bill>) { b.Some? && !b.value.cancelled }

  predicate Starts(s: State, e: Event) {
    && e.Collect? && e.worker !in s.attempts && s.status.OPEN?
    && Offers(e.amounts, GrandTotal(s.order, e.req)) && !PaidBill(s.bill)
  }

  function Without(m: map<int, Attempt>, w: int): map<int, Attempt> { m - {w} }

  /** The transaction succeeds: it found a bill to update, or none exists. */
  predicate Wins(s: State, e: Event) {
    e.Commit? && e.worker in s.attempts && (s.attempts[e.worker].seesBill || s.bill.None?)
  }

  predicate InFull(a: Attempt) { Sum(a.amounts) >= a.grandTotal }

  function Record(s: State, a: Attempt): State {
    var total := Sum(a.amounts);
    s.(bill := Some(Bill(a.grandTotal, total, InFull(a), a.seesBill && s.bill.Some? && s.bill.value.cancelled)),
    payments := s.payments + a.amounts,
    status := if InFull(a) then COMPLETED else s.status,
    tableFree := InFull(a) || s.tableFree)
  }

  function Apply(s: State, e: Event): State {
    match e
    case Collect(w, amounts, req) =>
      if Starts(s, e) then s.(attempts := s.attempts[w := Attempt(amounts, GrandTotal(s.order, req), OpenBill(s.bill))]) else s
    case Commit(w) =>
      var after := if Wins(s, e) then Record(s, s.attempts[w]) else s;
      after.(attempts := Without(s.attempts, w))
    case Crash(w) => s.(attempts := Without(s.attempts, w))
    case CancelOrder => if s.status.OPEN? then s.(status := CANCELLED, tableFree := true) else s
    case CancelBill =>
      // the order goes back to pending, the row stays
      if OpenBill(s.bill) then s.(bill := Some(s.bill.value.(cancelled := true)), status := OPEN) else s
    case Amend(order) => if s.status.OPEN? then s.(order := order) else s
  }

  function Run(s: State, es: seq<Event>): State {
    if es == [] then s else Apply(Run(s, es[..|es| - 1]), es[|es| - 1])
  }

  predicate Sound(s: State) {
    forall w :: w in s.attempts ==>
      s.attempts[w].amounts != [] && (forall i :: 0 <= i < |s.attempts[w].amounts| ==> s.attempts[w].amounts[i] > 0)
      && (s.attempts[w].seesBill ==> s.bill.Some?)
  }

  ghost predicate Initial(s: State) { s.bill.None? && s.payments == [] && s.attempts == map[] && s.status.OPEN? }

  lemma SoundStep(s: State, e: Event)
    requires Sound(s)
    ensures Sound(Apply(s, e))
  {}

  lemma {:induction false} RunsAreSound(s: State, es: seq<Event>)
    requires Sound(s)
    ensures Sound(Run(s, es))
  {
    if es != [] {
      RunsAreSound(s, es[..|es| - 1]);
      SoundStep(Run(s, es[..|es| - 1]), es[|es| - 1]);
    }
  }

  // ---------- When nothing more can be recorded ----------

  /** A condition readable from the tables and the requests in flight. */
  predicate Quiet(s: State) {
    && (forall w :: w in s.attempts ==> !s.attempts[w].seesBill && s.bill.Some?)
    && (s.status.OPEN? ==> s.bill.Some? && (s.bill.value.cancelled || s.bill.value.settled))
  }

  lemma QuietStep(s: State, e: Event)
    requires Quiet(s)
    ensures Quiet(Apply(s, e)) && Apply(s, e).payments == s.payments
    ensures s.bill.Some? ==>
      var b' := Apply(s, e).bill; b'.Some? && b'.value == s.bill.value.(cancelled := b'.value.cancelled)
  {}

  lemma {:induction false} QuietRun(s: State, es: seq<Event>)
    requires Quiet(s)
    ensures Quiet(Run(s, es)) && Run(s, es).payments == s.payments
    ensures s.bill.Some? ==>
      var b' := Run(s, es).bill; b'.Some? && b'.value == s.bill.value.(cancelled := b'.value.cancelled)
  {
    if es != [] {
      QuietRun(s, es[..|es| - 1]);
      QuietStep(Run(s, es[..|es| - 1]), es[|es| - 1]);
    }
  }

  function Exactly(s: State): Event { Collect(0, [Max(1, GrandTotal(s.order, D.PLAIN))], D.PLAIN) }

  lemma RunOne(s: State, a: Event)
    ensures Run(s, [a]) == Apply(s, a)
  {
    assert [a][..0] == [];
    assert Run(s, []) == s;
  }

  lemma RunThree(s: State, a: Event, b: Event, c: Event)
    ensures Run(s, [a, b, c]) == Apply(Apply(Apply(s, a), b), c)
  {
    RunOne(s, a);
    assert [a, b][..1] == [a] && [a, b, c][..2] == [a, b];
    assert Run(s, [a, b]) == Apply(Run(s, [a]), b);
  }

  lemma SumOfOne(n: int)
    ensures Sum([n]) == n
  {
    assert [n][..0] == [];
    assert Sum([]) == 0;
  }

  /** Whenever the order is open and its bill is missing or unpaid, a full payment goes
      through and completes the order. */
  lemma OpenOrderCollects(s: State)
    requires s.status.OPEN? && (s.bill.None? || (OpenBill(s.bill) && !PaidBill(s.bill)))
    ensures var end := Run(s, [Crash(0), Exactly(s), Commit(0)]);
            && end.payments == s.payments + [Max(1, GrandTotal(s.order, D.PLAIN))]
            && end.status.COMPLETED? && PaidBill(end.bill) && end.tableFree
  {
    RunThree(s, Crash(0), Exactly(s), Commit(0));
    SumOfOne(Max(1, GrandTotal(s.order, D.PLAIN)));
    var clear := Apply(s, Crash(0));
    assert Starts(clear, Exactly(s));
  }

  lemma LoudNow(s: State)
    requires Sound(s) && !Quiet(s)
    ensures exists es :: Run(s, es).payments != s.payments
  {
    if w :| w in s.attempts && (s.attempts[w].seesBill || s.bill.None?) {
      RunOne(s, Commit(w));
      assert |Run(s, [Commit(w)]).payments| > |s.payments|;
    } else {
      OpenOrderCollects(s);
      assert |Run(s, [Crash(0), Exactly(s), Commit(0)]).payments| > |s.payments|;
    }
  }

  /** No later run, whatever the requests and their interleaving, records another
      payment exactly when the state is quiet. */
  lemma NothingMoreIsRecordedIff(s: State)
    requires Sound(s)
    ensures (forall es :: Run(s, es).payments == s.payments) <==> Quiet(s)
  {
    if Quiet(s) {
      forall es ensures Run(s, es).payments == s.payments { QuietRun(s, es); }
    } else {
      LoudNow(s);
    }
  }

  // ---------- The first payment ----------

  predicate Unbilled(s: State) { s.bill.None? && s.payments == [] && forall w :: w in s.attempts ==> !s.attempts[w].seesBill }

  function WinCount(s: State, es: seq<Event>): nat {
    if es == [] then 0 else WinCount(s, es[..|es| - 1]) + (if Wins(Run(s, es[..|es| - 1]), es[|es| - 1]) then 1 else 0)
  }

  function Collected(s: State, es: seq<Event>): int {
    if es == [] then 0
    else
      var before, e := Run(s, es[..|es| - 1]), es[|es| - 1];
      Collected(s, es[..|es| - 1]) + (if Wins(before, e) then Sum(before.attempts[e.worker].amounts) else 0)
  }

  /** Every winning transaction so far covered its total. */
  predicate AllInFull(s: State, es: seq<Event>) {
    forall k :: 0 <= k < |es| && Wins(Run(s, es[..k]), es[k]) ==> InFull(Run(s, es[..k]).attempts[es[k].worker])
  }

  lemma {:induction false} SumAppend(a: seq<int>, b: seq<int>)
    ensures Sum(a + b) == Sum(a) + Sum(b)
  {
    if b == [] {
      assert a + b == a;
    } else {
      assert (a + b)[..|a + b| - 1] == a + b[..|b| - 1];
      SumAppend(a, b[..|b| - 1]);
    }
  }

  /** Money is conserved: the payment rows add up to what the winning requests offered,
      and losing requests add no row. */
  lemma {:induction false} PaymentsAreTheWinningOffers(s: State, es: seq<Event>)
    requires s.payments == []
    ensures Sum(Run(s, es).payments) == Collected(s, es)
  {
    if es != [] {
      var before, e := Run(s, es[..|es| - 1]), es[|es| - 1];
      PaymentsAreTheWinningOffers(s, es[..|es| - 1]);
      if Wins(before, e) { SumAppend(before.payments, before.attempts[e.worker].amounts); }
    }
  }

  /** The state after a run in which every winner paid in full: still unbilled, or
      closed by the one winner, whose payments are the bill's. */
  predicate CollectedOnce(s: State, wins: nat) {
    || (Unbilled(s) && wins == 0 && !s.status.COMPLETED?)
    || (Quiet(s) && s.bill.Some? && s.bill.value.settled && Sum(s.payments) == s.bill.value.paidAmount && wins == 1)
  }

  lemma FullWinCloses(s: State, e: Event)
    requires Unbilled(s) && Wins(s, e) && InFull(s.attempts[e.worker])
    ensures CollectedOnce(Apply(s, e), 1)
  {
    assert [] + s.attempts[e.worker].amounts == s.attempts[e.worker].amounts;
    SumAppend([], s.attempts[e.worker].amounts);
  }

  lemma QuietNeverWins(s: State, e: Event)
    requires Quiet(s) && s.bill.Some?
    ensures !Wins(s, e)
  {}

  lemma CollectedOnceStep(s: State, e: Event, wins: nat)
    requires CollectedOnce(s, wins) && (Wins(s, e) ==> InFull(s.attempts[e.worker]))
    ensures CollectedOnce(Apply(s, e), wins + (if Wins(s, e) then 1 else 0))
  {
    if Unbilled(s) && wins == 0 && !s.status.COMPLETED? {
      if Wins(s, e) { FullWinCloses(s, e); }
    } else {
      QuietNeverWins(s, e);
      QuietStep(s, e);
    }
  }

  lemma {:induction false} FullWinnersCollectOnce(s: State, es: seq<Event>)
    requires Initial(s) && AllInFull(s, es)
    ensures CollectedOnce(Run(s, es), WinCount(s, es))
  {
    if es != [] {
      var prefix := es[..|es| - 1];
      forall k | 0 <= k < |prefix| && Wins(Run(s, prefix[..k]), prefix[k])
        ensures InFull(Run(s, prefix[..k]).attempts[prefix[k].worker])
      {
        assert prefix[..k] == es[..k];
      }
      FullWinnersCollectOnce(s, prefix);
      CollectedOnceStep(Run(s, prefix), es[|es| - 1], WinCount(s, prefix));
    }
  }

  /** Any number of concurrent or repeated collections, cancellations and edits: when
      each winner pays in full there is at most one, every later attempt adds nothing,
      and the payments are exactly the bill's paid amount. */
  lemma OneFullPaymentPerOrder(s: State, es: seq<Event>, later: seq<Event>)
    requires Initial(s) && AllInFull(s, es)
    ensures var end := Run(s, es);
            && WinCount(s, es) <= 1 && (end.bill.Some? <==> WinCount(s, es) == 1)
            && (end.bill.Some? ==>
                  && Sum(end.payments) == end.bill.value.paidAmount
                  && end.bill.value.paidAmount >= end.bill.value.grandTotal
                  && Run(end, later).payments == end.payments
                  && Run(end, later).bill.Some? && Run(end, later).bill.value.paidAmount == end.bill.value.paidAmount)
            && (end.bill.None? ==> end.payments == [])
  {
    FullWinnersCollectOnce(s, es);
    if Run(s, es).bill.Some? {
      QuietRun(Run(s, es), later);
      PaidCoversTotal(s, es);
    }
  }

  predicate Consistent(b: Option<Bill>) { b.Some? ==> (b.value.settled <==> b.value.paidAmount >= b.value.grandTotal) }

  lemma {:induction false} PaidCoversTotal(s: State, es: seq<Event>)
    requires Consistent(s.bill)
    ensures Consistent(Run(s, es).bill)
  {
    if es != [] { PaidCoversTotal(s, es[..|es| - 1]); }
  }

  /** A first payment can be collected a second time exactly when it fell short: the
      tolerance lets it in a paisa under, and the bill then stays open. */
  lemma SecondPaymentPossibleIffShort(s: State, es: seq<Event>, e: Event)
    requires Initial(s) && Unbilled(Run(s, es)) && Wins(Run(s, es), e) && !Run(s, es).status.CANCELLED?
    requires !Run(s, es).status.COMPLETED?
    ensures var first := Apply(Run(s, es), e);
            (exists later :: Run(first, later).payments != first.payments) <==> !InFull(Run(s, es).attempts[e.worker])
  {
    var before := Run(s, es);
    var first := Apply(before, e);
    RunsAreSound(s, es);
    NothingMoreIsRecordedIff(first);
    assert Quiet(first) <==> InFull(before.attempts[e.worker]);
  }

  // ---------- What a cancelled bill does ----------

  /** Cancelling a bill reopens its order for good: nothing can be collected for it any
      more, though every attempt is answered as already paid. */
  lemma CancelledBillCanNeverBeCollected(s: State, later: seq<Event>)
    requires PaidBill(s.bill) && forall w :: w in s.attempts ==> !s.attempts[w].seesBill
    ensures var reopened := Apply(s, CancelBill);
            && reopened.status.OPEN?
            && Run(reopened, later).payments == s.payments
            && Run(reopened, later).bill == reopened.bill
  {
    QuietRun(Apply(s, CancelBill), later);
    StillCancelled(Apply(s, CancelBill), later);
  }

  lemma {:induction false} StillCancelled(s: State, es: seq<Event>)
    requires Quiet(s) && s.bill.Some? && s.bill.value.cancelled
    ensures Run(s, es).bill == s.bill
  {
    if es != [] {
      StillCancelled(s, es[..|es| - 1]);
      QuietRun(s, es[..|es| - 1]);
    }
  }

  /** A collection that passed its checks completes an order cancelled meanwhile. */
  lemma CancelledThenCompleted(s: State, w: int, amounts: seq<nat>, req: D.Request)
    requires Starts(s, Collect(w, amounts, req)) && s.bill.None? && Sum(amounts) >= GrandTotal(s.order, req)
    ensures var end := Run(s, [Collect(w, amounts, req), CancelOrder, Commit(w)]);
            end.status.COMPLETED? && end.payments == s.payments + amounts
  {
    RunThree(s, Collect(w, amounts, req), CancelOrder, Commit(w));
  }

  /** Two collections that both found the same unpaid bill are both recorded. */
  lemma UnpaidBillCollectedTwice(s: State, w: int, v: int)
    requires s.status.OPEN? && OpenBill(s.bill) && !PaidBill(s.bill) && w != v && w !in s.attempts && v !in s.attempts
    ensures var full := [Max(1, GrandTotal(s.order, D.PLAIN))];
            Run(Run(s, [Collect(w, full, D.PLAIN), Collect(v, full, D.PLAIN), Commit(w)]), [Commit(v)]).payments == s.payments + full + full
  {
    var full := [Max(1, GrandTotal(s.order, D.PLAIN))];
    SumOfOne(full[0]);
    RunThree(s, Collect(w, full, D.PLAIN), Collect(v, full, D.PLAIN), Commit(w));
    var one := Apply(s, Collect(w, full, D.PLAIN));
    assert Starts(s, Collect(w, full, D.PLAIN)) && Starts(one, Collect(v, full, D.PLAIN));
    var two := Apply(one, Collect(v, full, D.PLAIN));
    assert two.attempts[w].amounts == full && two.attempts[v] == Attempt(full, GrandTotal(s.order, D.PLAIN), true);
    RunOne(Apply(two, Commit(w)), Commit(v));
  }

  // ---------- What the collectors are told ----------

  /** 201, 200 with the existing bill, and a refusal. */
  datatype Answer = Recorded | AlreadyPaid | Refused

  /** The answer after the transaction: the unique order key turns a loser away. */
  function CommitAnswer(s: State, w: int): Answer { if Wins(s, Commit(w)) then Recorded else AlreadyPaid }

  /** Of two collectors that both found no bill the first to commit is recorded; the
      other is told that the order is already paid, and adds nothing. */
  lemma LoserIsToldAlreadyPaid(s: State, w: int, v: int)
    requires s.bill.None? && w != v && w in s.attempts && v in s.attempts && !s.attempts[v].seesBill
    ensures CommitAnswer(s, w) == Recorded
    ensures var first := Apply(s, Commit(w));
            && CommitAnswer(first, v) == AlreadyPaid
            && Apply(first, Commit(v)).payments == first.payments && Apply(first, Commit(v)).bill == first.bill
  {}

  // ---------- Other requests ----------

  /** Only an open order can be cancelled, which frees its table, or amended; a cancelled
      bill reopens its order; bills, payments and requests in flight are left alone. */
  lemma OtherRequests(s: State, order: D.Order)
    ensures Apply(s, CancelOrder) == if s.status == OPEN then s.(status := CANCELLED, tableFree := true) else s
    ensures Apply(s, Amend(order)).order == if s.status == OPEN then order else s.order
    ensures Apply(s, Amend(order)).(order := s.order) == s
    ensures s.bill.Some? && !s.bill.value.cancelled ==>
              Apply(s, CancelBill) == s.(status := OPEN, bill := Some(s.bill.value.(cancelled := true)))
    ensures s.bill.None? || s.bill.value.cancelled ==> Apply(s, CancelBill) == s
  {}

  /** An order that is closed stays priced as it was and in its status until a bill of it
      is cancelled. */
  lemma {:induction false} ClosedStaysPriced(s: State, es: seq<Event>)
    requires s.status != OPEN && s.attempts == map[] && forall e :: e in es ==> e != CancelBill
    ensures var end := Run(s, es); end.order == s.order && end.status == s.status && end.bill == s.bill && end.attempts == map[]
    ensures Run(s, es).payments == s.payments && Run(s, es).tableFree == s.tableFree
  {
    if es != [] {
      var init, last := es[..|es| - 1], es[|es| - 1];
      assert es == init + [last] && last in es;
      forall e | e in init ensures e != CancelBill { assert e in es; }
      ClosedStaysPriced(s, init);
    }
  }

  /** A request under way keeps its worker: the same one cannot start another. */
  lemma OneRequestEach(s: State, e: Event)
    requires e.Collect? && e.worker in s.attempts
    ensures Apply(s, e) == s
  {}

  // ---------- What is asked for ----------

  /** The amount due: subtotal and charges less the discount the till owes, floored at
      zero. */
  predicate Due(o: D.Order, req: D.Request, d: int, due: int) {
    && D.TillOwes(o, req, d)
    && var net := o.subtotal - d + req.serviceCharge + o.tax + req.roundOff; due == if net < 0 then 0 else net
  }

  lemma GrandTotalIsDue(o: D.Order, req: D.Request, d: int, due: int)
    ensures Due(o, req, d, due) <==> d == D.CollectDiscount(o, req) && due == GrandTotal(o, req)
  {
    D.TillChargesOwed(o, req, d);
  }

  // ---------- The service ----------

  class Till {
    var order: D.Order
    var status: Status
    var tableFree: bool
    var bill: Option<Bill>
    var payments: seq<int>

    function Tables(): State
      reads this
    {
      State(order, status, tableFree, bill, payments, map[])
    }

    method Offered(amounts: seq<nat>) returns (total: int)
      ensures total == Sum(amounts)
    {
      total := 0;
      for i := 0 to |amounts|
        invariant total == Sum(amounts[..i])
      {
        assert amounts[..i + 1][..i] == amounts[..i];
        total := total + amounts[i];
      }
      assert amounts[..|amounts|] == amounts;
    }

    /** The transaction: the bill, a payment row for each amount, and the order's
        completion if they cover it. */
    method WriteCollection(amounts: seq<nat>, total: int, grandTotal: nat)
      modifies this`status, this`tableFree, this`bill, this`payments
      ensures bill == Some(Bill(grandTotal, total, total >= grandTotal, false)) && payments == old(payments) + amounts
      ensures if total >= grandTotal then status.COMPLETED? && tableFree else status == old(status) && tableFree == old(tableFree)
    {
      bill := Some(Bill(grandTotal, total, total >= grandTotal, false));
      for i := 0 to |amounts|
        invariant payments == old(payments) + amounts[..i]
        invariant status == old(status) && tableFree == old(tableFree)
        invariant bill == Some(Bill(grandTotal, total, total >= grandTotal, false))
      {
        assert amounts[..i + 1] == amounts[..i] + [amounts[i]];
        payments := payments + [amounts[i]];
      }
      if total >= grandTotal {
        status := COMPLETED;
        tableFree := true;
      }
    }

    /** The checks, then the transaction, whose unique order key a cancelled bill holds. */
    method CheckAndWrite(amounts: seq<nat>, req: D.Request) returns (answer: Answer)
      requires amounts != [] && forall i :: 0 <= i < |amounts| ==> amounts[i] > 0
      modifies this`status, this`tableFree, this`bill, this`payments
      ensures answer.Refused? <==> old(!status.OPEN? || !Offers(amounts, GrandTotal(order, req)))
      ensures answer.AlreadyPaid? <==> old(status.OPEN? && Offers(amounts, GrandTotal(order, req)) && bill.Some? && (PaidBill(bill) || !OpenBill(bill)))
      ensures Tables() == if answer.Recorded? then Record(old(Tables()), Attempt(amounts, GrandTotal(order, req), OpenBill(old(bill)))) else old(Tables())
    {
      if !status.OPEN? { return Refused; }
      var total := Offered(amounts);
      var grandTotal: int := GrandTotal(order, req);
      if total - grandTotal > 1 || grandTotal - total > 1 { return Refused; }
      if PaidBill(bill) { return AlreadyPaid; }
      if bill.Some? && bill.value.cancelled { return AlreadyPaid; } // unique order: rolled back
      WriteCollection(amounts, total, grandTotal);
      return Recorded;
    }

    /** A collection with nothing in between. */
    method Collect(amounts: seq<nat>, req: D.Request) returns (answer: Answer)
      requires amounts != [] && forall i :: 0 <= i < |amounts| ==> amounts[i] > 0
      modifies this`status, this`tableFree, this`bill, this`payments
      ensures Tables() == old(Run(Tables(), [Event.Collect(0, amounts, req), Commit(0)]))
      ensures answer.Recorded? <==> |payments| > |old(payments)|
      ensures answer.Recorded? ==> payments == old(payments) + amounts
      ensures answer.Recorded? ==> exists d, due :: Due(order, req, d, due) && bill == Some(Bill(due, Sum(amounts), Sum(amounts) >= due, false))
                                                    && -1 <= Sum(amounts) - due <= 1
      ensures answer.Recorded? ==>
                if Sum(amounts) >= bill.value.grandTotal then status.COMPLETED? && tableFree else status.OPEN? && tableFree == old(tableFree)
      ensures answer.Refused? <==>
                old(status) != OPEN || forall d, due :: Due(order, req, d, due) ==> !(-1 <= Sum(amounts) - due <= 1)
      ensures answer.AlreadyPaid? ==> old(bill).Some? && (old(bill).value.settled || old(bill).value.cancelled)
      ensures !answer.Recorded? ==> Tables() == old(Tables())
    {
      ghost var d, due := D.CollectDiscount(order, req), GrandTotal(order, req);
      forall e, other ensures Due(order, req, e, other) <==> e == d && other == due { GrandTotalIsDue(order, req, e, other); }
      CollectRuns(Tables(), amounts, req);
      answer := CheckAndWrite(amounts, req);
      assert Due(order, req, d, due);
    }
  }

  /** A collection run without a gap: the attempt is recorded, or nothing is. */
  lemma CollectRuns(s: State, amounts: seq<nat>, req: D.Request)
    requires s.attempts == map[]
    ensures Run(s, [Collect(0, amounts, req), Commit(0)])
            == if Starts(s, Collect(0, amounts, req)) && (OpenBill(s.bill) || s.bill.None?)
               then Record(s, Attempt(amounts, GrandTotal(s.order, req), OpenBill(s.bill))) else s
  {
    var begin, commit := Collect(0, amounts, req), Commit(0);
    RunOne(s, begin);
    assert [begin, commit][..1] == [begin];
  }
}

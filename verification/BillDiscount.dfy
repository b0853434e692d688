/** Discounts and totals of a bill, in paise with exact arithmetic. */
module BillDiscount {
  import opened Prelude

  datatype DiscountType = FLAT | PERCENTAGE

  /** What a request may say; a missing field is None. */
  datatype Request = Request(
    discount: Option<int>, discountType: Option<DiscountType>, discountValue: Option<real>, serviceCharge: int, roundOff: int)

  datatype Order = Order(subtotal: nat, tax: int, discount: int, discountType: Option<DiscountType>, discountValue: real, engine: bool)

  datatype Bill = Bill(
    subtotal: nat, tax: int, serviceCharge: int, roundOff: int,
    discount: int, discountType: Option<DiscountType>, discountValue: real, grandTotal: int,
    paid: bool, cancelled: bool)

  datatype Edit = Edit(discountType: DiscountType, discountValue: real)

  /** Nearest paisa, halves up. */
  function Round(x: real): int { (x + 0.5).Floor }

  function RoundUpTo(raw: real, subtotal: nat): int { Round(if raw > subtotal as real then subtotal as real else raw) }

  /** The value is a percentage, or rupees; never more than the subtotal. */
  function DiscountAmount(discountType: DiscountType, value: real, subtotal: nat): int {
    RoundUpTo(if discountType.PERCENTAGE? then subtotal as real * value / 100.0 else value * 100.0, subtotal)
  }

  function Clamp(discount: int, subtotal: nat): int { Min(Max(0, discount), subtotal) }

  function Total(subtotal: nat, discount: int, serviceCharge: int, tax: int, roundOff: int): int {
    subtotal - discount + serviceCharge + tax + roundOff
  }

  function Or<T>(x: Option<T>, y: T): T { if x.Some? then x.value else y }

  function TypeOr(x: Option<DiscountType>, y: Option<DiscountType>): Option<DiscountType> { if x.Some? then x else y }

  /** The discount of a bill generated for a finished order. */
  function BillingDiscount(o: Order, req: Request): int {
    var kind := TypeOr(req.discountType, o.discountType);
    if kind.Some? then DiscountAmount(kind.value, Or(req.discountValue, o.discountValue), o.subtotal)
    else Clamp(Or(req.discount, o.discount), o.subtotal)
  }

  /** The discount of a bill collected at the till: a missing value counts as zero, so
      the order's own value is never consulted. */
  function CollectDiscount(o: Order, req: Request): int {
    var kind := TypeOr(req.discountType, o.discountType);
    if o.engine then Clamp(o.discount, o.subtotal)
    else if kind.Some? then DiscountAmount(kind.value, Or(req.discountValue, 0.0), o.subtotal)
    else Clamp(Or(req.discount, 0), o.subtotal)
  }

  function CreateBill(o: Order, req: Request): (b: Bill) {
    var discount := BillingDiscount(o, req);
    var kind := TypeOr(req.discountType, o.discountType);
    Bill(o.subtotal, o.tax, req.serviceCharge, req.roundOff, discount, kind,
         if kind.Some? then Or(req.discountValue, o.discountValue) else 0.0,
         Max(0, Total(o.subtotal, discount, req.serviceCharge, o.tax, req.roundOff)), false, false)
  }

  predicate Acceptable(b: Bill, e: Edit) {
    && !b.paid && !b.cancelled && e.discountValue >= 0.0
    && (e.discountType.PERCENTAGE? ==> e.discountValue <= 100.0)
  }

  function UpdateDiscount(b: Bill, e: Edit): Bill {
    if !Acceptable(b, e) then b
    else
      var discount := DiscountAmount(e.discountType, e.discountValue, b.subtotal);
      b.(discount := discount, discountType := Some(e.discountType), discountValue := e.discountValue,
      grandTotal := Total(b.subtotal, discount, b.serviceCharge, b.tax, b.roundOff))
  }

  function Edited(b: Bill, edits: seq<Edit>): Bill {
    if edits == [] then b else UpdateDiscount(Edited(b, edits[..|edits| - 1]), edits[|edits| - 1])
  }

  function LastAccepted(b: Bill, edits: seq<Edit>): Option<Edit> {
    if edits == [] then None
    else if Acceptable(b, edits[|edits| - 1]) then Some(edits[|edits| - 1])
    else LastAccepted(b, edits[..|edits| - 1])
  }

  // ---------- Rounding ----------

  /** The exact discount lies within half a paisa of the charged one, which is between
      nothing and the subtotal. */
  lemma DiscountIsNearest(kind: DiscountType, value: real, subtotal: nat)
    requires value >= 0.0
    ensures 0 <= DiscountAmount(kind, value, subtotal) <= subtotal
    ensures var raw := if kind.PERCENTAGE? then subtotal as real * value / 100.0 else value * 100.0;
            && (raw >= subtotal as real ==> DiscountAmount(kind, value, subtotal) == subtotal)
            && (raw <= subtotal as real ==>
                  raw - 0.5 < DiscountAmount(kind, value, subtotal) as real <= raw + 0.5)
  {
    assert kind.PERCENTAGE? ==> subtotal as real * value >= 0.0;
  }

  lemma RoundRises(x: real, y: real)
    requires x <= y
    ensures Round(x) <= Round(y)
  {}

  lemma CappedRises(x: real, y: real, subtotal: nat)
    requires x <= y
    ensures RoundUpTo(x, subtotal) <= RoundUpTo(y, subtotal)
  {
    var cap := subtotal as real;
    RoundRises(if x > cap then cap else x, if y > cap then cap else y);
  }

  lemma ShareRises(n: nat, less: real, more: real)
    requires less <= more
    ensures n as real * less / 100.0 <= n as real * more / 100.0
  {
    var d := more - less;
    assert n as real * d >= 0.0;
    assert n as real * more == n as real * less + n as real * d;
  }

  /** A larger value never gives a smaller discount. */
  lemma DiscountNeverFalls(kind: DiscountType, less: real, more: real, subtotal: nat)
    requires less <= more
    ensures DiscountAmount(kind, less, subtotal) <= DiscountAmount(kind, more, subtotal)
  {
    if kind.PERCENTAGE? {
      ShareRises(subtotal, less, more);
      CappedRises(subtotal as real * less / 100.0, subtotal as real * more / 100.0, subtotal);
    } else {
      CappedRises(less * 100.0, more * 100.0, subtotal);
    }
  }

  lemma NoDiscount(kind: DiscountType, subtotal: nat)
    ensures DiscountAmount(kind, 0.0, subtotal) == 0
  {
    assert subtotal as real * 0.0 == 0.0;
  }

  // ---------- What is charged, in numbers ----------

  /** The nearest paisa to a percentage or to rupees, at most the subtotal. */
  predicate Worth(d: int, kind: DiscountType, value: real, subtotal: nat) {
    var exact := match kind case PERCENTAGE => subtotal as real * value / 100.0 case FLAT => value * 100.0;
    if exact >= subtotal as real then d == subtotal else exact - 0.5 < d as real <= exact + 0.5
  }

  /** An amount between zero and the subtotal. */
  predicate Capped(d: int, amount: int, subtotal: nat) {
    d == if amount < 0 then 0 else if amount > subtotal then subtotal else amount
  }

  /** The discount the till owes: the order's under promotions, else the value named with
      the type the request names, or the order's own type; else the flat amount named. */
  predicate TillOwes(o: Order, req: Request, d: int) {
    if o.engine then Capped(d, o.discount, o.subtotal)
    else
      var value := match req.discountValue case Some(v) => v case None => 0.0;
      match (req.discountType, o.discountType)
      case (Some(kind), _) => Worth(d, kind, value, o.subtotal)
      case (None, Some(kind)) => Worth(d, kind, value, o.subtotal)
      case (None, None) => Capped(d, match req.discount case Some(x) => x case None => 0, o.subtotal)
  }

  /** The discount billing owes: the same, but what the request leaves out comes from the
      order, and promotions are not looked at. */
  predicate BillingOwes(o: Order, req: Request, d: int) {
    var value := match req.discountValue case Some(v) => v case None => o.discountValue;
    match (req.discountType, o.discountType)
    case (Some(kind), _) => Worth(d, kind, value, o.subtotal)
    case (None, Some(kind)) => Worth(d, kind, value, o.subtotal)
    case (None, None) => Capped(d, match req.discount case Some(x) => x case None => o.discount, o.subtotal)
  }

  lemma AmountIsWorth(kind: DiscountType, value: real, subtotal: nat, d: int)
    ensures Worth(d, kind, value, subtotal) <==> d == DiscountAmount(kind, value, subtotal)
  {}

  /** Both charge what they owe, and nothing else would do. */
  lemma TillChargesOwed(o: Order, req: Request, d: int)
    ensures TillOwes(o, req, d) <==> d == CollectDiscount(o, req)
  {
    var kind := TypeOr(req.discountType, o.discountType);
    if kind.Some? { AmountIsWorth(kind.value, Or(req.discountValue, 0.0), o.subtotal, d); }
  }

  lemma BillingChargesOwed(o: Order, req: Request, d: int)
    ensures BillingOwes(o, req, d) <==> d == BillingDiscount(o, req)
  {
    var kind := TypeOr(req.discountType, o.discountType);
    if kind.Some? { AmountIsWorth(kind.value, Or(req.discountValue, o.discountValue), o.subtotal, d); }
  }

  /** A fresh bill: discount and grand total make up subtotal and charges, unless the
      total is floored at zero; it remembers the type and the value that gave it. */
  lemma FreshBill(o: Order, req: Request)
    ensures var b, gross := CreateBill(o, req), o.subtotal + req.serviceCharge + o.tax + req.roundOff;
            && BillingOwes(o, req, b.discount)
            && (if gross >= b.discount then b.grandTotal + b.discount == gross else b.grandTotal == 0)
            && b.subtotal == o.subtotal && b.tax == o.tax && b.serviceCharge == req.serviceCharge && b.roundOff == req.roundOff
            && !b.paid && !b.cancelled
            && (b.discountType.Some? ==> Worth(b.discount, b.discountType.value, b.discountValue, o.subtotal))
            && (b.discountType.None? <==> req.discountType.None? && o.discountType.None?)
            && (b.discountType.None? ==> b.discountValue == 0.0)
  {
    BillingChargesOwed(o, req, CreateBill(o, req).discount);
  }

  /** An edit is refused for a paid or cancelled bill, a negative value and a percentage
      above a hundred; otherwise discount and grand total make up subtotal and charges. */
  lemma EditedBill(b: Bill, e: Edit)
    ensures var after := UpdateDiscount(b, e);
            if b.paid || b.cancelled || e.discountValue < 0.0 || (e.discountType == PERCENTAGE && e.discountValue > 100.0) then after == b
            else
              && Worth(after.discount, e.discountType, e.discountValue, b.subtotal)
              && after.grandTotal + after.discount == b.subtotal + b.serviceCharge + b.tax + b.roundOff
              && after == b.(discount := after.discount, grandTotal := after.grandTotal,
                             discountType := Some(e.discountType), discountValue := e.discountValue)
  {
    AmountIsWorth(e.discountType, e.discountValue, b.subtotal, UpdateDiscount(b, e).discount);
  }

  // ---------- Edits do not accumulate ----------

  predicate SameSale(a: Bill, b: Bill) {
    && a.subtotal == b.subtotal && a.tax == b.tax && a.serviceCharge == b.serviceCharge && a.roundOff == b.roundOff
    && a.paid == b.paid && a.cancelled == b.cancelled
  }

  /** After any sequence of edits, refused ones included, the bill is what the last
      accepted edit alone would have made of the original. */
  lemma {:induction false} EditsDoNotAccumulate(b: Bill, edits: seq<Edit>)
    ensures SameSale(Edited(b, edits), b)
    ensures var last := LastAccepted(b, edits);
            Edited(b, edits) == if last.Some? then UpdateDiscount(b, last.value) else b
    ensures LastAccepted(b, edits).Some? ==> Acceptable(b, LastAccepted(b, edits).value)
  {
    if edits != [] { EditsDoNotAccumulate(b, edits[..|edits| - 1]); }
  }

  /** A fresh bill and an edited one agree whenever the total is not negative. */
  lemma EditedEqualsFresh(o: Order, first: Request, edits: seq<Edit>)
    requires LastAccepted(CreateBill(o, first), edits).Some?
    ensures var e := LastAccepted(CreateBill(o, first), edits).value;
            var anew := CreateBill(o, first.(discountType := Some(e.discountType), discountValue := Some(e.discountValue)));
            var edited := Edited(CreateBill(o, first), edits);
            && edited.(grandTotal := 0) == anew.(grandTotal := 0)
            && (edited == anew <==> edited.grandTotal >= 0)
            && anew.grandTotal == Max(0, edited.grandTotal)
  {
    EditsDoNotAccumulate(CreateBill(o, first), edits);
  }

  /** Removing the discount brings back the undiscounted total, whatever came before. */
  lemma ZeroRestoresTheTotal(b: Bill, edits: seq<Edit>, kind: DiscountType)
    requires !b.paid && !b.cancelled
    ensures var after := Edited(b, edits + [Edit(kind, 0.0)]);
            after.discount == 0 && after.grandTotal == Total(b.subtotal, 0, b.serviceCharge, b.tax, b.roundOff)
  {
    EditsDoNotAccumulate(b, edits);
    assert (edits + [Edit(kind, 0.0)])[..|edits|] == edits;
    NoDiscount(kind, b.subtotal);
  }

  /** A paid or cancelled bill is locked against every sequence of edits. */
  lemma {:induction false} LockedBill(b: Bill, edits: seq<Edit>)
    requires b.paid || b.cancelled
    ensures Edited(b, edits) == b
  {
    if edits != [] { LockedBill(b, edits[..|edits| - 1]); }
  }

  /** Editing drops the floor at zero that creation has: after an accepted edit the
      total is negative exactly when the discount exceeds the subtotal and charges, so
      it stays non-negative under every edit exactly when the charges do. */
  lemma EditedTotalNonNegativeIff(b: Bill)
    requires !b.paid && !b.cancelled
    ensures (forall e :: Acceptable(b, e) ==> UpdateDiscount(b, e).grandTotal >= 0)
            <==> b.serviceCharge + b.tax + b.roundOff >= 0
  {
    var all := Edit(PERCENTAGE, 100.0);
    assert DiscountAmount(PERCENTAGE, 100.0, b.subtotal) == b.subtotal by {
      DiscountIsNearest(PERCENTAGE, 100.0, b.subtotal);
      assert b.subtotal as real * 100.0 / 100.0 == b.subtotal as real;
    }
    assert Acceptable(b, all) && UpdateDiscount(b, all).grandTotal == b.serviceCharge + b.tax + b.roundOff;
    if b.serviceCharge + b.tax + b.roundOff >= 0 {
      forall e | Acceptable(b, e) ensures UpdateDiscount(b, e).grandTotal >= 0 {
        DiscountIsNearest(e.discountType, e.discountValue, b.subtotal);
      }
    }
  }

  // ---------- The order's own discount ----------

  const PLAIN := Request(None, None, None, 0, 0)

  /** A request that names no discount: billing charges the order's own discount, the
      till charges none, unless promotions were applied; so the two agree exactly when
      the order has promotions without a manual type, or its own discount is worth
      nothing. */
  lemma BillingAndTillAgreeIff(o: Order)
    requires o.discountValue >= 0.0
    ensures var own := if o.discountType.Some? then DiscountAmount(o.discountType.value, o.discountValue, o.subtotal) else Clamp(o.discount, o.subtotal);
            && BillingDiscount(o, PLAIN) == own
            && (!o.engine ==> CollectDiscount(o, PLAIN) == 0)
            && (!o.engine ==> (BillingDiscount(o, PLAIN) == CollectDiscount(o, PLAIN) <==> own == 0))
            && (o.engine && o.discountType.None? ==> BillingDiscount(o, PLAIN) == CollectDiscount(o, PLAIN))
  {
    if o.discountType.Some? { NoDiscount(o.discountType.value, o.subtotal); }
  }

  /** What the till charges is never negative and never discounts more than the food. */
  lemma TillNeverNegative(o: Order, req: Request)
    requires req.discountValue.Some? ==> req.discountValue.value >= 0.0
    ensures 0 <= CollectDiscount(o, req) <= o.subtotal
  {
    var kind := TypeOr(req.discountType, o.discountType);
    if kind.Some? { DiscountIsNearest(kind.value, Or(req.discountValue, 0.0), o.subtotal); }
  }
}

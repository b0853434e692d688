/** Stock reservation: src/services/inventory.service.js.

    Every change of a tracked item's stock appends a movement holding the amount
    actually applied, which a clamp at zero can make smaller than the amount asked. */
module Inventory {
  import opened Prelude

  datatype Kind = CREATED | UPDATED | RESTORED
  datatype Movement = Movement(item: int, order: int, kind: Kind, quantity: int)
  datatype Claim = Claim(deducted: bool, restored: bool, cancelled: bool, deleted: bool)
  datatype Change = Change(item: int, delta: int)

  /** `stock[m] == None` is an untracked item. */
  datatype Store = Store(stock: map<int, Option<int>>, log: seq<Movement>, claims: map<int, Claim>)

  predicate Tracked(s: Store, item: int) { item in s.stock && s.stock[item].Some? }

  function Level(s: Store, item: int): int { if Tracked(s, item) then s.stock[item].value else 0 }

  function ApplyDelta(s: Store, order: int, kind: Kind, c: Change): Store {
    if !Tracked(s, c.item) then s
    else
      var before := s.stock[c.item].value;
      var after := Max(0, before + c.delta);
      s.(stock := s.stock[c.item := Some(after)], log := s.log + [Movement(c.item, order, kind, after - before)])
  }

  function ApplyAll(s: Store, order: int, kind: Kind, cs: seq<Change>): Store {
    if cs == [] then s
    else
      var rest := ApplyAll(s, order, kind, cs[..|cs| - 1]);
      if cs[|cs| - 1].delta == 0 then rest else ApplyDelta(rest, order, kind, cs[|cs| - 1])
  }

  /** Reservation at order creation takes positive quantities only. */
  function Reservations(lines: seq<Change>): seq<Change> {
    if lines == [] then []
    else Reservations(lines[..|lines| - 1])
         + (if lines[|lines| - 1].delta > 0 then [Change(lines[|lines| - 1].item, -lines[|lines| - 1].delta)] else [])
  }

  predicate Reservable(s: Store, order: int) { order in s.claims && !s.claims[order].deducted }

  function Reserve(s: Store, order: int, lines: seq<Change>): Store {
    if !Reservable(s, order) then s
    else ApplyAll(s.(claims := s.claims[order := s.claims[order].(deducted := true)]), order, CREATED, Reservations(lines))
  }

  /** What an order's own reservations and edits did to an item, net. */
  function Net(log: seq<Movement>, order: int, item: int): int {
    if log == [] then 0
    else
      var m := log[|log| - 1];
      Net(log[..|log| - 1], order, item) + (if m.order == order && m.item == item && m.kind != RESTORED then m.quantity else 0)
  }

  /** The items of an order's movements, each once, in order of first appearance. */
  function Touched(log: seq<Movement>, order: int): seq<int> {
    if log == [] then []
    else
      var m, rest := log[|log| - 1], Touched(log[..|log| - 1], order);
      if m.order == order && m.kind != RESTORED && m.item !in rest then rest + [m.item] else rest
  }

  function GiveBack(log: seq<Movement>, order: int, items: seq<int>): seq<Change> {
    seq(|items|, i requires 0 <= i < |items| => Change(items[i], -Net(log, order, items[i])))
  }

  predicate Restorable(s: Store, order: int) { order in s.claims && s.claims[order].deducted && !s.claims[order].restored }

  function Restore(s: Store, order: int): Store {
    if !Restorable(s, order) then s
    else ApplyAll(s.(claims := s.claims[order := s.claims[order].(restored := true)]), order, RESTORED,
                  GiveBack(s.log, order, Touched(s.log, order)))
  }

  datatype Request =
    | Place(order: int, lines: seq<Change>)       // a new order and its reservation
    | Adjust(order: int, changes: seq<Change>)    // items added, edited or removed
    | Cancel(order: int)
    | StatusCancel(order: int)                    // PATCH /orders/:id/status
    | Delete(order: int)
    | MergeAway(order: int)                       // cancelled as the source of a table merge
    | Reopen(order: int)                          // the merge is split again

  predicate Unique(xs: seq<int>) { forall i, j :: 0 <= i < j < |xs| ==> xs[i] != xs[j] }

  function ItemsOf(cs: seq<Change>): (r: seq<int>)
    ensures |r| == |cs| && forall i :: 0 <= i < |r| ==> r[i] == cs[i].item
  {
    seq(|cs|, i requires 0 <= i < |cs| => cs[i].item)
  }

  /** What a handler reads of the order before its transaction.  Deletion is a soft flag:
      only a cancelled order refuses item changes, and changes come one per menu item. */
  predicate MayStart(s: Store, r: Request) {
    match r
    case Place(o, _) => o !in s.claims
    case Adjust(o, cs) => o in s.claims && !s.claims[o].cancelled && Unique(ItemsOf(cs))
    case Cancel(o) => o in s.claims && !s.claims[o].cancelled
    case StatusCancel(o) => o in s.claims && !s.claims[o].cancelled
    case Delete(o) => o in s.claims && !s.claims[o].deleted
    case MergeAway(o) => o in s.claims && !s.claims[o].cancelled
    case Reopen(o) => o in s.claims
  }

  predicate Restores(r: Request) { r.Cancel? || r.StatusCancel? || r.Delete? }

  /** The flag a request sets on its order. */
  function Flagged(s: Store, r: Request): Store
    requires r.order in s.claims
  {
    var c := s.claims[r.order];
    s.(claims := s.claims[r.order :=
      match r
      case Cancel(_) => c.(cancelled := true)
      case StatusCancel(_) => c.(cancelled := true)
      case MergeAway(_) => c.(cancelled := true)
      case Delete(_) => c.(deleted := true)
      case Reopen(_) => c.(cancelled := false)
      case _ => c])
  }

  /** A request with nothing in between. */
  function Perform(s: Store, r: Request): Store {
    if !MayStart(s, r) then s
    else
      match r
      case Place(o, lines) => Reserve(s.(claims := s.claims[o := Claim(false, false, false, false)]), o, lines)
      case Adjust(o, cs) => ApplyAll(s, o, UPDATED, cs)
      case _ => if Restores(r) then Restore(Flagged(s, r), r.order) else Flagged(s, r)
  }

  // ---------- The ledger ----------

  function Moved(log: seq<Movement>, item: int): int {
    if log == [] then 0
    else Moved(log[..|log| - 1], item) + (if log[|log| - 1].item == item then log[|log| - 1].quantity else 0)
  }

  lemma MovedNext(log: seq<Movement>, v: Movement, m: int)
    ensures Moved(log + [v], m) == Moved(log, m) + (if v.item == m then v.quantity else 0)
  {
    assert (log + [v])[..|log|] == log;
  }

  lemma NetNext(log: seq<Movement>, v: Movement, o: int, m: int)
    ensures Net(log + [v], o, m) == Net(log, o, m) + (if v.order == o && v.item == m && v.kind != RESTORED then v.quantity else 0)
  {
    assert (log + [v])[..|log|] == log;
  }

  // ---------- Restoring an order ----------

  lemma {:induction false} TouchedCovers(log: seq<Movement>, order: int)
    ensures Unique(Touched(log, order))
    ensures forall m :: m !in Touched(log, order) ==> Net(log, order, m) == 0
  {
    if log != [] { TouchedCovers(log[..|log| - 1], order); }
  }

  lemma DeltaAt(s: Store, order: int, kind: Kind, c: Change, o: int, m: int)
    ensures var s' := ApplyDelta(s, order, kind, c);
            && s'.claims == s.claims && Tracked(s', m) == Tracked(s, m)
            && Level(s', m) - Level(s, m) == Moved(s'.log, m) - Moved(s.log, m)
            && (m != c.item ==> Level(s', m) == Level(s, m))
            && (Tracked(s, m) && m == c.item ==> Level(s', m) == Max(0, Level(s, m) + c.delta))
            && (kind.RESTORED? ==> Net(s'.log, o, m) == Net(s.log, o, m))
  {
    if Tracked(s, c.item) {
      var v := Movement(c.item, order, kind, Max(0, Level(s, c.item) + c.delta) - Level(s, c.item));
      MovedNext(s.log, v, m);
      NetNext(s.log, v, o, m);
    }
  }

  /** At item m, after giving back the listed items. */
  predicate GivenBackAt(s: Store, s': Store, net: int, given: bool, m: int) {
    && s'.claims == s.claims && Tracked(s', m) == Tracked(s, m)
    && (Tracked(s, m) && given ==> Level(s', m) == Max(0, Level(s, m) - net))
    && (!given ==> Level(s', m) == Level(s, m))
    && Level(s', m) - Level(s, m) == Moved(s'.log, m) - Moved(s.log, m)
  }

  lemma GiveBackStepAt(s: Store, mid: Store, order: int, c: Change, net: int, given: bool, o: int, m: int)
    requires GivenBackAt(s, mid, net, given, m) && Level(s, m) >= 0
    requires m == c.item ==> !given && net == -c.delta
    ensures var s' := if c.delta == 0 then mid else ApplyDelta(mid, order, RESTORED, c);
            GivenBackAt(s, s', net, given || m == c.item, m) && Net(s'.log, o, m) == Net(mid.log, o, m)
  {
    if c.delta != 0 { DeltaAt(mid, order, RESTORED, c, o, m); }
  }

  lemma {:induction false} GiveBackAt(s: Store, log: seq<Movement>, order: int, items: seq<int>, o: int, m: int)
    requires Unique(items) && Level(s, m) >= 0
    ensures var s' := ApplyAll(s, order, RESTORED, GiveBack(log, order, items));
            GivenBackAt(s, s', Net(log, order, m), m in items, m) && Net(s'.log, o, m) == Net(s.log, o, m)
  {
    if items != [] {
      var init, item := items[..|items| - 1], items[|items| - 1];
      GiveBackAt(s, log, order, init, o, m);
      GiveBackNext(s, log, order, init, item);
      assert items == init + [item] && (m in items <==> m in init || m == item);
      GiveBackStepAt(s, ApplyAll(s, order, RESTORED, GiveBack(log, order, init)), order, Change(item, -Net(log, order, item)),
                     Net(log, order, m), m in init, o, m);
    }
  }

  lemma GiveBackNext(s: Store, log: seq<Movement>, order: int, items: seq<int>, item: int)
    ensures var mid, c := ApplyAll(s, order, RESTORED, GiveBack(log, order, items)), Change(item, -Net(log, order, item));
            ApplyAll(s, order, RESTORED, GiveBack(log, order, items + [item]))
            == if c.delta == 0 then mid else ApplyDelta(mid, order, RESTORED, c)
  {
    var cs := GiveBack(log, order, items + [item]);
    assert cs[..|items|] == GiveBack(log, order, items);
  }

  /** A reservation or edit of the order moved the item. */
  predicate Moves(log: seq<Movement>, order: int, item: int, k: int) {
    0 <= k < |log| && log[k].order == order && log[k].item == item && log[k].kind != RESTORED
  }

  lemma {:induction false} TouchedAre(log: seq<Movement>, order: int, item: int)
    ensures item in Touched(log, order) <==> exists k :: Moves(log, order, item, k)
  {
    if log != [] {
      var init := log[..|log| - 1];
      TouchedAre(init, order, item);
      if Moves(log, order, item, |log| - 1) {
      } else if k :| Moves(log, order, item, k) {
        assert Moves(init, order, item, k);
      }
      if k :| Moves(init, order, item, k) { assert Moves(log, order, item, k); }
    }
  }

  /** Cancelling returns, item by item, exactly the net the order took, short only
      where that would push stock below zero; whatever order the items are visited
      in, the stock comes out the same; and a second attempt changes nothing. */
  lemma RestoreReturnsTheNet(s: Store, order: int, visited: seq<int>)
    requires Restorable(s, order) && forall m :: Level(s, m) >= 0
    requires Unique(visited) && forall m :: m in visited <==> exists k :: Moves(s.log, order, m, k)
    ensures var s' := Restore(s, order);
            && (forall m :: Tracked(s, m) ==> Level(s', m) == Max(0, Level(s, m) - Net(s.log, order, m)))
            && (forall m :: Tracked(s, m) ==>
                  (Level(s', m) == Level(s, m) - Net(s.log, order, m) <==> Net(s.log, order, m) <= Level(s, m)))
            && s'.claims == s.claims[order := s.claims[order].(restored := true)]
            && Restore(s', order) == s'
            && (forall m :: Level(ApplyAll(s, order, RESTORED, GiveBack(s.log, order, visited)), m) == Level(s', m))
  {
    var s', other := Restore(s, order), ApplyAll(s, order, RESTORED, GiveBack(s.log, order, visited));
    RestoreAt(s, order, 0, 0);
    forall m ensures m in Touched(s.log, order) <==> m in visited { TouchedAre(s.log, order, m); }
    forall m
      ensures Tracked(s, m) ==> Level(s', m) == Max(0, Level(s, m) - Net(s.log, order, m))
      ensures Level(other, m) == Level(s', m)
    {
      RestoreAt(s, order, 0, m);
      TouchedCovers(s.log, order);
      GiveBackAt(s, s.log, order, visited, 0, m);
      TouchedAre(s.log, order, m);
    }
  }

  lemma RestoreAt(s: Store, order: int, o: int, m: int)
    requires Restorable(s, order) && Level(s, m) >= 0
    ensures var s' := Restore(s, order);
            && s'.claims == s.claims[order := s.claims[order].(restored := true)]
            && Tracked(s', m) == Tracked(s, m)
            && (Tracked(s, m) ==> Level(s', m) == Max(0, Level(s, m) - Net(s.log, order, m)))
            && Level(s', m) - Level(s, m) == Moved(s'.log, m) - Moved(s.log, m)
            && Net(s'.log, o, m) == Net(s.log, o, m)
  {
    var claimed := s.(claims := s.claims[order := s.claims[order].(restored := true)]);
    assert Level(claimed, m) == Level(s, m) && Tracked(claimed, m) == Tracked(s, m);
    TouchedCovers(s.log, order);
    GiveBackAt(claimed, s.log, order, Touched(s.log, order), o, m);
  }

  // ---------- What one request does ----------

  /** An order is reserved for once: only while it is there and not yet deducted. */
  lemma ReservedOnce(s: Store, order: int, lines: seq<Change>, more: seq<Change>)
    ensures order !in s.claims || s.claims[order].deducted ==> Reserve(s, order, lines) == s
    ensures Reserve(Reserve(s, order, lines), order, more) == Reserve(s, order, lines)
  {
    ClaimsKept(s.(claims := if order in s.claims then s.claims[order := s.claims[order].(deducted := true)] else s.claims),
               order, CREATED, Reservations(lines));
  }

  lemma {:induction false} ClaimsKept(s: Store, order: int, kind: Kind, cs: seq<Change>)
    ensures ApplyAll(s, order, kind, cs).claims == s.claims
  {
    if cs != [] { ClaimsKept(s, order, kind, cs[..|cs| - 1]); }
  }

  /** And restored once, only after it was deducted. */
  lemma RestoredOnlyWhenDeducted(s: Store, order: int)
    ensures order !in s.claims || !s.claims[order].deducted || s.claims[order].restored ==> Restore(s, order) == s
  {}

  /** What a handler refuses: unknown orders, edits and cancels of a cancelled one, a second
      deletion, and edits that name an item twice. */
  lemma StockRequestsAskFor(s: Store, o: int, cs: seq<Change>)
    ensures MayStart(s, Place(o, cs)) <==> o !in s.claims
    ensures MayStart(s, Adjust(o, cs)) <==> o in s.claims && !s.claims[o].cancelled
                                            && forall i, j :: 0 <= i < j < |cs| ==> cs[i].item != cs[j].item
    ensures MayStart(s, Cancel(o)) <==> o in s.claims && !s.claims[o].cancelled
    ensures MayStart(s, StatusCancel(o)) <==> o in s.claims && !s.claims[o].cancelled
    ensures MayStart(s, Delete(o)) <==> o in s.claims && !s.claims[o].deleted
    ensures MayStart(s, MergeAway(o)) <==> o in s.claims && !s.claims[o].cancelled
    ensures MayStart(s, Reopen(o)) <==> o in s.claims
  {
    if Unique(ItemsOf(cs)) {
      forall i, j | 0 <= i < j < |cs| ensures cs[i].item != cs[j].item { assert ItemsOf(cs)[i] != ItemsOf(cs)[j]; }
    }
  }

  /** The flag each request leaves on its order, and nothing else. */
  lemma FlagsSet(s: Store, o: int)
    requires o in s.claims
    ensures var c := s.claims[o];
            && Flagged(s, Cancel(o)) == s.(claims := s.claims[o := Claim(c.deducted, c.restored, true, c.deleted)])
            && Flagged(s, StatusCancel(o)) == Flagged(s, Cancel(o)) && Flagged(s, MergeAway(o)) == Flagged(s, Cancel(o))
            && Flagged(s, Reopen(o)) == s.(claims := s.claims[o := Claim(c.deducted, c.restored, false, c.deleted)])
            && Flagged(s, Delete(o)) == s.(claims := s.claims[o := Claim(c.deducted, c.restored, c.cancelled, true)])
  {}
}

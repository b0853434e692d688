/** The inventory service's loops, one call at a time on a stock nothing else is changing. */
module StockService {
  import opened Prelude
  import opened Inventory

  lemma ReserveNext(s: Store, order: int, lines: seq<Change>, k: nat)
    requires k < |lines|
    ensures var before := ApplyAll(s, order, CREATED, Reservations(lines[..k]));
            ApplyAll(s, order, CREATED, Reservations(lines[..k + 1]))
            == if lines[k].delta > 0 then ApplyDelta(before, order, CREATED, Change(lines[k].item, -lines[k].delta)) else before
  {
    assert lines[..k + 1][..k] == lines[..k];
    var rs, taken := Reservations(lines[..k]), Change(lines[k].item, -lines[k].delta);
    assert (rs + [taken])[..|rs|] == rs;
    assert rs + [] == rs;
  }

  class StockRoom {
    var stock: map<int, Option<int>>
    var log: seq<Movement>
    var claims: map<int, Claim>

    ghost function State(): Store
      reads this
    {
      Store(stock, log, claims)
    }

    constructor (stock: map<int, Option<int>>)
      ensures State() == Store(stock, [], map[])
    {
      this.stock, log, claims := stock, [], map[];
    }

    /** Reports the amount applied, or None for an unknown or untracked item. */
    method ApplyStockDelta(order: int, kind: Kind, c: Change) returns (applied: Option<int>)
      modifies this`stock, this`log
      ensures State() == ApplyDelta(old(State()), order, kind, c)
      ensures applied == if Tracked(old(State()), c.item) then Some(Level(State(), c.item) - Level(old(State()), c.item)) else None
    {
      if c.item !in stock || stock[c.item].None? { return None; }
      var before := stock[c.item].value;
      var after := Max(0, before + c.delta);
      stock := stock[c.item := Some(after)];
      log := log + [Movement(c.item, order, kind, after - before)];
      return Some(after - before);
    }

    method ApplyChanges(order: int, kind: Kind, cs: seq<Change>)
      modifies this`stock, this`log
      ensures State() == ApplyAll(old(State()), order, kind, cs)
    {
      for k := 0 to |cs|
        invariant State() == ApplyAll(old(State()), order, kind, cs[..k])
      {
        assert cs[..k + 1][..k] == cs[..k];
        if cs[k].delta != 0 { var _ := ApplyStockDelta(order, kind, cs[k]); }
      }
      assert cs[..|cs|] == cs;
    }

    /** Claim the order, then take each line with a positive quantity. */
    method DeductForCreation(order: int, lines: seq<Change>) returns (skipped: bool)
      modifies this
      ensures State() == Reserve(old(State()), order, lines)
      ensures skipped <==> !Reservable(old(State()), order)
    {
      if order !in claims || claims[order].deducted { return true; }
      claims := claims[order := claims[order].(deducted := true)];
      ghost var claimed := State();
      var k := 0;
      while k < |lines|
        invariant 0 <= k <= |lines| && claims == claimed.claims
        invariant State() == ApplyAll(claimed, order, CREATED, Reservations(lines[..k]))
      {
        assert lines[..k + 1][..k] == lines[..k];
        ReserveNext(claimed, order, lines, k);
        if lines[k].delta > 0 {
          var _ := ApplyStockDelta(order, CREATED, Change(lines[k].item, -lines[k].delta));
        }
        k := k + 1;
      }
      assert lines[..|lines|] == lines;
      return false;
    }

    /** Claim the order once, net its movements per item, return the reverse. */
    method RestoreForCancelled(order: int) returns (skipped: bool)
      modifies this
      ensures State() == Restore(old(State()), order)
      ensures skipped <==> !Restorable(old(State()), order)
    {
      if order !in claims || !claims[order].deducted || claims[order].restored { return true; }
      claims := claims[order := claims[order].(restored := true)];
      var netByItem, entries := NetByItem(order);
      var back: seq<Change> := [];
      for i := 0 to |entries|
        invariant back == GiveBack(log, order, entries[..i])
      {
        back := back + [Change(entries[i], -netByItem[entries[i]])];
      }
      assert entries[..|entries|] == entries;
      ApplyChanges(order, RESTORED, back);
      return false;
    }

    method NetByItem(order: int) returns (net: map<int, int>, entries: seq<int>)
      ensures entries == Touched(log, order)
      ensures forall i :: 0 <= i < |entries| ==> entries[i] in net
      ensures forall m :: m in entries <==> m in net
      ensures forall m :: m in net ==> net[m] == Net(log, order, m)
    {
      net, entries := map[], [];
      for k := 0 to |log|
        invariant entries == Touched(log[..k], order)
        invariant forall i :: 0 <= i < |entries| ==> entries[i] in net
        invariant forall m :: m in entries <==> m in net
        invariant forall m :: (if m in net then net[m] else 0) == Net(log[..k], order, m)
      {
        var mv := log[k];
        assert log[..k + 1][..k] == log[..k];
        if mv.order == order && mv.kind != RESTORED {
          if mv.item !in net { entries := entries + [mv.item]; }
          net := net[mv.item := (if mv.item in net then net[mv.item] else 0) + mv.quantity];
        }
      }
      assert log[..|log|] == log;
    }
  }
}

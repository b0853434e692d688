/** Which transactions keep merge groups consistent, exactly. */
module KitchenGroups {
  import opened Prelude
  import opened KitchenLedger
  import opened KitchenSeating

  /** An order was cancelled and its merge group is about to be released. */
  ghost predicate Leaving(jobs: map<int, Job>, o: int) { exists w :: w in jobs && jobs[w] == Releasing(o) }

  predicate OnceEach(members: seq<Member>) { forall i, j :: 0 <= i < j < |members| ==> members[i].orderId != members[j].orderId }

  predicate WaitsFor(orders: map<int, Order>, o: int, primary: int) {
    o in orders && orders[o].status.CANCELLED? && orders[o].mergedInto == Some(primary)
  }

  ghost predicate LeadOk(orders: map<int, Order>, jobs: map<int, Job>, primary: int) {
    primary in orders && (IsOpen(orders[primary]) || Leaving(jobs, primary))
  }

  /** The primary is a member and open or leaving; every other member is listed once and
      stands cancelled into the primary. */
  ghost predicate GroupOk(orders: map<int, Order>, jobs: map<int, Job>, grp: Group) {
    && HasMember(grp, grp.primary) && LeadOk(orders, jobs, grp.primary) && OnceEach(grp.members)
    && forall m :: m in grp.members && m.orderId != grp.primary ==> WaitsFor(orders, m.orderId, grp.primary)
  }

  /** No order is in two active groups. */
  predicate Apart(groups: map<int, Group>) {
    forall g, h :: g in groups && h in groups && g != h && groups[g].status.ACTIVE? && groups[h].status.ACTIVE? ==>
      forall m :: m in groups[g].members ==> !HasMember(groups[h], m.orderId)
  }

  ghost predicate GroupsOk(s: Seats, jobs: map<int, Job>) {
    && (forall g :: ActiveIn(s.groups, g) ==> GroupOk(s.orders, jobs, s.groups[g]))
    && Apart(s.groups)
  }

  predicate FreeOfGroups(s: Seats, o: int) { forall g :: g in s.groups ==> !InActive(s.groups, g, o) }

  lemma OneGroup(s: Seats, jobs: map<int, Job>, g: int, h: int, o: int)
    requires GroupsOk(s, jobs) && InActive(s.groups, g, o) && InActive(s.groups, h, o)
    ensures g == h
  {
    var m :| m in s.groups[g].members && m.orderId == o;
  }

  lemma SourceWaits(s: Seats, jobs: map<int, Job>, g: int, o: int)
    requires GroupsOk(s, jobs) && Source(s, g, o)
    ensures WaitsFor(s.orders, o, s.groups[g].primary)
  {
    assert GroupOk(s.orders, jobs, s.groups[g]);
    var m :| m in s.groups[g].members && m.orderId == o;
  }

  // ---------- Merges ----------

  /** A merge that opens or extends an active group needs its source outside every active
      group, and to open one, a target outside too and open; a merge into a group split
      or released meanwhile closes an order that must not be needed elsewhere. */
  ghost predicate MergeSafe(s: Seats, jobs: map<int, Job>, source: int, target: int, joins: Option<int>) {
    if joins.Some? && !ActiveIn(s.groups, joins.value) then
      forall h :: InActive(s.groups, h, source) ==>
        if s.groups[h].primary == source then Leaving(jobs, source) else s.groups[h].primary == target
    else
      FreeOfGroups(s, source) && (joins.None? ==> FreeOfGroups(s, target) && LeadOk(s.orders, jobs, target))
  }

  lemma Joined(members: seq<Member>, m: Member, o: int)
    ensures HasMember(Group(0, ACTIVE, members + [m]), o) <==> HasMember(Group(0, ACTIVE, members), o) || m.orderId == o
    ensures OnceEach(members + [m]) <==> OnceEach(members) && !Listed(members, m.orderId)
  {
    ListedNext(members, m, o);
    assert HasMember(Group(0, ACTIVE, members + [m]), o) <==> Listed(members + [m], o);
    assert HasMember(Group(0, ACTIVE, members), o) <==> Listed(members, o);
    var all := members + [m];
    if OnceEach(all) {
      forall n | n in members ensures n.orderId != m.orderId {
        var i :| 0 <= i < |members| && members[i] == n;
        assert all[i] == n && all[|members|] == m;
      }
      forall i, j | 0 <= i < j < |members| ensures members[i].orderId != members[j].orderId {
        assert all[i] == members[i] && all[j] == members[j];
      }
    }
    if OnceEach(members) && !Listed(members, m.orderId) {
      forall i, j | 0 <= i < j < |all| ensures all[i].orderId != all[j].orderId {
        assert members[i] in members;
      }
    }
  }

  ghost predicate SameLeaving(jobs: map<int, Job>, jobs': map<int, Job>) { forall o :: Leaving(jobs', o) <==> Leaving(jobs, o) }

  /** Closing an order outside every active group disturbs none. */
  lemma GroupUndisturbed(s: Seats, jobs: map<int, Job>, jobs': map<int, Job>, orders: map<int, Order>, g: int, o: int)
    requires GroupsOk(s, jobs) && SameLeaving(jobs, jobs') && ActiveIn(s.groups, g) && !InActive(s.groups, g, o)
    requires orders.Keys == s.orders.Keys && forall p :: p in orders && p != o ==> orders[p] == s.orders[p]
    ensures GroupOk(orders, jobs', s.groups[g])
  {
    var grp := s.groups[g];
    assert GroupOk(s.orders, jobs, grp);
    assert grp.primary != o;
    forall m | m in grp.members && m.orderId != grp.primary ensures WaitsFor(orders, m.orderId, grp.primary) {
      assert m.orderId != o;
    }
  }

  lemma JoinKeeps(s: Seats, jobs: map<int, Job>, jobs': map<int, Job>, source: int, target: int, g: int, sourceTable: int, targetTable: Option<int>, id: nat)
    requires WiredSeats(s, id) && WiredMerge(s, source, target, Some(g), targetTable)
    requires GroupsOk(s, jobs) && SameLeaving(jobs, jobs') && ActiveIn(s.groups, g) && FreeOfGroups(s, source)
    ensures GroupsOk(MergeSeats(s, source, target, Some(g), sourceTable, targetTable, id), jobs')
  {
    var s' := MergeSeats(s, source, target, Some(g), sourceTable, targetTable, id);
    var m := Member(sourceTable, source);
    forall h | ActiveIn(s'.groups, h) ensures GroupOk(s'.orders, jobs', s'.groups[h]) {
      GroupUndisturbed(s, jobs, jobs', s'.orders, h, source);
      if h == g {
        Joined(s.groups[g].members, m, target);
        assert !InActive(s.groups, g, source);
        assert HasMember(s'.groups[g], target);
      }
    }
    JoinedApart(s, s', g, m);
  }

  lemma JoinedApart(s: Seats, s': Seats, g: int, m: Member)
    requires Apart(s.groups) && ActiveIn(s.groups, g) && FreeOfGroups(s, m.orderId)
    requires s'.groups == s.groups[g := s.groups[g].(members := s.groups[g].members + [m])]
    ensures Apart(s'.groups)
  {
    forall h, k, n | h in s'.groups && k in s'.groups && h != k && s'.groups[h].status.ACTIVE? && s'.groups[k].status.ACTIVE? && n in s'.groups[h].members
      ensures !HasMember(s'.groups[k], n.orderId)
    {
      Joined(s.groups[g].members, m, n.orderId);
      if k == g {
        assert !InActive(s.groups, h, m.orderId);
      } else if h == g && n == m {
        assert !InActive(s.groups, k, m.orderId);
      }
    }
  }

  lemma OpenKeeps(s: Seats, jobs: map<int, Job>, jobs': map<int, Job>, source: int, target: int, sourceTable: int, targetTable: Option<int>, id: nat)
    requires WiredSeats(s, id) && WiredMerge(s, source, target, None, targetTable)
    requires GroupsOk(s, jobs) && SameLeaving(jobs, jobs') && MergeSafe(s, jobs, source, target, None)
    ensures GroupsOk(MergeSeats(s, source, target, None, sourceTable, targetTable, id), jobs')
  {
    var s' := MergeSeats(s, source, target, None, sourceTable, targetTable, id);
    var members := s'.groups[id].members;
    assert members[0].orderId == source && members[1].orderId == target;
    forall h | ActiveIn(s'.groups, h) ensures GroupOk(s'.orders, jobs', s'.groups[h]) {
      if h == id {
        assert members[1] in members;
      } else {
        GroupUndisturbed(s, jobs, jobs', s'.orders, h, source);
      }
    }
    forall h, k, n | h in s'.groups && k in s'.groups && h != k && s'.groups[h].status.ACTIVE? && s'.groups[k].status.ACTIVE? && n in s'.groups[h].members
      ensures !HasMember(s'.groups[k], n.orderId)
    {
      if h == id {
        assert !InActive(s.groups, k, source) && !InActive(s.groups, k, target);
      } else if k == id {
        assert !InActive(s.groups, h, source) && !InActive(s.groups, h, target);
      }
    }
  }

  lemma JoinNeeds(s: Seats, jobs: map<int, Job>, jobs': map<int, Job>, source: int, target: int, g: int, sourceTable: int, targetTable: Option<int>, id: nat)
    requires source in s.orders && ActiveIn(s.groups, g)
    requires GroupsOk(MergeSeats(s, source, target, Some(g), sourceTable, targetTable, id), jobs')
    ensures FreeOfGroups(s, source)
  {
    var s' := MergeSeats(s, source, target, Some(g), sourceTable, targetTable, id);
    var m := Member(sourceTable, source);
    assert GroupOk(s'.orders, jobs', s'.groups[g]) && m in s'.groups[g].members;
    forall h | h in s.groups ensures !InActive(s.groups, h, source) {
      Joined(s.groups[g].members, m, source);
      assert h != g && s.groups[h].status.ACTIVE? ==> s'.groups[h] == s.groups[h] && !HasMember(s'.groups[h], m.orderId);
    }
  }

  lemma OpenNeeds(s: Seats, jobs: map<int, Job>, jobs': map<int, Job>, source: int, target: int, sourceTable: int, targetTable: Option<int>, id: nat)
    requires WiredSeats(s, id) && WiredMerge(s, source, target, None, targetTable) && SameLeaving(jobs, jobs')
    requires GroupsOk(MergeSeats(s, source, target, None, sourceTable, targetTable, id), jobs')
    ensures MergeSafe(s, jobs, source, target, None)
  {
    var s' := MergeSeats(s, source, target, None, sourceTable, targetTable, id);
    var members := s'.groups[id].members;
    assert GroupOk(s'.orders, jobs', s'.groups[id]);
    assert members[0] in members && members[1] in members;
    forall h | h in s.groups ensures !InActive(s.groups, h, source) && !InActive(s.groups, h, target) {
      assert h != id && s'.groups[h] == s.groups[h];
      assert s.groups[h].status.ACTIVE? ==> !HasMember(s'.groups[h], members[0].orderId) && !HasMember(s'.groups[h], members[1].orderId);
    }
  }

  lemma LateMergeIff(s: Seats, jobs: map<int, Job>, jobs': map<int, Job>, source: int, target: int, g: int, sourceTable: int, targetTable: Option<int>, id: nat)
    requires WiredSeats(s, id) && WiredMerge(s, source, target, Some(g), targetTable)
    requires GroupsOk(s, jobs) && SameLeaving(jobs, jobs') && !ActiveIn(s.groups, g)
    ensures GroupsOk(MergeSeats(s, source, target, Some(g), sourceTable, targetTable, id), jobs') <==> MergeSafe(s, jobs, source, target, Some(g))
  {
    var s' := MergeSeats(s, source, target, Some(g), sourceTable, targetTable, id);
    forall h ensures ActiveIn(s'.groups, h) <==> ActiveIn(s.groups, h) {}
    forall h | ActiveIn(s.groups, h) ensures s'.groups[h] == s.groups[h] {}
    if MergeSafe(s, jobs, source, target, Some(g)) {
      forall h | ActiveIn(s'.groups, h) ensures GroupOk(s'.orders, jobs', s'.groups[h]) {
        LateGroupKept(s, jobs, jobs', s'.orders, source, target, h);
      }
    }
    if GroupsOk(s', jobs') {
      forall h | InActive(s.groups, h, source)
        ensures if s.groups[h].primary == source then Leaving(jobs, source) else s.groups[h].primary == target
      {
        assert GroupOk(s'.orders, jobs', s'.groups[h]);
        LateGroupNeeds(s, jobs, jobs', s'.orders, source, target, h);
      }
    }
  }

  lemma LateGroupNeeds(s: Seats, jobs: map<int, Job>, jobs': map<int, Job>, orders: map<int, Order>, source: int, target: int, h: int)
    requires SameLeaving(jobs, jobs') && InActive(s.groups, h, source) && source in s.orders
    requires orders == s.orders[source := s.orders[source].(status := CANCELLED, mergedInto := Some(target))]
    requires GroupOk(orders, jobs', s.groups[h])
    ensures if s.groups[h].primary == source then Leaving(jobs, source) else s.groups[h].primary == target
  {
    var m :| m in s.groups[h].members && m.orderId == source;
    assert m.orderId != s.groups[h].primary ==> WaitsFor(orders, m.orderId, s.groups[h].primary);
  }

  lemma LateGroupKept(s: Seats, jobs: map<int, Job>, jobs': map<int, Job>, orders: map<int, Order>, source: int, target: int, h: int)
    requires GroupsOk(s, jobs) && SameLeaving(jobs, jobs') && ActiveIn(s.groups, h) && source in s.orders
    requires orders == s.orders[source := s.orders[source].(status := CANCELLED, mergedInto := Some(target))]
    requires InActive(s.groups, h, source) ==>
               if s.groups[h].primary == source then Leaving(jobs, source) else s.groups[h].primary == target
    ensures GroupOk(orders, jobs', s.groups[h])
  {
    var grp := s.groups[h];
    assert GroupOk(s.orders, jobs, grp);
    forall m | m in grp.members && m.orderId != grp.primary ensures WaitsFor(orders, m.orderId, grp.primary) {
      assert WaitsFor(s.orders, m.orderId, grp.primary);
      if m.orderId == source { assert HasMember(grp, source); }
    }
    if grp.primary == source { assert HasMember(grp, source); }
  }

  lemma MergeGroupsIff(s: Seats, jobs: map<int, Job>, jobs': map<int, Job>, source: int, target: int, joins: Option<int>,
                       sourceTable: int, targetTable: Option<int>, id: nat)
    requires WiredSeats(s, id) && WiredMerge(s, source, target, joins, targetTable)
    requires GroupsOk(s, jobs) && SameLeaving(jobs, jobs')
    ensures GroupsOk(MergeSeats(s, source, target, joins, sourceTable, targetTable, id), jobs') <==> MergeSafe(s, jobs, source, target, joins)
  {
    if joins.None? {
      if MergeSafe(s, jobs, source, target, None) { OpenKeeps(s, jobs, jobs', source, target, sourceTable, targetTable, id); }
      if GroupsOk(MergeSeats(s, source, target, None, sourceTable, targetTable, id), jobs') {
        OpenNeeds(s, jobs, jobs', source, target, sourceTable, targetTable, id);
      }
    } else if ActiveIn(s.groups, joins.value) {
      if FreeOfGroups(s, source) { JoinKeeps(s, jobs, jobs', source, target, joins.value, sourceTable, targetTable, id); }
      if GroupsOk(MergeSeats(s, source, target, joins, sourceTable, targetTable, id), jobs') {
        JoinNeeds(s, jobs, jobs', source, target, joins.value, sourceTable, targetTable, id);
      }
    } else {
      LateMergeIff(s, jobs, jobs', source, target, joins.value, sourceTable, targetTable, id);
    }
  }

  // ---------- Splits ----------

  /** No order it reopens waits in another active group. */
  predicate SplitSafe(s: Seats, g: int, primary: int, members: seq<Member>) {
    forall h, m :: h in s.groups && m in members && h != g && m.orderId != primary ==> !Source(s, h, m.orderId)
  }

  lemma SplitGroupsIff(s: Seats, jobs: map<int, Job>, jobs': map<int, Job>, g: int, primary: int, members: seq<Member>)
    requires WiredSplit(s, g, primary, members) && GroupsOk(s, jobs) && SameLeaving(jobs, jobs')
    ensures GroupsOk(SplitSeats(s, g, primary, members), jobs') <==> SplitSafe(s, g, primary, members)
  {
    var s' := SplitSeats(s, g, primary, members);
    ReopenEffect(s.orders, members, primary);
    if SplitSafe(s, g, primary, members) {
      forall h | ActiveIn(s'.groups, h) ensures GroupOk(s'.orders, jobs', s'.groups[h]) {
        SplitOther(s, jobs, jobs', g, primary, members, h);
      }
    }
    if GroupsOk(s', jobs') {
      forall h, m | h in s.groups && m in members && h != g && m.orderId != primary ensures !Source(s, h, m.orderId) {
        assert WiredMember(s, m) && Reopened(members, primary, m.orderId);
        assert s'.orders[m.orderId].status == PENDING;
        if s.groups[h].status.ACTIVE? {
          assert GroupOk(s'.orders, jobs', s'.groups[h]);
          forall n | n in s.groups[h].members && n.orderId != s.groups[h].primary ensures n.orderId != m.orderId {
            assert WaitsFor(s'.orders, n.orderId, s.groups[h].primary);
          }
        }
      }
    }
  }

  lemma SplitOther(s: Seats, jobs: map<int, Job>, jobs': map<int, Job>, g: int, primary: int, members: seq<Member>, h: int)
    requires WiredSplit(s, g, primary, members) && GroupsOk(s, jobs) && SameLeaving(jobs, jobs') && SplitSafe(s, g, primary, members)
    requires ActiveIn(SplitSeats(s, g, primary, members).groups, h)
    ensures GroupOk(Reopen(s.orders, members, primary), jobs', s.groups[h]) && h != g
  {
    ReopenEffect(s.orders, members, primary);
    var grp := s.groups[h];
    assert h != g && GroupOk(s.orders, jobs, grp);
    forall m | m in grp.members && m.orderId != grp.primary
      ensures WaitsFor(Reopen(s.orders, members, primary), m.orderId, grp.primary)
    {
      assert Source(s, h, m.orderId);
      assert !Reopened(members, primary, m.orderId);
    }
  }

  // ---------- Cancels, releases, status changes, crashes ----------

  lemma CancelGroups(s: Seats, jobs: map<int, Job>, jobs': map<int, Job>, order: int, table: Option<int>)
    requires GroupsOk(s, jobs) && CancelLands(s, order)
    requires forall o :: Leaving(jobs', o) <==> Leaving(jobs, o) || o == order
    ensures GroupsOk(CancelSeats(s, order, table), jobs')
  {
    var s' := CancelSeats(s, order, table);
    forall g | ActiveIn(s'.groups, g) ensures GroupOk(s'.orders, jobs', s'.groups[g]) {
      var grp := s.groups[g];
      assert GroupOk(s.orders, jobs, grp);
      forall m | m in grp.members && m.orderId != grp.primary ensures WaitsFor(s'.orders, m.orderId, grp.primary) {
        assert WaitsFor(s.orders, m.orderId, grp.primary);
      }
    }
  }

  lemma NoLongerLeads(s: Seats, jobs: map<int, Job>, order: int, next: nat, h: int)
    requires WiredSeats(s, next) && GroupsOk(s, jobs) && ActiveIn(ReleaseSeats(s, order, next).groups, h)
    ensures ActiveIn(s.groups, h) && s.groups[h].primary != order && ReleaseSeats(s, order, next).groups[h] == s.groups[h]
  {
    var g := ActiveGroup(s.groups, order, 0, next);
    assert ActiveIn(s.groups, h) && GroupOk(s.orders, jobs, s.groups[h]);
    if g.Some? {
      assert GroupOk(s.orders, jobs, s.groups[g.value]);
      assert InActive(s.groups, g.value, order);
      if s.groups[h].primary == order { OneGroup(s, jobs, g.value, h, order); }
    } else {
      assert !Leads(s.groups, h, order);
    }
  }

  lemma ReleaseGroups(s: Seats, jobs: map<int, Job>, jobs': map<int, Job>, order: int, next: nat)
    requires WiredSeats(s, next) && GroupsOk(s, jobs)
    requires forall o :: o != order ==> (Leaving(jobs', o) <==> Leaving(jobs, o))
    ensures GroupsOk(ReleaseSeats(s, order, next), jobs')
  {
    var s' := ReleaseSeats(s, order, next);
    forall h | ActiveIn(s'.groups, h) ensures GroupOk(s'.orders, jobs', s'.groups[h]) {
      NoLongerLeads(s, jobs, order, next, h);
      assert GroupOk(s.orders, jobs, s.groups[h]);
    }
  }

  /** A source may only stay cancelled; a primary may only stay open, unless it leaves. */
  ghost predicate SetSafe(s: Seats, jobs: map<int, Job>, order: int, status: OrderStatus) {
    forall g :: InActive(s.groups, g, order) ==>
      if s.groups[g].primary == order then (!status.COMPLETED? && !status.CANCELLED?) || Leaving(jobs, order) else status.CANCELLED?
  }

  lemma SetGroupsIff(s: Seats, jobs: map<int, Job>, jobs': map<int, Job>, order: int, status: OrderStatus)
    requires GroupsOk(s, jobs) && SameLeaving(jobs, jobs') && order in s.orders
    ensures GroupsOk(SetSeats(s, order, status), jobs') <==> SetSafe(s, jobs, order, status)
  {
    var s' := SetSeats(s, order, status);
    if SetSafe(s, jobs, order, status) {
      forall g | ActiveIn(s'.groups, g) ensures GroupOk(s'.orders, jobs', s'.groups[g]) {
        SetKeepsGroup(s, jobs, jobs', order, status, g);
      }
    }
    if GroupsOk(s', jobs') {
      forall g | InActive(s.groups, g, order)
        ensures if s.groups[g].primary == order then (!status.COMPLETED? && !status.CANCELLED?) || Leaving(jobs, order) else status.CANCELLED?
      {
        assert GroupOk(s'.orders, jobs', s'.groups[g]);
        var m :| m in s.groups[g].members && m.orderId == order;
      }
    }
  }

  lemma SetKeepsGroup(s: Seats, jobs: map<int, Job>, jobs': map<int, Job>, order: int, status: OrderStatus, g: int)
    requires GroupsOk(s, jobs) && SameLeaving(jobs, jobs') && order in s.orders && ActiveIn(s.groups, g)
    requires SetSafe(s, jobs, order, status)
    ensures GroupOk(SetSeats(s, order, status).orders, jobs', s.groups[g])
  {
    var grp, orders := s.groups[g], SetSeats(s, order, status).orders;
    assert GroupOk(s.orders, jobs, grp);
    forall m | m in grp.members && m.orderId != grp.primary ensures WaitsFor(orders, m.orderId, grp.primary) {
      assert WaitsFor(s.orders, m.orderId, grp.primary);
      if m.orderId == order { assert InActive(s.groups, g, order); }
    }
    if grp.primary == order { assert InActive(s.groups, g, order); }
  }

  /** A paid order may lead a group, which goes with it, but not wait in one. */
  predicate PaySafe(s: Seats, order: int) { forall g :: g in s.groups ==> !Source(s, g, order) }

  lemma PaidGroups(s: Seats, order: int, table: Option<int>, next: nat, h: int)
    requires order in s.orders
    ensures ActiveIn(PaySeats(s, order, table, next).groups, h) <==> ActiveIn(s.groups, h) && ActiveGroup(s.groups, order, 0, next) != Some(h)
    ensures ActiveIn(PaySeats(s, order, table, next).groups, h) ==> PaySeats(s, order, table, next).groups[h] == s.groups[h]
  {}

  lemma PayKeepsGroup(s: Seats, jobs: map<int, Job>, jobs': map<int, Job>, order: int, table: Option<int>, next: nat, h: int)
    requires WiredSeats(s, next) && GroupsOk(s, jobs) && SameLeaving(jobs, jobs') && order in s.orders && PaySafe(s, order)
    requires ActiveIn(PaySeats(s, order, table, next).groups, h)
    ensures GroupOk(PaySeats(s, order, table, next).orders, jobs', s.groups[h])
  {
    PaidGroups(s, order, table, next, h);
    var grp, orders := s.groups[h], PaySeats(s, order, table, next).orders;
    assert GroupOk(s.orders, jobs, grp);
    NoLongerLeads(s, jobs, order, next, h);
    forall m | m in grp.members && m.orderId != grp.primary ensures WaitsFor(orders, m.orderId, grp.primary) {
      assert WaitsFor(s.orders, m.orderId, grp.primary);
      assert InActive(s.groups, h, m.orderId);
      assert !Source(s, h, order);
    }
  }

  lemma PayGroupsIff(s: Seats, jobs: map<int, Job>, jobs': map<int, Job>, order: int, table: Option<int>, next: nat)
    requires WiredSeats(s, next) && GroupsOk(s, jobs) && SameLeaving(jobs, jobs') && order in s.orders
    ensures GroupsOk(PaySeats(s, order, table, next), jobs') <==> PaySafe(s, order)
  {
    var s' := PaySeats(s, order, table, next);
    forall h ensures ActiveIn(s'.groups, h) ==> ActiveIn(s.groups, h) && s'.groups[h] == s.groups[h] { PaidGroups(s, order, table, next, h); }
    if PaySafe(s, order) {
      forall h | ActiveIn(s'.groups, h) ensures GroupOk(s'.orders, jobs', s'.groups[h]) {
        PayKeepsGroup(s, jobs, jobs', order, table, next, h);
      }
    }
    if GroupsOk(s', jobs') {
      forall g | g in s.groups ensures !Source(s, g, order) {
        PaidGroups(s, order, table, next, g);
        assert ActiveIn(s'.groups, g) ==> GroupOk(s'.orders, jobs', s.groups[g]);
      }
    }
  }

  /** A release may be lost only if another one waits or no active group depends on it. */
  ghost predicate CrashSafe(s: Seats, jobs: map<int, Job>, w: int) {
    w in jobs && jobs[w].Releasing? ==>
      var o := jobs[w].order;
      Leaving(Without(jobs, w), o) || forall g :: g in s.groups && Leads(s.groups, g, o) ==> o in s.orders && IsOpen(s.orders[o])
  }

  lemma CrashLeaving(jobs: map<int, Job>, w: int, o: int)
    requires !(w in jobs && jobs[w] == Releasing(o))
    ensures Leaving(Without(jobs, w), o) <==> Leaving(jobs, o)
  {
    if Leaving(jobs, o) {
      var v :| v in jobs && jobs[v] == Releasing(o);
      assert v in Without(jobs, w) && Without(jobs, w)[v] == Releasing(o);
    }
  }

  lemma CrashGroupsIff(s: Seats, jobs: map<int, Job>, w: int)
    requires GroupsOk(s, jobs)
    ensures GroupsOk(s, Without(jobs, w)) <==> CrashSafe(s, jobs, w)
  {
    var left := Without(jobs, w);
    forall o | !(w in jobs && jobs[w] == Releasing(o)) ensures Leaving(left, o) <==> Leaving(jobs, o) { CrashLeaving(jobs, w, o); }
    if CrashSafe(s, jobs, w) {
      forall g | ActiveIn(s.groups, g) ensures GroupOk(s.orders, left, s.groups[g]) {
        assert GroupOk(s.orders, jobs, s.groups[g]);
        if w in jobs && jobs[w] == Releasing(s.groups[g].primary) { assert Leads(s.groups, g, s.groups[g].primary); }
      }
    }
    if GroupsOk(s, left) && w in jobs && jobs[w].Releasing? {
      forall g | g in s.groups && Leads(s.groups, g, jobs[w].order)
        ensures Leaving(left, jobs[w].order) || (jobs[w].order in s.orders && IsOpen(s.orders[jobs[w].order]))
      {
        assert GroupOk(s.orders, left, s.groups[g]);
      }
    }
  }

  // ---------- One event ----------

  ghost predicate JobKeepsGroups(db: Db, job: Job) {
    match job
    case Merging(source, target, moved, joins, _, _) => AllPresent(db.rows.items, moved) ==> MergeSafe(db.seats, db.jobs, source, target, joins)
    case Splitting(g, primary, members) => SplitSafe(db.seats, g, primary, members)
    case Setting(order, status) => SetSafe(db.seats, db.jobs, order, status)
    case Paying(order, _) => PaySafe(db.seats, order)
    case _ => true
  }

  ghost predicate KeepsGroups(db: Db, e: Event) {
    match e
    case Begin(_, _) => true
    case Commit(w, _) => w in db.jobs ==> JobKeepsGroups(db, db.jobs[w])
    case Crash(w) => CrashSafe(db.seats, db.jobs, w)
  }

  lemma BeginLeaving(db: Db, w: int, r: Request)
    requires w !in db.jobs && Start(db, r).Some?
    ensures SameLeaving(db.jobs, db.jobs[w := Start(db, r).value])
  {
    var jobs' := db.jobs[w := Start(db, r).value];
    forall o ensures Leaving(jobs', o) <==> Leaving(db.jobs, o) {
      if Leaving(db.jobs, o) {
        var v :| v in db.jobs && db.jobs[v] == Releasing(o);
        assert v in jobs' && jobs'[v] == Releasing(o);
      }
    }
  }

  lemma FollowLeaving(jobs: map<int, Job>, w: int, more: Job, o: int)
    requires w in jobs && jobs[w] != Releasing(o)
    ensures Leaving(jobs[w := more], o) <==> Leaving(jobs, o) || more == Releasing(o)
  {
    var jobs' := jobs[w := more];
    if Leaving(jobs, o) {
      var v :| v in jobs && jobs[v] == Releasing(o);
      assert v in jobs' && jobs'[v] == Releasing(o);
    }
    if more == Releasing(o) { assert w in jobs' && jobs'[w] == Releasing(o); }
  }

  predicate SameStanding(o: Order, o': Order) { o'.status == o.status && o'.mergedInto == o.mergedInto }

  lemma GroupsTransfer(s: Seats, s': Seats, jobs: map<int, Job>, jobs': map<int, Job>)
    requires GroupsOk(s, jobs) && SameLeaving(jobs, jobs') && s'.groups == s.groups
    requires forall o :: o in s.orders ==> o in s'.orders && SameStanding(s.orders[o], s'.orders[o])
    ensures GroupsOk(s', jobs')
  {
    forall g | ActiveIn(s'.groups, g) ensures GroupOk(s'.orders, jobs', s'.groups[g]) {
      assert GroupOk(s.orders, jobs, s.groups[g]);
      forall m | m in s.groups[g].members && m.orderId != s.groups[g].primary ensures WaitsFor(s'.orders, m.orderId, s.groups[g].primary) {
        assert WaitsFor(s.orders, m.orderId, s.groups[g].primary);
      }
    }
  }

  ghost function JobsAfter(db: Db, w: int): map<int, Job>
    requires w in db.jobs
  {
    var more := FollowUp(db, db.jobs[w]);
    if more.Some? then db.jobs[w := more.value] else Without(db.jobs, w)
  }

  lemma CommitLeaving(db: Db, w: int, o: int)
    requires w in db.jobs && db.jobs[w] != Releasing(o)
    ensures Leaving(JobsAfter(db, w), o) <==> Leaving(db.jobs, o) || FollowUp(db, db.jobs[w]) == Some(Releasing(o))
  {
    var more := FollowUp(db, db.jobs[w]);
    if more.Some? { FollowLeaving(db.jobs, w, more.value, o); } else { CrashLeaving(db.jobs, w, o); }
  }

  lemma CommitSameLeaving(db: Db, w: int)
    requires w in db.jobs && !db.jobs[w].Releasing? && !(db.jobs[w].Cancelling? && CancelLands(db.seats, db.jobs[w].order))
    ensures SameLeaving(db.jobs, JobsAfter(db, w))
  {
    forall o ensures Leaving(JobsAfter(db, w), o) <==> Leaving(db.jobs, o) { CommitLeaving(db, w, o); }
  }

  lemma CommitGroupsIff(db: Db, w: int)
    requires Wired(db) && GroupsOk(db.seats, db.jobs) && w in db.jobs
    ensures GroupsOk(SeatsAfter(db, db.jobs[w]), JobsAfter(db, w)) <==> JobKeepsGroups(db, db.jobs[w])
  {
    var s, jobs, jobs' := db.seats, db.jobs, JobsAfter(db, w);
    assert WiredJob(s, jobs[w]);
    match jobs[w]
    case Merging(source, target, moved, joins, sourceTable, targetTable) =>
      CommitSameLeaving(db, w);
      if AllPresent(db.rows.items, moved) {
        MergeGroupsIff(s, jobs, jobs', source, target, joins, sourceTable, targetTable, db.next);
      } else {
        GroupsTransfer(s, s, jobs, jobs');
      }
    case Splitting(g, primary, members) =>
      CommitSameLeaving(db, w);
      SplitGroupsIff(s, jobs, jobs', g, primary, members);
    case Setting(order, status) =>
      CommitSameLeaving(db, w);
      SetGroupsIff(s, jobs, jobs', order, status);
    case Cancelling(order, table) =>
      forall o ensures Leaving(jobs', o) <==> Leaving(jobs, o) || (CancelLands(s, order) && o == order) { CommitLeaving(db, w, o); }
      if CancelLands(s, order) { CancelGroups(s, jobs, jobs', order, table); } else { GroupsTransfer(s, s, jobs, jobs'); }
    case Paying(order, table) =>
      CommitSameLeaving(db, w);
      PayGroupsIff(s, jobs, jobs', order, table, db.next);
    case Releasing(order) =>
      forall o | o != order ensures Leaving(jobs', o) <==> Leaving(jobs, o) { CommitLeaving(db, w, o); }
      ReleaseGroups(s, jobs, jobs', order, db.next);
    case _ =>
      CommitSameLeaving(db, w);
      GroupsTransfer(s, SeatsAfter(db, jobs[w]), jobs, jobs');
  }

  /** One event keeps the groups consistent exactly when it finds them as it needs them. */
  lemma StepGroupsIff(db: Db, e: Event)
    requires Wired(db) && GroupsOk(db.seats, db.jobs)
    ensures GroupsOk(Apply(db, e).seats, Apply(db, e).jobs) <==> KeepsGroups(db, e)
  {
    match e
    case Begin(w, r) =>
      if w !in db.jobs && Start(db, r).Some? {
        BeginLeaving(db, w, r);
        GroupsTransfer(db.seats, db.seats, db.jobs, db.jobs[w := Start(db, r).value]);
      }
    case Commit(w, _) => if w in db.jobs { CommitGroupsIff(db, w); }
    case Crash(w) => CrashGroupsIff(db.seats, db.jobs, w);
  }
}

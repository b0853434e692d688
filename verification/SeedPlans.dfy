/** The plan part of the seeder: plans, their module permissions, the feature snapshots
    of existing subscriptions, and the removal of unused plans. */
module SeedPlans {
  import opened Prelude

  datatype Plan = Plan(id: int, features: seq<string>)
  datatype Permission = Permission(moduleId: int, isEnabled: bool)
  datatype Subscription = Subscription(planId: Option<int>, scheduledPlanId: Option<int>, features: seq<string>)

  /** Plans by code; permission rows by plan id, oldest first. */
  datatype Db = Db(plans: map<string, Plan>, permissions: map<int, seq<Permission>>, subs: map<int, Subscription>, next: int)

  datatype PlanData = PlanData(code: string, modules: seq<string>)
  datatype ModuleKey = ModuleKey(key: string, id: int)

  const DASHBOARD := "dashboard"

  // ---------- Plans and permissions ----------

  function PermissionsFor(modules: seq<ModuleKey>, features: seq<string>): seq<Permission> {
    if modules == [] then []
    else
      var m := modules[|modules| - 1];
      PermissionsFor(modules[..|modules| - 1], features) + [Permission(m.id, m.key in features)]
  }

  function PlanIdAfter(db: Db, code: string): int { if code in db.plans then db.plans[code].id else db.next }

  function SetFeatures(subs: map<int, Subscription>, planId: int, features: seq<string>): map<int, Subscription> {
    map s | s in subs :: if subs[s].planId == Some(planId) then subs[s].(features := features) else subs[s]
  }

  function SeedPlan(db: Db, data: PlanData, modules: seq<ModuleKey>): Db {
    var id := PlanIdAfter(db, data.code);
    Db(db.plans[data.code := Plan(id, data.modules)],
       db.permissions[id := PermissionsFor(modules, data.modules)],
       SetFeatures(db.subs, id, data.modules),
       if data.code in db.plans then db.next else db.next + 1)
  }

  function SeedAll(db: Db, plans: seq<PlanData>, modules: seq<ModuleKey>): Db {
    if plans == [] then db else SeedPlan(SeedAll(db, plans[..|plans| - 1], modules), plans[|plans| - 1], modules)
  }

  // ---------- Older subscriptions and plans ----------

  function WithDashboard(features: seq<string>): seq<string> { if DASHBOARD in features then features else [DASHBOARD] + features }

  predicate Seeded(db: Db, codes: set<string>, planId: int) { exists c :: c in codes && c in db.plans && db.plans[c].id == planId }

  /** Whether rows without a plan are among the legacy ones is left open. */
  predicate IsLegacy(db: Db, codes: set<string>, s: Subscription, withoutPlan: bool) {
    if s.planId.Some? then !Seeded(db, codes, s.planId.value) else withoutPlan
  }

  function KeepDashboard(db: Db, codes: set<string>, withoutPlan: bool): Db {
    db.(subs := map s | s in db.subs ::
      if IsLegacy(db, codes, db.subs[s], withoutPlan) then db.subs[s].(features := WithDashboard(db.subs[s].features)) else db.subs[s])
  }

  predicate InUse(subs: map<int, Subscription>, planId: int) { exists s :: s in subs && subs[s].planId == Some(planId) }

  predicate Stays(db: Db, codes: set<string>, code: string) { code in codes || (code in db.plans && InUse(db.subs, db.plans[code].id)) }

  predicate Removed(db: Db, codes: set<string>, planId: int) {
    exists c :: c in db.plans && db.plans[c].id == planId && !Stays(db, codes, c)
  }

  function Prune(db: Db, codes: set<string>): Db {
    Db(db.plans - (set c | c in db.plans && !Stays(db, codes, c)),
       db.permissions - (set p | p in db.permissions && Removed(db, codes, p)),
       map s | s in db.subs ::
         if db.subs[s].scheduledPlanId.Some? && Removed(db, codes, db.subs[s].scheduledPlanId.value)
         then db.subs[s].(scheduledPlanId := None) else db.subs[s],
       db.next)
  }

  function Codes(plans: seq<PlanData>): set<string> { set i | 0 <= i < |plans| :: plans[i].code }

  function Seed(db: Db, plans: seq<PlanData>, modules: seq<ModuleKey>, withoutPlan: bool): Db {
    Prune(KeepDashboard(SeedAll(db, plans, modules), Codes(plans), withoutPlan), Codes(plans))
  }

  // ---------- Consistency ----------

  ghost predicate Consistent(db: Db) {
    && (forall c :: c in db.plans ==> db.plans[c].id < db.next)
    && (forall c, d :: c in db.plans && d in db.plans && db.plans[c].id == db.plans[d].id ==> c == d)
    && (forall p :: p in db.permissions ==> HasPlan(db, p))
    && (forall s :: s in db.subs && db.subs[s].planId.Some? ==> HasPlan(db, db.subs[s].planId.value))
    && (forall s :: s in db.subs && db.subs[s].scheduledPlanId.Some? ==> HasPlan(db, db.subs[s].scheduledPlanId.value))
  }

  ghost predicate HasPlan(db: Db, id: int) { exists c :: c in db.plans && db.plans[c].id == id }

  ghost predicate DistinctCodes(plans: seq<PlanData>) {
    forall i, j :: 0 <= i < j < |plans| ==> plans[i].code != plans[j].code
  }

  lemma PlansGrow(db: Db, data: PlanData, modules: seq<ModuleKey>)
    ensures var end := SeedPlan(db, data, modules);
            && (forall c :: c in db.plans ==> c in end.plans && end.plans[c].id == db.plans[c].id && (c != data.code ==> end.plans[c] == db.plans[c]))
            && (forall c :: c in end.plans ==> c in db.plans || c == data.code)
            && (forall id :: HasPlan(db, id) ==> HasPlan(end, id))
  {
    var end := SeedPlan(db, data, modules);
    forall id | HasPlan(db, id) ensures HasPlan(end, id) {
      var c :| c in db.plans && db.plans[c].id == id;
      assert c in end.plans && end.plans[c].id == id;
    }
  }

  lemma SeedPlanKeeps(db: Db, data: PlanData, modules: seq<ModuleKey>)
    requires Consistent(db)
    ensures Consistent(SeedPlan(db, data, modules))
    ensures var end := SeedPlan(db, data, modules);
            && (forall c :: c in db.plans ==> c in end.plans && end.plans[c].id == db.plans[c].id && (c != data.code ==> end.plans[c] == db.plans[c]))
            && (forall c :: c in end.plans ==> c in db.plans || c == data.code)
  {
    var end := SeedPlan(db, data, modules);
    PlansGrow(db, data, modules);
    forall p | p in end.permissions ensures HasPlan(end, p) {
      if p in db.permissions { assert HasPlan(db, p); } else { assert end.plans[data.code].id == p; }
    }
  }

  /** A seeded plan: its modules, one permission row for each catalog module enabled
      exactly for those, and the same features on every subscription to it. */
  ghost predicate IsSeeded(db: Db, data: PlanData, modules: seq<ModuleKey>) {
    && data.code in db.plans && db.plans[data.code].features == data.modules
    && db.plans[data.code].id in db.permissions
    && db.permissions[db.plans[data.code].id] == PermissionsFor(modules, data.modules)
    && (forall s :: s in db.subs && db.subs[s].planId == Some(db.plans[data.code].id) ==> db.subs[s].features == data.modules)
  }

  lemma {:induction false} PermissionsForEach(modules: seq<ModuleKey>, features: seq<string>)
    ensures var ps := PermissionsFor(modules, features);
            |ps| == |modules| && forall i :: 0 <= i < |ps| ==> ps[i] == Permission(modules[i].id, modules[i].key in features)
  {
    if modules != [] { PermissionsForEach(modules[..|modules| - 1], features); }
  }

  lemma StepSeeds(db: Db, data: PlanData, modules: seq<ModuleKey>)
    ensures IsSeeded(SeedPlan(db, data, modules), data, modules)
  {}

  lemma StepKeepsSeeded(db: Db, data: PlanData, other: PlanData, modules: seq<ModuleKey>)
    requires Consistent(db) && IsSeeded(db, other, modules) && other.code != data.code
    ensures IsSeeded(SeedPlan(db, data, modules), other, modules)
  {
    assert db.plans[other.code].id != PlanIdAfter(db, data.code);
  }

  lemma CodesNext(plans: seq<PlanData>)
    requires plans != []
    ensures Codes(plans) == Codes(plans[..|plans| - 1]) + {plans[|plans| - 1].code}
    ensures DistinctCodes(plans) ==> plans[|plans| - 1].code !in Codes(plans[..|plans| - 1])
  {
    var init := plans[..|plans| - 1];
    forall c | c in Codes(init) ensures c in Codes(plans) {
      var i :| 0 <= i < |init| && init[i].code == c;
      assert plans[i].code == c;
    }
    assert plans[|plans| - 1].code in Codes(plans);
  }

  lemma {:induction false} AllConsistent(db: Db, plans: seq<PlanData>, modules: seq<ModuleKey>)
    requires Consistent(db)
    ensures var end := SeedAll(db, plans, modules);
            && Consistent(end)
            && (forall c :: c in end.plans <==> c in db.plans || c in Codes(plans))
            && (forall c :: c in db.plans ==> end.plans[c].id == db.plans[c].id)
  {
    if plans != [] {
      AllConsistent(db, plans[..|plans| - 1], modules);
      SeedPlanKeeps(SeedAll(db, plans[..|plans| - 1], modules), plans[|plans| - 1], modules);
      CodesNext(plans);
    }
  }

  lemma {:induction false} AllSeeded(db: Db, plans: seq<PlanData>, modules: seq<ModuleKey>)
    requires Consistent(db) && DistinctCodes(plans)
    ensures forall i :: 0 <= i < |plans| ==> IsSeeded(SeedAll(db, plans, modules), plans[i], modules)
  {
    if plans != [] {
      var init, data := plans[..|plans| - 1], plans[|plans| - 1];
      AllSeeded(db, init, modules);
      AllConsistent(db, init, modules);
      var before := SeedAll(db, init, modules);
      StepSeeds(before, data, modules);
      forall i | 0 <= i < |plans| ensures IsSeeded(SeedPlan(before, data, modules), plans[i], modules) {
        if i < |init| {
          assert init[i] == plans[i];
          StepKeepsSeeded(before, data, init[i], modules);
        }
      }
    }
  }

  lemma SeededMore(before: Db, end: Db, codes: set<string>, more: set<string>, id: int)
    requires codes <= more
    requires forall c :: c in before.plans && c in codes ==> c in end.plans && end.plans[c].id == before.plans[c].id
    ensures Seeded(before, codes, id) ==> Seeded(end, more, id)
  {
    if Seeded(before, codes, id) {
      var c :| c in codes && c in before.plans && before.plans[c].id == id;
      assert c in more && c in end.plans && end.plans[c].id == id;
    }
  }

  /** A subscription changes only if its plan is among the seeded ones. */
  lemma {:induction false} OthersUntouched(db: Db, plans: seq<PlanData>, modules: seq<ModuleKey>, s: int)
    requires Consistent(db) && s in db.subs
    ensures var end := SeedAll(db, plans, modules);
            && end.subs.Keys == db.subs.Keys
            && end.subs[s] == db.subs[s].(features := end.subs[s].features)
            && (db.subs[s].planId.None? || !Seeded(end, Codes(plans), db.subs[s].planId.value) ==> end.subs[s] == db.subs[s])
  {
    if plans != [] {
      var init, data := plans[..|plans| - 1], plans[|plans| - 1];
      OthersUntouched(db, init, modules, s);
      AllConsistent(db, init, modules);
      CodesNext(plans);
      OtherUntouched(SeedAll(db, init, modules), data, modules, Codes(init), s);
    }
  }

  lemma OtherUntouched(before: Db, data: PlanData, modules: seq<ModuleKey>, codes: set<string>, s: int)
    requires Consistent(before) && s in before.subs
    ensures var end := SeedPlan(before, data, modules);
            && end.subs.Keys == before.subs.Keys
            && end.subs[s] == before.subs[s].(features := end.subs[s].features)
            && (before.subs[s].planId.None? || !Seeded(end, codes + {data.code}, before.subs[s].planId.value) ==>
                  && end.subs[s] == before.subs[s]
                  && (before.subs[s].planId.Some? ==> !Seeded(before, codes, before.subs[s].planId.value)))
  {
    var end := SeedPlan(before, data, modules);
    SeedPlanKeeps(before, data, modules);
    if before.subs[s].planId.Some? {
      var id := before.subs[s].planId.value;
      SeededMore(before, end, codes, codes + {data.code}, id);
      if id == end.plans[data.code].id { assert data.code in codes + {data.code}; }
    }
  }

  lemma DashboardKeeps(db: Db, codes: set<string>, withoutPlan: bool)
    requires Consistent(db)
    ensures Consistent(KeepDashboard(db, codes, withoutPlan))
    ensures forall data: PlanData, modules: seq<ModuleKey> :: data.code in codes && IsSeeded(db, data, modules) ==> IsSeeded(KeepDashboard(db, codes, withoutPlan), data, modules)
  {
    var end := KeepDashboard(db, codes, withoutPlan);
    assert forall id :: HasPlan(db, id) ==> HasPlan(end, id);
    forall data: PlanData, modules: seq<ModuleKey> | data.code in codes && IsSeeded(db, data, modules) ensures IsSeeded(end, data, modules) {
      forall s | s in end.subs && end.subs[s].planId == Some(end.plans[data.code].id) ensures end.subs[s].features == data.modules {
        assert Seeded(db, codes, db.plans[data.code].id);
      }
    }
  }

  lemma RemovedIff(db: Db, codes: set<string>, id: int)
    requires Consistent(db)
    ensures HasPlan(Prune(db, codes), id) <==> HasPlan(db, id) && !Removed(db, codes, id)
  {
    var end := Prune(db, codes);
    if HasPlan(db, id) && !Removed(db, codes, id) {
      var c :| c in db.plans && db.plans[c].id == id;
      assert c in end.plans && end.plans[c].id == id;
    }
    if HasPlan(end, id) {
      var c :| c in end.plans && end.plans[c].id == id;
      assert c in db.plans && db.plans[c].id == id;
    }
  }

  lemma UsedStays(db: Db, codes: set<string>, s: int)
    requires Consistent(db) && s in db.subs && db.subs[s].planId.Some?
    ensures HasPlan(Prune(db, codes), db.subs[s].planId.value)
  {
    var id := db.subs[s].planId.value;
    assert HasPlan(db, id);
    var c :| c in db.plans && db.plans[c].id == id;
    assert InUse(db.subs, id);
    assert Stays(db, codes, c);
    RemovedIff(db, codes, id);
  }

  /** Removal keeps exactly the configured plans and those some subscription is on, and
      leaves no reference dangling: a scheduled change to a removed plan is dropped. */
  lemma PruneKeeps(db: Db, codes: set<string>)
    requires Consistent(db)
    ensures var end := Prune(db, codes);
            && Consistent(end)
            && (forall c :: c in end.plans <==> c in db.plans && (c in codes || InUse(db.subs, db.plans[c].id)))
            && (forall s :: s in db.subs ==> s in end.subs && SameButSchedule(end, db.subs[s], end.subs[s]))
  {
    var end := Prune(db, codes);
    forall s | s in db.subs
      ensures SameButSchedule(end, db.subs[s], end.subs[s])
      ensures end.subs[s].planId.Some? ==> HasPlan(end, end.subs[s].planId.value)
      ensures end.subs[s].scheduledPlanId.Some? ==> HasPlan(end, end.subs[s].scheduledPlanId.value)
    {
      if db.subs[s].planId.Some? { UsedStays(db, codes, s); }
      if db.subs[s].scheduledPlanId.Some? { RemovedIff(db, codes, db.subs[s].scheduledPlanId.value); }
    }
    forall p | p in end.permissions ensures exists c :: c in end.plans && end.plans[c].id == p {
      assert HasPlan(db, p);
      RemovedIff(db, codes, p);
    }
  }

  ghost predicate SameButSchedule(end: Db, before: Subscription, after: Subscription) {
    && after.planId == before.planId && after.features == before.features
    && (after.scheduledPlanId == before.scheduledPlanId
        <==> before.scheduledPlanId.None? || HasPlan(end, before.scheduledPlanId.value))
  }

  lemma PruneKeepsSeeded(db: Db, codes: set<string>, data: PlanData, modules: seq<ModuleKey>)
    requires Consistent(db) && data.code in codes && IsSeeded(db, data, modules)
    ensures IsSeeded(Prune(db, codes), data, modules)
  {
    PruneKeeps(db, codes);
    assert !Removed(db, codes, db.plans[data.code].id);
  }

  /** Features with the dashboard are left alone; otherwise it comes first and the rest
      follow as they were. */
  predicate DashboardInFront(before: seq<string>, after: seq<string>) {
    if "dashboard" in before then after == before else |after| > 0 && after[0] == "dashboard" && after[1..] == before
  }

  lemma DashboardAdded(features: seq<string>)
    ensures DashboardInFront(features, WithDashboard(features))
  {}

  /** What one run leaves, from any consistent database: every configured plan seeded,
      subscriptions on other plans with the dashboard in front of their own features,
      exactly the configured and the used plans, and nothing dangling. */
  lemma SeedOutcome(db: Db, plans: seq<PlanData>, modules: seq<ModuleKey>, withoutPlan: bool)
    requires Consistent(db) && DistinctCodes(plans)
    ensures var end := Seed(db, plans, modules, withoutPlan);
            && Consistent(end) && end.subs.Keys == db.subs.Keys
            && (forall i :: 0 <= i < |plans| ==> IsSeeded(end, plans[i], modules))
            && (forall c :: c in end.plans <==> c in Codes(plans) || (c in db.plans && InUse(db.subs, db.plans[c].id)))
            && (forall s :: s in db.subs ==> end.subs[s].planId == db.subs[s].planId)
            && (forall s :: s in db.subs && db.subs[s].planId.Some? && !Seeded(end, Codes(plans), db.subs[s].planId.value) ==>
                  DashboardInFront(db.subs[s].features, end.subs[s].features))
  {
    PlansOutcome(db, plans, modules, withoutPlan);
    forall i | 0 <= i < |plans| ensures IsSeeded(Seed(db, plans, modules, withoutPlan), plans[i], modules) {
      OneSeeded(db, plans, modules, withoutPlan, i);
    }
    SubsOutcome(db, plans, modules, withoutPlan);
    forall s | s in db.subs ensures DashboardInFront(db.subs[s].features, WithDashboard(db.subs[s].features)) {
      DashboardAdded(db.subs[s].features);
    }
  }

  lemma OneSeeded(db: Db, plans: seq<PlanData>, modules: seq<ModuleKey>, withoutPlan: bool, i: nat)
    requires Consistent(db) && DistinctCodes(plans) && i < |plans|
    ensures IsSeeded(Seed(db, plans, modules, withoutPlan), plans[i], modules)
  {
    var codes, one := Codes(plans), SeedAll(db, plans, modules);
    AllConsistent(db, plans, modules);
    AllSeeded(db, plans, modules);
    DashboardKeeps(one, codes, withoutPlan);
    assert plans[i].code in codes;
    PruneKeepsSeeded(KeepDashboard(one, codes, withoutPlan), codes, plans[i], modules);
  }

  lemma ReadyToPrune(db: Db, plans: seq<PlanData>, modules: seq<ModuleKey>, withoutPlan: bool)
    requires Consistent(db)
    ensures var two := KeepDashboard(SeedAll(db, plans, modules), Codes(plans), withoutPlan);
            && Consistent(two)
            && (forall c :: c in two.plans <==> c in db.plans || c in Codes(plans))
            && (forall c :: c in db.plans ==> two.plans[c].id == db.plans[c].id)
            && two.subs.Keys == db.subs.Keys && (forall s :: s in db.subs ==> two.subs[s].planId == db.subs[s].planId)
  {
    AllConsistent(db, plans, modules);
    DashboardKeeps(SeedAll(db, plans, modules), Codes(plans), withoutPlan);
    SameSubs(db, plans, modules);
    forall s | s in db.subs ensures KeepDashboard(SeedAll(db, plans, modules), Codes(plans), withoutPlan).subs[s].planId == db.subs[s].planId {
      OthersUntouched(db, plans, modules, s);
    }
  }

  lemma PlansOutcome(db: Db, plans: seq<PlanData>, modules: seq<ModuleKey>, withoutPlan: bool)
    requires Consistent(db)
    ensures var end := Seed(db, plans, modules, withoutPlan);
            && Consistent(end)
            && (forall c :: c in end.plans <==> c in Codes(plans) || (c in db.plans && InUse(db.subs, db.plans[c].id)))
  {
    var two := KeepDashboard(SeedAll(db, plans, modules), Codes(plans), withoutPlan);
    ReadyToPrune(db, plans, modules, withoutPlan);
    PruneKeeps(two, Codes(plans));
    forall c | c in db.plans ensures InUse(two.subs, two.plans[c].id) <==> InUse(db.subs, db.plans[c].id) {
      SameUse(db.subs, two.subs, db.plans[c].id);
    }
  }

  lemma SubsOutcome(db: Db, plans: seq<PlanData>, modules: seq<ModuleKey>, withoutPlan: bool)
    requires Consistent(db)
    ensures var end := Seed(db, plans, modules, withoutPlan);
            && end.subs.Keys == db.subs.Keys
            && (forall s :: s in db.subs ==> end.subs[s].planId == db.subs[s].planId)
            && (forall s :: s in db.subs && db.subs[s].planId.Some? && !Seeded(end, Codes(plans), db.subs[s].planId.value) ==>
                  end.subs[s].features == WithDashboard(db.subs[s].features))
  {
    SameSubs(db, plans, modules);
    forall s | s in db.subs
      ensures var after := Seed(db, plans, modules, withoutPlan).subs[s];
              && after.planId == db.subs[s].planId
              && (db.subs[s].planId.Some? && !Seeded(Seed(db, plans, modules, withoutPlan), Codes(plans), db.subs[s].planId.value) ==>
                    after.features == WithDashboard(db.subs[s].features))
    {
      SubOutcome(db, plans, modules, withoutPlan, s);
    }
  }

  lemma SubOutcome(db: Db, plans: seq<PlanData>, modules: seq<ModuleKey>, withoutPlan: bool, s: int)
    requires Consistent(db) && s in db.subs
    ensures var end := Seed(db, plans, modules, withoutPlan);
            && s in end.subs && end.subs[s].planId == db.subs[s].planId
            && (db.subs[s].planId.Some? && !Seeded(end, Codes(plans), db.subs[s].planId.value) ==>
                  end.subs[s].features == WithDashboard(db.subs[s].features))
  {
    var codes, one := Codes(plans), SeedAll(db, plans, modules);
    SameSubs(db, plans, modules);
    OthersUntouched(db, plans, modules, s);
    if db.subs[s].planId.Some? {
      SeededMore(one, Prune(KeepDashboard(one, codes, withoutPlan), codes), codes, codes, db.subs[s].planId.value);
    }
  }

  lemma {:induction false} SameSubs(db: Db, plans: seq<PlanData>, modules: seq<ModuleKey>)
    ensures SeedAll(db, plans, modules).subs.Keys == db.subs.Keys
  {
    if plans != [] { SameSubs(db, plans[..|plans| - 1], modules); }
  }

  lemma SameUse(a: map<int, Subscription>, b: map<int, Subscription>, id: int)
    requires a.Keys == b.Keys && forall s :: s in a ==> a[s].planId == b[s].planId
    ensures InUse(a, id) <==> InUse(b, id)
  {
    if InUse(a, id) {
      var s :| s in a && a[s].planId == Some(id);
      assert b[s].planId == Some(id);
    }
    if InUse(b, id) {
      var s :| s in b && b[s].planId == Some(id);
      assert a[s].planId == Some(id);
    }
  }

  // ---------- Seeding twice ----------

  ghost predicate Settled(db: Db, plans: seq<PlanData>, modules: seq<ModuleKey>, withoutPlan: bool) {
    && (forall i :: 0 <= i < |plans| ==> IsSeeded(db, plans[i], modules))
    && (forall s :: s in db.subs && IsLegacy(db, Codes(plans), db.subs[s], withoutPlan) ==> DASHBOARD in db.subs[s].features)
    && (forall c :: c in db.plans ==> Stays(db, Codes(plans), c))
  }

  lemma SeededIsFixed(db: Db, data: PlanData, modules: seq<ModuleKey>)
    requires IsSeeded(db, data, modules)
    ensures SeedPlan(db, data, modules) == db
  {
    var id, set' := db.plans[data.code].id, SetFeatures(db.subs, db.plans[data.code].id, data.modules);
    forall s | s in db.subs ensures set'[s] == db.subs[s] {
      assert db.subs[s].planId == Some(id) ==> db.subs[s].features == data.modules;
    }
    assert set' == db.subs;
  }

  lemma {:induction false} AllFixed(db: Db, plans: seq<PlanData>, modules: seq<ModuleKey>)
    requires forall i :: 0 <= i < |plans| ==> IsSeeded(db, plans[i], modules)
    ensures SeedAll(db, plans, modules) == db
  {
    if plans != [] {
      assert forall i :: 0 <= i < |plans| - 1 ==> plans[..|plans| - 1][i] == plans[i];
      AllFixed(db, plans[..|plans| - 1], modules);
      SeededIsFixed(db, plans[|plans| - 1], modules);
    }
  }

  lemma SettledIsFixed(db: Db, plans: seq<PlanData>, modules: seq<ModuleKey>, withoutPlan: bool)
    requires Settled(db, plans, modules, withoutPlan)
    ensures Seed(db, plans, modules, withoutPlan) == db
  {
    AllFixed(db, plans, modules);
    var kept := KeepDashboard(db, Codes(plans), withoutPlan).subs;
    forall s | s in db.subs ensures kept[s] == db.subs[s] {
      assert IsLegacy(db, Codes(plans), db.subs[s], withoutPlan) ==> WithDashboard(db.subs[s].features) == db.subs[s].features;
    }
    assert kept == db.subs;
    assert forall id :: !Removed(db, Codes(plans), id);
    assert (set c | c in db.plans && !Stays(db, Codes(plans), c)) == {};
    assert (set p | p in db.permissions && Removed(db, Codes(plans), p)) == {};
    assert db.plans - {} == db.plans && db.permissions - {} == db.permissions;
    SameMap(Prune(db, Codes(plans)).subs, db.subs);
  }

  /** The plan catalog after two runs is the plan catalog after one: plans, permission
      triples and every subscription. */
  lemma SeedingPlansTwice(db: Db, plans: seq<PlanData>, modules: seq<ModuleKey>, withoutPlan: bool)
    requires Consistent(db) && DistinctCodes(plans)
    ensures Seed(Seed(db, plans, modules, withoutPlan), plans, modules, withoutPlan) == Seed(db, plans, modules, withoutPlan)
  {
    OutcomeSettled(db, plans, modules, withoutPlan);
    SettledIsFixed(Seed(db, plans, modules, withoutPlan), plans, modules, withoutPlan);
  }

  lemma OutcomeSettled(db: Db, plans: seq<PlanData>, modules: seq<ModuleKey>, withoutPlan: bool)
    requires Consistent(db) && DistinctCodes(plans)
    ensures Settled(Seed(db, plans, modules, withoutPlan), plans, modules, withoutPlan)
  {
    var codes, end := Codes(plans), Seed(db, plans, modules, withoutPlan);
    SeedOutcome(db, plans, modules, withoutPlan);
    SameSubs(db, plans, modules);
    forall s | s in end.subs && IsLegacy(end, codes, end.subs[s], withoutPlan) ensures DASHBOARD in end.subs[s].features {
      LegacyHasDashboard(SeedAll(db, plans, modules), codes, withoutPlan, s);
    }
    forall c | c in end.plans ensures Stays(end, codes, c) { StaysUsed(db, plans, modules, withoutPlan, c); }
  }

  lemma StaysUsed(db: Db, plans: seq<PlanData>, modules: seq<ModuleKey>, withoutPlan: bool, c: string)
    requires Consistent(db) && c in Seed(db, plans, modules, withoutPlan).plans
    ensures Stays(Seed(db, plans, modules, withoutPlan), Codes(plans), c)
  {
    if c !in Codes(plans) {
      AllConsistent(db, plans, modules);
      PlansOutcome(db, plans, modules, withoutPlan);
      SubsOutcome(db, plans, modules, withoutPlan);
      SameUse(db.subs, Seed(db, plans, modules, withoutPlan).subs, db.plans[c].id);
    }
  }

  lemma LegacyHasDashboard(one: Db, codes: set<string>, withoutPlan: bool, s: int)
    requires s in one.subs
    requires var end := Prune(KeepDashboard(one, codes, withoutPlan), codes); IsLegacy(end, codes, end.subs[s], withoutPlan)
    ensures DASHBOARD in Prune(KeepDashboard(one, codes, withoutPlan), codes).subs[s].features
  {
    var end := Prune(KeepDashboard(one, codes, withoutPlan), codes);
    if end.subs[s].planId.Some? { SeededMore(one, end, codes, codes, end.subs[s].planId.value); }
    assert IsLegacy(one, codes, one.subs[s], withoutPlan);
  }

  // ---------- The program ----------

  method PermissionRows(modules: seq<ModuleKey>, features: seq<string>) returns (rows: seq<Permission>)
    ensures rows == PermissionsFor(modules, features)
  {
    rows := [];
    for m := 0 to |modules|
      invariant rows == PermissionsFor(modules[..m], features)
    {
      assert modules[..m + 1][..m] == modules[..m];
      rows := rows + [Permission(modules[m].id, modules[m].key in features)];
    }
    assert modules[..|modules|] == modules;
  }

  /** The query's condition: not on one of the seeded plans. */
  predicate OffPlan(s: Subscription, seededPlanIds: seq<int>, withoutPlan: bool) {
    if s.planId.Some? then s.planId.value !in seededPlanIds else withoutPlan
  }

  class PlanStore {
    var plans: map<string, Plan>
    var permissions: map<int, seq<Permission>>
    var subs: map<int, Subscription>
    var next: int

    function Tables(): Db
      reads this
    {
      Db(plans, permissions, subs, next)
    }

    method SeedOne(data: PlanData, modules: seq<ModuleKey>) returns (id: int)
      modifies this
      ensures Tables() == SeedPlan(old(Tables()), data, modules) && id == PlanIdAfter(old(Tables()), data.code)
    {
      var features := data.modules;
      id := next;
      if data.code in plans { id := plans[data.code].id; } else { next := next + 1; }
      plans := plans[data.code := Plan(id, features)];
      var rows := PermissionRows(modules, features);
      permissions := permissions[id := rows];
      subs := map s | s in subs :: if subs[s].planId == Some(id) then subs[s].(features := features) else subs[s];
    }

    /** Returns the ids of the seeded plans, in order. */
    method SeedPlans(data: seq<PlanData>, modules: seq<ModuleKey>) returns (seededPlanIds: seq<int>)
      modifies this
      ensures Tables() == SeedAll(old(Tables()), data, modules)
      ensures |seededPlanIds| == |data|
      ensures forall k :: 0 <= k < |data| ==> data[k].code in plans && plans[data[k].code].id == seededPlanIds[k]
    {
      ghost var start := Tables();
      seededPlanIds := [];
      for i := 0 to |data|
        invariant Tables() == SeedAll(start, data[..i], modules)
        invariant |seededPlanIds| == i
        invariant forall k :: 0 <= k < i ==> data[k].code in plans && plans[data[k].code].id == seededPlanIds[k]
      {
        assert data[..i + 1][..i] == data[..i];
        PlansGrow(Tables(), data[i], modules);
        var id := SeedOne(data[i], modules);
        seededPlanIds := seededPlanIds + [id];
      }
      assert data[..|data|] == data;
    }

    /** The query on the seeded ids, over the rows in whatever order they are stored. */
    method LegacySubscriptions(stored: seq<int>, seededPlanIds: seq<int>, withoutPlan: bool) returns (legacy: seq<int>)
      requires forall s :: s in stored <==> s in subs
      ensures forall s :: s in legacy <==> s in subs && OffPlan(subs[s], seededPlanIds, withoutPlan)
    {
      legacy := [];
      for i := 0 to |stored|
        invariant forall s :: s in legacy <==> s in stored[..i] && OffPlan(subs[s], seededPlanIds, withoutPlan)
      {
        var s := stored[i];
        assert s in stored && s in subs && stored[..i + 1] == stored[..i] + [s];
        if OffPlan(subs[s], seededPlanIds, withoutPlan) { legacy := legacy + [s]; }
      }
      assert stored[..|stored|] == stored;
    }

    /** The rows that query finds, in any order: exactly those get the dashboard. */
    method AddDashboard(legacy: seq<int>, seededPlanIds: seq<int>, withoutPlan: bool, ghost codes: set<string>)
      requires forall s :: s in legacy <==> s in subs && OffPlan(subs[s], seededPlanIds, withoutPlan)
      requires forall id :: id in seededPlanIds <==> Seeded(Tables(), codes, id)
      modifies this`subs
      ensures Tables() == KeepDashboard(old(Tables()), codes, withoutPlan)
      ensures subs.Keys == old(subs).Keys
      ensures forall s :: s in subs ==> subs[s] == old(subs)[s].(features := subs[s].features)
                                        && if s in legacy then DashboardInFront(old(subs)[s].features, subs[s].features)
                                           else subs[s].features == old(subs)[s].features
    {
      for i := 0 to |legacy|
        invariant subs.Keys == old(subs).Keys
        invariant forall s :: s in subs ==>
          subs[s] == if s in legacy[..i] then old(subs)[s].(features := WithDashboard(old(subs)[s].features)) else old(subs)[s]
      {
        var s := legacy[i];
        assert s in legacy;
        if DASHBOARD !in subs[s].features {
          subs := subs[s := subs[s].(features := [DASHBOARD] + subs[s].features)];
        }
      }
      assert legacy[..|legacy|] == legacy;
      ghost var want := KeepDashboard(old(Tables()), codes, withoutPlan).subs;
      forall s | s in subs ensures s in want && subs[s] == want[s] {
        assert s in legacy <==> IsLegacy(old(Tables()), codes, old(subs)[s], withoutPlan);
      }
      SameMap(subs, want);
      forall s | s in subs ensures DashboardInFront(old(subs)[s].features, WithDashboard(old(subs)[s].features)) {
        DashboardAdded(old(subs)[s].features);
      }
    }

    method DeletePlan(code: string)
      requires code in plans
      modifies this`plans, this`permissions, this`subs
      ensures Tables() == Drop(old(Tables()), code)
    {
      var id := plans[code].id;
      plans := plans - {code};
      permissions := permissions - {id};
      subs := map s | s in subs :: if subs[s].scheduledPlanId == Some(id) then subs[s].(scheduledPlanId := None) else subs[s];
    }

    /** Deletes the unused plans among those found, in any order; the database drops
        their permissions and clears scheduled changes to them. */
    method RemoveUnusedPlans(legacy: seq<string>, ghost codes: set<string>)
      requires Consistent(Tables())
      requires forall c :: c in legacy <==> c in plans && c !in codes
      requires forall i, j :: 0 <= i < j < |legacy| ==> legacy[i] != legacy[j]
      modifies this`plans, this`permissions, this`subs
      ensures Tables() == Prune(old(Tables()), codes)
    {
      ghost var start := Tables();
      PruneNone(start, codes);
      for i := 0 to |legacy|
        invariant Tables() == PruneOnly(start, codes, legacy[..i])
      {
        assert legacy[i] in legacy;
        var plan := plans[legacy[i]];
        PruneOne(start, codes, legacy[..i], legacy[i]);
        assert legacy[..i + 1] == legacy[..i] + [legacy[i]];
        if !InUse(subs, plan.id) { DeletePlan(legacy[i]); }
      }
      PrunedAll(start, codes, legacy);
      assert legacy[..|legacy|] == legacy;
    }

    method LegacyPlans(codes: set<string>) returns (legacy: seq<string>)
      ensures forall c :: c in legacy <==> c in plans && c !in codes
      ensures forall i, j :: 0 <= i < j < |legacy| ==> legacy[i] != legacy[j]
    {
      legacy := [];
      var left := plans.Keys;
      while left != {}
        invariant left <= plans.Keys
        invariant forall c :: c in legacy <==> c in plans && c !in left && c !in codes
        invariant forall i, j :: 0 <= i < j < |legacy| ==> legacy[i] != legacy[j]
        decreases |left|
      {
        var c :| c in left;
        left := left - {c};
        if c !in codes {
          assert c !in legacy;
          legacy := legacy + [c];
        }
      }
    }

    /** The plan part of the program: seed, query, add the dashboard, query, remove. */
    method SeedCatalog(data: seq<PlanData>, modules: seq<ModuleKey>, stored: seq<int>, withoutPlan: bool)
      requires Consistent(Tables()) && forall s :: s in stored <==> s in subs
      modifies this
      ensures Tables() == Seed(old(Tables()), data, modules, withoutPlan)
    {
      ghost var start := Tables();
      var seededPlanIds := SeedPlans(data, modules);
      SeededIds(Tables(), data, seededPlanIds);
      ReadyToPrune(start, data, modules, withoutPlan);
      var legacy := LegacySubscriptions(stored, seededPlanIds, withoutPlan);
      AddDashboard(legacy, seededPlanIds, withoutPlan, Codes(data));
      var unlisted := LegacyPlans(Codes(data));
      RemoveUnusedPlans(unlisted, Codes(data));
    }
  }

  lemma SeededIds(db: Db, data: seq<PlanData>, ids: seq<int>)
    requires |ids| == |data| && forall k :: 0 <= k < |data| ==> data[k].code in db.plans && db.plans[data[k].code].id == ids[k]
    ensures forall id :: id in ids <==> Seeded(db, Codes(data), id)
  {
    forall id ensures id in ids <==> Seeded(db, Codes(data), id) {
      if id in ids {
        var k :| 0 <= k < |ids| && ids[k] == id;
        assert data[k].code in Codes(data);
      }
      if Seeded(db, Codes(data), id) {
        var c :| c in Codes(data) && c in db.plans && db.plans[c].id == id;
        var k :| 0 <= k < |data| && data[k].code == c;
        assert ids[k] == id;
      }
    }
  }

  /** Deletes a plan: permissions cascade, scheduled changes to it are cleared. */
  function Drop(db: Db, code: string): Db
    requires code in db.plans
  {
    var id := db.plans[code].id;
    Db(db.plans - {code},
       db.permissions - {id},
       map s | s in db.subs :: if db.subs[s].scheduledPlanId == Some(id) then db.subs[s].(scheduledPlanId := None) else db.subs[s],
       db.next)
  }

  predicate RemovedBy(db: Db, codes: set<string>, done: seq<string>, planId: int) {
    exists c :: c in done && c in db.plans && db.plans[c].id == planId && !Stays(db, codes, c)
  }

  /** Removal restricted to the plans already visited. */
  function PruneOnly(db: Db, codes: set<string>, done: seq<string>): Db {
    Db(db.plans - (set c | c in db.plans && c in done && !Stays(db, codes, c)),
       db.permissions - (set p | p in db.permissions && RemovedBy(db, codes, done, p)),
       map s | s in db.subs ::
         if db.subs[s].scheduledPlanId.Some? && RemovedBy(db, codes, done, db.subs[s].scheduledPlanId.value)
         then db.subs[s].(scheduledPlanId := None) else db.subs[s],
       db.next)
  }

  lemma RemovedNext(db: Db, codes: set<string>, done: seq<string>, code: string, id: int)
    requires Consistent(db) && code in db.plans && code !in codes && code !in done
    ensures RemovedBy(db, codes, done + [code], id)
            <==> RemovedBy(db, codes, done, id) || (id == db.plans[code].id && !InUse(db.subs, id))
    ensures id == db.plans[code].id ==> !RemovedBy(db, codes, done, id)
  {
    assert code in done + [code];
    if RemovedBy(db, codes, done, id) {
      var c :| c in done && c in db.plans && db.plans[c].id == id && !Stays(db, codes, c);
      assert c in done + [code];
    }
  }

  lemma PruneNone(db: Db, codes: set<string>)
    ensures PruneOnly(db, codes, []) == db
  {
    var none := PruneOnly(db, codes, []);
    assert forall id :: !RemovedBy(db, codes, [], id);
    forall s | s in db.subs ensures none.subs[s] == db.subs[s] {}
    assert (set c | c in db.plans && c in [] && !Stays(db, codes, c)) == {};
    assert (set p | p in db.permissions && RemovedBy(db, codes, [], p)) == {};
    assert db.plans - {} == db.plans && db.permissions - {} == db.permissions;
    SameMap(none.subs, db.subs);
  }

  ghost predicate NextUnused(db: Db, codes: set<string>, done: seq<string>, code: string) {
    Consistent(db) && code in db.plans && code !in codes && code !in done && !InUse(db.subs, db.plans[code].id)
  }

  lemma DropPermissions(db: Db, codes: set<string>, done: seq<string>, code: string)
    requires NextUnused(db, codes, done, code)
    ensures PruneOnly(db, codes, done + [code]).permissions == Drop(PruneOnly(db, codes, done), code).permissions
  {
    forall p ensures RemovedBy(db, codes, done + [code], p) <==> RemovedBy(db, codes, done, p) || p == db.plans[code].id {
      RemovedNext(db, codes, done, code, p);
    }
    var one, two := set p | p in db.permissions && RemovedBy(db, codes, done, p),
                    set p | p in db.permissions && RemovedBy(db, codes, done + [code], p);
    var id := db.plans[code].id;
    assert forall p :: p in db.permissions && p !in two <==> p in db.permissions && p !in one && p != id;
    assert db.permissions - two == (db.permissions - one) - {id};
  }

  lemma DropSubs(db: Db, codes: set<string>, done: seq<string>, code: string)
    requires NextUnused(db, codes, done, code)
    ensures PruneOnly(db, codes, done + [code]).subs == Drop(PruneOnly(db, codes, done), code).subs
  {
    forall p ensures RemovedBy(db, codes, done + [code], p) <==> RemovedBy(db, codes, done, p) || p == db.plans[code].id {
      RemovedNext(db, codes, done, code, p);
    }
    var after, drop := PruneOnly(db, codes, done + [code]).subs, Drop(PruneOnly(db, codes, done), code).subs;
    forall s | s in db.subs ensures after[s] == drop[s] {}
    assert after.Keys == drop.Keys;
  }

  lemma DropIsNext(db: Db, codes: set<string>, done: seq<string>, code: string)
    requires NextUnused(db, codes, done, code)
    ensures PruneOnly(db, codes, done + [code]) == Drop(PruneOnly(db, codes, done), code)
  {
    DropPermissions(db, codes, done, code);
    DropSubs(db, codes, done, code);
    var one, two := set c | c in db.plans && c in done && !Stays(db, codes, c), set c | c in db.plans && c in done + [code] && !Stays(db, codes, c);
    assert !Stays(db, codes, code) && two == one + {code};
    assert db.plans - two == (db.plans - one) - {code};
  }

  ghost predicate NextUsed(db: Db, codes: set<string>, done: seq<string>, code: string) {
    Consistent(db) && code in db.plans && code !in codes && code !in done && InUse(db.subs, db.plans[code].id)
  }

  lemma UsedRemovesNone(db: Db, codes: set<string>, done: seq<string>, code: string, id: int)
    requires NextUsed(db, codes, done, code)
    ensures RemovedBy(db, codes, done + [code], id) <==> RemovedBy(db, codes, done, id)
  {
    RemovedNext(db, codes, done, code, id);
  }

  lemma UsedPlans(db: Db, codes: set<string>, done: seq<string>, code: string)
    requires NextUsed(db, codes, done, code)
    ensures PruneOnly(db, codes, done + [code]).plans == PruneOnly(db, codes, done).plans
  {
    assert Stays(db, codes, code);
    assert (set c | c in db.plans && c in done + [code] && !Stays(db, codes, c)) == (set c | c in db.plans && c in done && !Stays(db, codes, c));
  }

  lemma UsedPermissions(db: Db, codes: set<string>, done: seq<string>, code: string)
    requires NextUsed(db, codes, done, code)
    ensures PruneOnly(db, codes, done + [code]).permissions == PruneOnly(db, codes, done).permissions
  {
    forall p ensures RemovedBy(db, codes, done + [code], p) <==> RemovedBy(db, codes, done, p) { UsedRemovesNone(db, codes, done, code, p); }
    assert (set p | p in db.permissions && RemovedBy(db, codes, done + [code], p))
        == (set p | p in db.permissions && RemovedBy(db, codes, done, p));
  }

  lemma UsedSubs(db: Db, codes: set<string>, done: seq<string>, code: string)
    requires NextUsed(db, codes, done, code)
    ensures PruneOnly(db, codes, done + [code]).subs == PruneOnly(db, codes, done).subs
  {
    var before, after := PruneOnly(db, codes, done).subs, PruneOnly(db, codes, done + [code]).subs;
    forall s | s in db.subs ensures after[s] == before[s] {
      if db.subs[s].scheduledPlanId.Some? { UsedRemovesNone(db, codes, done, code, db.subs[s].scheduledPlanId.value); }
    }
    SameMap(after, before);
  }

  lemma UsedIsNext(db: Db, codes: set<string>, done: seq<string>, code: string)
    requires NextUsed(db, codes, done, code)
    ensures PruneOnly(db, codes, done + [code]) == PruneOnly(db, codes, done)
  {
    UsedPlans(db, codes, done, code);
    UsedPermissions(db, codes, done, code);
    UsedSubs(db, codes, done, code);
  }

  lemma PruneOne(db: Db, codes: set<string>, done: seq<string>, code: string)
    requires Consistent(db) && code in db.plans && code !in codes && code !in done
    ensures var before, id := PruneOnly(db, codes, done), db.plans[code].id;
            && code in before.plans && before.plans[code].id == id
            && (InUse(before.subs, id) <==> InUse(db.subs, id))
            && PruneOnly(db, codes, done + [code]) == if InUse(db.subs, id) then before else Drop(before, code)
  {
    SameUse(db.subs, PruneOnly(db, codes, done).subs, db.plans[code].id);
    if InUse(db.subs, db.plans[code].id) { UsedIsNext(db, codes, done, code); } else { DropIsNext(db, codes, done, code); }
  }

  lemma PrunedAll(db: Db, codes: set<string>, legacy: seq<string>)
    requires forall c :: c in legacy <==> c in db.plans && c !in codes
    ensures PruneOnly(db, codes, legacy) == Prune(db, codes)
  {
    forall id ensures RemovedBy(db, codes, legacy, id) <==> Removed(db, codes, id) {
      if Removed(db, codes, id) {
        var c :| c in db.plans && db.plans[c].id == id && !Stays(db, codes, c);
        assert c in legacy;
      }
    }
    assert (set c | c in db.plans && c in legacy && !Stays(db, codes, c)) == (set c | c in db.plans && !Stays(db, codes, c));
    assert (set p | p in db.permissions && RemovedBy(db, codes, legacy, p)) == (set p | p in db.permissions && Removed(db, codes, p));
    SameMap(PruneOnly(db, codes, legacy).subs, Prune(db, codes).subs);
  }
}

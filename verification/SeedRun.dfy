/** A whole run of the seeder, and a later one on what the first left and the service
    changed since. */
module SeedRun {
  import opened Prelude
  import opened Upserts
  import opened OrderTables
  import opened SeedPurge
  import Catalog = SeedCatalog
  import Plans = SeedPlans
  import Orders = SeedOrders

  datatype Program = Program(config: Catalog.Config, plans: seq<Plans.PlanData>, modules: seq<Plans.ModuleKey>, withoutPlan: bool, restaurant: int)

  datatype World = World(catalog: Catalog.Catalog, plans: Plans.Db, rows: Db)

  /** What one run draws. */
  datatype Draws = Draws(items: Catalog.Draws, customerId: int, orders: seq<Orders.Draw>)

  /** The tables after a run; `orders` is what the order loop filled them with, starting
      from none of the restaurant's rows, or None if the purge was refused. */
  datatype Seeded = Seeded(catalog: Catalog.Catalog, plans: Plans.Db, rows: Db, orders: Option<Orders.Db>)

  function TablePlan(p: Program, c: Catalog.Catalog): seq<(string, Catalog.TableEntry)> {
    Catalog.TableEntries(p.config.tables, Catalog.FloorIds(c.floors.rows, p.config.floors))
  }

  function TableIds(p: Program, c: Catalog.Catalog): set<int> {
    set k | k in c.tables.rows && HasKey(TablePlan(p, c), k) :: c.tables.rows[k].id
  }

  /** Modules and plans first, then the purge, then the rest of the catalog and the orders. */
  function SeedWorld(p: Program, w: World, d: Draws): Seeded {
    var plans, purge := Plans.Seed(w.plans, p.plans, p.modules, p.withoutPlan), Purge(w.rows, p.restaurant);
    if !purge.completed then
      Seeded(w.catalog.(modules := UpsertAll(w.catalog.modules, Catalog.ModuleEntries(p.config.modules), Catalog.NewModule, Catalog.SetModule)),
             plans, purge.db, None)
    else
      var catalog := Catalog.Seed(w.catalog, p.config, d.items, d.customerId);
      Seeded(catalog, plans, purge.db, Some(Orders.Rounds(TableIds(p, catalog), d.orders)))
  }

  ghost predicate Sane(p: Program, w: World) {
    && Catalog.OneEntryPerUser(p.config) && Plans.DistinctCodes(p.plans)
    && Plans.Consistent(w.plans) && Consistent(w.rows) && OneTenant(w.rows)
  }

  /** Seeded rows stayed, plans are as seeded; orders, tickets, bills and payments may
      have come and gone as they like. */
  ghost predicate ServedSince(p: Program, first: Seeded, w: World) {
    Catalog.OnlySeededFieldsDiffer(w.catalog, first.catalog, p.config) && w.plans == first.plans && Consistent(w.rows) && OneTenant(w.rows)
  }

  lemma PlanKept(p: Program, a: Catalog.Catalog, b: Catalog.Catalog, k: string)
    requires TablePlan(p, a) == TablePlan(p, b) && HasKey(TablePlan(p, a), k)
    requires k in a.tables.rows && k in b.tables.rows && a.tables.rows[k] == b.tables.rows[k]
    ensures a.tables.rows[k].id in TableIds(p, a) && a.tables.rows[k].id in TableIds(p, b)
  {}

  lemma SameTableIds(p: Program, a: Catalog.Catalog, b: Catalog.Catalog)
    requires TablePlan(p, a) == TablePlan(p, b)
    requires forall k :: HasKey(TablePlan(p, a), k) ==> k in a.tables.rows && k in b.tables.rows && a.tables.rows[k] == b.tables.rows[k]
    ensures TableIds(p, a) == TableIds(p, b)
  {
    forall id ensures id in TableIds(p, a) <==> id in TableIds(p, b) {
      if id in TableIds(p, a) {
        var k :| k in a.tables.rows && HasKey(TablePlan(p, a), k) && a.tables.rows[k].id == id;
        PlanKept(p, a, b, k);
      }
      if id in TableIds(p, b) {
        var k :| k in b.tables.rows && HasKey(TablePlan(p, b), k) && b.tables.rows[k].id == id;
        PlanKept(p, a, b, k);
      }
    }
  }

  lemma TablesKept(p: Program, w: World, d: Draws, since: World, d': Draws)
    requires Catalog.OneEntryPerUser(p.config)
    requires Catalog.OnlySeededFieldsDiffer(since.catalog, Catalog.Seed(w.catalog, p.config, d.items, d.customerId), p.config)
    ensures TableIds(p, Catalog.Seed(since.catalog, p.config, d'.items, d'.customerId))
            == TableIds(p, Catalog.Seed(w.catalog, p.config, d.items, d.customerId))
  {
    var once, twice := Catalog.Seed(w.catalog, p.config, d.items, d.customerId), Catalog.Seed(since.catalog, p.config, d'.items, d'.customerId);
    Catalog.IdsRestored(w.catalog, p.config, d.items, d.customerId, since.catalog, d'.items, d'.customerId);
    Catalog.SeedingAgainRestores(w.catalog, p.config, d.items, d.customerId, since.catalog, d'.items, d'.customerId);
    var plan := TablePlan(p, once);
    Catalog.SeedsSettle(p.config, [], plan, d.items);
    forall k | HasKey(plan, k) ensures k in once.tables.rows && k in twice.tables.rows && once.tables.rows[k] == twice.tables.rows[k] {
      Settled(w.catalog.tables, plan, Catalog.NewTable, Catalog.SetTable, k);
      assert k in since.catalog.tables.rows;
    }
    SameTableIds(p, once, twice);
  }

  lemma RowsGone(db: Db, r: int)
    requires Consistent(db) && OneTenant(db) && Purge(db, r).completed
    ensures var end := Purge(db, r).db;
            end == Purged(db, r) && OrdersAt(end.orders, r) == {} && KotsAt(end.kots, r) == {} && BillsAt(end.bills, r) == {} && PaymentsAt(end.payments, r) == {}
  {
    PurgeCompletesIff(db, r);
    PurgeTakesExactlyOne(db, r);
  }

  /** The second run of the program, after any service: it goes through exactly when no
      merge row names one of the restaurant's orders, and then every seeded catalog row
      and all plans are those of the first run, nothing of the restaurant's orders is
      left, and the order tables are what its own draws alone make of the same tables. */
  lemma SecondRun(p: Program, w: World, d: Draws, since: World, d': Draws)
    requires Sane(p, w) && SeedWorld(p, w, d).orders.Some? && ServedSince(p, SeedWorld(p, w, d), since)
    ensures var first, second := SeedWorld(p, w, d), SeedWorld(p, since, d');
            && (second.orders.Some? <==> NotMerged(since.rows, OrdersAt(since.rows.orders, p.restaurant)))
            && second.plans == first.plans
            && (second.orders.Some? ==>
                  && Catalog.CatalogRestored(second.catalog, first.catalog, since.catalog, p.config)
                  && second.rows == Purged(since.rows, p.restaurant)
                  && OrdersAt(second.rows.orders, p.restaurant) == {} && KotsAt(second.rows.kots, p.restaurant) == {}
                  && BillsAt(second.rows.bills, p.restaurant) == {} && PaymentsAt(second.rows.payments, p.restaurant) == {}
                  && second.orders == Some(Orders.Rounds(TableIds(p, first.catalog), d'.orders)))
  {
    Plans.SeedingPlansTwice(w.plans, p.plans, p.modules, p.withoutPlan);
    TenantPurgeCompletesIff(since.rows, p.restaurant);
    Catalog.SeedingAgainRestores(w.catalog, p.config, d.items, d.customerId, since.catalog, d'.items, d'.customerId);
    TablesKept(p, w, d, since, d');
    if Purge(since.rows, p.restaurant).completed { RowsGone(since.rows, p.restaurant); }
  }
}

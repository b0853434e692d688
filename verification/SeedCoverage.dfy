/** What the seeded catalog contains, told from the configuration. */
module SeedCoverage {
  import opened Prelude
  import opened Upserts
  import opened SeedCatalog

  // ---------- The flattened lists ----------

  lemma {:induction false} SectionListed(section: MenuSection, n: nat, counter: nat, categoryId: int, nonVeg: set<string>, i: nat)
    requires i < n <= |section.items|
    ensures SectionEntries(section, n, counter, categoryId, nonVeg)[i] == ItemEntryAt(section, i, counter, categoryId, nonVeg)
  {
    if i < n - 1 { SectionListed(section, n - 1, counter, categoryId, nonVeg, i); }
  }

  /** How many dishes the sections with a known category have. */
  function DishesIn(menu: seq<MenuSection>, ids: map<string, int>): nat {
    if menu == [] then 0
    else DishesIn(menu[..|menu| - 1], ids) + (if menu[|menu| - 1].category in ids then |menu[|menu| - 1].items| else 0)
  }

  lemma {:induction false} MenuLength(menu: seq<MenuSection>, ids: map<string, int>, nonVeg: set<string>)
    ensures |MenuEntries(menu, ids, nonVeg)| == DishesIn(menu, ids)
  {
    if menu != [] { MenuLength(menu[..|menu| - 1], ids, nonVeg); }
  }

  /** Every dish of a section whose category exists is listed at its place among the dishes,
      with the category, the vegetarian mark and the position in its section that the
      configuration gives it; the first ten are featured, the twentieth to thirtieth
      recommended. */
  lemma {:induction false} EveryDishListed(menu: seq<MenuSection>, ids: map<string, int>, nonVeg: set<string>, s: nat, i: nat) returns (j: nat)
    requires s < |menu| && i < |menu[s].items| && menu[s].category in ids
    ensures var entries, dish := MenuEntries(menu, ids, nonVeg), menu[s].items[i];
            && j == DishesIn(menu[..s], ids) + i < |entries|
            && entries[j] == (dish.sku, ItemEntry(dish, dish.sku !in nonVeg, ids[menu[s].category], i + 1, j < 10, 19 <= j < 30))
  {
    var before := MenuEntries(menu[..|menu| - 1], ids, nonVeg);
    if s < |menu| - 1 {
      j := EveryDishListed(menu[..|menu| - 1], ids, nonVeg, s, i);
      assert menu[..|menu| - 1][..s] == menu[..s];
    } else {
      j := |before| + i;
      MenuLength(menu[..s], ids, nonVeg);
      SectionListed(menu[s], |menu[s].items|, |before|, ids[menu[s].category], nonVeg, i);
    }
  }

  /** Every listed dish is one of the configuration's, under its section's category. */
  lemma {:induction false} NothingElseListed(menu: seq<MenuSection>, ids: map<string, int>, nonVeg: set<string>, j: nat) returns (s: nat, i: nat)
    requires j < |MenuEntries(menu, ids, nonVeg)|
    ensures s < |menu| && i < |menu[s].items| && menu[s].category in ids
    ensures MenuEntries(menu, ids, nonVeg)[j].1.data == menu[s].items[i]
    ensures MenuEntries(menu, ids, nonVeg)[j].1.categoryId == ids[menu[s].category]
  {
    var n := |menu| - 1;
    var before := MenuEntries(menu[..n], ids, nonVeg);
    if j < |before| {
      s, i := NothingElseListed(menu[..n], ids, nonVeg, j);
    } else {
      s, i := n, j - |before|;
      SectionListed(menu[s], |menu[s].items|, |before|, ids[menu[s].category], nonVeg, i);
    }
  }

  lemma {:induction false} RowListed(data: TableData, n: nat, floorIds: map<string, int>, i: nat)
    requires i < n
    ensures |RowEntries(data, n, floorIds)| == n
    ensures RowEntries(data, n, floorIds)[i]
            == (TableNo(data.start + i), TableEntry(CapacityAt(data, i), if data.floor in floorIds then Some(floorIds[data.floor]) else None))
  {
    if n > 1 { RowListed(data, n - 1, floorIds, if i < n - 1 then i else 0); }
  }

  /** Every number of every range is listed, on its floor, with its configured capacity,
      or four where that is missing or zero. */
  lemma {:induction false} EveryTableListed(tables: seq<TableData>, floorIds: map<string, int>, c: nat, number: nat) returns (j: nat)
    requires c < |tables| && tables[c].start <= number <= tables[c].end
    ensures var entries := TableEntries(tables, floorIds);
            && j < |entries|
            && var i, caps := number - tables[c].start, tables[c].capacities;
            entries[j] == (TableNo(number), TableEntry(if i < |caps| && caps[i] > 0 then caps[i] else 4,
                                                       if tables[c].floor in floorIds then Some(floorIds[tables[c].floor]) else None))
  {
    var before := TableEntries(tables[..|tables| - 1], floorIds);
    if c < |tables| - 1 {
      j := EveryTableListed(tables[..|tables| - 1], floorIds, c, number);
    } else {
      j := |before| + (number - tables[c].start);
      LastRange(tables, floorIds, number);
    }
  }

  lemma LastRange(tables: seq<TableData>, floorIds: map<string, int>, number: nat)
    requires tables != [] && tables[|tables| - 1].start <= number <= tables[|tables| - 1].end
    ensures var entries, range := TableEntries(tables, floorIds), tables[|tables| - 1];
            var j, i := |TableEntries(tables[..|tables| - 1], floorIds)| + (number - range.start), number - range.start;
            && j < |entries|
            && entries[j] == (TableNo(number), TableEntry(CapacityAt(range, i), if range.floor in floorIds then Some(floorIds[range.floor]) else None))
  {
    var range := tables[|tables| - 1];
    RowListed(range, RowCount(range), floorIds, number - range.start);
  }

  /** Every listed table is a number of one of the ranges. */
  lemma {:induction false} NoOtherTableListed(tables: seq<TableData>, floorIds: map<string, int>, j: nat) returns (c: nat, number: nat)
    requires j < |TableEntries(tables, floorIds)|
    ensures c < |tables| && tables[c].start <= number <= tables[c].end && TableEntries(tables, floorIds)[j].0 == TableNo(number)
  {
    var n := |tables| - 1;
    var before := TableEntries(tables[..n], floorIds);
    if j < |before| {
      c, number := NoOtherTableListed(tables[..n], floorIds, j);
    } else {
      var count := RowCount(tables[n]);
      if count > 0 { RowListed(tables[n], count, floorIds, 0); }
      c, number := n, tables[n].start + (j - |before|);
      RowListed(tables[n], count, floorIds, j - |before|);
    }
  }

  // ---------- Table numbers ----------

  lemma {:induction false} DigitsLead(n: nat)
    requires n > 0
    ensures |Digits(n)| > 0 && Digits(n)[0] != '0'
    ensures n >= 10 ==> |Digits(n)| >= 2
  {
    if n >= 10 { DigitsLead(n / 10); }
  }

  lemma {:induction false} DigitsDiffer(m: nat, n: nat)
    requires Digits(m) == Digits(n)
    ensures m == n
  {
    if m >= 10 { DigitsLead(m); DigitsLead(m / 10); }
    if n >= 10 { DigitsLead(n); DigitsLead(n / 10); }
    if m >= 10 && n >= 10 {
      var a, b := Digits(m), Digits(n);
      assert a[..|a| - 1] == Digits(m / 10) && b[..|b| - 1] == Digits(n / 10);
      assert a[|a| - 1] == b[|b| - 1];
      DigitsDiffer(m / 10, n / 10);
    } else if m < 10 && n < 10 {
      assert Digits(m)[0] == Digits(n)[0];
    }
  }

  /** Different numbers are different tables. */
  lemma TableNoUnique(m: nat, n: nat)
    ensures TableNo(m) == TableNo(n) <==> m == n
  {
    if m < 10 && n < 10 {
      assert TableNo(m)[2] == Digits(m)[0] && TableNo(n)[2] == Digits(n)[0];
    } else if m >= 10 && n >= 10 {
      assert TableNo(m)[1..] == Digits(m) && TableNo(n)[1..] == Digits(n);
      if Digits(m) == Digits(n) { DigitsDiffer(m, n); }
    } else {
      var big, small := Max(m, n), Min(m, n);
      DigitsLead(big);
      assert TableNo(small)[1] == '0' && TableNo(big)[1] == Digits(big)[0];
    }
  }

  function Value(digits: string): int {
    if digits == [] then 0 else 10 * Value(digits[..|digits| - 1]) + (digits[|digits| - 1] as int - '0' as int)
  }

  lemma {:induction false} DigitsRead(n: nat)
    ensures Value(Digits(n)) == n && Digits(n) != []
    ensures n < 100 ==> |Digits(n)| == if n < 10 then 1 else 2
  {
    if n < 10 {
      assert Digits(n)[..0] == [];
    } else {
      DigitsRead(n / 10);
      assert Digits(n)[..|Digits(n)| - 1] == Digits(n / 10);
    }
  }

  /** A table number is T and the number, padded to two digits. */
  lemma TableNoReads(n: nat)
    ensures |TableNo(n)| >= 3 && TableNo(n)[0] == 'T' && Value(TableNo(n)[1..]) == n
    ensures n < 100 ==> |TableNo(n)| == 3
  {
    DigitsRead(n);
    if n < 10 {
      assert TableNo(n)[1..] == ['0'] + Digits(n);
      assert (['0'] + Digits(n))[..1] == ['0'] && ['0'][..0] == [];
    } else {
      assert TableNo(n)[1..] == Digits(n);
      if |Digits(n)| < 2 { DigitsLead(n); }
    }
  }

  // ---------- The catalog ----------

  lemma {:induction false} CategoryIdsAre(rows: map<string, Category>, cs: seq<CategoryData>, name: string)
    ensures name in CategoryIds(rows, cs) <==> name in rows && exists i :: 0 <= i < |cs| && cs[i].name == name
    ensures name in CategoryIds(rows, cs) ==> CategoryIds(rows, cs)[name] == rows[name].id
  {
    if cs != [] {
      CategoryIdsAre(rows, cs[..|cs| - 1], name);
      assert forall i :: 0 <= i < |cs| - 1 ==> cs[..|cs| - 1][i] == cs[i];
    }
  }

  lemma {:induction false} FloorIdsAre(rows: map<string, Floor>, fs: seq<FloorData>, name: string)
    ensures name in FloorIds(rows, fs) <==> name in rows && exists i :: 0 <= i < |fs| && fs[i].name == name
    ensures name in FloorIds(rows, fs) ==> FloorIds(rows, fs)[name] == rows[name].id
  {
    if fs != [] {
      FloorIdsAre(rows, fs[..|fs| - 1], name);
      assert forall i :: 0 <= i < |fs| - 1 ==> fs[..|fs| - 1][i] == fs[i];
    }
  }

  /** After a run every configured dish, category, module, floor and user is there as
      configured, whatever was there before. */
  lemma CatalogAsConfigured(c: Catalog, cfg: Config, d: Draws, customerId: int, k: string)
    requires OneEntryPerUser(cfg)
    ensures var end := Seed(c, cfg, d, customerId);
            var dishes := MenuEntries(cfg.menu, CategoryIds(end.categories.rows, cfg.categories), cfg.nonVeg);
            && (HasKey(dishes, k) ==>
                  var e := Last(dishes, k);
                  && k in end.items.rows && end.items.rows[k].name == e.data.name && end.items.rows[k].price == e.data.price
                  && end.items.rows[k].costPrice == e.data.costPrice && end.items.rows[k].isAvailable && end.items.rows[k].isVeg == e.isVeg)
            && (HasKey(CategoryEntries(cfg.categories), k) ==>
                  var e := Last(CategoryEntries(cfg.categories), k);
                  && k in end.categories.rows && end.categories.rows[k].isActive
                  && end.categories.rows[k].color == e.data.color && end.categories.rows[k].icon == e.data.icon)
  {
    var end := Seed(c, cfg, d, customerId);
    var dishes := MenuEntries(cfg.menu, CategoryIds(end.categories.rows, cfg.categories), cfg.nonVeg);
    SeedsSettle(cfg, dishes, [], d);
    Settled(c.items, dishes, NewItem(d), SetItem, k);
    Settled(c.categories, CategoryEntries(cfg.categories), NewCategory, SetCategory, k);
  }

  lemma ModulesFloorsUsersAsConfigured(c: Catalog, cfg: Config, d: Draws, customerId: int, k: string)
    requires OneEntryPerUser(cfg)
    ensures var end := Seed(c, cfg, d, customerId);
            && (HasKey(ModuleEntries(cfg.modules), k) ==>
                  var e := Last(ModuleEntries(cfg.modules), k);
                  && k in end.modules.rows && end.modules.rows[k].isActive && end.modules.rows[k].name == e.name
                  && end.modules.rows[k].icon == e.icon && end.modules.rows[k].sortOrder == e.sortOrder)
            && (HasKey(FloorEntries(cfg.floors), k) ==>
                  k in end.floors.rows && end.floors.rows[k].sortOrder == Last(FloorEntries(cfg.floors), k).sortOrder)
            && (HasKey(UserEntries(cfg.users), k) ==> k in end.users.rows && end.users.rows[k].isActive)
            && HasRegular(end.customers)
  {
    SeedsSettle(cfg, [], [], d);
    Settled(c.modules, ModuleEntries(cfg.modules), NewModule, SetModule, k);
    Settled(c.floors, FloorEntries(cfg.floors), NewFloor, SetFloor, k);
    Settled(c.users, UserEntries(cfg.users), NewUser, SetUser, k);
    var end := Seed(c, cfg, d, customerId);
    if !HasRegular(c.customers) { assert end.customers[|c.customers|].regular; }
  }

  // ---------- Row by row ----------

  lemma {:induction false} LastMention<K, E>(entries: seq<(K, E)>, i: nat)
    requires i < |entries| && forall j :: i < j < |entries| ==> entries[j].0 != entries[i].0
    ensures HasKey(entries, entries[i].0) && Last(entries, entries[i].0) == entries[i].1
  {
    if i < |entries| - 1 {
      LastMention(entries[..|entries| - 1], i);
      KeySplits(entries, entries[i].0);
    }
  }

  predicate OnlyMention<K(==), E>(entries: seq<(K, E)>, i: nat)
    requires i < |entries|
  {
    forall j :: 0 <= j < |entries| && j != i ==> entries[j].0 != entries[i].0
  }

  /** A dish mentioned once: the configured name, prices and mark, available; everything
      else as it was, or for a new row its category, position, distinctions and draws. */
  lemma DishAsConfigured(c: Catalog, cfg: Config, d: Draws, customerId: int, s: nat, i: nat, k: nat)
    requires OneEntryPerUser(cfg) && s < |cfg.menu| && i < |cfg.menu[s].items|
    requires k < |cfg.categories| && cfg.categories[k].name == cfg.menu[s].category
    requires var dishes := MenuEntries(cfg.menu, CategoryIds(Seed(c, cfg, d, customerId).categories.rows, cfg.categories), cfg.nonVeg);
             forall j, n :: 0 <= j < n < |dishes| ==> dishes[j].0 != dishes[n].0
    ensures var end, dish := Seed(c, cfg, d, customerId), cfg.menu[s].items[i];
            var place := DishesIn(cfg.menu[..s], CategoryIds(end.categories.rows, cfg.categories)) + i;
            && dish.sku in end.items.rows && cfg.menu[s].category in end.categories.rows
            && var row := end.items.rows[dish.sku];
            if dish.sku in c.items.rows then
              row == c.items.rows[dish.sku].(name := dish.name, price := dish.price, costPrice := dish.costPrice,
                                             isAvailable := true, isVeg := dish.sku !in cfg.nonVeg)
            else
              row == Item(row.id, dish.name, dish.price, dish.costPrice, true, dish.sku !in cfg.nonVeg,
                          end.categories.rows[cfg.menu[s].category].id, i + 1, place < 10, 19 <= place < 30,
                          d.preparationTime(row.id), d.currentStock(row.id))
  {
    var end := Seed(c, cfg, d, customerId);
    var ids := CategoryIds(end.categories.rows, cfg.categories);
    var entries := MenuEntries(cfg.menu, ids, cfg.nonVeg);
    CategoryThere(c, cfg, d, customerId, k);
    CategoryIdsAre(end.categories.rows, cfg.categories, cfg.menu[s].category);
    var j := EveryDishListed(cfg.menu, ids, cfg.nonVeg, s, i);
    LastMention(entries, j);
    SeedsSettle(cfg, entries, [], d);
    Settled(c.items, entries, NewItem(d), SetItem, entries[j].0);
  }

  lemma CategoryThere(c: Catalog, cfg: Config, d: Draws, customerId: int, k: nat)
    requires OneEntryPerUser(cfg) && k < |cfg.categories|
    ensures cfg.categories[k].name in Seed(c, cfg, d, customerId).categories.rows
  {
    SeedsSettle(cfg, [], [], d);
    assert CategoryEntries(cfg.categories)[k].0 == cfg.categories[k].name;
    Settled(c.categories, CategoryEntries(cfg.categories), NewCategory, SetCategory, cfg.categories[k].name);
  }

  /** Categories: colour, icon and activity are set; the position only on creation. */
  lemma CategoryAsConfigured(c: Catalog, cfg: Config, d: Draws, customerId: int, i: nat)
    requires OneEntryPerUser(cfg) && i < |cfg.categories| && OnlyMention(CategoryEntries(cfg.categories), i)
    ensures var end, cat := Seed(c, cfg, d, customerId), cfg.categories[i];
            && cat.name in end.categories.rows
            && var row := end.categories.rows[cat.name];
            if cat.name in c.categories.rows then row == c.categories.rows[cat.name].(color := cat.color, icon := cat.icon, isActive := true)
            else row == Category(row.id, cat.color, cat.icon, true, i + 1)
  {
    LastMention(CategoryEntries(cfg.categories), i);
    SeedsSettle(cfg, [], [], d);
    Settled(c.categories, CategoryEntries(cfg.categories), NewCategory, SetCategory, cfg.categories[i].name);
  }

  lemma ModuleAndFloorAsConfigured(c: Catalog, cfg: Config, d: Draws, customerId: int, i: nat, j: nat)
    requires OneEntryPerUser(cfg) && i < |cfg.modules| && OnlyMention(ModuleEntries(cfg.modules), i)
    requires j < |cfg.floors| && OnlyMention(FloorEntries(cfg.floors), j)
    ensures var end, m, f := Seed(c, cfg, d, customerId), cfg.modules[i], cfg.floors[j];
            && m.key in end.modules.rows && f.name in end.floors.rows
            && end.modules.rows[m.key] == Module(end.modules.rows[m.key].id, m.name, m.icon, m.sortOrder, true)
            && end.floors.rows[f.name] == Floor(end.floors.rows[f.name].id, f.sortOrder)
            && (m.key in c.modules.rows ==> end.modules.rows[m.key].id == c.modules.rows[m.key].id)
            && (f.name in c.floors.rows ==> end.floors.rows[f.name].id == c.floors.rows[f.name].id)
  {
    LastMention(ModuleEntries(cfg.modules), i);
    LastMention(FloorEntries(cfg.floors), j);
    SeedsSettle(cfg, [], [], d);
    Settled(c.modules, ModuleEntries(cfg.modules), NewModule, SetModule, cfg.modules[i].key);
    Settled(c.floors, FloorEntries(cfg.floors), NewFloor, SetFloor, cfg.floors[j].name);
  }

  /** A table mentioned once: free, on the floor its range names, with its configured
      capacity or four; an existing one keeps its id. */
  lemma TableAsConfigured(c: Catalog, cfg: Config, d: Draws, customerId: int, t: nat, number: nat)
    requires OneEntryPerUser(cfg) && t < |cfg.tables| && cfg.tables[t].start <= number <= cfg.tables[t].end
    requires var plan := TableEntries(cfg.tables, FloorIds(Seed(c, cfg, d, customerId).floors.rows, cfg.floors));
             forall j, n :: 0 <= j < n < |plan| ==> plan[j].0 != plan[n].0
    ensures var end, range := Seed(c, cfg, d, customerId), cfg.tables[t];
            var i := number - range.start;
            && TableNo(number) in end.tables.rows
            && var row := end.tables.rows[TableNo(number)];
            && row.status == AVAILABLE
            && row.capacity == (if i < |range.capacities| && range.capacities[i] > 0 then range.capacities[i] else 4)
            && (forall f :: 0 <= f < |cfg.floors| && cfg.floors[f].name == range.floor ==>
                  range.floor in end.floors.rows && row.floorId == Some(end.floors.rows[range.floor].id))
            && ((forall f :: 0 <= f < |cfg.floors| ==> cfg.floors[f].name != range.floor) ==> row.floorId == None)
            && (TableNo(number) in c.tables.rows ==> row.id == c.tables.rows[TableNo(number)].id)
  {
    var end := Seed(c, cfg, d, customerId);
    var ids := FloorIds(end.floors.rows, cfg.floors);
    var plan := TableEntries(cfg.tables, ids);
    FloorIdsAre(end.floors.rows, cfg.floors, cfg.tables[t].floor);
    forall f | 0 <= f < |cfg.floors| ensures cfg.floors[f].name in end.floors.rows {
      assert FloorEntries(cfg.floors)[f].0 == cfg.floors[f].name;
      SeedsSettle(cfg, [], plan, d);
      Settled(c.floors, FloorEntries(cfg.floors), NewFloor, SetFloor, cfg.floors[f].name);
    }
    var j := EveryTableListed(cfg.tables, ids, t, number);
    LastMention(plan, j);
    SeedsSettle(cfg, [], plan, d);
    Settled(c.tables, plan, NewTable, SetTable, TableNo(number));
  }

  /** Users: an existing one is only made active, and given a phone where the seeder sets
      it; a new one is as configured. */
  lemma UserAsConfigured(c: Catalog, cfg: Config, d: Draws, customerId: int, i: nat)
    requires OneEntryPerUser(cfg) && i < |cfg.users|
    ensures var end, u := Seed(c, cfg, d, customerId), cfg.users[i];
            && u.email in end.users.rows
            && var row := end.users.rows[u.email];
            if u.email in c.users.rows then
              row == c.users.rows[u.email].(isActive := true, phone := if u.setsPhone then u.phone else c.users.rows[u.email].phone)
            else row == User(row.id, u.name, u.role, u.phone, true)
  {
    LastMention(UserEntries(cfg.users), i);
    SeedsSettle(cfg, [], [], d);
    Settled(c.users, UserEntries(cfg.users), NewUser, SetUser, cfg.users[i].email);
  }
}

/** The catalog part of the seeder: modules, categories, menu, floors, tables, users and
    the regular customer.  Random draws and row ids are whatever the creating functions
    say, and differ from run to run. */
module SeedCatalog {
  import opened Prelude
  import opened Upserts

  datatype Module = Module(id: int, name: string, icon: string, sortOrder: int, isActive: bool)
  datatype Category = Category(id: int, color: string, icon: string, isActive: bool, sortOrder: int)
  datatype Item = Item(
    id: int, name: string, price: int, costPrice: int, isAvailable: bool, isVeg: bool,
    categoryId: int, displayOrder: int, isFeatured: bool, isRecommended: bool, preparationTime: int, currentStock: int)
  datatype Floor = Floor(id: int, sortOrder: int)
  datatype TableStatus = AVAILABLE | OCCUPIED | RESERVED
  datatype Seating = Seating(id: int, capacity: int, status: TableStatus, floorId: Option<int>)
  datatype User = User(id: int, name: string, role: string, phone: string, isActive: bool)
  datatype Customer = Customer(id: int, regular: bool)

  datatype Catalog = Catalog(
    modules: Table<string, Module>,
    categories: Table<string, Category>,
    items: Table<string, Item>,
    floors: Table<string, Floor>,
    tables: Table<string, Seating>,
    users: Table<string, User>,
    customers: seq<Customer>)

  // ---------- Configuration ----------

  datatype ModuleData = ModuleData(key: string, name: string, icon: string, sortOrder: int)
  datatype CategoryData = CategoryData(name: string, color: string, icon: string)
  datatype ItemData = ItemData(sku: string, name: string, price: int, costPrice: int)
  datatype MenuSection = MenuSection(category: string, items: seq<ItemData>)
  datatype FloorData = FloorData(name: string, sortOrder: int)
  datatype TableData = TableData(floor: string, start: nat, end: nat, capacities: seq<nat>)
  datatype UserData = UserData(email: string, name: string, role: string, phone: string, setsPhone: bool)

  datatype Config = Config(
    modules: seq<ModuleData>, categories: seq<CategoryData>, menu: seq<MenuSection>, nonVeg: set<string>,
    floors: seq<FloorData>, tables: seq<TableData>, users: seq<UserData>)

  /** What a run draws at random for a new item, by the id the item gets. */
  datatype Draws = Draws(preparationTime: int -> int, currentStock: int -> int)

  // ---------- Entries ----------

  datatype CategoryEntry = CategoryEntry(data: CategoryData, sortOrder: int)
  datatype ItemEntry = ItemEntry(data: ItemData, isVeg: bool, categoryId: int, displayOrder: int, isFeatured: bool, isRecommended: bool)
  datatype TableEntry = TableEntry(capacity: int, floorId: Option<int>)

  function ModuleEntries(ms: seq<ModuleData>): seq<(string, ModuleData)> { seq(|ms|, i requires 0 <= i < |ms| => (ms[i].key, ms[i])) }

  function CategoryEntries(cs: seq<CategoryData>): seq<(string, CategoryEntry)> {
    seq(|cs|, i requires 0 <= i < |cs| => (cs[i].name, CategoryEntry(cs[i], i + 1)))
  }

  function FloorEntries(fs: seq<FloorData>): seq<(string, FloorData)> { seq(|fs|, i requires 0 <= i < |fs| => (fs[i].name, fs[i])) }

  function UserEntries(us: seq<UserData>): seq<(string, UserData)> { seq(|us|, i requires 0 <= i < |us| => (us[i].email, us[i])) }

  function ItemEntryAt(section: MenuSection, i: nat, counter: nat, categoryId: int, nonVeg: set<string>): (string, ItemEntry)
    requires i < |section.items|
  {
    var item := section.items[i];
    (item.sku, ItemEntry(item, item.sku !in nonVeg, categoryId, i + 1, counter + i + 1 <= 10, 20 <= counter + i + 1 <= 30))
  }

  function SectionEntries(section: MenuSection, n: nat, counter: nat, categoryId: int, nonVeg: set<string>): (es: seq<(string, ItemEntry)>)
    requires n <= |section.items|
    ensures |es| == n
  {
    if n == 0 then []
    else SectionEntries(section, n - 1, counter, categoryId, nonVeg) + [ItemEntryAt(section, n - 1, counter, categoryId, nonVeg)]
  }

  /** Sections whose category is unknown are skipped and not counted. */
  function MenuEntries(menu: seq<MenuSection>, categoryIds: map<string, int>, nonVeg: set<string>): seq<(string, ItemEntry)> {
    if menu == [] then []
    else
      var before, section := MenuEntries(menu[..|menu| - 1], categoryIds, nonVeg), menu[|menu| - 1];
      if section.category !in categoryIds then before
      else before + SectionEntries(section, |section.items|, |before|, categoryIds[section.category], nonVeg)
  }

  function Digits(n: nat): string {
    if n < 10 then [(n as char) + '0'] else Digits(n / 10) + [((n % 10) as char) + '0']
  }

  function TableNo(i: nat): string { "T" + (if i < 10 then "0" else "") + Digits(i) }

  /** A missing or zero capacity counts as four. */
  function CapacityAt(data: TableData, i: nat): int {
    if i < |data.capacities| && data.capacities[i] != 0 then data.capacities[i] else 4
  }

  function RowEntries(data: TableData, n: nat, floorIds: map<string, int>): seq<(string, TableEntry)> {
    if n == 0 then []
    else
      var floorId := if data.floor in floorIds then Some(floorIds[data.floor]) else None;
      RowEntries(data, n - 1, floorIds) + [(TableNo(data.start + n - 1), TableEntry(CapacityAt(data, n - 1), floorId))]
  }

  function RowCount(data: TableData): nat { if data.end < data.start then 0 else data.end - data.start + 1 }

  function TableEntries(tables: seq<TableData>, floorIds: map<string, int>): seq<(string, TableEntry)> {
    if tables == [] then []
    else TableEntries(tables[..|tables| - 1], floorIds) + RowEntries(tables[|tables| - 1], RowCount(tables[|tables| - 1]), floorIds)
  }

  function Names(es: seq<(string, TableEntry)>): seq<string> {
    if es == [] then [] else Names(es[..|es| - 1]) + [es[|es| - 1].0]
  }

  lemma {:induction false} NamesAppend(a: seq<(string, TableEntry)>, b: seq<(string, TableEntry)>)
    ensures Names(a + b) == Names(a) + Names(b)
  {
    if b == [] {
      assert a + b == a;
    } else {
      assert (a + b)[..|a + b| - 1] == a + b[..|b| - 1];
      NamesAppend(a, b[..|b| - 1]);
    }
  }

  lemma RowNext(data: TableData, n: nat, floorIds: map<string, int>, floorId: Option<int>)
    requires floorId == if data.floor in floorIds then Some(floorIds[data.floor]) else None
    ensures RowEntries(data, n + 1, floorIds)
            == RowEntries(data, n, floorIds) + [(TableNo(data.start + n), TableEntry(CapacityAt(data, n), floorId))]
    ensures Names(RowEntries(data, n + 1, floorIds)) == Names(RowEntries(data, n, floorIds)) + [TableNo(data.start + n)]
  {
    var row := (TableNo(data.start + n), TableEntry(CapacityAt(data, n), floorId));
    NamesAppend(RowEntries(data, n, floorIds), [row]);
    assert [row][..0] == [];
  }

  lemma RowSeeded(t: Table<string, Seating>, data: TableData, n: nat, floorIds: map<string, int>, floorId: Option<int>)
    requires floorId == if data.floor in floorIds then Some(floorIds[data.floor]) else None
    ensures UpsertAll(t, RowEntries(data, n + 1, floorIds), NewTable, SetTable)
            == Upsert(UpsertAll(t, RowEntries(data, n, floorIds), NewTable, SetTable),
                      TableNo(data.start + n), TableEntry(CapacityAt(data, n), floorId), NewTable, SetTable)
    ensures Names(RowEntries(data, n + 1, floorIds)) == Names(RowEntries(data, n, floorIds)) + [TableNo(data.start + n)]
  {
    RowNext(data, n, floorIds, floorId);
    UpsertNext(t, RowEntries(data, n, floorIds), TableNo(data.start + n), TableEntry(CapacityAt(data, n), floorId), NewTable, SetTable);
  }

  lemma ItemSeeded(t: Table<string, Item>, section: MenuSection, i: nat, counter: nat, categoryId: int, nonVeg: set<string>, d: Draws)
    requires i < |section.items|
    ensures var (sku, entry) := ItemEntryAt(section, i, counter, categoryId, nonVeg);
            UpsertAll(t, SectionEntries(section, i + 1, counter, categoryId, nonVeg), NewItem(d), SetItem)
            == Upsert(UpsertAll(t, SectionEntries(section, i, counter, categoryId, nonVeg), NewItem(d), SetItem), sku, entry, NewItem(d), SetItem)
  {
    var (sku, entry) := ItemEntryAt(section, i, counter, categoryId, nonVeg);
    UpsertNext(t, SectionEntries(section, i, counter, categoryId, nonVeg), sku, entry, NewItem(d), SetItem);
  }

  // ---------- Creates and updates ----------

  function NewModule(id: int, e: ModuleData): Module { Module(id, e.name, e.icon, e.sortOrder, true) }

  function SetModule(e: ModuleData, r: Module): Module { r.(name := e.name, icon := e.icon, sortOrder := e.sortOrder, isActive := true) }

  function NewCategory(id: int, e: CategoryEntry): Category { Category(id, e.data.color, e.data.icon, true, e.sortOrder) }

  function SetCategory(e: CategoryEntry, r: Category): Category { r.(color := e.data.color, icon := e.data.icon, isActive := true) }

  function NewItem(d: Draws): (int, ItemEntry) -> Item {
    (id: int, e: ItemEntry) => Item(id, e.data.name, e.data.price, e.data.costPrice, true, e.isVeg, e.categoryId, e.displayOrder,
                                    e.isFeatured, e.isRecommended, d.preparationTime(id), d.currentStock(id))
  }

  function SetItem(e: ItemEntry, r: Item): Item {
    r.(name := e.data.name, price := e.data.price, costPrice := e.data.costPrice, isAvailable := true, isVeg := e.isVeg)
  }

  function NewFloor(id: int, e: FloorData): Floor { Floor(id, e.sortOrder) }

  function SetFloor(e: FloorData, r: Floor): Floor { r.(sortOrder := e.sortOrder) }

  function NewTable(id: int, e: TableEntry): Seating { Seating(id, e.capacity, AVAILABLE, e.floorId) }

  function SetTable(e: TableEntry, r: Seating): Seating { r.(capacity := e.capacity, status := AVAILABLE, floorId := e.floorId) }

  function NewUser(id: int, e: UserData): User { User(id, e.name, e.role, e.phone, true) }

  function SetUser(e: UserData, r: User): User { r.(isActive := true, phone := if e.setsPhone then e.phone else r.phone) }

  /** The ids noted while the loop runs, by name. */
  function CategoryIds(rows: map<string, Category>, cs: seq<CategoryData>): map<string, int> {
    if cs == [] then map[]
    else
      var before, name := CategoryIds(rows, cs[..|cs| - 1]), cs[|cs| - 1].name;
      if name in rows then before[name := rows[name].id] else before
  }

  function FloorIds(rows: map<string, Floor>, fs: seq<FloorData>): map<string, int> {
    if fs == [] then map[]
    else
      var before, name := FloorIds(rows, fs[..|fs| - 1]), fs[|fs| - 1].name;
      if name in rows then before[name := rows[name].id] else before
  }

  lemma {:induction false} SameCategoryIds(a: map<string, Category>, b: map<string, Category>, cs: seq<CategoryData>)
    requires forall i :: 0 <= i < |cs| ==> cs[i].name in a && cs[i].name in b && a[cs[i].name] == b[cs[i].name]
    ensures CategoryIds(a, cs) == CategoryIds(b, cs)
  {
    if cs != [] { SameCategoryIds(a, b, cs[..|cs| - 1]); }
  }

  lemma {:induction false} SameFloorIds(a: map<string, Floor>, b: map<string, Floor>, fs: seq<FloorData>)
    requires forall i :: 0 <= i < |fs| ==> fs[i].name in a && fs[i].name in b && a[fs[i].name] == b[fs[i].name]
    ensures FloorIds(a, fs) == FloorIds(b, fs)
  {
    if fs != [] { SameFloorIds(a, b, fs[..|fs| - 1]); }
  }

  predicate HasRegular(cs: seq<Customer>) { exists i :: 0 <= i < |cs| && cs[i].regular }

  function EnsureRegular(cs: seq<Customer>, id: int): seq<Customer> { if HasRegular(cs) then cs else cs + [Customer(id, true)] }

  function Seed(c: Catalog, cfg: Config, d: Draws, customerId: int): Catalog {
    var categories := UpsertAll(c.categories, CategoryEntries(cfg.categories), NewCategory, SetCategory);
    var floors := UpsertAll(c.floors, FloorEntries(cfg.floors), NewFloor, SetFloor);
    Catalog(
      UpsertAll(c.modules, ModuleEntries(cfg.modules), NewModule, SetModule),
      categories,
      UpsertAll(c.items, MenuEntries(cfg.menu, CategoryIds(categories.rows, cfg.categories), cfg.nonVeg), NewItem(d), SetItem),
      floors,
      UpsertAll(c.tables, TableEntries(cfg.tables, FloorIds(floors.rows, cfg.floors)), NewTable, SetTable),
      UpsertAll(c.users, UserEntries(cfg.users), NewUser, SetUser),
      EnsureRegular(c.customers, customerId))
  }

  /** Since the first run the seeded rows stayed and differ at most in fields that the
      seeder itself sets: names, prices, colours, availability, table status, seating
      plan, activity flags.  Rows of others, their number and new customers are free. */
  ghost predicate OnlySeededFieldsDiffer(c': Catalog, c: Catalog, cfg: Config) {
    && OnlyUpdatedFieldsDiffer(c'.modules, c.modules, ModuleEntries(cfg.modules), SetModule)
    && OnlyUpdatedFieldsDiffer(c'.categories, c.categories, CategoryEntries(cfg.categories), SetCategory)
    && OnlyUpdatedFieldsDiffer(c'.items, c.items, MenuEntries(cfg.menu, CategoryIds(c.categories.rows, cfg.categories), cfg.nonVeg), SetItem)
    && OnlyUpdatedFieldsDiffer(c'.floors, c.floors, FloorEntries(cfg.floors), SetFloor)
    && OnlyUpdatedFieldsDiffer(c'.tables, c.tables, TableEntries(cfg.tables, FloorIds(c.floors.rows, cfg.floors)), SetTable)
    && OnlyUpdatedFieldsDiffer(c'.users, c.users, UserEntries(cfg.users), SetUser)
    && HasRegular(c'.customers)
  }

  /** Every seeded row is as in `c`, everything else as in `c'`. */
  ghost predicate CatalogRestored(end: Catalog, c: Catalog, c': Catalog, cfg: Config) {
    && RestoredFrom(end.modules, c.modules, c'.modules, ModuleEntries(cfg.modules))
    && RestoredFrom(end.categories, c.categories, c'.categories, CategoryEntries(cfg.categories))
    && RestoredFrom(end.items, c.items, c'.items, MenuEntries(cfg.menu, CategoryIds(c.categories.rows, cfg.categories), cfg.nonVeg))
    && RestoredFrom(end.floors, c.floors, c'.floors, FloorEntries(cfg.floors))
    && RestoredFrom(end.tables, c.tables, c'.tables, TableEntries(cfg.tables, FloorIds(c.floors.rows, cfg.floors)))
    && RestoredFrom(end.users, c.users, c'.users, UserEntries(cfg.users))
    && end.customers == c'.customers
  }

  ghost predicate OneEntryPerUser(cfg: Config) {
    forall i, j :: 0 <= i < j < |cfg.users| ==> cfg.users[i].email != cfg.users[j].email
  }

  lemma SeedsSettle(cfg: Config, items: seq<(string, ItemEntry)>, tables: seq<(string, TableEntry)>, d: Draws)
    requires OneEntryPerUser(cfg)
    ensures Overwrites(ModuleEntries(cfg.modules), SetModule) && Settles(ModuleEntries(cfg.modules), NewModule, SetModule)
    ensures Overwrites(CategoryEntries(cfg.categories), SetCategory) && Settles(CategoryEntries(cfg.categories), NewCategory, SetCategory)
    ensures Overwrites(items, SetItem) && Settles(items, NewItem(d), SetItem)
    ensures Overwrites(FloorEntries(cfg.floors), SetFloor) && Settles(FloorEntries(cfg.floors), NewFloor, SetFloor)
    ensures Overwrites(tables, SetTable) && Settles(tables, NewTable, SetTable)
    ensures Overwrites(UserEntries(cfg.users), SetUser) && Settles(UserEntries(cfg.users), NewUser, SetUser)
  {
    var us := UserEntries(cfg.users);
    forall i, j, r | 0 <= i <= j < |us| && us[i].0 == us[j].0
      ensures SetUser(us[j].1, SetUser(us[i].1, r)) == SetUser(us[j].1, r)
    {
      assert i == j;
    }
  }

  lemma IdsRestored(c: Catalog, cfg: Config, d: Draws, customerId: int, c': Catalog, d': Draws, customerId': int)
    requires OneEntryPerUser(cfg)
    requires OnlySeededFieldsDiffer(c', Seed(c, cfg, d, customerId), cfg)
    ensures var once, twice := Seed(c, cfg, d, customerId), Seed(c', cfg, d', customerId');
            && RestoredFrom(twice.categories, once.categories, c'.categories, CategoryEntries(cfg.categories))
            && RestoredFrom(twice.floors, once.floors, c'.floors, FloorEntries(cfg.floors))
            && CategoryIds(twice.categories.rows, cfg.categories) == CategoryIds(once.categories.rows, cfg.categories)
            && FloorIds(twice.floors.rows, cfg.floors) == FloorIds(once.floors.rows, cfg.floors)
  {
    var once, twice := Seed(c, cfg, d, customerId), Seed(c', cfg, d', customerId');
    SeedsSettle(cfg, [], [], d);
    Reseeded(c.categories, CategoryEntries(cfg.categories), NewCategory, NewCategory, SetCategory, c'.categories);
    Reseeded(c.floors, FloorEntries(cfg.floors), NewFloor, NewFloor, SetFloor, c'.floors);
    forall i | 0 <= i < |cfg.categories|
      ensures cfg.categories[i].name in once.categories.rows && cfg.categories[i].name in twice.categories.rows
              && once.categories.rows[cfg.categories[i].name] == twice.categories.rows[cfg.categories[i].name]
    {
      assert CategoryEntries(cfg.categories)[i].0 == cfg.categories[i].name;
      assert HasKey(CategoryEntries(cfg.categories), cfg.categories[i].name);
      Settled(c.categories, CategoryEntries(cfg.categories), NewCategory, SetCategory, cfg.categories[i].name);
    }
    SameCategoryIds(twice.categories.rows, once.categories.rows, cfg.categories);
    forall i | 0 <= i < |cfg.floors|
      ensures cfg.floors[i].name in once.floors.rows && cfg.floors[i].name in twice.floors.rows
              && once.floors.rows[cfg.floors[i].name] == twice.floors.rows[cfg.floors[i].name]
    {
      assert FloorEntries(cfg.floors)[i].0 == cfg.floors[i].name;
      assert HasKey(FloorEntries(cfg.floors), cfg.floors[i].name);
      Settled(c.floors, FloorEntries(cfg.floors), NewFloor, SetFloor, cfg.floors[i].name);
    }
    SameFloorIds(twice.floors.rows, once.floors.rows, cfg.floors);
  }

  /** Seeding again restores the seeded catalog: from any database and any configuration
      with one entry per user, a later run with other random draws gives every seeded row
      what the first run gave it, undoing whatever happened in between to the fields it
      sets, and touches and creates nothing else. */
  lemma SeedingAgainRestores(c: Catalog, cfg: Config, d: Draws, customerId: int, c': Catalog, d': Draws, customerId': int)
    requires OneEntryPerUser(cfg)
    requires OnlySeededFieldsDiffer(c', Seed(c, cfg, d, customerId), cfg)
    ensures CatalogRestored(Seed(c', cfg, d', customerId'), Seed(c, cfg, d, customerId), c', cfg)
  {
    var once := Seed(c, cfg, d, customerId);
    var items := MenuEntries(cfg.menu, CategoryIds(once.categories.rows, cfg.categories), cfg.nonVeg);
    var tables := TableEntries(cfg.tables, FloorIds(once.floors.rows, cfg.floors));
    IdsRestored(c, cfg, d, customerId, c', d', customerId');
    SeedsSettle(cfg, items, tables, d);
    Reseeded(c.modules, ModuleEntries(cfg.modules), NewModule, NewModule, SetModule, c'.modules);
    Reseeded(c.items, items, NewItem(d), NewItem(d'), SetItem, c'.items);
    Reseeded(c.tables, tables, NewTable, NewTable, SetTable, c'.tables);
    Reseeded(c.users, UserEntries(cfg.users), NewUser, NewUser, SetUser, c'.users);
  }

  lemma RegularStays(c: Catalog, cfg: Config, d: Draws, customerId: int)
    ensures HasRegular(Seed(c, cfg, d, customerId).customers)
  {
    if !HasRegular(c.customers) { assert Seed(c, cfg, d, customerId).customers[|c.customers|].regular; }
  }

  /** Seeding twice is seeding once, whatever the second run draws. */
  lemma SeedingAgainChangesNothing(c: Catalog, cfg: Config, d: Draws, customerId: int, d': Draws, customerId': int)
    requires OneEntryPerUser(cfg)
    ensures Seed(Seed(c, cfg, d, customerId), cfg, d', customerId') == Seed(c, cfg, d, customerId)
  {
    var once := Seed(c, cfg, d, customerId);
    var twice := Seed(once, cfg, d', customerId');
    RegularStays(c, cfg, d, customerId);
    SeedingAgainRestores(c, cfg, d, customerId, once, d', customerId');
    SameAgain(twice.modules, once.modules, ModuleEntries(cfg.modules));
    SameAgain(twice.categories, once.categories, CategoryEntries(cfg.categories));
    SameAgain(twice.items, once.items, MenuEntries(cfg.menu, CategoryIds(once.categories.rows, cfg.categories), cfg.nonVeg));
    SameAgain(twice.floors, once.floors, FloorEntries(cfg.floors));
    SameAgain(twice.tables, once.tables, TableEntries(cfg.tables, FloorIds(once.floors.rows, cfg.floors)));
    SameAgain(twice.users, once.users, UserEntries(cfg.users));
  }

  /** In particular after orders were taken: table status is free to differ. */
  lemma StatusesDoNotMatter(once: Table<string, Seating>, since: Table<string, Seating>, entries: seq<(string, TableEntry)>)
    requires forall k :: k in once.rows ==> k in since.rows && since.rows[k] == once.rows[k].(status := since.rows[k].status)
    ensures OnlyUpdatedFieldsDiffer(since, once, entries, SetTable)
  {}

  /** Every table of the plan exists after seeding, free, on its floor, with the capacity
      of its last mention. */
  lemma SeatedAsPlanned(c: Catalog, cfg: Config, d: Draws, customerId: int, k: string)
    requires OneEntryPerUser(cfg)
    ensures var end := Seed(c, cfg, d, customerId);
            var plan := TableEntries(cfg.tables, FloorIds(end.floors.rows, cfg.floors));
            && (HasKey(plan, k) ==>
                  && k in end.tables.rows && end.tables.rows[k].status.AVAILABLE?
                  && end.tables.rows[k].capacity == Last(plan, k).capacity && end.tables.rows[k].floorId == Last(plan, k).floorId)
            && (!HasKey(plan, k) ==> (k in end.tables.rows <==> k in c.tables.rows))
  {
    var end := Seed(c, cfg, d, customerId);
    var plan := TableEntries(cfg.tables, FloorIds(end.floors.rows, cfg.floors));
    SeedsSettle(cfg, [], plan, d);
    Settled(c.tables, plan, NewTable, SetTable, k);
  }

  // ---------- The program ----------

  class Seeder {
    var modules: Table<string, Module>
    var categories: Table<string, Category>
    var items: Table<string, Item>
    var floors: Table<string, Floor>
    var tables: Table<string, Seating>
    var users: Table<string, User>
    var customers: seq<Customer>

    function Tables(): Catalog
      reads this
    {
      Catalog(modules, categories, items, floors, tables, users, customers)
    }

    method SeedCategories(cs: seq<CategoryData>) returns (ids: map<string, int>)
      modifies this`categories
      ensures categories == UpsertAll(old(categories), CategoryEntries(cs), NewCategory, SetCategory)
      ensures ids == CategoryIds(categories.rows, cs)
    {
      categories := UpsertEach(categories, CategoryEntries(cs), NewCategory, SetCategory);
      ids := map[];
      for i := 0 to |cs|
        invariant ids == CategoryIds(categories.rows, cs[..i])
      {
        assert cs[..i + 1][..i] == cs[..i];
        if cs[i].name in categories.rows { ids := ids[cs[i].name := categories.rows[cs[i].name].id]; }
      }
      assert cs[..|cs|] == cs;
    }

    method SeedFloors(fs: seq<FloorData>) returns (ids: map<string, int>)
      modifies this`floors
      ensures floors == UpsertAll(old(floors), FloorEntries(fs), NewFloor, SetFloor)
      ensures ids == FloorIds(floors.rows, fs)
    {
      floors := UpsertEach(floors, FloorEntries(fs), NewFloor, SetFloor);
      ids := map[];
      for i := 0 to |fs|
        invariant ids == FloorIds(floors.rows, fs[..i])
      {
        assert fs[..i + 1][..i] == fs[..i];
        if fs[i].name in floors.rows { ids := ids[fs[i].name := floors.rows[fs[i].name].id]; }
      }
      assert fs[..|fs|] == fs;
    }

    method UpsertItem(sku: string, entry: ItemEntry, d: Draws)
      modifies this`items
      ensures items == Upsert(old(items), sku, entry, NewItem(d), SetItem)
    {
      if sku in items.rows {
        items := items.(rows := items.rows[sku := SetItem(entry, items.rows[sku])]);
      } else {
        var create := NewItem(d);
        items := Table(items.rows[sku := create(items.next, entry)], items.next + 1);
      }
    }

    method SeedItem(section: MenuSection, i: nat, itemCounter: nat, ghost counter: nat, categoryId: int, nonVeg: set<string>, d: Draws)
      requires i < |section.items| && itemCounter == counter + i + 1
      modifies this`items
      ensures var (sku, entry) := ItemEntryAt(section, i, counter, categoryId, nonVeg);
              items == Upsert(old(items), sku, entry, NewItem(d), SetItem)
    {
      var item := section.items[i];
      UpsertItem(item.sku, ItemEntry(item, item.sku !in nonVeg, categoryId, i + 1, itemCounter <= 10, 20 <= itemCounter <= 30), d);
    }

    method SeedSection(section: MenuSection, counter: nat, categoryId: int, nonVeg: set<string>, d: Draws)
      modifies this`items
      ensures items == UpsertAll(old(items), SectionEntries(section, |section.items|, counter, categoryId, nonVeg), NewItem(d), SetItem)
    {
      var itemCounter := counter;
      for i := 0 to |section.items|
        invariant items == UpsertAll(old(items), SectionEntries(section, i, counter, categoryId, nonVeg), NewItem(d), SetItem)
        invariant itemCounter == counter + i
      {
        itemCounter := itemCounter + 1;
        ItemSeeded(old(items), section, i, counter, categoryId, nonVeg, d);
        SeedItem(section, i, itemCounter, counter, categoryId, nonVeg, d);
      }
    }

    method SeedMenu(menu: seq<MenuSection>, categoryIds: map<string, int>, nonVeg: set<string>, d: Draws) returns (itemCounter: nat)
      modifies this`items
      ensures items == UpsertAll(old(items), MenuEntries(menu, categoryIds, nonVeg), NewItem(d), SetItem)
      ensures itemCounter == |MenuEntries(menu, categoryIds, nonVeg)|
    {
      itemCounter := 0;
      for s := 0 to |menu|
        invariant items == UpsertAll(old(items), MenuEntries(menu[..s], categoryIds, nonVeg), NewItem(d), SetItem)
        invariant itemCounter == |MenuEntries(menu[..s], categoryIds, nonVeg)|
      {
        assert menu[..s + 1][..s] == menu[..s];
        if menu[s].category in categoryIds {
          var categoryId := categoryIds[menu[s].category];
          UpsertAppend(old(items), MenuEntries(menu[..s], categoryIds, nonVeg),
                       SectionEntries(menu[s], |menu[s].items|, itemCounter, categoryId, nonVeg), NewItem(d), SetItem);
          SeedSection(menu[s], itemCounter, categoryId, nonVeg, d);
          itemCounter := itemCounter + |menu[s].items|;
        }
      }
      assert menu[..|menu|] == menu;
    }

    method UpsertTable(tableNo: string, entry: TableEntry)
      modifies this`tables
      ensures tables == Upsert(old(tables), tableNo, entry, NewTable, SetTable)
    {
      if tableNo in tables.rows {
        tables := tables.(rows := tables.rows[tableNo := SetTable(entry, tables.rows[tableNo])]);
      } else {
        tables := Table(tables.rows[tableNo := NewTable(tables.next, entry)], tables.next + 1);
      }
    }

    method SeedFloorTables(cfg: TableData, floorIds: map<string, int>) returns (names: seq<string>)
      modifies this`tables
      ensures tables == UpsertAll(old(tables), RowEntries(cfg, RowCount(cfg), floorIds), NewTable, SetTable)
      ensures names == Names(RowEntries(cfg, RowCount(cfg), floorIds))
    {
      names := [];
      var floorId := if cfg.floor in floorIds then Some(floorIds[cfg.floor]) else None;
      var n := 0;
      while cfg.start + n <= cfg.end
        invariant n <= RowCount(cfg)
        invariant tables == UpsertAll(old(tables), RowEntries(cfg, n, floorIds), NewTable, SetTable)
        invariant names == Names(RowEntries(cfg, n, floorIds))
        decreases cfg.end + 1 - cfg.start - n
      {
        var tableNo := TableNo(cfg.start + n);
        var entry := TableEntry(CapacityAt(cfg, n), floorId);
        RowSeeded(old(tables), cfg, n, floorIds, floorId);
        UpsertTable(tableNo, entry);
        names := names + [tableNo];
        n := n + 1;
      }
    }

    method SeedTables(data: seq<TableData>, floorIds: map<string, int>) returns (allTables: seq<string>)
      modifies this`tables
      ensures tables == UpsertAll(old(tables), TableEntries(data, floorIds), NewTable, SetTable)
      ensures allTables == Names(TableEntries(data, floorIds))
    {
      allTables := [];
      for c := 0 to |data|
        invariant tables == UpsertAll(old(tables), TableEntries(data[..c], floorIds), NewTable, SetTable)
        invariant allTables == Names(TableEntries(data[..c], floorIds))
      {
        assert data[..c + 1][..c] == data[..c];
        UpsertAppend(old(tables), TableEntries(data[..c], floorIds), RowEntries(data[c], RowCount(data[c]), floorIds), NewTable, SetTable);
        NamesAppend(TableEntries(data[..c], floorIds), RowEntries(data[c], RowCount(data[c]), floorIds));
        var names := SeedFloorTables(data[c], floorIds);
        allTables := allTables + names;
      }
      assert data[..|data|] == data;
    }

    method EnsureRegularCustomer(id: int)
      modifies this`customers
      ensures customers == EnsureRegular(old(customers), id)
    {
      for i := 0 to |customers|
        invariant customers == old(customers) && !HasRegular(customers[..i])
      {
        assert forall j :: 0 <= j < |customers[..i + 1]| ==> customers[..i + 1][j] == customers[j];
        if customers[i].regular { return; }
      }
      assert customers[..|customers|] == customers;
      customers := customers + [Customer(id, true)];
    }

    /** The catalog part of the program, in its order. */
    method SeedAll(cfg: Config, d: Draws, customerId: int) returns (itemCounter: nat, allTables: seq<string>)
      modifies this
      ensures Tables() == Seed(old(Tables()), cfg, d, customerId)
      ensures itemCounter == |MenuEntries(cfg.menu, CategoryIds(categories.rows, cfg.categories), cfg.nonVeg)|
      ensures allTables == Names(TableEntries(cfg.tables, FloorIds(floors.rows, cfg.floors)))
    {
      modules := UpsertEach(modules, ModuleEntries(cfg.modules), NewModule, SetModule);
      var categoryMap := SeedCategories(cfg.categories);
      itemCounter := SeedMenu(cfg.menu, categoryMap, cfg.nonVeg, d);
      var floorMap := SeedFloors(cfg.floors);
      allTables := SeedTables(cfg.tables, floorMap);
      users := UpsertEach(users, UserEntries(cfg.users), NewUser, SetUser);
      EnsureRegularCustomer(customerId);
    }
  }
}

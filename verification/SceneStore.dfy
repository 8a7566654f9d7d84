/** The bundled scene store: every SKU's catalog laid out over one sorted pool (tools/fetch_scenes.py `layout`), read
    back (`read_store`), and checked by the loader (scenes/__init__.py `_catalogs`). An entry is its canonical JSON
    text; which texts are valid entries, and which SKUs and scene-set keys are well formed, are parameters. */
module SceneStore {
  import opened Basics
  import opened Sorting

  type Text = string

  /** A pool entry: an entry with its scene's name. */
  datatype Full = Full(name: Text, entry: Text)

  predicate FullLess(a: Full, b: Full) {
    TextLess(a.name, b.name) || (a.name == b.name && TextLess(a.entry, b.entry))
  }

  /** A catalog scene: its entry, and at each scene set where it differs, None (hidden) or the entry it plays. */
  datatype Scene = Scene(entry: Text, bySet: map<Text, Option<Text>>)

  type Catalog = map<Text, Scene>

  type Overrides = map<Text, map<Text, Option<nat>>>

  datatype Store = Store(pool: seq<Full>, skus: map<Text, seq<nat>>, bySet: map<Text, Overrides>)

  /** The shared checks of the tool and the loader (`_validate_entry`, the SKU pattern, `_canonical`). */
  datatype Checks = Checks(entry: (Text, Text) -> bool, sku: Text -> bool, setKey: Text -> bool)

  lemma FullOrder()
    ensures TotalOrder(FullLess)
  {
    TextOrder();
    forall a, b | a != b ensures FullLess(a, b) || FullLess(b, a) {
      assert a.name != b.name || a.entry != b.entry;
    }
  }

  // ---- Laying out -----------------------------------------------------------------------------------------------

  /** The tool writes these catalogs and no other: none empty, every entry valid, every override another entry. */
  ghost predicate Storable(c: Checks, catalogs: map<Text, Catalog>) {
    forall sku :: sku in catalogs ==> c.sku(sku) && catalogs[sku] != map[] && StorableCatalog(c, catalogs[sku])
  }

  ghost predicate StorableCatalog(c: Checks, catalog: Catalog) {
    forall name :: name in catalog ==> c.entry(name, catalog[name].entry) && StorableSets(c, name, catalog[name])
  }

  ghost predicate StorableSets(c: Checks, name: Text, scene: Scene) {
    forall key :: key in scene.bySet ==>
      c.setKey(key) && scene.bySet[key] != Some(scene.entry)
      && (scene.bySet[key].Some? ==> c.entry(name, scene.bySet[key].value))
  }

  function Own(name: Text, scene: Scene): Full {
    Full(name, scene.entry)
  }

  function Picks(name: Text, scene: Scene): set<Full> {
    set key | key in scene.bySet && scene.bySet[key].Some? :: Full(name, scene.bySet[key].value)
  }

  function OwnOf(catalog: Catalog): set<Full> {
    set name | name in catalog :: Own(name, catalog[name])
  }

  function PicksOf(catalog: Catalog): set<Full> {
    set name, full | name in catalog && full in Picks(name, catalog[name]) :: full
  }

  function Pooled(catalogs: map<Text, Catalog>): set<Full> {
    set sku, full | sku in catalogs && full in OwnOf(catalogs[sku]) + PicksOf(catalogs[sku]) :: full
  }

  /** The place of a pool entry. */
  ghost function At(pool: seq<Full>, full: Full): (i: nat)
    requires full in pool
    ensures i < |pool| && pool[i] == full
  {
    var i :| 0 <= i < |pool| && pool[i] == full;
    i
  }

  ghost function Places(pool: seq<Full>, fulls: set<Full>): (r: set<nat>) {
    set f | f in fulls && f in pool :: At(pool, f)
  }

  function SetKeys(catalog: Catalog): set<Text> {
    set name, key | name in catalog && key in catalog[name].bySet :: key
  }

  ghost function PlaceOf(pool: seq<Full>, name: Text, pick: Option<Text>): Option<nat> {
    if pick.Some? && Full(name, pick.value) in pool then Some(At(pool, Full(name, pick.value))) else None
  }

  /** A SKU's results at one scene set. */
  ghost function OverridesAt(pool: seq<Full>, catalog: Catalog, key: Text): map<Text, Option<nat>> {
    map name | name in catalog && key in catalog[name].bySet :: PlaceOf(pool, name, catalog[name].bySet[key])
  }

  ghost function OverridesOf(pool: seq<Full>, catalog: Catalog): Overrides {
    map key | key in SetKeys(catalog) :: OverridesAt(pool, catalog, key)
  }

  lemma PickIn(catalog: Catalog, name: Text, key: Text)
    requires name in catalog && key in catalog[name].bySet
    ensures catalog[name].bySet[key].Some? ==> Full(name, catalog[name].bySet[key].value) in PicksOf(catalog)
    ensures key in SetKeys(catalog)
  {
    if catalog[name].bySet[key].Some? {
      assert Full(name, catalog[name].bySet[key].value) in Picks(name, catalog[name]);
    }
  }

  lemma InPool(catalogs: map<Text, Catalog>, sku: Text)
    requires sku in catalogs
    ensures OwnOf(catalogs[sku]) + PicksOf(catalogs[sku]) <= Pooled(catalogs)
  {
  }

  ghost function PoolOf(catalogs: map<Text, Catalog>): (pool: seq<Full>)
    ensures Increasing(FullLess, pool) && forall f :: f in pool <==> f in Pooled(catalogs)
  {
    FullOrder();
    Sorted(FullLess, Pooled(catalogs))
  }

  ghost function Layout(catalogs: map<Text, Catalog>): Store {
    var pool := PoolOf(catalogs);
    Store(pool,
          map sku | sku in catalogs :: SortedNats(Places(pool, OwnOf(catalogs[sku]))),
          map sku | sku in catalogs && SetKeys(catalogs[sku]) != {} :: OverridesOf(pool, catalogs[sku]))
  }

  // ---- Reading back ---------------------------------------------------------------------------------------------

  function NamesAt(pool: seq<Full>, refs: seq<nat>): (r: set<Text>)
    requires forall k :: 0 <= k < |refs| ==> refs[k] < |pool|
  {
    set k | 0 <= k < |refs| :: pool[refs[k]].name
  }

  /** The catalog index that holds `name`. */
  ghost function RefOf(pool: seq<Full>, refs: seq<nat>, name: Text): (i: nat)
    requires forall k :: 0 <= k < |refs| ==> refs[k] < |pool|
    requires name in NamesAt(pool, refs)
    ensures i in refs && i < |pool| && pool[i].name == name
  {
    var k :| 0 <= k < |refs| && pool[refs[k]].name == name;
    refs[k]
  }

  predicate ValidPool(c: Checks, pool: seq<Full>) {
    forall i :: 0 <= i < |pool| ==> c.entry(pool[i].name, pool[i].entry)
  }

  ghost predicate AcceptsSku(c: Checks, store: Store, sku: Text)
    requires sku in store.skus
  {
    c.sku(sku) && AcceptsRefs(store.pool, store.skus[sku])
  }

  ghost predicate AcceptsSets(c: Checks, store: Store, sku: Text)
    requires sku in store.bySet
  {
    && sku in store.skus && AcceptsRefs(store.pool, store.skus[sku]) && store.bySet[sku] != map[]
    && AcceptsOverrides(c, store.pool, store.skus[sku], store.bySet[sku])
  }

  ghost predicate AcceptsIndexes(c: Checks, store: Store) {
    && (forall sku :: sku in store.skus ==> AcceptsSku(c, store, sku))
    && (forall sku :: sku in store.bySet ==> AcceptsSets(c, store, sku))
    && (forall i :: 0 <= i < |store.pool| ==> Used(store, i))
  }

  /** The loader's check of the parsed store. */
  ghost predicate Accepts(c: Checks, store: Store) {
    ValidPool(c, store.pool) && Increasing(FullLess, store.pool) && AcceptsIndexes(c, store)
  }

  /** Strictly increasing indexes, at least one, no two of one name. */
  ghost predicate AcceptsRefs(pool: seq<Full>, refs: seq<nat>) {
    && refs != [] && Ascending(refs)
    && (forall k :: 0 <= k < |refs| ==> refs[k] < |pool|)
    && (forall i, j :: i in refs && j in refs && pool[i].name == pool[j].name ==> i == j)
  }

  /** One result of a set: a name of the catalog, hidden or played as another pool entry of that name. */
  ghost predicate AcceptsPlace(pool: seq<Full>, refs: seq<nat>, name: Text, place: Option<nat>)
    requires AcceptsRefs(pool, refs)
  {
    && name in NamesAt(pool, refs)
    && match place
       case None => true
       case Some(i) => i < |pool| && pool[i].name == name && i != RefOf(pool, refs, name)
  }

  ghost predicate AcceptsSet(pool: seq<Full>, refs: seq<nat>, names: map<Text, Option<nat>>)
    requires AcceptsRefs(pool, refs)
  {
    forall name :: name in names ==> AcceptsPlace(pool, refs, name, names[name])
  }

  ghost predicate AcceptsKey(c: Checks, pool: seq<Full>, refs: seq<nat>, key: Text, names: map<Text, Option<nat>>)
    requires AcceptsRefs(pool, refs)
  {
    c.setKey(key) && names != map[] && AcceptsSet(pool, refs, names)
  }

  ghost predicate AcceptsOverrides(c: Checks, pool: seq<Full>, refs: seq<nat>, overrides: Overrides)
    requires AcceptsRefs(pool, refs)
  {
    forall key :: key in overrides ==> AcceptsKey(c, pool, refs, key, overrides[key])
  }

  ghost predicate UsedAt(store: Store, sku: Text, key: Text, name: Text, i: nat) {
    && sku in store.bySet && key in store.bySet[sku] && name in store.bySet[sku][key]
    && store.bySet[sku][key][name] == Some(i)
  }

  ghost predicate Used(store: Store, i: nat) {
    || (exists sku :: sku in store.skus && i in store.skus[sku])
    || (exists sku, key, name :: UsedAt(store, sku, key, name, i))
  }

  function Overridden(store: Store, sku: Text): Overrides {
    if sku in store.bySet then store.bySet[sku] else map[]
  }

  function EntryAt(pool: seq<Full>, i: Option<nat>): Option<Text> {
    match i
    case None => None
    case Some(i) => if i < |pool| then Some(pool[i].entry) else None
  }

  /** One scene read back: its catalog entry, and its results in the SKU's `by_set`. */
  ghost function ReadScene(pool: seq<Full>, refs: seq<nat>, own: Overrides, name: Text): Scene
    requires AcceptsRefs(pool, refs) && name in NamesAt(pool, refs)
  {
    Scene(pool[RefOf(pool, refs, name)].entry,
          map key | key in own && name in own[key] :: EntryAt(pool, own[key][name]))
  }

  ghost function ReadCatalog(pool: seq<Full>, refs: seq<nat>, own: Overrides): Catalog
    requires AcceptsRefs(pool, refs)
  {
    map name | name in NamesAt(pool, refs) :: ReadScene(pool, refs, own, name)
  }

  ghost function ReadStore(c: Checks, store: Store): map<Text, Catalog>
    requires Accepts(c, store)
  {
    map sku | sku in store.skus :: ReadCatalog(store.pool, store.skus[sku], Overridden(store, sku))
  }

  // ---- Round trips ----------------------------------------------------------------------------------------------

  predicate Unique(pool: seq<Full>) {
    forall i, j :: 0 <= i < |pool| && 0 <= j < |pool| && pool[i] == pool[j] ==> i == j
  }

  lemma IncreasingUniquePool(pool: seq<Full>)
    requires Increasing(FullLess, pool)
    ensures Unique(pool)
  {
    FullOrder();
    forall i, j | 0 <= i < |pool| && 0 <= j < |pool| && pool[i] == pool[j] ensures i == j {
      IncreasingDistinct(FullLess, pool, i, j);
    }
  }

  lemma LaidPool(catalogs: map<Text, Catalog>)
    ensures var pool := Layout(catalogs).pool;
            Increasing(FullLess, pool) && Unique(pool) && forall f :: f in pool <==> f in Pooled(catalogs)
  {
    IncreasingUniquePool(Layout(catalogs).pool);
  }

  /** The pool is in name order, the entries of one name in the order of their texts, none twice. */
  lemma PoolByName(catalogs: map<Text, Catalog>, i: nat, j: nat)
    requires i < j < |Layout(catalogs).pool|
    ensures var pool := Layout(catalogs).pool;
            if pool[i].name == pool[j].name then TextLess(pool[i].entry, pool[j].entry)
            else TextLess(pool[i].name, pool[j].name)
  {
    var pool := Layout(catalogs).pool;
    LaidPool(catalogs);
    TextOrder();
    assert FullLess(pool[i], pool[j]);
  }

  /** The places of some pool entries, in order, are exactly the indexes of those entries. */
  lemma PlacesExact(pool: seq<Full>, fulls: set<Full>, refs: seq<nat>)
    requires Unique(pool) && forall f :: f in fulls ==> f in pool
    requires refs == SortedNats(Places(pool, fulls))
    ensures forall i :: 0 <= i < |pool| ==> (i in refs <==> pool[i] in fulls)
    ensures forall k :: 0 <= k < |refs| ==> refs[k] < |pool| && pool[refs[k]] in fulls
  {
    forall i | 0 <= i < |pool| ensures i in refs <==> pool[i] in fulls {
      assert At(pool, pool[i]) == i;
    }
    forall k | 0 <= k < |refs| ensures refs[k] < |pool| && pool[refs[k]] in fulls {
      assert refs[k] in Places(pool, fulls);
    }
  }

  /** A catalog's indexes hold each of its scenes' entries once, under its name. */
  lemma CatalogRefs(pool: seq<Full>, catalog: Catalog, refs: seq<nat>)
    requires Unique(pool) && catalog != map[] && forall f :: f in OwnOf(catalog) ==> f in pool
    requires refs == SortedNats(Places(pool, OwnOf(catalog)))
    ensures AcceptsRefs(pool, refs)
    ensures forall name :: name in NamesAt(pool, refs) <==> name in catalog
    ensures forall name :: name in catalog ==> pool[RefOf(pool, refs, name)] == Own(name, catalog[name])
  {
    PlacesExact(pool, OwnOf(catalog), refs);
    forall name | name in catalog ensures name in NamesAt(pool, refs) {
      NameHeld(pool, catalog, refs, name);
    }
    var some :| some in catalog;
    assert some in NamesAt(pool, refs);
  }

  lemma NameHeld(pool: seq<Full>, catalog: Catalog, refs: seq<nat>, name: Text)
    requires name in catalog && forall f :: f in OwnOf(catalog) ==> f in pool
    requires forall i :: 0 <= i < |pool| ==> (i in refs <==> pool[i] in OwnOf(catalog))
    requires forall k :: 0 <= k < |refs| ==> refs[k] < |pool|
    ensures name in NamesAt(pool, refs)
  {
    assert Own(name, catalog[name]) in OwnOf(catalog);
    var i := At(pool, Own(name, catalog[name]));
    assert i in refs;
    var k :| 0 <= k < |refs| && refs[k] == i;
    assert pool[refs[k]].name == name;
  }

  // ---- A laid out store is accepted -----------------------------------------------------------------------------

  ghost predicate InPoolAll(pool: seq<Full>, catalog: Catalog) {
    forall f :: f in OwnOf(catalog) || f in PicksOf(catalog) ==> f in pool
  }

  lemma OverridesAccepted(c: Checks, pool: seq<Full>, catalog: Catalog, refs: seq<nat>)
    requires InPoolAll(pool, catalog) && StorableCatalog(c, catalog) && AcceptsRefs(pool, refs)
    requires forall name :: name in NamesAt(pool, refs) <==> name in catalog
    requires forall name :: name in catalog ==> pool[RefOf(pool, refs, name)] == Own(name, catalog[name])
    ensures AcceptsOverrides(c, pool, refs, OverridesOf(pool, catalog))
  {
    var overrides: Overrides := OverridesOf(pool, catalog);
    forall key | key in overrides ensures c.setKey(key) && overrides[key] != map[] {
      SetAccepted(c, pool, catalog, key);
    }
    forall key, name | key in overrides && name in overrides[key]
      ensures name in NamesAt(pool, refs)
      ensures overrides[key][name].Some? ==>
                var i := overrides[key][name].value;
                i < |pool| && pool[i].name == name && i != RefOf(pool, refs, name)
    {
      PickIn(catalog, name, key);
      assert StorableSets(c, name, catalog[name]);
    }
  }

  lemma SetAccepted(c: Checks, pool: seq<Full>, catalog: Catalog, key: Text)
    requires InPoolAll(pool, catalog) && StorableCatalog(c, catalog) && key in OverridesOf(pool, catalog)
    ensures c.setKey(key) && OverridesOf(pool, catalog)[key] != map[]
  {
    assert key in SetKeys(catalog);
    var name :| name in catalog && key in catalog[name].bySet;
    assert StorableSets(c, name, catalog[name]) && name in OverridesOf(pool, catalog)[key];
  }

  lemma PoolValid(c: Checks, catalogs: map<Text, Catalog>, f: Full)
    requires Storable(c, catalogs) && f in Pooled(catalogs)
    ensures c.entry(f.name, f.entry)
  {
    var sku :| sku in catalogs && f in OwnOf(catalogs[sku]) + PicksOf(catalogs[sku]);
    if f in OwnOf(catalogs[sku]) {
      var name :| name in catalogs[sku] && f == Own(name, catalogs[sku][name]);
    } else {
      var name :| name in catalogs[sku] && f in Picks(name, catalogs[sku][name]);
      assert StorableSets(c, name, catalogs[sku][name]);
    }
  }

  /** A catalog laid out at these indexes of the pool. */
  ghost predicate Laid(c: Checks, pool: seq<Full>, catalog: Catalog, refs: seq<nat>) {
    && InPoolAll(pool, catalog) && AcceptsRefs(pool, refs)
    && (forall name :: name in NamesAt(pool, refs) <==> name in catalog)
    && (forall name :: name in catalog ==> pool[RefOf(pool, refs, name)] == Own(name, catalog[name]))
    && AcceptsOverrides(c, pool, refs, OverridesOf(pool, catalog))
  }

  lemma LaidRefs(c: Checks, pool: seq<Full>, catalog: Catalog, refs: seq<nat>)
    requires Unique(pool) && catalog != map[] && InPoolAll(pool, catalog) && StorableCatalog(c, catalog)
    requires refs == SortedNats(Places(pool, OwnOf(catalog)))
    ensures Laid(c, pool, catalog, refs)
  {
    CatalogRefs(pool, catalog, refs);
    OverridesAccepted(c, pool, catalog, refs);
  }

  /** What a layout holds for one SKU. */
  lemma LaidCatalog(c: Checks, catalogs: map<Text, Catalog>, sku: Text)
    requires Storable(c, catalogs) && sku in catalogs
    ensures var (store, catalog) := (Layout(catalogs), catalogs[sku]);
            && store.skus[sku] == SortedNats(Places(store.pool, OwnOf(catalog)))
            && Laid(c, store.pool, catalog, store.skus[sku])
            && (sku in store.bySet <==> SetKeys(catalog) != {})
            && (sku in store.bySet ==> store.bySet[sku] == OverridesOf(store.pool, catalog))
  {
    LaidPool(catalogs);
    InPool(catalogs, sku);
    LaidAt(catalogs, sku);
    LaidRefs(c, Layout(catalogs).pool, catalogs[sku], Layout(catalogs).skus[sku]);
  }

  lemma LaidAt(catalogs: map<Text, Catalog>, sku: Text)
    requires sku in catalogs
    ensures var (store, catalog) := (Layout(catalogs), catalogs[sku]);
            && sku in store.skus && store.skus[sku] == SortedNats(Places(store.pool, OwnOf(catalog)))
            && (sku in store.bySet <==> SetKeys(catalog) != {})
            && (sku in store.bySet ==> store.bySet[sku] == OverridesOf(store.pool, catalog))
  {
  }

  lemma LaidUsed(c: Checks, catalogs: map<Text, Catalog>, i: nat)
    requires Storable(c, catalogs) && i < |Layout(catalogs).pool|
    ensures Used(Layout(catalogs), i)
  {
    var store := Layout(catalogs);
    LaidPool(catalogs);
    var f := store.pool[i];
    assert f in store.pool;
    var sku :| sku in catalogs && f in OwnOf(catalogs[sku]) + PicksOf(catalogs[sku]);
    LaidCatalog(c, catalogs, sku);
    assert At(store.pool, f) == i;
    if f in OwnOf(catalogs[sku]) {
      assert i in Places(store.pool, OwnOf(catalogs[sku]));
      assert i in store.skus[sku];
    } else {
      var name :| name in catalogs[sku] && f in Picks(name, catalogs[sku][name]);
      var key :| key in catalogs[sku][name].bySet && catalogs[sku][name].bySet[key].Some?
                 && f == Full(name, catalogs[sku][name].bySet[key].value);
      PickIn(catalogs[sku], name, key);
      assert UsedAt(store, sku, key, name, i);
    }
  }

  /** The loader accepts every store laid out from catalogs the tool may write. */
  lemma LayoutAccepted(c: Checks, catalogs: map<Text, Catalog>)
    requires Storable(c, catalogs)
    ensures Accepts(c, Layout(catalogs))
  {
    var store := Layout(catalogs);
    LaidPool(catalogs);
    forall i | 0 <= i < |store.pool| ensures c.entry(store.pool[i].name, store.pool[i].entry) && Used(store, i) {
      assert store.pool[i] in store.pool;
      PoolValid(c, catalogs, store.pool[i]);
      LaidUsed(c, catalogs, i);
    }
    forall sku | sku in store.skus
      ensures AcceptsSku(c, store, sku) && (sku in store.bySet ==> AcceptsSets(c, store, sku))
    {
      LaidCatalog(c, catalogs, sku);
      if sku in store.bySet {
        var key :| key in SetKeys(catalogs[sku]);
        assert key in store.bySet[sku];
      }
    }
  }

  // ---- Reading a layout back ------------------------------------------------------------------------------------

  lemma ReadOverrides(pool: seq<Full>, catalog: Catalog, refs: seq<nat>, name: Text)
    requires InPoolAll(pool, catalog) && AcceptsRefs(pool, refs) && name in NamesAt(pool, refs) && name in catalog
    requires pool[RefOf(pool, refs, name)] == Own(name, catalog[name])
    ensures ReadScene(pool, refs, OverridesOf(pool, catalog), name) == catalog[name]
  {
    var own: Overrides := OverridesOf(pool, catalog);
    var back := ReadScene(pool, refs, own, name);
    forall key ensures key in back.bySet <==> key in catalog[name].bySet {
      if key in catalog[name].bySet {
        PickIn(catalog, name, key);
      }
    }
    forall key | key in back.bySet ensures back.bySet[key] == catalog[name].bySet[key] {
      PickIn(catalog, name, key);
    }
  }

  lemma ReadLaidCatalog(pool: seq<Full>, catalog: Catalog, refs: seq<nat>)
    requires InPoolAll(pool, catalog) && AcceptsRefs(pool, refs)
    requires forall name :: name in NamesAt(pool, refs) <==> name in catalog
    requires forall name :: name in catalog ==> pool[RefOf(pool, refs, name)] == Own(name, catalog[name])
    ensures ReadCatalog(pool, refs, OverridesOf(pool, catalog)) == catalog
  {
    var back := ReadCatalog(pool, refs, OverridesOf(pool, catalog));
    assert back.Keys == catalog.Keys;
    forall name | name in catalog ensures back[name] == catalog[name] {
      ReadOverrides(pool, catalog, refs, name);
    }
  }

  lemma OverriddenLaid(catalogs: map<Text, Catalog>, sku: Text)
    requires sku in catalogs && InPoolAll(Layout(catalogs).pool, catalogs[sku])
    ensures Overridden(Layout(catalogs), sku) == OverridesOf(Layout(catalogs).pool, catalogs[sku])
  {
    assert SetKeys(catalogs[sku]) == {} ==> OverridesOf(Layout(catalogs).pool, catalogs[sku]) == map[];
  }

  lemma ReadLaidSku(c: Checks, catalogs: map<Text, Catalog>, store: Store, sku: Text)
    requires Storable(c, catalogs) && sku in catalogs && store == Layout(catalogs)
    ensures sku in store.skus && AcceptsRefs(store.pool, store.skus[sku])
    ensures ReadCatalog(store.pool, store.skus[sku], Overridden(store, sku)) == catalogs[sku]
  {
    LaidCatalog(c, catalogs, sku);
    OverriddenLaid(catalogs, sku);
    ReadLaidCatalog(store.pool, catalogs[sku], store.skus[sku]);
  }

  lemma LaidSkus(catalogs: map<Text, Catalog>)
    ensures Layout(catalogs).skus.Keys == catalogs.Keys
  {
  }

  /** Catalogs the tool may write survive the store. */
  lemma ReadLayout(c: Checks, catalogs: map<Text, Catalog>, store: Store)
    requires Storable(c, catalogs) && store == Layout(catalogs)
    ensures Accepts(c, store) && ReadStore(c, store) == catalogs
  {
    LayoutAccepted(c, catalogs);
    LaidSkus(catalogs);
    forall sku | sku in catalogs
      ensures ReadCatalog(store.pool, store.skus[sku], Overridden(store, sku)) == catalogs[sku] {
      ReadLaidSku(c, catalogs, store, sku);
    }
    SameMap(ReadStore(c, store), catalogs);
  }

  // ---- Laying out a read store ----------------------------------------------------------------------------------

  /** Each index of a catalog is its name's. */
  lemma RefExact(pool: seq<Full>, refs: seq<nat>, i: nat)
    requires AcceptsRefs(pool, refs) && i in refs
    ensures i < |pool| && pool[i].name in NamesAt(pool, refs) && RefOf(pool, refs, pool[i].name) == i
  {
    var k :| 0 <= k < |refs| && refs[k] == i;
    assert pool[refs[k]].name in NamesAt(pool, refs);
  }

  lemma ReadOwn(pool: seq<Full>, refs: seq<nat>, own: Overrides, f: Full)
    requires AcceptsRefs(pool, refs)
    ensures f in OwnOf(ReadCatalog(pool, refs, own)) <==> exists i :: i in refs && 0 <= i < |pool| && pool[i] == f
  {
    var catalog := ReadCatalog(pool, refs, own);
    if f in OwnOf(catalog) {
      var name :| name in catalog && f == Own(name, catalog[name]);
      var i := RefOf(pool, refs, name);
      assert pool[i] == f;
    }
    if i: nat :| i in refs && i < |pool| && pool[i] == f {
      RefExact(pool, refs, i);
      assert f == Own(f.name, catalog[f.name]);
    }
  }

  ghost predicate PickAt(pool: seq<Full>, own: Overrides, key: Text, name: Text, i: nat) {
    key in own && name in own[key] && own[key][name] == Some(i) && i < |pool|
  }

  /** A per-set entry read back is the pool entry its index names. */
  lemma PickRead(c: Checks, pool: seq<Full>, refs: seq<nat>, own: Overrides, f: Full)
    requires AcceptsRefs(pool, refs) && AcceptsOverrides(c, pool, refs, own)
    requires f in PicksOf(ReadCatalog(pool, refs, own))
    ensures f in pool
  {
    var catalog := ReadCatalog(pool, refs, own);
    var name :| name in catalog && f in Picks(name, catalog[name]);
    var scene := ReadScene(pool, refs, own, name);
    assert catalog[name] == scene;
    var key :| key in scene.bySet && scene.bySet[key].Some? && f == Full(name, scene.bySet[key].value);
    assert scene.bySet[key] == EntryAt(pool, own[key][name]);
    assert f == pool[own[key][name].value];
  }

  lemma ReadPick(c: Checks, pool: seq<Full>, refs: seq<nat>, own: Overrides, key: Text, name: Text, i: nat)
    requires AcceptsRefs(pool, refs) && AcceptsOverrides(c, pool, refs, own) && PickAt(pool, own, key, name, i)
    ensures pool[i] in PicksOf(ReadCatalog(pool, refs, own))
  {
    var catalog, scene := ReadCatalog(pool, refs, own), ReadScene(pool, refs, own, name);
    assert name in catalog && catalog[name] == scene && key in scene.bySet;
    assert scene.bySet[key] == EntryAt(pool, own[key][name]) == Some(pool[i].entry);
    assert pool[i] in Picks(name, scene);
  }

  lemma ReadPooled(c: Checks, store: Store)
    requires Accepts(c, store)
    ensures forall f :: f in Pooled(ReadStore(c, store)) <==> f in store.pool
  {
    var back := ReadStore(c, store);
    forall sku, f | sku in back && f in OwnOf(back[sku]) + PicksOf(back[sku]) ensures f in store.pool {
      ReadOwn(store.pool, store.skus[sku], Overridden(store, sku), f);
      if f in PicksOf(back[sku]) {
        PickRead(c, store.pool, store.skus[sku], Overridden(store, sku), f);
      }
    }
    forall i | 0 <= i < |store.pool| ensures store.pool[i] in Pooled(back) {
      ReadUsed(c, store, i);
    }
  }

  lemma ReadUsed(c: Checks, store: Store, i: nat)
    requires Accepts(c, store) && i < |store.pool|
    ensures store.pool[i] in Pooled(ReadStore(c, store))
  {
    var back := ReadStore(c, store);
    assert Used(store, i);
    if sku :| sku in store.skus && i in store.skus[sku] {
      ReadOwn(store.pool, store.skus[sku], Overridden(store, sku), store.pool[i]);
      assert store.pool[i] in OwnOf(back[sku]) + PicksOf(back[sku]);
    } else {
      var sku, key, name :| UsedAt(store, sku, key, name, i);
      assert PickAt(store.pool, Overridden(store, sku), key, name, i);
      ReadPick(c, store.pool, store.skus[sku], Overridden(store, sku), key, name, i);
      assert store.pool[i] in OwnOf(back[sku]) + PicksOf(back[sku]);
    }
  }

  lemma LaidRefsBack(pool: seq<Full>, refs: seq<nat>, own: Overrides)
    requires Unique(pool) && AcceptsRefs(pool, refs)
    requires InPoolAll(pool, ReadCatalog(pool, refs, own))
    ensures SortedNats(Places(pool, OwnOf(ReadCatalog(pool, refs, own)))) == refs
  {
    var catalog := ReadCatalog(pool, refs, own);
    var laid := SortedNats(Places(pool, OwnOf(catalog)));
    PlacesExact(pool, OwnOf(catalog), laid);
    forall i ensures i in laid <==> i in refs {
      if 0 <= i < |pool| {
        ReadOwn(pool, refs, own, pool[i]);
      }
    }
    AscendingUnique(laid, refs);
  }

  lemma PlaceBack(c: Checks, pool: seq<Full>, refs: seq<nat>, own: Overrides, key: Text, name: Text)
    requires Unique(pool) && AcceptsRefs(pool, refs) && AcceptsOverrides(c, pool, refs, own)
    requires key in own && name in own[key]
    ensures var catalog := ReadCatalog(pool, refs, own);
            && name in catalog && key in catalog[name].bySet
            && PlaceOf(pool, name, catalog[name].bySet[key]) == own[key][name]
  {
    OverrideNamed(c, pool, refs, own, key, name);
    assert ReadCatalog(pool, refs, own)[name] == ReadScene(pool, refs, own, name);
    EntryPlaced(pool, name, own[key][name]);
  }

  lemma OverrideNamed(c: Checks, pool: seq<Full>, refs: seq<nat>, own: Overrides, key: Text, name: Text)
    requires AcceptsRefs(pool, refs) && AcceptsOverrides(c, pool, refs, own) && key in own && name in own[key]
    ensures name in NamesAt(pool, refs) && Placed(pool, name, own[key][name])
  {
  }

  predicate Placed(pool: seq<Full>, name: Text, i: Option<nat>) {
    i.Some? ==> i.value < |pool| && pool[i.value].name == name
  }

  lemma EntryPlaced(pool: seq<Full>, name: Text, i: Option<nat>)
    requires Unique(pool) && Placed(pool, name, i)
    ensures PlaceOf(pool, name, EntryAt(pool, i)) == i
  {
    if i.Some? {
      assert pool[i.value] == Full(name, pool[i.value].entry);
      assert At(pool, pool[i.value]) == i.value;
    }
  }

  lemma OverrideBack(c: Checks, pool: seq<Full>, refs: seq<nat>, own: Overrides, key: Text)
    requires Unique(pool) && AcceptsRefs(pool, refs) && AcceptsOverrides(c, pool, refs, own) && key in own
    ensures key in SetKeys(ReadCatalog(pool, refs, own))
    ensures OverridesAt(pool, ReadCatalog(pool, refs, own), key) == own[key]
  {
    var catalog := ReadCatalog(pool, refs, own);
    forall name | name in own[key]
      ensures name in catalog && key in catalog[name].bySet
      ensures PlaceOf(pool, name, catalog[name].bySet[key]) == own[key][name]
    {
      PlaceBack(c, pool, refs, own, key, name);
    }
    forall name | name in catalog && key in catalog[name].bySet ensures name in own[key] {
      assert catalog[name] == ReadScene(pool, refs, own, name);
    }
    SameMap(OverridesAt(pool, catalog, key), own[key]);
    var some :| some in own[key];
    PickIn(catalog, some, key);
  }

  lemma KeyBack(pool: seq<Full>, refs: seq<nat>, own: Overrides, key: Text)
    requires AcceptsRefs(pool, refs) && key in SetKeys(ReadCatalog(pool, refs, own))
    ensures key in own
  {
    var catalog := ReadCatalog(pool, refs, own);
    var name :| name in catalog && key in catalog[name].bySet;
    assert catalog[name] == ReadScene(pool, refs, own, name);
  }

  lemma KeysBack(c: Checks, pool: seq<Full>, refs: seq<nat>, own: Overrides)
    requires Unique(pool) && AcceptsRefs(pool, refs) && AcceptsOverrides(c, pool, refs, own)
    ensures SetKeys(ReadCatalog(pool, refs, own)) == own.Keys
  {
    var keys := SetKeys(ReadCatalog(pool, refs, own));
    forall key ensures key in keys <==> key in own.Keys {
      if key in own {
        OverrideBack(c, pool, refs, own, key);
      }
      if key in keys {
        KeyBack(pool, refs, own, key);
      }
    }
  }

  lemma OverridesBack(c: Checks, pool: seq<Full>, refs: seq<nat>, own: Overrides)
    requires Unique(pool) && AcceptsRefs(pool, refs) && AcceptsOverrides(c, pool, refs, own)
    ensures OverridesOf(pool, ReadCatalog(pool, refs, own)) == own
    ensures SetKeys(ReadCatalog(pool, refs, own)) == own.Keys
  {
    var catalog := ReadCatalog(pool, refs, own);
    KeysBack(c, pool, refs, own);
    forall key | key in own ensures OverridesAt(pool, catalog, key) == own[key] {
      OverrideBack(c, pool, refs, own, key);
    }
    SameMap(OverridesOf(pool, catalog), own);
  }

  /** What a layout must hold for one SKU. */
  ghost predicate LaidFor(store: Store, sku: Text, catalog: Catalog) {
    && sku in store.skus && SortedNats(Places(store.pool, OwnOf(catalog))) == store.skus[sku]
    && OverridesOf(store.pool, catalog) == Overridden(store, sku)
    && (SetKeys(catalog) != {} <==> sku in store.bySet)
  }

  lemma SkuBack(c: Checks, store: Store, back: map<Text, Catalog>, sku: Text)
    requires Accepts(c, store) && back == ReadStore(c, store) && sku in store.skus && Unique(store.pool)
    requires forall f :: f in Pooled(back) <==> f in store.pool
    ensures LaidFor(store, sku, back[sku])
  {
    InPool(back, sku);
    assert InPoolAll(store.pool, back[sku]);
    LaidRefsBack(store.pool, store.skus[sku], Overridden(store, sku));
    OverridesBack(c, store.pool, store.skus[sku], Overridden(store, sku));
  }

  lemma PoolBack(a: seq<Full>, b: seq<Full>)
    requires Increasing(FullLess, a) && Increasing(FullLess, b) && forall f :: f in a <==> f in b
    ensures a == b
  {
    FullOrder();
    IncreasingUnique(FullLess, a, b);
  }

  lemma LaidAs(catalogs: map<Text, Catalog>, store: Store)
    requires PoolOf(catalogs) == store.pool && store.skus.Keys == catalogs.Keys && store.bySet.Keys <= catalogs.Keys
    requires forall sku :: sku in catalogs ==> LaidFor(store, sku, catalogs[sku])
    ensures Layout(catalogs) == store
  {
    var again := Layout(catalogs);
    forall sku | sku in catalogs
      ensures again.skus[sku] == store.skus[sku]
      ensures sku in again.bySet <==> sku in store.bySet
      ensures sku in again.bySet ==> again.bySet[sku] == store.bySet[sku]
    {
      assert LaidFor(store, sku, catalogs[sku]);
    }
    SameMap(again.skus, store.skus);
    SameMap(again.bySet, store.bySet);
  }

  lemma BackPool(c: Checks, store: Store, back: map<Text, Catalog>)
    requires Accepts(c, store) && back == ReadStore(c, store)
    ensures Unique(store.pool) && forall f :: f in Pooled(back) <==> f in store.pool
    ensures PoolOf(back) == store.pool
  {
    ReadPooled(c, store);
    IncreasingUniquePool(store.pool);
    PoolBack(PoolOf(back), store.pool);
  }

  lemma BackKeys(c: Checks, store: Store, back: map<Text, Catalog>)
    requires Accepts(c, store) && back == ReadStore(c, store)
    ensures store.skus.Keys == back.Keys && store.bySet.Keys <= back.Keys
  {
  }

  /** Every store the loader accepts is reproduced exactly. */
  lemma LayoutRead(c: Checks, store: Store, back: map<Text, Catalog>)
    requires Accepts(c, store) && back == ReadStore(c, store)
    ensures Layout(back) == store
  {
    BackPool(c, store, back);
    forall sku | sku in back ensures LaidFor(store, sku, back[sku]) {
      BackKeys(c, store, back);
      SkuBack(c, store, back, sku);
    }
    BackKeys(c, store, back);
    LaidAs(back, store);
  }
}

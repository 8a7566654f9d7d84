/** The loops of tools/fetch_scenes.py `layout`, proved to write the store SceneStore specifies, or to refuse. */
module SceneFiles {
  import opened Basics
  import opened Sorting
  import opened SceneStore
  import opened SceneLists

  // ---- Writing --------------------------------------------------------------------------------------------------

  /** What `layout` refuses nothing of: no empty catalog, and no entry or override the shared check refuses. */
  predicate Writable(c: Checks, catalogs: map<Text, Catalog>) {
    forall sku :: sku in catalogs ==> WritableCatalog(c, sku, catalogs[sku])
  }

  predicate WritableCatalog(c: Checks, sku: Text, catalog: Catalog) {
    c.sku(sku) && catalog != map[] && forall name :: name in catalog ==> WritableScene(c, name, catalog[name])
  }

  predicate WritableScene(c: Checks, name: Text, scene: Scene) {
    && c.entry(name, scene.entry)
    && forall key :: key in scene.bySet && scene.bySet[key].Some? ==> c.entry(name, scene.bySet[key].value)
  }

  /** A scene's result at one set, as a pool entry. */
  function PickOf(name: Text, pick: Option<Text>): Option<Full> {
    if pick.Some? then Some(Full(name, pick.value)) else None
  }

  type Sets = map<Text, map<Text, Option<Full>>>

  /** What `sets` holds for a scene at a set key, if it holds anything. */
  function Result(sets: Sets, key: Text, name: Text): Option<Option<Full>> {
    if key in sets && name in sets[key] then Some(sets[key][name]) else None
  }

  function ResultOf(name: Text, scene: Scene, key: Text): Option<Option<Full>> {
    if key in scene.bySet then Some(PickOf(name, scene.bySet[key])) else None
  }

  /** `sets` holds the results of the scenes `names` of the catalog, by set key, and nothing else. */
  ghost predicate Gathers(sets: Sets, catalog: Catalog, names: set<Text>)
    requires names <= catalog.Keys
  {
    && (forall key :: key in sets ==> sets[key] != map[])
    && (forall key, name :: Result(sets, key, name) ==
          if name in names then ResultOf(name, catalog[name], key) else None)
  }

  /** `sets.setdefault(key, {})[name] = pick`. */
  function Entered(sets: Sets, key: Text, name: Text, pick: Option<Full>): (r: Sets)
    ensures key in r && r[key] != map[] && forall k :: k in r && k != key ==> k in sets && r[k] == sets[k]
    ensures forall k, n :: Result(r, k, n) == if k == key && n == name then Some(pick) else Result(sets, k, n)
  {
    var own := (if key in sets then sets[key] else map[])[name := pick];
    assert name in own;
    sets[key := own]
  }

  /** One scene's results added. */
  method AddScene(sets: Sets, picks: set<Full>, name: Text, scene: Scene, ghost catalog: Catalog,
                  ghost names: set<Text>)
    returns (sets': Sets, picks': set<Full>)
    requires names <= catalog.Keys && name in catalog && name !in names && catalog[name] == scene
    requires Gathers(sets, catalog, names)
    ensures Gathers(sets', catalog, names + {name}) && picks' == picks + Picks(name, scene)
  {
    sets', picks' := sets, picks;
    var todo := scene.bySet.Keys;
    while todo != {}
      invariant todo <= scene.bySet.Keys
      invariant forall key :: key in sets' ==> sets'[key] != map[]
      invariant forall key, n :: Result(sets', key, n)
                              == if n == name && key !in todo then ResultOf(name, scene, key) else Result(sets, key, n)
      invariant forall f :: f in picks' <==>
                  f in picks
                  || exists key :: key in scene.bySet && key !in todo && PickOf(name, scene.bySet[key]) == Some(f)
    {
      var key :| key in todo;
      var pick := PickOf(name, scene.bySet[key]);
      sets' := Entered(sets', key, name, pick);
      if pick.Some? {
        picks' := picks' + {pick.value};
      }
      todo := todo - {key};
    }
  }

  /** One SKU's scenes: their pool entries, their results' pool entries, and those results by set and name. */
  method GatherCatalog(c: Checks, catalog: Catalog) returns (own: set<Full>, picks: set<Full>, sets: Sets, ok: bool)
    ensures ok <==> forall name :: name in catalog ==> WritableScene(c, name, catalog[name])
    ensures ok ==> own == OwnOf(catalog) && picks == PicksOf(catalog) && Gathers(sets, catalog, catalog.Keys)
  {
    own, picks, sets, ok := {}, {}, map[], true;
    var todo := catalog.Keys;
    while todo != {}
      invariant todo <= catalog.Keys && Gathers(sets, catalog, catalog.Keys - todo)
      invariant forall name :: name in catalog && name !in todo ==> WritableScene(c, name, catalog[name])
      invariant forall f :: f in own
                            <==> exists name :: name in catalog && name !in todo && f == Own(name, catalog[name])
      invariant forall f :: f in picks
                            <==> exists name :: name in catalog && name !in todo && f in Picks(name, catalog[name])
    {
      var name :| name in todo;
      var scene := catalog[name];
      if !WritableScene(c, name, scene) {
        return own, picks, sets, false;
      }
      own := own + {Own(name, scene)};
      sets, picks := AddScene(sets, picks, name, scene, catalog, catalog.Keys - todo);
      assert catalog.Keys - todo + {name} == catalog.Keys - (todo - {name});
      todo := todo - {name};
    }
    assert catalog.Keys - todo == catalog.Keys;
  }

  function SetsOf(sets: map<Text, Sets>, sku: Text): Sets {
    if sku in sets then sets[sku] else map[]
  }

  /** What the loop over the catalogs has gathered of the SKUs `done`. */
  ghost predicate GathersAll(catalogs: map<Text, Catalog>, done: set<Text>, pool: set<Full>, refs: map<Text, set<Full>>,
                             sets: map<Text, Sets>)
    requires done <= catalogs.Keys
  {
    && refs.Keys == done && (forall sku :: sku in refs ==> refs[sku] == OwnOf(catalogs[sku]))
    && sets.Keys <= done && (forall sku :: sku in sets ==> sets[sku] != map[])
    && (forall sku :: sku in done ==> Gathers(SetsOf(sets, sku), catalogs[sku], catalogs[sku].Keys))
    && (forall f :: f in pool <==> exists sku :: sku in done && f in OwnOf(catalogs[sku]) + PicksOf(catalogs[sku]))
  }

  lemma GathersMore(catalogs: map<Text, Catalog>, done: set<Text>, pool: set<Full>, refs: map<Text, set<Full>>,
                    sets: map<Text, Sets>, sku: Text, own: set<Full>, picks: set<Full>, found: Sets)
    requires done <= catalogs.Keys && GathersAll(catalogs, done, pool, refs, sets) && sku in catalogs && sku !in done
    requires own == OwnOf(catalogs[sku]) && picks == PicksOf(catalogs[sku])
    requires Gathers(found, catalogs[sku], catalogs[sku].Keys)
    ensures GathersAll(catalogs, done + {sku}, pool + own + picks, refs[sku := own],
                       if found != map[] then sets[sku := found] else sets)
  {
    var sets' := if found != map[] then sets[sku := found] else sets;
    forall other | other in done + {sku} ensures Gathers(SetsOf(sets', other), catalogs[other], catalogs[other].Keys) {
      assert SetsOf(sets', other) == if other == sku then found else SetsOf(sets, other);
    }
  }

  method Gather(c: Checks, catalogs: map<Text, Catalog>)
    returns (pool: set<Full>, refs: map<Text, set<Full>>, sets: map<Text, Sets>, ok: bool)
    ensures ok <==> Writable(c, catalogs)
    ensures ok ==> GathersAll(catalogs, catalogs.Keys, pool, refs, sets)
  {
    pool, refs, sets, ok := {}, map[], map[], true;
    var todo := catalogs.Keys;
    while todo != {}
      invariant todo <= catalogs.Keys && GathersAll(catalogs, catalogs.Keys - todo, pool, refs, sets)
      invariant forall sku :: sku in catalogs && sku !in todo ==> WritableCatalog(c, sku, catalogs[sku])
    {
      var sku :| sku in todo;
      if !c.sku(sku) || catalogs[sku] == map[] {
        return pool, refs, sets, false;
      }
      var own, picks, found, valid := GatherCatalog(c, catalogs[sku]);
      if !valid {
        return pool, refs, sets, false;
      }
      GathersMore(catalogs, catalogs.Keys - todo, pool, refs, sets, sku, own, picks, found);
      assert catalogs.Keys - todo + {sku} == catalogs.Keys - (todo - {sku});
      pool, refs := pool + own + picks, refs[sku := own];
      if found != map[] {
        sets := sets[sku := found];
      }
      todo := todo - {sku};
    }
    assert catalogs.Keys - todo == catalogs.Keys;
  }

  /** `at`: each pool entry's place. */
  method IndexPool(pool: seq<Full>) returns (at: map<Full, nat>)
    requires Unique(pool)
    ensures forall f :: f in pool <==> f in at
    ensures forall f :: f in at ==> f in pool && at[f] == At(pool, f)
  {
    at := map[];
    for i := 0 to |pool|
      invariant forall f :: f in at <==> f in pool[..i]
      invariant forall f :: f in at ==> f in pool && at[f] == At(pool, f)
    {
      assert At(pool, pool[i]) == i;
      at := at[pool[i] := i];
    }
  }

  method WriteRefs(pool: seq<Full>, at: map<Full, nat>, refs: map<Text, set<Full>>) returns (skus: map<Text, seq<nat>>)
    requires forall sku, f :: sku in refs && f in refs[sku] ==> f in pool
    requires forall f :: f in pool ==> f in at && at[f] == At(pool, f)
    ensures skus == map sku | sku in refs :: SortedNats(Places(pool, refs[sku]))
  {
    skus := map[];
    var todo := refs.Keys;
    while todo != {}
      invariant todo <= refs.Keys && skus.Keys == refs.Keys - todo
      invariant forall sku :: sku in skus ==> skus[sku] == SortedNats(Places(pool, refs[sku]))
    {
      var sku :| sku in todo;
      var own := refs[sku];
      var places := set f | f in own :: at[f];
      assert places == Places(pool, own);
      var sorted := SortNats(places);
      skus := skus[sku := sorted];
      todo := todo - {sku};
    }
  }

  function IndexOf(at: map<Full, nat>, pick: Option<Full>): Option<nat> {
    if pick.Some? && pick.value in at then Some(at[pick.value]) else None
  }

  function WriteSets(at: map<Full, nat>, sets: Sets): Overrides {
    map key | key in sets :: map name | name in sets[key] :: IndexOf(at, sets[key][name])
  }

  /** A SKU's gathered results, by index, are its overrides. */
  lemma WriteSetsLaid(pool: seq<Full>, at: map<Full, nat>, catalog: Catalog, sets: Sets)
    requires InPoolAll(pool, catalog) && Gathers(sets, catalog, catalog.Keys)
    requires forall f :: f in pool ==> f in at && at[f] == At(pool, f)
    ensures WriteSets(at, sets) == OverridesOf(pool, catalog)
    ensures sets != map[] <==> SetKeys(catalog) != {}
  {
    forall key ensures key in sets <==> key in SetKeys(catalog) {
      if key in sets {
        var name :| name in sets[key];
        assert Result(sets, key, name).Some?;
      }
      if key in SetKeys(catalog) {
        var name :| name in catalog && key in catalog[name].bySet;
        assert Result(sets, key, name).Some?;
      }
    }
    forall key | key in sets ensures WriteSets(at, sets)[key] == OverridesAt(pool, catalog, key) {
      WriteSetLaid(pool, at, catalog, sets, key);
    }
    SameMap(WriteSets(at, sets), OverridesOf(pool, catalog));
  }

  lemma WriteSetLaid(pool: seq<Full>, at: map<Full, nat>, catalog: Catalog, sets: Sets, key: Text)
    requires InPoolAll(pool, catalog) && Gathers(sets, catalog, catalog.Keys) && key in sets
    requires forall f :: f in pool ==> f in at && at[f] == At(pool, f)
    ensures WriteSets(at, sets)[key] == OverridesAt(pool, catalog, key)
  {
    var written, laid := WriteSets(at, sets)[key], OverridesAt(pool, catalog, key);
    forall name ensures name in written <==> name in laid {
      assert Result(sets, key, name).Some? <==> name in written;
    }
    forall name | name in laid ensures written[name] == laid[name] {
      assert Result(sets, key, name) == ResultOf(name, catalog[name], key);
      PickIn(catalog, name, key);
    }
    SameMap(written, laid);
  }

  /** `layout`: the store of the catalogs, or a refusal. */
  method LayOut(c: Checks, catalogs: map<Text, Catalog>) returns (r: Result<Store>)
    ensures r.Ok? <==> Writable(c, catalogs)
    ensures r.Ok? ==> r.value == Layout(catalogs)
  {
    var pool, refs, sets, ok := Gather(c, catalogs);
    if !ok {
      return Err;
    }
    FullOrder();
    var order := SortSet(FullLess, pool);
    GatheredPool(catalogs, pool, refs, sets, order);
    var at := IndexPool(order);
    var skus := WriteRefs(order, at, refs);
    var bySet := map sku | sku in sets :: WriteSets(at, sets[sku]);
    GatheredSets(catalogs, pool, refs, sets, order, at, bySet);
    GatheredRefs(catalogs, refs, order, skus);
    r := Ok(Store(order, skus, bySet));
  }

  lemma GatheredPool(catalogs: map<Text, Catalog>, pool: set<Full>, refs: map<Text, set<Full>>, sets: map<Text, Sets>,
                     order: seq<Full>)
    requires GathersAll(catalogs, catalogs.Keys, pool, refs, sets) && TotalOrder(FullLess)
             && order == Sorted(FullLess, pool)
    ensures order == PoolOf(catalogs) && Unique(order)
    ensures forall sku :: sku in catalogs ==> InPoolAll(order, catalogs[sku])
    ensures forall sku, f :: sku in refs && f in refs[sku] ==> f in order
  {
    forall f ensures f in pool <==> f in Pooled(catalogs) {
    }
    IncreasingUnique(FullLess, order, PoolOf(catalogs));
    IncreasingUniquePool(order);
    forall sku | sku in catalogs ensures InPoolAll(order, catalogs[sku]) {
      InPool(catalogs, sku);
    }
  }

  lemma GatheredRefs(catalogs: map<Text, Catalog>, refs: map<Text, set<Full>>, order: seq<Full>, skus: map<Text,
                     seq<nat>>)
    requires refs.Keys == catalogs.Keys && forall sku :: sku in refs ==> refs[sku] == OwnOf(catalogs[sku])
    requires order == PoolOf(catalogs) && skus == map sku | sku in refs :: SortedNats(Places(order, refs[sku]))
    ensures skus == Layout(catalogs).skus
  {
    SameMap(skus, Layout(catalogs).skus);
  }

  lemma GatheredSets(catalogs: map<Text, Catalog>, pool: set<Full>, refs: map<Text, set<Full>>, sets: map<Text, Sets>,
                     order: seq<Full>, at: map<Full, nat>, bySet: map<Text, Overrides>)
    requires GathersAll(catalogs, catalogs.Keys, pool, refs, sets) && order == PoolOf(catalogs)
    requires forall sku :: sku in catalogs ==> InPoolAll(order, catalogs[sku])
    requires forall f :: f in order ==> f in at && at[f] == At(order, f)
    requires bySet == map sku | sku in sets :: WriteSets(at, sets[sku])
    ensures bySet == Layout(catalogs).bySet
  {
    var laid := Layout(catalogs).bySet;
    forall sku | sku in catalogs
      ensures sku in bySet <==> sku in laid
      ensures sku in laid ==> bySet[sku] == laid[sku]
    {
      WriteSetsLaid(order, at, catalogs[sku], SetsOf(sets, sku));
    }
    SameMap(bySet, laid);
  }
}

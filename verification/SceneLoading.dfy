/** The loops that check the parsed scene store and build the catalogs from it (scenes/__init__.py `_catalogs`) and
    that read it back for the tool (tools/fetch_scenes.py `read_store`), each proved to compute what SceneStore and
    SceneLists specify. */
module SceneLoading {
  import opened Basics
  import opened Sorting
  import opened SceneStore
  import opened SceneLists

  // ---- The check ------------------------------------------------------------------------------------------------

  predicate Pairwise<T>(less: (T, T) -> bool, s: seq<T>) {
    forall k :: 0 <= k < |s| - 1 ==> less(s[k], s[k + 1])
  }

  /** A sequence whose neighbours are in order is in order. */
  lemma {:induction false} PairwiseIncreasing<T(!new)>(less: (T, T) -> bool, s: seq<T>)
    requires TotalOrder(less) && Pairwise(less, s)
    ensures Increasing(less, s)
  {
    if s == [] {
    } else {
      var n := |s| - 1;
      PairwiseIncreasing(less, s[..n]);
      forall i | 0 <= i < n ensures less(s[i], s[n]) {
        assert s[..n][i] == s[i] && (i < n - 1 ==> less(s[..n][i], s[..n][n - 1]));
      }
    }
  }

  predicate InPlace(pool: seq<Full>, refs: seq<nat>) {
    forall k :: 0 <= k < |refs| ==> refs[k] < |pool|
  }

  predicate NamedApart(pool: seq<Full>, refs: seq<nat>)
    requires InPlace(pool, refs)
  {
    forall i, j :: 0 <= i < j < |refs| ==> pool[refs[i]].name != pool[refs[j]].name
  }

  /** `own`: each name of a SKU's catalog, with its pool index. */
  ghost predicate Defaults(pool: seq<Full>, refs: seq<nat>, own: map<Text, nat>) {
    && AcceptsRefs(pool, refs) && own.Keys == NamesAt(pool, refs)
    && forall name :: name in own ==> own[name] == RefOf(pool, refs, name)
  }

  lemma AcceptsNamed(pool: seq<Full>, refs: seq<nat>)
    requires InPlace(pool, refs) && Ascending(refs) && refs != []
    ensures AcceptsRefs(pool, refs) <==> NamedApart(pool, refs)
  {
    if AcceptsRefs(pool, refs) {
      forall i, j | 0 <= i < j < |refs| ensures pool[refs[i]].name != pool[refs[j]].name {
        assert refs[i] in refs && refs[j] in refs;
      }
    }
  }

  /** `{pool[i].name: i for i in refs}`. */
  method NamesOfRefs(pool: seq<Full>, refs: seq<nat>) returns (own: map<Text, nat>)
    requires InPlace(pool, refs)
    ensures own.Keys == NamesAt(pool, refs) && forall name :: name in own ==> NamedIn(pool, refs, name, own[name])
  {
    own := map[];
    for k := 0 to |refs|
      invariant own.Keys == NamesAt(pool, refs[..k])
                && forall name :: name in own ==> NamedIn(pool, refs, name, own[name])
    {
      NamedMore(pool, refs, k);
      assert refs[k] in refs;
      own := own[pool[refs[k]].name := refs[k]];
    }
    assert refs[..|refs|] == refs;
  }

  /** As many names as indexes exactly if no two indexes share one. */
  lemma {:induction false} NamesCount(pool: seq<Full>, refs: seq<nat>, k: nat)
    requires InPlace(pool, refs) && k <= |refs|
    ensures |NamesAt(pool, refs[..k])| <= k && (|NamesAt(pool, refs[..k])| == k <==> NamedApart(pool, refs[..k]))
  {
    if k == 0 {
      assert NamesAt(pool, refs[..0]) == {};
    } else {
      NamesCount(pool, refs, k - 1);
      NamedMore(pool, refs, k - 1);
      Adds(NamesAt(pool, refs[..k - 1]), pool[refs[k - 1]].name);
    }
  }

  lemma Adds<T>(s: set<T>, x: T)
    ensures |s + {x}| == |s| + if x in s then 0 else 1
  {
    if x in s {
      assert s + {x} == s;
    }
  }

  predicate NamedIn(pool: seq<Full>, refs: seq<nat>, name: Text, i: nat) {
    i in refs && i < |pool| && pool[i].name == name
  }

  lemma NamedMore(pool: seq<Full>, refs: seq<nat>, k: nat)
    requires InPlace(pool, refs) && k < |refs|
    ensures var name := pool[refs[k]].name;
            && NamesAt(pool, refs[..k + 1]) == NamesAt(pool, refs[..k]) + {name}
            && (NamedApart(pool, refs[..k + 1]) <==> NamedApart(pool, refs[..k]) && name !in NamesAt(pool, refs[..k]))
  {
    var more, few := refs[..k + 1], refs[..k];
    assert more[k] == refs[k] && forall i :: 0 <= i < k ==> more[i] == few[i];
    forall name ensures name in NamesAt(pool, more) <==> name in NamesAt(pool, few) || name == pool[refs[k]].name {
      if name in NamesAt(pool, few) {
        var i :| 0 <= i < k && pool[few[i]].name == name;
        assert pool[more[i]].name == name;
      }
      if name == pool[refs[k]].name {
        assert pool[more[k]].name == name;
      }
    }
    if NamedApart(pool, more) {
      assert forall i, j :: 0 <= i < j < k ==> pool[more[i]].name != pool[more[j]].name;
    }
  }

  /** One SKU's indexes: strictly increasing, in the pool, and no two of one name. */
  method CheckRefs(pool: seq<Full>, refs: seq<nat>) returns (own: map<Text, nat>, ok: bool)
    ensures ok <==> AcceptsRefs(pool, refs)
    ensures ok ==> Defaults(pool, refs, own)
  {
    own := map[];
    if refs == [] || !InPlace(pool, refs) || !Pairwise(Lower, refs) {
      assert Ascending(refs) ==> Pairwise(Lower, refs);
      return own, false;
    }
    PairwiseIncreasing(Lower, refs);
    assert Ascending(refs);
    own := NamesOfRefs(pool, refs);
    assert refs[..|refs|] == refs && |own| == |own.Keys|;
    NamesCount(pool, refs, |refs|);
    AcceptsNamed(pool, refs);
    ok := |own| == |refs|;
    forall name | ok && name in own ensures own[name] == RefOf(pool, refs, name) {
      assert NamedIn(pool, refs, name, own[name]);
    }
  }

  /** The pool entries the results of `done` play at one set. */
  function UsedAmong(names: map<Text, Option<nat>>, done: set<Text>): set<nat> {
    set name | name in done && name in names && names[name].Some? :: names[name].value
  }

  function UsedIn(names: map<Text, Option<nat>>): set<nat> {
    UsedAmong(names, names.Keys)
  }

  lemma AmongMore(names: map<Text, Option<nat>>, done: set<Text>, name: Text)
    requires name in names
    ensures UsedAmong(names, done + {name})
         == UsedAmong(names, done) + if names[name].Some? then {names[name].value} else {}
  {
  }

  /** The pool entries the results of the sets `keys` play. */
  function UsedBy(overrides: Overrides, keys: set<Text>): set<nat> {
    set key, i | key in keys && key in overrides && i in UsedIn(overrides[key]) :: i
  }

  lemma UsedMore(overrides: Overrides, keys: set<Text>, key: Text)
    requires key in overrides
    ensures UsedBy(overrides, keys + {key}) == UsedBy(overrides, keys) + UsedIn(overrides[key])
  {
  }

  /** One scene set of a SKU's `by_set`. */
  method CheckSet(pool: seq<Full>, refs: seq<nat>, own: map<Text, nat>, names: map<Text, Option<nat>>)
    returns (used: set<nat>, ok: bool)
    requires Defaults(pool, refs, own)
    ensures ok <==> AcceptsSet(pool, refs, names)
    ensures ok ==> used == UsedIn(names)
  {
    used, ok := {}, true;
    var todo := names.Keys;
    while todo != {}
      invariant todo <= names.Keys
      invariant forall name :: name in names && name !in todo ==> AcceptsPlace(pool, refs, name, names[name])
      invariant used == UsedAmong(names, names.Keys - todo)
    {
      var name :| name in todo;
      if name !in own {
        assert !AcceptsPlace(pool, refs, name, names[name]);
        return used, false;
      }
      if names[name].Some? {
        var i := names[name].value;
        if i >= |pool| || pool[i].name != name || i == own[name] {
          assert !AcceptsPlace(pool, refs, name, names[name]);
          return used, false;
        }
        used := used + {i};
      }
      AmongMore(names, names.Keys - todo, name);
      assert names.Keys - (todo - {name}) == names.Keys - todo + {name};
      todo := todo - {name};
    }
    assert names.Keys - todo == names.Keys;
  }

  method CheckKey(c: Checks, pool: seq<Full>, refs: seq<nat>, own: map<Text, nat>, key: Text, names: map<Text,
                  Option<nat>>)
    returns (used: set<nat>, ok: bool)
    requires Defaults(pool, refs, own)
    ensures ok <==> AcceptsKey(c, pool, refs, key, names)
    ensures ok ==> used == UsedIn(names)
  {
    if !c.setKey(key) || names == map[] {
      return {}, false;
    }
    used, ok := CheckSet(pool, refs, own, names);
  }

  /** One SKU's `by_set`; `used`: the pool entries its results play. */
  method CheckOverrides(c: Checks, pool: seq<Full>, refs: seq<nat>, own: map<Text, nat>, overrides: Overrides)
    returns (used: set<nat>, ok: bool)
    requires Defaults(pool, refs, own)
    ensures ok <==> AcceptsOverrides(c, pool, refs, overrides)
    ensures ok ==> used == UsedBy(overrides, overrides.Keys)
  {
    used, ok := {}, true;
    var done: set<Text> := {};
    while done != overrides.Keys
      invariant done <= overrides.Keys && used == UsedBy(overrides, done)
      invariant forall key :: key in done ==> AcceptsKey(c, pool, refs, key, overrides[key])
      decreases overrides.Keys - done
    {
      var rest := overrides.Keys - done;
      assert done + rest == overrides.Keys;
      var key :| key in rest;
      var more, valid := CheckKey(c, pool, refs, own, key, overrides[key]);
      if !valid {
        return used, false;
      }
      UsedMore(overrides, done, key);
      used, done := used + more, done + {key};
    }
  }

  // ---- The whole store ------------------------------------------------------------------------------------------

  function RefsUsed(skus: map<Text, seq<nat>>, done: set<Text>): set<nat> {
    set sku, i | sku in done && sku in skus && i in skus[sku] :: i
  }

  function SetsUsed(bySet: map<Text, Overrides>, done: set<Text>): set<nat> {
    set sku, i | sku in done && sku in bySet && i in UsedBy(bySet[sku], bySet[sku].Keys) :: i
  }

  lemma RefsMore(skus: map<Text, seq<nat>>, done: set<Text>, sku: Text)
    requires sku in skus
    ensures RefsUsed(skus, done + {sku}) == RefsUsed(skus, done) + set i | i in skus[sku]
  {
  }

  lemma SetsMore(bySet: map<Text, Overrides>, done: set<Text>, sku: Text)
    requires sku in bySet
    ensures SetsUsed(bySet, done + {sku}) == SetsUsed(bySet, done) + UsedBy(bySet[sku], bySet[sku].Keys)
  {
  }

  /** The loop over `skus`. */
  method CheckSkus(c: Checks, store: Store) returns (owns: map<Text, map<Text, nat>>, used: set<nat>, ok: bool)
    ensures ok <==> forall sku :: sku in store.skus ==> AcceptsSku(c, store, sku)
    ensures ok ==> owns.Keys == store.skus.Keys && used == RefsUsed(store.skus, store.skus.Keys)
    ensures ok ==> forall sku :: sku in store.skus ==> Defaults(store.pool, store.skus[sku], owns[sku])
  {
    owns, used, ok := map[], {}, true;
    var todo := store.skus.Keys;
    while todo != {}
      invariant todo <= store.skus.Keys && owns.Keys == store.skus.Keys - todo
      invariant used == RefsUsed(store.skus, store.skus.Keys - todo)
      invariant forall sku :: sku in owns ==>
                  AcceptsSku(c, store, sku) && Defaults(store.pool, store.skus[sku], owns[sku])
    {
      var sku :| sku in todo;
      if !c.sku(sku) {
        assert !AcceptsSku(c, store, sku);
        return owns, used, false;
      }
      var own, valid := CheckRefs(store.pool, store.skus[sku]);
      if !valid {
        assert !AcceptsSku(c, store, sku);
        return owns, used, false;
      }
      RefsMore(store.skus, store.skus.Keys - todo, sku);
      assert store.skus.Keys - (todo - {sku}) == store.skus.Keys - todo + {sku};
      owns, used := owns[sku := own], used + set i | i in store.skus[sku];
      todo := todo - {sku};
    }
    assert store.skus.Keys - todo == store.skus.Keys;
  }

  /** The loop over `by_set`. */
  method CheckSets(c: Checks, store: Store, owns: map<Text, map<Text, nat>>) returns (used: set<nat>, ok: bool)
    requires owns.Keys == store.skus.Keys
    requires forall sku :: sku in store.skus ==> Defaults(store.pool, store.skus[sku], owns[sku])
    ensures ok <==> forall sku :: sku in store.bySet ==> AcceptsSets(c, store, sku)
    ensures ok ==> used == SetsUsed(store.bySet, store.bySet.Keys)
  {
    used, ok := {}, true;
    var done: set<Text> := {};
    while done != store.bySet.Keys
      invariant done <= store.bySet.Keys && used == SetsUsed(store.bySet, done)
      invariant forall sku :: sku in done ==> AcceptsSets(c, store, sku)
      decreases store.bySet.Keys - done
    {
      var rest := store.bySet.Keys - done;
      assert done + rest == store.bySet.Keys;
      var sku :| sku in rest;
      if sku !in owns || store.bySet[sku] == map[] {
        assert !AcceptsSets(c, store, sku);
        return used, false;
      }
      var more, valid := CheckOverrides(c, store.pool, store.skus[sku], owns[sku], store.bySet[sku]);
      if !valid {
        assert !AcceptsSets(c, store, sku);
        return used, false;
      }
      SetsMore(store.bySet, done, sku);
      used, done := used + more, done + {sku};
    }
  }

  lemma UsedIsUsed(store: Store, i: nat)
    ensures Used(store, i) <==> i in RefsUsed(store.skus, store.skus.Keys) + SetsUsed(store.bySet, store.bySet.Keys)
  {
    if sku, key, name :| UsedAt(store, sku, key, name, i) {
      assert i in UsedIn(store.bySet[sku][key]);
      assert i in UsedBy(store.bySet[sku], store.bySet[sku].Keys);
    }
    if i in SetsUsed(store.bySet, store.bySet.Keys) {
      var sku :| sku in store.bySet && i in UsedBy(store.bySet[sku], store.bySet[sku].Keys);
      var key :| key in store.bySet[sku] && i in UsedIn(store.bySet[sku][key]);
      var name :| name in store.bySet[sku][key] && store.bySet[sku][key][name] == Some(i);
      assert UsedAt(store, sku, key, name, i);
    }
  }

  function Indexes(n: nat): (r: set<nat>)
    ensures |r| == n && forall i: nat :: i in r <==> i < n
  {
    if n == 0 then {} else Indexes(n - 1) + {n - 1}
  }

  lemma AllUsed(used: set<nat>, n: nat)
    requires forall i: nat :: i in used ==> i < n
    ensures |used| == n <==> forall i: nat :: i < n ==> i in used
  {
    var all := Indexes(n);
    if |used| == n {
      SubsetSame(used, all);
    }
    if forall i: nat :: i < n ==> i in used {
      assert used == all;
    }
  }

  lemma UsedInPool(c: Checks, store: Store, i: nat)
    requires forall sku :: sku in store.skus ==> AcceptsSku(c, store, sku)
    requires forall sku :: sku in store.bySet ==> AcceptsSets(c, store, sku)
    requires Used(store, i)
    ensures i < |store.pool|
  {
    if sku :| sku in store.skus && i in store.skus[sku] {
      assert AcceptsSku(c, store, sku);
    } else {
      var sku, key, name :| UsedAt(store, sku, key, name, i);
      assert AcceptsSets(c, store, sku) && AcceptsKey(c, store.pool, store.skus[sku], key, store.bySet[sku][key]);
      assert AcceptsPlace(store.pool, store.skus[sku], name, store.bySet[sku][key][name]);
    }
  }

  lemma OrphansCounted(c: Checks, store: Store, used: set<nat>)
    requires forall sku :: sku in store.skus ==> AcceptsSku(c, store, sku)
    requires forall sku :: sku in store.bySet ==> AcceptsSets(c, store, sku)
    requires used == RefsUsed(store.skus, store.skus.Keys) + SetsUsed(store.bySet, store.bySet.Keys)
    ensures |used| == |store.pool| <==> forall i :: 0 <= i < |store.pool| ==> Used(store, i)
  {
    forall i: nat ensures Used(store, i) <==> i in used {
      UsedIsUsed(store, i);
    }
    forall i: nat | i in used ensures i < |store.pool| {
      UsedInPool(c, store, i);
    }
    AllUsed(used, |store.pool|);
  }

  lemma IncreasingPairwise(pool: seq<Full>)
    ensures Increasing(FullLess, pool) <==> Pairwise(FullLess, pool)
  {
    FullOrder();
    if Pairwise(FullLess, pool) {
      PairwiseIncreasing(FullLess, pool);
    }
  }

  /** The check of `skus` and `by_set`, and that no pool entry is an orphan. */
  method CheckIndexes(c: Checks, store: Store) returns (owns: map<Text, map<Text, nat>>, ok: bool)
    ensures ok <==> AcceptsIndexes(c, store)
    ensures ok ==> owns.Keys == store.skus.Keys
    ensures ok ==> forall sku :: sku in store.skus ==> Defaults(store.pool, store.skus[sku], owns[sku])
  {
    var refsUsed, setsUsed: set<nat>;
    owns, refsUsed, ok := CheckSkus(c, store);
    if !ok {
      return;
    }
    setsUsed, ok := CheckSets(c, store, owns);
    if !ok {
      return;
    }
    OrphansCounted(c, store, refsUsed + setsUsed);
    ok := |refsUsed + setsUsed| == |store.pool|;
  }

  /** `_catalogs`'s check of the parsed store; `owns`: each SKU's names with their pool indexes. */
  method CheckStore(c: Checks, store: Store) returns (owns: map<Text, map<Text, nat>>, ok: bool)
    ensures ok <==> Accepts(c, store)
    ensures ok ==> owns.Keys == store.skus.Keys
    ensures ok ==> forall sku :: sku in store.skus ==> Defaults(store.pool, store.skus[sku], owns[sku])
  {
    IncreasingPairwise(store.pool);
    if !ValidPool(c, store.pool) || !Pairwise(FullLess, store.pool) {
      return map[], false;
    }
    owns, ok := CheckIndexes(c, store);
  }

  // ---- The catalogs of every set --------------------------------------------------------------------------------

  /** A SKU's scenes as texts by name: its whole catalog, and the catalog of each set of its `by_set`. */
  datatype Lists = Lists(base: map<Text, Text>, bySet: map<Text, map<Text, Text>>)

  /** `load_scenes`: the catalog of the set's key, or the whole one. */
  function ListAt(l: Lists, key: Text): map<Text, Text> {
    if key in l.bySet then l.bySet[key] else l.base
  }

  function PlaceAt(own: map<Text, nat>, names: map<Text, Option<nat>>, name: Text): Option<nat>
    requires name in own
  {
    if name in names then names[name] else Some(own[name])
  }

  function Picked(pool: seq<Full>, own: map<Text, nat>, names: map<Text, Option<nat>>): map<Text, Text> {
    map name | name in own && EntryAt(pool, PlaceAt(own, names, name)).Some? ::
      EntryAt(pool, PlaceAt(own, names, name)).value
  }

  method PickEach(pool: seq<Full>, own: map<Text, nat>, names: map<Text, Option<nat>>) returns (out: map<Text, Text>)
    ensures out == Picked(pool, own, names)
  {
    out := map[];
    var todo := own.Keys;
    while todo != {}
      invariant todo <= own.Keys
      invariant out == map name | name in own && name !in todo && EntryAt(pool, PlaceAt(own, names, name)).Some? ::
                             EntryAt(pool, PlaceAt(own, names, name)).value
    {
      var name :| name in todo;
      var entry := EntryAt(pool, PlaceAt(own, names, name));
      if entry.Some? {
        out := out[name := entry.value];
      }
      todo := todo - {name};
    }
  }

  method ListEach(pool: seq<Full>, own: map<Text, nat>, overrides: Overrides) returns (l: Lists)
    ensures l.base == Picked(pool, own, map[])
    ensures l.bySet == map key | key in overrides :: Picked(pool, own, overrides[key])
  {
    var base := PickEach(pool, own, map[]);
    var bySet: map<Text, map<Text, Text>> := map[];
    var todo := overrides.Keys;
    while todo != {}
      invariant todo <= overrides.Keys
      invariant bySet == map key | key in overrides && key !in todo :: Picked(pool, own, overrides[key])
    {
      var key :| key in todo;
      var at := PickEach(pool, own, overrides[key]);
      bySet := bySet[key := at];
      todo := todo - {key};
    }
    l := Lists(base, bySet);
  }

  /** `_catalogs` and `load_scenes`: a store the check refuses is refused, and from any other every SKU's list at every
      scene set is what the store holds for it. */
  method LoadCatalogs(c: Checks, store: Store) returns (r: Result<map<Text, Lists>>)
    ensures r.Ok? <==> Accepts(c, store)
    ensures r.Ok? ==> r.value.Keys == store.skus.Keys
    ensures r.Ok? ==> forall sku, key :: sku in store.skus ==> ListAt(r.value[sku], key) == Loaded(c, store, sku, key)
  {
    var owns, ok := CheckStore(c, store);
    if !ok {
      return Err;
    }
    var out: map<Text, Lists> := map[];
    var todo := store.skus.Keys;
    while todo != {}
      invariant todo <= store.skus.Keys && out.Keys == store.skus.Keys - todo
      invariant forall sku, key :: sku in out ==> ListAt(out[sku], key) == Loaded(c, store, sku, key)
    {
      var sku :| sku in todo;
      var l := ListEach(store.pool, owns[sku], Overridden(store, sku));
      forall key ensures ListAt(l, key) == Loaded(c, store, sku, key) {
        assert AcceptsSku(c, store, sku);
        ListLoaded(store.pool, store.skus[sku], Overridden(store, sku), owns[sku], l, key);
      }
      out := out[sku := l];
      todo := todo - {sku};
    }
    r := Ok(out);
  }

  lemma ListLoaded(pool: seq<Full>, refs: seq<nat>, overrides: Overrides, own: map<Text, nat>, l: Lists, key: Text)
    requires Defaults(pool, refs, own) && l.base == Picked(pool, own, map[])
    requires l.bySet == map k | k in overrides :: Picked(pool, own, overrides[k])
    ensures ListAt(l, key) == LoadedOf(pool, refs, overrides, key)
  {
    var names := if key in overrides then overrides[key] else map[];
    assert ListAt(l, key) == Picked(pool, own, names);
    forall name | name in own ensures PlaceAt(own, names, name) == LoadedPlace(pool, refs, overrides, key, name) {
    }
    SameMap(Picked(pool, own, names), LoadedOf(pool, refs, overrides, key));
  }

  // ---- Reading back ---------------------------------------------------------------------------------------------

  /** A scene with its results at the sets `done`. */
  function SceneTo(pool: seq<Full>, entry: Text, overrides: Overrides, done: set<Text>, name: Text): Scene {
    Scene(entry, map key | key in done && key in overrides && name in overrides[key] ::
                       EntryAt(pool, overrides[key][name]))
  }

  /** The catalog read so far: `done` sets whole, and at `key` the names `named`. */
  ghost predicate ReadTo(pool: seq<Full>, own: map<Text, nat>, overrides: Overrides, catalog: Catalog, done: set<Text>,
                         key: Text, named: set<Text>)
    requires forall name :: name in own ==> own[name] < |pool|
  {
    && catalog.Keys == own.Keys
    && forall name :: name in own ==>
         catalog[name] == SceneTo(pool, pool[own[name]].entry, overrides,
                                   if name in named then done + {key} else done, name)
  }

  lemma SceneMore(pool: seq<Full>, entry: Text, overrides: Overrides, done: set<Text>, key: Text, name: Text)
    requires key in overrides
    ensures var scene := SceneTo(pool, entry, overrides, done, name);
            SceneTo(pool, entry, overrides, done + {key}, name)
            == if name in overrides[key] then scene.(bySet := scene.bySet[key := EntryAt(pool, overrides[key][name])])
                else scene
  {
  }

  lemma ReadStep(pool: seq<Full>, own: map<Text, nat>, overrides: Overrides, catalog: Catalog, done: set<Text>,
                 key: Text, named: set<Text>, name: Text)
    requires (forall n :: n in own ==> own[n] < |pool|) && key in overrides && name in overrides[key] && name in own
    requires ReadTo(pool, own, overrides, catalog, done, key, named) && name !in named
    ensures var scene := catalog[name].(bySet := catalog[name].bySet[key := EntryAt(pool, overrides[key][name])]);
            ReadTo(pool, own, overrides, catalog[name := scene], done, key, named + {name})
  {
    SceneMore(pool, pool[own[name]].entry, overrides, done, key, name);
  }

  /** Every name of the set read: the set is done. */
  lemma ReadDone(pool: seq<Full>, own: map<Text, nat>, overrides: Overrides, catalog: Catalog, done: set<Text>,
                 key: Text,
                 next: Text)
    requires (forall n :: n in own ==> own[n] < |pool|) && key in overrides
    requires ReadTo(pool, own, overrides, catalog, done, key, overrides[key].Keys)
    ensures ReadTo(pool, own, overrides, catalog, done + {key}, next, {})
  {
    forall name | name in own
      ensures catalog[name] == SceneTo(pool, pool[own[name]].entry, overrides, done + {key}, name)
    {
      SceneMore(pool, pool[own[name]].entry, overrides, done, key, name);
    }
  }

  method ReadSet(pool: seq<Full>, own: map<Text, nat>, overrides: Overrides, before: Catalog, key: Text,
                 ghost done: set<Text>)
    returns (catalog: Catalog)
    requires (forall name :: name in own ==> own[name] < |pool|) && key in overrides && overrides[key].Keys <= own.Keys
    requires ReadTo(pool, own, overrides, before, done, key, {})
    ensures ReadTo(pool, own, overrides, catalog, done, key, overrides[key].Keys)
  {
    catalog := before;
    var todo, named: set<Text> := overrides[key].Keys, {};
    while todo != {}
      invariant todo !! named && todo + named == overrides[key].Keys
                && ReadTo(pool, own, overrides, catalog, done, key, named)
      decreases todo
    {
      var name :| name in todo;
      ReadStep(pool, own, overrides, catalog, done, key, named, name);
      var scene := catalog[name];
      catalog := catalog[name := scene.(bySet := scene.bySet[key := EntryAt(pool, overrides[key][name])])];
      todo, named := todo - {name}, named + {name};
    }
    assert named == overrides[key].Keys;
  }

  lemma ReadAny(pool: seq<Full>, own: map<Text, nat>, overrides: Overrides, catalog: Catalog, done: set<Text>,
                key: Text, next: Text)
    requires (forall n :: n in own ==> own[n] < |pool|) && ReadTo(pool, own, overrides, catalog, done, key, {})
    ensures ReadTo(pool, own, overrides, catalog, done, next, {})
  {
  }

  lemma ReadNone(pool: seq<Full>, own: map<Text, nat>, overrides: Overrides, catalog: Catalog, key: Text)
    requires forall n :: n in own ==> own[n] < |pool|
    requires catalog == map name | name in own :: Scene(pool[own[name]].entry, map[])
    ensures ReadTo(pool, own, overrides, catalog, {}, key, {})
  {
    forall name | name in own ensures catalog[name] == SceneTo(pool, pool[own[name]].entry, overrides, {}, name) {
      assert SceneTo(pool, pool[own[name]].entry, overrides, {}, name).bySet == map[];
    }
  }

  method ReadSets(pool: seq<Full>, ghost refs: seq<nat>, own: map<Text, nat>,
                  overrides: Overrides) returns (catalog: Catalog)
    requires Defaults(pool, refs, own) && forall key :: key in overrides ==> overrides[key].Keys <= own.Keys
    ensures catalog == ReadCatalog(pool, refs, overrides)
  {
    catalog := map name | name in own :: Scene(pool[own[name]].entry, map[]);
    ReadNone(pool, own, overrides, catalog, "");
    var todo, done: set<Text> := overrides.Keys, {};
    while todo != {}
      invariant todo !! done && todo + done == overrides.Keys && ReadTo(pool, own, overrides, catalog, done, "", {})
      decreases todo
    {
      var key :| key in todo;
      ReadAny(pool, own, overrides, catalog, done, "", key);
      catalog := ReadSet(pool, own, overrides, catalog, key, done);
      ReadDone(pool, own, overrides, catalog, done, key, "");
      todo, done := todo - {key}, done + {key};
    }
    assert done == overrides.Keys;
    ReadWhole(pool, refs, own, overrides, catalog);
  }

  lemma ReadWhole(pool: seq<Full>, refs: seq<nat>, own: map<Text, nat>, overrides: Overrides, catalog: Catalog)
    requires Defaults(pool, refs, own) && ReadTo(pool, own, overrides, catalog, overrides.Keys, "", {})
    ensures catalog == ReadCatalog(pool, refs, overrides)
  {
    forall name | name in own ensures catalog[name] == ReadScene(pool, refs, overrides, name) {
      SceneWhole(pool, refs, overrides, name);
    }
    SameMap(catalog, ReadCatalog(pool, refs, overrides));
  }

  lemma SceneWhole(pool: seq<Full>, refs: seq<nat>, overrides: Overrides, name: Text)
    requires AcceptsRefs(pool, refs) && name in NamesAt(pool, refs)
    ensures SceneTo(pool, pool[RefOf(pool, refs, name)].entry, overrides, overrides.Keys, name)
         == ReadScene(pool, refs, overrides, name)
  {
    SameMap(SceneTo(pool, pool[RefOf(pool, refs, name)].entry, overrides, overrides.Keys, name).bySet,
            ReadScene(pool, refs, overrides, name).bySet);
  }

  /** `read_store`: the catalogs of a store the check accepts. */
  method ReadBack(c: Checks, store: Store) returns (r: Result<map<Text, Catalog>>)
    ensures r.Ok? <==> Accepts(c, store)
    ensures r.Ok? ==> r.value == ReadStore(c, store)
  {
    var owns, ok := CheckStore(c, store);
    if !ok {
      return Err;
    }
    var out: map<Text, Catalog> := map[];
    var todo := store.skus.Keys;
    while todo != {}
      invariant todo <= store.skus.Keys && out.Keys == store.skus.Keys - todo
      invariant forall sku :: sku in out ==> out[sku] == ReadStore(c, store)[sku]
    {
      var sku :| sku in todo;
      OverriddenNames(c, store, sku, owns[sku]);
      var catalog := ReadSets(store.pool, store.skus[sku], owns[sku], Overridden(store, sku));
      out := out[sku := catalog];
      todo := todo - {sku};
    }
    SameMap(out, ReadStore(c, store));
    r := Ok(out);
  }

  lemma OverriddenNames(c: Checks, store: Store, sku: Text, own: map<Text, nat>)
    requires Accepts(c, store) && sku in store.skus && Defaults(store.pool, store.skus[sku], own)
    ensures forall key :: key in Overridden(store, sku) ==> Overridden(store, sku)[key].Keys <= own.Keys
  {
    var overrides := Overridden(store, sku);
    forall key, name | key in overrides && name in overrides[key] ensures name in own {
      assert AcceptsSets(c, store, sku) && AcceptsKey(c, store.pool, store.skus[sku], key, overrides[key]);
      assert AcceptsPlace(store.pool, store.skus[sku], name, overrides[key][name]);
    }
  }
}

/** What the app's scene list shows at each scene set (tools/fetch_scenes.py `listed_effect`), how a fetch stores it
    (`fetch`'s per-set picks), and what the library lists from the store (`load_scenes`): the same at every set. */
module SceneLists {
  import opened Basics
  import opened SceneStore
  import opened Sorting
  import opened Texts

  /** A scene's entry, as the loader takes it. */
  datatype Entry = Entry(code: nat, category: Option<Text>, blob: Option<Text>, paramId: Option<int>,
                         sceneType: Option<int>, cmdVersion: Option<int>, bigEffect: bool, placeholder: bool)

  /** One lightEffect, with the values the app reads of it for the SKU: whether its base scene type is 0, its own
      type and cmdVersion, its DIY codes, its version rules, its window, and its catalog entry (None: no code, or an
      entry the shared check refuses). */
  datatype Effect = Effect(base0: bool, sceneType: Option<int>, cmdVersion: Option<int>, diyCodes: bool, rules: bool,
                           inForce: bool, entry: Option<Entry>)

  function OpType(sceneType: Option<int>, cmdVersion: Option<int>): int {
    var t := if sceneType.Some? then sceneType.value else 0;
    if t == 2 then (if cmdVersion in {None, Some(0)} then 2 else 3)
    else if t == 0 then 0
    else if t == 1 then 1
    else if t == 3 || t == 4 then 4
    else if t == 5 then 5
    else if t == 6 then 6
    else -1
  }

  predicate Supported(e: Effect, ops: set<nat>) {
    var kind := OpType(e.sceneType, e.cmdVersion);
    e.base0 || (kind >= 0 && kind in ops && (kind != 5 || e.diyCodes))
  }

  /** What the list plays at an op set (None: no filter): nothing, an effect its version rules decide, or an effect. */
  datatype Pick = Nothing | Gated | Plays(effect: Effect)

  function Listed(effects: seq<Effect>, ops: Option<set<nat>>): Pick {
    if effects == [] then Nothing
    else if (ops.None? || Supported(effects[0], ops.value)) && effects[0].inForce
    then (if ops.Some? && effects[0].rules then Gated else Plays(effects[0]))
    else Listed(effects[1..], ops)
  }

  /** The op filter of a scene set: the empty set filters nothing. */
  function Filter(versions: set<nat>): Option<set<nat>> {
    if versions == {} then None else Some(versions)
  }

  function PickEntry(p: Pick): Option<Entry> {
    if p.Plays? then p.effect.entry else None
  }

  /** The library can store `e` beside the scene's entry at the union: it has its blob, and is no sceneType-5 upload
      the library does not make (`cut`). */
  predicate Stored(cut: Entry -> bool, e: Entry) {
    !e.placeholder && !cut(e)
  }

  /** What the app's list shows of a scene at a scene set, an effect the library can't store counting as hidden: the
      entry at the union where that plays, else the effect that does. */
  function Shown(cut: Entry -> bool, effects: seq<Effect>, union: Entry, versions: set<nat>): Option<Entry> {
    match PickEntry(Listed(effects, Filter(versions)))
    case None => None
    case Some(e) => if e == union || Stored(cut, e) then Some(e) else None
  }

  // ---- Fetching -------------------------------------------------------------------------------------------------

  /** How an entry is written as text, with the sceneName of a scene stored apart, and read as the loader reads it. */
  datatype Json = Json(write: (Entry, Option<Text>) -> Text, read: Text -> Entry)

  ghost predicate Faithful(json: Json) {
    forall e, own :: json.read(json.write(e, own)) == e
  }

  /** One override of a scene at a smaller set, as fetch works it out; None where the entry at the union plays there. */
  function Override(cut: Entry -> bool, effects: seq<Effect>, union: Entry, versions: set<nat>): Option<Option<Entry>> {
    match Listed(effects, Filter(versions))
    case Nothing => Some(None)
    case Gated => Some(None)
    case Plays(effect) =>
      if effect.entry == Some(union) then None
      else if effect.entry.None? || effect.entry.value.placeholder || cut(effect.entry.value) then Some(None)
      else Some(effect.entry)
  }

  /** A named scene: its entry at the union, the sceneName it records where it is stored apart, its lightEffects. */
  datatype Named = Named(entry: Entry, own: Option<Text>, effects: seq<Effect>)

  /** The smaller sets at which some override is recorded, by key. */
  ghost function OverrideKeys(cut: Entry -> bool, n: Named, smaller: set<set<nat>>): set<Text> {
    set s | s in smaller && Override(cut, n.effects, n.entry, s).Some? :: SetKey(s)
  }

  ghost function SetOf(smaller: set<set<nat>>, key: Text): (s: set<nat>)
    requires exists s :: s in smaller && SetKey(s) == key
    ensures s in smaller && SetKey(s) == key
  {
    var s :| s in smaller && SetKey(s) == key;
    s
  }

  ghost function Written(json: Json, o: Option<Option<Entry>>): Option<Text> {
    if o.Some? && o.value.Some? then Some(json.write(o.value.value, None)) else None
  }

  ghost function Fetched(cut: Entry -> bool, json: Json, n: Named, smaller: set<set<nat>>): Scene {
    Scene(json.write(n.entry, n.own),
          map key | key in OverrideKeys(cut, n, smaller) ::
            Written(json, Override(cut, n.effects, n.entry, SetOf(smaller, key))))
  }

  ghost function FetchedCatalog(cut: Entry -> bool, json: Json, named: map<Text, Named>,
                                smaller: set<set<nat>>): Catalog {
    map name | name in named :: Fetched(cut, json, named[name], smaller)
  }

  ghost predicate PickedTo(cut: Entry -> bool, json: Json, n: Named, smaller: set<set<nat>>, done: set<set<nat>>,
                           bySet: map<Text, Option<Text>>)
    requires done <= smaller
  {
    && (forall key :: key in bySet <==> key in OverrideKeys(cut, n, done))
    && forall s :: s in done && Override(cut, n.effects, n.entry, s).Some? ==>
         Get(bySet, SetKey(s)) == Some(Written(json, Override(cut, n.effects, n.entry, s)))
  }

  /** fetch's loop over the smaller scene sets: each one's result where it differs from the union's, by its key. */
  method PickSets(cut: Entry -> bool, json: Json, n: Named, smaller: set<set<nat>>) returns (scene: Scene)
    ensures scene == Fetched(cut, json, n, smaller)
  {
    var bySet: map<Text, Option<Text>> := map[];
    var todo, done: set<set<nat>> := smaller, {};
    while todo != {}
      invariant todo !! done && todo + done == smaller && PickedTo(cut, json, n, smaller, done, bySet)
      decreases todo
    {
      var s :| s in todo;
      var versions := SortNats(s);
      var key, pick := Joined(versions), Override(cut, n.effects, n.entry, s);
      ghost var was := bySet;
      if pick.Some? {
        bySet := bySet[key := if pick.value.Some? then Some(json.write(pick.value.value, None)) else None];
      }
      PickedMore(cut, json, n, smaller, done, was, s, bySet);
      todo, done := todo - {s}, done + {s};
    }
    assert done == smaller;
    PickedAll(cut, json, n, smaller, bySet);
    scene := Scene(json.write(n.entry, n.own), bySet);
  }

  lemma KeysMore(cut: Entry -> bool, n: Named, done: set<set<nat>>, s: set<nat>)
    ensures OverrideKeys(cut, n, done + {s})
         == OverrideKeys(cut, n, done) + if Override(cut, n.effects, n.entry, s).Some? then {SetKey(s)} else {}
  {
  }

  lemma PickedMore(cut: Entry -> bool, json: Json, n: Named, smaller: set<set<nat>>, done: set<set<nat>>,
                   was: map<Text, Option<Text>>, s: set<nat>, bySet: map<Text, Option<Text>>)
    requires done <= smaller && s in smaller && s !in done && PickedTo(cut, json, n, smaller, done, was)
    requires var pick := Override(cut, n.effects, n.entry, s);
             bySet == if pick.Some? then was[SetKey(s) := Written(json, pick)] else was
    ensures PickedTo(cut, json, n, smaller, done + {s}, bySet)
  {
    PickedKeys(cut, json, n, smaller, done, was, s, bySet);
    forall t | t in done + {s} && Override(cut, n.effects, n.entry, t).Some?
      ensures Get(bySet, SetKey(t)) == Some(Written(json, Override(cut, n.effects, n.entry, t)))
    {
      if t != s {
        ApartKeys(s, t, was, Written(json, Override(cut, n.effects, n.entry, s)));
      }
    }
  }

  lemma PickedKeys(cut: Entry -> bool, json: Json, n: Named, smaller: set<set<nat>>, done: set<set<nat>>,
                   was: map<Text, Option<Text>>, s: set<nat>, bySet: map<Text, Option<Text>>)
    requires done <= smaller && PickedTo(cut, json, n, smaller, done, was)
    requires var pick := Override(cut, n.effects, n.entry, s);
             bySet == if pick.Some? then was[SetKey(s) := Written(json, pick)] else was
    ensures forall key :: key in bySet <==> key in OverrideKeys(cut, n, done + {s})
  {
    KeysMore(cut, n, done, s);
  }

  lemma ApartKeys(s: set<nat>, t: set<nat>, was: map<Text, Option<Text>>, v: Option<Text>)
    requires s != t
    ensures Get(was[SetKey(s) := v], SetKey(t)) == Get(was, SetKey(t))
  {
    if SetKey(s) == SetKey(t) {
      SetKeyInjective(s, t);
    }
  }

  lemma PickedAll(cut: Entry -> bool, json: Json, n: Named, smaller: set<set<nat>>, bySet: map<Text, Option<Text>>)
    requires PickedTo(cut, json, n, smaller, smaller, bySet)
    ensures bySet == Fetched(cut, json, n, smaller).bySet
  {
    var laid := Fetched(cut, json, n, smaller).bySet;
    forall key | key in laid ensures bySet[key] == laid[key] {
      OverrideRecorded(cut, n, smaller, key);
      assert Get(bySet, SetKey(SetOf(smaller, key))) == Some(laid[key]);
    }
    SameMap(bySet, laid);
  }

  // ---- Loading --------------------------------------------------------------------------------------------------

  /** The entry a stored scene plays at a scene set's key (None: not listed there). */
  function PlaysAt(scene: Scene, key: Text): Option<Text> {
    if key in scene.bySet then scene.bySet[key] else Some(scene.entry)
  }

  ghost function LoadedPlace(pool: seq<Full>, refs: seq<nat>, own: Overrides, key: Text, name: Text): Option<nat>
    requires AcceptsRefs(pool, refs) && name in NamesAt(pool, refs)
  {
    if key in own && name in own[key] then own[key][name] else Some(RefOf(pool, refs, name))
  }

  ghost function LoadedOf(pool: seq<Full>, refs: seq<nat>, own: Overrides, key: Text): map<Text, Text>
    requires AcceptsRefs(pool, refs)
  {
    map name | name in NamesAt(pool, refs) && EntryAt(pool, LoadedPlace(pool, refs, own, key, name)).Some? ::
      EntryAt(pool, LoadedPlace(pool, refs, own, key, name)).value
  }

  /** `load_scenes` at a scene set, as texts by name: the catalog `_catalogs` built for its key, or the whole one. */
  ghost function Loaded(c: Checks, store: Store, sku: Text, key: Text): map<Text, Text>
    requires Accepts(c, store) && sku in store.skus
  {
    assert AcceptsSku(c, store, sku);
    LoadedOf(store.pool, store.skus[sku], Overridden(store, sku), key)
  }

  lemma LoadedAt(c: Checks, catalogs: map<Text, Catalog>, store: Store, sku: Text, key: Text, name: Text)
    requires Storable(c, catalogs) && store == Layout(catalogs) && sku in catalogs && Accepts(c, store)
    ensures sku in store.skus
    ensures name in Loaded(c, store, sku, key) <==> name in catalogs[sku] && PlaysAt(catalogs[sku][name], key).Some?
    ensures name in Loaded(c, store, sku, key) ==>
              Some(Loaded(c, store, sku, key)[name]) == PlaysAt(catalogs[sku][name], key)
  {
    LaidCatalog(c, catalogs, sku);
    OverriddenLaid(catalogs, sku);
    if name in catalogs[sku] {
      ReadOverrides(store.pool, catalogs[sku], store.skus[sku], name);
      PlaceRead(store.pool, store.skus[sku], catalogs[sku], key, name);
    }
  }

  lemma PlaceRead(pool: seq<Full>, refs: seq<nat>, catalog: Catalog, key: Text, name: Text)
    requires InPoolAll(pool, catalog) && AcceptsRefs(pool, refs) && name in NamesAt(pool, refs) && name in catalog
    requires pool[RefOf(pool, refs, name)] == Own(name, catalog[name])
    ensures var own := OverridesOf(pool, catalog);
            var place := if key in own && name in own[key] then own[key][name] else Some(RefOf(pool, refs, name));
            EntryAt(pool, place) == PlaysAt(catalog[name], key)
  {
    if key in catalog[name].bySet {
      PickIn(catalog, name, key);
    }
  }

  // ---- End to end -----------------------------------------------------------------------------------------------

  lemma FetchedPlays(cut: Entry -> bool, json: Json, n: Named, smaller: set<set<nat>>, s: set<nat>)
    requires s in smaller
    ensures PlaysAt(Fetched(cut, json, n, smaller), SetKey(s))
         == if Override(cut, n.effects, n.entry, s).Some? then Written(json, Override(cut, n.effects, n.entry, s))
            else Some(json.write(n.entry, n.own))
  {
    var key := SetKey(s);
    if key in OverrideKeys(cut, n, smaller) {
      SetKeyInjective(SetOf(smaller, key), s);
      var t :| t in smaller && Override(cut, n.effects, n.entry, t).Some? && SetKey(t) == key;
      SetKeyInjective(t, s);
    }
  }

  lemma OverrideShows(cut: Entry -> bool, effects: seq<Effect>, union: Entry, s: set<nat>)
    ensures var o, shown := Override(cut, effects, union, s), Shown(cut, effects, union, s);
            if o.None? then shown == Some(union) else shown == o.value
  {
  }

  predicate ReadsAs(json: Json, text: Option<Text>, e: Option<Entry>) {
    if text.None? then e.None? else e == Some(json.read(text.value))
  }

  /** At every smaller set, the fetched scene plays what the app's list shows there. */
  lemma FetchedShows(cut: Entry -> bool, json: Json, n: Named, smaller: set<set<nat>>, s: set<nat>)
    requires Faithful(json) && s in smaller
    ensures ReadsAs(json, PlaysAt(Fetched(cut, json, n, smaller), SetKey(s)), Shown(cut, n.effects, n.entry, s))
  {
    FetchedPlays(cut, json, n, smaller, s);
    OverrideShows(cut, n.effects, n.entry, s);
  }

  /** Every entry fetch writes for the scene has passed the shared check. */
  ghost predicate Checked(c: Checks, json: Json, name: Text, n: Named) {
    && c.entry(name, json.write(n.entry, n.own))
    && forall k :: 0 <= k < |n.effects| && n.effects[k].entry.Some? ==>
         c.entry(name, json.write(n.effects[k].entry.value, None))
  }

  lemma {:induction false} ListedFrom(effects: seq<Effect>, ops: Option<set<nat>>) returns (k: nat)
    requires Listed(effects, ops).Plays?
    ensures k < |effects| && Listed(effects, ops).effect == effects[k]
  {
    if Listed(effects, ops) == Plays(effects[0]) {
      k := 0;
    } else {
      var r := ListedFrom(effects[1..], ops);
      k := r + 1;
    }
  }

  /** What fetch writes is what the tool may store. */
  lemma FetchedStorable(cut: Entry -> bool, c: Checks, json: Json, name: Text, n: Named, smaller: set<set<nat>>)
    requires Faithful(json) && Checked(c, json, name, n) && forall s :: s in smaller ==> c.setKey(SetKey(s))
    ensures var scene := Fetched(cut, json, n, smaller);
            c.entry(name, scene.entry) && StorableSets(c, name, scene)
  {
    var scene := Fetched(cut, json, n, smaller);
    forall key | key in scene.bySet
      ensures c.setKey(key) && scene.bySet[key] != Some(scene.entry)
      ensures scene.bySet[key].Some? ==> c.entry(name, scene.bySet[key].value)
    {
      var s := SetOf(smaller, key);
      FetchedPlays(cut, json, n, smaller, s);
      var o := Override(cut, n.effects, n.entry, s);
      if scene.bySet[key].Some? && o.Some? {
        var k := ListedFrom(n.effects, Filter(s));
        assert json.read(scene.bySet[key].value) == o.value.value != n.entry == json.read(scene.entry);
      } else if o.None? {
        OverrideRecorded(cut, n, smaller, key);
      }
    }
  }

  lemma OverrideRecorded(cut: Entry -> bool, n: Named, smaller: set<set<nat>>, key: Text)
    requires key in OverrideKeys(cut, n, smaller)
    ensures Override(cut, n.effects, n.entry, SetOf(smaller, key)).Some?
  {
    var t :| t in smaller && Override(cut, n.effects, n.entry, t).Some? && SetKey(t) == key;
    SetKeyInjective(t, SetOf(smaller, key));
  }

  /** The scene set fetch filters a SKU's scenes by: the union of its rows' sets. */
  function UnionOf(sets: set<set<nat>>): set<nat> {
    set s, v | s in sets && v in s :: v
  }

  /** The other sets, each scene's list evaluated again at them. */
  function Smaller(sets: set<set<nat>>): set<set<nat>> {
    sets - {UnionOf(sets)}
  }

  /** Each named scene's entry is that of the effect its list plays at the union. */
  predicate NamedAt(named: map<Text, Named>, union: set<nat>) {
    forall n :: n in named ==> PickEntry(Listed(named[n].effects, Filter(union))) == Some(named[n].entry)
  }

  lemma LoadedScene(c: Checks, catalogs: map<Text, Catalog>, store: Store, sku: Text, key: Text, name: Text)
    requires Storable(c, catalogs) && store == Layout(catalogs) && sku in catalogs && Accepts(c, store)
    ensures sku in store.skus
    ensures Get(Loaded(c, store, sku, key), name)
         == if name in catalogs[sku] then PlaysAt(catalogs[sku][name], key) else None
  {
    LoadedAt(c, catalogs, store, sku, key, name);
  }

  /** What the library lists of a fetched scene at a set: what the app's list shows at a smaller one, its entry at any
      other. */
  lemma ScenePlays(cut: Entry -> bool, json: Json, n: Named, smaller: set<set<nat>>, s: set<nat>)
    requires Faithful(json)
    ensures ReadsAs(json, PlaysAt(Fetched(cut, json, n, smaller), SetKey(s)),
                    if s in smaller then Shown(cut, n.effects, n.entry, s) else Some(n.entry))
  {
    if s in smaller {
      FetchedShows(cut, json, n, smaller, s);
    } else if SetKey(s) in OverrideKeys(cut, n, smaller) {
      SetKeyInjective(SetOf(smaller, SetKey(s)), s);
    }
  }

  /** At the union the app's list shows each named scene with the entry it was named by. */
  lemma UnionShows(cut: Entry -> bool, named: map<Text, Named>, union: set<nat>, name: Text)
    requires NamedAt(named, union) && name in named
    ensures Shown(cut, named[name].effects, named[name].entry, union) == Some(named[name].entry)
  {
  }

  /** For a SKU's fetched catalog, stored beside any others: at each of its scene sets, the union among them, the
      library lists exactly the named scenes the app's list shows there, each with the effect it plays; at any other
      set every named scene, with the entry it was named by. */
  lemma ListsAgree(cut: Entry -> bool, c: Checks, json: Json, catalogs: map<Text, Catalog>, store: Store, sku: Text,
                   named: map<Text, Named>, sets: set<set<nat>>, s: set<nat>, name: Text)
    requires Faithful(json) && Storable(c, catalogs) && store == Layout(catalogs) && Accepts(c, store)
    requires sku in catalogs && catalogs[sku] == FetchedCatalog(cut, json, named, Smaller(sets))
    requires NamedAt(named, UnionOf(sets))
    ensures sku in store.skus
    ensures var loaded := Get(Loaded(c, store, sku, SetKey(s)), name);
            if name !in named then loaded == None
            else if s in sets || s == UnionOf(sets)
            then ReadsAs(json, loaded, Shown(cut, named[name].effects, named[name].entry, s))
            else ReadsAs(json, loaded, Some(named[name].entry))
  {
    LoadedScene(c, catalogs, store, sku, SetKey(s), name);
    if name in named {
      FetchedLists(cut, json, named, sets, s, name);
    }
  }

  lemma FetchedLists(cut: Entry -> bool, json: Json, named: map<Text, Named>, sets: set<set<nat>>, s: set<nat>,
                     name: Text)
    requires Faithful(json) && NamedAt(named, UnionOf(sets)) && name in named
    ensures ReadsAs(json, PlaysAt(FetchedCatalog(cut, json, named, Smaller(sets))[name], SetKey(s)),
                    if s in sets || s == UnionOf(sets) then Shown(cut, named[name].effects, named[name].entry, s)
                    else Some(named[name].entry))
  {
    ScenePlays(cut, json, named[name], Smaller(sets), s);
    if s == UnionOf(sets) {
      UnionShows(cut, named, s, name);
    }
  }
}

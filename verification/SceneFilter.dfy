/** What the app's scene list shows (tools/fetch_scenes.py `listed_effect`), told without the filter's own functions:
    which effects a scene set admits, which of them plays, and so what the library lists from the store. */
module SceneFilter {
  import opened Basics
  import opened SceneStore
  import opened SceneLists
  import opened Texts

  // ---- Which effects a set admits -------------------------------------------------------------------------------

  /** `op` is the op type an effect of its kind needs: an RGBIC effect (2) needs 2 without a cmdVersion or at 0, else 3;
      a graffiti (3) or a cube (4) needs 4; one without a type, or of type 0, needs 0; types 1, 5 and 6 their own; any
      other has none. */
  predicate Needs(e: Effect, op: nat) {
    match e.sceneType
    case None => op == 0
    case Some(t) =>
      if t == 2 then op == (if e.cmdVersion.Some? && e.cmdVersion.value != 0 then 3 else 2)
      else if t == 3 then op == 4
      else t in {0, 1, 4, 5, 6} && op == t
  }

  /** What a filter admits: any effect where there is no filter, and a base-0 effect always; a DIY effect (5) only with
      its codes. */
  predicate Admitted(e: Effect, ops: Option<set<nat>>) {
    ops.None? || e.base0
    || ((exists op :: op in ops.value && Needs(e, op)) && (e.sceneType == Some(5) ==> e.diyCodes))
  }

  lemma AdmittedExactly(e: Effect, ops: set<nat>)
    ensures Admitted(e, Some(ops)) <==> Supported(e, ops)
  {
    assert e.cmdVersion in {None, Some(0)} <==> !(e.cmdVersion.Some? && e.cmdVersion.value != 0);
    if !e.base0 && Supported(e, ops) {
      var op: nat := OpType(e.sceneType, e.cmdVersion);
      assert op in ops && Needs(e, op);
    }
    if op :| op in ops && Needs(e, op) {
      assert OpType(e.sceneType, e.cmdVersion) == op;
    }
  }

  // ---- Which of them plays --------------------------------------------------------------------------------------

  predicate Left(e: Effect, ops: Option<set<nat>>) {
    Admitted(e, ops) && e.inForce
  }

  /** Effect `k` is the first one admitted and in force. */
  predicate FirstLeft(effects: seq<Effect>, ops: Option<set<nat>>, k: nat) {
    k < |effects| && Left(effects[k], ops) && forall j :: 0 <= j < k ==> !Left(effects[j], ops)
  }

  /** The list plays the first effect left; its version rules decide exactly where it has some and there is a filter. */
  lemma {:induction false} FirstPlays(effects: seq<Effect>, ops: Option<set<nat>>, k: nat)
    requires FirstLeft(effects, ops, k)
    ensures Listed(effects, ops) == if ops.Some? && effects[k].rules then Gated else Plays(effects[k])
  {
    if ops.Some? {
      AdmittedExactly(effects[0], ops.value);
    }
    if k > 0 {
      assert !Left(effects[0], ops);
      forall j | 0 <= j < k - 1 ensures !Left(effects[1..][j], ops) {
        assert effects[1..][j] == effects[j + 1];
      }
      FirstPlays(effects[1..], ops, k - 1);
    }
  }

  /** It shows something only where an effect is left. */
  lemma {:induction false} SomeLeft(effects: seq<Effect>, ops: Option<set<nat>>) returns (k: nat)
    requires Listed(effects, ops) != Nothing
    ensures FirstLeft(effects, ops, k)
  {
    if ops.Some? {
      AdmittedExactly(effects[0], ops.value);
    }
    if Left(effects[0], ops) {
      k := 0;
    } else {
      var r := SomeLeft(effects[1..], ops);
      k := r + 1;
      forall j | 0 <= j < k ensures !Left(effects[j], ops) {
        assert j > 0 ==> effects[j] == effects[1..][j - 1];
      }
    }
  }

  /** It shows nothing exactly where none is left. */
  lemma NothingExactly(effects: seq<Effect>, ops: Option<set<nat>>)
    ensures Listed(effects, ops) == Nothing <==> forall k :: 0 <= k < |effects| ==> !Left(effects[k], ops)
  {
    if Listed(effects, ops) != Nothing {
      var k := SomeLeft(effects, ops);
    } else if k: nat :| k < |effects| && Left(effects[k], ops) {
      var first := FirstOf(effects, ops, k);
      FirstPlays(effects, ops, first);
    }
  }

  lemma {:induction false} FirstOf(effects: seq<Effect>, ops: Option<set<nat>>, k: nat) returns (first: nat)
    requires k < |effects| && Left(effects[k], ops)
    ensures FirstLeft(effects, ops, first)
  {
    if j: nat :| j < k && Left(effects[j], ops) {
      first := FirstOf(effects, ops, j);
    } else {
      first := k;
    }
  }

  // ---- What the library lists -----------------------------------------------------------------------------------

  /** The entry the app's list shows a scene with at a set, as far as the library can store it: that of the first
      effect left, unless version rules decide it, it has none, or it is a placeholder or a cut upload other than the
      union's. */
  ghost predicate Shows(cut: Entry -> bool, effects: seq<Effect>, union: Entry, versions: set<nat>, e: Entry) {
    exists k: nat :: FirstLeft(effects, Filter(versions), k) && !(versions != {} && effects[k].rules)
                && effects[k].entry == Some(e) && (e == union || (!e.placeholder && !cut(e)))
  }

  lemma ShownExactly(cut: Entry -> bool, effects: seq<Effect>, union: Entry, versions: set<nat>, e: Entry)
    ensures Shown(cut, effects, union, versions) == Some(e) <==> Shows(cut, effects, union, versions, e)
  {
    var ops := Filter(versions);
    if Listed(effects, ops) != Nothing {
      var k := SomeLeft(effects, ops);
      FirstPlays(effects, ops, k);
      forall j: nat | FirstLeft(effects, ops, j) ensures j == k {
      }
    } else if k: nat :| FirstLeft(effects, ops, k) {
      FirstPlays(effects, ops, k);
    }
  }

  /** So at each of the SKU's scene sets the library lists a fetched scene with an entry exactly if that is the entry of
      the first of its effects the set admits and that is in force, no version rules decide it, and it can be stored. */
  lemma ListsShown(cut: Entry -> bool, c: Checks, json: Json, catalogs: map<Text, Catalog>, store: Store, sku: Text,
                   named: map<Text, Named>, sets: set<set<nat>>, s: set<nat>, name: Text, e: Entry)
    requires Faithful(json) && Storable(c, catalogs) && store == Layout(catalogs) && Accepts(c, store)
    requires sku in catalogs && catalogs[sku] == FetchedCatalog(cut, json, named, Smaller(sets))
    requires NamedAt(named, UnionOf(sets)) && (s in sets || s == UnionOf(sets)) && name in named
    ensures sku in store.skus
    ensures var loaded := Get(Loaded(c, store, sku, SetKey(s)), name);
            loaded.Some? && json.read(loaded.value) == e <==> Shows(cut, named[name].effects, named[name].entry, s, e)
  {
    ListsAgree(cut, c, json, catalogs, store, sku, named, sets, s, name);
    ShownExactly(cut, named[name].effects, named[name].entry, s, e);
  }
}

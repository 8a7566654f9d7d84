/** The names listed scenes are stored under (tools/fetch_scenes.py `stored_names`): a multi-pass match of the listed
    scenes to the stored and retired ones, then new names for the rest. */
module SceneNames {
  import opened Basics
  import opened Sorting
  import opened SceneGroups
  import opened SceneLists

  /** A stored or retired scene: its entry at the union, and the sceneName it records where its name differs. */
  datatype Held = Held(entry: Entry, sceneName: Option<Text>)

  /** A listed scene: its sceneName, its entry, and its lightEffects' codes for the SKU. */
  datatype Item = Item(own: Text, entry: Entry, codes: set<nat>)

  datatype Answer = Answer(own: Text, category: Option<Text>, code: nat)

  type Store = map<Text, Held>

  function SceneName(name: Text, e: Held): Text {
    if e.sceneName.Some? && e.sceneName.value != "" then e.sceneName.value else name
  }

  predicate HasBlob(e: Entry) {
    e.blob.Some? && e.blob.value != ""
  }

  predicate IsPlaceholder(e: Entry) {
    e.bigEffect && !HasBlob(e)
  }

  /** An entry whose blob was baked in, as the public library ships it: the placeholder of its param id. */
  function Unresolved(e: Entry): Option<Entry> {
    if !e.bigEffect || e.placeholder || !HasBlob(e) || e.paramId.None? then None
    else Some(e.(blob := None, placeholder := true))
  }

  // ---- The matches, best first ----------------------------------------------------------------------------------

  const MATCHES: nat := 9
  const EXACT: nat := 5
  const RETURN: nat := 3

  predicate SameScene(a: Entry, b: Entry) {
    a.code == b.code && a.category == b.category
  }

  predicate Fitting(k: nat, item: Item, e: Entry) {
    var a := item.entry;
    match k
    case 0 => e == a || Unresolved(e) == Some(a)
    case 1 => SameScene(a, e) && a.blob == e.blob && a.paramId == e.paramId
    case 2 => !IsPlaceholder(a) && !IsPlaceholder(e) && SameScene(a, e) && a.blob == e.blob
    case 3 => SameScene(a, e) && a.paramId == e.paramId
    case 4 => SameScene(a, e)
    case 5 => e.code in item.codes
    case 6 => HasBlob(a) && a.category == e.category && a.blob == e.blob
    case 7 => a.paramId.Some? && a.category == e.category && a.paramId == e.paramId
    case _ => a.category == e.category
  }

  /** What a fetch knows besides the store: what it lists, what the library answers, and the dropped names. */
  datatype Context = Context(listed: seq<Item>, answers: set<Answer>, dropped: set<Text>)

  /** Another listed scene carries the param id. */
  predicate Elsewhere(c: Context, i: nat, pid: Option<int>) {
    pid.Some? && exists j :: 0 <= j < |c.listed| && j != i && c.listed[j].entry.paramId == pid
  }

  predicate StillAt(c: Context, code: nat) {
    exists a :: a in c.answers && a.code == code
  }

  /** A close match may take stored scene `e` of name `n`: it is not dropped, or comes back at a new code, and is not
      a scene the library still answers or lists elsewhere. */
  predicate MayFollow(c: Context, k: nat, i: nat, n: Text, e: Entry)
    requires i < |c.listed|
  {
    var item := c.listed[i];
    && (n !in c.dropped || (k == 6 && e.paramId.Some? && e.paramId == item.entry.paramId))
    && (e.code in item.codes
        || if k >= 7 then !StillAt(c, e.code) && !Elsewhere(c, i, e.paramId)
           else Answer(item.own, e.category, e.code) !in c.answers)
  }

  predicate Hit(c: Context, k: nat, i: nat, n: Text, e: Held)
    requires i < |c.listed|
  {
    && SceneName(n, e) == c.listed[i].own
    && Fitting(k, c.listed[i], e.entry)
    && (k < EXACT || MayFollow(c, k, i, n, e.entry))
  }

  // ---- The passes -----------------------------------------------------------------------------------------------

  datatype State = State(names: seq<Option<Text>>, unsure: set<nat>, live: Store, back: Store)

  function Pool(k: nat, s: State): Store {
    if k < RETURN then s.back + s.live else s.live
  }

  predicate Open(s: State, i: nat) {
    i < |s.names| && s.names[i].None? && i !in s.unsure
  }

  function HitsAt(c: Context, k: nat, s: State, i: nat): set<Text>
    requires i < |c.listed|
  {
    if Open(s, i) then set n | n in Pool(k, s) && Hit(c, k, i, n, Pool(k, s)[n]) else {}
  }

  function HitsOf(c: Context, k: nat, s: State): (fits: Fits)
    ensures |fits| == |c.listed| && forall i :: 0 <= i < |fits| ==> fits[i] == HitsAt(c, k, s, i)
  {
    seq(|c.listed|, i requires 0 <= i < |c.listed| => HitsAt(c, k, s, i))
  }

  function Before(g: set<nat>, i: nat): set<nat> {
    set j | j in g && j < i
  }

  ghost function InOrder(names: set<Text>): (r: seq<Text>)
    ensures |r| == |names| && forall n :: n in r <==> n in names
    ensures forall i, j :: 0 <= i < |r| && 0 <= j < |r| && r[i] == r[j] ==> i == j
  {
    TextOrder();
    var r := Sorted(TextLess, names);
    assert forall i, j :: 0 <= i < |r| && 0 <= j < |r| && r[i] == r[j] ==> i == j by {
      forall i, j | 0 <= i < |r| && 0 <= j < |r| && r[i] == r[j] ensures i == j {
        IncreasingDistinct(TextLess, r, i, j);
      }
    }
    r
  }

  /** The name a pass gives scene `i`: by the whole entry, the one at its place in its group; else its group's one name,
      where the group is one scene and one name. */
  ghost function Given(k: nat, fits: Fits, i: nat): Option<Text>
    requires i < |fits|
  {
    GivenIn(k, Group(fits, i), InOrder(NamesOf(fits, Group(fits, i))), i)
  }

  /** The name of scene `i` of the group `g`, whose names are `names`. */
  function GivenIn(k: nat, g: set<nat>, names: seq<Text>, i: nat): Option<Text> {
    if k == 0 then if |Before(g, i)| < |names| then Some(names[|Before(g, i)|]) else None
    else if g == {i} && |names| == 1 then Some(names[0]) else None
  }

  ghost function GivenAll(k: nat, fits: Fits): set<Text> {
    set i, n | 0 <= i < |fits| && n in NamesOf(fits, Group(fits, i)) && Given(k, fits, i) == Some(n) :: n
  }

  function AllOf(fits: Fits): set<Text> {
    set i, n | 0 <= i < |fits| && n in fits[i] :: n
  }

  ghost function Unpaired(k: nat, fits: Fits): set<nat> {
    set i | 0 <= i < |fits| && fits[i] != {} && Given(k, fits, i).None?
  }

  function NameOf(s: State, i: nat): Option<Text> {
    if i < |s.names| then s.names[i] else None
  }

  ghost function Pass(c: Context, k: nat, s: State): (s': State)
    ensures |s'.names| == |c.listed|
  {
    var fits := HitsOf(c, k, s);
    var gone := GoneAt(k, fits);
    State(seq(|c.listed|, i requires 0 <= i < |c.listed| => if fits[i] == {} then NameOf(s, i) else Given(k, fits, i)),
          if k == 0 then s.unsure else s.unsure + Unpaired(k, fits),
          s.live - gone, s.back - gone)
  }

  function StartOf(c: Context, existing: Store, retired: Store): State {
    State(seq(|c.listed|, _ => None), {}, existing, retired - existing.Keys)
  }

  function Iterate<S>(next: (nat, S) -> S, first: S, k: nat): S {
    if k == 0 then first else next(k - 1, Iterate(next, first, k - 1))
  }

  lemma {:induction false} IterateKeeps<S(!new)>(next: (nat, S) -> S, first: S, k: nat, inv: S -> bool)
    requires inv(first) && forall j, s :: inv(s) ==> inv(next(j, s))
    ensures inv(Iterate(next, first, k))
  {
    if k == 0 {
    } else {
      IterateKeeps(next, first, k - 1, inv);
    }
  }

  ghost function Passing(c: Context): (nat, State) -> State {
    (k: nat, s: State) => Pass(c, k, s)
  }

  /** The state after the first `k` matches. */
  ghost function Passes(c: Context, existing: Store, retired: Store, k: nat): State {
    Iterate(Passing(c), StartOf(c, existing, retired), k)
  }

  // ---- What the passes keep -------------------------------------------------------------------------------------

  /** No listed entry is the placeholder form of another listed one. */
  ghost predicate NoForms(listed: seq<Item>) {
    forall i, j :: 0 <= i < |listed| && 0 <= j < |listed| ==> Unresolved(listed[i].entry) != Some(listed[j].entry)
  }

  /** A retired scene's exact return: its whole entry, its placeholder, or its code, category and blob. */
  predicate ExactReturn(a: Entry, e: Entry) {
    e == a || Unresolved(e) == Some(a) || (SameScene(a, e) && a.blob == e.blob)
  }

  /** The listed scene may be stored under the stored or retired name `n`. */
  ghost predicate Follows(c: Context, i: nat, existing: Store, retired: Store, n: Text)
    requires i < |c.listed|
  {
    var item := c.listed[i];
    if n in existing then SceneName(n, existing[n]) == item.own
    else n in retired && SceneName(n, retired[n]) == item.own && SameScene(item.entry, retired[n].entry)
         && (NoForms(c.listed) ==> ExactReturn(item.entry, retired[n].entry))
  }

  ghost predicate Kept(c: Context, existing: Store, retired: Store, s: State) {
    && |s.names| == |c.listed|
    && (forall n :: n in s.live ==> n in existing && s.live[n] == existing[n])
    && (forall n :: n in s.back ==> n !in existing && n in retired && s.back[n] == retired[n])
    && (forall i :: 0 <= i < |s.names| && s.names[i].Some? ==>
          && Follows(c, i, existing, retired, s.names[i].value)
          && s.names[i].value !in s.live && s.names[i].value !in s.back)
    && (forall i, j :: 0 <= i < j < |s.names| && s.names[i].Some? ==> s.names[i] != s.names[j])
  }

  lemma PoolHolds(c: Context, existing: Store, retired: Store, k: nat, s: State, n: Text)
    requires Kept(c, existing, retired, s) && n in Pool(k, s)
    ensures if n in existing then Pool(k, s)[n] == existing[n]
            else k < RETURN && n in retired && Pool(k, s)[n] == retired[n]
    ensures n in s.live || n in s.back
  {
  }

  /** The scenes of one sceneName, code and category. */
  function Alike(c: Context, i: nat): set<nat>
    requires i < |c.listed|
  {
    set j | 0 <= j < |c.listed| && c.listed[j].own == c.listed[i].own && SameScene(c.listed[j].entry, c.listed[i].entry)
  }

  /** Scenes linked by a whole-entry match are of one sceneName, code and category. */
  lemma WholeGroup(c: Context, s: State, i: nat, j: nat)
    requires |s.names| == |c.listed| && i < |c.listed| && j in Group(HitsOf(c, 0, s), i)
    ensures j in Alike(c, i)
  {
    var fits := HitsOf(c, 0, s);
    forall a: nat, b: nat | a in Alike(c, i) && Linked(fits, a, b) ensures b in Alike(c, i) {
      var n :| n in fits[a] && n in fits[b];
      assert SameScene(c.listed[a].entry, Pool(0, s)[n].entry) && SameScene(c.listed[b].entry, Pool(0, s)[n].entry);
    }
    GroupLeast(fits, i, Alike(c, i));
  }

  /** A name given in a pass is one of the scene's group's. */
  lemma GivenFits(k: nat, fits: Fits, i: nat) returns (j: nat)
    requires i < |fits| && Given(k, fits, i).Some?
    ensures j in Group(fits, i) && j < |fits| && Given(k, fits, i).value in fits[j] && (k > 0 ==> j == i)
  {
    var n := Given(k, fits, i).value;
    assert n in NamesOf(fits, Group(fits, i));
    j :| j in Group(fits, i) && j < |fits| && n in fits[j];
  }

  lemma BeforeGrows(g: set<nat>, i: nat, j: nat)
    requires i in g && i < j
    ensures |Before(g, i)| < |Before(g, j)|
  {
    SubsetSmaller(Before(g, i), Before(g, j) - {i});
  }

  /** No pass gives two scenes one name. */
  lemma GivenDistinct(k: nat, fits: Fits, i: nat, j: nat)
    requires i < j < |fits| && Given(k, fits, i).Some?
    ensures Given(k, fits, i) != Given(k, fits, j)
  {
    if Given(k, fits, i) == Given(k, fits, j) {
      var n := Given(k, fits, i).value;
      assert n in NamesOf(fits, Group(fits, i)) && n in NamesOf(fits, Group(fits, j));
      GroupsApart(fits, i, j, n);
      if k == 0 {
        BeforeGrows(Group(fits, i), i, j);
      }
    }
  }

  /** The names that leave both pools at a pass. */
  ghost function GoneAt(k: nat, fits: Fits): set<Text> {
    if k == 0 then GivenAll(k, fits) else AllOf(fits)
  }

  lemma GivenLeaves(k: nat, fits: Fits, i: nat)
    requires i < |fits| && Given(k, fits, i).Some?
    ensures Given(k, fits, i).value in GoneAt(k, fits) && Given(k, fits, i).value in AllOf(fits)
  {
    var n := Given(k, fits, i).value;
    var j := GivenFits(k, fits, i);
    assert n in NamesOf(fits, Group(fits, i));
  }

  lemma FitsInPool(c: Context, k: nat, s: State, n: Text)
    requires |s.names| == |c.listed| && n in AllOf(HitsOf(c, k, s))
    ensures n in Pool(k, s)
  {
    var i :| 0 <= i < |c.listed| && n in HitsOf(c, k, s)[i];
    assert n in HitsAt(c, k, s, i);
  }

  /** What is given at a pass was in the pool, and leaves it. */
  lemma GivenGone(c: Context, k: nat, s: State, i: nat)
    requires |s.names| == |c.listed| && i < |c.listed| && Given(k, HitsOf(c, k, s), i).Some?
    ensures var n := Given(k, HitsOf(c, k, s), i).value;
            n in Pool(k, s) && n !in Pass(c, k, s).live && n !in Pass(c, k, s).back
  {
    GivenLeaves(k, HitsOf(c, k, s), i);
    FitsInPool(c, k, s, Given(k, HitsOf(c, k, s), i).value);
    PassGone(c, k, s);
  }

  lemma PassGone(c: Context, k: nat, s: State)
    ensures var gone := GoneAt(k, HitsOf(c, k, s));
            Pass(c, k, s).live == s.live - gone && Pass(c, k, s).back == s.back - gone
  {
  }

  lemma GivenFollows(c: Context, existing: Store, retired: Store, k: nat, s: State, i: nat)
    requires Kept(c, existing, retired, s) && i < |c.listed| && Given(k, HitsOf(c, k, s), i).Some?
    ensures Follows(c, i, existing, retired, Given(k, HitsOf(c, k, s), i).value)
  {
    var fits := HitsOf(c, k, s);
    var n := Given(k, fits, i).value;
    var j := GivenFits(k, fits, i);
    assert n in HitsAt(c, k, s, j);
    PoolHolds(c, existing, retired, k, s, n);
    if k == 0 {
      WholeGroup(c, s, i, j);
      if NoForms(c.listed) {
        WholeGroupSame(c, s, i, j);
      }
    }
  }

  /** Where no listed entry is another's placeholder form, scenes linked by a whole-entry match are of one entry. */
  lemma WholeGroupSame(c: Context, s: State, i: nat, j: nat)
    requires |s.names| == |c.listed| && NoForms(c.listed)
    requires i < |c.listed| && j in Group(HitsOf(c, 0, s), i)
    ensures j in Twins(c, i)
  {
    var fits := HitsOf(c, 0, s);
    forall a: nat, b: nat | a in Twins(c, i) && Linked(fits, a, b) ensures b in Twins(c, i) {
      var n :| n in fits[a] && n in fits[b];
      var e := Pool(0, s)[n].entry;
      assert Fitting(0, c.listed[a], e) && Fitting(0, c.listed[b], e);
    }
    GroupLeast(fits, i, Twins(c, i));
  }

  /** The listed scenes of one sceneName and one entry. */
  function Twins(c: Context, i: nat): set<nat>
    requires i < |c.listed|
  {
    set j | 0 <= j < |c.listed| && c.listed[j].own == c.listed[i].own && c.listed[j].entry == c.listed[i].entry
  }

  lemma PassKeeps(c: Context, existing: Store, retired: Store, k: nat, s: State)
    requires Kept(c, existing, retired, s)
    ensures Kept(c, existing, retired, Pass(c, k, s))
  {
    var fits, s' := HitsOf(c, k, s), Pass(c, k, s);
    forall i | 0 <= i < |s'.names| && s'.names[i].Some?
      ensures Follows(c, i, existing, retired, s'.names[i].value)
      ensures s'.names[i].value !in s'.live && s'.names[i].value !in s'.back
    {
      if fits[i] != {} {
        GivenFollows(c, existing, retired, k, s, i);
        GivenGone(c, k, s, i);
      }
    }
    forall i, j | 0 <= i < j < |s'.names| && s'.names[i].Some? ensures s'.names[i] != s'.names[j] {
      NamesApart(c, existing, retired, k, s, i, j);
    }
  }

  lemma NamesApart(c: Context, existing: Store, retired: Store, k: nat, s: State, i: nat, j: nat)
    requires Kept(c, existing, retired, s) && i < j < |s.names| && Pass(c, k, s).names[i].Some?
    ensures Pass(c, k, s).names[i] != Pass(c, k, s).names[j]
  {
    var fits := HitsOf(c, k, s);
    if fits[i] != {} && fits[j] != {} {
      GivenDistinct(k, fits, i, j);
    } else if fits[i] != {} {
      GivenGone(c, k, s, i);
      PoolHolds(c, existing, retired, k, s, Given(k, fits, i).value);
    } else if fits[j] != {} && Given(k, fits, j).Some? {
      GivenGone(c, k, s, j);
      PoolHolds(c, existing, retired, k, s, Given(k, fits, j).value);
    }
  }

  lemma StartKeeps(c: Context, existing: Store, retired: Store)
    ensures Kept(c, existing, retired, StartOf(c, existing, retired))
  {
  }

  ghost function KeptBy(c: Context, existing: Store, retired: Store): State -> bool {
    s => Kept(c, existing, retired, s)
  }

  lemma PassesKeep(c: Context, existing: Store, retired: Store, k: nat)
    ensures Kept(c, existing, retired, Passes(c, existing, retired, k))
  {
    var inv := KeptBy(c, existing, retired);
    StartKeeps(c, existing, retired);
    forall j, s | inv(s) ensures inv(Passing(c)(j, s)) {
      PassKeeps(c, existing, retired, j, s);
    }
    IterateKeeps(Passing(c), StartOf(c, existing, retired), k, inv);
    assert inv(Passes(c, existing, retired, k));
  }
}

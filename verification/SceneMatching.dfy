/** `stored_names` as it runs (tools/fetch_scenes.py): its names, its unsure scenes and its two pools updated match
    by match and group by group, then the new names given out; proved to compute what SceneNames and SceneNaming
    specify. */
module SceneMatching {
  import opened Basics
  import opened Sorting
  import opened SceneGroups
  import opened SceneNames
  import opened SceneNaming

  // ---- One match ------------------------------------------------------------------------------------------------

  /** The stored names no later match takes, of the scenes `done`: the ones given, by the whole entry; else every
      fit. */
  ghost function GoneTo(k: nat, fits: Fits, done: set<nat>): set<Text> {
    if k == 0 then set i, n | i in done && i < |fits| && n in NamesOf(fits, Group(fits, i))
                       && Given(k, fits, i) == Some(n) :: n
    else NamesOf(fits, done)
  }

  /** The state with the groups of the scenes `done` paired. */
  ghost predicate PairedTo(c: Context, k: nat, s: State, fits: Fits, done: set<nat>, t: State) {
    && |t.names| == |fits| == |c.listed| == |s.names|
    && (forall i :: 0 <= i < |fits| ==> t.names[i] == if i in done then Given(k, fits, i) else s.names[i])
    && t.unsure == (if k == 0 then s.unsure else s.unsure + (done * Unpaired(k, fits)))
    && t.live == s.live - GoneTo(k, fits, done) && t.back == s.back - GoneTo(k, fits, done)
  }

  /** Whole groups of scenes that fit something. */
  ghost predicate WholeGroups(fits: Fits, done: set<nat>) {
    forall i :: i in done ==> i < |fits| && fits[i] != {} && Group(fits, i) <= done
  }

  function Elements(order: seq<nat>): set<nat> {
    set i | i in order
  }

  lemma {:induction false} ElementsSize(order: seq<nat>)
    requires Ascending(order)
    ensures |Elements(order)| == |order|
  {
    if order == [] {
    } else {
      var few, last := order[..|order| - 1], order[|order| - 1];
      ElementsSize(few);
      assert last !in few;
      assert Elements(order) == Elements(few) + {last} by {
        assert order == few + [last];
      }
    }
  }

  /** The place of a scene in its sorted group is the number of the group's scenes before it. */
  lemma PlaceIn(order: seq<nat>, group: set<nat>, k: nat)
    requires Ascending(order) && (forall i :: i in order <==> i in group) && k < |order|
    ensures |Before(group, order[k])| == k
  {
    forall i ensures i in Elements(order[..k]) <==> i in Before(group, order[k]) {
      if i in Before(group, order[k]) {
        var q :| 0 <= q < |order| && order[q] == i;
        assert q < k ==> order[..k][q] == i;
      }
      if i in order[..k] {
        var q :| 0 <= q < k && order[..k][q] == i;
        assert order[q] in order;
      }
    }
    ElementsSize(order[..k]);
    assert Elements(order[..k]) == Before(group, order[k]);
  }

  /** Scene `order[q]` has taken the `q`th name, if there is one. */
  predicate TookAt(names: seq<Option<Text>>, order: seq<nat>, fitting: seq<Text>, names': seq<Option<Text>>, q: nat)
    requires q < |order|
  {
    && order[q] < |names| == |names'|
    && names'[order[q]] == if q < |fitting| then Some(fitting[q]) else names[order[q]]
  }

  /** The first `p` scenes of the order have taken theirs. */
  predicate TookTo(names: seq<Option<Text>>, order: seq<nat>, fitting: seq<Text>, names': seq<Option<Text>>, p: nat)
    requires p <= |order|
  {
    && |names'| == |names| && (forall q :: 0 <= q < p ==> TookAt(names, order, fitting, names', q))
    && forall q :: p <= q < |order| ==> order[q] < |names| && names'[order[q]] == names[order[q]]
  }

  lemma TookMore(names: seq<Option<Text>>, order: seq<nat>, fitting: seq<Text>, was: seq<Option<Text>>, p: nat)
    requires Ascending(order) && p < |order| && TookTo(names, order, fitting, was, p)
    ensures order[p] < |was|
    ensures TookTo(names, order, fitting, if p < |fitting| then was[order[p] := Some(fitting[p])] else was, p + 1)
  {
    var now := if p < |fitting| then was[order[p] := Some(fitting[p])] else was;
    forall q | 0 <= q < p + 1 ensures TookAt(names, order, fitting, now, q) {
      assert q < p ==> TookAt(names, order, fitting, was, q) && order[q] < order[p];
    }
  }

  /** The whole-entry pairs of one group: its scenes and its names, each in order, as far as both go. */
  method PairInOrder(names: seq<Option<Text>>, scenes: set<nat>, fitting: seq<Text>)
    returns (names': seq<Option<Text>>, given: set<Text>)
    requires forall i :: i in scenes ==> i < |names|
    ensures |names'| == |names| && forall i :: 0 <= i < |names| && i !in scenes ==> names'[i] == names[i]
    ensures forall i :: i in scenes ==>
              names'[i] == if |Before(scenes, i)| < |fitting| then Some(fitting[|Before(scenes, i)|]) else names[i]
    ensures forall n :: n in given <==>
              exists i :: i in scenes && |Before(scenes, i)| < |fitting| && fitting[|Before(scenes, i)|] == n
  {
    var order := SortNats(scenes);
    names', given := names, {};
    forall q | 0 <= q < |order| ensures order[q] < |names| {
      assert order[q] in scenes;
    }
    for p := 0 to |order|
      invariant |names'| == |names| && forall i :: 0 <= i < |names| && i !in scenes ==> names'[i] == names[i]
      invariant TookTo(names, order, fitting, names', p)
      invariant forall n :: n in given <==> exists q :: 0 <= q < p && q < |fitting| && fitting[q] == n
    {
      assert order[p] in scenes;
      TookMore(names, order, fitting, names', p);
      if p < |fitting| {
        names' := names'[order[p] := Some(fitting[p])];
        given := given + {fitting[p]};
      }
    }
    TookByPlace(names, order, scenes, fitting, names');
    GivenByPlace(order, scenes, fitting, given);
  }

  lemma TookByPlace(names: seq<Option<Text>>, order: seq<nat>, scenes: set<nat>, fitting: seq<Text>,
                    names': seq<Option<Text>>)
    requires Ascending(order) && forall i :: i in order <==> i in scenes
    requires (forall q :: 0 <= q < |order| ==> order[q] < |names|) && |names'| == |names|
    requires TookTo(names, order, fitting, names', |order|)
    ensures forall i :: i in scenes ==>
              names'[i] == if |Before(scenes, i)| < |fitting| then Some(fitting[|Before(scenes, i)|]) else names[i]
  {
    forall i | i in scenes
      ensures names'[i] == if |Before(scenes, i)| < |fitting| then Some(fitting[|Before(scenes, i)|]) else names[i]
    {
      var q :| 0 <= q < |order| && order[q] == i;
      assert TookAt(names, order, fitting, names', q);
      PlaceIn(order, scenes, q);
    }
  }

  lemma GivenByPlace(order: seq<nat>, scenes: set<nat>, fitting: seq<Text>, given: set<Text>)
    requires Ascending(order) && forall i :: i in order <==> i in scenes
    requires forall n :: n in given <==> exists q :: 0 <= q < |order| && q < |fitting| && fitting[q] == n
    ensures forall n :: n in given <==>
              exists i :: i in scenes && |Before(scenes, i)| < |fitting| && fitting[|Before(scenes, i)|] == n
  {
    forall n ensures n in given <==>
              exists i :: i in scenes && |Before(scenes, i)| < |fitting| && fitting[|Before(scenes, i)|] == n
    {
      if n in given {
        var q :| 0 <= q < |order| && q < |fitting| && fitting[q] == n;
        PlaceIn(order, scenes, q);
        assert order[q] in scenes;
      }
      if i :| i in scenes && |Before(scenes, i)| < |fitting| && fitting[|Before(scenes, i)|] == n {
        var q :| 0 <= q < |order| && order[q] == i;
        PlaceIn(order, scenes, q);
      }
    }
  }

  // ---- The groups of one match ----------------------------------------------------------------------------------

  /** A group's scenes all fit something, if its first does, and none is in another group already done. */
  lemma GroupNew(fits: Fits, done: set<nat>, i: nat)
    requires WholeGroups(fits, done) && i < |fits| && fits[i] != {} && i !in done
    ensures forall j :: j in Group(fits, i) ==>
              j < |fits| && fits[j] != {} && Group(fits, j) == Group(fits, i) && j !in done
  {
    var fitting := set j | 0 <= j < |fits| && fits[j] != {};
    assert Closed(fits, fitting);
    GroupLeast(fits, i, fitting);
    forall j | j in Group(fits, i) ensures Group(fits, j) == Group(fits, i) && j !in done {
      GroupSame(fits, i, j);
      assert i in Group(fits, j);
    }
  }

  lemma NoFit(fits: Fits, i: nat)
    requires i < |fits| && fits[i] == {}
    ensures Group(fits, i) == {i} && NamesOf(fits, Group(fits, i)) == {}
  {
    assert Closed(fits, {i});
    GroupLeast(fits, i, {i});
  }

  /** What one group adds to the names gone. */
  lemma GoneMore(k: nat, fits: Fits, done: set<nat>, i: nat, gone: set<Text>)
    requires i < |fits| && (forall j :: j in Group(fits, i) ==> j < |fits| && Group(fits, j) == Group(fits, i))
    requires k == 0 ==> forall n :: n in gone <==> exists j :: j in Group(fits, i) && Given(0, fits, j) == Some(n)
    requires k > 0 ==> gone == NamesOf(fits, Group(fits, i))
    ensures GoneTo(k, fits, done + Group(fits, i)) == GoneTo(k, fits, done) + gone
  {
    if k == 0 {
      forall n, j | j in Group(fits, i) && Given(0, fits, j) == Some(n) ensures n in NamesOf(fits, Group(fits, j)) {
      }
    }
  }

  /** One group paired. */
  lemma PairedMore(c: Context, k: nat, s: State, fits: Fits, done: set<nat>, scenes: set<nat>, t: State,
                   names: seq<Option<Text>>, left: set<nat>, gone: set<Text>)
    requires PairedTo(c, k, s, fits, done, t) && (forall j :: j in scenes ==> j < |fits|)
    requires |names| == |t.names|
    requires forall j :: 0 <= j < |names| ==> names[j] == if j in scenes then Given(k, fits, j) else t.names[j]
    requires k > 0 ==> left == scenes * Unpaired(k, fits)
    requires k == 0 ==> left == {}
    requires GoneTo(k, fits, done + scenes) == GoneTo(k, fits, done) + gone
    ensures PairedTo(c, k, s, fits, done + scenes, State(names, t.unsure + left, t.live - gone, t.back - gone))
  {
    MeetBoth(done, scenes, Unpaired(k, fits));
    Without(s.live, GoneTo(k, fits, done), gone);
    Without(s.back, GoneTo(k, fits, done), gone);
  }

  lemma MeetBoth(a: set<nat>, b: set<nat>, u: set<nat>)
    ensures (a + b) * u == a * u + b * u
  {
  }

  lemma Without(store: Store, a: set<Text>, b: set<Text>)
    ensures store - a - b == store - (a + b)
  {
  }

  /** The name each scene of a group is given. */
  lemma GroupGiven(k: nat, fits: Fits, done: set<nat>, i: nat)
    requires WholeGroups(fits, done) && i < |fits| && fits[i] != {} && i !in done
    ensures forall j :: j in Group(fits, i) ==>
              j < |fits| && Given(k, fits, j) == GivenIn(k, Group(fits, i), InOrder(NamesOf(fits, Group(fits, i))), j)
  {
    GroupNew(fits, done, i);
  }

  lemma WholeMore(fits: Fits, done: set<nat>, i: nat)
    requires WholeGroups(fits, done) && i < |fits| && fits[i] != {} && i !in done
    ensures WholeGroups(fits, done + Group(fits, i))
  {
    GroupNew(fits, done, i);
  }

  ghost predicate OpenFits(s: State, fits: Fits) {
    |s.names| == |fits| && forall j :: 0 <= j < |fits| && fits[j] != {} ==> s.names[j].None?
  }

  lemma NotYet(c: Context, k: nat, s: State, fits: Fits, done: set<nat>, t: State, j: nat)
    requires PairedTo(c, k, s, fits, done, t) && OpenFits(s, fits) && j < |fits| && fits[j] != {} && j !in done
    ensures t.names[j] == None
  {
  }

  /** The whole-entry pairs of one group. */
  lemma PairedWhole(c: Context, s: State, fits: Fits, done: set<nat>, i: nat, t: State, names: seq<Option<Text>>,
                    given: set<Text>)
    requires PairedTo(c, 0, s, fits, done, t) && WholeGroups(fits, done) && i < |fits| && fits[i] != {} && i !in done
    requires OpenFits(s, fits) && |names| == |t.names|
    requires forall j :: 0 <= j < |names| && j !in Group(fits, i) ==> names[j] == t.names[j]
    requires forall j :: j in Group(fits, i) && j < |names| ==>
               names[j] == var g := GivenIn(0, Group(fits, i), InOrder(NamesOf(fits, Group(fits, i))), j);
                           if g.Some? then g else t.names[j]
    requires forall n :: n in given <==>
               exists j :: j in Group(fits, i)
                           && GivenIn(0, Group(fits, i), InOrder(NamesOf(fits, Group(fits, i))), j) == Some(n)
    ensures PairedTo(c, 0, s, fits, done + Group(fits, i), State(names, t.unsure, t.live - given, t.back - given))
  {
    var scenes := Group(fits, i);
    GroupNew(fits, done, i);
    GroupGiven(0, fits, done, i);
    GivenSame(fits, scenes, InOrder(NamesOf(fits, scenes)), given);
    GoneMore(0, fits, done, i, given);
    forall j | j in scenes ensures names[j] == Given(0, fits, j) {
      NotYet(c, 0, s, fits, done, t, j);
    }
    PairedMore(c, 0, s, fits, done, scenes, t, names, {}, given);
    assert t.unsure + {} == t.unsure;
  }

  lemma GivenSame(fits: Fits, scenes: set<nat>, names: seq<Text>, given: set<Text>)
    requires forall j :: j in scenes ==> j < |fits| && Given(0, fits, j) == GivenIn(0, scenes, names, j)
    requires forall n :: n in given <==> exists j :: j in scenes && GivenIn(0, scenes, names, j) == Some(n)
    ensures forall n :: n in given <==> exists j :: j in scenes && Given(0, fits, j) == Some(n)
  {
  }

  /** One group met by a closer match: its one scene takes its one name, or there is no guess. */
  lemma PairedClose(c: Context, k: nat, s: State, fits: Fits, done: set<nat>, i: nat, t: State, one: bool)
    requires k > 0 && PairedTo(c, k, s, fits, done, t) && WholeGroups(fits, done) && i < |fits| && fits[i] != {}
             && i !in done
    requires OpenFits(s, fits)
    requires one == (|Group(fits, i)| == 1 && |InOrder(NamesOf(fits, Group(fits, i)))| == 1)
    ensures var scenes, found := Group(fits, i), NamesOf(fits, Group(fits, i));
            PairedTo(c, k, s, fits, done + scenes,
                     State(if one then t.names[i := Some(InOrder(found)[0])] else t.names,
                           t.unsure + (if one then {} else scenes), t.live - found, t.back - found))
  {
    var scenes, found := Group(fits, i), NamesOf(fits, Group(fits, i));
    var names := if one then t.names[i := Some(InOrder(found)[0])] else t.names;
    GroupNew(fits, done, i);
    CloseGiven(k, fits, done, i, one);
    GoneMore(k, fits, done, i, found);
    forall j | j in scenes ensures Given(k, fits, j) == names[j] {
      NotYet(c, k, s, fits, done, t, j);
      assert one ==> j == i;
    }
    PairedMore(c, k, s, fits, done, scenes, t, names, if one then {} else scenes, found);
  }

  lemma CloseGiven(k: nat, fits: Fits, done: set<nat>, i: nat, one: bool)
    requires k > 0 && WholeGroups(fits, done) && i < |fits| && fits[i] != {} && i !in done
    requires one == (|Group(fits, i)| == 1 && |InOrder(NamesOf(fits, Group(fits, i)))| == 1)
    ensures one ==> Group(fits, i) == {i}
    ensures forall j :: j in Group(fits, i) ==>
              j < |fits| && Given(k, fits, j) == if one then Some(InOrder(NamesOf(fits, Group(fits, i)))[0]) else None
    ensures Group(fits, i) * Unpaired(k, fits) == if one then {} else Group(fits, i)
  {
    var scenes := Group(fits, i);
    GroupNew(fits, done, i);
    GroupGiven(k, fits, done, i);
    forall j | j in scenes ensures |scenes| == 1 <==> scenes == {j} {
      OneScene(scenes, j);
    }
    forall j ensures j in scenes * Unpaired(k, fits) <==> j in scenes && !one {
    }
  }

  lemma OneScene(scenes: set<nat>, i: nat)
    requires i in scenes
    ensures |scenes| == 1 <==> scenes == {i}
  {
    if |scenes| == 1 {
      assert |scenes - {i}| == 0;
    }
  }

  lemma PairedAll(c: Context, k: nat, s: State, fits: Fits, done: set<nat>, t: State)
    requires |s.names| == |c.listed| && fits == HitsOf(c, k, s) && PairedTo(c, k, s, fits, done, t)
    requires forall i :: 0 <= i < |fits| ==> (i in done <==> fits[i] != {})
    requires forall i :: i in done ==> i < |fits|
    ensures t == Pass(c, k, s)
  {
    assert done * Unpaired(k, fits) == Unpaired(k, fits);
    forall i | 0 <= i < |fits| && fits[i] == {} ensures NamesOf(fits, Group(fits, i)) == {} {
      NoFit(fits, i);
    }
    assert GoneTo(k, fits, done) == if k == 0 then GivenAll(k, fits) else AllOf(fits);
    assert t.names == Pass(c, k, s).names;
  }

  method SortNames(names: set<Text>) returns (r: seq<Text>)
    ensures r == InOrder(names)
  {
    TextOrder();
    r := SortSet(TextLess, names);
  }

  /** One group: a walk from its first scene gathers it, and it is paired or left. */
  method PairGroup(c: Context, k: nat, ghost s: State, fits: Fits, ghost done: set<nat>, i: nat, t: State)
    returns (t': State, scenes: set<nat>)
    requires PairedTo(c, k, s, fits, done, t) && WholeGroups(fits, done) && i < |fits| && fits[i] != {} && i !in done
    requires OpenFits(s, fits)
    ensures scenes == Group(fits, i) && PairedTo(c, k, s, fits, done + scenes, t')
  {
    var found;
    scenes, found := Walk(fits, i);
    var fitting := SortNames(found);
    GroupNew(fits, done, i);
    if k == 0 {
      var names, given := PairInOrder(t.names, scenes, fitting);
      PairedWhole(c, s, fits, done, i, t, names, given);
      t' := State(names, t.unsure, t.live - given, t.back - given);
    } else {
      var one := |scenes| == 1 && |fitting| == 1;
      PairedClose(c, k, s, fits, done, i, t, one);
      t' := State(if one then t.names[i := Some(fitting[0])] else t.names,
                  t.unsure + (if one then {} else scenes), t.live - found, t.back - found);
    }
  }

  lemma PairedNone(c: Context, k: nat, s: State, fits: Fits)
    requires |s.names| == |c.listed| == |fits|
    ensures PairedTo(c, k, s, fits, {}, s)
  {
    assert GoneTo(k, fits, {}) == {};
    assert s.live - {} == s.live && s.back - {} == s.back;
  }

  /** The group of scene `i`, unless it was met before. */
  method RunGroup(c: Context, k: nat, ghost s: State, fits: Fits, met: set<nat>, i: nat, t: State)
    returns (t': State, met': set<nat>)
    requires i < |fits| && OpenFits(s, fits) && MetTo(c, k, s, fits, i, met, t)
    ensures MetTo(c, k, s, fits, i + 1, met', t')
  {
    t', met' := t, met;
    if fits[i] != {} && i !in met {
      var scenes;
      t', scenes := PairGroup(c, k, s, fits, met, i, t);
      met' := met + scenes;
      MetMore(c, k, s, fits, i, met, t, t');
    }
  }

  /** The groups of the scenes that fit something, one after the other. */
  method RunGroups(c: Context, k: nat, s: State, fits: Fits) returns (t: State, ghost done: set<nat>)
    requires |s.names| == |c.listed| == |fits| && OpenFits(s, fits)
    ensures PairedTo(c, k, s, fits, done, t)
    ensures forall i :: i in done <==> 0 <= i < |fits| && fits[i] != {}
  {
    var met: set<nat> := {};
    t := s;
    PairedNone(c, k, s, fits);
    for i := 0 to |fits|
      invariant MetTo(c, k, s, fits, i, met, t)
    {
      t, met := RunGroup(c, k, s, fits, met, i, t);
    }
    done := met;
  }

  /** The groups of the first `i` scenes are paired. */
  ghost predicate MetTo(c: Context, k: nat, s: State, fits: Fits, i: nat, met: set<nat>, t: State)
    requires i <= |fits|
  {
    && PairedTo(c, k, s, fits, met, t) && WholeGroups(fits, met)
    && forall j :: 0 <= j < i && fits[j] != {} ==> j in met
  }

  lemma MetMore(c: Context, k: nat, s: State, fits: Fits, i: nat, met: set<nat>, t: State, t': State)
    requires i < |fits| && MetTo(c, k, s, fits, i, met, t) && fits[i] != {} && i !in met
    requires PairedTo(c, k, s, fits, met + Group(fits, i), t')
    ensures MetTo(c, k, s, fits, i + 1, met + Group(fits, i), t')
  {
    WholeMore(fits, met, i);
  }

  lemma OpenHits(c: Context, k: nat, s: State)
    requires |s.names| == |c.listed|
    ensures OpenFits(s, HitsOf(c, k, s))
  {
  }

  /** One match of the listed scenes. */
  method RunPass(c: Context, k: nat, s: State) returns (t: State)
    requires |s.names| == |c.listed|
    ensures t == Pass(c, k, s)
  {
    var fits := HitsOf(c, k, s);
    OpenHits(c, k, s);
    ghost var done;
    t, done := RunGroups(c, k, s, fits);
    PairedAll(c, k, s, fits, done, t);
  }

  /** Every match, best first. */
  method RunPasses(c: Context, existing: Store, retired: Store) returns (s: State)
    ensures s == Passes(c, existing, retired, MATCHES)
  {
    s := StartOf(c, existing, retired);
    for k := 0 to MATCHES
      invariant s == Passes(c, existing, retired, k) && |s.names| == |c.listed|
    {
      s := RunPass(c, k, s);
    }
  }

  // ---- New names ------------------------------------------------------------------------------------------------

  /** Of the new scenes of its sceneName among the first `k`, scene `r` is the top one. */
  ghost predicate TopTo(less: Order, items: seq<Item>, names: seq<Option<Text>>, k: nat, r: nat)
    requires k <= |items| == |names|
  {
    && r < k && names[r].None?
    && forall q :: 0 <= q < k && names[q].None? && items[q].own == items[r].own ==>
         !less(items[r].entry, items[q].entry) && (q < r ==> items[q].entry != items[r].entry)
  }

  ghost predicate Tops(less: Order, items: seq<Item>, names: seq<Option<Text>>, k: nat, tops: map<Text, nat>)
    requires k <= |items| == |names|
  {
    && (forall own :: own in tops ==> TopTo(less, items, names, k, tops[own]) && items[tops[own]].own == own)
    && forall q :: 0 <= q < k && names[q].None? ==> items[q].own in tops
  }

  lemma TopsMore(less: Order, items: seq<Item>, names: seq<Option<Text>>, k: nat, tops: map<Text, nat>)
    requires TotalOrder(less) && k < |items| == |names| && Tops(less, items, names, k, tops)
    ensures var own := items[k].own;
            Tops(less, items, names, k + 1,
                 if names[k].None? && (own !in tops || less(items[tops[own]].entry, items[k].entry))
                 then tops[own := k] else tops)
  {
    var own := items[k].own;
    if names[k].None? && own in tops && less(items[tops[own]].entry, items[k].entry) {
      forall q | 0 <= q < k && names[q].None? && items[q].own == own
        ensures !less(items[k].entry, items[q].entry) && items[q].entry != items[k].entry
      {
        assert !less(items[tops[own]].entry, items[q].entry);
      }
    }
  }

  /** `max` of each sceneName's new scenes, by entry. */
  method FindTops(less: Order, items: seq<Item>, names: seq<Option<Text>>) returns (tops: map<Text, nat>)
    requires TotalOrder(less) && |items| == |names|
    ensures forall own :: own in tops ==>
              tops[own] < |items| && Top(less, items, names, tops[own]) && items[tops[own]].own == own
    ensures forall r :: 0 <= r < |items| && Top(less, items, names, r) ==> Get(tops, items[r].own) == Some(r)
  {
    tops := map[];
    for k := 0 to |items|
      invariant Tops(less, items, names, k, tops)
    {
      TopsMore(less, items, names, k, tops);
      var own := items[k].own;
      if names[k].None? && (own !in tops || less(items[tops[own]].entry, items[k].entry)) {
        tops := tops[own := k];
      }
    }
    forall own | own in tops ensures Top(less, items, names, tops[own]) {
      assert TopTo(less, items, names, |items|, tops[own]);
    }
    forall r | 0 <= r < |items| && Top(less, items, names, r) ensures Get(tops, items[r].own) == Some(r) {
      TopOnly(less, items, names, r, tops[items[r].own]);
    }
  }

  lemma TopOnly(less: Order, items: seq<Item>, names: seq<Option<Text>>, r: nat, q: nat)
    requires TotalOrder(less) && |items| == |names| && r < |items| && q < |items| && items[r].own == items[q].own
    requires Top(less, items, names, r) && Top(less, items, names, q)
    ensures r == q
  {
  }

  /** The plain sceneNames given out: each free one to its top scene. */
  method GivePlain(less: Order, items: seq<Item>, names: seq<Option<Text>>, taken: set<Text>)
    returns (given: seq<Option<Text>>, held: set<Text>)
    requires TotalOrder(less) && |items| == |names|
    ensures |given| == |names| && held == taken + PlainNames(less, items, names, taken)
    ensures forall r :: 0 <= r < |names| ==>
              given[r] == if Plain(less, items, names, taken, r) then Some(items[r].own) else names[r]
  {
    var tops := FindTops(less, items, names);
    given, held := names, taken;
    var todo := tops.Keys;
    while todo != {}
      invariant todo <= tops.Keys && |given| == |names|
      invariant forall r :: 0 <= r < |names| ==>
                  given[r] == if Plain(less, items, names, taken, r) && items[r].own !in todo
                               then Some(items[r].own) else names[r]
      invariant forall n :: n in held <==> n in taken || (n in tops && n !in todo)
    {
      var own :| own in todo;
      todo := todo - {own};
      if own !in taken {
        assert Plain(less, items, names, taken, tops[own]);
        given, held := given[tops[own] := Some(own)], held + {own};
      }
    }
    forall n ensures n in held <==> n in taken + PlainNames(less, items, names, taken) {
      if n in tops && n !in taken {
        assert Plain(less, items, names, taken, tops[n]);
      }
    }
  }

  /** The first free name apart. */
  method FreeApart(own: Text, suffix: Text, held: set<Text>) returns (n: Text)
    ensures n == Apart(own, suffix, NextFree(own, suffix, 1, held)) && n !in held
  {
    ghost var target := NextFree(own, suffix, 1, held);
    var i := 1;
    n := Apart(own, suffix, 1);
    while n in held
      invariant 1 <= i <= target && n == Apart(own, suffix, i)
      decreases target - i
    {
      i := i + 1;
      n := Apart(own, suffix, i);
    }
  }

  /** Every rank's name: the matched one, a plain sceneName, or a name apart. */
  method GiveNames(less: Order, items: seq<Item>, names: seq<Option<Text>>, taken: set<Text>) returns (out: seq<Text>)
    requires TotalOrder(less) && |items| == |names|
    requires forall r :: 0 <= r < |names| && names[r].Some? ==> names[r].value in taken
    ensures out == Named(less, items, names, taken, |items|)
  {
    var given, held := GivePlain(less, items, names, taken);
    out := [];
    for r := 0 to |items|
      invariant out == Named(less, items, names, taken, r)
      invariant held == taken + PlainNames(less, items, names, taken) + set n | n in out
    {
      var n;
      if given[r].Some? {
        n := given[r].value;
        if names[r].None? {
          assert Plain(less, items, names, taken, r);
        }
        assert n in held;
      } else {
        n := FreeApart(items[r].own, Label(items[r].entry), held);
      }
      assert n == NameAt(less, items, names, taken, r, out);
      HeldWith(taken + PlainNames(less, items, names, taken), out, n);
      out, held := out + [n], held + {n};
    }
  }

  lemma HeldWith(before: set<Text>, out: seq<Text>, n: Text)
    ensures before + (set m | m in out + [n]) == before + (set m | m in out) + {n}
  {
  }

  /** `stored_names`, by rank; `order` is Python's `sorted` of the listing. */
  method StoreNames(less: Order, c: Context, existing: Store, retired: Store, order: seq<nat>) returns (out: seq<Text>)
    requires TotalOrder(less) && Ranked(less, c.listed, order)
    ensures out == NamesByRank(less, c, existing, retired, order)
  {
    var s := RunPasses(c, existing, retired);
    var names := seq(|order|, r requires 0 <= r < |order| => NameOf(s, order[r]));
    var items := seq(|order|, r requires 0 <= r < |order| => c.listed[order[r]]);
    var taken := existing.Keys + retired.Keys + set i | 0 <= i < |names| && names[i].Some? :: names[i].value;
    assert names == Matched(c, existing, retired, order) && items == RankedItems(c.listed, order);
    out := GiveNames(less, items, names, taken);
  }
}

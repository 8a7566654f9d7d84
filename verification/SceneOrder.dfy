/** `stored_names` does not depend on the order a response lists its scenes in (tools/fetch_scenes.py): in every order
    each scene gets the same name, given that equal entries of a sceneName have equal code sets and that no listed
    entry is the placeholder form of another. */
module SceneOrder {
  import opened Basics
  import opened Sorting
  import opened SceneGroups
  import opened SceneLists
  import opened SceneNames
  import opened SceneNaming

  // ---- Orders are one to one ------------------------------------------------------------------------------------

  predicate OneToOneOrder(order: seq<nat>) {
    && (forall r :: 0 <= r < |order| ==> order[r] < |order|)
    && forall r, q :: 0 <= r < q < |order| ==> order[r] != order[q]
  }

  function Image(order: seq<nat>, a: set<nat>): set<nat> {
    set r | r in a && r < |order| :: order[r]
  }

  lemma {:induction false} ImageSize(order: seq<nat>, a: set<nat>)
    requires OneToOneOrder(order) && forall r :: r in a ==> r < |order|
    ensures |Image(order, a)| == |a|
    decreases |a|
  {
    if a == {} {
      assert Image(order, a) == {};
    } else {
      var r :| r in a;
      ImageSize(order, a - {r});
      assert Image(order, a) == Image(order, a - {r}) + {order[r]};
      assert order[r] !in Image(order, a - {r});
    }
  }

  lemma {:induction false} BelowSize(n: nat)
    ensures |Below(n)| == n
  {
    if n == 0 {
    } else {
      BelowSize(n - 1);
    }
  }

  lemma Covers(order: seq<nat>, i: nat) returns (r: nat)
    requires OneToOneOrder(order) && i < |order|
    ensures r < |order| && order[r] == i
  {
    AllCovered(order);
    assert i in Image(order, Below(|order|));
    var k :| k in Below(|order|) && k < |order| && order[k] == i;
    r := k;
  }

  lemma AllCovered(order: seq<nat>)
    requires OneToOneOrder(order)
    ensures Image(order, Below(|order|)) == Below(|order|)
  {
    var all := Below(|order|);
    ImageSize(order, all);
    BelowSize(|order|);
    SubsetSame(Image(order, all), all);
  }

  // ---- One pass over the listing and over its ranked form -------------------------------------------------------

  function Ranks(c: Context, order: seq<nat>): Context
    requires OneToOneOrder(order) && |order| == |c.listed|
  {
    c.(listed := seq(|order|, r requires 0 <= r < |order| => c.listed[order[r]]))
  }

  ghost predicate Agree(order: seq<nat>, s: State, t: State) {
    && |s.names| == |t.names| == |order|
    && OneToOneOrder(order)
    && (forall r :: 0 <= r < |order| ==> s.names[order[r]] == t.names[r])
    && (forall r :: 0 <= r < |order| ==> (order[r] in s.unsure <==> r in t.unsure))
    && s.live == t.live && s.back == t.back
  }

  lemma ElsewhereAgrees(c: Context, order: seq<nat>, r: nat, pid: Option<int>)
    requires OneToOneOrder(order) && |order| == |c.listed| && r < |order|
    ensures Elsewhere(c, order[r], pid) <==> Elsewhere(Ranks(c, order), r, pid)
  {
    if Elsewhere(c, order[r], pid) {
      var j :| 0 <= j < |c.listed| && j != order[r] && c.listed[j].entry.paramId == pid;
      var q := Covers(order, j);
      assert Ranks(c, order).listed[q].entry.paramId == pid;
    }
    if Elsewhere(Ranks(c, order), r, pid) {
      var q :| 0 <= q < |order| && q != r && Ranks(c, order).listed[q].entry.paramId == pid;
      assert c.listed[order[q]].entry.paramId == pid && order[q] != order[r];
    }
  }

  lemma HitsAgree(c: Context, order: seq<nat>, k: nat, s: State, t: State, r: nat)
    requires Agree(order, s, t) && |order| == |c.listed| && r < |order|
    ensures HitsAt(c, k, s, order[r]) == HitsAt(Ranks(c, order), k, t, r)
  {
    var d := Ranks(c, order);
    assert Pool(k, s) == Pool(k, t) && Open(s, order[r]) == Open(t, r) && d.listed[r] == c.listed[order[r]];
    forall n | n in Pool(k, s) ensures Hit(c, k, order[r], n, Pool(k, s)[n]) <==> Hit(d, k, r, n, Pool(k, t)[n]) {
      ElsewhereAgrees(c, order, r, Pool(k, s)[n].entry.paramId);
    }
  }

  ghost predicate FitsAgree(order: seq<nat>, fits: Fits, ranked: Fits) {
    && OneToOneOrder(order) && |fits| == |ranked| == |order|
    && forall r :: 0 <= r < |order| ==> fits[order[r]] == ranked[r]
  }

  /** Past the whole-entry match, a name is given where it alone fits the scene and fits no other. */
  lemma GivenOne(k: nat, fits: Fits, i: nat, n: Text)
    requires k > 0 && i < |fits|
    ensures Given(k, fits, i) == Some(n) <==>
            fits[i] == {n} && forall j :: 0 <= j < |fits| && j != i ==> n !in fits[j]
  {
    OneToOne(fits, i, n);
    var names := NamesOf(fits, Group(fits, i));
    if names == {n} {
      assert |names| == 1 && InOrder(names)[0] in names;
    }
    if |InOrder(names)| == 1 && InOrder(names)[0] == n {
      forall m ensures m in names <==> m == n {
        assert m in names <==> m in InOrder(names);
      }
      assert names == {n};
    }
  }

  lemma GivenAgrees(order: seq<nat>, k: nat, fits: Fits, ranked: Fits, r: nat)
    requires k > 0 && FitsAgree(order, fits, ranked) && r < |order|
    ensures Given(k, fits, order[r]) == Given(k, ranked, r)
  {
    forall n ensures Given(k, fits, order[r]) == Some(n) <==> Given(k, ranked, r) == Some(n) {
      GivenOne(k, fits, order[r], n);
      GivenOne(k, ranked, r, n);
      forall j | 0 <= j < |fits| && j != order[r] && n in fits[j]
        ensures exists q :: 0 <= q < |order| && q != r && n in ranked[q] {
        var q := Covers(order, j);
      }
      forall q | 0 <= q < |order| && q != r && n in ranked[q]
        ensures exists j :: 0 <= j < |fits| && j != order[r] && n in fits[j] {
        assert n in fits[order[q]];
      }
    }
    assert Given(k, fits, order[r]).Some? ==> Given(k, ranked, r) == Some(Given(k, fits, order[r]).value);
    assert Given(k, ranked, r).Some? ==> Given(k, fits, order[r]) == Some(Given(k, ranked, r).value);
  }

  /** At the first match, a scene's group is its twins. */
  lemma WholeGroupTwins(c: Context, s: State, i: nat)
    requires NoForms(c.listed) && i < |c.listed| == |s.names| && s.unsure == {}
    requires (forall j :: 0 <= j < |s.names| ==> s.names[j].None?) && HitsAt(c, 0, s, i) != {}
    ensures Group(HitsOf(c, 0, s), i) == Twins(c, i)
    ensures NamesOf(HitsOf(c, 0, s), Group(HitsOf(c, 0, s), i)) == HitsAt(c, 0, s, i)
  {
    var fits := HitsOf(c, 0, s);
    GroupClosed(fits, i);
    forall j | j in Twins(c, i) ensures fits[j] == fits[i] && j in Group(fits, i) {
      assert fits[j] == fits[i];
      assert Linked(fits, i, j);
    }
    forall j | j in Group(fits, i) ensures j in Twins(c, i) {
      WholeGroupSame(c, s, i, j);
    }
    assert i in Group(fits, i);
  }

  /** Twins keep their listing order when ranked, so each has as many twins before it either way. */
  lemma TwinsBefore(less: Order, c: Context, order: seq<nat>, r: nat)
    requires Ranked(less, c.listed, order) && OneToOneOrder(order) && r < |order|
    ensures |Before(Twins(c, order[r]), order[r])| == |Before(Twins(Ranks(c, order), r), r)|
  {
    var d := Ranks(c, order);
    var a := Before(Twins(d, r), r);
    forall i ensures i in Before(Twins(c, order[r]), order[r]) <==> i in Image(order, a) {
      if i in Before(Twins(c, order[r]), order[r]) {
        var q := Covers(order, i);
        assert q < r;
        assert q in a;
      }
    }
    assert Before(Twins(c, order[r]), order[r]) == Image(order, a);
    ImageSize(order, a);
  }

  lemma FitsOfAgree(c: Context, order: seq<nat>, k: nat, s: State, t: State)
    requires Agree(order, s, t) && |order| == |c.listed|
    ensures FitsAgree(order, HitsOf(c, k, s), HitsOf(Ranks(c, order), k, t))
  {
    forall r | 0 <= r < |order| ensures HitsOf(c, k, s)[order[r]] == HitsOf(Ranks(c, order), k, t)[r] {
      HitsAgree(c, order, k, s, t, r);
    }
  }

  lemma AllAgree(order: seq<nat>, fits: Fits, ranked: Fits)
    requires FitsAgree(order, fits, ranked)
    ensures AllOf(fits) == AllOf(ranked)
  {
    forall n ensures n in AllOf(fits) <==> n in AllOf(ranked) {
      if n in AllOf(fits) {
        var i :| 0 <= i < |fits| && n in fits[i];
        var r := Covers(order, i);
        assert n in ranked[r];
      }
      if n in AllOf(ranked) {
        var r :| 0 <= r < |ranked| && n in ranked[r];
        assert n in fits[order[r]];
      }
    }
  }

  lemma PassAgrees(c: Context, order: seq<nat>, k: nat, s: State, t: State)
    requires k > 0 && Agree(order, s, t) && |order| == |c.listed|
    ensures Agree(order, Pass(c, k, s), Pass(Ranks(c, order), k, t))
  {
    var fits, ranked := HitsOf(c, k, s), HitsOf(Ranks(c, order), k, t);
    FitsOfAgree(c, order, k, s, t);
    AllAgree(order, fits, ranked);
    forall r | 0 <= r < |order|
      ensures Given(k, fits, order[r]) == Given(k, ranked, r)
      ensures order[r] in Unpaired(k, fits) <==> r in Unpaired(k, ranked)
    {
      GivenAgrees(order, k, fits, ranked, r);
    }
  }

  // ---- The first pass -------------------------------------------------------------------------------------------

  ghost predicate Fresh(c: Context, s: State) {
    |s.names| == |c.listed| && s.unsure == {} && forall i :: 0 <= i < |s.names| ==> s.names[i].None?
  }

  lemma RankedOneToOne(less: Order, listed: seq<Item>, order: seq<nat>)
    requires Ranked(less, listed, order)
    ensures OneToOneOrder(order)
  {
  }

  lemma NoFormsRanked(c: Context, order: seq<nat>)
    requires NoForms(c.listed) && OneToOneOrder(order) && |order| == |c.listed|
    ensures NoForms(Ranks(c, order).listed)
  {
  }

  lemma FirstGiven(less: Order, c: Context, order: seq<nat>, s: State, t: State, r: nat)
    requires Ranked(less, c.listed, order) && OneToOneOrder(order) && NoForms(c.listed)
    requires Agree(order, s, t) && Fresh(c, s) && Fresh(Ranks(c, order), t) && r < |order|
    requires HitsAt(c, 0, s, order[r]) != {}
    ensures Given(0, HitsOf(c, 0, s), order[r]) == Given(0, HitsOf(Ranks(c, order), 0, t), r)
  {
    HitsAgree(c, order, 0, s, t, r);
    NoFormsRanked(c, order);
    WholeGroupTwins(c, s, order[r]);
    WholeGroupTwins(Ranks(c, order), t, r);
    TwinsBefore(less, c, order, r);
    GivenSame(HitsOf(c, 0, s), order[r], HitsOf(Ranks(c, order), 0, t), r);
  }

  lemma GivenSame(fits: Fits, i: nat, ranked: Fits, r: nat)
    requires i < |fits| && r < |ranked| && NamesOf(fits, Group(fits, i)) == NamesOf(ranked, Group(ranked, r))
    requires |Before(Group(fits, i), i)| == |Before(Group(ranked, r), r)|
    ensures Given(0, fits, i) == Given(0, ranked, r)
  {
  }

  /** The name given, where the scene fits one. */
  lemma FirstNames(less: Order, c: Context, order: seq<nat>, s: State, t: State)
    requires Ranked(less, c.listed, order) && OneToOneOrder(order) && NoForms(c.listed)
    requires Agree(order, s, t) && Fresh(c, s) && Fresh(Ranks(c, order), t)
    ensures GivenAll(0, HitsOf(c, 0, s)) == GivenAll(0, HitsOf(Ranks(c, order), 0, t))
  {
    var fits, ranked := HitsOf(c, 0, s), HitsOf(Ranks(c, order), 0, t);
    FitsOfAgree(c, order, 0, s, t);
    NoFormsRanked(c, order);
    forall n ensures n in GivenAll(0, fits) <==> n in GivenAll(0, ranked) {
      if n in GivenAll(0, fits) {
        FirstGivenRanked(less, c, order, s, t, n);
      }
      if n in GivenAll(0, ranked) {
        FirstGivenListed(less, c, order, s, t, n);
      }
    }
  }

  lemma FirstGivenRanked(less: Order, c: Context, order: seq<nat>, s: State, t: State, n: Text)
    requires Ranked(less, c.listed, order) && OneToOneOrder(order) && NoForms(c.listed)
    requires Agree(order, s, t) && Fresh(c, s) && Fresh(Ranks(c, order), t)
    requires n in GivenAll(0, HitsOf(c, 0, s))
    ensures n in GivenAll(0, HitsOf(Ranks(c, order), 0, t))
  {
    var fits, ranked := HitsOf(c, 0, s), HitsOf(Ranks(c, order), 0, t);
    FitsOfAgree(c, order, 0, s, t);
    var i :| 0 <= i < |fits| && n in NamesOf(fits, Group(fits, i)) && Given(0, fits, i) == Some(n);
    var r := Covers(order, i);
    NonEmpty(c, s, i, n);
    FirstGiven(less, c, order, s, t, r);
    var q := GivenFits(0, ranked, r);
    assert n in NamesOf(ranked, Group(ranked, r));
  }

  lemma FirstGivenListed(less: Order, c: Context, order: seq<nat>, s: State, t: State, n: Text)
    requires Ranked(less, c.listed, order) && OneToOneOrder(order) && NoForms(c.listed)
             && NoForms(Ranks(c, order).listed)
    requires Agree(order, s, t) && Fresh(c, s) && Fresh(Ranks(c, order), t)
    requires n in GivenAll(0, HitsOf(Ranks(c, order), 0, t))
    ensures n in GivenAll(0, HitsOf(c, 0, s))
  {
    var fits, ranked := HitsOf(c, 0, s), HitsOf(Ranks(c, order), 0, t);
    FitsOfAgree(c, order, 0, s, t);
    var r :| 0 <= r < |ranked| && n in NamesOf(ranked, Group(ranked, r)) && Given(0, ranked, r) == Some(n);
    NonEmpty(Ranks(c, order), t, r, n);
    FirstGiven(less, c, order, s, t, r);
    var j := GivenFits(0, fits, order[r]);
    assert n in NamesOf(fits, Group(fits, order[r]));
  }

  /** A scene whose group has a name fits one itself. */
  lemma NonEmpty(c: Context, s: State, i: nat, n: Text)
    requires i < |c.listed| && n in NamesOf(HitsOf(c, 0, s), Group(HitsOf(c, 0, s), i))
    ensures HitsAt(c, 0, s, i) != {}
  {
    var fits := HitsOf(c, 0, s);
    if fits[i] == {} {
      assert Closed(fits, {i});
      GroupLeast(fits, i, {i});
    }
  }

  lemma FirstPassAgrees(less: Order, c: Context, order: seq<nat>, s: State, t: State)
    requires Ranked(less, c.listed, order) && OneToOneOrder(order) && NoForms(c.listed)
    requires Agree(order, s, t) && Fresh(c, s) && Fresh(Ranks(c, order), t)
    ensures Agree(order, Pass(c, 0, s), Pass(Ranks(c, order), 0, t))
  {
    FitsOfAgree(c, order, 0, s, t);
    FirstNames(less, c, order, s, t);
    forall r | 0 <= r < |order| && HitsAt(c, 0, s, order[r]) != {}
      ensures Given(0, HitsOf(c, 0, s), order[r]) == Given(0, HitsOf(Ranks(c, order), 0, t), r)
    {
      FirstGiven(less, c, order, s, t, r);
    }
    FirstFrom(c, order, s, t);
  }

  lemma FirstFrom(c: Context, order: seq<nat>, s: State, t: State)
    requires Agree(order, s, t) && |order| == |c.listed|
    requires FitsAgree(order, HitsOf(c, 0, s), HitsOf(Ranks(c, order), 0, t))
    requires GivenAll(0, HitsOf(c, 0, s)) == GivenAll(0, HitsOf(Ranks(c, order), 0, t))
    requires forall r :: 0 <= r < |order| && HitsAt(c, 0, s, order[r]) != {} ==>
               Given(0, HitsOf(c, 0, s), order[r]) == Given(0, HitsOf(Ranks(c, order), 0, t), r)
    ensures Agree(order, Pass(c, 0, s), Pass(Ranks(c, order), 0, t))
  {
  }

  // ---- Every pass -----------------------------------------------------------------------------------------------

  lemma {:induction false} IterateBoth<S(!new)>(f: (nat, S) -> S, g: (nat, S) -> S, a: S, b: S, k: nat,
                                                rel: (nat, S, S) -> bool)
    requires rel(0, a, b) && forall j: nat, s, t :: rel(j, s, t) ==> rel(j + 1, f(j, s), g(j, t))
    ensures rel(k, Iterate(f, a, k), Iterate(g, b, k))
  {
    if k == 0 {
    } else {
      IterateBoth(f, g, a, b, k - 1, rel);
    }
  }

  ghost function AgreeFrom(c: Context, order: seq<nat>): (nat, State, State) -> bool
    requires OneToOneOrder(order) && |order| == |c.listed|
  {
    (k: nat, s: State, t: State) =>
      Agree(order, s, t) && (k == 0 ==> Fresh(c, s) && Fresh(Ranks(c, order), t))
  }

  lemma StartsAgree(c: Context, existing: Store, retired: Store, order: seq<nat>)
    requires OneToOneOrder(order) && |order| == |c.listed|
    ensures var s, t := StartOf(c, existing, retired), StartOf(Ranks(c, order), existing, retired);
            Agree(order, s, t) && Fresh(c, s) && Fresh(Ranks(c, order), t)
  {
    FreshStart(c, existing, retired);
    FreshStart(Ranks(c, order), existing, retired);
  }

  lemma FreshStart(c: Context, existing: Store, retired: Store)
    ensures Fresh(c, StartOf(c, existing, retired))
  {
  }

  lemma PassesAgree(less: Order, c: Context, existing: Store, retired: Store, order: seq<nat>, k: nat)
    requires Ranked(less, c.listed, order) && OneToOneOrder(order) && NoForms(c.listed)
    ensures Agree(order, Passes(c, existing, retired, k), Passes(Ranks(c, order), existing, retired, k))
  {
    var d, rel := Ranks(c, order), AgreeFrom(c, order);
    forall j: nat, s, t | rel(j, s, t) ensures rel(j + 1, Passing(c)(j, s), Passing(d)(j, t)) {
      if j == 0 {
        FirstPassAgrees(less, c, order, s, t);
      } else {
        PassAgrees(c, order, j, s, t);
      }
    }
    StartsAgree(c, existing, retired, order);
    IterateBoth(Passing(c), Passing(d), StartOf(c, existing, retired), StartOf(d, existing, retired), k, rel);
    assert rel(k, Passes(c, existing, retired, k), Passes(d, existing, retired, k));
  }

  function Same(n: nat): seq<nat> {
    seq(n, r => r)
  }

  /** The names by rank are those of the ranked listing. */
  lemma NamesOfRanked(less: Order, c: Context, existing: Store, retired: Store, order: seq<nat>)
    requires Ranked(less, c.listed, order) && OneToOneOrder(order) && NoForms(c.listed)
    ensures NamesByRank(less, c, existing, retired, order)
         == NamesByRank(less, Ranks(c, order), existing, retired, Same(|order|))
  {
    var d, id := Ranks(c, order), Same(|order|);
    PassesAgree(less, c, existing, retired, order, MATCHES);
    assert RankedItems(c.listed, order) == RankedItems(d.listed, id);
    assert Matched(c, existing, retired, order) == Matched(d, existing, retired, id);
  }

  // ---- Any list order -------------------------------------------------------------------------------------------

  /** Equal entries of one sceneName have equal code sets. */
  ghost predicate CodesAgree(listed: seq<Item>) {
    forall a, b :: a in listed && b in listed && a.own == b.own && a.entry == b.entry ==> a == b
  }

  ghost predicate Chained(less: Order, items: seq<Item>) {
    forall i, j :: 0 <= i < j < |items| ==> RankedBefore(less, items[i], items[j])
  }

  lemma {:induction false} SortedOnce(less: Order, a: seq<Item>, b: seq<Item>)
    requires TotalOrder(less) && Chained(less, a) && Chained(less, b) && multiset(a) == multiset(b) && CodesAgree(a)
    ensures a == b
  {
    if a == [] {
      assert multiset(b) == multiset{};
      assert |b| == 0;
    } else {
      assert b != [] by {
        assert a[0] in multiset(a);
      }
      FirstSame(less, a, b);
      SameTail(a, b);
      SortedOnce(less, a[1..], b[1..]);
    }
  }

  lemma SameTail(a: seq<Item>, b: seq<Item>)
    requires a != [] && b != [] && a[0] == b[0] && multiset(a) == multiset(b)
    ensures multiset(a[1..]) == multiset(b[1..])
  {
    assert a == [a[0]] + a[1..] && b == [b[0]] + b[1..];
    assert multiset(a[1..]) == multiset(a) - multiset{a[0]} == multiset(b[1..]);
  }

  lemma FirstSame(less: Order, a: seq<Item>, b: seq<Item>)
    requires TotalOrder(less) && Chained(less, a) && Chained(less, b) && multiset(a) == multiset(b) && CodesAgree(a)
    requires a != [] && b != []
    ensures a[0] == b[0]
  {
    assert a[0] in multiset(b) && b[0] in multiset(a);
    var i :| 0 <= i < |b| && b[i] == a[0];
    var j :| 0 <= j < |a| && a[j] == b[0];
    if i > 0 && j > 0 {
      assert RankedBefore(less, b[0], a[0]) && RankedBefore(less, a[0], b[0]);
      BothBefore(less, a[0], b[0]);
    }
  }

  lemma BothBefore(less: Order, a: Item, b: Item)
    requires TotalOrder(less) && RankedBefore(less, a, b) && RankedBefore(less, b, a)
    ensures a.own == b.own && a.entry == b.entry
  {
    if TextLess(a.own, b.own) && TextLess(b.own, a.own) {
      TextTransitive(a.own, b.own, a.own);
    }
    TextIrreflexive(a.own);
  }

  lemma TakenOut(items: seq<Item>, r: nat, rest: seq<Item>)
    requires r < |items| && rest == items[..r] + items[r + 1..]
    ensures multiset(items) == multiset(rest) + multiset{items[r]}
  {
    assert items == items[..r] + [items[r]] + items[r + 1..];
  }

  /** The listing without its last scene, in an order without that scene's rank. */
  lemma RankedWithout(listed: seq<Item>, order: seq<nat>, r: nat) returns (rest: seq<nat>)
    requires OneToOneOrder(order) && |order| == |listed| && r < |order| && order[r] == |listed| - 1
    ensures OneToOneOrder(rest) && |rest| == |listed| - 1
    ensures multiset(RankedItems(listed, order))
         == multiset(RankedItems(listed[..|listed| - 1], rest)) + multiset{listed[|listed| - 1]}
  {
    rest := order[..r] + order[r + 1..];
    RankedSkips(listed, order, r);
    TakenOut(RankedItems(listed, order), r, RankedItems(listed[..|listed| - 1], rest));
    assert RankedItems(listed, order)[r] == listed[order[r]];
  }

  lemma RankedSkips(listed: seq<Item>, order: seq<nat>, r: nat)
    requires OneToOneOrder(order) && |order| == |listed| && r < |order| && order[r] == |listed| - 1
    ensures OneToOneOrder(order[..r] + order[r + 1..])
    ensures var items := RankedItems(listed, order);
            RankedItems(listed[..|listed| - 1], order[..r] + order[r + 1..]) == items[..r] + items[r + 1..]
  {
    var rest := order[..r] + order[r + 1..];
    var items, inner := RankedItems(listed, order), RankedItems(listed[..|listed| - 1], rest);
    forall k | 0 <= k < |rest| ensures inner[k] == (items[..r] + items[r + 1..])[k] {
      assert rest[k] == if k < r then order[k] else order[k + 1];
    }
  }

  lemma {:induction false} RankedMultiset(listed: seq<Item>, order: seq<nat>)
    requires OneToOneOrder(order) && |order| == |listed|
    ensures multiset(RankedItems(listed, order)) == multiset(listed)
    decreases |listed|
  {
    if listed == [] {
      assert RankedItems(listed, order) == [];
    } else {
      var n := |listed| - 1;
      var r := Covers(order, n);
      var rest := RankedWithout(listed, order, r);
      RankedMultiset(listed[..n], rest);
      LastOut(listed);
    }
  }

  lemma LastOut(items: seq<Item>)
    requires items != []
    ensures multiset(items) == multiset(items[..|items| - 1]) + multiset{items[|items| - 1]}
  {
    assert items == items[..|items| - 1] + [items[|items| - 1]];
  }

  lemma SameElements(a: seq<Item>, b: seq<Item>)
    requires multiset(a) == multiset(b)
    ensures forall x :: x in a <==> x in b
    ensures NoForms(a) ==> NoForms(b)
    ensures CodesAgree(a) ==> CodesAgree(b)
  {
    forall x ensures x in a <==> x in b {
      assert x in a <==> x in multiset(a);
      assert x in b <==> x in multiset(b);
    }
    if NoForms(a) {
      forall i, j | 0 <= i < |b| && 0 <= j < |b| ensures Unresolved(b[i].entry) != Some(b[j].entry) {
        assert b[i] in a && b[j] in a;
      }
    }
  }

  /** Whatever order the same scenes are listed in, their ranked list and the names by rank are the same: every
      permutation of a listing stores the same pairs of scene and name. */
  lemma AnyOrder(less: Order, c: Context, d: Context, existing: Store, retired: Store, order: seq<nat>, other: seq<nat>)
    requires TotalOrder(less) && multiset(c.listed) == multiset(d.listed)
    requires c.answers == d.answers && c.dropped == d.dropped
    requires Ranked(less, c.listed, order) && Ranked(less, d.listed, other)
    requires NoForms(c.listed) && CodesAgree(c.listed)
    ensures RankedItems(c.listed, order) == RankedItems(d.listed, other)
    ensures NamesByRank(less, c, existing, retired, order) == NamesByRank(less, d, existing, retired, other)
  {
    RankedOneToOne(less, c.listed, order);
    RankedOneToOne(less, d.listed, other);
    SameElements(c.listed, d.listed);
    RankedMultiset(c.listed, order);
    RankedMultiset(d.listed, other);
    var a, b := RankedItems(c.listed, order), RankedItems(d.listed, other);
    SameElements(c.listed, a);
    SortedOnce(less, a, b);
    NamesOfRanked(less, c, existing, retired, order);
    NamesOfRanked(less, d, existing, retired, other);
    assert Ranks(c, order).listed == a && Ranks(d, other).listed == b;
    assert Ranks(c, order) == Ranks(d, other);
  }
}

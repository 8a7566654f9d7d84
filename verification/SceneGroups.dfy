/** The connected groups of a listed-scene / stored-name fit (tools/fetch_scenes.py `_groups`). `fits[i]` holds the
    stored names that fit listed scene `i`; scenes that share a fitting name are connected. */
module SceneGroups {
  type Text = string

  type Fits = seq<set<Text>>

  predicate Linked(fits: Fits, i: nat, j: nat) {
    i < |fits| && j < |fits| && exists n :: n in fits[i] && n in fits[j]
  }

  ghost predicate Closed(fits: Fits, group: set<nat>) {
    forall i, j :: i in group && Linked(fits, i, j) ==> j in group
  }

  /** Every closed set that holds `i` holds `j`. */
  ghost predicate Reached(fits: Fits, i: nat, j: nat) {
    forall d :: Closed(fits, d) && i in d ==> j in d
  }

  /** The connected group of scene `i`: what every closed set that holds it holds. */
  ghost function Group(fits: Fits, i: nat): (g: set<nat>)
    requires i < |fits|
    ensures i in g
  {
    set j | 0 <= j < |fits| && Reached(fits, i, j)
  }

  function NamesOf(fits: Fits, group: set<nat>): set<Text> {
    set i, n | i in group && i < |fits| && n in fits[i] :: n
  }

  lemma GroupClosed(fits: Fits, i: nat)
    requires i < |fits|
    ensures Closed(fits, Group(fits, i))
  {
    forall j, k | j in Group(fits, i) && Linked(fits, j, k) ensures k in Group(fits, i) {
      assert Reached(fits, i, j);
      forall d | Closed(fits, d) && i in d ensures k in d {
        assert j in d;
      }
      assert Reached(fits, i, k);
    }
  }

  /** Any closed set with `i` in it holds its group. */
  lemma GroupLeast(fits: Fits, i: nat, d: set<nat>)
    requires i < |fits| && Closed(fits, d) && i in d
    ensures Group(fits, i) <= d
  {
    assert forall j :: j in Group(fits, i) ==> Reached(fits, i, j);
  }

  lemma LinkSymmetric(fits: Fits, i: nat, j: nat)
    requires Linked(fits, i, j)
    ensures Linked(fits, j, i)
  {
  }

  lemma GroupSame(fits: Fits, i: nat, j: nat)
    requires i < |fits| && j in Group(fits, i)
    ensures Group(fits, j) == Group(fits, i)
  {
    GroupClosed(fits, i);
    GroupClosed(fits, j);
    GroupLeast(fits, j, Group(fits, i));
    var rest := Group(fits, i) - Group(fits, j);
    if i in rest {
      forall a, b | a in rest && Linked(fits, a, b) ensures b in rest {
        LinkSymmetric(fits, a, b);
      }
      GroupLeast(fits, i, rest);
    } else {
      GroupLeast(fits, i, Group(fits, j));
    }
  }

  /** Two groups that share a name are one. */
  lemma GroupsApart(fits: Fits, i: nat, j: nat, n: Text)
    requires i < |fits| && j < |fits|
    requires n in NamesOf(fits, Group(fits, i)) && n in NamesOf(fits, Group(fits, j))
    ensures Group(fits, i) == Group(fits, j)
  {
    var a :| a in Group(fits, i) && a < |fits| && n in fits[a];
    var b :| b in Group(fits, j) && b < |fits| && n in fits[b];
    assert Linked(fits, a, b);
    GroupClosed(fits, i);
    GroupSame(fits, i, b);
    GroupSame(fits, j, b);
  }

  predicate Alone(fits: Fits, i: nat, n: Text)
    requires i < |fits|
  {
    fits[i] == {n} && forall j :: 0 <= j < |fits| && n in fits[j] ==> j == i
  }

  /** A group is one scene and one name exactly if the scene fits that name alone and no other scene fits it. */
  lemma OneToOne(fits: Fits, i: nat, n: Text)
    requires i < |fits|
    ensures Group(fits, i) == {i} && NamesOf(fits, Group(fits, i)) == {n} <==> Alone(fits, i, n)
  {
    if Alone(fits, i, n) {
      assert Closed(fits, {i});
      GroupLeast(fits, i, {i});
    }
    if Group(fits, i) == {i} && NamesOf(fits, Group(fits, i)) == {n} {
      forall m ensures m in fits[i] <==> m == n {
        assert m in NamesOf(fits, {i}) <==> m in fits[i];
      }
      forall j: nat | j < |fits| && n in fits[j] ensures j == i {
        LinkedIn(fits, i, j, n);
      }
    }
  }

  lemma LinkedIn(fits: Fits, i: nat, j: nat, n: Text)
    requires i < |fits| && j < |fits| && n in fits[i] && n in fits[j]
    ensures j in Group(fits, i)
  {
    GroupClosed(fits, i);
    assert Linked(fits, i, j);
  }

  function Below(n: nat): (r: set<nat>)
    ensures forall i :: i in r <==> 0 <= i < n
  {
    if n == 0 then {} else Below(n - 1) + {n - 1}
  }

  function Holders(fits: Fits, n: Text): set<nat> {
    set i | 0 <= i < |fits| && n in fits[i]
  }

  /** The worklist walk from one scene: it gathers the scene's group and the group's names. */
  method Walk(fits: Fits, first: nat) returns (scenes: set<nat>, names: set<Text>)
    requires first < |fits|
    ensures scenes == Group(fits, first) && names == NamesOf(fits, scenes)
  {
    scenes, names := {}, {};
    var todo := [first];
    ghost var all := Below(|fits|);
    while todo != []
      invariant scenes <= Group(fits, first) && forall i :: i in todo ==> i in Group(fits, first)
      invariant first in scenes || first in todo
      invariant forall n :: n in names <==> exists i :: i in scenes && i < |fits| && n in fits[i]
      invariant forall n, i :: n in names && i in Holders(fits, n) ==> i in scenes || i in todo
      decreases all - scenes, |todo|
    {
      var i := todo[|todo| - 1];
      assert i in Group(fits, first);
      todo := todo[..|todo| - 1];
      if i !in scenes {
        GroupClosed(fits, first);
        assert i in all;
        var more := fits[i] - names;
        scenes := scenes + {i};
        names := names + fits[i];
        todo := Extended(fits, first, i, todo, more);
      }
    }
    forall i: nat, j: nat | i in scenes && Linked(fits, i, j) ensures j in scenes {
      var n :| n in fits[i] && n in fits[j];
      assert n in names && j in Holders(fits, n);
    }
    GroupLeast(fits, first, scenes);
  }

  /** `todo` with the holders of each new name appended, in any order of the names. */
  method Extended(fits: Fits, first: nat, i: nat, todo: seq<nat>, more: set<Text>) returns (longer: seq<nat>)
    requires first < |fits| && i in Group(fits, first) && i < |fits| && more <= fits[i]
    requires forall j :: j in todo ==> j in Group(fits, first)
    ensures forall j :: j in longer ==> j in Group(fits, first)
    ensures forall j :: j in todo ==> j in longer
    ensures forall n, j :: n in more && j in Holders(fits, n) ==> j in longer
  {
    longer := todo;
    var left := more;
    while left != {}
      invariant left <= more
      invariant forall j :: j in longer ==> j in Group(fits, first)
      invariant forall j :: j in todo ==> j in longer
      invariant forall n, j :: n in more - left && j in Holders(fits, n) ==> j in longer
    {
      var n :| n in left;
      GroupClosed(fits, first);
      var holders := Holders(fits, n);
      forall j | j in holders ensures j in Group(fits, first) {
        assert Linked(fits, i, j);
      }
      longer := AppendAll(longer, holders);
      left := left - {n};
    }
  }

  method AppendAll(s: seq<nat>, more: set<nat>) returns (r: seq<nat>)
    ensures forall i :: i in r <==> i in s || i in more
  {
    r := s;
    var left := more;
    while left != {}
      invariant left <= more && forall i :: i in r <==> i in s || i in more - left
    {
      var i :| i in left;
      r := r + [i];
      left := left - {i};
    }
  }
}

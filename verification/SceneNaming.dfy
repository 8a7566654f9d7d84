/** The end of `stored_names` (tools/fetch_scenes.py): names for the scenes no stored one matched, and what holds of the
    whole result: no name twice, no new name the store or the tombstone holds, and the same pairs in any list order. */
module SceneNaming {
  import opened Basics
  import opened Sorting
  import opened Texts
  import opened SceneGroups
  import opened SceneLists
  import opened SceneNames

  type Order = (Entry, Entry) -> bool

  // ---- Names stored apart ---------------------------------------------------------------------------------------

  function Label(e: Entry): Text {
    if e.category.Some? && e.category.value != "" then e.category.value else "no category"
  }

  function Apart(own: Text, suffix: Text, n: nat): Text {
    own + " (" + suffix + (if n <= 1 then ")" else ", " + Decimal(n) + ")")
  }

  lemma ApartInjective(own: Text, suffix: Text, m: nat, n: nat)
    requires m >= 1 && n >= 1 && Apart(own, suffix, m) == Apart(own, suffix, n)
    ensures m == n
  {
    var head := own + " (" + suffix;
    var a, b := if m <= 1 then ")" else ", " + Decimal(m) + ")", if n <= 1 then ")" else ", " + Decimal(n) + ")";
    assert a == Apart(own, suffix, m)[|head|..] && b == Apart(own, suffix, n)[|head|..];
    assert |a| == 1 <==> m <= 1;
    assert |b| == 1 <==> n <= 1;
    if m > 1 && n > 1 {
      assert Decimal(m) == a[2..|a| - 1] && Decimal(n) == b[2..|b| - 1];
      DecimalInjective(m, n);
    }
  }

  /** The first number from `n` on whose name apart is free. */
  function NextFree(own: Text, suffix: Text, n: nat, taken: set<Text>): (r: nat)
    requires n >= 1
    ensures r >= n && Apart(own, suffix, r) !in taken
    ensures forall m :: n <= m < r ==> Apart(own, suffix, m) in taken
    decreases |taken|
  {
    var first := Apart(own, suffix, n);
    if first !in taken then n
    else
      var r := NextFree(own, suffix, n + 1, taken - {first});
      assert Apart(own, suffix, r) != first by {
        if Apart(own, suffix, r) == first {
          ApartInjective(own, suffix, r, n);
        }
      }
      r
  }

  // ---- By rank --------------------------------------------------------------------------------------------------

  /** The listing's order: sorted by sceneName, then by entry; alike ones as they are listed (a stable sort). */
  ghost predicate Ranked(less: Order, listed: seq<Item>, order: seq<nat>) {
    && |order| == |listed|
    && (forall r :: 0 <= r < |order| ==> order[r] < |listed|)
    && (forall r, q :: 0 <= r < q < |order| ==>
          order[r] != order[q] && RankedBefore(less, listed[order[r]], listed[order[q]])
          && (listed[order[r]].own == listed[order[q]].own && listed[order[r]].entry == listed[order[q]].entry
              ==> order[r] < order[q]))
  }

  predicate RankedBefore(less: Order, a: Item, b: Item) {
    TextLess(a.own, b.own) || (a.own == b.own && (less(a.entry, b.entry) || a.entry == b.entry))
  }

  ghost function RankedItems(listed: seq<Item>, order: seq<nat>): (r: seq<Item>)
    requires forall r :: 0 <= r < |order| ==> order[r] < |listed|
    ensures |r| == |order|
  {
    seq(|order|, r requires 0 <= r < |order| => listed[order[r]])
  }

  /** The matched names, by rank. */
  ghost function Matched(c: Context, existing: Store, retired: Store, order: seq<nat>): (r: seq<Option<Text>>)
    requires forall r :: 0 <= r < |order| ==> order[r] < |c.listed|
    ensures |r| == |order|
  {
    var s := Passes(c, existing, retired, MATCHES);
    seq(|order|, r requires 0 <= r < |order| => NameOf(s, order[r]))
  }

  /** Of the new scenes of one sceneName, the one of the last entry (the first listed of alike ones) may take it. */
  ghost predicate Top(less: Order, items: seq<Item>, names: seq<Option<Text>>, r: nat)
    requires r < |items| == |names|
  {
    names[r].None? && forall q :: 0 <= q < |items| && names[q].None? && items[q].own == items[r].own ==>
      !less(items[r].entry, items[q].entry) && (q < r ==> items[q].entry != items[r].entry)
  }

  ghost predicate Plain(less: Order, items: seq<Item>, names: seq<Option<Text>>, taken: set<Text>, r: nat)
    requires r < |items| == |names|
  {
    Top(less, items, names, r) && items[r].own !in taken
  }

  ghost function PlainNames(less: Order, items: seq<Item>, names: seq<Option<Text>>, taken: set<Text>): set<Text>
    requires |items| == |names|
  {
    set r | 0 <= r < |items| && Plain(less, items, names, taken, r) :: items[r].own
  }

  /** The names of the first `r` ranks. `taken` is what the store, the tombstone and the matches hold. */
  ghost function Named(less: Order, items: seq<Item>, names: seq<Option<Text>>, taken: set<Text>,
                       r: nat): (out: seq<Text>)
    requires r <= |items| == |names|
    ensures |out| == r
  {
    if r == 0 then []
    else
      var out := Named(less, items, names, taken, r - 1);
      out + [NameAt(less, items, names, taken, r - 1, out)]
  }

  ghost function NameAt(less: Order, items: seq<Item>, names: seq<Option<Text>>, taken: set<Text>, r: nat,
                        out: seq<Text>): Text
    requires r < |items| == |names|
  {
    if names[r].Some? then names[r].value
    else if Plain(less, items, names, taken, r) then items[r].own
    else
      var held := taken + PlainNames(less, items, names, taken) + set n | n in out;
      Apart(items[r].own, Label(items[r].entry), NextFree(items[r].own, Label(items[r].entry), 1, held))
  }

  ghost function Taken(existing: Store, retired: Store, names: seq<Option<Text>>): set<Text> {
    existing.Keys + retired.Keys + set i | 0 <= i < |names| && names[i].Some? :: names[i].value
  }

  /** Every listed scene's name, by rank. */
  ghost function NamesByRank(less: Order, c: Context, existing: Store, retired: Store,
                             order: seq<nat>): (out: seq<Text>)
    requires forall r :: 0 <= r < |order| ==> order[r] < |c.listed|
    ensures |out| == |order|
  {
    var names := Matched(c, existing, retired, order);
    Named(less, RankedItems(c.listed, order), names, Taken(existing, retired, names), |order|)
  }

  // ---- No name twice, no new name the store or the tombstone holds ----------------------------------------------

  lemma {:induction false} NamedAt(less: Order, items: seq<Item>, names: seq<Option<Text>>, taken: set<Text>, r: nat,
                                   k: nat)
    requires k < r <= |items| == |names|
    ensures var out := Named(less, items, names, taken, r);
            out[k] == NameAt(less, items, names, taken, k, out[..k]) && out[..k] == Named(less, items, names, taken, k)
  {
    var out := Named(less, items, names, taken, r - 1);
    if k < r - 1 {
      NamedAt(less, items, names, taken, r - 1, k);
      assert Named(less, items, names, taken, r)[..k] == out[..k];
    } else {
      assert Named(less, items, names, taken, r)[..k] == out;
    }
  }

  /** A new scene's name is none of the names taken before; a plain one is its sceneName, an apart one is no plain
      one. */
  lemma NewName(less: Order, items: seq<Item>, names: seq<Option<Text>>, taken: set<Text>, r: nat, out: seq<Text>)
    requires r < |items| == |names| && names[r].None?
    ensures var n := NameAt(less, items, names, taken, r, out);
            && n !in taken
            && (Plain(less, items, names, taken, r) ==> n == items[r].own)
            && (!Plain(less, items, names, taken, r) ==> n !in PlainNames(less, items, names, taken) && n !in out)
  {
  }

  lemma PlainUnique(less: Order, items: seq<Item>, names: seq<Option<Text>>, taken: set<Text>, r: nat, q: nat)
    requires TotalOrder(less) && r < q < |items| == |names|
    requires Plain(less, items, names, taken, r) && Plain(less, items, names, taken, q)
    ensures items[r].own != items[q].own
  {
  }

  lemma NamesDistinct(less: Order, items: seq<Item>, names: seq<Option<Text>>, taken: set<Text>, r: nat, q: nat)
    requires TotalOrder(less) && r < q < |items| == |names|
    requires forall i, j :: 0 <= i < j < |names| && names[i].Some? ==> names[i] != names[j]
    requires forall i :: 0 <= i < |names| && names[i].Some? ==> names[i].value in taken
    ensures var out := Named(less, items, names, taken, |items|); out[r] != out[q]
  {
    var out := Named(less, items, names, taken, |items|);
    NamedAt(less, items, names, taken, |items|, r);
    NamedAt(less, items, names, taken, |items|, q);
    if names[r].None? {
      NewName(less, items, names, taken, r, out[..r]);
    }
    if names[q].None? {
      NewName(less, items, names, taken, q, out[..q]);
      assert out[r] in out[..q];
    }
    if names[r].None? && names[q].None? && out[r] == out[q] && Plain(less, items, names, taken, q) {
      assert out[q] in PlainNames(less, items, names, taken);
      PlainUnique(less, items, names, taken, r, q);
    }
  }

  /** The names are all distinct; a scene matched keeps a stored or retired name its match allows; any other gets a
      name neither the store nor the tombstone holds. */
  lemma StoredNames(less: Order, c: Context, existing: Store, retired: Store, order: seq<nat>, r: nat)
    requires TotalOrder(less) && Ranked(less, c.listed, order) && r < |order|
    ensures var out, names := NamesByRank(less, c, existing, retired, order), Matched(c, existing, retired, order);
            && (forall q :: 0 <= q < |order| && q != r ==> out[q] != out[r])
            && (out[r] in existing || out[r] in retired <==> names[r].Some?)
            && (names[r].Some? ==> out[r] == names[r].value && Follows(c, order[r], existing, retired, out[r]))
  {
    var items, names := RankedItems(c.listed, order), Matched(c, existing, retired, order);
    var taken := Taken(existing, retired, names);
    MatchedKept(less, c, existing, retired, order);
    NameDistinct(less, items, names, taken, r);
    NameKept(less, items, names, taken, r);
  }

  /** The matched names: all distinct, and each one its match allows. */
  lemma MatchedKept(less: Order, c: Context, existing: Store, retired: Store, order: seq<nat>)
    requires Ranked(less, c.listed, order)
    ensures var names := Matched(c, existing, retired, order);
            && (forall i, j :: 0 <= i < j < |names| && names[i].Some? ==> names[i] != names[j])
            && forall r :: 0 <= r < |names| && names[r].Some? ==>
                 Follows(c, order[r], existing, retired, names[r].value)
  {
    PassesKeep(c, existing, retired, MATCHES);
    MatchedApart(c, existing, retired, order, less);
  }

  lemma NameDistinct(less: Order, items: seq<Item>, names: seq<Option<Text>>, taken: set<Text>, r: nat)
    requires TotalOrder(less) && r < |items| == |names|
    requires forall i, j :: 0 <= i < j < |names| && names[i].Some? ==> names[i] != names[j]
    requires forall i :: 0 <= i < |names| && names[i].Some? ==> names[i].value in taken
    ensures var out := Named(less, items, names, taken, |items|);
            forall q :: 0 <= q < |items| && q != r ==> out[q] != out[r]
  {
    var out := Named(less, items, names, taken, |items|);
    forall q | 0 <= q < |items| && q != r ensures out[q] != out[r] {
      if q < r {
        NamesDistinct(less, items, names, taken, q, r);
      } else {
        NamesDistinct(less, items, names, taken, r, q);
      }
    }
  }

  lemma NameKept(less: Order, items: seq<Item>, names: seq<Option<Text>>, taken: set<Text>, r: nat)
    requires r < |items| == |names|
    ensures var out := Named(less, items, names, taken, |items|);
            if names[r].Some? then out[r] == names[r].value else out[r] !in taken
  {
    var out := Named(less, items, names, taken, |items|);
    NamedAt(less, items, names, taken, |items|, r);
    if names[r].None? {
      NewName(less, items, names, taken, r, out[..r]);
    }
  }

  lemma MatchedApart(c: Context, existing: Store, retired: Store, order: seq<nat>, less: Order)
    requires Ranked(less, c.listed, order)
    requires Kept(c, existing, retired, Passes(c, existing, retired, MATCHES))
    ensures var names := Matched(c, existing, retired, order);
            forall i, j :: 0 <= i < j < |names| && names[i].Some? ==> names[i] != names[j]
  {
    var s := Passes(c, existing, retired, MATCHES);
    var names := Matched(c, existing, retired, order);
    forall i, j | 0 <= i < j < |names| && names[i].Some? ensures names[i] != names[j] {
      assert order[i] < order[j] || order[j] < order[i];
    }
  }
}

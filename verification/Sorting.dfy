/** Text order, and the one strictly increasing sequence of a set's elements. */
module Sorting {

  /** Strings compared character by character, a proper prefix first. */
  predicate TextLess(a: string, b: string) {
    b != "" && (a == "" || a[0] < b[0] || (a[0] == b[0] && TextLess(a[1..], b[1..])))
  }

  ghost predicate Irreflexive<T(!new)>(less: (T, T) -> bool) {
    forall a :: !less(a, a)
  }

  ghost predicate Transitive<T(!new)>(less: (T, T) -> bool) {
    forall a, b, c :: less(a, b) && less(b, c) ==> less(a, c)
  }

  ghost predicate Connected<T(!new)>(less: (T, T) -> bool) {
    forall a, b :: a != b ==> less(a, b) || less(b, a)
  }

  ghost predicate TotalOrder<T(!new)>(less: (T, T) -> bool) {
    Irreflexive(less) && Transitive(less) && Connected(less)
  }

  lemma {:induction false} TextIrreflexive(a: string)
    ensures !TextLess(a, a)
  {
    if a == "" {
    } else {
      TextIrreflexive(a[1..]);
    }
  }

  lemma {:induction false} TextTransitive(a: string, b: string, c: string)
    requires TextLess(a, b) && TextLess(b, c)
    ensures TextLess(a, c)
  {
    if a != "" && a[0] == b[0] && b[0] == c[0] {
      TextTransitive(a[1..], b[1..], c[1..]);
    }
  }

  lemma {:induction false} TextConnected(a: string, b: string)
    ensures a == b || TextLess(a, b) || TextLess(b, a)
  {
    if a != "" && b != "" && a[0] == b[0] {
      TextConnected(a[1..], b[1..]);
      assert a == [a[0]] + a[1..] && b == [b[0]] + b[1..];
    }
  }

  /** The first character where `a` and `b` differ is character `k`, and `b` has the greater one there. */
  predicate CharUp(a: string, b: string, k: nat) {
    k < |a| && k < |b| && a[..k] == b[..k] && a[k] < b[k]
  }

  /** One text is less than another exactly if it is a proper prefix of it, or has the lesser character at the first
      place where they differ; so it is not less exactly if the other is a prefix of it, or it has the greater one
      there. */
  lemma {:induction false} TextLessExactly(a: string, b: string)
    ensures TextLess(a, b) <==> (a < b || exists k: nat :: CharUp(a, b, k))
    ensures !TextLess(a, b) <==> (b <= a || exists k: nat :: CharUp(b, a, k))
  {
    if a == "" || b == "" || a[0] != b[0] {
      assert a[..0] == b[..0];
      assert a != "" && b != "" ==> CharUp(a, b, 0) || CharUp(b, a, 0);
    } else {
      TextLessExactly(a[1..], b[1..]);
      assert a == [a[0]] + a[1..] && b == [b[0]] + b[1..];
      CharShift(a, b);
      CharShift(b, a);
    }
  }

  lemma CharShift(a: string, b: string)
    requires a != "" && b != "" && a[0] == b[0]
    ensures (exists k: nat :: CharUp(a[1..], b[1..], k)) <==> exists k: nat :: CharUp(a, b, k)
  {
    if k: nat :| CharUp(a[1..], b[1..], k) {
      assert a[..k + 1] == [a[0]] + a[1..][..k] && b[..k + 1] == [b[0]] + b[1..][..k];
      assert CharUp(a, b, k + 1);
    }
    if k: nat :| CharUp(a, b, k) {
      assert k > 0;
      assert a[1..][..k - 1] == a[..k][1..] && b[1..][..k - 1] == b[..k][1..];
      assert CharUp(a[1..], b[1..], k - 1);
    }
  }

  lemma TextOrder()
    ensures TotalOrder(TextLess)
  {
    forall a ensures !TextLess(a, a) {
      TextIrreflexive(a);
    }
    forall a, b, c | TextLess(a, b) && TextLess(b, c) ensures TextLess(a, c) {
      TextTransitive(a, b, c);
    }
    forall a, b | a != b ensures TextLess(a, b) || TextLess(b, a) {
      TextConnected(a, b);
    }
  }

  predicate Increasing<T>(less: (T, T) -> bool, s: seq<T>) {
    forall i, j :: 0 <= i < j < |s| ==> less(s[i], s[j])
  }

  ghost predicate Least<T(!new)>(less: (T, T) -> bool, s: set<T>, m: T) {
    m in s && forall x :: x in s && x != m ==> less(m, x)
  }

  lemma LeastExists<T(!new)>(less: (T, T) -> bool, s: set<T>) returns (m: T)
    requires TotalOrder(less) && s != {}
    ensures Least(less, s, m)
  {
    var x :| x in s;
    if s == {x} {
      m := x;
    } else {
      var r := LeastExists(less, s - {x});
      m := if less(x, r) then x else r;
      forall y | y in s && y != m ensures less(m, y) {
        assert y == x || y in s - {x};
      }
    }
  }

  /** The elements of `s`, each once, in increasing order. */
  ghost function Sorted<T(!new)>(less: (T, T) -> bool, s: set<T>): (r: seq<T>)
    requires TotalOrder(less)
    ensures Increasing(less, r) && |r| == |s| && forall x :: x in r <==> x in s
    decreases |s|
  {
    if s == {} then []
    else
      assert exists m :: Least(less, s, m) by { var m := LeastExists(less, s); }
      var m :| Least(less, s, m);
      [m] + Sorted(less, s - {m})
  }

  /** A set has only one increasing sequence. */
  lemma {:induction false} IncreasingUnique<T(!new)>(less: (T, T) -> bool, a: seq<T>, b: seq<T>)
    requires TotalOrder(less) && Increasing(less, a) && Increasing(less, b)
    requires forall x :: x in a <==> x in b
    ensures a == b
  {
    assert a != [] ==> a[0] in b;
    assert b != [] ==> b[0] in a;
    if a != [] && b != [] {
      forall x | x in a[1..] ensures x in b[1..] {
        assert x in b && x != b[0];
      }
      forall x | x in b[1..] ensures x in a[1..] {
        assert x in a && x != a[0];
      }
      IncreasingUnique(less, a[1..], b[1..]);
    }
  }

  lemma IncreasingDistinct<T(!new)>(less: (T, T) -> bool, a: seq<T>, i: nat, j: nat)
    requires TotalOrder(less) && Increasing(less, a) && i < |a| && j < |a| && a[i] == a[j]
    ensures i == j
  {
  }

  predicate Ascending(s: seq<nat>) {
    forall i, j :: 0 <= i < j < |s| ==> s[i] < s[j]
  }

  predicate Min(s: set<nat>, m: nat) {
    m in s && forall x :: x in s ==> m <= x
  }

  lemma MinExists(s: set<nat>) returns (m: nat)
    requires s != {}
    ensures Min(s, m)
  {
    var x: nat :| x in s;
    if s == {x} {
      m := x;
    } else {
      var r := MinExists(s - {x});
      m := if x < r then x else r;
      forall y | y in s ensures m <= y {
        assert y == x || y in s - {x};
      }
    }
  }

  /** The numbers of `s` in ascending order. */
  ghost function SortedNats(s: set<nat>): (r: seq<nat>)
    ensures Ascending(r) && forall x :: x in r <==> x in s
    decreases |s|
  {
    if s == {} then []
    else
      assert exists m :: Min(s, m) by { var m := MinExists(s); }
      var m: nat :| Min(s, m);
      [m] + SortedNats(s - {m})
  }

  lemma {:induction false} AscendingUnique(a: seq<nat>, b: seq<nat>)
    requires Ascending(a) && Ascending(b) && forall x :: x in a <==> x in b
    ensures a == b
  {
    assert a != [] ==> a[0] in b;
    assert b != [] ==> b[0] in a;
    if a != [] && b != [] {
      forall x ensures x in a[1..] <==> x in b[1..] {
        assert x in a[1..] <==> x in a && x != a[0];
        assert x in b[1..] <==> x in b && x != b[0];
      }
      AscendingUnique(a[1..], b[1..]);
    }
  }

  // ---- Sorting a set --------------------------------------------------------------------------------------------

  method Insert<T(!new)>(less: (T, T) -> bool, s: seq<T>, x: T) returns (r: seq<T>)
    requires TotalOrder(less) && Increasing(less, s) && x !in s
    ensures Increasing(less, r) && forall y :: y in r <==> y in s || y == x
  {
    var k := 0;
    while k < |s| && less(s[k], x)
      invariant k <= |s| && forall i :: 0 <= i < k ==> less(s[i], x)
    {
      k := k + 1;
    }
    r := s[..k] + [x] + s[k..];
    InsertedAt(less, s, x, k);
  }

  lemma InsertedAt<T(!new)>(less: (T, T) -> bool, s: seq<T>, x: T, k: nat)
    requires TotalOrder(less) && Increasing(less, s) && x !in s && k <= |s|
    requires (forall i :: 0 <= i < k ==> less(s[i], x)) && (k < |s| ==> !less(s[k], x))
    ensures Increasing(less, s[..k] + [x] + s[k..]) && forall y :: y in s[..k] + [x] + s[k..] <==> y in s || y == x
  {
    var r := s[..k] + [x] + s[k..];
    forall i | k <= i < |s| ensures less(x, s[i]) {
      assert s[k] in s && less(x, s[k]);
    }
    assert forall i :: 0 <= i < |r| ==> r[i] == if i < k then s[i] else if i == k then x else s[i - 1];
    forall y ensures y in r <==> y in s || y == x {
      if y in s {
        var i :| 0 <= i < |s| && s[i] == y;
        assert r[if i < k then i else i + 1] == y;
      }
      if y == x {
        assert r[k] == y;
      }
    }
  }

  /** `sorted` over a set: an insertion of each element, in any order. */
  method SortSet<T(!new, ==)>(less: (T, T) -> bool, s: set<T>) returns (r: seq<T>)
    requires TotalOrder(less)
    ensures r == Sorted(less, s)
  {
    r := [];
    var todo := s;
    while todo != {}
      invariant todo <= s && Increasing(less, r) && forall x :: x in r <==> x in s && x !in todo
    {
      var x :| x in todo;
      r := Insert(less, r, x);
      todo := todo - {x};
    }
    IncreasingUnique(less, r, Sorted(less, s));
  }

  predicate Lower(a: nat, b: nat) {
    a < b
  }

  method SortNats(s: set<nat>) returns (r: seq<nat>)
    ensures r == SortedNats(s)
  {
    r := SortSet(Lower, s);
    AscendingUnique(r, SortedNats(s));
  }
}

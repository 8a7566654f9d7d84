/** Decimal numbers and comma-joined lists of them as text, and that no two read the same. */
module Texts {
  import opened Sorting

  const DIGITS := "0123456789"

  function Decimal(n: nat): (s: string)
    ensures s != "" && forall k :: 0 <= k < |s| ==> s[k] in DIGITS
  {
    if n < 10 then [DIGITS[n]] else Decimal(n / 10) + [DIGITS[n % 10]]
  }

  lemma {:induction false} DecimalInjective(m: nat, n: nat)
    requires Decimal(m) == Decimal(n)
    ensures m == n
  {
    var a, b := Decimal(m), Decimal(n);
    assert (m >= 10 <==> |a| >= 2) && (n >= 10 <==> |b| >= 2);
    assert a[|a| - 1] == DIGITS[m % 10] && b[|b| - 1] == DIGITS[n % 10];
    DigitsDistinct(m % 10, n % 10);
    if m >= 10 && n >= 10 {
      assert a[..|a| - 1] == Decimal(m / 10) && b[..|b| - 1] == Decimal(n / 10);
      DecimalInjective(m / 10, n / 10);
    }
  }

  /** The number a digit text reads as. */
  function Value(s: string): int {
    if s == "" then 0 else 10 * Value(s[..|s| - 1]) + (s[|s| - 1] as int - '0' as int)
  }

  /** The text reads as its number, and has no leading zero. */
  lemma {:induction false} DecimalReads(n: nat)
    ensures Value(Decimal(n)) == n && (n > 0 ==> Decimal(n)[0] != '0')
  {
    var s := Decimal(n);
    assert s[|s| - 1] as int - '0' as int == n % 10;
    if n < 10 {
      assert s[..|s| - 1] == "";
    } else {
      DecimalReads(n / 10);
      assert s[..|s| - 1] == Decimal(n / 10);
    }
  }

  lemma DigitsDistinct(i: nat, j: nat)
    requires i < 10 && j < 10 && DIGITS[i] == DIGITS[j]
    ensures i == j
  {
  }

  /** The numbers joined by commas, "" for none. */
  function Joined(ns: seq<nat>): string {
    if ns == [] then "" else if |ns| == 1 then Decimal(ns[0]) else Decimal(ns[0]) + "," + Joined(ns[1..])
  }

  lemma Comma(a: string, s: string, b: string, t: string)
    requires a + "," + s == b + "," + t && ',' !in a && ',' !in b
    ensures a == b && s == t
  {
    var x := a + "," + s;
    assert x[|a|] == ',' && x[|b|] == ',';
    assert a == x[..|a|] && b == x[..|b|] && s == x[|a| + 1..] && t == x[|b| + 1..];
  }

  lemma NoComma(n: nat)
    ensures ',' !in Decimal(n)
  {
    assert ',' !in DIGITS;
  }

  lemma {:induction false} JoinedInjective(a: seq<nat>, b: seq<nat>)
    requires Joined(a) == Joined(b)
    ensures a == b
  {
    assert |a| >= 2 ==> Joined(a)[|Decimal(a[0])|] == ',';
    assert |b| >= 2 ==> Joined(b)[|Decimal(b[0])|] == ',';
    if a != [] && b != [] {
      NoComma(a[0]);
      NoComma(b[0]);
      if |a| == 1 && |b| == 1 {
        DecimalInjective(a[0], b[0]);
      } else if |a| >= 2 && |b| >= 2 {
        Comma(Decimal(a[0]), Joined(a[1..]), Decimal(b[0]), Joined(b[1..]));
        DecimalInjective(a[0], b[0]);
        JoinedInjective(a[1..], b[1..]);
      }
    }
  }

  /** scenes/__init__.py `_set_key`: the versions ascending, each once, joined by commas. */
  ghost function SetKey(versions: set<nat>): string {
    Joined(SortedNats(versions))
  }

  /** Different scene sets have different keys. */
  lemma SetKeyInjective(a: set<nat>, b: set<nat>)
    requires SetKey(a) == SetKey(b)
    ensures a == b
  {
    JoinedInjective(SortedNats(a), SortedNats(b));
    assert forall x :: x in a <==> x in SortedNats(a);
    assert forall x :: x in b <==> x in SortedNats(b);
  }
}

/** The H60A6 firmware's side of zone power, as far as the library relies on it: a main switch flag, one flag
    per zone, and a message thread that applies acked power writes later, in order (models.py:112-174 and
    device.py:1162-1212 cite the traced routines). */
module FixtureFirmware {
  import opened Basics
  import opened Library

  datatype Flags = Flags(main: bool, lit: set<nat>)

  datatype Msg = SetTurn(on: bool) | SetZone(zone: nat, on: bool)

  datatype Dev = Dev(flags: Flags, queue: seq<Msg>)

  /** MSG_SET_TURN sets the main flag and every zone flag. MSG_SET_TURN_MULT sets its zone; lighting one also
      sets the main flag, and darkening the last lit one clears it. */
  function Apply(zones: set<nat>, f: Flags, m: Msg): Flags {
    match m
    case SetTurn(on) => Flags(on, if on then zones else {})
    case SetZone(i, true) => Flags(true, f.lit + {i})
    case SetZone(i, false) => Flags(f.main && f.lit - {i} != {}, f.lit - {i})
  }

  /** The flags once the messages of `q` are applied in order. */
  function Drain(zones: set<nat>, f: Flags, q: seq<Msg>): Flags {
    if q == [] then f else Apply(zones, Drain(zones, f, q[..|q| - 1]), q[|q| - 1])
  }

  predicate Touches(m: Msg, i: nat) {
    m.SetTurn? || m.zone == i
  }

  /** The power the last queued message that sets zone `i` gives it. */
  function Last(q: seq<Msg>, i: nat): Option<bool> {
    if q == [] then None
    else if Touches(q[|q| - 1], i) then Some(q[|q| - 1].on)
    else Last(q[..|q| - 1], i)
  }

  ghost predicate MainStable(zones: set<nat>, f: Flags, q: seq<Msg>) {
    forall k :: 0 <= k <= |q| ==> Drain(zones, f, q[..k]).main
  }

  ghost predicate LitStable(zones: set<nat>, f: Flags, q: seq<Msg>, i: nat) {
    forall k :: 0 <= k <= |q| ==> Drain(zones, f, q[..k]).main && i in Drain(zones, f, q[..k]).lit
  }

  ghost predicate WellFormed(zones: set<nat>, f: Flags, q: seq<Msg>) {
    && f.lit <= zones
    && (f.main ==> f.lit != {})
    && forall k :: 0 <= k < |q| && q[k].SetZone? ==> q[k].zone in zones
  }

  /** What a frame does when the dispatcher takes it: power writes are queued, a 33 04 queues a switch-on while
      the main flag is off, and a 33 05 sets every flag itself while it is off (but for a quiet music write). */
  function Dispatched(zones: set<nat>, d: Dev, frame: Frame): Dev {
    match frame
    case Switch(on) => d.(queue := d.queue + [SetTurn(on)])
    case ZoneSwitch(i, on) => d.(queue := d.queue + [SetZone(i, on)])
    case Brightness => if d.flags.main then d else d.(queue := d.queue + [SetTurn(true)])
    case Mode(kind) => if d.flags.main || kind.QuietMusic? then d else d.(flags := Flags(true, zones))
    case _ => d
  }

  lemma {:induction false} DrainConcat(zones: set<nat>, f: Flags, q: seq<Msg>, r: seq<Msg>)
    ensures Drain(zones, f, q + r) == Drain(zones, Drain(zones, f, q), r)
  {
    if r == [] {
      assert q + r == q;
    } else {
      var n := |r| - 1;
      assert (q + r)[..|q + r| - 1] == q + r[..n];
      DrainConcat(zones, f, q, r[..n]);
    }
  }

  /** A zone's final flag is the last queued power for it, or its flag now where no message sets it. */
  lemma {:induction false} DrainLit(zones: set<nat>, f: Flags, q: seq<Msg>, i: nat)
    requires i in zones
    ensures i in Drain(zones, f, q).lit <==> (if Last(q, i).Some? then Last(q, i).value else i in f.lit)
  {
    if q == [] {
    } else {
      DrainLit(zones, f, q[..|q| - 1], i);
    }
  }

  lemma {:induction false} LastConcat(q: seq<Msg>, r: seq<Msg>, i: nat)
    ensures Last(q + r, i) == if Last(r, i).Some? then Last(r, i) else Last(q, i)
  {
    if r == [] {
      assert q + r == q;
    } else {
      assert (q + r)[..|q + r| - 1] == q + r[..|r| - 1];
      LastConcat(q, r[..|r| - 1], i);
    }
  }

  /** The main flag never says on over a dark fixture, and once it agrees with the zone flags it keeps agreeing. */
  lemma {:induction false} DrainKeeps(zones: set<nat>, f: Flags, q: seq<Msg>)
    requires zones != {} && WellFormed(zones, f, q)
    ensures WellFormed(zones, Drain(zones, f, q), [])
    ensures f.main && Drain(zones, f, q).lit != {} ==> Drain(zones, f, q).main
  {
    if q == [] {
    } else {
      DrainKeeps(zones, f, q[..|q| - 1]);
    }
  }

  /** Popping the front message shifts every later state by one. */
  lemma DrainPop(zones: set<nat>, f: Flags, q: seq<Msg>, k: nat)
    requires q != [] && k < |q|
    ensures Drain(zones, Apply(zones, f, q[0]), q[1..][..k]) == Drain(zones, f, q[..k + 1])
  {
    assert q[..k + 1] == [q[0]] + q[1..][..k];
    assert [q[0]][..0] == [];
    DrainConcat(zones, f, [q[0]], q[1..][..k]);
    assert Drain(zones, f, [q[0]]) == Apply(zones, Drain(zones, f, []), q[0]);
  }

  lemma StablePop(zones: set<nat>, f: Flags, q: seq<Msg>)
    requires q != []
    ensures MainStable(zones, f, q) ==> MainStable(zones, Apply(zones, f, q[0]), q[1..])
    ensures forall i :: LitStable(zones, f, q, i) ==> LitStable(zones, Apply(zones, f, q[0]), q[1..], i)
    ensures Drain(zones, Apply(zones, f, q[0]), q[1..]) == Drain(zones, f, q)
  {
    forall k | 0 <= k <= |q[1..]|
      ensures Drain(zones, Apply(zones, f, q[0]), q[1..][..k]) == Drain(zones, f, q[..k + 1])
    {
      DrainPop(zones, f, q, k);
    }
    assert q[1..][..|q| - 1] == q[1..] && q[..|q|] == q;
  }

  lemma StableAppend(zones: set<nat>, f: Flags, q: seq<Msg>, m: Msg)
    ensures Drain(zones, f, q + [m]) == Apply(zones, Drain(zones, f, q), m)
    ensures MainStable(zones, f, q) && Apply(zones, Drain(zones, f, q), m).main ==> MainStable(zones, f, q + [m])
    ensures forall i :: (LitStable(zones, f, q, i) && Apply(zones, Drain(zones, f, q), m).main
                         && i in Apply(zones, Drain(zones, f, q), m).lit) ==> LitStable(zones, f, q + [m], i)
  {
    assert (q + [m])[..|q|] == q;
    forall k | 0 <= k <= |q| ensures (q + [m])[..k] == q[..k] {}
    assert (q + [m])[..|q| + 1] == q + [m];
  }

  lemma StableNow(zones: set<nat>, f: Flags, q: seq<Msg>)
    ensures MainStable(zones, f, q) ==> f.main && Drain(zones, f, q).main
    ensures forall i :: LitStable(zones, f, q, i) ==> f.main && i in f.lit && MainStable(zones, f, q)
                                                      && i in Drain(zones, f, q).lit
  {
    assert q[..0] == [] && q[..|q|] == q;
    assert Drain(zones, f, q[..0]) == f;
    assert MainStable(zones, f, q) ==> Drain(zones, f, q[..0]).main && Drain(zones, f, q[..|q|]).main;
    forall i | LitStable(zones, f, q, i)
      ensures f.main && i in f.lit && MainStable(zones, f, q) && i in Drain(zones, f, q).lit
    {
      assert i in Drain(zones, f, q[..0]).lit && Drain(zones, f, q[..0]).main;
      assert i in Drain(zones, f, q[..|q|]).lit;
    }
  }
}

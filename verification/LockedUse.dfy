/** What each operation of devices/device.py does on the link, in order, and the locks it holds while it does: its
    program (Locks) read without its takes and drops. */
module LockedUse {
  import opened Basics
  import opened Locks

  /** An I/O, or a wait for the pairing read in flight, with the locks held. */
  datatype Use = Use(locks: set<Lock>, io: Io) | Waits(locks: set<Lock>)

  function UseOf(held: set<Lock>, a: Act): seq<Use> {
    match a
    case Do(io) => [Use(held, io)]
    case Take(l) => if l == PAIRING then [Waits(held)] else []
    case Drop(_) => []
  }

  function UsesOf(held: set<Lock>, p: Program): seq<Use>
    decreases p
  {
    if p == [] then [] else UseOf(held, p[0]) + UsesOf(After(Hold(held, false), p[0]).locks, p[1..])
  }

  function HeldAfter(held: set<Lock>, p: Program): set<Lock>
    decreases p
  {
    if p == [] then held else HeldAfter(After(Hold(held, false), p[0]).locks, p[1..])
  }

  /** From `held` the program does exactly `uses`, and ends with the locks it began with. */
  predicate Does(held: set<Lock>, p: Program, uses: seq<Use>) {
    UsesOf(held, p) == uses && HeldAfter(held, p) == held
  }

  lemma {:induction false} UsesConcat(held: set<Lock>, p: Program, q: Program)
    ensures UsesOf(held, p + q) == UsesOf(held, p) + UsesOf(HeldAfter(held, p), q)
    ensures HeldAfter(held, p + q) == HeldAfter(HeldAfter(held, p), q)
    decreases p
  {
    if p == [] {
      assert p + q == q;
    } else {
      assert (p + q)[0] == p[0] && (p + q)[1..] == p[1..] + q;
      UsesConcat(After(Hold(held, false), p[0]).locks, p[1..], q);
    }
  }

  lemma Both(held: set<Lock>, p: Program, uses: seq<Use>, q: Program, more: seq<Use>)
    requires Does(held, p, uses) && Does(held, q, more)
    ensures Does(held, p + q, uses + more)
  {
    UsesConcat(held, p, q);
  }

  lemma One(held: set<Lock>, a: Act)
    ensures UsesOf(held, [a]) == UseOf(held, a) && HeldAfter(held, [a]) == After(Hold(held, false), a).locks
  {
    assert [a][1..] == [];
    assert UseOf(held, a) + [] == UseOf(held, a);
  }

  /** A lock taken around a program is held through all of it, and only waiting for PAIRING shows. */
  lemma Around(held: set<Lock>, b: bool, l: Lock, p: Program, uses: seq<Use>)
    requires l !in held && Does(With(held, b, l), p, uses)
    ensures Does(held, Under(b, l, p), (if b && l == PAIRING then [Waits(held)] else []) + uses)
  {
    if b {
      One(held, Take(l));
      One(held + {l}, Drop(l));
      UsesConcat(held, [Take(l)], p);
      UsesConcat(held, [Take(l)] + p, [Drop(l)]);
      assert held + {l} - {l} == held;
    } else {
      assert [] + p + [] == p;
    }
  }

  function With(held: set<Lock>, b: bool, l: Lock): set<Lock> {
    if b then held + {l} else held
  }

  function When(b: bool, uses: seq<Use>): seq<Use> {
    if b then uses else []
  }

  // ---- The pieces -----------------------------------------------------------------------------------------------

  function OnAir(held: set<Lock>, io: Io): seq<Use> {
    [Use(held + {CONNECTION}, io)]
  }

  lemma LinkDoes(held: set<Lock>, io: Io)
    requires CONNECTION !in held
    ensures Does(held, OnLink(io), OnAir(held, io))
  {
    One(held + {CONNECTION}, Do(io));
    Around(held, true, CONNECTION, [Do(io)], OnAir(held, io));
    assert OnLink(io) == Under(true, CONNECTION, [Do(io)]);
    assert [] + OnAir(held, io) == OnAir(held, io);
  }

  lemma WhenDoes(held: set<Lock>, b: bool, io: Io)
    requires CONNECTION !in held
    ensures Does(held, If(b, OnLink(io)), When(b, OnAir(held, io)))
  {
    LinkDoes(held, io);
  }

  /** The pending unlock: a wait for the pairing read in flight, then its frame. */
  function UnlockUse(held: set<Lock>, u: Unlock): seq<Use> {
    When(u.waits, [Waits(held)]) + When(u.sends, OnAir(held, Send))
  }

  lemma UnlockDoes(held: set<Lock>, u: Unlock)
    requires PAIRING !in held && CONNECTION !in held
    ensures Does(held, UnlockProgram(u), UnlockUse(held, u))
  {
    Around(held, u.waits, PAIRING, [], []);
    assert Under(true, PAIRING, []) == [Take(PAIRING), Drop(PAIRING)] && Under(false, PAIRING, []) == [];
    WhenDoes(held, u.sends, Send);
    Both(held, If(u.waits, [Take(PAIRING), Drop(PAIRING)]), When(u.waits, [Waits(held)]),
         If(u.sends, OnLink(Send)), When(u.sends, OnAir(held, Send)));
  }

  /** A read's query goes out under the read gate; the pairing read's, and its unlock, under the pairing lock too. */
  function ReadUse(held: set<Lock>, r: Read): seq<Use> {
    var gate := held + {GATE};
    var pairing := gate + {PAIRING};
    if r.pairing then [Waits(gate)] + (When(r.sends, OnAir(pairing, Send)) + OnAir(pairing, Query))
    else UnlockUse(gate, Unlock(r.waits, r.sends)) + OnAir(gate, Query)
  }

  lemma ReadDoes(held: set<Lock>, r: Read)
    requires held !! {GATE, PAIRING, CONNECTION}
    ensures Does(held, ReadProgram(r), ReadUse(held, r))
  {
    var gate := held + {GATE};
    if r.pairing {
      PairingDoes(gate, r.sends);
      var inner := Under(true, PAIRING, If(r.sends, OnLink(Send)) + OnLink(Query));
      Around(held, true, GATE, inner, ReadUse(held, r));
      assert ReadProgram(r) == Under(true, GATE, inner);
    } else {
      var u := Unlock(r.waits, r.sends);
      UnlockDoes(gate, u);
      LinkDoes(gate, Query);
      Both(gate, UnlockProgram(u), UnlockUse(gate, u), OnLink(Query), OnAir(gate, Query));
      Around(held, true, GATE, UnlockProgram(u) + OnLink(Query), ReadUse(held, r));
      assert ReadProgram(r) == Under(true, GATE, UnlockProgram(u) + OnLink(Query));
    }
    assert [] + ReadUse(held, r) == ReadUse(held, r);
  }

  lemma PairingDoes(gate: set<Lock>, sends: bool)
    requires PAIRING !in gate && CONNECTION !in gate
    ensures var pairing := gate + {PAIRING};
            Does(gate, Under(true, PAIRING, If(sends, OnLink(Send)) + OnLink(Query)),
                 [Waits(gate)] + (When(sends, OnAir(pairing, Send)) + OnAir(pairing, Query)))
  {
    var pairing := gate + {PAIRING};
    WhenDoes(pairing, sends, Send);
    LinkDoes(pairing, Query);
    Both(pairing, If(sends, OnLink(Send)), When(sends, OnAir(pairing, Send)), OnLink(Query), OnAir(pairing, Query));
    Around(gate, true, PAIRING, If(sends, OnLink(Send)) + OnLink(Query),
           When(sends, OnAir(pairing, Send)) + OnAir(pairing, Query));
  }

  function ReadsUse(held: set<Lock>, rs: seq<Read>): seq<Use> {
    if rs == [] then [] else ReadUse(held, rs[0]) + ReadsUse(held, rs[1..])
  }

  lemma {:induction false} ReadsDo(held: set<Lock>, rs: seq<Read>)
    requires held !! {GATE, PAIRING, CONNECTION}
    ensures Does(held, ReadsProgram(rs), ReadsUse(held, rs))
  {
    if rs == [] {
    } else {
      ReadDoes(held, rs[0]);
      ReadsDo(held, rs[1..]);
      Both(held, ReadProgram(rs[0]), ReadUse(held, rs[0]), ReadsProgram(rs[1..]), ReadsUse(held, rs[1..]));
    }
  }

  lemma CommitDoes(held: set<Lock>, u: Unlock, io: Io)
    requires PAIRING !in held && CONNECTION !in held
    ensures Does(held, CommitProgram(u, io), UnlockUse(held, u) + OnAir(held, io))
  {
    UnlockDoes(held, u);
    LinkDoes(held, io);
    Both(held, UnlockProgram(u), UnlockUse(held, u), OnLink(io), OnAir(held, io));
  }

  // ---- The operations -------------------------------------------------------------------------------------------

  /** A scene's upload, led by a frame of its own where it needs one, then its activation. */
  function UploadUse(held: set<Lock>, lead: bool, upload: bool, again: Unlock): seq<Use> {
    When(upload, When(lead, OnAir(held, Send)) + OnAir(held, Upload)) + (UnlockUse(held, again) + OnAir(held, Activate))
  }

  /** A setter's reads before and after it are under the brightness lock it may take, its frame under the bar lock too.
      A bar write reads the bars and writes them under one hold of the bar lock. A scene's upload and its activation go
      out under one hold of the scene, bar and read locks, and a release drops the link under all of them. */
  function UseOfOp(op: Op): seq<Use> {
    match op
    case Setter(brightness, before, bar, unlock, resync, time) =>
      var outer := if brightness then {BRIGHTNESS} else {};
      var write := if bar then outer + {BAR} else outer;
      ReadsUse(outer, before) + (UnlockUse(write, unlock) + OnAir(write, Send)
                                 + (ReadsUse(outer, resync) + When(time, OnAir(outer, Send))))
    case BarSwitch(connects, bars, unlock) =>
      When(connects, OnAir({BAR}, Connect)) + (ReadsUse({BAR}, bars) + (UnlockUse({BAR}, unlock) + OnAir({BAR}, Send)))
    case SetScene(bar, unlock) =>
      var write := if bar then {SCENE, BAR} else {SCENE};
      UnlockUse(write, unlock) + OnAir(write, Activate)
    case SceneByName(versions, bar, unlock, lead, upload, again) =>
      var write := if bar then {SCENE, BAR, GATE} else {SCENE, GATE};
      ReadsUse({SCENE}, versions) + (UnlockUse(write, unlock) + UploadUse(write, lead, upload, again))
    case Reads(unlock, polled) => UnlockUse({}, unlock) + ReadsUse({}, polled)
    case Taps(count) => seq(count, _ => Use({TAP, CONNECTION}, Send))
    case OpenLink(unlock) => UnlockUse({}, unlock) + OnAir({}, Connect)
    case Release => [Use({SCENE, BRIGHTNESS, BAR, GATE, CONNECTION}, Disconnect)]
  }

  /** Every operation's requests on the link, in order, each under exactly the locks its kind of write or read needs. */
  lemma OpDoes(op: Op)
    ensures Does({}, ProgramOf(op), UseOfOp(op))
  {
    match op {
      case Setter(brightness, before, bar, unlock, resync, time) =>
        SetterDoes(brightness, before, bar, unlock, resync, time);
      case BarSwitch(connects, bars, unlock) => BarSwitchDoes(connects, bars, unlock);
      case SetScene(bar, unlock) =>
        var write := With({SCENE}, bar, BAR);
        assert write == if bar then {SCENE, BAR} else {SCENE};
        CommitDoes(write, unlock, Activate);
        Around({SCENE}, bar, BAR, CommitProgram(unlock, Activate), UseOfOp(op));
        assert {} + {SCENE} == {SCENE} && [] + UseOfOp(op) == UseOfOp(op);
        Around({}, true, SCENE, Under(bar, BAR, CommitProgram(unlock, Activate)), UseOfOp(op));
      case SceneByName(versions, bar, unlock, lead, upload, again) =>
        SceneByNameDoes(versions, bar, unlock, lead, upload, again);
      case Reads(unlock, polled) =>
        UnlockDoes({}, unlock);
        ReadsDo({}, polled);
        Both({}, UnlockProgram(unlock), UnlockUse({}, unlock), ReadsProgram(polled), ReadsUse({}, polled));
      case Taps(count) =>
        TapsDo({TAP}, count);
        assert {} + {TAP} == {TAP} && {TAP} + {CONNECTION} == {TAP, CONNECTION};
        assert [] + UseOfOp(op) == UseOfOp(op);
        Around({}, true, TAP, TapsProgram(count), UseOfOp(op));
      case OpenLink(unlock) => CommitDoes({}, unlock, Connect);
      case Release => ReleaseDoes();
    }
  }

  lemma SetterDoes(brightness: bool, before: seq<Read>, bar: bool, u: Unlock, resync: seq<Read>, time: bool)
    ensures var op := Setter(brightness, before, bar, u, resync, time); Does({}, ProgramOf(op), UseOfOp(op))
  {
    var outer := With({}, brightness, BRIGHTNESS);
    var write := With(outer, bar, BAR);
    assert outer == if brightness then {BRIGHTNESS} else {};
    var commit := UnlockUse(write, u) + OnAir(write, Send);
    CommitDoes(write, u, Send);
    Around(outer, bar, BAR, CommitProgram(u, Send), commit);
    assert [] + commit == commit;
    ReadsDo(outer, before);
    ReadsDo(outer, resync);
    WhenDoes(outer, time, Send);
    var last, lastUse := ReadsProgram(resync) + If(time, OnLink(Send)),
                         ReadsUse(outer, resync) + When(time, OnAir(outer, Send));
    Both(outer, ReadsProgram(resync), ReadsUse(outer, resync), If(time, OnLink(Send)), When(time, OnAir(outer, Send)));
    Both(outer, Under(bar, BAR, CommitProgram(u, Send)), commit, last, lastUse);
    Both(outer, ReadsProgram(before), ReadsUse(outer, before), Under(bar, BAR, CommitProgram(u, Send)) + last,
         commit + lastUse);
    var all := ReadsUse(outer, before) + (commit + lastUse);
    Around({}, brightness, BRIGHTNESS, ReadsProgram(before) + (Under(bar, BAR, CommitProgram(u, Send)) + last), all);
    assert [] + all == all;
  }

  lemma BarSwitchDoes(connects: bool, bars: seq<Read>, u: Unlock)
    ensures var op := BarSwitch(connects, bars, u); Does({}, ProgramOf(op), UseOfOp(op))
  {
    WhenDoes({BAR}, connects, Connect);
    ReadsDo({BAR}, bars);
    CommitDoes({BAR}, u, Send);
    var commit := UnlockUse({BAR}, u) + OnAir({BAR}, Send);
    Both({BAR}, ReadsProgram(bars), ReadsUse({BAR}, bars), CommitProgram(u, Send), commit);
    Both({BAR}, If(connects, OnLink(Connect)), When(connects, OnAir({BAR}, Connect)),
         ReadsProgram(bars) + CommitProgram(u, Send), ReadsUse({BAR}, bars) + commit);
    var all := UseOfOp(BarSwitch(connects, bars, u));
    assert {} + {BAR} == {BAR} && [] + all == all;
    Around({}, true, BAR, If(connects, OnLink(Connect)) + (ReadsProgram(bars) + CommitProgram(u, Send)), all);
  }

  lemma SceneByNameDoes(versions: seq<Read>, bar: bool, u: Unlock, lead: bool, upload: bool, again: Unlock)
    ensures var op := SceneByName(versions, bar, u, lead, upload, again); Does({}, ProgramOf(op), UseOfOp(op))
  {
    var write := With({SCENE}, bar, BAR) + {GATE};
    var frames := If(upload, If(lead, OnLink(Send)) + OnLink(Upload)) + CommitProgram(again, Activate);
    assert write == if bar then {SCENE, BAR, GATE} else {SCENE, GATE};
    UploadDoes(write, lead, upload, again);
    UnlockDoes(write, u);
    Both(write, UnlockProgram(u), UnlockUse(write, u), frames, UploadUse(write, lead, upload, again));
    ScenesAround(versions, bar, UnlockProgram(u) + frames, UnlockUse(write, u) + UploadUse(write, lead, upload, again));
  }

  lemma UploadDoes(held: set<Lock>, lead: bool, upload: bool, again: Unlock)
    requires PAIRING !in held && CONNECTION !in held
    ensures Does(held, If(upload, If(lead, OnLink(Send)) + OnLink(Upload)) + CommitProgram(again, Activate),
                 UploadUse(held, lead, upload, again))
  {
    WhenDoes(held, lead, Send);
    LinkDoes(held, Upload);
    Both(held, If(lead, OnLink(Send)), When(lead, OnAir(held, Send)), OnLink(Upload), OnAir(held, Upload));
    CommitDoes(held, again, Activate);
    Both(held, If(upload, If(lead, OnLink(Send)) + OnLink(Upload)),
         When(upload, When(lead, OnAir(held, Send)) + OnAir(held, Upload)),
         CommitProgram(again, Activate), UnlockUse(held, again) + OnAir(held, Activate));
  }

  /** Versions read under the scene lock, then the scene's frames under the bar lock it may take and the read gate. */
  lemma ScenesAround(versions: seq<Read>, bar: bool, frames: Program, uses: seq<Use>)
    requires Does(With({SCENE}, bar, BAR) + {GATE}, frames, uses)
    ensures Does({}, Under(true, SCENE, ReadsProgram(versions) + Under(bar, BAR, Under(true, GATE, frames))),
                 ReadsUse({SCENE}, versions) + uses)
  {
    assert [] + uses == uses && {} + {SCENE} == {SCENE};
    Around(With({SCENE}, bar, BAR), true, GATE, frames, uses);
    Around({SCENE}, bar, BAR, Under(true, GATE, frames), uses);
    ReadsDo({SCENE}, versions);
    var all := ReadsUse({SCENE}, versions) + uses;
    Both({SCENE}, ReadsProgram(versions), ReadsUse({SCENE}, versions),
         Under(bar, BAR, Under(true, GATE, frames)), uses);
    Around({}, true, SCENE, ReadsProgram(versions) + Under(bar, BAR, Under(true, GATE, frames)), all);
    assert [] + all == all;
  }

  lemma {:induction false} TapsDo(held: set<Lock>, n: nat)
    requires CONNECTION !in held
    ensures Does(held, TapsProgram(n), seq(n, _ => Use(held + {CONNECTION}, Send)))
  {
    if n == 0 {
    } else {
      LinkDoes(held, Send);
      TapsDo(held, n - 1);
      Both(held, OnLink(Send), OnAir(held, Send), TapsProgram(n - 1), seq(n - 1, _ => Use(held + {CONNECTION}, Send)));
      assert OnAir(held, Send) + seq(n - 1, _ => Use(held + {CONNECTION}, Send))
          == seq(n, _ => Use(held + {CONNECTION}, Send));
    }
  }

  lemma ReleaseDoes()
    ensures Does({}, ProgramOf(Release), UseOfOp(Release))
  {
    var all := {SCENE, BRIGHTNESS, BAR, GATE};
    var down := OnAir(all, Disconnect);
    LinkDoes(all, Disconnect);
    assert {SCENE, BRIGHTNESS, BAR} + {GATE} == all && {SCENE, BRIGHTNESS} + {BAR} == {SCENE, BRIGHTNESS, BAR};
    assert {SCENE} + {BRIGHTNESS} == {SCENE, BRIGHTNESS} && {} + {SCENE} == {SCENE} && [] + down == down;
    var gated := Under(true, GATE, OnLink(Disconnect));
    Around({SCENE, BRIGHTNESS, BAR}, true, GATE, OnLink(Disconnect), down);
    Around({SCENE, BRIGHTNESS}, true, BAR, gated, down);
    Around({SCENE}, true, BRIGHTNESS, Under(true, BAR, gated), down);
    Around({}, true, SCENE, Under(true, BRIGHTNESS, Under(true, BAR, gated)), down);
    assert all + {CONNECTION} == {SCENE, BRIGHTNESS, BAR, GATE, CONNECTION};
  }
}

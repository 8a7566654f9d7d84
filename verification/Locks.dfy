/** The locks of one Device (devices/device.py:197-258) and what they order: the programs its operations follow over
    them, the FIFO lock protocol, the link, and release(). Proved over every interleaving: no deadlock, no read-back,
    release or other scene inside a scene's upload and activation, and exactly when a release keeps the link. */
module Locks {
  import opened Basics

  type Lock = nat

  const SCENE: Lock := 0
  const BRIGHTNESS: Lock := 1
  const BAR: Lock := 2
  const GATE: Lock := 3
  const PAIRING: Lock := 4
  const TAP: Lock := 5
  const CONNECTION: Lock := 6

  datatype Io = Connect | Query | Send | Upload | Activate | Disconnect

  datatype Act = Take(lock: Lock) | Drop(lock: Lock) | Do(io: Io)

  type Program = seq<Act>

  // ---- The operations' programs ---------------------------------------------------------------------------------

  /** What a call does before its frames: wait for a pairing read in flight, send the pending unlock. */
  datatype Unlock = Unlock(waits: bool, sends: bool)

  /** A read-back request: under `_read_gate`, after the pending unlock; read_secret's also under `_pairing_lock`. */
  datatype Read = Read(pairing: bool, sends: bool, waits: bool)

  datatype Op =
    | Setter(brightness: bool, before: seq<Read>, bar: bool, unlock: Unlock, resync: seq<Read>, time: bool)
    | BarSwitch(connects: bool, bars: seq<Read>, unlock: Unlock)
    | SetScene(bar: bool, unlock: Unlock)
    | SceneByName(versions: seq<Read>, bar: bool, unlock: Unlock, lead: bool, upload: bool, again: Unlock)
    | Reads(unlock: Unlock, polled: seq<Read>)
    | Taps(count: nat)
    | OpenLink(unlock: Unlock)
    | Release

  function OnLink(io: Io): Program {
    [Take(CONNECTION), Do(io), Drop(CONNECTION)]
  }

  function If(b: bool, p: Program): Program {
    if b then p else []
  }

  function UnlockProgram(u: Unlock): Program {
    If(u.waits, [Take(PAIRING), Drop(PAIRING)]) + If(u.sends, OnLink(Send))
  }

  function ReadProgram(r: Read): Program {
    if r.pairing
    then [Take(GATE), Take(PAIRING)] + If(r.sends, OnLink(Send)) + OnLink(Query) + [Drop(PAIRING), Drop(GATE)]
    else [Take(GATE)] + UnlockProgram(Unlock(r.waits, r.sends)) + OnLink(Query) + [Drop(GATE)]
  }

  function ReadsProgram(rs: seq<Read>): Program {
    if rs == [] then [] else ReadProgram(rs[0]) + ReadsProgram(rs[1..])
  }

  function CommitProgram(u: Unlock, io: Io): Program {
    UnlockProgram(u) + OnLink(io)
  }

  function TapsProgram(n: nat): Program {
    if n == 0 then [] else OnLink(Send) + TapsProgram(n - 1)
  }

  function Under(b: bool, l: Lock, p: Program): Program {
    If(b, [Take(l)]) + p + If(b, [Drop(l)])
  }

  function ProgramOf(op: Op): Program {
    match op
    case Setter(brightness, before, bar, unlock, resync, time) =>
      Under(brightness, BRIGHTNESS,
            ReadsProgram(before) + (Under(bar, BAR, CommitProgram(unlock, Send))
                                    + (ReadsProgram(resync) + If(time, OnLink(Send)))))
    case BarSwitch(connects, bars, unlock) =>
      Under(true, BAR, If(connects, OnLink(Connect)) + (ReadsProgram(bars) + CommitProgram(unlock, Send)))
    case SetScene(bar, unlock) => Under(true, SCENE, Under(bar, BAR, CommitProgram(unlock, Activate)))
    case SceneByName(versions, bar, unlock, lead, upload, again) =>
      Under(true, SCENE,
            ReadsProgram(versions)
            + Under(bar, BAR, Under(true, GATE,
                    UnlockProgram(unlock) + (If(upload, If(lead, OnLink(Send)) + OnLink(Upload))
                                             + CommitProgram(again, Activate)))))
    case Reads(unlock, polled) => UnlockProgram(unlock) + ReadsProgram(polled)
    case Taps(count) => Under(true, TAP, TapsProgram(count))
    case OpenLink(unlock) => CommitProgram(unlock, Connect)
    case Release => Under(true, SCENE, Under(true, BRIGHTNESS, Under(true, BAR, Under(true, GATE, OnLink(Disconnect)))))
  }

  // ---- The discipline -------------------------------------------------------------------------------------------

  /** The locks a program holds at a point, and whether it is between a scene's upload and its activation. */
  datatype Hold = Hold(locks: set<Lock>, scene: bool)

  const NOTHING := Hold({}, false)

  /** May the act be next: locks are taken in ascending order, and each kind of I/O holds the locks it needs. */
  predicate Allowed(h: Hold, a: Act) {
    match a
    case Take(l) => l <= CONNECTION && forall m :: m in h.locks ==> m < l
    case Drop(l) => l in h.locks && (h.scene ==> l != SCENE && l != GATE)
    case Do(io) =>
      && CONNECTION in h.locks
      && match io {
           case Query => GATE in h.locks && !h.scene
           case Upload => SCENE in h.locks && GATE in h.locks && !h.scene
           case Activate => SCENE in h.locks
           case Disconnect => {SCENE, BRIGHTNESS, BAR, GATE} <= h.locks && !h.scene
           case _ => true
         }
  }

  function After(h: Hold, a: Act): Hold {
    match a
    case Take(l) => h.(locks := h.locks + {l})
    case Drop(l) => h.(locks := h.locks - {l})
    case Do(io) => if io.Upload? then h.(scene := true) else if io.Activate? then h.(scene := false) else h
  }

  /** The hold at the end of a program that keeps the discipline from `h` on, None if it breaks it. */
  function Check(h: Hold, p: Program): Option<Hold>
    decreases p
  {
    if p == [] then Some(h) else if Allowed(h, p[0]) then Check(After(h, p[0]), p[1..]) else None
  }

  predicate Keeps(h: Hold, p: Program) {
    Check(h, p) == Some(h)
  }

  lemma {:induction false} CheckConcat(h: Hold, p: Program, q: Program)
    ensures Check(h, p + q) == match Check(h, p) { case Some(m) => Check(m, q) case None => None }
    decreases p
  {
    if p == [] {
      assert p + q == q;
    } else {
      assert (p + q)[0] == p[0] && (p + q)[1..] == p[1..] + q;
      if Allowed(h, p[0]) {
        CheckConcat(After(h, p[0]), p[1..], q);
      }
    }
  }

  lemma Check3(h: Hold, a: Act, b: Act, c: Act)
    ensures Check(h, [a, b, c]) == if !Allowed(h, a) || !Allowed(After(h, a), b) || !Allowed(After(After(h, a), b), c)
                                   then None else Some(After(After(After(h, a), b), c))
  {
    assert [a, b, c][1..] == [b, c] && [b, c][1..] == [c] && [c][1..] == [];
    assert Check(h, [a, b, c]) == if Allowed(h, a) then Check(After(h, a), [b, c]) else None;
    assert Check(After(After(h, a), b), [c])
        == if Allowed(After(After(h, a), b), c) then Some(After(After(After(h, a), b), c)) else None;
  }

  predicate Below(h: Hold, l: Lock) {
    forall m :: m in h.locks ==> m < l
  }

  lemma OnLinkKeeps(h: Hold, io: Io)
    requires Below(h, CONNECTION)
    ensures Allowed(Hold(h.locks + {CONNECTION}, h.scene), Do(io)) ==>
              Check(h, OnLink(io)) == Some(Hold(h.locks, After(h, Do(io)).scene))
  {
    Check3(h, Take(CONNECTION), Do(io), Drop(CONNECTION));
    assert h.locks + {CONNECTION} - {CONNECTION} == h.locks;
  }

  /** Nothing but `p` itself is needed between the locking and the unlocking of `l` around it. */
  lemma UnderKeeps(h: Hold, b: bool, l: Lock, p: Program)
    requires Below(h, l) && l <= CONNECTION && (h.scene ==> l != SCENE && l != GATE)
    requires Keeps(if b then Hold(h.locks + {l}, h.scene) else h, p)
    ensures Keeps(h, Under(b, l, p))
  {
    if b {
      assert [Take(l)][1..] == [] && [Drop(l)][1..] == [];
      assert Check(h, [Take(l)]) == Some(After(h, Take(l)));
      CheckConcat(h, [Take(l)], p);
      CheckConcat(h, [Take(l)] + p, [Drop(l)]);
      assert h.locks + {l} - {l} == h.locks;
    } else {
      assert [] + p + [] == p;
    }
  }

  lemma BothKeep(h: Hold, p: Program, q: Program)
    requires Keeps(h, p) && Keeps(h, q)
    ensures Keeps(h, p + q)
  {
    CheckConcat(h, p, q);
  }

  lemma UnlockKeeps(h: Hold, u: Unlock)
    requires Below(h, PAIRING)
    ensures Keeps(h, UnlockProgram(u))
  {
    UnderKeeps(h, u.waits, PAIRING, []);
    assert [Take(PAIRING)] + [] + [Drop(PAIRING)] == [Take(PAIRING), Drop(PAIRING)];
    assert Keeps(h, If(u.waits, [Take(PAIRING), Drop(PAIRING)]));
    OnLinkKeeps(h, Send);
    BothKeep(h, If(u.waits, [Take(PAIRING), Drop(PAIRING)]), If(u.sends, OnLink(Send)));
  }

  lemma ReadKeeps(h: Hold, r: Read)
    requires Below(h, GATE) && !h.scene
    ensures Keeps(h, ReadProgram(r))
  {
    var g := Hold(h.locks + {GATE}, false);
    if r.pairing {
      var inner := If(r.sends, OnLink(Send)) + OnLink(Query);
      PairingKeeps(g, r.sends);
      UnderKeeps(h, true, GATE, Under(true, PAIRING, inner));
      assert ReadProgram(r) == Under(true, GATE, Under(true, PAIRING, inner));
    } else {
      var inner := UnlockProgram(Unlock(r.waits, r.sends)) + OnLink(Query);
      QueryKeeps(g, Unlock(r.waits, r.sends));
      UnderKeeps(h, true, GATE, inner);
      assert ReadProgram(r) == Under(true, GATE, inner);
    }
  }

  lemma QueryKeeps(g: Hold, u: Unlock)
    requires Below(g, PAIRING) && GATE in g.locks && !g.scene
    ensures Keeps(g, UnlockProgram(u) + OnLink(Query))
  {
    UnlockKeeps(g, u);
    OnLinkKeeps(g, Query);
    BothKeep(g, UnlockProgram(u), OnLink(Query));
  }

  lemma PairingKeeps(g: Hold, sends: bool)
    requires Below(g, PAIRING) && GATE in g.locks && !g.scene
    ensures Keeps(g, Under(true, PAIRING, If(sends, OnLink(Send)) + OnLink(Query)))
  {
    var p := Hold(g.locks + {PAIRING}, false);
    OnLinkKeeps(p, Send);
    OnLinkKeeps(p, Query);
    BothKeep(p, If(sends, OnLink(Send)), OnLink(Query));
    UnderKeeps(g, true, PAIRING, If(sends, OnLink(Send)) + OnLink(Query));
  }

  lemma {:induction false} ReadsKeep(h: Hold, rs: seq<Read>)
    requires Below(h, GATE) && !h.scene
    ensures Keeps(h, ReadsProgram(rs))
  {
    if rs == [] {
    } else {
      ReadKeeps(h, rs[0]);
      ReadsKeep(h, rs[1..]);
      BothKeep(h, ReadProgram(rs[0]), ReadsProgram(rs[1..]));
    }
  }

  lemma CommitKeeps(h: Hold, u: Unlock, io: Io)
    requires Below(h, PAIRING) && !h.scene && io in {Send, Activate, Connect} && (io.Activate? ==> SCENE in h.locks)
    ensures Keeps(h, CommitProgram(u, io))
  {
    UnlockKeeps(h, u);
    OnLinkKeeps(h, io);
    BothKeep(h, UnlockProgram(u), OnLink(io));
  }

  lemma {:induction false} TapsKeep(h: Hold, n: nat)
    requires Below(h, CONNECTION) && !h.scene
    ensures Keeps(h, TapsProgram(n))
  {
    if n == 0 {
    } else {
      OnLinkKeeps(h, Send);
      TapsKeep(h, n - 1);
      BothKeep(h, OnLink(Send), TapsProgram(n - 1));
    }
  }

  lemma SceneKeeps(h: Hold, u: Unlock, lead: bool, upload: bool, again: Unlock)
    requires Below(h, PAIRING) && !h.scene && SCENE in h.locks && GATE in h.locks
    ensures Keeps(h, UnlockProgram(u) + (If(upload, If(lead, OnLink(Send)) + OnLink(Upload))
                                         + CommitProgram(again, Activate)))
  {
    var up := If(upload, If(lead, OnLink(Send)) + OnLink(Upload));
    var mid := Hold(h.locks, upload);
    UnlockKeeps(h, u);
    OnLinkKeeps(h, Send);
    OnLinkKeeps(h, Upload);
    CheckConcat(h, If(lead, OnLink(Send)), OnLink(Upload));
    UnlockKeeps(mid, again);
    OnLinkKeeps(mid, Activate);
    CheckConcat(mid, UnlockProgram(again), OnLink(Activate));
    CheckConcat(h, up, CommitProgram(again, Activate));
    BothKeep(h, UnlockProgram(u), up + CommitProgram(again, Activate));
  }

  /** Every operation takes its locks in the one order, holds the locks its I/O needs, and ends holding none. */
  lemma Disciplined(op: Op)
    ensures Keeps(NOTHING, ProgramOf(op))
  {
    var n := NOTHING;
    match op {
      case Setter(brightness, before, bar, unlock, resync, time) =>
        var h := Hold(if brightness then n.locks + {BRIGHTNESS} else n.locks, false);
        var rest := ReadsProgram(resync) + If(time, OnLink(Send));
        ReadsKeep(h, before);
        CommitKeeps(if bar then Hold(h.locks + {BAR}, false) else h, unlock, Send);
        UnderKeeps(h, bar, BAR, CommitProgram(unlock, Send));
        ReadsKeep(h, resync);
        OnLinkKeeps(h, Send);
        BothKeep(h, ReadsProgram(resync), If(time, OnLink(Send)));
        BothKeep(h, Under(bar, BAR, CommitProgram(unlock, Send)), rest);
        BothKeep(h, ReadsProgram(before), Under(bar, BAR, CommitProgram(unlock, Send)) + rest);
        UnderKeeps(n, brightness, BRIGHTNESS,
                   ReadsProgram(before) + (Under(bar, BAR, CommitProgram(unlock, Send)) + rest));
      case BarSwitch(connects, bars, unlock) =>
        var h := Hold(n.locks + {BAR}, false);
        OnLinkKeeps(h, Connect);
        ReadsKeep(h, bars);
        CommitKeeps(h, unlock, Send);
        BothKeep(h, ReadsProgram(bars), CommitProgram(unlock, Send));
        BothKeep(h, If(connects, OnLink(Connect)), ReadsProgram(bars) + CommitProgram(unlock, Send));
        UnderKeeps(n, true, BAR, If(connects, OnLink(Connect)) + (ReadsProgram(bars) + CommitProgram(unlock, Send)));
      case SetScene(bar, unlock) =>
        var h := Hold(n.locks + {SCENE}, false);
        CommitKeeps(if bar then Hold(h.locks + {BAR}, false) else h, unlock, Activate);
        UnderKeeps(h, bar, BAR, CommitProgram(unlock, Activate));
        UnderKeeps(n, true, SCENE, Under(bar, BAR, CommitProgram(unlock, Activate)));
      case SceneByName(versions, bar, unlock, lead, upload, again) =>
        SceneByNameKeeps(versions, bar, unlock, lead, upload, again);
      case Reads(unlock, polled) =>
        UnlockKeeps(n, unlock);
        ReadsKeep(n, polled);
        BothKeep(n, UnlockProgram(unlock), ReadsProgram(polled));
      case Taps(count) =>
        TapsKeep(Hold(n.locks + {TAP}, false), count);
        UnderKeeps(n, true, TAP, TapsProgram(count));
      case OpenLink(unlock) => CommitKeeps(n, unlock, Connect);
      case Release => ReleaseKeeps();
    }
  }

  lemma SceneByNameKeeps(versions: seq<Read>, bar: bool, u: Unlock, lead: bool, upload: bool, again: Unlock)
    ensures Keeps(NOTHING, ProgramOf(SceneByName(versions, bar, u, lead, upload, again)))
  {
    var h := Hold(NOTHING.locks + {SCENE}, false);
    var b := if bar then Hold(h.locks + {BAR}, false) else h;
    var body := UnlockProgram(u) + (If(upload, If(lead, OnLink(Send)) + OnLink(Upload))
                + CommitProgram(again, Activate));
    SceneKeeps(Hold(b.locks + {GATE}, false), u, lead, upload, again);
    UnderKeeps(b, true, GATE, body);
    UnderKeeps(h, bar, BAR, Under(true, GATE, body));
    ReadsKeep(h, versions);
    BothKeep(h, ReadsProgram(versions), Under(bar, BAR, Under(true, GATE, body)));
    UnderKeeps(NOTHING, true, SCENE, ReadsProgram(versions) + Under(bar, BAR, Under(true, GATE, body)));
  }

  lemma ReleaseKeeps()
    ensures Keeps(NOTHING, ProgramOf(Release))
  {
    var s := Hold(NOTHING.locks + {SCENE}, false);
    var r := Hold(s.locks + {BRIGHTNESS}, false);
    var b := Hold(r.locks + {BAR}, false);
    var g := Hold(b.locks + {GATE}, false);
    OnLinkKeeps(g, Disconnect);
    UnderKeeps(b, true, GATE, OnLink(Disconnect));
    UnderKeeps(r, true, BAR, Under(true, GATE, OnLink(Disconnect)));
    UnderKeeps(s, true, BRIGHTNESS, Under(true, BAR, Under(true, GATE, OnLink(Disconnect))));
    UnderKeeps(NOTHING, true, SCENE, Under(true, BRIGHTNESS, Under(true, BAR, Under(true, GATE, OnLink(Disconnect)))));
  }
}

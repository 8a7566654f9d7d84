/** H60A6: whenever a zone carries a `zone_power_confirmed` stamp, the power the fixture ends at once its queued
    messages are applied is the power the library holds for it, over every run of the library and the
    firmware, but for one race this module pins down: a scene acked ahead of a queued power-off. */
module FixtureRuns {
  import opened Basics
  import opened Fold
  import opened Library
  import opened FixtureFirmware
  import opened FixtureStamps

  /** A status read's snapshot of the library's counters, taken when it is issued. */
  datatype Ticket = Ticket(seqNo: nat, since: nat, drops: nat)

  /** What holds the connection lock: nothing, a write (`sent` frames acked, `hit` whether the next one has been
      dispatched, `early` the wake worked out before the wait), or a status read and its reply, once answered. */
  datatype Link =
    | Free
    | Writing(w: Setter, early: map<nat, bool>, sent: nat, hit: bool)
    | Reading(id: nat, reply: Option<Status>)

  /** `due` counts the messages at the front of the queue that were posted before the last status request whose
      reply was folded in: the firmware has applied them by the time it dispatches another frame. */
  datatype Sys = Sys(lib: Lib, dev: Dev, due: nat, link: Link, polls: map<nat, Ticket>)

  /** `CancelWaiting`: a write ends in an error before its first frame went out, cancelled while it waited for the
      connection lock or failed there, whatever holds the link. */
  datatype Step =
    | BeginWrite(w: Setter, early: map<nat, bool>)
    | Dispatch
    | AckFrame
    | EndAcked(now: real)
    | EndRaised
    | CancelWaiting(w: Setter, early: map<nat, bool>)
    | Pop
    | IssueRead(id: nat)
    | Request(id: nat)
    | Answer
    | LoseAnswer
    | FoldRead(now: real)
    | DropRead(id: nat)

  /** A status reply folded in, unless a setter applied state since its read was issued. */
  function Folded(s: Sys, reply: Status, t: Ticket, now: real): Sys
    requires s.link.Reading?
  {
    if t.seqNo != s.lib.seqNo then s.(link := Free, polls := s.polls - {s.link.id})
    else Sys(StatusRead(s.lib, reply, t.since, t.drops, now), s.dev,
             if reply.zonePower == map[] then s.due else |s.dev.queue|, Free, s.polls - {s.link.id})
  }

  ghost predicate Next(zones: set<nat>, s: Sys, step: Step, s': Sys) {
    var p := ProfileOf(zones);
    match step
    case BeginWrite(w, early) =>
      && s.link.Free? && ValidSetter(zones, w) && EarlyWake(zones, w, early)
      && s' == s.(link := Writing(w, early, 0, false))
    case Dispatch =>
      && s.link.Writing? && s.due == 0
      && s.link.sent < |WriteOf(zones, s.link.w).frames|
      && s' == s.(dev := Dispatched(zones, s.dev, WriteOf(zones, s.link.w).frames[s.link.sent]),
                  link := s.link.(hit := true))
    case AckFrame =>
      && s.link.Writing? && s.link.hit
      && s' == s.(link := s.link.(sent := s.link.sent + 1, hit := false))
    case EndAcked(now) =>
      && s.link.Writing? && s.link.sent == |WriteOf(zones, s.link.w).frames|
      && s' == s.(lib := CommitAcked(p, s.lib, WriteOf(zones, s.link.w), s.link.early, now), link := Free)
    case EndRaised =>
      && s.link.Writing?
      && s' == s.(lib := CommitRaised(p, s.lib, WriteOf(zones, s.link.w), s.link.early), link := Free)
    case CancelWaiting(w, early) =>
      && ValidSetter(zones, w) && EarlyWake(zones, w, early)
      && s' == s.(lib := CommitRaised(p, s.lib, WriteOf(zones, w), early))
    case Pop =>
      && s.dev.queue != []
      && s' == s.(dev := Dev(Apply(zones, s.dev.flags, s.dev.queue[0]), s.dev.queue[1..]),
                  due := if s.due == 0 then 0 else s.due - 1)
    case IssueRead(id) =>
      && id !in s.polls
      && s' == s.(polls := s.polls[id := Ticket(s.lib.seqNo, s.lib.unsureSeq, s.lib.drops)])
    case Request(id) =>
      && s.link.Free? && s.due == 0 && id in s.polls
      && s' == s.(link := Reading(id, None))
    case Answer =>
      && s.link.Reading? && s.link.reply.None? && s'.link.Reading? && s'.link.reply.Some?
      && Replies(zones, s.dev.flags, s'.link.reply.value)
      && s' == s.(link := s.link.(reply := s'.link.reply))
    case LoseAnswer =>
      && s.link.Reading?
      && s' == s.(link := Free)
    case FoldRead(now) =>
      && s.link.Reading? && s.link.reply.Some? && s.link.id in s.polls
      && s' == Folded(s, s.link.reply.value, s.polls[s.link.id], now)
    case DropRead(id) =>
      && id in s.polls && !(s.link.Reading? && s.link.id == id)
      && s' == s.(polls := s.polls - {id})
  }

  ghost predicate Init(zones: set<nat>, s: Sys) {
    s.lib == FRESH && s.dev.queue == [] && WellFormed(zones, s.dev.flags, []) && s.due == 0 && s.link.Free?
    && s.polls == map[]
  }

  /** The library as it stands while a write is in flight: as if the write had already raised. */
  function InDoubt(zones: set<nat>, s: Sys): Lib {
    if s.link.Writing? then CommitRaised(ProfileOf(zones), s.lib, WriteOf(zones, s.link.w), s.link.early) else s.lib
  }

  /** The fixture once the messages the next frame is sure to find applied are applied. */
  function Ahead(zones: set<nat>, s: Sys): Dev
    requires s.due <= |s.dev.queue|
  {
    Dev(Drain(zones, s.dev.flags, s.dev.queue[..s.due]), s.dev.queue[s.due..])
  }

  predicate Landed(link: Link) {
    link.Writing? && (link.hit || link.sent > 0)
  }

  ghost predicate SysInv(zones: set<nat>, s: Sys) {
    && s.due <= |s.dev.queue|
    && Held(zones, s.lib)
    && (forall id :: id in s.polls ==> s.polls[id].since <= s.lib.unsureSeq)
    && Inv(zones, InDoubt(zones, s), Ahead(zones, s))
    && (s.link.Writing? ==>
          && ValidSetter(zones, s.link.w) && EarlyWake(zones, s.link.w, s.link.early)
          && s.link.sent <= |WriteOf(zones, s.link.w).frames|
          && (s.link.hit ==> s.link.sent < |WriteOf(zones, s.link.w).frames|)
          && (Landed(s.link) ==> s.due == 0 && Settles(zones, InDoubt(zones, s), s.dev, s.link.w)))
    && (s.link.Reading? ==> s.due == 0 && (s.link.reply.Some? ==>
          Faithful(zones, s.lib, s.link.reply.value, Drain(zones, s.dev.flags, s.dev.queue))))
  }

  lemma AheadNow(zones: set<nat>, s: Sys)
    requires s.due == 0
    ensures Ahead(zones, s) == s.dev
  {
    assert s.dev.queue[..0] == [] && s.dev.queue[0..] == s.dev.queue;
  }

  lemma PopStep(zones: set<nat>, s: Sys, s': Sys)
    requires SysInv(zones, s) && Next(zones, s, Pop, s')
    ensures SysInv(zones, s')
  {
    var q := s.dev.queue;
    StablePop(zones, s.dev.flags, q);
    if s.due == 0 {
      AheadNow(zones, s);
      AheadNow(zones, s');
      PopKeeps(zones, InDoubt(zones, s), s.dev);
      if Landed(s.link) {
        PopSettles(zones, InDoubt(zones, s), s.dev, s.link.w);
      }
    } else {
      DrainPop(zones, s.dev.flags, q, s.due - 1);
      assert Ahead(zones, s') == Ahead(zones, s);
    }
  }

  lemma DispatchStep(zones: set<nat>, s: Sys, s': Sys)
    requires SysInv(zones, s) && Next(zones, s, Dispatch, s')
    ensures SysInv(zones, s')
  {
    AheadNow(zones, s);
    AheadNow(zones, s');
    var w := s.link.w;
    var frame := WriteOf(zones, w).frames[s.link.sent];
    DispatchKeeps(zones, s.lib, w, s.link.early, s.dev, frame);
    DispatchSettles(zones, InDoubt(zones, s), s.dev, w, s.link.sent);
  }

  lemma BeginStep(zones: set<nat>, s: Sys, w: Setter, early: map<nat, bool>, s': Sys)
    requires SysInv(zones, s) && Next(zones, s, BeginWrite(w, early), s')
    ensures SysInv(zones, s')
  {
    RaiseKeeps(zones, s.lib, w, early, Ahead(zones, s), InDoubt(zones, s'));
  }

  lemma RaiseStep(zones: set<nat>, s: Sys, s': Sys)
    requires SysInv(zones, s) && Next(zones, s, EndRaised, s')
    ensures SysInv(zones, s')
  {
    assert s'.lib == InDoubt(zones, s) && Ahead(zones, s') == Ahead(zones, s);
    InvHeld(zones, s'.lib, Ahead(zones, s));
  }

  /** A write cancelled (or failed) before its first frame, whatever holds the link meanwhile. */
  lemma CancelStep(zones: set<nat>, s: Sys, w: Setter, early: map<nat, bool>, s': Sys)
    requires SysInv(zones, s) && Next(zones, s, CancelWaiting(w, early), s')
    ensures SysInv(zones, s')
  {
    var d := Ahead(zones, s);
    assert Ahead(zones, s') == d;
    RaiseDoubts(zones, s.lib, w, early, s'.lib);
    if s.link.Writing? {
      RaiseDoubtsMore(zones, s.lib, s'.lib, s.link.w, s.link.early);
    }
    Weaker(zones, InDoubt(zones, s), InDoubt(zones, s'), d);
    if s.link.Reading? && s.link.reply.Some? {
      DoubtFaithful(zones, s.lib, s'.lib, s.link.reply.value, Drain(zones, s.dev.flags, s.dev.queue));
    }
  }

  lemma InvHeld(zones: set<nat>, l: Lib, d: Dev)
    requires Inv(zones, l, d)
    ensures Held(zones, l)
  {
  }

  /** A scene activation may only be acked where it does not overtake a queued power-off; the library can make
      sure of that before it sends one (SceneSafe). */
  ghost predicate Guarded(zones: set<nat>, s: Sys, step: Step, s': Sys) {
    step.EndAcked? && s.link.Writing? && s.link.w.ActivateScene? ==>
      SceneSafe(s.lib) || !OffOvertaken(zones, s'.lib, s'.dev)
  }

  /** What a caller can check of the library before a scene: the last acked power write it remembers posting is no
      off that no status reply has carried, or a wake is counted anyway. */
  predicate SceneSafe(l: Lib) {
    l.st.isOn == Some(true) || l.unsure || PostedOn(l.posted) || l.posted == map[]
  }

  lemma SafeNotOvertaken(zones: set<nat>, l: Lib, early: map<nat, bool>, now: real, d: Dev, r: Lib, a: Lib)
    requires SceneSafe(l)
    requires r == CommitRaised(ProfileOf(zones), l, WriteOf(zones, ActivateScene), early) && Inv(zones, r, d)
    requires a == CommitAcked(ProfileOf(zones), l, WriteOf(zones, ActivateScene), early, now)
    requires Settles(zones, r, d, ActivateScene)
    ensures !OffOvertaken(zones, a, d)
  {
    AckNoPower(zones, l, ActivateScene, early, now, d, r, a);
    assert r.st.isOn == l.st.isOn && r.unsure == l.unsure && r.posted == l.posted;
    if l.posted == map[] && d.queue != [] {
      PostedEmpty(zones, r, d.queue);
    }
  }

  /** The part of that guard that needs nothing of what a scene does to the zone flags of a lit fixture. */
  predicate AnySceneSafe(l: Lib) {
    l.unsure || PostedOn(l.posted) || l.posted == map[]
  }

  lemma AnySceneNotOvertaken(zones: set<nat>, l: Lib, early: map<nat, bool>, now: real, d: Dev, lit: set<nat>, r: Lib,
                             a: Lib)
    requires AnySceneSafe(l)
    requires r == CommitRaised(ProfileOf(zones), l, WriteOf(zones, ActivateScene), early) && Inv(zones, r, d)
    requires a == CommitAcked(ProfileOf(zones), l, WriteOf(zones, ActivateScene), early, now)
    ensures !OffOvertaken(zones, a, Dev(Flags(true, lit), d.queue))
  {
    AckNoPower(zones, l, ActivateScene, early, now, d, r, a);
    assert r.unsure == l.unsure && r.posted == l.posted;
    if l.posted == map[] && d.queue != [] {
      PostedEmpty(zones, r, d.queue);
    }
  }

  /** A zone-off of `i` acked and queued, every other zone stamped lit. */
  function ZoneOffLib(zones: set<nat>, i: nat): Lib {
    Lib(State(Some(true), AllTo(zones, true)[i := false], map z | z in zones :: 0.0),
        map[i := {false}], false, 0, None, 0, 1)
  }

  /** The other part does: were a scene to leave no zone lit but one whose zone-off is still queued, the fixture held
      on would go dark after it. */
  lemma SceneZonesMatter(zones: set<nat>, i: nat, j: nat) returns (l: Lib, d: Dev)
    requires i in zones && j in zones && i != j
    ensures SceneSafe(l) && !AnySceneSafe(l) && Inv(zones, l, d) && d.flags == Flags(true, zones)
    ensures OffOvertaken(zones, CommitAcked(ProfileOf(zones), l, WriteOf(zones, ActivateScene), map[], 1.0),
                         d.(flags := Flags(true, {i})))
  {
    var q := [SetZone(i, false)];
    l, d := ZoneOffLib(zones, i), Dev(Flags(true, zones), q);
    assert q[..1] == q && q[..0] == [];
    ZoneOffInv(zones, i, j, l, d);
    SceneAcked(zones, l, 1.0);
    var f := Flags(true, {i});
    assert Drain(zones, f, q[..0]) == f;
    assert {i} - {i} == {};
    assert !Drain(zones, f, q[..1]).main;
  }

  lemma ZoneOffInv(zones: set<nat>, i: nat, j: nat, l: Lib, d: Dev)
    requires i in zones && j in zones && i != j
    requires l == ZoneOffLib(zones, i) && d == Dev(Flags(true, zones), [SetZone(i, false)])
    ensures Inv(zones, l, d)
  {
    var q := d.queue;
    assert q[..1] == q && q[..0] == [];
    assert Drain(zones, d.flags, q[..0]) == d.flags;
    assert j in zones - {i};
    assert Drain(zones, d.flags, q[..1]) == Flags(true, zones - {i});
    assert forall z :: Last(q, z) == if z == i then Some(false) else None;
  }

  lemma AckStep(zones: set<nat>, s: Sys, now: real, s': Sys)
    requires SysInv(zones, s) && Next(zones, s, EndAcked(now), s') && Guarded(zones, s, EndAcked(now), s')
    ensures SysInv(zones, s')
  {
    var w, r := s.link.w, InDoubt(zones, s);
    var d := Ahead(zones, s);
    assert Ahead(zones, s') == d;
    if Landed(s.link) {
      AheadNow(zones, s);
      if w.ActivateScene? && SceneSafe(s.lib) {
        SafeNotOvertaken(zones, s.lib, s.link.early, now, d, r, s'.lib);
      }
      AckKeeps(zones, s.lib, w, s.link.early, now, d, r, s'.lib);
    } else {
      assert w.Adjust?;
      AckNoPowerKeeps(zones, s.lib, w, s.link.early, now, d, r, s'.lib);
    }
    InvHeld(zones, s'.lib, d);
  }

  lemma AnswerStep(zones: set<nat>, s: Sys, s': Sys)
    requires SysInv(zones, s) && Next(zones, s, Answer, s')
    ensures SysInv(zones, s')
  {
    AheadNow(zones, s);
    assert Ahead(zones, s') == Ahead(zones, s);
    AnswerFaithful(zones, s.lib, s.dev, s'.link.reply.value);
  }

  lemma FoldStep(zones: set<nat>, s: Sys, now: real, s': Sys)
    requires SysInv(zones, s) && Next(zones, s, FoldRead(now), s')
    ensures SysInv(zones, s')
  {
    var t, reply := s.polls[s.link.id], s.link.reply.value;
    AheadNow(zones, s);
    if t.seqNo != s.lib.seqNo || reply.zonePower == map[] {
      AheadNow(zones, s');
      if t.seqNo == s.lib.seqNo {
        FoldBareKeeps(zones, s.lib, reply, t.since, t.drops, now, s.dev);
      }
    } else {
      var end := Drain(zones, s.dev.flags, s.dev.queue);
      assert s.dev.queue[..|s.dev.queue|] == s.dev.queue;
      assert Ahead(zones, s') == Dev(end, []);
      FoldKeeps(zones, s.lib, reply, t.since, t.drops, now, end);
    }
    InvHeld(zones, s'.lib, Ahead(zones, s'));
  }

  lemma StepKeeps(zones: set<nat>, s: Sys, step: Step, s': Sys)
    requires SysInv(zones, s) && Next(zones, s, step, s') && Guarded(zones, s, step, s')
    ensures SysInv(zones, s')
  {
    match step {
      case BeginWrite(w, early) => BeginStep(zones, s, w, early, s');
      case Dispatch => DispatchStep(zones, s, s');
      case EndAcked(now) => AckStep(zones, s, now, s');
      case EndRaised => RaiseStep(zones, s, s');
      case CancelWaiting(w, early) => CancelStep(zones, s, w, early, s');
      case Pop => PopStep(zones, s, s');
      case Answer => AnswerStep(zones, s, s');
      case FoldRead(now) => FoldStep(zones, s, now, s');
      case _ => assert Ahead(zones, s') == Ahead(zones, s) && InDoubt(zones, s') == InDoubt(zones, s);
    }
  }

  // ---- Runs -----------------------------------------------------------------------------------------------------

  ghost predicate Path(zones: set<nat>, run: seq<Sys>, steps: seq<Step>) {
    |run| == |steps| + 1 && forall k :: 0 <= k < |steps| ==> Next(zones, run[k], steps[k], run[k + 1])
  }

  ghost predicate AllGuarded(zones: set<nat>, run: seq<Sys>, steps: seq<Step>)
    requires |run| == |steps| + 1
  {
    forall k :: 0 <= k < |steps| ==> Guarded(zones, run[k], steps[k], run[k + 1])
  }

  lemma {:induction false} RunKeeps(zones: set<nat>, run: seq<Sys>, steps: seq<Step>, k: nat)
    requires zones != {} && Path(zones, run, steps) && Init(zones, run[0]) && k <= |steps|
    requires forall j :: 0 <= j < k ==> Guarded(zones, run[j], steps[j], run[j + 1])
    ensures SysInv(zones, run[k])
  {
    if k == 0 {
      AheadNow(zones, run[0]);
    } else {
      RunKeeps(zones, run, steps, k - 1);
      StepKeeps(zones, run[k - 1], steps[k - 1], run[k]);
    }
  }

  /** In every state of every guarded run, each zone stamped at that point (and, while a write is in flight, still
      stamped if that write raises) ends at the power the library holds for it. */
  lemma StampsSound(zones: set<nat>, run: seq<Sys>, steps: seq<Step>, k: nat)
    requires zones != {} && Path(zones, run, steps) && Init(zones, run[0]) && k <= |steps|
    requires AllGuarded(zones, run, steps)
    ensures Sound(zones, InDoubt(zones, run[k]), run[k].dev)
  {
    RunKeeps(zones, run, steps, k);
    var s := run[k];
    DrainConcat(zones, s.dev.flags, s.dev.queue[..s.due], s.dev.queue[s.due..]);
    assert s.dev.queue[..s.due] + s.dev.queue[s.due..] == s.dev.queue;
  }

  lemma Unused(ids: set<nat>) returns (id: nat)
    ensures forall i :: i in ids ==> i < id
  {
    id := 0;
    if i :| i in ids {
      var rest := Unused(ids - {i});
      id := if rest > i then rest else i + 1;
      forall j | j in ids ensures j < id {
        assert j == i || j in ids - {i};
      }
    }
  }

  lemma Extend(zones: set<nat>, run: seq<Sys>, steps: seq<Step>, step: Step, s: Sys)
    requires Path(zones, run, steps) && Next(zones, run[|steps|], step, s)
    ensures Path(zones, run + [s], steps + [step])
  {
  }

  /** The fixture after the first `k` queued messages are applied. */
  ghost function Popped(zones: set<nat>, s: Sys, k: nat): Sys
    requires k <= |s.dev.queue|
  {
    s.(dev := Dev(Drain(zones, s.dev.flags, s.dev.queue[..k]), s.dev.queue[k..]))
  }

  lemma {:induction false} PopMany(zones: set<nat>, run: seq<Sys>, steps: seq<Step>, k: nat)
    returns (run': seq<Sys>, steps': seq<Step>)
    requires Path(zones, run, steps) && run[|steps|].due == 0 && k <= |run[|steps|].dev.queue|
    ensures Path(zones, run', steps') && run <= run' && steps <= steps'
    ensures run'[|steps'|] == Popped(zones, run[|steps|], k)
  {
    var s := run[|steps|];
    if k == 0 {
      assert s.dev.queue[..0] == [] && s.dev.queue[0..] == s.dev.queue;
      run', steps' := run, steps;
    } else {
      run', steps' := PopMany(zones, run, steps, k - 1);
      var t := Popped(zones, s, k);
      assert s.dev.queue[..k][..k - 1] == s.dev.queue[..k - 1];
      Extend(zones, run', steps', Pop, t);
      run', steps' := run' + [t], steps' + [Pop];
    }
  }

  /** A brightness write acked at once. */
  lemma BrightnessPath(zones: set<nat>, run: seq<Sys>, steps: seq<Step>)
    returns (run': seq<Sys>, steps': seq<Step>)
    requires Path(zones, run, steps) && run[|steps|].link.Free? && run[|steps|].due == 0
    ensures Path(zones, run', steps') && run <= run' && steps <= steps'
    ensures var s := run[|steps|];
            run'[|steps'|] == s.(lib := CommitAcked(ProfileOf(zones), s.lib, WriteOf(zones, Adjust([Brightness])),
                                                   map[], 0.0),
                                 dev := Dispatched(zones, s.dev, Brightness))
  {
    var s, w := run[|steps|], Adjust([Brightness]);
    var dev := Dispatched(zones, s.dev, Brightness);
    run', steps' := run, steps;
    var next := s.(link := Writing(w, map[], 0, false));
    Extend(zones, run', steps', BeginWrite(w, map[]), next);
    run', steps' := run' + [next], steps' + [BeginWrite(w, map[])];
    next := s.(link := Writing(w, map[], 0, true), dev := dev);
    Extend(zones, run', steps', Dispatch, next);
    run', steps' := run' + [next], steps' + [Dispatch];
    next := s.(link := Writing(w, map[], 1, false), dev := dev);
    Extend(zones, run', steps', AckFrame, next);
    run', steps' := run' + [next], steps' + [AckFrame];
    next := s.(lib := CommitAcked(ProfileOf(zones), s.lib, WriteOf(zones, w), map[], 0.0), dev := dev);
    Extend(zones, run', steps', EndAcked(0.0), next);
    run', steps' := run' + [next], steps' + [EndAcked(0.0)];
  }

  /** A status read answered and folded in at once. */
  lemma StatusPath(zones: set<nat>, run: seq<Sys>, steps: seq<Step>, reply: Status)
    returns (run': seq<Sys>, steps': seq<Step>)
    requires Path(zones, run, steps) && run[|steps|].link.Free? && run[|steps|].due == 0
    requires Replies(zones, run[|steps|].dev.flags, reply)
    ensures Path(zones, run', steps') && run <= run' && steps <= steps'
    ensures var s, end := run[|steps|], run'[|steps'|];
            end.link.Free? && end.dev == s.dev && end.lib == StatusRead(s.lib, reply, s.lib.unsureSeq, s.lib.drops, 0.0)
  {
    var s := run[|steps|];
    var id := Unused(s.polls.Keys);
    var ticket := Ticket(s.lib.seqNo, s.lib.unsureSeq, s.lib.drops);
    run', steps' := run, steps;
    var next := s.(polls := s.polls[id := ticket]);
    Extend(zones, run', steps', IssueRead(id), next);
    run', steps' := run' + [next], steps' + [IssueRead(id)];
    next := next.(link := Reading(id, None));
    Extend(zones, run', steps', Request(id), next);
    run', steps' := run' + [next], steps' + [Request(id)];
    next := next.(link := Reading(id, Some(reply)));
    Extend(zones, run', steps', Answer, next);
    run', steps' := run' + [next], steps' + [Answer];
    next := Folded(next, reply, ticket, 0.0);
    Extend(zones, run', steps', FoldRead(0.0), next);
    run', steps' := run' + [next], steps' + [FoldRead(0.0)];
  }

  /** A dark fixture the library takes for on: a brightness write queues a switch-on the library posts nothing
      for, and a status reply that comes before it is applied stamps every zone off. */
  lemma DarkBreaks(zones: set<nat>, run: seq<Sys>, steps: seq<Step>)
    returns (run': seq<Sys>, steps': seq<Step>)
    requires zones != {} && Path(zones, run, steps)
    requires var s := run[|steps|];
             && s.link.Free? && s.due == 0 && !s.dev.flags.main && s.dev.flags.lit == {}
             && KnownOn(s.lib) && !PostedOn(s.lib.posted) && PostedSome(s.lib.posted) && s.lib.posted.Keys <= zones
    ensures Path(zones, run', steps') && run <= run' && steps <= steps' && run'[|steps'|].link.Free?
    ensures !Sound(zones, run'[|steps'|].lib, run'[|steps'|].dev)
  {
    var s := run[|steps|];
    var reply := Status(Some(false), AllTo(zones, false));
    run', steps' := BrightnessPath(zones, run, steps);
    var lib := run'[|steps'|].lib;
    run', steps' := StatusPath(zones, run', steps', reply);
    FalseOff(zones, s.lib, lib);
    StableAppend(zones, s.dev.flags, s.dev.queue, SetTurn(true));
    var i :| i in zones;
  }

  lemma FalseOff(zones: set<nat>, l: Lib, l1: Lib)
    requires zones != {} && KnownOn(l) && !PostedOn(l.posted) && PostedSome(l.posted)
    requires l1 == CommitAcked(ProfileOf(zones), l, WriteOf(zones, Adjust([Brightness])), map[], 0.0)
    ensures var l2 := StatusRead(l1, Status(Some(false), AllTo(zones, false)), l1.unsureSeq, l1.drops, 0.0);
            forall i :: i in zones ==> i in l2.st.confirmed && i in l2.st.zonePower && !l2.st.zonePower[i]
  {
    var reply := Status(Some(false), AllTo(zones, false));
    var any :| any in zones;
    assert any in reply.zonePower;
    forall i ensures i in l1.posted ==> i in l.posted && l1.posted[i] == l.posted[i] {}
    assert forall i :: i in l1.posted ==> Only(l1.posted[i], false);
    StatusState(l1, reply, l1.unsureSeq, l1.drops, 0.0);
  }

  /** Exactly the overtaken power-offs break the stamps: every run that acks a scene over one has a continuation
      that ends with a zone stamped at a power it will not have. */
  lemma OvertakingBreaks(zones: set<nat>, run: seq<Sys>, steps: seq<Step>, now: real)
    returns (run': seq<Sys>, steps': seq<Step>)
    requires zones != {} && Path(zones, run, steps + [EndAcked(now)]) && Init(zones, run[0])
    requires AllGuarded(zones, run[..|steps| + 1], steps)
    requires run[|steps|].link.Writing? && run[|steps|].link.w.ActivateScene?
    requires OffOvertaken(zones, run[|steps| + 1].lib, run[|steps| + 1].dev)
    ensures Path(zones, run', steps') && run <= run' && steps + [EndAcked(now)] <= steps'
    ensures run'[|steps'|].link.Free? && !Sound(zones, run'[|steps'|].lib, run'[|steps'|].dev)
  {
    var before := run[..|steps| + 1];
    assert Path(zones, before, steps) by {
      forall k | 0 <= k < |steps| ensures Next(zones, before[k], steps[k], before[k + 1]) {
        assert (steps + [EndAcked(now)])[k] == steps[k];
      }
    }
    RunKeeps(zones, before, steps, |steps|);
    var s, s' := run[|steps|], run[|steps| + 1];
    assert Next(zones, s, (steps + [EndAcked(now)])[|steps|], s');
    AheadNow(zones, s);
    var r := InDoubt(zones, s);
    AckNoPower(zones, s.lib, ActivateScene, s.link.early, now, s.dev, r, s'.lib);
    var k :| 0 <= k <= |s.dev.queue| && !Drain(zones, s.dev.flags, s.dev.queue[..k]).main;
    DrainAgrees(zones, s.dev.flags, s.dev.queue[..k]);
    run', steps' := PopMany(zones, run, steps + [EndAcked(now)], k);
    run', steps' := DarkBreaks(zones, run', steps');
  }

  // ---- The race, step by step -----------------------------------------------------------------------------------

  /** A one-frame write sent and acked at once, up to the end of its commit. */
  lemma SendPath(zones: set<nat>, run: seq<Sys>, steps: seq<Step>, w: Setter)
    returns (run': seq<Sys>, steps': seq<Step>)
    requires Path(zones, run, steps) && run[|steps|].link.Free? && run[|steps|].due == 0
    requires ValidSetter(zones, w) && |WriteOf(zones, w).frames| == 1
    ensures Path(zones, run', steps') && run <= run' && steps' == steps + [BeginWrite(w, map[]), Dispatch, AckFrame]
    ensures run'[|steps'|] == run[|steps|].(dev := Dispatched(zones, run[|steps|].dev, WriteOf(zones, w).frames[0]),
                                            link := Writing(w, map[], 1, false))
  {
    var s := run[|steps|];
    var next := s.(link := Writing(w, map[], 0, false));
    Extend(zones, run, steps, BeginWrite(w, map[]), next);
    run', steps' := run + [next], steps + [BeginWrite(w, map[])];
    next := next.(dev := Dispatched(zones, s.dev, WriteOf(zones, w).frames[0]), link := Writing(w, map[], 0, true));
    Extend(zones, run', steps', Dispatch, next);
    run', steps' := run' + [next], steps' + [Dispatch];
    next := next.(link := Writing(w, map[], 1, false));
    Extend(zones, run', steps', AckFrame, next);
    run', steps' := run' + [next], steps' + [AckFrame];
  }

  function OffLib(zones: set<nat>): Lib {
    CommitAcked(ProfileOf(zones), FRESH, WriteOf(zones, TurnOff), map[], 0.0)
  }

  function OffSceneLib(zones: set<nat>): Lib {
    CommitAcked(ProfileOf(zones), OffLib(zones), WriteOf(zones, ActivateScene), map[], 1.0)
  }

  /** A power-off acked and not applied yet. */
  lemma OffPath(zones: set<nat>, s: Sys) returns (run: seq<Sys>, steps: seq<Step>)
    requires zones != {} && Init(zones, s)
    ensures Path(zones, run, steps) && run[0] == s
            && steps == [BeginWrite(TurnOff, map[]), Dispatch, AckFrame, EndAcked(0.0)]
    ensures run[|steps|] == Sys(OffLib(zones), Dev(s.dev.flags, [SetTurn(false)]), 0, Free, map[])
    ensures run[3].link == Writing(TurnOff, map[], 1, false)
  {
    run, steps := SendPath(zones, [s], [], TurnOff);
    var dark := Sys(OffLib(zones), Dev(s.dev.flags, [SetTurn(false)]), 0, Free, map[]);
    Extend(zones, run, steps, EndAcked(0.0), dark);
    run, steps := run + [dark], steps + [EndAcked(0.0)];
  }

  /** A scene sent to a lit fixture whose power-off is still queued, all but its acknowledgement. */
  lemma ScenePath(zones: set<nat>, off: seq<Sys>, first: seq<Step>, d: Dev) returns (run: seq<Sys>, steps: seq<Step>)
    requires Path(zones, off, first) && first == [BeginWrite(TurnOff, map[]), Dispatch, AckFrame, EndAcked(0.0)]
    requires off[3].link == Writing(TurnOff, map[], 1, false)
    requires d.flags.main && off[4] == Sys(off[4].lib, d, 0, Free, map[])
    ensures Path(zones, run, steps) && run[0] == off[0] && AllGuarded(zones, run, steps)
    ensures run[|steps|] == Sys(off[4].lib, d, 0, Writing(ActivateScene, map[], 1, false), map[])
  {
    assert Dispatched(zones, d, Mode(Scene)) == d;
    run, steps := SendPath(zones, off, first, ActivateScene);
    SevenSteps(zones, run, steps, off);
  }

  /** From any lit start: a power-off, and a scene acked before the fixture applied it. So the race is reached, and
      OvertakingBreaks then ends it with a stamp that does not hold. */
  lemma OffThenScene(zones: set<nat>, s: Sys) returns (run: seq<Sys>, steps: seq<Step>, over: Sys)
    requires zones != {} && Init(zones, s) && s.dev.flags.main
    ensures Path(zones, run, steps) && run[0] == s && AllGuarded(zones, run, steps)
    ensures run[|steps|].link.Writing? && run[|steps|].link.w.ActivateScene? && !SceneSafe(run[|steps|].lib)
    ensures Next(zones, run[|steps|], EndAcked(1.0), over) && OffOvertaken(zones, over.lib, over.dev)
  {
    var off, first := OffPath(zones, s);
    run, steps := ScenePath(zones, off, first, Dev(s.dev.flags, [SetTurn(false)]));
    over := SceneEnds(zones, run[|steps|]);
    OffHeld(zones);
    OffDarkens(zones, s.dev.flags);
  }

  lemma SceneEnds(zones: set<nat>, s: Sys) returns (over: Sys)
    requires s.link == Writing(ActivateScene, map[], 1, false)
    ensures over == s.(lib := CommitAcked(ProfileOf(zones), s.lib, WriteOf(zones, ActivateScene), map[], 1.0),
                       link := Free)
    ensures Next(zones, s, EndAcked(1.0), over)
  {
    over := s.(lib := CommitAcked(ProfileOf(zones), s.lib, WriteOf(zones, ActivateScene), map[], 1.0), link := Free);
  }

  lemma SevenSteps(zones: set<nat>, run: seq<Sys>, steps: seq<Step>, off: seq<Sys>)
    requires |run| == 8 && |off| == 5 && off <= run && off[3].link == Writing(TurnOff, map[], 1, false)
    requires steps == [BeginWrite(TurnOff, map[]), Dispatch, AckFrame, EndAcked(0.0),
                       BeginWrite(ActivateScene, map[]), Dispatch, AckFrame]
    ensures AllGuarded(zones, run, steps)
  {
    assert run[3] == off[3];
    NoSceneAcked(zones, run, steps);
  }

  lemma NoSceneAcked(zones: set<nat>, run: seq<Sys>, steps: seq<Step>)
    requires |run| == |steps| + 1 && |steps| == 7 && steps[3] == EndAcked(0.0) && run[3].link.Writing?
             && run[3].link.w.TurnOff?
    requires forall k :: 0 <= k < 7 && k != 3 ==> !steps[k].EndAcked?
    ensures AllGuarded(zones, run, steps)
  {
  }

  lemma OffDarkens(zones: set<nat>, f: Flags)
    ensures !MainStable(zones, f, [SetTurn(false)])
  {
    var q := [SetTurn(false)];
    assert q[..1] == q && q[..0] == [];
    assert Drain(zones, f, q[..0]) == f;
    assert !Drain(zones, f, q[..1]).main;
  }

  lemma OffHeld(zones: set<nat>)
    requires zones != {}
    ensures !SceneSafe(OffLib(zones)) && KnownOn(OffSceneLib(zones)) && !PostedOn(OffSceneLib(zones).posted)
  {
    OffSure(zones);
    SceneAcked(zones, OffLib(zones), 1.0);
  }

  /** An acked scene reads on, and leaves what is posted and in doubt as it was. */
  lemma SceneAcked(zones: set<nat>, l: Lib, now: real)
    requires zones != {}
    ensures var a := CommitAcked(ProfileOf(zones), l, WriteOf(zones, ActivateScene), map[], now);
            a.st.isOn == Some(true) && a.posted == l.posted && a.unsure == l.unsure
  {
    var p, w := ProfileOf(zones), WriteOf(zones, ActivateScene);
    var r, a := CommitRaised(p, l, w, map[]), CommitAcked(p, l, w, map[], now);
    AckNoPower(zones, l, ActivateScene, map[], now, Dev(Flags(true, zones), []), r, a);
    assert r.unsure == l.unsure && r.posted == l.posted;
    SceneReads(p, l.st, now);
    assert a.st == UnconfirmContradicted(ApplyScene(p, l.st, now), Wake(p, l, w, map[]));
  }

  lemma SceneReads(p: Profile, st: State, now: real)
    ensures ApplyScene(p, st, now).isOn == Some(true)
  {
  }

  lemma OffSure(zones: set<nat>)
    requires zones != {}
    ensures var off := OffLib(zones);
            off.st.isOn == Some(false) && !off.unsure && off.posted != map[] && !PostedOn(off.posted)
  {
    AckedTurn(zones, FRESH, TurnOff, false, map[], 0.0);
    AckedTurnPosts(zones, FRESH, TurnOff, false, map[], 0.0);
    var any :| any in zones;
    assert any in OffLib(zones).posted;
    assert AllTo(zones, false).Keys == zones;
  }

  /** Once the main flag agrees with the zone flags it keeps agreeing. */
  lemma {:induction false} DrainAgrees(zones: set<nat>, f: Flags, q: seq<Msg>)
    requires zones != {} && (f.main <==> f.lit != {})
    ensures var end := Drain(zones, f, q); end.main <==> end.lit != {}
  {
    if q == [] {
    } else {
      DrainAgrees(zones, f, q[..|q| - 1]);
    }
  }
}
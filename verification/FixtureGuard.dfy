/** H60A6: SceneSafe is the weakest guard on a scene that the library's own fields can give. Whenever it fails, the
    fixture may be one whose message thread still has the power-off to apply, and a scene acked then overtakes it. */
module FixtureGuard {
  import opened Basics
  import opened Fold
  import opened Library
  import opened FixtureFirmware
  import opened FixtureStamps
  import opened FixtureRuns

  /** A power write that switches every zone off. */
  predicate AllOff(zones: set<nat>, w: Setter) {
    w.TurnOff? || (w.SetZonePower? && !w.on && zones == {w.zone})
  }

  /** A message that leaves the fixture dark. */
  predicate Darkens(zones: set<nat>, m: Msg) {
    !m.on && (m.SetTurn? || zones == {m.zone})
  }

  ghost predicate OffQueued(zones: set<nat>, d: Dev) {
    exists k :: 0 <= k < |d.queue| && Darkens(zones, d.queue[k])
  }

  // ---- What leaves the guard failing ----------------------------------------------------------------------------

  /** A raised write leaves the guard as it was, or makes it hold. */
  lemma SafeRaise(zones: set<nat>, l: Lib, w: Setter, early: map<nat, bool>)
    requires zones != {} && Held(zones, l) && ValidSetter(zones, w) && EarlyWake(zones, w, early) && SceneSafe(l)
    ensures SceneSafe(CommitRaised(ProfileOf(zones), l, WriteOf(zones, w), early))
  {
    var r := CommitRaised(ProfileOf(zones), l, WriteOf(zones, w), early);
    RaiseDoubts(zones, l, w, early, r);
    if PostedOn(l.posted) {
      var i :| i in l.posted && true in l.posted[i];
      assert true in r.posted[i];
    } else if l.posted == map[] && !r.unsure {
      RaisePosts(zones, l, w, early);
    }
  }

  lemma RaisePosts(zones: set<nat>, l: Lib, w: Setter, early: map<nat, bool>)
    requires zones != {} && ValidSetter(zones, w) && EarlyWake(zones, w, early) && l.posted == map[]
    requires !CommitRaised(ProfileOf(zones), l, WriteOf(zones, w), early).unsure
    ensures var posted := CommitRaised(ProfileOf(zones), l, WriteOf(zones, w), early).posted;
            posted == map[] || PostedOn(posted)
  {
    var r := CommitRaised(ProfileOf(zones), l, WriteOf(zones, w), early);
    var power := Entries(WriteOf(zones, w).zones);
    var any :| any in zones;
    if power != map[] {
      assert AnyOn(power);
      var i :| i in power && power[i];
      assert true in r.posted[i];
    } else if r.posted != map[] {
      assert any in r.posted && true in r.posted[any];
    }
  }

  /** Of the acked writes, only one that switches every zone off makes the guard fail. */
  lemma SafeAck(zones: set<nat>, l: Lib, w: Setter, early: map<nat, bool>, now: real)
    requires zones != {} && Held(zones, l) && ValidSetter(zones, w) && EarlyWake(zones, w, early) && !AllOff(zones, w)
    requires SceneSafe(l) || !w.Adjust?
    ensures SceneSafe(CommitAcked(ProfileOf(zones), l, WriteOf(zones, w), early, now))
  {
    if w.TurnOn? {
      AckedTurn(zones, l, w, true, early, now);
    } else if w.SetZonePower? {
      SafeZone(zones, l, w.zone, w.on, now);
    } else if w.ActivateScene? {
      SceneReads(ProfileOf(zones), l.st, now);
    } else {
      var p, write := ProfileOf(zones), WriteOf(zones, w);
      SafeRaise(zones, l, w, early);
      AckAdjust(zones, l, w, early, now, CommitRaised(p, l, write, early), CommitAcked(p, l, write, early, now));
    }
  }

  lemma SafeZone(zones: set<nat>, l: Lib, z: nat, on: bool, now: real)
    requires z in zones && Held(zones, l) && (on || zones != {z})
    ensures SceneSafe(CommitAcked(ProfileOf(zones), l, WriteOf(zones, SetZonePower(z, on)), map[], now))
  {
    var a := CommitAcked(ProfileOf(zones), l, WriteOf(zones, SetZonePower(z, on)), map[], now);
    AckedZone(zones, l, z, on, now);
    assert z in a.posted && on in a.posted[z];
    if !on && !a.unsure {
      OffSureLit(zones, l, z, now);
    }
  }

  /** A zone-off that leaves no doubt leaves every other zone stamped lit. */
  lemma OffOthersLit(p: Profile, l: Lib, w: Write, z: nat, now: real)
    requires w.zones == Some(map[z := false]) && |p.zones| != 1 && !CommitAcked(p, l, w, map[], now).unsure
    ensures OthersConfirmedLit(p, CommitAcked(p, l, w, map[], now).st, {z})
  {
    var off := map[z := false];
    assert off.Keys == {z} && |off| == 1 && z in off && !AnyOn(off) && !AckSure(p, w);
    assert !AckUnsure(p, l, w, AckedState(p, l, w, map[], now));
  }

  /** So the fixture stays on. */
  lemma OffSureLit(zones: set<nat>, l: Lib, z: nat, now: real)
    requires z in zones && zones != {z} && Held(zones, l)
    requires !CommitAcked(ProfileOf(zones), l, WriteOf(zones, SetZonePower(z, false)), map[], now).unsure
    ensures CommitAcked(ProfileOf(zones), l, WriteOf(zones, SetZonePower(z, false)), map[], now).st.isOn == Some(true)
  {
    var p, w := ProfileOf(zones), WriteOf(zones, SetZonePower(z, false));
    var st := CommitAcked(p, l, w, map[], now).st;
    if |zones| == 1 {
      SubsetSame({z}, zones);
    }
    OffOthersLit(p, l, w, z, now);
    AckedZone(zones, l, z, false, now);
    OffState(zones, l, z, now);
    OthersOn(p, st, z);
  }

  lemma OthersOn(p: Profile, st: State, z: nat)
    requires z in p.zones && p.zones != {z} && z in st.zonePower && st.zonePower.Keys <= p.zones
    requires OthersConfirmedLit(p, st, {z})
    ensures |st.zonePower| == |p.zones| && AnyOn(st.zonePower)
  {
    var j :| j in p.zones && j != z;
    assert Get(st.zonePower, j) == Some(true);
    assert st.zonePower.Keys == p.zones && |st.zonePower| == |st.zonePower.Keys|;
  }

  lemma OffState(zones: set<nat>, l: Lib, z: nat, now: real)
    requires zones != {}
    ensures var st := CommitAcked(ProfileOf(zones), l, WriteOf(zones, SetZonePower(z, false)), map[], now).st;
            |st.zonePower| == |zones| ==> st.isOn == Some(AnyOn(st.zonePower))
  {
    NoWake(zones, l, SetZonePower(z, false), map[]);
    NothingContradicted(ApplyZonePower(ProfileOf(zones), l.st, l.st.zonePower[z := false], {z}, now));
    ZoneWriteCarries(ProfileOf(zones), l.st, z, false, now);
  }

  /** A status reply folded in makes the guard hold, unless it carries nothing. */
  lemma SafeFold(l: Lib, r: Status, since: nat, drops: nat, now: real)
    requires since <= l.unsureSeq && (r.isOn.None? ==> r.zonePower == map[])
    ensures if r.isOn.None? then StatusRead(l, r, since, drops, now) == l
            else SceneSafe(StatusRead(l, r, since, drops, now))
  {
    var l' := StatusRead(l, r, since, drops, now);
    if r.isOn.None? {
      assert l.posted - r.zonePower.Keys == l.posted;
    } else if !l'.unsure {
      StatusTrusted(l, r, since, drops, now);
      assert l'.posted == map[];
    }
  }

  lemma SafeStep(zones: set<nat>, s: Sys, step: Step, s': Sys)
    requires SysInv(zones, s) && Next(zones, s, step, s') && s.link.Writing? && s'.link.Writing? && SceneSafe(s.lib)
    ensures SceneSafe(s'.lib)
  {
    if step.CancelWaiting? {
      SafeRaise(zones, s.lib, step.w, step.early);
    }
  }

  /** A scene that takes the link while the guard holds is acked while it holds. */
  lemma {:induction false} SafeUntilAcked(zones: set<nat>, run: seq<Sys>, steps: seq<Step>, i: nat, k: nat)
    requires zones != {} && Path(zones, run, steps) && Init(zones, run[0]) && AllGuarded(zones, run, steps)
    requires i <= k <= |steps| && (forall m :: i <= m <= k ==> run[m].link.Writing?) && SceneSafe(run[i].lib)
    ensures SceneSafe(run[k].lib)
  {
    if i == k {
    } else {
      SafeUntilAcked(zones, run, steps, i, k - 1);
      RunKeeps(zones, run, steps, k - 1);
      SafeStep(zones, run[k - 1], steps[k - 1], run[k]);
    }
  }

  // ---- A run that leaves the message thread behind --------------------------------------------------------------

  /** The guard fails, or a write that switches every zone off is out. */
  predicate Exposed(zones: set<nat>, s: Sys) {
    !SceneSafe(s.lib) || (Landed(s.link) && AllOff(zones, s.link.w))
  }

  function Quiet(link: Link): Link {
    if link.Reading? then link.(reply := None) else link
  }

  /** `t` is `s` as the library sees it, with a power-off the message thread has still to apply. */
  ghost predicate Lags(zones: set<nat>, s: Sys, t: Sys) {
    t.lib == s.lib && t.polls == s.polls && t.link == Quiet(s.link) && t.due == 0 && OffQueued(zones, t.dev)
  }

  /** A run so far that lags behind `s`. */
  ghost predicate LagRun(zones: set<nat>, first: Sys, s: Sys, run: seq<Sys>, steps: seq<Step>) {
    && Path(zones, run, steps) && run[0] == first && AllGuarded(zones, run, steps) && Lags(zones, s, run[|steps|])
  }

  /** The steps the lagging run leaves out: the message thread's, and the answers of reads. */
  predicate LeftOut(step: Step) {
    step.Pop? || step.Answer?
  }

  lemma DispatchLags(zones: set<nat>, d: Dev, frame: Frame)
    requires OffQueued(zones, d)
    ensures OffQueued(zones, Dispatched(zones, d, frame))
  {
    var k :| 0 <= k < |d.queue| && Darkens(zones, d.queue[k]);
    var d' := Dispatched(zones, d, frame);
    assert d'.queue[k] == d.queue[k];
  }

  /** The lagging state after the same step. */
  function Lagged(zones: set<nat>, s: Sys, step: Step, s': Sys, t: Sys): Sys {
    var dev := if step.Dispatch? && s.link.Writing? && s.link.sent < |WriteOf(zones, s.link.w).frames|
               then Dispatched(zones, t.dev, WriteOf(zones, s.link.w).frames[s.link.sent]) else t.dev;
    Sys(s'.lib, dev, 0, Quiet(s'.link), s'.polls)
  }

  lemma SameStep(zones: set<nat>, s: Sys, step: Step, s': Sys, t: Sys)
    requires Next(zones, s, step, s') && Lags(zones, s, t) && !LeftOut(step) && !step.FoldRead?
    ensures Next(zones, t, step, Lagged(zones, s, step, s', t)) && Lags(zones, s', Lagged(zones, s, step, s', t))
  {
    if step.Dispatch? {
      DispatchLags(zones, t.dev, WriteOf(zones, s.link.w).frames[s.link.sent]);
    }
  }

  lemma LeftOutStep(zones: set<nat>, s: Sys, step: Step, s': Sys, t: Sys)
    requires Next(zones, s, step, s') && Lags(zones, s, t) && LeftOut(step)
    ensures Lags(zones, s', t)
  {
  }

  /** A reply that changed nothing in the library is one the lagging run may lose. */
  lemma LostStep(zones: set<nat>, s: Sys, now: real, s': Sys, t: Sys) returns (u: Sys, t': Sys)
    requires Next(zones, s, FoldRead(now), s') && Lags(zones, s, t) && s'.lib == s.lib
    ensures Next(zones, t, LoseAnswer, u) && Next(zones, u, DropRead(s.link.id), t') && Lags(zones, s', t')
  {
    u := t.(link := Free);
    t' := u.(polls := u.polls - {s.link.id});
  }

  /** What exposes the scene was there before the step, or the step put a power-off in the queue. */
  lemma ExposedStep(zones: set<nat>, s: Sys, step: Step, s': Sys)
    requires SysInv(zones, s) && Next(zones, s, step, s') && Exposed(zones, s') && !Exposed(zones, s)
    ensures step.Dispatch? && s'.due == 0 && s'.link.Writing? && OffQueued(zones, s'.dev)
  {
    match step {
      case Dispatch =>
        var q, frame := s.dev.queue, WriteOf(zones, s.link.w).frames[s.link.sent];
        assert s'.dev.queue[|q|] == if frame.Switch? then SetTurn(false) else SetZone(frame.zone, false);
      case EndAcked(now) => SafeAck(zones, s.lib, s.link.w, s.link.early, now);
      case EndRaised => SafeRaise(zones, s.lib, s.link.w, s.link.early);
      case CancelWaiting(w, early) => SafeRaise(zones, s.lib, w, early);
      case FoldRead(now) => FoldExposed(zones, s, now, s');
      case _ =>
    }
  }

  lemma FoldExposed(zones: set<nat>, s: Sys, now: real, s': Sys)
    requires SysInv(zones, s) && Next(zones, s, FoldRead(now), s') && !SceneSafe(s'.lib)
    ensures s'.lib == s.lib
  {
    var t := s.polls[s.link.id];
    SafeFold(s.lib, s.link.reply.value, t.since, t.drops, now);
  }

  lemma Longer(zones: set<nat>, run: seq<Sys>, steps: seq<Step>, step: Step, t: Sys)
    returns (run': seq<Sys>, steps': seq<Step>)
    requires Path(zones, run, steps) && AllGuarded(zones, run, steps)
    requires Next(zones, run[|steps|], step, t) && Guarded(zones, run[|steps|], step, t)
    ensures Path(zones, run', steps') && AllGuarded(zones, run', steps')
    ensures run' == run + [t] && steps' == steps + [step]
  {
    Extend(zones, run, steps, step, t);
    ExtendGuarded(zones, run, steps, step, t);
    run', steps' := run + [t], steps + [step];
  }

  lemma ExtendGuarded(zones: set<nat>, run: seq<Sys>, steps: seq<Step>, step: Step, t: Sys)
    requires |run| == |steps| + 1 && AllGuarded(zones, run, steps) && Guarded(zones, run[|steps|], step, t)
    ensures AllGuarded(zones, run + [t], steps + [step])
  {
  }

  /** No scene is acked while one is exposed: its own end would make the guard hold. */
  lemma NoSceneEnds(zones: set<nat>, s: Sys, step: Step, s': Sys, t: Sys, t': Sys)
    requires SysInv(zones, s) && Next(zones, s, step, s') && Exposed(zones, s') && Lags(zones, s, t)
    ensures Guarded(zones, t, step, t')
  {
    if step.EndAcked? && s.link.w.ActivateScene? {
      SafeAck(zones, s.lib, s.link.w, s.link.early, step.now);
    }
  }

  lemma Follow(zones: set<nat>, first: Sys, s: Sys, step: Step, s': Sys, run: seq<Sys>, steps: seq<Step>)
    returns (run': seq<Sys>, steps': seq<Step>)
    requires SysInv(zones, s) && Next(zones, s, step, s') && Exposed(zones, s') && LagRun(zones, first, s, run, steps)
    ensures LagRun(zones, first, s', run', steps')
  {
    var t := run[|steps|];
    if LeftOut(step) {
      LeftOutStep(zones, s, step, s', t);
      run', steps' := run, steps;
    } else if step.FoldRead? {
      FoldExposed(zones, s, step.now, s');
      var u, t' := LostStep(zones, s, step.now, s', t);
      run', steps' := Longer(zones, run, steps, LoseAnswer, u);
      run', steps' := Longer(zones, run', steps', DropRead(s.link.id), t');
    } else {
      var t' := Lagged(zones, s, step, s', t);
      SameStep(zones, s, step, s', t);
      NoSceneEnds(zones, s, step, s', t, t');
      run', steps' := Longer(zones, run, steps, step, t');
    }
  }

  /** Every exposed state of a guarded run is one the library could be in with the power-off still queued. */
  lemma {:induction false} LaggingRun(zones: set<nat>, run: seq<Sys>, steps: seq<Step>, k: nat)
    returns (run': seq<Sys>, steps': seq<Step>)
    requires zones != {} && Path(zones, run, steps) && Init(zones, run[0]) && AllGuarded(zones, run, steps)
    requires k <= |steps| && Exposed(zones, run[k])
    ensures LagRun(zones, run[0], run[k], run', steps')
  {
    assert k > 0;
    RunKeeps(zones, run, steps, k - 1);
    if Exposed(zones, run[k - 1]) {
      run', steps' := LaggingRun(zones, run, steps, k - 1);
      run', steps' := Follow(zones, run[0], run[k - 1], steps[k - 1], run[k], run', steps');
    } else {
      ExposedStep(zones, run[k - 1], steps[k - 1], run[k]);
      run', steps' := run[..k + 1], steps[..k];
    }
  }

  lemma OffDarkensQueue(zones: set<nat>, d: Dev)
    requires zones != {} && WellFormed(zones, d.flags, d.queue) && OffQueued(zones, d)
    ensures !MainStable(zones, d.flags, d.queue)
  {
    var k :| 0 <= k < |d.queue| && Darkens(zones, d.queue[k]);
    var before := Drain(zones, d.flags, d.queue[..k]);
    DrainKeeps(zones, d.flags, d.queue[..k]);
    assert d.queue[..k + 1][..k] == d.queue[..k];
    assert Drain(zones, d.flags, d.queue[..k + 1]) == Apply(zones, before, d.queue[k]);
    assert before.lit - zones == {};
  }

  /** Where the guard fails with the link free, a run with the library in the same state has the scene overtake a
      power-off: no test on the library's own fields weaker than SceneSafe rules the race out. */
  lemma UnsafeOvertakes(zones: set<nat>, run: seq<Sys>, steps: seq<Step>)
    returns (run': seq<Sys>, steps': seq<Step>, over: Sys)
    requires zones != {} && Path(zones, run, steps) && Init(zones, run[0]) && AllGuarded(zones, run, steps)
    requires run[|steps|].link.Free? && !SceneSafe(run[|steps|].lib)
    ensures Path(zones, run', steps') && run'[0] == run[0] && AllGuarded(zones, run', steps')
    ensures run'[|steps'|].lib == run[|steps|].lib
    ensures run'[|steps'|].link == Writing(ActivateScene, map[], 1, false)
    ensures Next(zones, run'[|steps'|], EndAcked(0.0), over) && OffOvertaken(zones, over.lib, over.dev)
  {
    var lag, sofar := LaggingRun(zones, run, steps, |steps|);
    var t := lag[|sofar|];
    DispatchLags(zones, t.dev, Mode(Scene));
    run', steps' := SendPath(zones, lag, sofar, ActivateScene);
    SceneGuarded(zones, lag, sofar, run', steps');
    RunKeeps(zones, run', steps', |steps'|);
    var end := run'[|steps'|];
    AheadNow(zones, end);
    OffDarkensQueue(zones, end.dev);
    SceneAcked(zones, end.lib, 0.0);
    over := end.(lib := CommitAcked(ProfileOf(zones), end.lib, WriteOf(zones, ActivateScene), map[], 0.0),
                 link := Free);
  }

  lemma SceneGuarded(zones: set<nat>, run: seq<Sys>, steps: seq<Step>, run': seq<Sys>, steps': seq<Step>)
    requires |run| == |steps| + 1 && AllGuarded(zones, run, steps) && run <= run' && |run'| == |steps'| + 1
    requires steps' == steps + [BeginWrite(ActivateScene, map[]), Dispatch, AckFrame]
    ensures AllGuarded(zones, run', steps')
  {
    forall k | 0 <= k < |steps'| ensures Guarded(zones, run'[k], steps'[k], run'[k + 1]) {
      if k < |steps| {
        assert Guarded(zones, run[k], steps[k], run[k + 1]);
      }
    }
  }
}

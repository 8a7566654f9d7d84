/** What each write and each read-back leaves on an H6047's library state, bar by bar. BarPower proves that what is
    stamped is right; this module, that nothing more is forgotten or doubted than what the call gives reason for, and
    that the bars a frame is built from without a re-read were learned from the device lately. */
module BarOutcomes {
  import opened Basics
  import opened Fold
  import opened Library
  import opened BarPower

  // ---- Writes ---------------------------------------------------------------------------------------------------

  /** An acked 33 01 off leaves both bars held off and stamped now; an on leaves no bar held; either ends all doubt. */
  lemma PowerOutcome(l: Lib, on: bool, rest: seq<Frame>, early: map<nat, bool>, now: real)
    requires Shape(l) && ValidSetter(Power(on, rest)) && EarlyWake(Power(on, rest), early)
    ensures var a := CommitAcked(BARS, l, WriteOf(Power(on, rest)), early, now);
            && a.st.isOn == Some(on) && !a.unsure && a.posted == map[]
            && a.st.zonePower == (if on then map[] else map[0 := false, 1 := false])
            && a.st.confirmed == (if on then map[] else map[0 := now, 1 := now])
  {
    var w := Power(on, rest);
    PowerState(l, on, rest, early, now, AckedState(BARS, l, WriteOf(w), early, now));
    BothPowers(on, on);
    assert AckSure(BARS, WriteOf(w));
  }

  lemma PowerState(l: Lib, on: bool, rest: seq<Frame>, early: map<nat, bool>, now: real, st: State)
    requires ValidSetter(Power(on, rest)) && EarlyWake(Power(on, rest), early)
    requires st == AckedState(BARS, l, WriteOf(Power(on, rest)), early, now)
    ensures st.isOn == Some(on) && st.zonePower == (if on then map[] else map[0 := false, 1 := false])
    ensures st.confirmed == if on then map[] else map[0 := now, 1 := now]
  {
    var w := Power(on, rest);
    var before := ApplyPower(BARS, l.st, on, {0, 1}, now);
    if on {
      assert before.confirmed == map[] && before.zonePower == map[];
    } else {
      assert AllTo({0, 1}, false) == map[0 := false, 1 := false];
      assert before.confirmed == map[0 := now, 1 := now];
      assert Wake(BARS, l, WriteOf(w), early) == map[];
      NothingContradicted(before);
    }
  }

  /** An acked scene reads on and forgets both bars; it settles no doubt. */
  lemma SceneOutcome(l: Lib, early: map<nat, bool>, now: real)
    requires Shape(l)
    ensures var a := CommitAcked(BARS, l, WriteOf(ActivateScene), early, now);
            && a.st.isOn == Some(true) && a.st.zonePower == map[] && a.st.confirmed == map[] && a.unsure == l.unsure
  {
  }

  /** The write's frames may light both bars without the library folding it in. */
  predicate MayWake(l: Lib, frames: seq<Frame>, early: map<nat, bool>) {
    early != map[] || ((exists k :: 0 <= k < |frames| && (frames[k].Brightness? || frames[k].Mode?))
                       && (l.st.isOn != Some(true) || l.unsure))
  }

  /** The runs take in every brightness, colour and other write without a power or scene frame, alone or after a
      33 01 on, and whatever a write finds before it waits for the link. */
  lemma WritesTaken(frames: seq<Frame>, l: Lib, w: Setter)
    requires forall k :: 0 <= k < |frames| ==> frames[k] in {Brightness, Neutral, Mode(Colour), Mode(QuietMusic)}
    ensures ValidSetter(Adjust(frames, false)) && ValidSetter(Power(true, frames))
    ensures EarlyWake(w, WakePower(BARS, l, WriteOf(w).frames))
  {
  }

  /** When a write counts as a wake. */
  lemma WakeExactly(l: Lib, w: Setter, early: map<nat, bool>)
    requires Shape(l) && EarlyWake(w, early)
    ensures Wake(BARS, l, WriteOf(w), early)
         == if MayWake(l, WriteOf(w).frames, early) then AllTo({0, 1}, true) else map[]
  {
    var frames := WriteOf(w).frames;
    assert (exists k :: 0 <= k < |frames| && Wakes(frames[k]))
           <==> exists k :: 0 <= k < |frames| && (frames[k].Brightness? || frames[k].Mode?) by {
      forall k | 0 <= k < |frames| ensures Wakes(frames[k]) <==> frames[k].Brightness? || frames[k].Mode? {
      }
    }
    assert AllTo({0, 1}, true) + AllTo({0, 1}, true) == AllTo({0, 1}, true);
    assert map[] + WakePower(BARS, l, frames) == WakePower(BARS, l, frames);
  }

  /** A brightness or colour write, acked or raised, changes no power held; it takes a bar's stamp exactly where it may
      wake the bars and the bar is not held on. */
  lemma AdjustOutcome(l: Lib, w: Setter, early: map<nat, bool>, now: real, l': Lib)
    requires Shape(l) && w.Adjust? && EarlyWake(w, early)
    requires l' == CommitAcked(BARS, l, WriteOf(w), early, now) || l' == CommitRaised(BARS, l, WriteOf(w), early)
    ensures && l'.st.isOn == l.st.isOn && l'.st.zonePower == l.st.zonePower && l'.unsure == l.unsure
            && forall i :: Get(l'.st.confirmed, i)
                 == if MayWake(l, w.frames, early) && i in {0, 1} && Get(l.st.zonePower, i) != Some(true) then None
                    else Get(l.st.confirmed, i)
  {
    WakeExactly(l, w, early);
  }

  /** A raised power, bar or scene write changes no power held and takes every stamp; it leaves doubt where it may have
      switched both bars off. */
  lemma RaisedOutcome(l: Lib, w: Setter, early: map<nat, bool>)
    requires Shape(l) && !w.Adjust? && EarlyWake(w, early)
    ensures var r := CommitRaised(BARS, l, WriteOf(w), early);
            && r.st == l.st.(confirmed := map[]) && r.posted == map[] && r.powerRead == None
            && r.unsure == (l.unsure || w == Power(false, []) || (w.Power? && !w.on) || w == BothBars(false, false))
  {
    if !w.ActivateScene? {
      BothPowers(PowersOf(w).0, PowersOf(w).1);
    }
    assert CommitRaised(BARS, l, WriteOf(w), early).st.confirmed == map[];
  }

  /** Once it is acked the library holds both bars as the device does, the one asked for at the power asked for, each
      stamped now, and the on/off with them. */
  lemma AskedBarHeld(run: seq<Sys>, steps: seq<Step>, k: nat)
    requires Path(run, steps) && Init(run[0]) && k < |steps| && steps[k].EndAcked? && WritesBars(run[k].link)
    ensures run[k].bar.Some?
    ensures var (b, l, d) := (run[k].bar.value, run[k + 1].lib, run[k + 1].dev);
            && l.st.zonePower == map[0 := d.left, 1 := d.right] && Get(l.st.zonePower, b.index) == Some(b.on)
            && l.st.confirmed == map[0 := steps[k].now, 1 := steps[k].now]
            && l.st.isOn == Some(Lit(d)) && !l.unsure
  {
    var s := run[k];
    RunKeeps(run, steps, k);
    BothPowers(s.link.w.left, s.link.w.right);
    BarsHeld(s.lib, s.link.w, s.link.early, steps[k].now);
  }

  lemma BarsHeld(l: Lib, w: Setter, early: map<nat, bool>, now: real)
    requires Shape(l) && w.BothBars? && EarlyWake(w, early)
    ensures var a := CommitAcked(BARS, l, WriteOf(w), early, now);
            && a.st.zonePower == map[0 := w.left, 1 := w.right] && a.st.confirmed == map[0 := now, 1 := now]
            && a.st.isOn == Some(w.left || w.right) && !a.unsure
  {
    BarsState(l, w, early, now, AckedState(BARS, l, WriteOf(w), early, now));
    BothSure(l, w, early, now);
  }

  lemma BarsState(l: Lib, w: Setter, early: map<nat, bool>, now: real, st: State)
    requires Shape(l) && w.BothBars? && EarlyWake(w, early) && st == AckedState(BARS, l, WriteOf(w), early, now)
    ensures st.zonePower == map[0 := w.left, 1 := w.right] && st.confirmed == map[0 := now, 1 := now]
    ensures st.isOn == Some(w.left || w.right)
  {
    BarsWakeNothing(l, w, early);
    NoWakeState(BARS, l, WriteOf(w), early, now);
    BothStamped(l.st, w.left, w.right, now);
  }

  lemma BarsWakeNothing(l: Lib, w: Setter, early: map<nat, bool>)
    requires Shape(l) && w.BothBars? && EarlyWake(w, early)
    ensures Wake(BARS, l, WriteOf(w), early) == map[]
  {
    assert WriteOf(w).frames == [BarSwitch(w.left, w.right)] && early == map[];
    WakeExactly(l, w, early);
  }

  lemma NoWakeState(p: Profile, l: Lib, w: Write, early: map<nat, bool>, now: real)
    requires Wake(p, l, w, early) == map[]
    ensures AckedState(p, l, w, early, now) == ApplyEffect(p, l.st, w.effect, now)
  {
    NothingContradicted(ApplyEffect(p, l.st, w.effect, now));
  }

  lemma BothSure(l: Lib, w: Setter, early: map<nat, bool>, now: real)
    requires w.BothBars?
    ensures !CommitAcked(BARS, l, WriteOf(w), early, now).unsure
  {
    BothPowers(w.left, w.right);
    assert AckSure(BARS, WriteOf(w));
  }

  lemma BothStamped(s: State, left: bool, right: bool, now: real)
    ensures var st := ApplyZonePower(BARS, s, map[0 := left, 1 := right], {0, 1}, now);
            && st.zonePower == map[0 := left, 1 := right] && st.confirmed == map[0 := now, 1 := now]
            && st.isOn == Some(left || right)
  {
    BothPowers(left, right);
    assert SetZonePower(s, map[0 := left, 1 := right], {0, 1}, now).confirmed == map[0 := now, 1 := now];
  }

  // ---- Reads ----------------------------------------------------------------------------------------------------

  /** An aa 36 reply holds both bars at its powers, stamped now; an aa 01 reply is the on/off, and takes a bar's stamp
      exactly where it contradicts whether any bar is held on and the bar is not held at its power. */
  lemma FoldOutcome(l: Lib, reply: PowerReply, drops: nat, now: real)
    ensures var l' := PowerFolded(BARS, l, reply, drops, now);
            && l'.st.isOn == Some(OnOf(reply)) && l'.unsure == l.unsure
            && l'.powerRead == (if drops == l.drops then Some((now, OnOf(reply))) else l.powerRead)
    ensures reply.BothRead? ==>
              var st := PowerFolded(BARS, l, reply, drops, now).st;
              st.zonePower == map[0 := reply.left, 1 := reply.right] && st.confirmed == map[0 := now, 1 := now]
    ensures reply.Switched? ==>
              var st := PowerFolded(BARS, l, reply, drops, now).st;
              && st.zonePower == l.st.zonePower
              && forall i :: Get(st.confirmed, i)
                   == if reply.on != AnyOn(l.st.zonePower) && i in l.st.zonePower && l.st.zonePower[i] != reply.on
                      then None else Get(l.st.confirmed, i)
  {
    if reply.BothRead? {
      assert ApplyBars(l.st, reply.left, reply.right, now).confirmed == map[0 := now, 1 := now];
    }
  }

  /** The bar write of a state waits for this reading of the bars. */
  predicate Awaited(s: Sys) {
    s.link.Reading? && s.bar.Some? && s.bar.value.stage == Rereading(s.link.id)
  }

  /** A re-read, folded in, stale or lost, ends with a frame if and only if the library holds the other bar, and then
      the frame carries that bar at the power held. */
  lemma RereadEnds(s: Sys, step: Step, s': Sys)
    requires SysInv(s) && Next(s, step, s') && (step.FoldRead? || step.LoseRead?) && Awaited(s)
    ensures s'.bar.Some? <==> Other(s.bar.value.index) in s'.lib.st.zonePower
    ensures s'.bar.Some? ==>
              var (b, other) := (s'.bar.value, Other(s.bar.value.index));
              && b.index == s.bar.value.index && b.on == s.bar.value.on && b.stage.Built?
              && Bar(b.stage.target, other) == s'.lib.st.zonePower[other]
  {
  }

  /** A poll's reply, folded in, ends the doubt there was when it was issued once the poll is over. */
  lemma PollEndsDoubt(s: Sys, now: real, s': Sys, u: Sys, u': Sys)
    requires Next(s, FoldRead(now), s') && !Awaited(s) && s.tickets[s.link.id].seqNo == s.lib.seqNo
    requires u.answered == s'.answered && u.lib.unsureSeq == s.tickets[s.link.id].since
    requires Next(u, FinishPoll(s.link.id), u')
    ensures s.link.id in s'.answered && !u'.lib.unsure
  {
  }

  // ---- Stamps and when they were given --------------------------------------------------------------------------

  /** Step `step` folds in what the device holds, at this time. */
  predicate Learns(step: Step, at: real) {
    (step.EndAcked? || step.FoldRead?) && step.now == at
  }

  lemma StampStep(s: Sys, step: Step, s': Sys, i: nat)
    requires SysInv(s) && Next(s, step, s') && i in s'.lib.st.confirmed
    ensures Learns(step, s'.lib.st.confirmed[i]) || Get(s.lib.st.confirmed, i) == Some(s'.lib.st.confirmed[i])
  {
    match step {
      case EndAcked(now) => AckedStamp(s.lib, s.link.w, s.link.early, now, i);
      case EndRaised => RaisedStamp(s.lib, s.link.w, s.link.early, i);
      case CancelWaiting(w, early) => RaisedStamp(s.lib, w, early, i);
      case CancelBars(early) =>
        RaisedStamp(s.lib, BothBars(s.bar.value.stage.target.left, s.bar.value.stage.target.right), early, i);
      case FoldRead(now) =>
        if s'.lib != s.lib {
          FoldOutcome(s.lib, s.link.reply.value, s.tickets[s.link.id].drops, now);
        }
      case _ =>
    }
  }

  lemma AckedStamp(l: Lib, w: Setter, early: map<nat, bool>, now: real, i: nat)
    requires Shape(l) && ValidSetter(w) && EarlyWake(w, early)
    requires i in CommitAcked(BARS, l, WriteOf(w), early, now).st.confirmed
    ensures var at := CommitAcked(BARS, l, WriteOf(w), early, now).st.confirmed[i];
            at == now || Get(l.st.confirmed, i) == Some(at)
  {
    match w {
      case Power(on, rest) => PowerOutcome(l, on, rest, early, now);
      case BothBars(_, _) => BarsHeld(l, w, early, now);
      case Adjust(_, _) => AdjustOutcome(l, w, early, now, CommitAcked(BARS, l, WriteOf(w), early, now));
      case ActivateScene => SceneOutcome(l, early, now);
    }
  }

  lemma RaisedStamp(l: Lib, w: Setter, early: map<nat, bool>, i: nat)
    requires Shape(l) && EarlyWake(w, early) && i in CommitRaised(BARS, l, WriteOf(w), early).st.confirmed
    ensures Get(l.st.confirmed, i) == Some(CommitRaised(BARS, l, WriteOf(w), early).st.confirmed[i])
  {
    if w.Adjust? {
      AdjustOutcome(l, w, early, 0.0, CommitRaised(BARS, l, WriteOf(w), early));
    } else {
      RaisedOutcome(l, w, early);
    }
  }

  lemma {:induction false} StampLearned(run: seq<Sys>, steps: seq<Step>, k: nat, i: nat) returns (j: nat)
    requires Path(run, steps) && Init(run[0]) && k <= |steps| && i in run[k].lib.st.confirmed
    ensures j < k && Learns(steps[j], run[k].lib.st.confirmed[i])
  {
    assert k > 0;
    RunKeeps(run, steps, k - 1);
    StampStep(run[k - 1], steps[k - 1], run[k], i);
    if Learns(steps[k - 1], run[k].lib.st.confirmed[i]) {
      j := k - 1;
    } else {
      j := StampLearned(run, steps, k - 1, i);
    }
  }

  /** A bar write that sends no re-read builds its frame from an ack or a reply of the last 120 s. */
  lemma FreshLearned(run: seq<Sys>, steps: seq<Step>, k: nat, now: real) returns (j: nat)
    requires Path(run, steps) && Init(run[0]) && k < |steps| && steps[k] == BuildFresh(now)
    ensures j < k && (steps[j].EndAcked? || steps[j].FoldRead?) && now - steps[j].now <= 120.0
  {
    assert Next(run[k], steps[k], run[k + 1]);
    j := StampLearned(run, steps, k, Other(run[k].bar.value.index));
  }

  /** With such a stamp, and both bars held, none is sent. */
  lemma FreshNoReread(s: Sys, id: nat, now: real, s': Sys)
    requires SysInv(s) && s.bar.Some? && Next(s, Reread(id, now), s')
    ensures var other := Other(s.bar.value.index);
            other in s.lib.st.confirmed && s.lib.st.zonePower.Keys == {0, 1} ==> now - s.lib.st.confirmed[other] > 120.0
  {
    if s.lib.st.zonePower.Keys == {0, 1} {
      assert |s.lib.st.zonePower| == |s.lib.st.zonePower.Keys|;
    }
  }
}

/** H6047: two bars, each with a power flag, and one 33 36 frame that carries both. A bar write builds the frame
    from the other bar's held power (or a re-read of it) under `_bar_lock`; a power or scene write takes that lock
    too, but a brightness or colour write does not, and those light both bars when both are off. This module proves
    that every zone stamp holds at all times, and exactly when a bar write keeps the other bar as it is. */
module BarPower {
  import opened Basics
  import opened Fold
  import opened Library

  const BARS: Profile := Profile({0, 1}, false, true)

  /** const.ZONE_POWER_FRESH_SECONDS. */
  const FRESH_SECONDS: real := 120.0

  /** The firmware's two bar flags, which 33 36 sets and aa 36 reads. */
  datatype Bars = Bars(left: bool, right: bool)

  predicate Lit(d: Bars) {
    d.left || d.right
  }

  function Bar(d: Bars, i: nat): bool {
    if i == 0 then d.left else d.right
  }

  function Dispatched(d: Bars, frame: Frame): Bars {
    match frame
    case Switch(on) => Bars(on, on)
    case BarSwitch(left, right) => Bars(left, right)
    case Brightness => if Lit(d) then d else Bars(true, true)
    case Mode(_) => if Lit(d) then d else Bars(true, true)
    case _ => d
  }

  /** The library's writes. `locked`: a turn_on without power, the one brightness or colour write under `_bar_lock`. */
  datatype Setter =
    | Power(on: bool, rest: seq<Frame>)
    | BothBars(left: bool, right: bool)
    | Adjust(frames: seq<Frame>, locked: bool)
    | ActivateScene

  predicate Plain(f: Frame) {
    f.Brightness? || f.Neutral? || (f.Mode? && !f.kind.Scene?)
  }

  predicate ValidSetter(w: Setter) {
    match w
    case Power(on, rest) => (on || rest == []) && forall k :: 0 <= k < |rest| ==> Plain(rest[k])
    case Adjust(frames, _) => forall k :: 0 <= k < |frames| ==> Plain(frames[k])
    case _ => true
  }

  function WriteOf(w: Setter): Write {
    match w
    case Power(on, rest) => Write([Switch(on)] + rest, Some(map[0 := on, 1 := on]), true, PowerTo(on))
    case BothBars(left, right) =>
      Write([BarSwitch(left, right)], Some(map[0 := left, 1 := right]), false, BarsTo(left, right))
    case Adjust(frames, _) => Write(frames, None, false, NoPower)
    case ActivateScene => Write([Mode(Scene)], None, true, SceneOn)
  }

  predicate TakesBarLock(w: Setter) {
    !w.Adjust? || w.locked
  }

  predicate EarlyWake(w: Setter, early: map<nat, bool>) {
    early == map[] || (early == AllTo({0, 1}, true) && exists k :: 0 <= k < |WriteOf(w).frames|
                                                                  && Wakes(WriteOf(w).frames[k]))
  }

  // ---- Reads ----------------------------------------------------------------------------------------------------

  function ReplyOf(d: Bars, barRead: bool): PowerReply {
    if barRead then BothRead(d.left, d.right) else Switched(Lit(d))
  }

  // ---- The system -----------------------------------------------------------------------------------------------

  datatype Ticket = Ticket(barRead: bool, seqNo: nat, since: nat, drops: nat)

  /** What holds the connection lock. `woke`: this hold's frames found both bars off and lit them. */
  datatype Link =
    | Free
    | Writing(w: Setter, early: map<nat, bool>, sent: nat, hit: bool, woke: bool)
    | Reading(id: nat, reply: Option<PowerReply>)

  /** The bar write that holds `_bar_lock`. `vouched`: built from a fresh stamp or an applied re-read; `overtaken`: a
      wake whose hold had not ended when the frame was built has lit both bars. */
  datatype Stage =
    | Choosing
    | Rereading(id: nat)
    | Built(target: Bars, vouched: bool, overtaken: bool)

  datatype BarWrite = BarWrite(index: nat, on: bool, stage: Stage)

  /** `answered` holds, for each read of the on/off a poll has folded in and not finished, the `_power_unsure_seq` it
      was issued at. */
  datatype Sys = Sys(lib: Lib, dev: Bars, link: Link, tickets: map<nat, Ticket>, answered: map<nat, nat>,
                     bar: Option<BarWrite>)

  /** `CancelWaiting`, `CancelBars`: a write, or the bar write, ends in an error before its first frame went out,
      cancelled while it waited for the connection lock or failed there, whatever holds the link. */
  datatype Step =
    | BeginWrite(w: Setter, early: map<nat, bool>)
    | BeginBars(early: map<nat, bool>)
    | Dispatch
    | AckFrame
    | EndAcked(now: real)
    | EndRaised
    | CancelWaiting(w: Setter, early: map<nat, bool>)
    | CancelBars(early: map<nat, bool>)
    | IssueRead(id: nat, barRead: bool)
    | Request(id: nat)
    | Answer
    | FoldRead(now: real)
    | LoseRead
    | FinishPoll(id: nat)
    | StartBar(index: nat, on: bool)
    | BuildFresh(now: real)
    | Reread(id: nat, now: real)
    | GiveUpBar

  function Other(index: nat): nat {
    1 - (if index == 0 then 0 else 1)
  }

  /** The other bar's power is held with a stamp at most FRESH_SECONDS old, and both bars are held. */
  predicate FreshOther(l: Lib, index: nat, now: real) {
    var other := Other(index);
    && |l.st.zonePower| >= 2
    && other in l.st.confirmed && now - l.st.confirmed[other] <= FRESH_SECONDS
  }

  function Target(l: Lib, index: nat, on: bool): Bars {
    var other := Get(l.st.zonePower, Other(index)) == Some(true);
    if index == 0 then Bars(on, other) else Bars(other, on)
  }

  predicate WritesBars(link: Link) {
    link.Writing? && link.w.BothBars?
  }

  predicate Woken(link: Link) {
    link.Writing? && link.woke
  }

  /** The bar write goes on from its re-read: from what the library now holds, unless the other bar is unknown. */
  function Resumed(l: Lib, b: BarWrite, applied: bool): Option<BarWrite> {
    if Other(b.index) !in l.st.zonePower then None
    else Some(b.(stage := Built(Target(l, b.index, b.on), applied, false)))
  }

  function FoldedSys(s: Sys, t: Ticket, reply: PowerReply, now: real): Sys
    requires s.link.Reading?
  {
    var id, current := s.link.id, t.seqNo == s.lib.seqNo;
    var l := if current then PowerFolded(BARS, s.lib, reply, t.drops, now) else s.lib;
    var mine := s.bar.Some? && s.bar.value.stage == Rereading(id);
    Sys(l, s.dev, Free, s.tickets - {id}, if current && !mine then s.answered[id := t.since] else s.answered,
        if mine then Resumed(l, s.bar.value, current) else s.bar)
  }

  /** Dispatching `frame` over `s`: what it does to the bars, and whether it overtakes a bar write already built. */
  function Hit(s: Sys, frame: Frame): Sys
    requires s.link.Writing?
  {
    var woke := Wakes(frame) && !Lit(s.dev);
    var bar := if woke && s.bar.Some? && s.bar.value.stage.Built?
               then Some(s.bar.value.(stage := s.bar.value.stage.(overtaken := true))) else s.bar;
    s.(dev := Dispatched(s.dev, frame), link := s.link.(hit := true, woke := s.link.woke || woke), bar := bar)
  }

  ghost predicate Next(s: Sys, step: Step, s': Sys) {
    match step
    case BeginWrite(w, early) =>
      && s.link.Free? && ValidSetter(w) && EarlyWake(w, early) && !w.BothBars? && (TakesBarLock(w) ==> s.bar.None?)
      && s' == s.(link := Writing(w, early, 0, false, false))
    case BeginBars(early) =>
      && s.link.Free? && s.bar.Some? && s.bar.value.stage.Built?
      && var w := BothBars(s.bar.value.stage.target.left, s.bar.value.stage.target.right);
      && EarlyWake(w, early) && s' == s.(link := Writing(w, early, 0, false, false))
    case Dispatch =>
      && s.link.Writing? && s.link.sent < |WriteOf(s.link.w).frames|
      && s' == Hit(s, WriteOf(s.link.w).frames[s.link.sent])
    case AckFrame =>
      && s.link.Writing? && s.link.hit && s.link.sent < |WriteOf(s.link.w).frames|
      && s' == s.(link := s.link.(sent := s.link.sent + 1, hit := false))
    case EndAcked(now) =>
      && s.link.Writing? && s.link.sent == |WriteOf(s.link.w).frames|
      && s' == s.(lib := CommitAcked(BARS, s.lib, WriteOf(s.link.w), s.link.early, now), link := Free,
                  bar := if WritesBars(s.link) then None else s.bar)
    case EndRaised =>
      && s.link.Writing?
      && s' == s.(lib := CommitRaised(BARS, s.lib, WriteOf(s.link.w), s.link.early), link := Free,
                  bar := if WritesBars(s.link) then None else s.bar)
    case CancelWaiting(w, early) =>
      && ValidSetter(w) && EarlyWake(w, early) && !w.BothBars?
      && (TakesBarLock(w) ==> s.bar.None? && !(s.link.Writing? && TakesBarLock(s.link.w)))
      && s' == s.(lib := CommitRaised(BARS, s.lib, WriteOf(w), early))
    case CancelBars(early) =>
      && s.bar.Some? && s.bar.value.stage.Built? && !WritesBars(s.link)
      && var w := BothBars(s.bar.value.stage.target.left, s.bar.value.stage.target.right);
      && EarlyWake(w, early) && s' == s.(lib := CommitRaised(BARS, s.lib, WriteOf(w), early), bar := None)
    case IssueRead(id, barRead) =>
      && id !in s.tickets
      && s' == s.(tickets := s.tickets[id := Ticket(barRead, s.lib.seqNo, s.lib.unsureSeq, s.lib.drops)])
    case Request(id) => s.link.Free? && id in s.tickets && s' == s.(link := Reading(id, None))
    case Answer =>
      && s.link.Reading? && s.link.id in s.tickets
      && s' == s.(link := s.link.(reply := Some(ReplyOf(s.dev, s.tickets[s.link.id].barRead))))
    case FoldRead(now) =>
      && s.link.Reading? && s.link.reply.Some? && s.link.id in s.tickets
      && s' == FoldedSys(s, s.tickets[s.link.id], s.link.reply.value, now)
    case LoseRead =>
      && s.link.Reading?
      && var mine := s.bar.Some? && s.bar.value.stage == Rereading(s.link.id);
      && s' == s.(link := Free, tickets := s.tickets - {s.link.id},
                  bar := if mine then Resumed(s.lib, s.bar.value, false) else s.bar)
    case FinishPoll(id) =>
      && id in s.answered
      && s' == s.(lib := FinishRead(s.lib, true, s.answered[id]), answered := s.answered - {id})
    case StartBar(index, on) =>
      && index < 2 && s.bar.None? && !(s.link.Writing? && TakesBarLock(s.link.w))
      && s' == s.(bar := Some(BarWrite(index, on, Choosing)))
    case BuildFresh(now) =>
      && s.bar.Some? && s.bar.value.stage.Choosing? && FreshOther(s.lib, s.bar.value.index, now)
      && s' == s.(bar := Some(s.bar.value.(stage := Built(Target(s.lib, s.bar.value.index, s.bar.value.on), true,
                                                          Woken(s.link)))))
    case Reread(id, now) =>
      && s.bar.Some? && s.bar.value.stage.Choosing? && !FreshOther(s.lib, s.bar.value.index, now) && id !in s.tickets
      && s' == s.(bar := Some(s.bar.value.(stage := Rereading(id))),
                  tickets := s.tickets[id := Ticket(true, s.lib.seqNo, s.lib.unsureSeq, s.lib.drops)])
    case GiveUpBar => s.bar.Some? && !WritesBars(s.link) && s' == s.(bar := None)
  }

  ghost predicate Init(s: Sys) {
    s.lib == FRESH && s.link.Free? && s.tickets == map[] && s.answered == map[] && s.bar.None?
  }

  // ---- The invariant --------------------------------------------------------------------------------------------

  ghost predicate Sound(l: Lib, d: Bars) {
    forall i :: i in l.st.confirmed ==> i in l.st.zonePower && l.st.zonePower[i] == Bar(d, i)
  }

  /** `is_on` says on, and either it is trusted or a poll about to finish would trust it. */
  ghost predicate Trusted(s: Sys) {
    && s.lib.st.isOn == Some(true)
    && (!s.lib.unsure || exists id :: id in s.answered && s.answered[id] == s.lib.unsureSeq)
  }

  ghost predicate Shape(l: Lib) {
    && l.posted == map[]
    && l.st.confirmed.Keys <= l.st.zonePower.Keys <= {0, 1}
  }

  /** The library agrees with the bars. */
  ghost predicate Agrees(s: Sys) {
    Sound(s.lib, s.dev) && (Trusted(s) ==> Lit(s.dev))
  }

  /** A write whose frames may be out: what it has made of the bars. */
  ghost predicate Landed(s: Sys)
    requires s.link.Writing?
  {
    match s.link.w
    case Power(on, _) => s.dev == Bars(on, on)
    case BothBars(left, right) => s.dev == Bars(left, right)
    case ActivateScene => Lit(s.dev)
    case Adjust(_, _) =>
      if s.link.woke
      then s.dev == Bars(true, true) && !Trusted(s) && Sound(s.lib, Bars(false, false))
           && (exists k :: 0 <= k < |WriteOf(s.link.w).frames| && Wakes(WriteOf(s.link.w).frames[k]))
      else Agrees(s)
  }

  predicate Sent(link: Link) {
    link.Writing? && (link.hit || link.sent > 0)
  }

  /** A built bar write holds the other bar's power, unless a wake has overtaken it, and then it holds it off while
      both bars are lit. */
  ghost predicate BarHolds(s: Sys) {
    s.bar.Some? && s.bar.value.stage.Built? && s.bar.value.stage.vouched && !(WritesBars(s.link) && Sent(s.link)) ==>
      var b, other := s.bar.value.stage, Other(s.bar.value.index);
      if b.overtaken then s.dev == Bars(true, true) && !Bar(b.target, other)
      else Bar(b.target, other) == Bar(s.dev, other)
  }

  ghost predicate SysInv(s: Sys) {
    && Shape(s.lib)
    && (forall id :: id in s.answered ==> s.answered[id] <= s.lib.unsureSeq)
    && (forall id :: id in s.tickets ==> s.tickets[id].since <= s.lib.unsureSeq)
    && (if Sent(s.link) then Landed(s) else Agrees(s))
    && (s.link.Writing? ==>
          && ValidSetter(s.link.w) && EarlyWake(s.link.w, s.link.early)
          && (s.bar.Some? && TakesBarLock(s.link.w) ==> s.link.w.BothBars?)
          && (!Sent(s.link) ==> !s.link.woke)
          && (s.link.w.BothBars? ==>
                s.bar.Some? && s.bar.value.stage.Built?
                && s.bar.value.stage.target == Bars(s.link.w.left, s.link.w.right)))
    && (s.link.Reading? ==>
          && s.link.id in s.tickets
          && (s.link.reply.Some? ==> s.link.reply == Some(ReplyOf(s.dev, s.tickets[s.link.id].barRead))))
    && (s.bar.Some? ==>
          && s.bar.value.index < 2
          && (s.bar.value.stage.Built? ==> Bar(s.bar.value.stage.target, s.bar.value.index) == s.bar.value.on)
          && (s.bar.value.stage.Rereading? ==>
                s.bar.value.stage.id in s.tickets && s.tickets[s.bar.value.stage.id].barRead))
    && BarHolds(s)
  }

  // ---- Commits --------------------------------------------------------------------------------------------------

  lemma BothPowers(left: bool, right: bool)
    ensures var power := map[0 := left, 1 := right];
            && power.Keys == {0, 1} && |power| == 2 && AnyOn(power) == (left || right)
            && power[0] == left && power[1] == right
  {
    var power := map[0 := left, 1 := right];
    assert power.Keys == {0, 1} && |power| == |power.Keys|;
    assert power[0] == left && power[1] == right;
  }

  function PowersOf(w: Setter): (bool, bool)
    requires w.Power? || w.BothBars?
  {
    if w.Power? then (w.on, w.on) else (w.left, w.right)
  }

  /** A failed power or scene write leaves no stamp, and doubt if it may have switched the bars off. */
  lemma PowerRaised(l: Lib, w: Setter, early: map<nat, bool>)
    requires Shape(l) && !w.Adjust?
    ensures var r := CommitRaised(BARS, l, WriteOf(w), early);
            && Shape(r) && r.st.confirmed == map[] && r.st.isOn == l.st.isOn && l.unsureSeq <= r.unsureSeq
            && (l.unsure ==> r.unsure)
            && (!w.ActivateScene? && !PowersOf(w).0 && !PowersOf(w).1 ==> r.unsure && l.unsureSeq < r.unsureSeq)
  {
    if !w.ActivateScene? {
      BothPowers(PowersOf(w).0, PowersOf(w).1);
    }
  }

  /** An acked one: an off, or a bar write, stamps both bars at its powers; an on or a scene forgets them. */
  lemma PowerAcked(l: Lib, w: Setter, early: map<nat, bool>, now: real)
    requires Shape(l) && ValidSetter(w) && !w.Adjust?
    ensures var a := CommitAcked(BARS, l, WriteOf(w), early, now);
            && Shape(a) && a.unsureSeq >= l.unsureSeq
            && (if w.BothBars? then a.st.isOn == Some(w.left || w.right) && Sound(a, Bars(w.left, w.right))
                else if w == Power(false, []) then a.st.isOn == Some(false) && Sound(a, Bars(false, false))
                else a.st.confirmed == map[])
  {
    EffectOf(l.st, w, now);
    if !w.ActivateScene? {
      BothPowers(PowersOf(w).0, PowersOf(w).1);
    }
  }

  lemma EffectOf(st: State, w: Setter, now: real)
    requires ValidSetter(w) && !w.Adjust?
    ensures var st' := ApplyEffect(BARS, st, WriteOf(w).effect, now);
            && st'.confirmed.Keys <= st'.zonePower.Keys
            && (if w.BothBars? then st'.isOn == Some(w.left || w.right)
                    && st'.zonePower == map[0 := w.left, 1 := w.right]
                else if w == Power(false, []) then st'.isOn == Some(false) && st'.zonePower == AllTo({0, 1}, false)
                else st'.confirmed == map[] && st'.zonePower == map[])
  {
    if w.BothBars? {
      BothPowers(w.left, w.right);
    }
  }

  lemma AdjustEnds(l: Lib, w: Setter, early: map<nat, bool>, now: real)
    requires Shape(l) && w.Adjust?
    ensures var a, r := CommitAcked(BARS, l, WriteOf(w), early, now), CommitRaised(BARS, l, WriteOf(w), early);
            && Shape(a) && Shape(r)
            && a.st == r.st && a.unsure == r.unsure == l.unsure && a.unsureSeq == r.unsureSeq == l.unsureSeq
            && a.st.isOn == l.st.isOn && a.st.zonePower == l.st.zonePower
            && (forall i :: i in a.st.confirmed ==> i in l.st.confirmed)
            && (Wake(BARS, l, WriteOf(w), early) == AllTo({0, 1}, true) ==>
                  forall i :: i in a.st.confirmed ==> Get(l.st.zonePower, i) == Some(true))
  {
  }

  /** A write that woke the bars is counted as a wake when it ends. */
  lemma WakeCounted(l: Lib, w: Setter, early: map<nat, bool>)
    requires w.Adjust? && EarlyWake(w, early) && !KnownOn(l) && l.posted == map[]
    requires exists k :: 0 <= k < |WriteOf(w).frames| && Wakes(WriteOf(w).frames[k])
    ensures Wake(BARS, l, WriteOf(w), early) == AllTo({0, 1}, true)
  {
    assert WakePower(BARS, l, WriteOf(w).frames) == AllTo({0, 1}, true);
  }

  lemma FoldAgrees(l: Lib, d: Bars, barRead: bool, drops: nat, now: real)
    requires Shape(l) && Sound(l, d)
    ensures var l' := PowerFolded(BARS, l, ReplyOf(d, barRead), drops, now);
            && Shape(l') && Sound(l', d) && l'.st.isOn == Some(Lit(d))
            && l'.unsure == l.unsure && l'.unsureSeq == l.unsureSeq && l'.seqNo == l.seqNo
            && (barRead ==> l'.st.zonePower == map[0 := d.left, 1 := d.right])
  {
  }

  // ---- Steps ----------------------------------------------------------------------------------------------------

  lemma DispatchKeeps(s: Sys, s': Sys)
    requires SysInv(s) && Next(s, Dispatch, s')
    ensures SysInv(s')
  {
    var w := s.link.w;
    var frame := WriteOf(w).frames[s.link.sent];
    if w.Adjust? {
      if Wakes(frame) && !Lit(s.dev) && !Sent(s.link) {
        assert Agrees(s);
      }
    }
  }

  lemma PowerEnd(s: Sys, step: Step, s': Sys)
    requires SysInv(s) && Next(s, step, s') && (step.EndAcked? || step.EndRaised?) && !s.link.w.Adjust?
    ensures SysInv(s')
  {
    if step.EndAcked? {
      PowerAcked(s.lib, s.link.w, s.link.early, step.now);
    } else {
      PowerRaised(s.lib, s.link.w, s.link.early);
      if !Sent(s.link) {
        assert Trusted(s') ==> Trusted(s);
      }
    }
  }

  lemma AdjustEnd(s: Sys, step: Step, s': Sys)
    requires SysInv(s) && Next(s, step, s') && (step.EndAcked? || step.EndRaised?) && s.link.w.Adjust?
    ensures SysInv(s')
  {
    AdjustEnds(s.lib, s.link.w, s.link.early, if step.EndAcked? then step.now else 0.0);
    if s.link.woke {
      assert !KnownOn(s.lib);
      WakeCounted(s.lib, s.link.w, s.link.early);
    }
  }

  lemma FoldKeeps(s: Sys, now: real, s': Sys)
    requires SysInv(s) && Next(s, FoldRead(now), s')
    ensures SysInv(s')
  {
    var t := s.tickets[s.link.id];
    FoldAgrees(s.lib, s.dev, t.barRead, t.drops, now);
  }

  lemma FinishKeeps(s: Sys, id: nat, s': Sys)
    requires SysInv(s) && Next(s, FinishPoll(id), s')
    ensures SysInv(s')
  {
    assert Trusted(s') ==> Trusted(s);
  }

  predicate OfBarWrite(step: Step) {
    step.StartBar? || step.BuildFresh? || step.Reread? || step.GiveUpBar?
  }

  lemma TargetSets(l: Lib, index: nat, on: bool)
    requires index < 2
    ensures Bar(Target(l, index, on), index) == on
    ensures Bar(Target(l, index, on), Other(index)) == (Get(l.st.zonePower, Other(index)) == Some(true))
  {
  }

  lemma BuildKeeps(s: Sys, now: real, s': Sys)
    requires SysInv(s) && Next(s, BuildFresh(now), s')
    ensures SysInv(s')
  {
    var b := s.bar.value;
    TargetSets(s.lib, b.index, b.on);
    assert Trusted(s') <==> Trusted(s);
  }

  lemma RereadKeeps(s: Sys, id: nat, now: real, s': Sys)
    requires SysInv(s) && Next(s, Reread(id, now), s')
    ensures SysInv(s')
  {
    assert Trusted(s') <==> Trusted(s);
  }

  lemma BarStepKeeps(s: Sys, step: Step, s': Sys)
    requires SysInv(s) && Next(s, step, s') && OfBarWrite(step)
    ensures SysInv(s')
  {
    if step.BuildFresh? {
      BuildKeeps(s, step.now, s');
    } else if step.Reread? {
      RereadKeeps(s, step.id, step.now, s');
    } else {
      assert Trusted(s') <==> Trusted(s);
    }
  }

  lemma LinkStepKeeps(s: Sys, step: Step, s': Sys)
    requires SysInv(s) && Next(s, step, s') && !OfWrite(step) && !OfBarWrite(step)
    requires !step.FoldRead? && !step.FinishPoll?
    ensures SysInv(s')
  {
    assert Trusted(s') <==> Trusted(s);
  }

  /** `m` is `l` with stamps forgotten and trust lost. */
  ghost predicate Doubted(l: Lib, m: Lib) {
    && Shape(m) && m.st.isOn == l.st.isOn && m.st.zonePower == l.st.zonePower
    && (forall i :: i in m.st.confirmed ==> i in l.st.confirmed)
    && (l.unsure ==> m.unsure) && l.unsureSeq <= m.unsureSeq
  }

  lemma RaiseDoubts(l: Lib, w: Setter, early: map<nat, bool>)
    requires Shape(l)
    ensures Doubted(l, CommitRaised(BARS, l, WriteOf(w), early))
  {
    if w.Adjust? {
      AdjustEnds(l, w, early, 0.0);
    } else {
      PowerRaised(l, w, early);
    }
  }

  /** An error at any moment leaves the library in more doubt, and the bars as they are. */
  lemma DoubtKeeps(s: Sys, m: Lib, s': Sys)
    requires SysInv(s) && Doubted(s.lib, m)
    requires s' == s.(lib := m) || (s' == s.(lib := m, bar := None) && !WritesBars(s.link))
    ensures SysInv(s')
  {
    assert Trusted(s') ==> Trusted(s);
    assert forall d :: Sound(s.lib, d) ==> Sound(m, d);
  }

  lemma CancelKeeps(s: Sys, step: Step, s': Sys)
    requires SysInv(s) && Next(s, step, s') && (step.CancelWaiting? || step.CancelBars?)
    ensures SysInv(s')
  {
    var w := if step.CancelWaiting? then step.w
             else BothBars(s.bar.value.stage.target.left, s.bar.value.stage.target.right);
    RaiseDoubts(s.lib, w, step.early);
    DoubtKeeps(s, s'.lib, s');
  }

  predicate OfWrite(step: Step) {
    step.Dispatch? || step.EndAcked? || step.EndRaised? || step.CancelWaiting? || step.CancelBars?
  }

  lemma WriteStepKeeps(s: Sys, step: Step, s': Sys)
    requires SysInv(s) && Next(s, step, s') && OfWrite(step)
    ensures SysInv(s')
  {
    if step.Dispatch? {
      DispatchKeeps(s, s');
    } else if step.CancelWaiting? || step.CancelBars? {
      CancelKeeps(s, step, s');
    } else if s.link.w.Adjust? {
      AdjustEnd(s, step, s');
    } else {
      PowerEnd(s, step, s');
    }
  }

  lemma StepKeeps(s: Sys, step: Step, s': Sys)
    requires SysInv(s) && Next(s, step, s')
    ensures SysInv(s')
  {
    if OfWrite(step) {
      WriteStepKeeps(s, step, s');
    } else if OfBarWrite(step) {
      BarStepKeeps(s, step, s');
    } else if step.FoldRead? {
      FoldKeeps(s, step.now, s');
    } else if step.FinishPoll? {
      FinishKeeps(s, step.id, s');
    } else {
      LinkStepKeeps(s, step, s');
    }
  }

  // ---- Runs -----------------------------------------------------------------------------------------------------

  ghost predicate Path(run: seq<Sys>, steps: seq<Step>) {
    |run| == |steps| + 1 && forall k :: 0 <= k < |steps| ==> Next(run[k], steps[k], run[k + 1])
  }

  lemma {:induction false} RunKeeps(run: seq<Sys>, steps: seq<Step>, k: nat)
    requires Path(run, steps) && Init(run[0]) && k <= |steps|
    ensures SysInv(run[k])
  {
    if k == 0 {
    } else {
      RunKeeps(run, steps, k - 1);
      StepKeeps(run[k - 1], steps[k - 1], run[k]);
    }
  }

  /** Between writes, every bar's stamp holds and a trusted "on" is on, in every run. */
  lemma BarStampsSound(run: seq<Sys>, steps: seq<Step>, k: nat)
    requires Path(run, steps) && Init(run[0]) && k <= |steps| && !run[k].link.Writing?
    ensures Sound(run[k].lib, run[k].dev) && (KnownOn(run[k].lib) ==> Lit(run[k].dev))
  {
    RunKeeps(run, steps, k);
  }

  /** Step `k` is the first dispatch of a bar write whose frame was built from a fresh stamp or an applied re-read. */
  ghost predicate BarDispatch(run: seq<Sys>, steps: seq<Step>, k: nat)
    requires |run| == |steps| + 1
  {
    && k < |steps| && steps[k].Dispatch? && WritesBars(run[k].link) && !Sent(run[k].link)
    && run[k].bar.Some? && run[k].bar.value.stage.Built? && run[k].bar.value.stage.vouched
  }

  /** A bar write leaves the other bar at the power the device holds for it exactly if no brightness or colour write
      whose hold had not ended when the frame was built has lit both bars since; otherwise it darkens a lit bar. */
  lemma OtherBarKept(run: seq<Sys>, steps: seq<Step>, k: nat)
    requires Path(run, steps) && Init(run[0]) && BarDispatch(run, steps, k)
    ensures var b := run[k].bar.value;
            var before, after := Bar(run[k].dev, Other(b.index)), Bar(run[k + 1].dev, Other(b.index));
            (after == before <==> !b.stage.overtaken) && (after != before ==> before)
  {
    RunKeeps(run, steps, k);
  }

  /** Whatever its frame was built from, a bar write sets the bar it was asked to set, in every run. */
  lemma AskedBarSet(run: seq<Sys>, steps: seq<Step>, k: nat)
    requires Path(run, steps) && Init(run[0]) && k < |steps| && steps[k].Dispatch? && WritesBars(run[k].link)
    ensures run[k].bar.Some? && Bar(run[k + 1].dev, run[k].bar.value.index) == run[k].bar.value.on
  {
    RunKeeps(run, steps, k);
  }

  /** Every brightness and colour write of the run takes `_bar_lock` too. */
  ghost predicate AllLocked(steps: seq<Step>) {
    forall k :: 0 <= k < |steps| && steps[k].BeginWrite? && steps[k].w.Adjust? ==> steps[k].w.locked
  }

  predicate LockHeld(s: Sys) {
    && (s.link.Writing? ==> TakesBarLock(s.link.w))
    && (s.bar.Some? && s.bar.value.stage.Built? ==> !s.bar.value.stage.overtaken)
  }

  lemma LockedStep(s: Sys, step: Step, s': Sys)
    requires SysInv(s) && Next(s, step, s') && LockHeld(s) && (step.BeginWrite? && step.w.Adjust? ==> step.w.locked)
    ensures LockHeld(s')
  {
  }

  lemma {:induction false} LockedNotOvertaken(run: seq<Sys>, steps: seq<Step>, k: nat)
    requires Path(run, steps) && Init(run[0]) && k <= |steps| && AllLocked(steps)
    ensures LockHeld(run[k])
  {
    if k == 0 {
    } else {
      LockedNotOvertaken(run, steps, k - 1);
      RunKeeps(run, steps, k - 1);
      LockedStep(run[k - 1], steps[k - 1], run[k]);
    }
  }

  /** If they did, no bar write would ever change the other bar. */
  lemma LockedNoLostUpdate(run: seq<Sys>, steps: seq<Step>, k: nat)
    requires Path(run, steps) && Init(run[0]) && BarDispatch(run, steps, k) && AllLocked(steps)
    ensures Bar(run[k + 1].dev, Other(run[k].bar.value.index)) == Bar(run[k].dev, Other(run[k].bar.value.index))
  {
    LockedNotOvertaken(run, steps, k);
    OtherBarKept(run, steps, k);
  }

  lemma Extend(run: seq<Sys>, steps: seq<Step>, step: Step, s: Sys) returns (run': seq<Sys>, steps': seq<Step>)
    requires Path(run, steps) && Next(run[|steps|], step, s)
    ensures Path(run', steps') && run' == run + [s] && steps' == steps + [step]
  {
    run', steps' := run + [s], steps + [step];
  }

  predicate Unsent(link: Link) {
    !(WritesBars(link) && Sent(link))
  }

  predicate WaitsAt(s: Sys) {
    s.bar.Some? && s.bar.value.stage.Built? && Unsent(s.link)
  }

  /** The bar write's frame is built and not sent from state `i` to state `k`. */
  predicate Waits(run: seq<Sys>, i: nat, k: nat) {
    k < |run| && forall m :: i <= m <= k ==> WaitsAt(run[m])
  }

  /** A built bar write waits over lit bars, and nothing has overtaken it. */
  predicate WaitsLit(s: Sys) {
    WaitsAt(s) && Lit(s.dev) && !s.bar.value.stage.overtaken
  }

  lemma LitStep(s: Sys, step: Step, s': Sys)
    requires SysInv(s) && Next(s, step, s') && WaitsLit(s) && WaitsAt(s')
    ensures WaitsLit(s')
  {
    if step.Dispatch? {
      assert s.link.w.Adjust?;
    }
  }

  lemma LitNext(run: seq<Sys>, steps: seq<Step>, k: nat)
    requires Path(run, steps) && Init(run[0]) && k < |steps| && WaitsLit(run[k]) && WaitsAt(run[k + 1])
    ensures WaitsLit(run[k + 1])
  {
    RunKeeps(run, steps, k);
    LitStep(run[k], steps[k], run[k + 1]);
  }

  /** While a bar is lit, a built bar write is not overtaken. */
  lemma {:induction false} LitNotOvertaken(run: seq<Sys>, steps: seq<Step>, i: nat, k: nat)
    requires Path(run, steps) && Init(run[0]) && i <= k <= |steps| && Waits(run, i, k) && WaitsLit(run[i])
    ensures WaitsLit(run[k])
  {
    if i == k {
    } else {
      LitNotOvertaken(run, steps, i, k - 1);
      LitNext(run, steps, k - 1);
    }
  }

  /** The bar write built at state `i` goes out at the run's last step, and changes the other bar. */
  ghost predicate LosesUpdate(run: seq<Sys>, steps: seq<Step>, i: nat) {
    && |run| == |steps| + 1 && i < |steps| && BarDispatch(run, steps, |steps| - 1) && Waits(run, i, |steps| - 1)
    && var s, s' := run[|steps| - 1], run[|steps|];
       Bar(s.dev, Other(s.bar.value.index)) != Bar(s'.dev, Other(s.bar.value.index))
  }

  ghost predicate CanLose(run: seq<Sys>, steps: seq<Step>) {
    exists run', steps' :: Path(run', steps') && run <= run' && steps <= steps' && LosesUpdate(run', steps', |steps|)
  }

  /** A built bar write the link is free for can lose the other bar's power exactly if both bars are dark. */
  lemma DarkExactly(run: seq<Sys>, steps: seq<Step>)
    requires Path(run, steps) && Init(run[0])
    requires var s := run[|steps|];
             && s.link.Free? && s.bar.Some?
             && s.bar.value.stage.Built? && s.bar.value.stage.vouched && !s.bar.value.stage.overtaken
    ensures CanLose(run, steps) <==> !Lit(run[|steps|].dev)
  {
    if !Lit(run[|steps|].dev) {
      var run', steps' := WakeOvertakes(run, steps);
    }
    if CanLose(run, steps) {
      var run', steps' :| Path(run', steps') && run <= run' && steps <= steps' && LosesUpdate(run', steps', |steps|);
      assert run'[|steps|] == run[|steps|] && run'[0] == run[0];
      LostFromDark(run', steps', |steps|);
    }
  }

  lemma LostFromDark(run: seq<Sys>, steps: seq<Step>, i: nat)
    requires Path(run, steps) && Init(run[0]) && LosesUpdate(run, steps, i) && !run[i].bar.value.stage.overtaken
    ensures !Lit(run[i].dev)
  {
    if Lit(run[i].dev) {
      LitNotOvertaken(run, steps, i, |steps| - 1);
      OtherBarKept(run, steps, |steps| - 1);
    }
  }

  /** A brightness write on the free link, up to the end of its commit. */
  lemma BrightnessSent(run: seq<Sys>, steps: seq<Step>, hit: Sys) returns (run': seq<Sys>, steps': seq<Step>)
    requires Path(run, steps) && run[|steps|].link.Free?
    requires hit == Hit(run[|steps|].(link := Writing(Adjust([Brightness], false), map[], 0, false, false)), Brightness)
    ensures Path(run', steps') && |steps'| == |steps| + 3 && run <= run' && steps <= steps'
    ensures run'[|steps| + 1].bar == run[|steps|].bar && run'[|steps| + 2].bar == hit.bar
    ensures !WritesBars(run'[|steps| + 1].link) && !WritesBars(run'[|steps| + 2].link)
    ensures run'[|steps'|] == hit.(link := hit.link.(sent := 1, hit := false))
  {
    var s, w := run[|steps|], Adjust([Brightness], false);
    run', steps' := Extend(run, steps, BeginWrite(w, map[]), s.(link := Writing(w, map[], 0, false, false)));
    run', steps' := Extend(run', steps', Dispatch, hit);
    run', steps' := Extend(run', steps', AckFrame, hit.(link := hit.link.(sent := 1, hit := false)));
  }

  /** And acked at once. */
  lemma BrightnessPath(run: seq<Sys>, steps: seq<Step>) returns (run': seq<Sys>, steps': seq<Step>, lib: Lib)
    requires Path(run, steps) && run[|steps|].link.Free?
    ensures Path(run', steps') && run <= run' && steps <= steps' && |steps| < |steps'|
    ensures var s := run[|steps|];
            var hit := Hit(s.(link := Writing(Adjust([Brightness], false), map[], 0, false, false)), Brightness);
            run'[|steps'|] == hit.(lib := lib, link := Free)
    ensures run[|steps|].bar.Some? && run[|steps|].bar.value.stage.Built? ==>
              Waits(run', |steps|, |steps'|)
  {
    var w := Adjust([Brightness], false);
    var hit := Hit(run[|steps|].(link := Writing(w, map[], 0, false, false)), Brightness);
    run', steps' := BrightnessSent(run, steps, hit);
    lib := CommitAcked(BARS, hit.lib, WriteOf(w), map[], 0.0);
    run', steps' := Extend(run', steps', EndAcked(0.0), hit.(lib := lib, link := Free));
  }

  /** Over dark bars, a bar write the link is free for can be overtaken: a brightness write takes the link first and
      lights both bars, and the frame built before it then darkens the other one. */
  lemma WakeOvertakes(run: seq<Sys>, steps: seq<Step>) returns (run': seq<Sys>, steps': seq<Step>)
    requires Path(run, steps) && Init(run[0])
    requires var s := run[|steps|];
             && s.link.Free? && !Lit(s.dev) && s.bar.Some?
             && s.bar.value.stage.Built? && s.bar.value.stage.vouched && !s.bar.value.stage.overtaken
    ensures Path(run', steps') && run <= run' && steps <= steps' && |steps| < |steps'|
    ensures LosesUpdate(run', steps', |steps|)
  {
    var target, lib := run[|steps|].bar.value.stage.target, run[0].lib;
    RunKeeps(run, steps, |steps|);
    run', steps', lib := BrightnessPath(run, steps);
    var bars := BothBars(target.left, target.right);
    var s := run'[|steps'|].(link := Writing(bars, map[], 0, false, false));
    run', steps' := Extend(run', steps', BeginBars(map[]), s);
    run', steps' := Extend(run', steps', Dispatch, Hit(s, BarSwitch(target.left, target.right)));
  }

  function Rereads(s: Sys, index: nat): Sys {
    s.(bar := Some(BarWrite(index, true, Rereading(0))), tickets := map[0 := Ticket(true, 0, 0, 0)])
  }

  lemma RereadPath(s: Sys, index: nat) returns (run: seq<Sys>, steps: seq<Step>)
    requires Init(s) && index < 2
    ensures Path(run, steps) && run[0] == s && run[|steps|] == Rereads(s, index)
  {
    run, steps := [s], [];
    run, steps := Extend(run, steps, StartBar(index, true), s.(bar := Some(BarWrite(index, true, Choosing))));
    run, steps := Extend(run, steps, Reread(0, 0.0), Rereads(s, index));
  }

  /** Such a bar write is reached from the start: switching a bar on over dark bars, with both unknown. */
  lemma DarkBarWrite(s: Sys, index: nat) returns (run: seq<Sys>, steps: seq<Step>)
    requires Init(s) && s.dev == Bars(false, false) && index < 2
    ensures Path(run, steps) && run[0] == s
    ensures var end := run[|steps|];
            var target := if index == 0 then Bars(true, false) else Bars(false, true);
            end.link.Free? && end.dev == s.dev && end.bar == Some(BarWrite(index, true, Built(target, true, false)))
  {
    var reply := BothRead(false, false);
    run, steps := RereadPath(s, index);
    var r := Rereads(s, index).(link := Reading(0, None));
    run, steps := Extend(run, steps, Request(0), r);
    r := r.(link := Reading(0, Some(reply)));
    run, steps := Extend(run, steps, Answer, r);
    run, steps := Extend(run, steps, FoldRead(0.0), FoldedSys(r, Ticket(true, 0, 0, 0), reply, 0.0));
  }
}

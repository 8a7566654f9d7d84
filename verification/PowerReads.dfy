/** The counters behind `power_read_at` and `_power_unsure` (devices/device.py), over every interleaving of polls,
    acked writes and raised writes, with any replies and on any profile. */
module PowerReads {
  import opened Basics
  import opened Fold
  import opened Library

  /** A read's snapshot of the counters. The drop counter is taken when its poll starts, the other two when the read
      that gives the on/off is issued (the same moment, but for a poll that reads the on/off late). */
  datatype Ticket = Ticket(seqNo: nat, since: nat, drops: nat)

  /** `applied`: for each read of the on/off folded in by a poll not finished yet, its `since`. */
  datatype Sys = Sys(lib: Lib, tickets: map<nat, Ticket>, applied: map<nat, nat>)

  datatype Step =
    | Ack(w: Write, early: map<nat, bool>, now: real)
    | Raise(w: Write, early: map<nat, bool>)
    | Begin(id: nat)
    | Issue(id: nat)
    | FoldPower(id: nat, reply: PowerReply, now: real)
    | FoldStatus(id: nat, status: Status, now: real)
    | Finish(id: nat)
    | Forget(id: nat)

  function Next(p: Profile, s: Sys, step: Step): Sys {
    match step
    case Ack(w, early, now) => s.(lib := CommitAcked(p, s.lib, w, early, now))
    case Raise(w, early) => s.(lib := CommitRaised(p, s.lib, w, early))
    case Begin(id) => s.(tickets := s.tickets[id := Ticket(s.lib.seqNo, s.lib.unsureSeq, s.lib.drops)],
                         applied := s.applied - {id})
    case Issue(id) =>
      if id in s.tickets
      then s.(tickets := s.tickets[id := Ticket(s.lib.seqNo, s.lib.unsureSeq, s.tickets[id].drops)]) else s
    case FoldPower(id, reply, now) =>
      if id in s.tickets && s.tickets[id].seqNo == s.lib.seqNo
      then s.(lib := PowerFolded(p, s.lib, reply, s.tickets[id].drops, now),
              applied := s.applied[id := s.tickets[id].since])
      else s
    case FoldStatus(id, status, now) =>
      if id in s.tickets && s.tickets[id].seqNo == s.lib.seqNo
      then s.(lib := StatusRead(s.lib, status, s.tickets[id].since, s.tickets[id].drops, now)) else s
    case Finish(id) =>
      if id in s.applied then s.(lib := FinishRead(s.lib, true, s.applied[id]), applied := s.applied - {id}) else s
    case Forget(id) => s.(tickets := s.tickets - {id}, applied := s.applied - {id})
  }

  ghost predicate Path(p: Profile, run: seq<Sys>, steps: seq<Step>) {
    && |run| == |steps| + 1 && run[0] == Sys(FRESH, map[], map[])
    && forall k :: 0 <= k < |steps| ==> run[k + 1] == Next(p, run[k], steps[k])
  }

  /** The write ends that put the device at an on/off `is_on` may not hold. */
  predicate Drops(p: Profile, l: Lib, step: Step) {
    match step
    case Ack(w, early, now) =>
      var on := AckedState(p, l, w, early, now).isOn;
      on != l.st.isOn || (on != Some(true) && (Wake(p, l, w, early) != map[] || AnyOn(Entries(w.zones))))
    case Raise(w, early) => w.fixture || w.zones.Some? || (l.st.isOn != Some(true) && Wake(p, l, w, early) != map[])
    case _ => false
  }

  /** The steps after which the device may be off though `is_on` says on: an acked or raised switch-off, and a status
      reply with an on/off that leaves a posted power unsettled. */
  predicate Doubts(p: Profile, s: Sys, step: Step) {
    match step
    case Ack(w, early, now) =>
      var zones := Entries(w.zones);
      && zones != map[] && !AnyOn(zones) && |zones| != |p.zones|
      && !(KnownOn(s.lib) && OthersConfirmedLit(p, AckedState(p, s.lib, w, early, now), zones.Keys))
    case Raise(w, _) => Entries(w.zones) != map[] && !AnyOn(Entries(w.zones))
    case FoldStatus(id, status, _) =>
      && id in s.tickets && s.tickets[id].seqNo == s.lib.seqNo && status.isOn.Some?
      && exists i :: i in s.lib.posted && !Settled(s.lib.posted[i], Get(status.zonePower, i))
    case _ => false
  }

  /** A reply shows the zone at the one power posted for it. */
  predicate Settled(powers: set<bool>, shown: Option<bool>) {
    shown.Some? && Only(powers, shown.value)
  }

  /** Each of those steps moves its counters on by one, and no other step moves one. */
  lemma CountersMove(p: Profile, s: Sys, step: Step)
    ensures var s' := Next(p, s, step);
            && s'.lib.drops == s.lib.drops + Count(Drops(p, s.lib, step)) + Count(Doubts(p, s, step))
            && s'.lib.unsureSeq == s.lib.unsureSeq + Count(Doubts(p, s, step))
  {
    match step {
      case Ack(w, early, now) =>
        assert Doubts(p, s, step) == AckUnsure(p, s.lib, w, AckedState(p, s.lib, w, early, now));
        assert Drops(p, s.lib, step) == AckDrops(p, s.lib, w, early, AckedState(p, s.lib, w, early, now));
      case Raise(w, early) =>
        assert Doubts(p, s, step) == RaiseUnsure(w) && Drops(p, s.lib, step) == RaiseDrops(p, s.lib, w, early);
      case FoldStatus(id, status, now) =>
        if id in s.tickets {
          StatusMoves(s.lib, status, s.tickets[id], now);
        }
      case _ =>
    }
  }

  /** A read the library folds in: its on/off, unless a setter committed since it was issued. */
  predicate Folds(s: Sys, step: Step) {
    && (step.FoldPower? || (step.FoldStatus? && step.status.isOn.Some?))
    && step.id in s.tickets && s.tickets[step.id].seqNo == s.lib.seqNo
  }

  /** The steps that end a doubt: an acked write over every zone, a status reply with an on/off, and the end of a poll
      that folded one in; a read only if nothing raised a doubt since it was issued. */
  predicate Clears(p: Profile, s: Sys, step: Step) {
    match step
    case Ack(w, _, _) => w.zones.Some? && |w.zones.value| == |p.zones|
    case FoldStatus(id, _, _) => Folds(s, step) && s.tickets[id].since == s.lib.unsureSeq
    case Finish(id) => id in s.applied && s.applied[id] == s.lib.unsureSeq
    case _ => false
  }

  /** The on/off is in doubt after a step exactly if the step raised the doubt, or found it and did not end it. */
  lemma DoubtAfter(p: Profile, s: Sys, step: Step)
    requires step.FoldStatus? && step.id in s.tickets ==> s.tickets[step.id].since <= s.lib.unsureSeq
    ensures Next(p, s, step).lib.unsure <==> Doubts(p, s, step) || (s.lib.unsure && !Clears(p, s, step))
  {
    if step.FoldStatus? && step.id in s.tickets {
      StatusMoves(s.lib, step.status, s.tickets[step.id], step.now);
    }
  }

  lemma StatusMoves(l: Lib, st: Status, t: Ticket, now: real)
    ensures var l' := StatusRead(l, st, t.since, t.drops, now);
            var late := st.isOn.Some? && exists i :: i in l.posted && !Settled(l.posted[i], Get(st.zonePower, i));
            && l'.drops == l.drops + Count(late) && l'.unsureSeq == l.unsureSeq + Count(late)
            && l'.unsure == ((late || l.unsure) && !(st.isOn.Some? && t.since == l'.unsureSeq))
  {
    if st.isOn.Some? {
      UnsettledAlike(l.posted, st);
    }
  }

  lemma UnsettledAlike(posted: map<nat, set<bool>>, st: Status)
    ensures (exists i :: i in posted && (i !in st.zonePower || i in Unsettled(posted, st)))
            <==> exists i :: i in posted && !Settled(posted[i], Get(st.zonePower, i))
  {
    forall i | i in posted
      ensures (i !in st.zonePower || i in Unsettled(posted, st)) <==> !Settled(posted[i], Get(st.zonePower, i))
    {
    }
  }

  lemma Moves(p: Profile, run: seq<Sys>, steps: seq<Step>, k: nat)
    requires Path(p, run, steps) && k < |steps|
    ensures run[k].lib.drops <= run[k + 1].lib.drops && run[k].lib.unsureSeq <= run[k + 1].lib.unsureSeq
  {
    CountersMove(p, run[k], steps[k]);
  }

  lemma {:induction false} Climbs(a: seq<nat>, i: nat, k: nat)
    requires i <= k < |a| && forall j :: 0 <= j < |a| - 1 ==> a[j] <= a[j + 1]
    ensures a[i] <= a[k]
  {
    if i == k {
    } else {
      Climbs(a, i, k - 1);
      assert a[k - 1] <= a[k - 1 + 1];
    }
  }

  lemma {:induction false} Steady<T>(a: seq<T>, i: nat, k: nat)
    requires i <= k < |a| && forall j :: i <= j < k ==> a[j] == a[j + 1]
    ensures a[i] == a[k]
  {
    if i == k {
    } else {
      Steady(a, i, k - 1);
      assert a[k - 1] == a[k - 1 + 1];
    }
  }

  lemma Monotone(p: Profile, run: seq<Sys>, steps: seq<Step>, i: nat, k: nat)
    requires Path(p, run, steps) && i <= k <= |steps|
    ensures run[i].lib.drops <= run[k].lib.drops && run[i].lib.unsureSeq <= run[k].lib.unsureSeq
  {
    var drops := seq(|run|, j requires 0 <= j < |run| => run[j].lib.drops);
    var doubts := seq(|run|, j requires 0 <= j < |run| => run[j].lib.unsureSeq);
    forall j | 0 <= j < |steps| ensures drops[j] <= drops[j + 1] && doubts[j] <= doubts[j + 1] {
      Moves(p, run, steps, j);
    }
    Climbs(drops, i, k);
    Climbs(doubts, i, k);
  }

  /** Counters equal at both ends were equal all along. */
  lemma Still(p: Profile, run: seq<Sys>, steps: seq<Step>, i: nat, m: nat, k: nat)
    requires Path(p, run, steps) && i <= m <= k <= |steps|
    ensures run[i].lib.drops == run[k].lib.drops ==> run[m].lib.drops == run[k].lib.drops
    ensures run[i].lib.unsureSeq == run[k].lib.unsureSeq ==> run[m].lib.unsureSeq == run[k].lib.unsureSeq
  {
    Monotone(p, run, steps, i, m);
    Monotone(p, run, steps, m, k);
  }

  predicate Issues(step: Step, id: nat) {
    (step.Begin? || step.Issue?) && step.id == id
  }

  lemma TicketKept(p: Profile, s: Sys, step: Step, id: nat)
    requires id in Next(p, s, step).tickets
    ensures var t := Next(p, s, step).tickets[id];
            if Issues(step, id) then t.since == s.lib.unsureSeq && t.seqNo == s.lib.seqNo
            else id in s.tickets && s.tickets[id] == t
  {
  }

  lemma DropsKept(p: Profile, s: Sys, step: Step, id: nat)
    requires id in Next(p, s, step).tickets
    ensures if step == Begin(id) then Next(p, s, step).tickets[id].drops == s.lib.drops
            else id in s.tickets && s.tickets[id].drops == Next(p, s, step).tickets[id].drops
  {
  }

  lemma DropsAt(p: Profile, run: seq<Sys>, steps: seq<Step>, k: nat, id: nat)
    requires Path(p, run, steps) && k < |steps| && id in run[k + 1].tickets
    ensures if steps[k] == Begin(id) then run[k + 1].tickets[id].drops == run[k].lib.drops
            else id in run[k].tickets && run[k].tickets[id].drops == run[k + 1].tickets[id].drops
  {
    DropsKept(p, run[k], steps[k], id);
  }

  /** Where a value carried from state to state was set. */
  lemma {:induction false} Origin<T>(held: seq<Option<T>>, given: seq<Option<T>>, k: nat) returns (i: nat)
    requires |held| == |given| + 1 && k <= |given| && held[k].Some? && held[0].None?
    requires forall j :: 0 <= j < |given| && held[j + 1].Some? ==>
               held[j + 1] == if given[j].Some? then given[j] else held[j]
    ensures i < k && given[i].Some? && given[i] == held[k] && forall j :: i < j < k ==> given[j].None?
  {
    assert held[k - 1 + 1].Some?;
    if given[k - 1].Some? {
      i := k - 1;
    } else {
      i := Origin(held, given, k - 1);
    }
  }

  /** The last poll under `id` before step `k` began at step `i`. */
  ghost predicate Polling(steps: seq<Step>, i: nat, k: nat, id: nat)
    requires i < k <= |steps|
  {
    steps[i] == Begin(id) && forall m :: i < m < k ==> steps[m] != Begin(id)
  }

  lemma BegunAt(p: Profile, run: seq<Sys>, steps: seq<Step>, k: nat, id: nat) returns (i: nat)
    requires Path(p, run, steps) && k <= |steps| && id in run[k].tickets
    ensures i < k && Polling(steps, i, k, id) && run[i].lib.drops == run[k].tickets[id].drops
  {
    var held := seq(|run|, j requires 0 <= j < |run| =>
                      if id in run[j].tickets then Some(run[j].tickets[id].drops) else None);
    var begun := seq(|steps|, j requires 0 <= j < |steps| =>
                       if steps[j] == Begin(id) then Some(run[j].lib.drops) else None);
    forall j | 0 <= j < |steps| && held[j + 1].Some?
      ensures held[j + 1] == if begun[j].Some? then begun[j] else held[j]
    {
      DropsAt(p, run, steps, j, id);
    }
    i := Origin(held, begun, k);
    forall m | i < m < k ensures steps[m] != Begin(id) {
      assert begun[m].None?;
    }
  }

  /** The stamp's read was begun at a step `i` and folded in at `j`, with no drop since `i`. */
  ghost predicate StampedBy(p: Profile, run: seq<Sys>, steps: seq<Step>, i: nat, j: nat, k: nat, on: bool, at: real)
    requires |run| == |steps| + 1
  {
    && i < j < k <= |steps| && run[i].lib.drops == run[k].lib.drops
    && (steps[j].FoldPower? || steps[j].FoldStatus?) && steps[j].now == at && steps[i] == Begin(steps[j].id)
    && (steps[j].FoldPower? ==> OnOf(steps[j].reply) == on)
    && (steps[j].FoldStatus? ==> steps[j].status.isOn == Some(on))
  }

  lemma {:induction false} Stamped(p: Profile, run: seq<Sys>, steps: seq<Step>, k: nat, on: bool, at: real)
    returns (i: nat, j: nat)
    requires Path(p, run, steps) && k <= |steps| && run[k].lib.powerRead == Some((at, on))
    ensures StampedBy(p, run, steps, i, j, k, on, at)
  {
    var s, step := run[k - 1], steps[k - 1];
    CountersMove(p, s, step);
    if s.lib.powerRead == Some((at, on)) && s.lib.drops == run[k].lib.drops {
      i, j := Stamped(p, run, steps, k - 1, on, at);
    } else {
      StampedNow(p, s, step, on, at);
      j := k - 1;
      i := BegunAt(p, run, steps, j, step.id);
    }
  }

  /** Only a read of the on/off stamps, and only if nothing dropped since its poll began. */
  lemma StampedNow(p: Profile, s: Sys, step: Step, on: bool, at: real)
    requires Next(p, s, step).lib.powerRead == Some((at, on))
    requires s.lib.powerRead != Some((at, on)) || s.lib.drops != Next(p, s, step).lib.drops
    ensures step.FoldPower? || step.FoldStatus?
    ensures step.now == at && step.id in s.tickets && s.tickets[step.id].drops == s.lib.drops
    ensures s.lib.drops == Next(p, s, step).lib.drops
    ensures step.FoldPower? ==> OnOf(step.reply) == on
    ensures step.FoldStatus? ==> step.status.isOn == Some(on)
  {
  }

  /** A `power_read_at` is the time of a read that returned the on/off `is_on` holds, issued after the last step that
      may have put the device at another one or left it in doubt. */
  lemma PowerReadVouches(p: Profile, run: seq<Sys>, steps: seq<Step>, k: nat) returns (i: nat, j: nat)
    requires Path(p, run, steps) && k <= |steps| && PowerReadAt(run[k].lib).Some?
    ensures i < j < k && (steps[j].FoldPower? || steps[j].FoldStatus?) && steps[i] == Begin(steps[j].id)
    ensures PowerReadAt(run[k].lib) == Some(steps[j].now)
    ensures run[k].lib.st.isOn == (if steps[j].FoldPower? then Some(OnOf(steps[j].reply)) else steps[j].status.isOn)
    ensures run[i].lib.drops == run[k].lib.drops
    ensures forall m :: i <= m < k ==> !Drops(p, run[m].lib, steps[m]) && !Doubts(p, run[m], steps[m])
  {
    var read := run[k].lib.powerRead.value;
    i, j := Stamped(p, run, steps, k, read.1, read.0);
    forall m | i <= m < k ensures !Drops(p, run[m].lib, steps[m]) && !Doubts(p, run[m], steps[m]) {
      Still(p, run, steps, i, m, k);
      Still(p, run, steps, i, m + 1, k);
      CountersMove(p, run[m], steps[m]);
    }
  }

  /** Nothing in the given steps drops the read of the on/off. */
  ghost predicate Quiet(p: Profile, run: seq<Sys>, steps: seq<Step>, i: nat, k: nat)
    requires i <= k <= |steps| < |run|
  {
    forall m :: i <= m < k ==> !Drops(p, run[m].lib, steps[m]) && !Doubts(p, run[m], steps[m])
  }

  lemma QuietDrops(p: Profile, run: seq<Sys>, steps: seq<Step>, i: nat, k: nat)
    requires Path(p, run, steps) && i <= k <= |steps| && Quiet(p, run, steps, i, k)
    ensures run[i].lib.drops == run[k].lib.drops
  {
    var drops := seq(|run|, j requires 0 <= j < |run| => run[j].lib.drops);
    forall j | i <= j < k ensures drops[j] == drops[j + 1] {
      CountersMove(p, run[j], steps[j]);
    }
    Steady(drops, i, k);
  }

  lemma PollDrops(p: Profile, run: seq<Sys>, steps: seq<Step>, i: nat, k: nat, id: nat)
    requires Path(p, run, steps) && i < k <= |steps| && Polling(steps, i, k, id) && id in run[k].tickets
    ensures run[k].tickets[id].drops == run[i].lib.drops
  {
    var begun := BegunAt(p, run, steps, k, id);
    assert begun == i;
  }

  /** Conversely to PowerReadVouches: a read folded in at `j`, its poll begun at `i`, is what `power_read_at` names from
      then on, until a step may put the device elsewhere or in doubt, or another read is folded in. */
  lemma PowerReadKept(p: Profile, run: seq<Sys>, steps: seq<Step>, i: nat, j: nat, k: nat)
    requires Path(p, run, steps) && i < j < k <= |steps| && Folds(run[j], steps[j])
    requires Polling(steps, i, j, steps[j].id) && Quiet(p, run, steps, i, k)
    requires forall m :: j < m < k ==> !Folds(run[m], steps[m])
    ensures PowerReadAt(run[k].lib) == Some(steps[j].now)
  {
    QuietDrops(p, run, steps, i, j);
    PollDrops(p, run, steps, i, j, steps[j].id);
    FoldStamps(p, run[j], steps[j]);
    var at := seq(|run|, m requires 0 <= m < |run| => PowerReadAt(run[m].lib));
    forall m | j + 1 <= m < k ensures at[m] == at[m + 1] {
      ReadStays(p, run[m], steps[m]);
    }
    Steady(at, j + 1, k);
  }

  lemma FoldStamps(p: Profile, s: Sys, step: Step)
    requires Folds(s, step) && s.tickets[step.id].drops == s.lib.drops && !Doubts(p, s, step)
    ensures PowerReadAt(Next(p, s, step).lib) == Some(step.now)
  {
    if step.FoldStatus? {
      StatusMoves(s.lib, step.status, s.tickets[step.id], step.now);
    }
  }

  lemma ReadStays(p: Profile, s: Sys, step: Step)
    requires !Folds(s, step) && !Drops(p, s.lib, step) && !Doubts(p, s, step)
    ensures PowerReadAt(Next(p, s, step).lib) == PowerReadAt(s.lib)
  {
    if step.FoldStatus? && step.id in s.tickets {
      StatusMoves(s.lib, step.status, s.tickets[step.id], step.now);
    }
  }

  lemma TicketAt(p: Profile, run: seq<Sys>, steps: seq<Step>, k: nat, id: nat)
    requires Path(p, run, steps) && k < |steps| && id in run[k + 1].tickets
    ensures var t := run[k + 1].tickets[id];
            if Issues(steps[k], id) then t.since == run[k].lib.unsureSeq && t.seqNo == run[k].lib.seqNo
            else id in run[k].tickets && run[k].tickets[id] == t
  {
    TicketKept(p, run[k], steps[k], id);
  }

  /** The read under `id` that is in flight before step `k` was issued at step `i`. */
  ghost predicate InFlight(steps: seq<Step>, i: nat, k: nat, id: nat)
    requires i < k <= |steps|
  {
    Issues(steps[i], id) && forall m :: i < m < k ==> !Issues(steps[m], id)
  }

  lemma IssuedAt(p: Profile, run: seq<Sys>, steps: seq<Step>, k: nat, id: nat) returns (i: nat)
    requires Path(p, run, steps) && k <= |steps| && id in run[k].tickets
    ensures i < k && InFlight(steps, i, k, id)
    ensures run[i].lib.unsureSeq == run[k].tickets[id].since && run[i].lib.seqNo == run[k].tickets[id].seqNo
  {
    var held := seq(|run|, j requires 0 <= j < |run| =>
                      if id in run[j].tickets then Some((run[j].tickets[id].since, run[j].tickets[id].seqNo))
                      else None);
    var issued := seq(|steps|, j requires 0 <= j < |steps| =>
                        if Issues(steps[j], id) then Some((run[j].lib.unsureSeq, run[j].lib.seqNo)) else None);
    forall j | 0 <= j < |steps| && held[j + 1].Some?
      ensures held[j + 1] == if issued[j].Some? then issued[j] else held[j]
    {
      TicketAt(p, run, steps, j, id);
    }
    i := Origin(held, issued, k);
    forall m | i < m < k ensures !Issues(steps[m], id) {
      assert issued[m].None?;
    }
  }

  ghost predicate Acked(steps: seq<Step>, i: nat, k: nat)
    requires k <= |steps|
  {
    exists m :: i <= m < k && steps[m].Ack?
  }

  lemma AckedSeq(p: Profile, run: seq<Sys>, steps: seq<Step>, i: nat, k: nat)
    requires Path(p, run, steps) && i <= k <= |steps|
    ensures run[i].lib.seqNo <= run[k].lib.seqNo && (run[i].lib.seqNo < run[k].lib.seqNo <==> Acked(steps, i, k))
  {
    var seqNos := seq(|run|, j requires 0 <= j < |run| => run[j].lib.seqNo);
    forall j | 0 <= j < |steps| ensures seqNos[j + 1] == seqNos[j] + Count(steps[j].Ack?) {
      SeqMoves(p, run[j], steps[j]);
    }
    AcksCount(steps, seqNos, i, k);
  }

  lemma AcksCount(steps: seq<Step>, seqNos: seq<nat>, i: nat, k: nat)
    requires |seqNos| == |steps| + 1 && i <= k <= |steps|
    requires forall j :: 0 <= j < |steps| ==> seqNos[j + 1] == seqNos[j] + Count(steps[j].Ack?)
    ensures seqNos[i] <= seqNos[k] && (seqNos[i] < seqNos[k] <==> Acked(steps, i, k))
  {
    if m :| i <= m < k && steps[m].Ack? {
      Climbs(seqNos, i, m);
      Climbs(seqNos, m + 1, k);
    } else {
      Steady(seqNos, i, k);
    }
  }

  lemma SeqMoves(p: Profile, s: Sys, step: Step)
    ensures Next(p, s, step).lib.seqNo == s.lib.seqNo + Count(step.Ack?)
  {
  }

  /** A read that gives the on/off, still in flight, is folded in exactly if no setter was acked since it was issued. */
  lemma FoldsExactly(p: Profile, run: seq<Sys>, steps: seq<Step>, i: nat, k: nat)
    requires Path(p, run, steps) && i < k < |steps|
    requires steps[k].FoldPower? || (steps[k].FoldStatus? && steps[k].status.isOn.Some?)
    requires InFlight(steps, i, k, steps[k].id) && steps[k].id in run[k].tickets
    ensures Folds(run[k], steps[k]) <==> !Acked(steps, i, k)
  {
    var issued := IssuedAt(p, run, steps, k, steps[k].id);
    assert issued == i;
    AckedSeq(p, run, steps, i, k);
  }

  lemma {:induction false} AppliedAt(p: Profile, run: seq<Sys>, steps: seq<Step>, k: nat, id: nat) returns (i: nat)
    requires Path(p, run, steps) && k <= |steps| && id in run[k].applied
    ensures i < k && Issues(steps[i], id) && run[i].lib.unsureSeq == run[k].applied[id]
  {
    if k > 0 && id in run[k - 1].applied && run[k - 1].applied[id] == run[k].applied[id] {
      i := AppliedAt(p, run, steps, k - 1, id);
    } else {
      assert steps[k - 1].FoldPower? && steps[k - 1].id == id;
      i := IssuedAt(p, run, steps, k - 1, id);
    }
  }

  /** The library trusts `is_on` again only after an acked write over every zone, or with a read issued (at step `i`)
      after the last step that put it in doubt. */
  lemma DoubtCleared(p: Profile, run: seq<Sys>, steps: seq<Step>, k: nat) returns (i: nat)
    requires Path(p, run, steps) && k < |steps| && run[k].lib.unsure && !run[k + 1].lib.unsure
    ensures i <= k
    ensures (steps[k].Ack? && steps[k].w.zones.Some? && |steps[k].w.zones.value| == |p.zones|)
            || ((steps[k].FoldStatus? || steps[k].Finish?) && Issues(steps[i], steps[k].id)
                && forall m :: i <= m <= k ==> NoDoubt(p, run, steps, m, k))
  {
    i := k;
    if steps[k].FoldStatus? || steps[k].Finish? {
      var id := steps[k].id;
      CountersMove(p, run[k], steps[k]);
      if steps[k].FoldStatus? {
        i := IssuedAt(p, run, steps, k, id);
        StatusMoves(run[k].lib, steps[k].status, run[k].tickets[id], steps[k].now);
      } else {
        i := AppliedAt(p, run, steps, k, id);
      }
      Monotone(p, run, steps, i, k);
      forall m | i <= m <= k ensures NoDoubt(p, run, steps, m, k) {
        Still(p, run, steps, i, m, k);
        CountersMove(p, run[m], steps[m]);
        if m < k {
          Still(p, run, steps, i, m + 1, k);
        }
      }
    }
  }

  /** Step `m` puts nothing in doubt, and nothing did between it and step `k`. */
  ghost predicate NoDoubt(p: Profile, run: seq<Sys>, steps: seq<Step>, m: nat, k: nat)
    requires m <= k < |steps| < |run|
  {
    !Doubts(p, run[m], steps[m]) && run[m].lib.unsureSeq == run[k].lib.unsureSeq
  }
}

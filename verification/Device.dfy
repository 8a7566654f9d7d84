/** The Device object itself: its fields, updated in place by each commit and each read-back in the order
    devices/device.py and devices/_fold.py update them, proved to compute the specification in Library. */
module Devices {
  import opened Basics
  import opened Fold
  import opened Library

  /** The parts of an acked commit make the whole. */
  lemma CommitParts(p: Profile, l: Lib, w: Write, early: map<nat, bool>, now: real, r: Lib)
    requires var wake, zones := Wake(p, l, w, early), Entries(w.zones);
             var dropped := r.st.isOn != l.st.isOn || ((wake != map[] || AnyOn(zones)) && r.st.isOn != Some(true));
             var unsure := !AckSure(p, w) && zones != map[] && !AnyOn(zones)
                           && !(KnownOn(l) && OthersConfirmedLit(p, r.st, zones.Keys));
             && r.st == UnconfirmContradicted(ApplyEffect(p, l.st, w.effect, now), wake)
             && r.posted == PostZonePower(p, l.posted, w.frames, zones, wake, true)
             && r.unsure == (!AckSure(p, w) && (unsure || l.unsure)) && r.unsureSeq == l.unsureSeq + Count(unsure)
             && r.powerRead == (if unsure || dropped then None else l.powerRead)
             && r.drops == l.drops + Count(dropped) + Count(unsure) && r.seqNo == l.seqNo + 1
    ensures r == CommitAcked(p, l, w, early, now)
  {
  }

  class Device {
    const profile: Profile
    var isOn: Option<bool>
    var zonePower: map<nat, bool>
    var confirmed: map<nat, real>
    var posted: map<nat, set<bool>>
    var powerUnsure: bool
    var powerUnsureSeq: nat
    var powerRead: Option<(real, bool)>
    var powerReadDrops: nat
    var mutationSeq: nat

    ghost function Held(): State
      reads this
    {
      State(isOn, zonePower, confirmed)
    }

    ghost function View(): Lib
      reads this
    {
      Lib(Held(), posted, powerUnsure, powerUnsureSeq, powerRead, powerReadDrops, mutationSeq)
    }

    constructor (profile: Profile)
      ensures this.profile == profile && View() == FRESH
    {
      this.profile := profile;
      isOn, zonePower, confirmed, posted := None, map[], map[], map[];
      powerUnsure, powerUnsureSeq, powerRead, powerReadDrops, mutationSeq := false, 0, None, 0, 0;
    }

    // ---- The fold (devices/_fold.py) -------------------------------------------------------------------------

    method StampZones(power: map<nat, bool>, vouched: set<nat>, now: real)
      modifies `zonePower, `confirmed
      ensures Held() == SetZonePower(old(Held()), power, vouched, now)
    {
      var stamps := map i | i in confirmed && i in power && Get(zonePower, i) == Some(power[i]) :: confirmed[i];
      stamps := stamps + map i | i in vouched && i in power :: now;
      zonePower := power;
      confirmed := stamps;
    }

    method UnconfirmEach(zones: set<nat>)
      modifies `confirmed
      ensures Held() == UnconfirmZones(old(Held()), zones)
    {
      var gone := confirmed.Keys * zones;
      if gone != {} {
        confirmed := map i | i in confirmed && i !in gone :: confirmed[i];
      } else {
        assert forall i :: i in confirmed && i in zones ==> i in gone;
        assert confirmed - zones == confirmed;
      }
    }

    method UnconfirmEvery()
      modifies `confirmed
      ensures Held() == UnconfirmAll(old(Held()))
    {
      confirmed := map[];
    }

    method UnconfirmAgainst(power: map<nat, bool>)
      modifies `confirmed
      ensures Held() == UnconfirmContradicted(old(Held()), power)
    {
      UnconfirmEach(Contradicted(State(isOn, zonePower, confirmed), power));
    }

    method FoldPower(on: bool, vouched: set<nat>, now: real)
      modifies `isOn, `zonePower, `confirmed
      ensures Held() == ApplyPower(profile, old(Held()), on, vouched, now)
    {
      isOn := Some(on);
      if profile.barSwitch && on {
        StampZones(map[], {}, now);
      } else if profile.zones != {} {
        StampZones(AllTo(profile.zones, on), vouched, now);
      } else if profile.barSwitch {
        UnconfirmEvery();
      }
    }

    method FoldZonePower(power: map<nat, bool>, vouched: set<nat>, now: real)
      modifies `isOn, `zonePower, `confirmed
      ensures Held() == ApplyZonePower(profile, old(Held()), power, vouched, now)
    {
      StampZones(power, vouched, now);
      if profile.zones != {} && |power| == |profile.zones| {
        isOn := Some(AnyOn(power));
      }
    }

    method FoldStatus(st: Status, unsettled: set<nat>, now: real) returns (powerCame: bool)
      modifies `isOn, `zonePower, `confirmed
      ensures Held() == ApplyStatus(old(Held()), st, unsettled, now)
      ensures powerCame == st.isOn.Some?
    {
      powerCame := false;
      if st.isOn.Some? {
        isOn := st.isOn;
        powerCame := true;
      }
      if st.zonePower != map[] {
        var vouched := Vouched(st, unsettled);
        StampZones(st.zonePower, vouched, now);
        UnconfirmEach(st.zonePower.Keys - vouched);
      }
    }

    method FoldEffect(e: Effect, now: real)
      modifies `isOn, `zonePower, `confirmed
      ensures Held() == ApplyEffect(profile, old(Held()), e, now)
    {
      match e {
        case PowerTo(on) => FoldPower(on, profile.zones, now);
        case ZoneTo(i, on) => FoldZonePower(zonePower[i := on], {i}, now);
        case BarsTo(left, right) => FoldZonePower(map[0 := left, 1 := right], {0, 1}, now);
        case SceneOn =>
          FoldPower(true, {}, now);
          UnconfirmEvery();
        case NoPower =>
      }
    }

    // ---- The counters and postings (devices/device.py) -------------------------------------------------------

    method DropRead()
      modifies `powerRead, `powerReadDrops
      ensures powerRead == None && powerReadDrops == old(powerReadDrops) + 1
    {
      powerRead := None;
      powerReadDrops := powerReadDrops + 1;
    }

    method SetUnsure()
      modifies `powerUnsure, `powerUnsureSeq, `powerRead, `powerReadDrops
      ensures View() == SetPowerUnsure(old(View()))
    {
      powerUnsure := true;
      powerUnsureSeq := powerUnsureSeq + 1;
      DropRead();
    }

    method StampRead(since: nat, now: real)
      modifies `powerRead
      ensures View() == StampPowerRead(old(View()), since, now)
    {
      if since == powerReadDrops && isOn.Some? {
        powerRead := Some((now, isOn.value));
      }
    }

    /** One loop of the posting: each zone of `powers`, in any order. */
    method PostEach(powers: map<nat, bool>, acked: bool)
      modifies `posted
      ensures posted == PostZones(old(posted), powers, acked)
    {
      var todo := powers.Keys;
      while todo != {}
        invariant todo <= powers.Keys
        invariant forall i :: i in posted <==> i in old(posted) || (i in powers && i !in todo)
        invariant forall i :: i in posted ==>
                    posted[i] == if i in powers && i !in todo
                                 then PostZones(old(posted), powers, acked)[i] else old(posted)[i]
      {
        var i :| i in todo;
        posted := posted[i := if acked then {powers[i]} else PowersAt(posted, i) + {powers[i]}];
        todo := todo - {i};
      }
    }

    method Post(frames: seq<Frame>, zones: map<nat, bool>, wake: map<nat, bool>, acked: bool)
      modifies `posted
      ensures posted == PostZonePower(profile, old(posted), frames, zones, wake, acked)
    {
      if !profile.globalPower {
        return;
      }
      PostEach(zones, acked);
      if wake != map[] && HasBrightness(frames) {
        PostEach(wake, false);
      }
    }

    // ---- The end of a commit, and a status reply --------------------------------------------------------------

    /** The wake of a commit, once its frames went out: `early` is the one it worked out before it waited. */
    method WakeNow(w: Write, early: map<nat, bool>) returns (wake: map<nat, bool>)
      ensures wake == Wake(profile, View(), w, early)
    {
      var held := Lib(State(isOn, zonePower, confirmed), posted, powerUnsure, powerUnsureSeq, powerRead, powerReadDrops,
                      mutationSeq);
      wake := early + WakePower(profile, held, w.frames);
    }

    method UnconfirmRaised(w: Write, wake: map<nat, bool>)
      modifies `confirmed
      ensures Held() == UnconfirmContradicted(if w.fixture then UnconfirmAll(old(Held()))
                                              else UnconfirmZones(old(Held()), Entries(w.zones).Keys), wake)
    {
      if w.fixture {
        UnconfirmEvery();
      } else {
        UnconfirmEach(Entries(w.zones).Keys);
      }
      UnconfirmAgainst(wake);
    }

    /** The commit whose write raised; `early` is the wake it worked out before it waited for the link. */
    method EndRaised(w: Write, early: map<nat, bool>)
      modifies `confirmed, `posted, `powerUnsure, `powerUnsureSeq, `powerRead, `powerReadDrops
      ensures View() == CommitRaised(profile, old(View()), w, early)
    {
      ghost var l := View();
      var zones := Entries(w.zones);
      var wake := WakeNow(w, early);
      UnconfirmRaised(w, wake);
      Post(w.frames, zones, wake, false);
      if zones != map[] && !AnyOn(zones) {
        SetUnsure();
      }
      assert isOn == l.st.isOn && powerReadDrops == l.drops + Count(RaiseUnsure(w));
      if w.fixture || w.zones.Some? || (wake != map[] && isOn != Some(true)) {
        DropRead();
      }
      assert powerReadDrops == l.drops + Count(RaiseUnsure(w)) + Count(RaiseDrops(profile, l, w, early));
    }

    /** The state of an acked commit, and whether what `power_read_at` stands for was dropped with it. */
    method FoldAcked(w: Write, wake: map<nat, bool>, now: real)
      modifies `isOn, `zonePower, `confirmed, `powerRead, `powerReadDrops
      ensures Held() == UnconfirmContradicted(ApplyEffect(profile, old(Held()), w.effect, now), wake)
      ensures var dropped := isOn != old(isOn) || ((wake != map[] || AnyOn(Entries(w.zones))) && isOn != Some(true));
              && powerRead == (if dropped then None else old(powerRead))
              && powerReadDrops == old(powerReadDrops) + Count(dropped)
    {
      var wasOn := isOn;
      FoldEffect(w.effect, now);
      UnconfirmAgainst(wake);
      var lights := wake != map[] || AnyOn(Entries(w.zones));
      if isOn != wasOn || (lights && isOn != Some(true)) {
        DropRead();
      }
    }

    /** What an acked power write leaves known of the on/off. */
    method TrustAcked(w: Write, knownOn: bool)
      modifies `powerUnsure, `powerUnsureSeq, `powerRead, `powerReadDrops
      ensures var zones := Entries(w.zones);
              var unsure := !AckSure(profile, w) && zones != map[] && !AnyOn(zones)
                            && !(knownOn && OthersConfirmedLit(profile, Held(), zones.Keys));
              && powerUnsure == (!AckSure(profile, w) && (unsure || old(powerUnsure)))
              && powerUnsureSeq == old(powerUnsureSeq) + Count(unsure)
              && powerRead == (if unsure then None else old(powerRead))
              && powerReadDrops == old(powerReadDrops) + Count(unsure)
    {
      var zones := Entries(w.zones);
      if w.zones.Some? && |zones| == |profile.zones| {
        powerUnsure := false;
      } else if zones != map[] && !AnyOn(zones)
                && !(knownOn && OthersConfirmedLit(profile, State(isOn, zonePower, confirmed), zones.Keys)) {
        SetUnsure();
      }
    }

    /** The commit whose write was acked. */
    method EndAcked(w: Write, early: map<nat, bool>, now: real)
      modifies this
      ensures View() == CommitAcked(profile, old(View()), w, early, now)
    {
      ghost var l := View();
      var wake := WakeNow(w, early);
      var knownOn := isOn == Some(true) && !powerUnsure;
      mutationSeq := mutationSeq + 1;
      FoldAcked(w, wake, now);
      Post(w.frames, Entries(w.zones), wake, true);
      TrustAcked(w, knownOn);
      CommitParts(profile, l, w, early, now, View());
    }

    /** A status reply whose read was issued at the given counters: folded in, unless a setter applied state since. */
    method EndStatusRead(st: Status, seqNo: nat, since: nat, drops: nat, now: real) returns (applied: bool)
      modifies this
      ensures applied == (seqNo == old(mutationSeq))
      ensures View() == if applied then StatusRead(old(View()), st, since, drops, now) else old(View())
    {
      if seqNo != mutationSeq {
        return false;
      }
      applied := true;
      var unsettled := Unsettled(posted, st);
      var powerCame := FoldStatus(st, unsettled, now);
      if powerCame {
        StampRead(drops, now);
        if exists i :: i in posted && (i !in st.zonePower || i in unsettled) {
          SetUnsure();
        }
      }
      posted := posted - st.zonePower.Keys;
      FinishPoll(powerCame, since);
    }

    /** A polled reply that gives the on/off (aa 01, aa 34, aa 36 or a plug's relay), unless it is stale. */
    method EndPowerRead(reply: PowerReply, seqNo: nat, drops: nat, now: real) returns (applied: bool)
      modifies `isOn, `zonePower, `confirmed, `powerRead
      ensures applied == (seqNo == old(mutationSeq))
      ensures View() == if applied then PowerFolded(profile, old(View()), reply, drops, now) else old(View())
    {
      applied := seqNo == mutationSeq;
      if !applied {
        return;
      }
      match reply {
        case Switched(on) =>
          isOn := Some(on);
          StampRead(drops, now);
          if profile.barSwitch && on != AnyOn(zonePower) {
            UnconfirmAgainst(AllTo(zonePower.Keys, on));
          }
        case BothRead(left, right) =>
          StampZones(map[0 := left, 1 := right], {0, 1}, now);
          isOn := Some(left || right);
          StampRead(drops, now);
      }
    }

    /** The end of a poll whose power read was applied; it was issued at `since`. */
    method FinishPoll(powerCame: bool, since: nat)
      modifies `powerUnsure
      ensures View() == FinishRead(old(View()), powerCame, since)
    {
      if powerCame && since == powerUnsureSeq {
        powerUnsure := false;
      }
    }
  }
}

/** H60A6: the invariant behind the `zone_power_confirmed` stamps, and why each write, failed write and status
    reply keeps it. FixtureRuns puts the steps together. */
module FixtureStamps {
  import opened Basics
  import opened Fold
  import opened Library
  import opened FixtureFirmware

  /** The writes the library sends an H60A6, one constructor per kind of setter. */
  datatype Setter =
    | TurnOn(rest: seq<Frame>)
    | TurnOff
    | SetZonePower(zone: nat, on: bool)
    | Adjust(frames: seq<Frame>)
    | ActivateScene

  function ProfileOf(zones: set<nat>): Profile {
    Profile(zones, true, false)
  }

  /** A frame of a brightness, colour or settings write. */
  predicate Plain(f: Frame) {
    f.Brightness? || f.Neutral? || (f.Mode? && !f.kind.Scene?)
  }

  predicate ValidSetter(zones: set<nat>, w: Setter) {
    match w
    case TurnOn(rest) => forall k :: 0 <= k < |rest| ==> Plain(rest[k])
    case Adjust(frames) => forall k :: 0 <= k < |frames| ==> Plain(frames[k])
    case SetZonePower(i, _) => i in zones
    case _ => true
  }

  function WriteOf(zones: set<nat>, w: Setter): Write {
    match w
    case TurnOn(rest) => Write([Switch(true)] + rest, Some(AllTo(zones, true)), true, PowerTo(true))
    case TurnOff => Write([Switch(false)], Some(AllTo(zones, false)), true, PowerTo(false))
    case SetZonePower(i, on) => Write([ZoneSwitch(i, on)], Some(map[i := on]), false, ZoneTo(i, on))
    case Adjust(frames) => Write(frames, None, false, NoPower)
    case ActivateScene => Write([Mode(Scene)], None, true, SceneOn)
  }

  /** The wakes a commit may have worked out when it started to wait for the link. */
  predicate EarlyWake(zones: set<nat>, w: Setter, early: map<nat, bool>) {
    early == map[] || (early == AllTo(zones, true) && exists k :: 0 <= k < |WriteOf(zones, w).frames|
                                                                  && Wakes(WriteOf(zones, w).frames[k]))
  }

  /** Every stamped zone ends at the power the library holds for it. */
  ghost predicate Sound(zones: set<nat>, l: Lib, d: Dev) {
    forall i :: i in l.st.confirmed ==>
      i in l.st.zonePower && (i in Drain(zones, d.flags, d.queue).lit <==> l.st.zonePower[i])
  }

  /** Each queued power for a zone is one the library remembers posting. */
  ghost predicate PostedCovers(zones: set<nat>, l: Lib, q: seq<Msg>) {
    forall i :: i in zones && Last(q, i).Some? ==> Last(q, i).value in PowersAt(l.posted, i)
  }

  ghost predicate PostedSome(posted: map<nat, set<bool>>) {
    forall i :: i in posted ==> true in posted[i] || false in posted[i]
  }

  ghost predicate LitHolds(zones: set<nat>, l: Lib, d: Dev) {
    forall i :: i in l.st.confirmed && i in l.st.zonePower && l.st.zonePower[i] && true !in PowersAt(l.posted, i) ==>
      LitStable(zones, d.flags, d.queue, i)
  }

  ghost predicate OnHolds(zones: set<nat>, l: Lib, d: Dev) {
    KnownOn(l) && !PostedOn(l.posted) ==> MainStable(zones, d.flags, d.queue)
  }

  ghost predicate Inv(zones: set<nat>, l: Lib, d: Dev) {
    && zones != {}
    && l.st.confirmed.Keys <= zones && l.st.zonePower.Keys <= zones
    && WellFormed(zones, d.flags, d.queue)
    && l.posted.Keys <= zones && PostedSome(l.posted)
    && PostedCovers(zones, l, d.queue)
    && Sound(zones, l, d)
    && LitHolds(zones, l, d)
    && OnHolds(zones, l, d)
  }

  /** The write's own zones are settled at the power it gives them. */
  ghost predicate SettlesAt(zones: set<nat>, d: Dev, i: nat, on: bool) {
    && Last(d.queue, i) in {None, Some(on)}
    && (i in Drain(zones, d.flags, d.queue).lit <==> on)
  }

  ghost predicate Settles(zones: set<nat>, l: Lib, d: Dev, w: Setter) {
    match w
    case TurnOn(_) => forall i :: i in zones ==> SettlesAt(zones, d, i, true)
    case TurnOff => forall i :: i in zones ==> SettlesAt(zones, d, i, false)
    case SetZonePower(i, on) => SettlesAt(zones, d, i, on)
    case ActivateScene => (l.posted == map[] ==> d.flags.main) && (d.flags.main <==> d.flags.lit != {})
    case Adjust(_) => true
  }

  /** A scene acked ahead of a queued power-off: the library takes the fixture for on and no write for a wake,
      and the queue will darken it. */
  ghost predicate OffOvertaken(zones: set<nat>, l: Lib, d: Dev) {
    KnownOn(l) && !PostedOn(l.posted) && !MainStable(zones, d.flags, d.queue)
  }

  ghost predicate Held(zones: set<nat>, l: Lib) {
    l.st.confirmed.Keys <= l.st.zonePower.Keys <= zones && l.posted.Keys <= zones && PostedSome(l.posted)
  }

  lemma PopKeeps(zones: set<nat>, l: Lib, d: Dev)
    requires Inv(zones, l, d) && d.queue != []
    ensures Inv(zones, l, Dev(Apply(zones, d.flags, d.queue[0]), d.queue[1..]))
  {
    StablePop(zones, d.flags, d.queue);
    forall i | i in zones ensures Last(d.queue[1..], i).Some? ==> Last(d.queue, i) == Last(d.queue[1..], i) {
      LastConcat([d.queue[0]], d.queue[1..], i);
      assert [d.queue[0]] + d.queue[1..] == d.queue;
    }
  }

  /** `r` is `l` with stamps forgotten, powers posted and trust lost. */
  ghost predicate Doubted(zones: set<nat>, l: Lib, r: Lib) {
    && r.st.isOn == l.st.isOn && r.st.zonePower == l.st.zonePower && (l.unsure ==> r.unsure)
    && (forall i :: i in r.st.confirmed ==> i in l.st.confirmed)
    && r.posted.Keys <= zones && PostedSome(r.posted)
    && forall i :: i in l.posted ==> i in r.posted && l.posted[i] <= r.posted[i]
  }

  lemma RaiseKeeps(zones: set<nat>, l: Lib, w: Setter, early: map<nat, bool>, d: Dev, r: Lib)
    requires Inv(zones, l, d) && ValidSetter(zones, w) && EarlyWake(zones, w, early)
    requires r == CommitRaised(ProfileOf(zones), l, WriteOf(zones, w), early)
    ensures Inv(zones, r, d)
  {
    RaiseDoubts(zones, l, w, early, r);
    Weaker(zones, l, r, d);
  }

  /** A raised write forgets stamps, posts its powers and trusts no more than before. */
  lemma RaiseDoubts(zones: set<nat>, l: Lib, w: Setter, early: map<nat, bool>, r: Lib)
    requires l.posted.Keys <= zones && PostedSome(l.posted) && ValidSetter(zones, w) && EarlyWake(zones, w, early)
    requires r == CommitRaised(ProfileOf(zones), l, WriteOf(zones, w), early)
    ensures Doubted(zones, l, r)
  {
    RaisedPosts(zones, l, w, early);
  }

  /** A write in flight is left in no less doubt, should it raise, where the library doubts more. */
  lemma RaiseDoubtsMore(zones: set<nat>, l: Lib, m: Lib, w: Setter, early: map<nat, bool>)
    requires Doubted(zones, l, m) && ValidSetter(zones, w) && EarlyWake(zones, w, early)
    ensures var p, write := ProfileOf(zones), WriteOf(zones, w);
            Doubted(zones, CommitRaised(p, l, write, early), CommitRaised(p, m, write, early))
  {
    RaisedPosts(zones, m, w, early);
    RaisePostsMore(zones, l, m, w, early);
    RaiseStampsLess(zones, l, m, w, early);
  }

  lemma RaiseStampsLess(zones: set<nat>, l: Lib, m: Lib, w: Setter, early: map<nat, bool>)
    requires Doubted(zones, l, m) && EarlyWake(zones, w, early)
    ensures var p, write := ProfileOf(zones), WriteOf(zones, w);
            var r, r' := RaisedState(p, l, write, early), RaisedState(p, m, write, early);
            r'.isOn == r.isOn && r'.zonePower == r.zonePower && forall i :: i in r'.confirmed ==> i in r.confirmed
  {
    WakeMore(zones, l, m, w, early);
  }

  lemma RaisePostsMore(zones: set<nat>, l: Lib, m: Lib, w: Setter, early: map<nat, bool>)
    requires Doubted(zones, l, m) && EarlyWake(zones, w, early)
    ensures var p, write := ProfileOf(zones), WriteOf(zones, w);
            var posted, posted' := CommitRaised(p, l, write, early).posted, CommitRaised(p, m, write, early).posted;
            forall i :: i in posted ==> i in posted' && posted[i] <= posted'[i]
  {
    var p, write := ProfileOf(zones), WriteOf(zones, w);
    WakeMore(zones, l, m, w, early);
    PostPowerMore(p, l.posted, m.posted, write.frames, Entries(write.zones), Wake(p, l, write, early),
                  Wake(p, m, write, early));
  }

  lemma PostPowerMore(p: Profile, a: map<nat, set<bool>>, b: map<nat, set<bool>>, frames: seq<Frame>,
                      power: map<nat, bool>, wake: map<nat, bool>, more: map<nat, bool>)
    requires forall i :: i in a ==> i in b && a[i] <= b[i]
    requires forall i :: i in wake ==> i in more && wake[i] == more[i]
    ensures var posted, posted' := PostZonePower(p, a, frames, power, wake, false),
                                   PostZonePower(p, b, frames, power, more, false);
            forall i :: i in posted ==> i in posted' && posted[i] <= posted'[i]
  {
    PostsMore(a, b, power, power);
    PostsMore(PostZones(a, power, false), PostZones(b, power, false), wake, more);
  }

  lemma WakeMore(zones: set<nat>, l: Lib, m: Lib, w: Setter, early: map<nat, bool>)
    requires Doubted(zones, l, m) && EarlyWake(zones, w, early)
    ensures var p, write := ProfileOf(zones), WriteOf(zones, w);
            var wake, more := Wake(p, l, write, early), Wake(p, m, write, early);
            forall i :: i in wake ==> i in more && wake[i] == more[i]
  {
    if PostedOn(l.posted) {
      var i :| i in l.posted && true in l.posted[i];
      assert true in m.posted[i];
    }
  }

  lemma PostsMore(a: map<nat, set<bool>>, b: map<nat, set<bool>>, powers: map<nat, bool>, more: map<nat, bool>)
    requires forall i :: i in a ==> i in b && a[i] <= b[i]
    requires forall i :: i in powers ==> i in more && powers[i] == more[i]
    ensures var posted, posted' := PostZones(a, powers, false), PostZones(b, more, false);
            forall i :: i in posted ==> i in posted' && posted[i] <= posted'[i]
  {
  }

  /** What is in doubt settles no more zones: a reply still tells what the doubted library would take from it. */
  lemma DoubtFaithful(zones: set<nat>, l: Lib, m: Lib, r: Status, d: Flags)
    requires Doubted(zones, l, m) && PostedSome(l.posted) && Faithful(zones, l, r, d)
    ensures Faithful(zones, m, r, d)
  {
    assert forall i :: i in Unsettled(l.posted, r) ==> i in Unsettled(m.posted, r);
  }

  lemma RaisedPosts(zones: set<nat>, l: Lib, w: Setter, early: map<nat, bool>)
    requires ValidSetter(zones, w) && EarlyWake(zones, w, early)
    ensures var posted := CommitRaised(ProfileOf(zones), l, WriteOf(zones, w), early).posted;
            Grows(zones, l.posted, posted)
  {
    var p, write := ProfileOf(zones), WriteOf(zones, w);
    var power, wake := Entries(write.zones), Wake(p, l, write, early);
    assert power.Keys <= zones && wake.Keys <= zones;
    PostsGrow(zones, l.posted, power);
    PostsGrow(zones, PostZones(l.posted, power, false), wake);
  }

  ghost predicate Grows(zones: set<nat>, posted: map<nat, set<bool>>, posted': map<nat, set<bool>>) {
    && (forall i :: i in posted ==> i in posted' && posted[i] <= posted'[i])
    && (posted.Keys <= zones ==> posted'.Keys <= zones)
    && (PostedSome(posted) ==> PostedSome(posted'))
  }

  lemma PostsGrow(zones: set<nat>, posted: map<nat, set<bool>>, powers: map<nat, bool>)
    requires powers.Keys <= zones
    ensures Grows(zones, posted, PostZones(posted, powers, false))
  {
    var posted' := PostZones(posted, powers, false);
    forall i | i in powers ensures true in posted'[i] || false in posted'[i] {
      var on: bool := powers[i];
      assert on in posted'[i];
      if on {
        assert true in posted'[i];
      } else {
        assert false in posted'[i];
      }
    }
  }

  /** Forgetting stamps, posting more powers and losing trust never breaks the invariant. */
  lemma Weaker(zones: set<nat>, l: Lib, r: Lib, d: Dev)
    requires Inv(zones, l, d) && Doubted(zones, l, r)
    ensures Inv(zones, r, d)
  {
  }

  /** A queued power the library has posted keeps the invariant where no stamp and no trust rests on another. */
  lemma AppendKeeps(zones: set<nat>, l: Lib, d: Dev, m: Msg)
    requires Inv(zones, l, d) && (m.SetZone? ==> m.zone in zones)
    requires forall i :: i in zones && Touches(m, i) ==> m.on in PowersAt(l.posted, i)
    requires forall i :: i in l.st.confirmed && Touches(m, i) ==> l.st.zonePower[i] == m.on
    requires m.on || (m.SetZone? && m.zone !in l.st.confirmed) || l.st.confirmed == map[]
    requires PostedOn(l.posted) || !KnownOn(l)
    ensures Inv(zones, l, d.(queue := d.queue + [m]))
  {
    var q := d.queue + [m];
    StableAppend(zones, d.flags, d.queue, m);
    StableNow(zones, d.flags, d.queue);
    forall i ensures Last(q, i) == if Touches(m, i) then Some(m.on) else Last(d.queue, i) {
      assert q[..|q| - 1] == d.queue;
    }
  }

  lemma LightKeeps(zones: set<nat>, l: Lib, d: Dev)
    requires Inv(zones, l, d) && !d.flags.main
    requires forall i :: i in l.st.confirmed ==> l.st.zonePower[i]
    ensures Inv(zones, l, d.(flags := Flags(true, zones)))
  {
    var f := Flags(true, zones);
    StableNow(zones, d.flags, d.queue);
    forall i | i in l.st.confirmed
      ensures i in Drain(zones, f, d.queue).lit
    {
      DrainLit(zones, d.flags, d.queue, i);
      DrainLit(zones, f, d.queue, i);
    }
  }

  /** What a raised power write leaves in doubt: no stamp on its zones, its powers posted, and no trust in the
      on/off that a wake could contradict. */
  lemma RaisedPower(zones: set<nat>, l: Lib, w: Setter, early: map<nat, bool>)
    requires zones != {} && ValidSetter(zones, w) && !w.Adjust? && !w.ActivateScene?
    ensures var r, power := CommitRaised(ProfileOf(zones), l, WriteOf(zones, w), early), WriteOf(zones, w).zones.value;
            && r.st.confirmed.Keys !! power.Keys
            && (forall i :: i in power ==> power[i] in PowersAt(r.posted, i))
            && (PostedOn(r.posted) || !KnownOn(r))
  {
    var r, power := CommitRaised(ProfileOf(zones), l, WriteOf(zones, w), early), WriteOf(zones, w).zones.value;
    var any :| any in zones;
    var key := if w.SetZonePower? then w.zone else any;
    assert key in power && power[key] in PowersAt(r.posted, key);
    assert !power[key] ==> !AnyOn(power);
  }

  /** Dispatching a frame of a write keeps the invariant of the library as it stands if that write raises. */
  lemma DispatchKeeps(zones: set<nat>, l: Lib, w: Setter, early: map<nat, bool>, d: Dev, frame: Frame)
    requires ValidSetter(zones, w) && EarlyWake(zones, w, early)
    requires frame in WriteOf(zones, w).frames
    requires Inv(zones, CommitRaised(ProfileOf(zones), l, WriteOf(zones, w), early), d)
    ensures Inv(zones, CommitRaised(ProfileOf(zones), l, WriteOf(zones, w), early), Dispatched(zones, d, frame))
  {
    var r := CommitRaised(ProfileOf(zones), l, WriteOf(zones, w), early);
    match frame {
      case Switch(on) =>
        RaisedPower(zones, l, w, early);
        assert WriteOf(zones, w).zones.value == AllTo(zones, on);
        KeepsSwitch(zones, r, d, SetTurn(on));
      case ZoneSwitch(i, on) =>
        RaisedPower(zones, l, w, early);
        assert WriteOf(zones, w).zones.value == map[i := on];
        KeepsSwitch(zones, r, d, SetZone(i, on));
      case _ => FrameKeeps(zones, l, w, early, d, frame);
    }
  }

  /** A frame that is no power write changes the fixture only where it wakes it. */
  lemma FrameKeeps(zones: set<nat>, l: Lib, w: Setter, early: map<nat, bool>, d: Dev, frame: Frame)
    requires ValidSetter(zones, w) && EarlyWake(zones, w, early)
    requires frame in WriteOf(zones, w).frames && !frame.Switch? && !frame.ZoneSwitch?
    requires Inv(zones, CommitRaised(ProfileOf(zones), l, WriteOf(zones, w), early), d)
    ensures Inv(zones, CommitRaised(ProfileOf(zones), l, WriteOf(zones, w), early), Dispatched(zones, d, frame))
  {
    var r := CommitRaised(ProfileOf(zones), l, WriteOf(zones, w), early);
    if frame.Brightness? && !d.flags.main {
      InDoubtWake(zones, l, w, early, d, frame);
      KeepsWake(zones, r, d);
    } else if frame.Mode? && !frame.kind.QuietMusic? && !d.flags.main {
      InDoubtWake(zones, l, w, early, d, frame);
      LightKeeps(zones, r, d);
    }
  }

  lemma KeepsSwitch(zones: set<nat>, r: Lib, d: Dev, m: Msg)
    requires Inv(zones, r, d) && (m.SetZone? ==> m.zone in zones)
    requires forall i :: i in zones && Touches(m, i) ==> i !in r.st.confirmed && m.on in PowersAt(r.posted, i)
    requires PostedOn(r.posted) || !KnownOn(r)
    ensures Inv(zones, r, d.(queue := d.queue + [m]))
  {
    assert m.SetTurn? ==> r.st.confirmed.Keys == {};
    AppendKeeps(zones, r, d, m);
  }

  lemma KeepsWake(zones: set<nat>, r: Lib, d: Dev)
    requires Inv(zones, r, d)
    requires forall i :: i in r.st.confirmed ==> r.st.zonePower[i]
    requires forall i :: i in zones ==> true in PowersAt(r.posted, i)
    ensures Inv(zones, r, d.(queue := d.queue + [SetTurn(true)]))
  {
    var any :| any in zones;
    assert true in r.posted[any];
    AppendKeeps(zones, r, d, SetTurn(true));
  }

  /** A frame that finds the fixture dark is one the library counts as a wake, unless it has dropped every stamp
      and posted every zone on anyway. */
  lemma InDoubtWake(zones: set<nat>, l: Lib, w: Setter, early: map<nat, bool>, d: Dev, frame: Frame)
    requires ValidSetter(zones, w) && EarlyWake(zones, w, early)
    requires Wakes(frame) && frame in WriteOf(zones, w).frames && !d.flags.main
    requires Inv(zones, CommitRaised(ProfileOf(zones), l, WriteOf(zones, w), early), d)
    ensures var r := CommitRaised(ProfileOf(zones), l, WriteOf(zones, w), early);
            && (forall i :: i in r.st.confirmed ==> r.st.zonePower[i])
            && (frame.Brightness? ==> forall i :: i in zones ==> true in PowersAt(r.posted, i))
  {
    if w.Adjust? {
      AdjustInDoubt(zones, l, w, early, d, frame);
    } else if w.TurnOn? {
      RaisedPower(zones, l, w, early);
    }
  }

  lemma AdjustInDoubt(zones: set<nat>, l: Lib, w: Setter, early: map<nat, bool>, d: Dev, frame: Frame)
    requires w.Adjust? && ValidSetter(zones, w) && EarlyWake(zones, w, early)
    requires Wakes(frame) && frame in WriteOf(zones, w).frames && !d.flags.main
    requires Inv(zones, CommitRaised(ProfileOf(zones), l, WriteOf(zones, w), early), d)
    ensures var r := CommitRaised(ProfileOf(zones), l, WriteOf(zones, w), early);
            && (forall i :: i in r.st.confirmed ==> r.st.zonePower[i])
            && (frame.Brightness? ==> forall i :: i in zones ==> true in PowersAt(r.posted, i))
  {
    var k :| 0 <= k < |WriteOf(zones, w).frames| && WriteOf(zones, w).frames[k] == frame;
    if Wake(ProfileOf(zones), l, WriteOf(zones, w), early) == AllTo(zones, true) {
      AdjustWakes(zones, l, w, early, frame);
    } else {
      NotOnDark(zones, l, w, early, d, frame);
    }
  }

  /** A write counted as a wake leaves no stamp of "off", and posts every zone on if it sets the brightness. */
  lemma AdjustWakes(zones: set<nat>, l: Lib, w: Setter, early: map<nat, bool>, frame: Frame)
    requires w.Adjust? && frame in w.frames && zones != {} && l.st.confirmed.Keys <= zones
    requires Wake(ProfileOf(zones), l, WriteOf(zones, w), early) == AllTo(zones, true)
    ensures var r := CommitRaised(ProfileOf(zones), l, WriteOf(zones, w), early);
            && (forall i :: i in r.st.confirmed ==> Get(r.st.zonePower, i) == Some(true))
            && (frame.Brightness? ==> forall i :: i in zones ==> true in PowersAt(r.posted, i))
  {
    var any :| any in zones;
    assert any in AllTo(zones, true);
  }

  /** A brightness or colour write not counted as a wake goes to a fixture whose main flag is on. */
  lemma NotOnDark(zones: set<nat>, l: Lib, w: Setter, early: map<nat, bool>, d: Dev, frame: Frame)
    requires w.Adjust? && EarlyWake(zones, w, early) && Wakes(frame) && frame in w.frames
    requires Wake(ProfileOf(zones), l, WriteOf(zones, w), early) != AllTo(zones, true)
    requires Inv(zones, CommitRaised(ProfileOf(zones), l, WriteOf(zones, w), early), d)
    ensures d.flags.main
  {
    StableNow(zones, d.flags, d.queue);
    var k :| 0 <= k < |w.frames| && w.frames[k] == frame;
    var any :| any in zones;
    assert any in AllTo(zones, true);
    assert KnownOn(l) && !PostedOn(l.posted);
  }

  lemma PopSettles(zones: set<nat>, l: Lib, d: Dev, w: Setter)
    requires d.queue != [] && Settles(zones, l, d, w) && WellFormed(zones, d.flags, d.queue) && ValidSetter(zones, w)
    requires zones != {} && PostedCovers(zones, l, d.queue)
    ensures Settles(zones, l, Dev(Apply(zones, d.flags, d.queue[0]), d.queue[1..]), w)
  {
    StablePop(zones, d.flags, d.queue);
    forall i ensures Last(d.queue[1..], i) in {None, Last(d.queue, i)} {
      LastConcat([d.queue[0]], d.queue[1..], i);
      assert [d.queue[0]] + d.queue[1..] == d.queue;
    }
    if w.ActivateScene? && l.posted == map[] {
      PostedEmpty(zones, l, d.queue);
    }
  }

  lemma PostedEmpty(zones: set<nat>, l: Lib, q: seq<Msg>)
    requires l.posted == map[] && PostedCovers(zones, l, q) && q != []
    requires q[|q| - 1].SetZone? ==> q[|q| - 1].zone in zones
    ensures zones == {}
  {
    if i :| i in zones {
      var m := q[|q| - 1];
      assert Last(q, if m.SetZone? then m.zone else i) == Some(m.on);
    }
  }

  /** A further frame of a write leaves its own zones settled. */
  lemma DispatchSettles(zones: set<nat>, l: Lib, d: Dev, w: Setter, k: nat)
    requires ValidSetter(zones, w) && k < |WriteOf(zones, w).frames|
    requires k > 0 ==> Settles(zones, l, d, w)
    requires zones != {} && WellFormed(zones, d.flags, d.queue) && PostedCovers(zones, l, d.queue)
    ensures Settles(zones, l, Dispatched(zones, d, WriteOf(zones, w).frames[k]), w)
  {
    var frame := WriteOf(zones, w).frames[k];
    match frame {
      case Switch(on) => AppendSettles(zones, d, SetTurn(on));
      case ZoneSwitch(i, on) => AppendSettles(zones, d, SetZone(i, on));
      case _ => FrameSettles(zones, l, d, w, k);
    }
  }

  /** A frame that is no power write: only its wake could touch the zones, and a wake lights them. */
  lemma FrameSettles(zones: set<nat>, l: Lib, d: Dev, w: Setter, k: nat)
    requires ValidSetter(zones, w) && k < |WriteOf(zones, w).frames|
    requires var frame := WriteOf(zones, w).frames[k]; !frame.Switch? && !frame.ZoneSwitch?
    requires k > 0 ==> Settles(zones, l, d, w)
    requires zones != {} && WellFormed(zones, d.flags, d.queue) && PostedCovers(zones, l, d.queue)
    ensures Settles(zones, l, Dispatched(zones, d, WriteOf(zones, w).frames[k]), w)
  {
    var frame := WriteOf(zones, w).frames[k];
    if w.TurnOn? && !d.flags.main {
      if frame.Brightness? {
        AppendSettles(zones, d, SetTurn(true));
      } else if frame.Mode? && !frame.kind.QuietMusic? {
        LightSettles(zones, d);
      }
    }
  }

  lemma AppendSettles(zones: set<nat>, d: Dev, m: Msg)
    ensures forall i :: i in zones && Touches(m, i) ==> SettlesAt(zones, d.(queue := d.queue + [m]), i, m.on)
  {
    var q := d.queue + [m];
    assert q[..|q| - 1] == d.queue;
    StableAppend(zones, d.flags, d.queue, m);
  }

  lemma LightSettles(zones: set<nat>, d: Dev)
    requires forall i :: i in zones ==> SettlesAt(zones, d, i, true)
    ensures forall i :: i in zones ==> SettlesAt(zones, d.(flags := Flags(true, zones)), i, true)
  {
    forall i | i in zones ensures SettlesAt(zones, d.(flags := Flags(true, zones)), i, true) {
      assert SettlesAt(zones, d, i, true);
      DrainLit(zones, Flags(true, zones), d.queue, i);
    }
  }

  /** A write without a 33 04 or 33 05 wakes nothing. */
  lemma NoWake(zones: set<nat>, l: Lib, w: Setter, early: map<nat, bool>)
    requires EarlyWake(zones, w, early)
             && forall k :: 0 <= k < |WriteOf(zones, w).frames| ==> !Wakes(WriteOf(zones, w).frames[k])
    ensures Wake(ProfileOf(zones), l, WriteOf(zones, w), early) == map[]
  {
  }

  lemma AckedZone(zones: set<nat>, l: Lib, z: nat, on: bool, now: real)
    ensures var a := CommitAcked(ProfileOf(zones), l, WriteOf(zones, SetZonePower(z, on)), map[], now);
            && a.st.zonePower == l.st.zonePower[z := on]
            && (zones == {z} && l.st.zonePower.Keys <= zones ==> a.st.isOn == Some(on))
            && (forall i :: i in a.st.confirmed <==> i == z || (i in l.st.confirmed && i in l.st.zonePower))
            && a.posted == PostZones(l.posted, map[z := on], true)
  {
    var p, w := ProfileOf(zones), WriteOf(zones, SetZonePower(z, on));
    NoWake(zones, l, SetZonePower(z, on), map[]);
    var st := ApplyZonePower(p, l.st, l.st.zonePower[z := on], {z}, now);
    NothingContradicted(st);
    ZoneWriteCarries(p, l.st, z, on, now);
    assert AckedState(p, l, w, map[], now) == st;
    if zones == {z} && l.st.zonePower.Keys <= zones {
      OnlyZoneWrite(p, l.st, z, on, now);
    }
  }

  lemma RaisedZone(zones: set<nat>, l: Lib, z: nat, on: bool)
    ensures var r := CommitRaised(ProfileOf(zones), l, WriteOf(zones, SetZonePower(z, on)), map[]);
            && r.st.zonePower == l.st.zonePower
            && (forall i :: i in r.st.confirmed <==> i != z && i in l.st.confirmed)
            && r.posted == PostZones(l.posted, map[z := on], false)
  {
    NoWake(zones, l, SetZonePower(z, on), map[]);
  }

  lemma AckedTurn(zones: set<nat>, l: Lib, w: Setter, on: bool, early: map<nat, bool>, now: real)
    requires zones != {} && if on then w.TurnOn? else w.TurnOff?
    ensures var a := CommitAcked(ProfileOf(zones), l, WriteOf(zones, w), early, now);
            a.st.zonePower == AllTo(zones, on) && a.st.isOn == Some(on) && a.st.confirmed.Keys <= zones
  {
    var st := ApplyEffect(ProfileOf(zones), l.st, WriteOf(zones, w).effect, now);
    assert st.zonePower == AllTo(zones, on) && st.confirmed.Keys <= zones;
  }

  ghost predicate AllPosted(zones: set<nat>, posted: map<nat, set<bool>>, on: bool) {
    (forall i :: i in posted <==> i in zones) && forall i :: i in posted ==> posted[i] == {on}
  }

  lemma AckedTurnPosts(zones: set<nat>, l: Lib, w: Setter, on: bool, early: map<nat, bool>, now: real)
    requires EarlyWake(zones, w, early) && if on then w.TurnOn? else w.TurnOff?
    requires l.posted.Keys <= zones
    ensures AllPosted(zones, CommitAcked(ProfileOf(zones), l, WriteOf(zones, w), early, now).posted, on)
  {
    var wake := Wake(ProfileOf(zones), l, WriteOf(zones, w), early);
    if !on {
      NoWake(zones, l, w, early);
    }
    PostAll(zones, l.posted, wake, on);
  }

  lemma PostAll(zones: set<nat>, posted: map<nat, set<bool>>, wake: map<nat, bool>, on: bool)
    requires posted.Keys <= zones && wake.Keys <= zones && forall i :: i in wake ==> wake[i] == on
    ensures AllPosted(zones, PostZones(posted, AllTo(zones, on), true), on)
    ensures AllPosted(zones, PostZones(PostZones(posted, AllTo(zones, on), true), wake, false), on)
  {
  }

  /** An acked 33 01 leaves every zone stamped at its power and nothing else posted. */
  lemma AckTurn(zones: set<nat>, l: Lib, w: Setter, on: bool, early: map<nat, bool>, now: real, d: Dev, r: Lib, a: Lib)
    requires Inv(zones, r, d) && Settles(zones, r, d, w) && Held(zones, l) && EarlyWake(zones, w, early)
    requires if on then w.TurnOn? else w.TurnOff?
    requires a == CommitAcked(ProfileOf(zones), l, WriteOf(zones, w), early, now)
    ensures Inv(zones, a, d)
  {
    AckedTurn(zones, l, w, on, early, now);
    AckedTurnPosts(zones, l, w, on, early, now);
    var any :| any in zones;
    assert any in a.posted && on in a.posted[any];
  }

  /** A zone write carries every other zone's stamp and power along. */
  lemma ZoneCarries(zones: set<nat>, r: Lib, a: Lib, d: Dev, z: nat, on: bool)
    requires Inv(zones, r, d) && SettlesAt(zones, d, z, on) && z in zones
    requires a.st.zonePower == r.st.zonePower[z := on]
             && forall i :: i in a.st.confirmed <==> i == z || i in r.st.confirmed
    requires SamePostings(a.posted, r.posted, z, on)
    requires KnownOn(a) && !PostedOn(a.posted) ==>
               exists j :: j in zones && j != z && j in r.st.confirmed && Get(r.st.zonePower, j) == Some(true)
    ensures Inv(zones, a, d)
  {
    if KnownOn(a) && !PostedOn(a.posted) {
      var j :| j in zones && j != z && j in r.st.confirmed && Get(r.st.zonePower, j) == Some(true);
      assert true !in PowersAt(a.posted, j);
      assert LitStable(zones, d.flags, d.queue, j);
      StableNow(zones, d.flags, d.queue);
    }
  }

  lemma AckZone(zones: set<nat>, l: Lib, z: nat, on: bool, now: real, d: Dev, r: Lib, a: Lib)
    requires z in zones && l.st.zonePower.Keys <= zones && l.st.confirmed.Keys <= l.st.zonePower.Keys + {z}
    requires r == CommitRaised(ProfileOf(zones), l, WriteOf(zones, SetZonePower(z, on)), map[])
    requires a == CommitAcked(ProfileOf(zones), l, WriteOf(zones, SetZonePower(z, on)), map[], now)
    ensures a.st.zonePower == r.st.zonePower[z := on]
            && forall i :: i in a.st.confirmed <==> i == z || i in r.st.confirmed
    ensures SamePostings(a.posted, r.posted, z, on)
    ensures KnownOn(a) && !PostedOn(a.posted) ==>
              exists j :: j in zones && j != z && j in r.st.confirmed && Get(r.st.zonePower, j) == Some(true)
  {
    AckedZone(zones, l, z, on, now);
    RaisedZone(zones, l, z, on);
    Postings(l.posted, z, on);
    if KnownOn(a) && !PostedOn(a.posted) {
      ZoneOffKnown(zones, l, z, on, now, a);
    }
  }

  ghost predicate SamePostings(acked: map<nat, set<bool>>, raised: map<nat, set<bool>>, z: nat, on: bool) {
    && z in acked && acked[z] == {on}
    && forall i :: i != z ==> (i in acked <==> i in raised) && PowersAt(acked, i) == PowersAt(raised, i)
  }

  lemma Postings(posted: map<nat, set<bool>>, z: nat, on: bool)
    ensures SamePostings(PostZones(posted, map[z := on], true), PostZones(posted, map[z := on], false), z, on)
  {
  }

  /** After an acked zone-off the fixture is known to be on, with no "on" posted, only while every other zone is
      stamped lit. */
  lemma ZoneOffKnown(zones: set<nat>, l: Lib, z: nat, on: bool, now: real, a: Lib)
    requires z in zones && l.st.zonePower.Keys <= zones
    requires a == CommitAcked(ProfileOf(zones), l, WriteOf(zones, SetZonePower(z, on)), map[], now)
    requires KnownOn(a) && !PostedOn(a.posted)
    ensures exists j :: j in zones && j != z && j in l.st.confirmed && Get(l.st.zonePower, j) == Some(true)
  {
    AckedZone(zones, l, z, on, now);
    assert z in a.posted && a.posted[z] == {on};
    assert !on;
    if |zones| == 1 {
      SubsetSame({z}, zones);
    }
    OffTrusted(ProfileOf(zones), l, WriteOf(zones, SetZonePower(z, on)), z, now);
    assert zones != {z};
    var j :| j in zones && j != z;
    assert Get(a.st.zonePower, j) == Some(true) && j in a.st.confirmed;
  }

  lemma OffTrusted(p: Profile, l: Lib, w: Write, z: nat, now: real)
    requires w.zones == Some(map[z := false]) && |p.zones| != 1
    requires KnownOn(CommitAcked(p, l, w, map[], now))
    ensures OthersConfirmedLit(p, CommitAcked(p, l, w, map[], now).st, {z})
  {
    var off := map[z := false];
    assert z in off && off.Keys == {z} && |off| == 1 && off != map[];
    assert Entries(w.zones) == off && !AnyOn(off);
    assert !AckSure(p, w);
    assert !AckUnsure(p, l, w, AckedState(p, l, w, map[], now));
  }

  lemma AckAdjust(zones: set<nat>, l: Lib, w: Setter, early: map<nat, bool>, now: real, r: Lib, a: Lib)
    requires w.Adjust?
    requires r == CommitRaised(ProfileOf(zones), l, WriteOf(zones, w), early)
    requires a == CommitAcked(ProfileOf(zones), l, WriteOf(zones, w), early, now)
    ensures a.posted == r.posted && a.unsure == r.unsure && a.st == r.st
  {
  }

  lemma AckScene(zones: set<nat>, l: Lib, early: map<nat, bool>, now: real, r: Lib, a: Lib)
    requires zones != {}
    requires r == CommitRaised(ProfileOf(zones), l, WriteOf(zones, ActivateScene), early)
    requires a == CommitAcked(ProfileOf(zones), l, WriteOf(zones, ActivateScene), early, now)
    ensures a.posted == r.posted && a.unsure == r.unsure
    ensures a.st.confirmed == map[] && a.st.zonePower.Keys <= zones
  {
  }

  lemma AckNoPower(zones: set<nat>, l: Lib, w: Setter, early: map<nat, bool>, now: real, d: Dev, r: Lib, a: Lib)
    requires zones != {} && (w.Adjust? || w.ActivateScene?)
    requires r == CommitRaised(ProfileOf(zones), l, WriteOf(zones, w), early)
    requires a == CommitAcked(ProfileOf(zones), l, WriteOf(zones, w), early, now)
    ensures a.posted == r.posted && a.unsure == r.unsure
    ensures w.Adjust? ==> a.st == r.st
    ensures w.ActivateScene? ==> a.st.confirmed == map[] && a.st.zonePower.Keys <= zones
  {
    if w.Adjust? {
      AckAdjust(zones, l, w, early, now, r, a);
    } else {
      AckScene(zones, l, early, now, r, a);
    }
  }

  /** An acked write keeps the invariant, unless it is a scene that overtook a queued power-off. */
  lemma AckKeeps(zones: set<nat>, l: Lib, w: Setter, early: map<nat, bool>, now: real, d: Dev, r: Lib, a: Lib)
    requires ValidSetter(zones, w) && EarlyWake(zones, w, early)
    requires r == CommitRaised(ProfileOf(zones), l, WriteOf(zones, w), early) && Inv(zones, r, d)
    requires a == CommitAcked(ProfileOf(zones), l, WriteOf(zones, w), early, now)
    requires Settles(zones, r, d, w)
    requires Held(zones, l)
    requires w.ActivateScene? ==> !OffOvertaken(zones, a, d)
    ensures Inv(zones, a, d)
  {
    if w.TurnOn? || w.TurnOff? {
      AckTurn(zones, l, w, w.TurnOn?, early, now, d, r, a);
    } else if w.SetZonePower? {
      AckZoneKeeps(zones, l, w, early, now, d, r, a);
    } else {
      AckNoPowerKeeps(zones, l, w, early, now, d, r, a);
    }
  }

  lemma AckZoneKeeps(zones: set<nat>, l: Lib, w: Setter, early: map<nat, bool>, now: real, d: Dev, r: Lib, a: Lib)
    requires w.SetZonePower? && w.zone in zones && EarlyWake(zones, w, early) && Held(zones, l)
    requires r == CommitRaised(ProfileOf(zones), l, WriteOf(zones, w), early) && Inv(zones, r, d)
    requires a == CommitAcked(ProfileOf(zones), l, WriteOf(zones, w), early, now)
    requires Settles(zones, r, d, w)
    ensures Inv(zones, a, d)
  {
    assert early == map[];
    AckZone(zones, l, w.zone, w.on, now, d, r, a);
    ZoneCarries(zones, r, a, d, w.zone, w.on);
  }

  lemma AckNoPowerKeeps(zones: set<nat>, l: Lib, w: Setter, early: map<nat, bool>, now: real, d: Dev, r: Lib, a: Lib)
    requires w.Adjust? || (w.ActivateScene? && !OffOvertaken(zones, a, d))
    requires r == CommitRaised(ProfileOf(zones), l, WriteOf(zones, w), early) && Inv(zones, r, d)
    requires a == CommitAcked(ProfileOf(zones), l, WriteOf(zones, w), early, now)
    ensures Inv(zones, a, d)
  {
    AckNoPower(zones, l, w, early, now, d, r, a);
    NoPowerKeeps(zones, r, a, d);
  }

  lemma NoPowerKeeps(zones: set<nat>, r: Lib, a: Lib, d: Dev)
    requires Inv(zones, r, d) && a.posted == r.posted && a.unsure == r.unsure
    requires a.st == r.st || (a.st.confirmed == map[] && a.st.zonePower.Keys <= zones && !OffOvertaken(zones, a, d))
    ensures Inv(zones, a, d)
  {
  }

  // ---- Status reads ---------------------------------------------------------------------------------------------

  /** A reply the fixture may give: the flags as they are, any part of the TLVs missing. A reply without
      TLV 0x01 reads off; one that can't be read carries nothing. */
  ghost predicate Replies(zones: set<nat>, f: Flags, r: Status) {
    && (r.isOn == Some(true) ==> f.main)
    && (r.isOn.None? ==> r.zonePower == map[])
    && forall i :: i in r.zonePower ==> i in zones && (r.zonePower[i] <==> i in f.lit)
  }

  /** What a reply tells of the fixture `d` as it will be once the queue is applied: the power of each zone the
      posted writes leave settled, and that the fixture stays on where every posted zone is. */
  ghost predicate Faithful(zones: set<nat>, l: Lib, r: Status, d: Flags) {
    && WellFormed(zones, d, [])
    && (r.isOn.None? ==> r.zonePower == map[])
    && r.zonePower.Keys <= zones
    && (forall i :: i in r.zonePower && i !in Unsettled(l.posted, r) ==>
          (i in d.lit <==> r.zonePower[i]) && (r.isOn == Some(true) && r.zonePower[i] ==> d.main))
    && (r.isOn == Some(true) && (forall i :: i in l.posted ==> i in r.zonePower && i !in Unsettled(l.posted, r))
        ==> d.main)
  }

  lemma AnswerFaithful(zones: set<nat>, l: Lib, d: Dev, r: Status)
    requires Inv(zones, l, d) && Replies(zones, d.flags, r)
    ensures Faithful(zones, l, r, Drain(zones, d.flags, d.queue))
  {
    var end := Drain(zones, d.flags, d.queue);
    DrainKeeps(zones, d.flags, d.queue);
    forall i | i in zones && i !in Unsettled(l.posted, r) && (i in l.posted ==> i in r.zonePower)
      ensures i in end.lit <==> i in d.flags.lit
    {
      DrainLit(zones, d.flags, d.queue, i);
    }
    if r.isOn == Some(true) && forall i :: i in l.posted ==> i in r.zonePower && i !in Unsettled(l.posted, r) {
      var i :| i in d.flags.lit;
      assert i in end.lit;
    }
  }

  lemma StatusState(l: Lib, r: Status, since: nat, drops: nat, now: real)
    requires r.zonePower != map[] && since <= l.unsureSeq
    ensures var l' := StatusRead(l, r, since, drops, now);
            && l'.st.zonePower == r.zonePower
            && (forall i :: i in l'.st.confirmed <==> i in Vouched(r, Unsettled(l.posted, r)))
            && (forall i :: i in l'.posted <==> i in l.posted && i !in r.zonePower)
            && (forall i :: i in l'.posted ==> l'.posted[i] == l.posted[i])
            && (r.isOn.Some? ==> l'.st.isOn == r.isOn)
  {
  }

  /** A reply that carries zones: every stamp it gives holds once the queue is applied. */
  lemma FoldKeeps(zones: set<nat>, l: Lib, r: Status, since: nat, drops: nat, now: real, end: Flags)
    requires zones != {} && r.zonePower != map[] && since <= l.unsureSeq
    requires Faithful(zones, l, r, end) && l.posted.Keys <= zones && PostedSome(l.posted)
    ensures Inv(zones, StatusRead(l, r, since, drops, now), Dev(end, []))
  {
    StatusState(l, r, since, drops, now);
    if KnownOn(StatusRead(l, r, since, drops, now)) {
      StatusTrusted(l, r, since, drops, now);
    }
  }

  lemma FoldBareKeeps(zones: set<nat>, l: Lib, r: Status, since: nat, drops: nat, now: real, d: Dev)
    requires r.zonePower == map[] && since <= l.unsureSeq && Inv(zones, l, d)
    requires Faithful(zones, l, r, Drain(zones, d.flags, d.queue))
    ensures Inv(zones, StatusRead(l, r, since, drops, now), d)
  {
    var l' := StatusRead(l, r, since, drops, now);
    assert l.posted - {} == l.posted;
    assert l'.st.zonePower == l.st.zonePower && l'.st.confirmed == l.st.confirmed && l'.posted == l.posted;
    if r.isOn.Some? && KnownOn(l') {
      StatusTrusted(l, r, since, drops, now);
      assert l.posted == map[];
      if d.queue != [] {
        PostedEmpty(zones, l, d.queue);
      }
    }
  }

  lemma StatusTrusted(l: Lib, r: Status, since: nat, drops: nat, now: real)
    requires r.isOn.Some? && since <= l.unsureSeq && !StatusRead(l, r, since, drops, now).unsure
    ensures forall i :: i in l.posted ==> i in r.zonePower && i !in Unsettled(l.posted, r)
  {
  }
}
/** What each write and each status reply leaves on an H60A6's library state, zone by zone: the power held, the stamp,
    the powers posted, the doubt and the read of the on/off. FixtureStamps proves that what is stamped is right; this
    module, that nothing more is forgotten, posted or doubted than what the call gives reason for. */
module PowerOutcomes {
  import opened Basics
  import opened Fold
  import opened Library
  import opened FixtureFirmware
  import opened FixtureStamps

  // ---- Status replies -------------------------------------------------------------------------------------------

  /** A zone a reply carries is held at the power reported, and stamped now exactly if every power posted for it is that
      one and, for a lit zone, the same reply says on. */
  lemma StatusStamps(l: Lib, r: Status, since: nat, drops: nat, now: real, i: nat)
    requires i in r.zonePower
    ensures var st, on := StatusRead(l, r, since, drops, now).st, r.zonePower[i];
            && i in st.zonePower && st.zonePower[i] == on
            && (i in st.confirmed <==> (on ==> r.isOn == Some(true)) && (i in l.posted ==> l.posted[i] == {on}))
            && (i in st.confirmed ==> st.confirmed[i] == now)
  {
    if i in l.posted {
      OnlyThat(l.posted[i], r.zonePower[i]);
    }
  }

  lemma OnlyThat(powers: set<bool>, on: bool)
    ensures Only(powers, on) <==> powers == {on}
  {
    if Only(powers, on) {
      assert forall b :: b in powers ==> b == on;
    }
  }

  /** A reply without zones leaves the zones alone; one with zones forgets every other zone. It takes the postings of
      the zones it carries, and its on/off where it has one. */
  lemma StatusRest(l: Lib, r: Status, since: nat, drops: nat, now: real, i: nat)
    requires i !in r.zonePower
    ensures var l' := StatusRead(l, r, since, drops, now);
            && l'.st.isOn == Else(r.isOn, l.st.isOn)
            && Get(l'.st.zonePower, i) == (if r.zonePower == map[] then Get(l.st.zonePower, i) else None)
            && Get(l'.st.confirmed, i) == (if r.zonePower == map[] then Get(l.st.confirmed, i) else None)
            && Get(l'.posted, i) == Get(l.posted, i) && forall j :: j in r.zonePower ==> j !in l'.posted
  {
    var st := ApplyStatus(l.st, r, Unsettled(l.posted, r), now);
    assert StatusRead(l, r, since, drops, now).st == st;
    assert StatusRead(l, r, since, drops, now).posted == l.posted - r.zonePower.Keys;
    StatusElsewhere(l.st, r, Unsettled(l.posted, r), now, i);
  }

  lemma StatusElsewhere(s: State, r: Status, unsettled: set<nat>, now: real, i: nat)
    requires i !in r.zonePower
    ensures var st := ApplyStatus(s, r, unsettled, now);
            && st.isOn == Else(r.isOn, s.isOn)
            && Get(st.zonePower, i) == (if r.zonePower == map[] then Get(s.zonePower, i) else None)
            && Get(st.confirmed, i) == (if r.zonePower == map[] then Get(s.confirmed, i) else None)
  {
  }

  function Else<T>(a: Option<T>, b: Option<T>): Option<T> {
    if a.Some? then a else b
  }

  /** Some posted power is still to be applied, as far as a reply shows. */
  predicate Behind(l: Lib, r: Status) {
    exists i :: i in l.posted && (i in r.zonePower ==> l.posted[i] != {r.zonePower[i]})
  }

  /** A reply with an on/off ends the doubt that was there when its read was issued, or raises it where a posted power
      is still to be applied; without one it changes neither doubt nor the read of the on/off. */
  lemma StatusDoubt(l: Lib, r: Status, since: nat, drops: nat, now: real)
    requires since <= l.unsureSeq
    ensures var l' := StatusRead(l, r, since, drops, now);
            && l'.unsure == (if r.isOn.None? then l.unsure else Behind(l, r) || (l.unsure && since != l.unsureSeq))
            && l'.powerRead == (if r.isOn.None? then l.powerRead
                                else if Behind(l, r) then None
                                else if drops == l.drops then Some((now, r.isOn.value)) else l.powerRead)
  {
    assert Behind(l, r) <==> exists i :: i in l.posted && (i !in r.zonePower || i in Unsettled(l.posted, r)) by {
      forall i | i in l.posted
        ensures (i in r.zonePower ==> l.posted[i] != {r.zonePower[i]})
            <==> i !in r.zonePower || i in Unsettled(l.posted, r)
      {
        if i in r.zonePower {
          OnlyThat(l.posted[i], r.zonePower[i]);
        }
      }
    }
  }

  // ---- Acked writes ---------------------------------------------------------------------------------------------

  /** Every zone held at one power and stamped now, and that power alone posted for it. */
  ghost predicate WholeAt(zones: set<nat>, l: Lib, on: bool, now: real) {
    && l.st.zonePower.Keys == zones && l.st.confirmed.Keys == zones && l.posted.Keys == zones
    && forall i :: i in zones ==> l.st.zonePower[i] == on && l.st.confirmed[i] == now && l.posted[i] == {on}
  }

  /** An acked 33 01 leaves every zone held at its power and stamped now, that power alone posted, and no doubt. */
  lemma TurnOutcome(zones: set<nat>, l: Lib, w: Setter, on: bool, early: map<nat, bool>, now: real)
    requires zones != {} && l.posted.Keys <= zones && EarlyWake(zones, w, early) && if on then w.TurnOn? else w.TurnOff?
    ensures var a := CommitAcked(ProfileOf(zones), l, WriteOf(zones, w), early, now);
            && a.st.isOn == Some(on) && !a.unsure && WholeAt(zones, a, on, now)
            && a.powerRead == (if l.st.isOn == Some(on) then l.powerRead else None)
  {
    AckedTurn(zones, l, w, on, early, now);
    TurnWhole(zones, l, w, on, early, now);
    TurnRead(zones, l, w, on, early, now);
  }

  lemma TurnWhole(zones: set<nat>, l: Lib, w: Setter, on: bool, early: map<nat, bool>, now: real)
    requires zones != {} && l.posted.Keys <= zones && EarlyWake(zones, w, early) && if on then w.TurnOn? else w.TurnOff?
    ensures WholeAt(zones, CommitAcked(ProfileOf(zones), l, WriteOf(zones, w), early, now), on, now)
  {
    var a := CommitAcked(ProfileOf(zones), l, WriteOf(zones, w), early, now);
    AckedTurn(zones, l, w, on, early, now);
    AckedTurnPosts(zones, l, w, on, early, now);
    TurnStamps(zones, l, w, on, early, now, a.st);
    WholeFrom(zones, a, on, now);
  }

  lemma WholeFrom(zones: set<nat>, a: Lib, on: bool, now: real)
    requires a.st.zonePower == AllTo(zones, on) && a.st.confirmed.Keys == zones && AllPosted(zones, a.posted, on)
    requires forall i :: i in zones ==> a.st.confirmed[i] == now
    ensures WholeAt(zones, a, on, now)
  {
    assert a.posted.Keys == zones;
  }

  lemma TurnRead(zones: set<nat>, l: Lib, w: Setter, on: bool, early: map<nat, bool>, now: real)
    requires zones != {} && EarlyWake(zones, w, early) && if on then w.TurnOn? else w.TurnOff?
    ensures var a := CommitAcked(ProfileOf(zones), l, WriteOf(zones, w), early, now);
            !a.unsure && a.powerRead == (if l.st.isOn == Some(on) then l.powerRead else None)
  {
    AckedTurn(zones, l, w, on, early, now);
    if !on {
      NoWake(zones, l, w, early);
      assert !AnyOn(AllTo(zones, false));
    }
    assert AllTo(zones, on).Keys == zones && |AllTo(zones, on)| == |AllTo(zones, on).Keys|;
  }

  lemma TurnStamps(zones: set<nat>, l: Lib, w: Setter, on: bool, early: map<nat, bool>, now: real, st: State)
    requires zones != {} && EarlyWake(zones, w, early) && if on then w.TurnOn? else w.TurnOff?
    requires st == AckedState(ProfileOf(zones), l, WriteOf(zones, w), early, now)
    ensures st.confirmed.Keys == zones && forall i :: i in zones ==> st.confirmed[i] == now
  {
    var p, write := ProfileOf(zones), WriteOf(zones, w);
    var before := ApplyEffect(p, l.st, write.effect, now);
    assert before.zonePower == AllTo(zones, on) && before.confirmed.Keys == zones;
    if !on {
      NoWake(zones, l, w, early);
    }
    assert Contradicted(before, Wake(p, l, write, early)) == {};
  }

  /** An acked zone write sets and stamps its zone, keeps every other zone's power and stamp, and posts its power alone
      for its zone. Over the only zone it is the on/off; otherwise a zone-off leaves doubt, unless there was none, the
      fixture was known on and every other zone is held lit with a stamp. */
  lemma ZoneOutcome(zones: set<nat>, l: Lib, z: nat, on: bool, now: real)
    requires z in zones && Held(zones, l)
    ensures var a := CommitAcked(ProfileOf(zones), l, WriteOf(zones, SetZonePower(z, on)), map[], now);
            && a.st.zonePower == l.st.zonePower[z := on] && a.st.confirmed == l.st.confirmed[z := now]
            && a.posted == l.posted[z := {on}]
            && a.unsure == (zones != {z} &&
                            (l.unsure || (!on && !(l.st.isOn == Some(true) && LitElsewhere(zones, l, z)))))
  {
    var p, w := ProfileOf(zones), WriteOf(zones, SetZonePower(z, on));
    var a := CommitAcked(p, l, w, map[], now);
    AckedZone(zones, l, z, on, now);
    ZoneStamps(zones, l, z, on, now);
    PostOne(l.posted, z, on);
    ZoneDoubt(zones, l, z, on, now);
  }

  lemma PostOne(posted: map<nat, set<bool>>, z: nat, on: bool)
    ensures PostZones(posted, map[z := on], true) == posted[z := {on}]
  {
  }

  predicate LitElsewhere(zones: set<nat>, l: Lib, z: nat) {
    forall i :: i in zones && i != z ==> Get(l.st.zonePower, i) == Some(true) && i in l.st.confirmed
  }

  lemma ZoneStamps(zones: set<nat>, l: Lib, z: nat, on: bool, now: real)
    requires Held(zones, l)
    ensures CommitAcked(ProfileOf(zones), l, WriteOf(zones, SetZonePower(z, on)), map[], now).st.confirmed
         == l.st.confirmed[z := now]
  {
    var st := ApplyZonePower(ProfileOf(zones), l.st, l.st.zonePower[z := on], {z}, now);
    NoWake(zones, l, SetZonePower(z, on), map[]);
    NothingContradicted(st);
    ZoneWriteCarries(ProfileOf(zones), l.st, z, on, now);
    StampTimes(l.st, z, on, now);
    SameMap(st.confirmed, l.st.confirmed[z := now]);
  }

  lemma StampTimes(s: State, z: nat, on: bool, now: real)
    ensures var st := Fold.SetZonePower(s, s.zonePower[z := on], {z}, now);
            z in st.confirmed && st.confirmed[z] == now
            && forall i :: i in st.confirmed && i != z ==> i in s.confirmed && st.confirmed[i] == s.confirmed[i]
  {
  }

  lemma ZoneDoubt(zones: set<nat>, l: Lib, z: nat, on: bool, now: real)
    requires z in zones && Held(zones, l)
    ensures CommitAcked(ProfileOf(zones), l, WriteOf(zones, SetZonePower(z, on)), map[], now).unsure
         == (zones != {z} && (l.unsure || (!on && !(l.st.isOn == Some(true) && LitElsewhere(zones, l, z)))))
  {
    var p, w := ProfileOf(zones), WriteOf(zones, SetZonePower(z, on));
    OneZone(zones, z, on);
    SameElsewhere(zones, l, z, on, now);
    assert AckSure(p, w) == (zones == {z}) && Entries(w.zones) == map[z := on];
  }

  lemma OneZone(zones: set<nat>, z: nat, on: bool)
    requires z in zones
    ensures var power := map[z := on];
            power.Keys == {z} && power != map[] && AnyOn(power) == on && (|power| == |zones| <==> zones == {z})
  {
    var power := map[z := on];
    assert power.Keys == {z} && |power| == |power.Keys| && power[z] == on;
    if |zones| == 1 {
      SubsetSame({z}, zones);
    }
  }

  lemma SameElsewhere(zones: set<nat>, l: Lib, z: nat, on: bool, now: real)
    requires z in zones && Held(zones, l)
    ensures OthersConfirmedLit(ProfileOf(zones),
                               AckedState(ProfileOf(zones), l, WriteOf(zones, SetZonePower(z, on)), map[], now), {z})
            <==> LitElsewhere(zones, l, z)
  {
    var st := AckedState(ProfileOf(zones), l, WriteOf(zones, SetZonePower(z, on)), map[], now);
    AckedZone(zones, l, z, on, now);
    OthersAlike(zones, st, l, z);
  }

  lemma OthersAlike(zones: set<nat>, st: State, l: Lib, z: nat)
    requires forall i :: i != z ==> Get(st.zonePower, i) == Get(l.st.zonePower, i)
    requires forall i :: i != z && i in l.st.zonePower ==> (i in st.confirmed <==> i in l.st.confirmed)
    ensures OthersConfirmedLit(ProfileOf(zones), st, {z}) <==> LitElsewhere(zones, l, z)
  {
    forall i | i in zones && i != z
      ensures Get(st.zonePower, i) == Some(true) && i in st.confirmed
              <==> Get(l.st.zonePower, i) == Some(true) && i in l.st.confirmed
    {
      assert Get(st.zonePower, i) == Get(l.st.zonePower, i);
    }
  }

  /** The write's frames may wake the fixture: one is a 33 04 or 33 05 and the library can't rule a wake out, now or
      when the write began to wait. */
  predicate MayWake(zones: set<nat>, l: Lib, frames: seq<Frame>, early: map<nat, bool>) {
    early != map[] || (zones != {} && (exists k :: 0 <= k < |frames| && (frames[k].Brightness? || frames[k].Mode?))
                       && (l.st.isOn != Some(true) || l.unsure || exists i :: i in l.posted && true in l.posted[i]))
  }

  /** The runs take in every brightness, colour and other write without a power or scene frame, alone or after a
      33 01 on, and whatever a write finds before it waits for the link. */
  lemma WritesTaken(zones: set<nat>, frames: seq<Frame>, l: Lib, w: Setter)
    requires forall k :: 0 <= k < |frames| ==> frames[k] in {Brightness, Neutral, Mode(Colour), Mode(QuietMusic)}
    ensures ValidSetter(zones, Adjust(frames)) && ValidSetter(zones, TurnOn(frames))
    ensures EarlyWake(zones, w, WakePower(ProfileOf(zones), l, WriteOf(zones, w).frames))
  {
  }

  /** When a write counts as a wake. */
  lemma WakeExactly(zones: set<nat>, l: Lib, w: Setter, early: map<nat, bool>)
    requires EarlyWake(zones, w, early)
    ensures Wake(ProfileOf(zones), l, WriteOf(zones, w), early)
         == if MayWake(zones, l, WriteOf(zones, w).frames, early) then AllTo(zones, true) else map[]
  {
    var frames := WriteOf(zones, w).frames;
    assert (exists k :: 0 <= k < |frames| && Wakes(frames[k]))
           <==> exists k :: 0 <= k < |frames| && (frames[k].Brightness? || frames[k].Mode?) by {
      forall k | 0 <= k < |frames| ensures Wakes(frames[k]) <==> frames[k].Brightness? || frames[k].Mode? {
      }
    }
    assert AllTo(zones, true) + AllTo(zones, true) == AllTo(zones, true);
    assert map[] + WakePower(ProfileOf(zones), l, frames) == WakePower(ProfileOf(zones), l, frames);
  }

  /** The end of a brightness or colour write that counts `wake` as its wake, but for the commit's number. */
  ghost predicate AdjustedLib(zones: set<nat>, l: Lib, frames: seq<Frame>, wake: map<nat, bool>, l': Lib) {
    && l'.st == UnconfirmContradicted(l.st, wake) && l'.unsure == l.unsure
    && (exists acked :: l'.posted == PostZonePower(ProfileOf(zones), l.posted, frames, map[], wake, acked))
    && l'.powerRead == (if wake != map[] && l.st.isOn != Some(true) then None else l.powerRead)
  }

  lemma AdjustAcked(zones: set<nat>, l: Lib, frames: seq<Frame>, early: map<nat, bool>, now: real)
    ensures var w := WriteOf(zones, Adjust(frames));
            AdjustedLib(zones, l, frames, Wake(ProfileOf(zones), l, w, early),
                        CommitAcked(ProfileOf(zones), l, w, early, now))
  {
  }

  lemma AdjustRaised(zones: set<nat>, l: Lib, frames: seq<Frame>, early: map<nat, bool>)
    ensures var w := WriteOf(zones, Adjust(frames));
            AdjustedLib(zones, l, frames, Wake(ProfileOf(zones), l, w, early),
                        CommitRaised(ProfileOf(zones), l, w, early))
  {
    assert l.st.confirmed - {} == l.st.confirmed;
  }

  lemma AdjustedStamps(zones: set<nat>, l: Lib, wake: map<nat, bool>)
    requires wake == map[] || wake == AllTo(zones, true)
    ensures var st := UnconfirmContradicted(l.st, wake);
            && st.isOn == l.st.isOn && st.zonePower == l.st.zonePower
            && forall i :: Get(st.confirmed, i)
                 == if i in wake && Get(l.st.zonePower, i) != Some(true) then None else Get(l.st.confirmed, i)
  {
  }

  lemma AdjustedPosts(zones: set<nat>, posted: map<nat, set<bool>>, frames: seq<Frame>, wake: map<nat, bool>)
    requires wake == map[] || wake == AllTo(zones, true)
    ensures forall acked, i ::
              PowersAt(PostZonePower(ProfileOf(zones), posted, frames, map[], wake, acked), i)
              == if i in wake && HasBrightness(frames) then PowersAt(posted, i) + {true} else PowersAt(posted, i)
  {
  }

  /** A brightness or colour write, acked or raised, changes no power held. Where it may wake the fixture it takes every
      stamp of "off", joins "on" to what is posted for each zone if it sets the brightness, and drops the read of an
      on/off that is not on; where it can't, it changes nothing. */
  lemma AdjustOutcome(zones: set<nat>, l: Lib, w: Setter, early: map<nat, bool>, now: real, l': Lib)
    requires w.Adjust? && EarlyWake(zones, w, early)
    requires l' == CommitAcked(ProfileOf(zones), l, WriteOf(zones, w), early, now)
             || l' == CommitRaised(ProfileOf(zones), l, WriteOf(zones, w), early)
    ensures var wakes := MayWake(zones, l, w.frames, early);
            && l'.st.isOn == l.st.isOn && l'.st.zonePower == l.st.zonePower && l'.unsure == l.unsure
            && (forall i :: Get(l'.st.confirmed, i) ==
                  if wakes && i in zones && Get(l.st.zonePower, i) != Some(true) then None else Get(l.st.confirmed, i))
            && (forall i :: PowersAt(l'.posted, i) ==
                  if wakes && i in zones && HasBrightness(w.frames) then PowersAt(l.posted, i) + {true}
                  else PowersAt(l.posted, i))
            && l'.powerRead == (if wakes && zones != {} && l.st.isOn != Some(true) then None else l.powerRead)
  {
    WakeExactly(zones, l, w, early);
    var wake := if MayWake(zones, l, w.frames, early) then AllTo(zones, true) else map[];
    AdjustAcked(zones, l, w.frames, early, now);
    AdjustRaised(zones, l, w.frames, early);
    AdjustedStamps(zones, l, wake);
    AdjustedPosts(zones, l.posted, w.frames, wake);
  }

  /** An acked scene reads every zone lit, stamps none, and posts nothing. */
  lemma SceneOutcome(zones: set<nat>, l: Lib, early: map<nat, bool>, now: real)
    requires zones != {}
    ensures var a := CommitAcked(ProfileOf(zones), l, WriteOf(zones, ActivateScene), early, now);
            && a.st.isOn == Some(true) && a.st.zonePower == AllTo(zones, true) && a.st.confirmed == map[]
            && a.posted == l.posted && a.unsure == l.unsure
            && a.powerRead == (if l.st.isOn == Some(true) then l.powerRead else None)
  {
  }

  /** A raised power write changes no power held. It takes the stamps of the zones it sets, joins their powers to what
      is posted, drops the read of the on/off, and leaves doubt where it may have switched the fixture off. */
  lemma RaisedTurn(zones: set<nat>, l: Lib, w: Setter, on: bool, early: map<nat, bool>)
    requires zones != {} && EarlyWake(zones, w, early) && if on then w.TurnOn? else w.TurnOff?
    ensures var r := CommitRaised(ProfileOf(zones), l, WriteOf(zones, w), early);
            && r.st.isOn == l.st.isOn && r.st.zonePower == l.st.zonePower && r.st.confirmed == map[]
            && r.powerRead == None && r.unsure == (l.unsure || !on)
            && forall i :: PowersAt(r.posted, i)
                           == if i in zones then PowersAt(l.posted, i) + {on} else PowersAt(l.posted, i)
  {
    WakeExactly(zones, l, w, early);
    var any :| any in zones;
    assert any in AllTo(zones, on) && AllTo(zones, on)[any] == on;
    assert AnyOn(AllTo(zones, on)) == on;
  }

  lemma RaisedZoneWrite(zones: set<nat>, l: Lib, z: nat, on: bool)
    requires z in zones
    ensures var r := CommitRaised(ProfileOf(zones), l, WriteOf(zones, SetZonePower(z, on)), map[]);
            && r.st.isOn == l.st.isOn && r.st.zonePower == l.st.zonePower && r.st.confirmed == l.st.confirmed - {z}
            && r.powerRead == None && r.unsure == (l.unsure || !on)
            && forall i :: PowersAt(r.posted, i)
                        == if i == z then PowersAt(l.posted, i) + {on} else PowersAt(l.posted, i)
  {
    RaisedZone(zones, l, z, on);
    RaisedZoneRest(zones, l, z, on);
    var r := CommitRaised(ProfileOf(zones), l, WriteOf(zones, SetZonePower(z, on)), map[]);
    SameMap(r.st.confirmed, l.st.confirmed - {z});
  }

  lemma RaisedZoneRest(zones: set<nat>, l: Lib, z: nat, on: bool)
    requires z in zones
    ensures var r := CommitRaised(ProfileOf(zones), l, WriteOf(zones, SetZonePower(z, on)), map[]);
            && r.st.isOn == l.st.isOn && r.powerRead == None && r.unsure == (l.unsure || !on)
            && forall i :: i in r.st.confirmed ==> r.st.confirmed[i] == l.st.confirmed[i]
  {
    OneZone(zones, z, on);
  }

  /** A raised scene takes every stamp and nothing else of the zones. */
  lemma RaisedScene(zones: set<nat>, l: Lib, early: map<nat, bool>)
    ensures var r := CommitRaised(ProfileOf(zones), l, WriteOf(zones, ActivateScene), early);
            && r.st.isOn == l.st.isOn && r.st.zonePower == l.st.zonePower && r.st.confirmed == map[]
            && r.posted == l.posted && r.unsure == l.unsure && r.powerRead == None
  {
  }
}

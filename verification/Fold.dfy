/** How a write or a read-back changes the power part of a device's state (devices/_fold.py): the whole-device
    on/off, each zone's power, and the stamps that say which zone powers the device itself vouched for. */
module Fold {
  import opened Basics

  /** The profile facts the power fold reads: the zones' power indices and the two kinds of zoned fixture. */
  datatype Profile = Profile(zones: set<nat>, globalPower: bool, barSwitch: bool)

  datatype State = State(isOn: Option<bool>, zonePower: map<nat, bool>, confirmed: map<nat, real>)

  const UNKNOWN: State := State(None, map[], map[])

  /** A parsed 0xAC status reply: `isOn` None is the reply no value could be read from. */
  datatype Status = Status(isOn: Option<bool>, zonePower: map<nat, bool>)

  function AnyOn(power: map<nat, bool>): bool {
    exists i :: i in power && power[i]
  }

  function AllTo(zones: set<nat>, on: bool): map<nat, bool> {
    map i | i in zones :: on
  }

  function SetZonePower(s: State, power: map<nat, bool>, vouched: set<nat>, now: real): State {
    s.(zonePower := power,
       confirmed := map i | i in power && (i in vouched ||
                                           (i in s.confirmed && Get(s.zonePower, i) == Some(power[i])))
                        :: if i in vouched then now else s.confirmed[i])
  }

  function UnconfirmZones(s: State, zones: set<nat>): State {
    s.(confirmed := s.confirmed - zones)
  }

  function UnconfirmAll(s: State): State {
    s.(confirmed := map[])
  }

  /** The zones of `power` held at another power than the one `power` gives them. */
  function Contradicted(s: State, power: map<nat, bool>): set<nat> {
    set i | i in power && Get(s.zonePower, i) != Some(power[i])
  }

  function UnconfirmContradicted(s: State, power: map<nat, bool>): State {
    UnconfirmZones(s, Contradicted(s, power))
  }

  function ApplyPower(p: Profile, s: State, on: bool, vouched: set<nat>, now: real): State {
    var s := s.(isOn := Some(on));
    if p.barSwitch && on then SetZonePower(s, map[], {}, now)
    else if p.zones != {} then SetZonePower(s, AllTo(p.zones, on), vouched, now)
    else if p.barSwitch then UnconfirmAll(s)
    else s
  }

  function ApplyZonePower(p: Profile, s: State, power: map<nat, bool>, vouched: set<nat>, now: real): State {
    var s := SetZonePower(s, power, vouched, now);
    if p.zones != {} && |power| == |p.zones| then s.(isOn := Some(AnyOn(power))) else s
  }

  function ApplyScene(p: Profile, s: State, now: real): State {
    UnconfirmAll(ApplyPower(p, s, true, {}, now))
  }

  function ApplyBars(s: State, left: bool, right: bool, now: real): State {
    SetZonePower(s, map[0 := left, 1 := right], {0, 1}, now).(isOn := Some(left || right))
  }

  /** The zones a status reply vouches for: an "off" always, a "lit" only when the same reply says on, and
      none of `unsettled`. */
  function Vouched(st: Status, unsettled: set<nat>): set<nat> {
    set i | i in st.zonePower && (st.isOn == Some(true) || !st.zonePower[i]) && i !in unsettled
  }

  function ApplyStatus(s: State, st: Status, unsettled: set<nat>, now: real): State {
    var s := if st.isOn.Some? then s.(isOn := st.isOn) else s;
    if st.zonePower == map[] then s
    else
      var vouched := Vouched(st, unsettled);
      UnconfirmZones(SetZonePower(s, st.zonePower, vouched, now), st.zonePower.Keys - vouched)
  }

  lemma NothingContradicted(s: State)
    ensures UnconfirmContradicted(s, map[]) == s
  {
    assert Contradicted(s, map[]) == {};
    assert s.confirmed - {} == s.confirmed;
  }

  /** Setting one zone stamps it and carries every other zone's power and stamp along. */
  lemma ZoneWriteCarries(p: Profile, s: State, z: nat, on: bool, now: real)
    ensures var r := ApplyZonePower(p, s, s.zonePower[z := on], {z}, now);
            && r.zonePower == s.zonePower[z := on]
            && (forall i :: i in r.confirmed <==> i == z || (i in s.confirmed && i in s.zonePower))
            && r.isOn in {s.isOn, Some(AnyOn(r.zonePower))}
            && (p.zones != {} && |r.zonePower| == |p.zones| ==> r.isOn == Some(AnyOn(r.zonePower)))
  {
  }

  lemma OnlyZoneWrite(p: Profile, s: State, z: nat, on: bool, now: real)
    requires p.zones == {z} && s.zonePower.Keys <= {z}
    ensures ApplyZonePower(p, s, s.zonePower[z := on], {z}, now).isOn == Some(on)
  {
    var power := s.zonePower[z := on];
    assert power.Keys == {z} && |power| == |power.Keys|;
    assert AnyOn(power) == on;
  }
}

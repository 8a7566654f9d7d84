/** The power bookkeeping of one Device (devices/device.py): what each setter, each failed write and each
    read-back does to the held state, to the powers posted to the fixture's message thread, and to the
    counters that decide which read may vouch for the on/off. */
module Library {
  import opened Basics
  import opened Fold

  datatype ModeKind = Colour | QuietMusic | Scene

  /** A write frame, by what its command makes the firmware do: 33 01, 33 30, 33 36, 33 04, 33 05, or a write
      that touches no power. */
  datatype Frame =
    | Switch(on: bool)
    | ZoneSwitch(zone: nat, on: bool)
    | BarSwitch(left: bool, right: bool)
    | Brightness
    | Mode(kind: ModeKind)
    | Neutral

  /** How an acked write folds into the state (the `apply` a setter hands to the commit). */
  datatype Effect
    = PowerTo(on: bool) | ZoneTo(zone: nat, on: bool) | BarsTo(left: bool, right: bool) | SceneOn | NoPower

  /** One commit: its frames, the power they give each zone they set (None: no power write), whether it
      targets the whole fixture, and its effect. */
  datatype Write = Write(frames: seq<Frame>, zones: Option<map<nat, bool>>, fixture: bool, effect: Effect)

  datatype Lib = Lib(
    st: State,
    posted: map<nat, set<bool>>,
    unsure: bool, unsureSeq: nat,
    powerRead: Option<(real, bool)>, drops: nat,
    seqNo: nat)

  const FRESH: Lib := Lib(UNKNOWN, map[], false, 0, None, 0, 0)

  function PowersAt(posted: map<nat, set<bool>>, i: nat): set<bool> {
    if i in posted then posted[i] else {}
  }

  predicate PostedOn(posted: map<nat, set<bool>>) {
    exists i :: i in posted && true in posted[i]
  }

  /** `is_on` is trusted to say the fixture is on (and so to rule a wake out). */
  predicate KnownOn(l: Lib) {
    l.st.isOn == Some(true) && !l.unsure
  }

  predicate Wakes(f: Frame) {
    f.Brightness? || f.Mode?
  }

  predicate HasBrightness(frames: seq<Frame>) {
    exists k :: 0 <= k < |frames| && frames[k].Brightness?
  }

  function WakePower(p: Profile, l: Lib, frames: seq<Frame>): map<nat, bool> {
    if p.zones == {} || (KnownOn(l) && !PostedOn(l.posted)) then map[]
    else if (p.globalPower || p.barSwitch) && exists k :: 0 <= k < |frames| && Wakes(frames[k])
    then AllTo(p.zones, true)
    else map[]
  }

  function Entries(zones: Option<map<nat, bool>>): map<nat, bool> {
    if zones.Some? then zones.value else map[]
  }

  function PostZones(posted: map<nat, set<bool>>, zones: map<nat, bool>, acked: bool): map<nat, set<bool>> {
    map i | i in posted.Keys + zones.Keys ::
      if i !in zones then posted[i]
      else if acked then {zones[i]}
      else PowersAt(posted, i) + {zones[i]}
  }

  function PostZonePower(p: Profile, posted: map<nat, set<bool>>, frames: seq<Frame>, zones: map<nat, bool>,
                         wake: map<nat, bool>, acked: bool): map<nat, set<bool>> {
    if !p.globalPower then posted
    else
      var posted := PostZones(posted, zones, acked);
      if wake != map[] && HasBrightness(frames) then PostZones(posted, wake, false) else posted
  }

  function DropPowerRead(l: Lib): Lib {
    l.(powerRead := None, drops := l.drops + 1)
  }

  function SetPowerUnsure(l: Lib): Lib {
    DropPowerRead(l.(unsure := true, unsureSeq := l.unsureSeq + 1))
  }

  function StampPowerRead(l: Lib, since: nat, now: real): Lib {
    if since == l.drops && l.st.isOn.Some? then l.(powerRead := Some((now, l.st.isOn.value))) else l
  }

  function FinishRead(l: Lib, powerRead: bool, since: nat): Lib {
    if powerRead && since == l.unsureSeq then l.(unsure := false) else l
  }

  /** `power_read_at`: the stamp of the last read of the on/off, while `is_on` still holds what it gave. */
  function PowerReadAt(l: Lib): Option<real> {
    if l.powerRead.Some? && l.st.isOn == Some(l.powerRead.value.1) then Some(l.powerRead.value.0) else None
  }

  /** Every profile zone outside `zones` is held lit with a stamp. */
  predicate OthersConfirmedLit(p: Profile, s: State, zones: set<nat>) {
    forall i :: i in p.zones && i !in zones ==> Get(s.zonePower, i) == Some(true) && i in s.confirmed
  }

  function ApplyEffect(p: Profile, s: State, e: Effect, now: real): State {
    match e
    case PowerTo(on) => ApplyPower(p, s, on, p.zones, now)
    case ZoneTo(i, on) => ApplyZonePower(p, s, s.zonePower[i := on], {i}, now)
    case BarsTo(left, right) => ApplyZonePower(p, s, map[0 := left, 1 := right], {0, 1}, now)
    case SceneOn => ApplyScene(p, s, now)
    case NoPower => s
  }

  /** The wake of a commit: worked out before the write waited for the link, and again once its frames went out. */
  function Wake(p: Profile, l: Lib, w: Write, early: map<nat, bool>): map<nat, bool> {
    early + WakePower(p, l, w.frames)
  }

  function AckedState(p: Profile, l: Lib, w: Write, early: map<nat, bool>, now: real): State {
    UnconfirmContradicted(ApplyEffect(p, l.st, w.effect, now), Wake(p, l, w, early))
  }

  /** An acked write over every profile zone gives the on/off again. */
  predicate AckSure(p: Profile, w: Write) {
    w.zones.Some? && |w.zones.value| == |p.zones|
  }

  /** An acked zone-off that may have darkened the last lit zone, and so the fixture. */
  predicate AckUnsure(p: Profile, l: Lib, w: Write, st: State) {
    && !AckSure(p, w) && Entries(w.zones) != map[] && !AnyOn(Entries(w.zones))
    && !(KnownOn(l) && OthersConfirmedLit(p, st, Entries(w.zones).Keys))
  }

  /** An acked write that changed the on/off, or lit a zone of a fixture not held on. */
  predicate AckDrops(p: Profile, l: Lib, w: Write, early: map<nat, bool>, st: State) {
    st.isOn != l.st.isOn ||
    ((Wake(p, l, w, early) != map[] || AnyOn(Entries(w.zones))) && st.isOn != Some(true))
  }

  function Count(b: bool): nat {
    if b then 1 else 0
  }

  /** The end of an acked commit. */
  function CommitAcked(p: Profile, l: Lib, w: Write, early: map<nat, bool>, now: real): Lib {
    var st := AckedState(p, l, w, early, now);
    var dropped, unsure := AckDrops(p, l, w, early, st), AckUnsure(p, l, w, st);
    Lib(st,
        PostZonePower(p, l.posted, w.frames, Entries(w.zones), Wake(p, l, w, early), true),
        !AckSure(p, w) && (unsure || l.unsure), l.unsureSeq + Count(unsure),
        if dropped || unsure then None else l.powerRead, l.drops + Count(dropped) + Count(unsure),
        l.seqNo + 1)
  }

  function RaisedState(p: Profile, l: Lib, w: Write, early: map<nat, bool>): State {
    UnconfirmContradicted(if w.fixture then UnconfirmAll(l.st) else UnconfirmZones(l.st, Entries(w.zones).Keys),
                          Wake(p, l, w, early))
  }

  /** A raised write whose zones are all off may have switched the device off. */
  predicate RaiseUnsure(w: Write) {
    Entries(w.zones) != map[] && !AnyOn(Entries(w.zones))
  }

  predicate RaiseDrops(p: Profile, l: Lib, w: Write, early: map<nat, bool>) {
    w.fixture || w.zones.Some? || (Wake(p, l, w, early) != map[] && l.st.isOn != Some(true))
  }

  /** A commit that raised: its frames may or may not have reached the device. */
  function CommitRaised(p: Profile, l: Lib, w: Write, early: map<nat, bool>): Lib {
    var dropped, unsure := RaiseDrops(p, l, w, early), RaiseUnsure(w);
    Lib(RaisedState(p, l, w, early),
        PostZonePower(p, l.posted, w.frames, Entries(w.zones), Wake(p, l, w, early), false),
        unsure || l.unsure, l.unsureSeq + Count(unsure),
        if dropped || unsure then None else l.powerRead, l.drops + Count(dropped) + Count(unsure),
        l.seqNo)
  }

  /** `powers` holds the power `on` and no other. */
  predicate Only(powers: set<bool>, on: bool) {
    on in powers && !on !in powers
  }

  /** The zones a status reply reports at a power the writes posted since the last one do not settle. */
  function Unsettled(posted: map<nat, set<bool>>, st: Status): set<nat> {
    set i | i in st.zonePower && i in posted && !Only(posted[i], st.zonePower[i])
  }

  /** A status reply folded in, with the counters as they were when its read was issued. */
  function StatusRead(l: Lib, st: Status, since: nat, drops: nat, now: real): Lib {
    var unsettled := Unsettled(l.posted, st);
    var l1 := l.(st := ApplyStatus(l.st, st, unsettled, now));
    var powerRead := st.isOn.Some?;
    var l2 := if powerRead then StampPowerRead(l1, drops, now) else l1;
    var l3 := if powerRead && exists i :: i in l.posted && (i !in st.zonePower || i in unsettled)
              then SetPowerUnsure(l2) else l2;
    FinishRead(l3.(posted := l3.posted - st.zonePower.Keys), powerRead, since)
  }

  /** A polled reply that gives the on/off: aa 01 (or a plug's relay, or aa 34), or both bars (aa 36). */
  datatype PowerReply = Switched(on: bool) | BothRead(left: bool, right: bool)

  function OnOf(r: PowerReply): bool {
    match r
    case Switched(on) => on
    case BothRead(left, right) => left || right
  }

  /** Such a reply folded in, with the drop counter as it was when its read was issued. On a bar-switch device an
      on/off the held bars contradict takes their stamps away. */
  function PowerFolded(p: Profile, l: Lib, r: PowerReply, drops: nat, now: real): Lib {
    match r
    case Switched(on) =>
      var l' := StampPowerRead(l.(st := l.st.(isOn := Some(on))), drops, now);
      if p.barSwitch && on != AnyOn(l.st.zonePower)
      then l'.(st := UnconfirmContradicted(l'.st, AllTo(l.st.zonePower.Keys, on))) else l'
    case BothRead(left, right) =>
      StampPowerRead(l.(st := ApplyBars(l.st, left, right, now)), drops, now)
  }
}

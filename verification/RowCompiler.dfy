/** The resolver's compiled form of a row (devices/_resolve.py `_fields`) and its evaluation at run time
    (devices/_fold.py, Device._status_types): for every row the resolver accepts, what the reference reading gives. */
module RowCompiler {
  import opened Basics
  import opened Sorting
  import opened RowFacts

  /** The TLV type of the colour groups. */
  const COLOR_GROUP: nat := 0xA5

  const PERCENT: Range := Range(1, 100)

  datatype SceneGate = SceneGate(soft: Option<Text>, hard: Option<Text>, scenes: set<nat>)

  datatype KelvinGate = KelvinGate(at: Text, range: Range)

  datatype Fields = Fields(
    scenes: set<nat>, scenesByPact: seq<(Pact, set<nat>)>, scenesByFirmware: seq<SceneGate>,
    kelvin: Option<Range>, kelvinByPact: seq<(Pact, Range)>, kelvinByVersion: seq<KelvinGate>, bySoft: bool,
    bright: Option<Range>, brightByPact: seq<(Pact, Option<Range>)>,
    status: seq<nat>, groupsFrom: Option<Pact>, statusByPact: seq<(Pact, seq<nat>)>)

  /** What the SKU's row does: uploads scenes, has brightness, is on the older pact fallback. */
  datatype Caps = Caps(uploads: bool, brightness: bool, fallback: bool)

  // ---- Compiling ------------------------------------------------------------------------------------------------

  function Select<T>(byPact: seq<(Pact, Branch)>, pick: Branch -> Option<T>): seq<(Pact, T)> {
    if byPact == [] then []
    else
      var (pact, branch) := byPact[|byPact| - 1];
      Select(byPact[..|byPact| - 1], pick) + if pick(branch).Some? then [(pact, pick(branch).value)] else []
  }

  function ScenesPick(b: Branch): Option<set<nat>> {
    b.facts.scenes
  }

  function KelvinPick(b: Branch): Option<Range> {
    b.facts.kelvin
  }

  function BrightPick(b: Branch): Option<Option<Range>> {
    if b.facts.bright.Some? then Some(Raw(b.facts.bright.value)) else None
  }

  function StatusPick(b: Branch): Option<seq<nat>> {
    b.status
  }

  function SceneGates(items: seq<Item>): seq<SceneGate> {
    if items == [] then []
    else
      var item := items[|items| - 1];
      SceneGates(items[..|items| - 1])
      + if item.facts.scenes.Some? then [SceneGate(item.gates.soft, item.gates.hard, item.facts.scenes.value)] else []
  }

  function VersionGate(item: Item): Option<Text> {
    Else(item.gates.soft, item.gates.hard)
  }

  /** The items' Kelvin entries, in list order. */
  function KelvinGates(items: seq<Item>): seq<KelvinGate> {
    if items == [] then []
    else
      var item := items[|items| - 1];
      KelvinGates(items[..|items| - 1])
      + if item.facts.kelvin.Some? && VersionGate(item).Some?
        then [KelvinGate(VersionGate(item).value, item.facts.kelvin.value)] else []
  }

  predicate KelvinBefore(a: KelvinGate, b: KelvinGate) {
    TextLess(b.at, a.at) || (a.at == b.at && (b.range.lo < a.range.lo
                                              || (a.range.lo == b.range.lo && b.range.hi < a.range.hi)))
  }

  lemma KelvinOrder()
    ensures TotalOrder(KelvinBefore)
  {
    TextOrder();
    forall a, b | a != b ensures KelvinBefore(a, b) || KelvinBefore(b, a) {
      assert a.at != b.at || a.range.lo != b.range.lo || a.range.hi != b.range.hi;
    }
  }

  /** Descending by version. */
  ghost function Descending(entries: set<KelvinGate>): (r: seq<KelvinGate>)
    ensures Increasing(KelvinBefore, r) && forall e :: e in r <==> e in entries
  {
    KelvinOrder();
    Sorted(KelvinBefore, entries)
  }

  function Raw(range: Range): Option<Range> {
    if range == PERCENT then None else Some(range)
  }

  function Without(types: seq<nat>, t: nat): seq<nat> {
    if types == [] then []
    else Without(types[..|types| - 1], t) + if types[|types| - 1] == t then [] else [types[|types| - 1]]
  }

  function StatusReads(row: Row): seq<(Pact, seq<nat>)> {
    Select(row.byPact, StatusPick)
  }

  /** Every branch reads the row's types, or them without the colour groups. */
  predicate OneGate(row: Row, status: seq<nat>) {
    forall k :: 0 <= k < |StatusReads(row)| ==> StatusReads(row)[k].1 in {status, Without(status, COLOR_GROUP)}
  }

  function Dropping(row: Row, status: seq<nat>): set<Pact> {
    set k | 0 <= k < |StatusReads(row)| && StatusReads(row)[k].1 != status :: StatusReads(row)[k].0
  }

  predicate PactLess(a: Pact, b: Pact) {
    a.kind < b.kind || (a.kind == b.kind && a.code < b.code)
  }

  /** The least pact. */
  predicate First(pacts: set<Pact>, p: Pact) {
    p in pacts && forall q :: q in pacts && q != p ==> PactLess(p, q)
  }

  /** The colour-group gate: the least listed pact that keeps the groups, or none where every pact does. */
  predicate GateIs(row: Row, status: seq<nat>, gate: Option<Pact>) {
    if !OneGate(row, status) || Dropping(row, status) == {} then gate == None
    else gate.Some? && row.pacts.Some? && First(row.pacts.value - Dropping(row, status), gate.value)
  }

  ghost predicate Compiled(caps: Caps, s: Source, f: Fields) {
    var base, items := BaseFacts(s), ItemsOf(s);
    var status := if s.row.status.Some? then s.row.status.value else [];
    && f.scenes == (if caps.uploads && base.scenes.Some? then base.scenes.value else {})
    && f.scenesByPact == (if caps.uploads then Select(s.row.byPact, ScenesPick) else [])
    && f.scenesByFirmware == (if caps.uploads then SceneGates(s.row.items) else [])
    && f.kelvin == base.kelvin
    && f.kelvinByPact == Select(s.row.byPact, KelvinPick)
    && f.kelvinByVersion == Descending(set e | e in KelvinGates(items))
    && f.bySoft == (exists k :: 0 <= k < |items| && items[k].facts.kelvin.Some? && items[k].gates.soft.Some?)
    && f.bright == (if caps.brightness && base.bright.Some? then Raw(base.bright.value) else None)
    && f.brightByPact == Select(s.row.byPact, BrightPick)
    && f.status == status
    && GateIs(s.row, status, f.groupsFrom)
    && f.statusByPact == (if OneGate(s.row, status) then [] else Filtered(StatusReads(s.row), status))
  }

  /** The branches whose read differs from the row's. */
  function Filtered(entries: seq<(Pact, seq<nat>)>, status: seq<nat>): seq<(Pact, seq<nat>)> {
    if entries == [] then []
    else
      var last := entries[|entries| - 1];
      Filtered(entries[..|entries| - 1], status) + if last.1 == status then [] else [last]
  }

  // ---- What the resolver accepts --------------------------------------------------------------------------------

  predicate ValidRange(r: Option<Range>) {
    r.Some? ==> 0 < r.value.lo <= r.value.hi
  }

  predicate GateParses(parse: Parse, gate: Option<Text>) {
    gate.Some? ==> gate.value != "" && parse(gate.value).Some? && parse(gate.value).value != []
  }

  /** A firmware item carries a Kelvin range on one of the soft and hard versions, or a scene set on either or both. */
  predicate ServedItem(parse: Parse, item: Item) {
    var g, facts := item.gates, item.facts;
    && GateParses(parse, g.soft) && GateParses(parse, g.hard) && GateParses(parse, g.wifi)
    && g.wifi.None? && facts.bright.None? && (g.soft.Some? || g.hard.Some?)
    && (if facts.kelvin.Some? then facts.scenes.None? && !(g.soft.Some? && g.hard.Some?) && ValidRange(facts.kelvin)
        else facts.scenes.Some?)
  }

  predicate Overlaps(base: Range, r: Range) {
    r.lo <= base.hi && r.hi >= base.lo
  }

  function Cut(base: Range, ranges: seq<Range>): Range {
    if ranges == [] then base
    else
      var cut, last := Cut(base, ranges[..|ranges| - 1]), ranges[|ranges| - 1];
      Range(if cut.lo >= last.lo then cut.lo else last.lo, if cut.hi <= last.hi then cut.hi else last.hi)
  }

  /** Each range overlaps the base, and the base cut to all of them is not empty. */
  predicate OverlapsEvery(base: Range, ranges: seq<Range>) {
    (forall k :: 0 <= k < |ranges| ==> Overlaps(base, ranges[k])) && Cut(base, ranges).lo <= Cut(base, ranges).hi
  }

  function RangesOf(entries: seq<(Pact, Range)>): seq<Range> {
    seq(|entries|, k requires 0 <= k < |entries| => entries[k].1)
  }

  function GateRanges(entries: seq<KelvinGate>): seq<Range> {
    seq(|entries|, k requires 0 <= k < |entries| => entries[k].range)
  }

  predicate DistinctPacts<T>(entries: seq<(Pact, T)>) {
    forall i, j :: 0 <= i < j < |entries| ==> entries[i].0 != entries[j].0
  }

  predicate DistinctVersions(entries: seq<KelvinGate>) {
    forall i, j :: 0 <= i < j < |entries| ==> entries[i].at != entries[j].at
  }

  predicate KelvinAccepted(s: Source, f: Fields) {
    var items := ItemsOf(s);
    && ValidRange(f.kelvin)
    && (forall k :: 0 <= k < |f.kelvinByPact| ==> ValidRange(Some(f.kelvinByPact[k].1)))
    && DistinctVersions(KelvinGates(items))
    && (KelvinGates(items) != [] ==> f.kelvin.Some? && f.kelvinByPact == [])
    && (f.kelvinByPact != [] ==> f.kelvin.Some?)
    && (f.kelvin.Some? ==>
          OverlapsEvery(f.kelvin.value, RangesOf(f.kelvinByPact))
          && OverlapsEvery(f.kelvin.value, GateRanges(f.kelvinByVersion)))
    && (forall i, j :: 0 <= i < |items| && 0 <= j < |items|
           && items[i].facts.kelvin.Some? && items[j].facts.kelvin.Some?
          ==> (items[i].gates.soft.Some? <==> items[j].gates.soft.Some?))
  }

  predicate StatusAccepted(caps: Caps, row: Row, f: Fields) {
    if OneGate(row, f.status)
    then Dropping(row, f.status) != {} ==>
           && row.pacts.Some? && f.groupsFrom.Some?
           && (forall p :: p in row.pacts.value - Dropping(row, f.status) ==> p.kind == f.groupsFrom.value.kind)
           && forall p :: p in Dropping(row, f.status) && p.kind == f.groupsFrom.value.kind ==>
                p.code < f.groupsFrom.value.code
    else !caps.fallback
  }

  /** A range is the row's or the model's, not both. */
  predicate LayersApart(s: Source) {
    !(s.row.own.kelvin.Some? && s.model.kelvin.Some?) && !(s.row.own.bright.Some? && s.model.bright.Some?)
  }

  /** A model's items carry Kelvin ranges, and only where the model has one. */
  predicate ItemsServed(parse: Parse, s: Source) {
    && (forall k :: 0 <= k < |s.row.items| ==> ServedItem(parse, s.row.items[k]))
    && (forall k :: 0 <= k < |s.modelItems| ==>
          ServedItem(parse, s.modelItems[k]) && s.modelItems[k].facts.kelvin.Some? && s.model.kelvin.Some?)
  }

  /** The resolver's checks of a row and its compiled fields. */
  predicate Passes(parse: Parse, caps: Caps, s: Source, f: Fields) {
    && DistinctPacts(s.row.byPact)
    && LayersApart(s)
    && ItemsServed(parse, s)
    && (forall k :: 0 <= k < |s.row.byPact| && s.row.pacts.Some? ==> s.row.byPact[k].0 in s.row.pacts.value)
    && (caps.uploads ==> BaseFacts(s).scenes.Some?) && (caps.brightness ==> BaseFacts(s).bright.Some?)
    && (!caps.brightness ==> f.brightByPact == [])
    && KelvinAccepted(s, f)
    && (s.row.status.Some? ==> StatusAccepted(caps, s.row, f))
  }

  ghost predicate Accepts(parse: Parse, caps: Caps, s: Source, f: Fields) {
    Compiled(caps, s, f) && Passes(parse, caps, s, f)
  }

  // ---- Evaluating -----------------------------------------------------------------------------------------------

  /** The last entry of the pact, else the default. */
  function Lookup<T>(entries: seq<(Pact, T)>, pact: Option<Pact>, default: T): T {
    if entries == [] then default
    else if Some(entries[|entries| - 1].0) == pact then entries[|entries| - 1].1
    else Lookup(entries[..|entries| - 1], pact, default)
  }

  /** A gate is met where there is none, and by a version not read yet. */
  predicate Meets(parse: Parse, have: Option<Text>, gate: Option<Text>) {
    gate.None? || parse(gate.value).None? || have.None?
    || (parse(have.value).Some? && AtLeast(parse(have.value).value, parse(gate.value).value))
  }

  function ScenesAfter(parse: Parse, scenes: set<nat>, gates: seq<SceneGate>, soft: Option<Text>,
                       hard: Option<Text>): set<nat> {
    if gates == [] then scenes
    else
      var last := gates[|gates| - 1];
      if Meets(parse, soft, last.soft) && Meets(parse, hard, last.hard) then last.scenes
      else ScenesAfter(parse, scenes, gates[..|gates| - 1], soft, hard)
  }

  function SceneVersions(parse: Parse, f: Fields, soft: Option<Text>, hard: Option<Text>,
                         pact: Option<Pact>): set<nat> {
    ScenesAfter(parse, Lookup(f.scenesByPact, pact, f.scenes), f.scenesByFirmware, soft, hard)
  }

  function Brightness(f: Fields, pact: Option<Pact>): Option<Range> {
    Lookup(f.brightByPact, pact, f.bright)
  }

  /** The first entry the version is at least. */
  function FirstMet(gates: seq<KelvinGate>, have: Text): Option<Range> {
    if gates == [] then None
    else if TextAtLeast(have, gates[0].at) then Some(gates[0].range)
    else FirstMet(gates[1..], have)
  }

  function KelvinRange(f: Fields, hard: Option<Text>, pact: Option<Pact>, soft: Option<Text>): Option<Range> {
    if f.kelvin.None? then None
    else
      var base := if pact.None? then Cut(f.kelvin.value, RangesOf(f.kelvinByPact))
                  else Lookup(f.kelvinByPact, pact, f.kelvin.value);
      var have := if f.bySoft then soft else hard;
      if have.None? then Some(Cut(base, GateRanges(f.kelvinByVersion)))
      else Some(Either(FirstMet(f.kelvinByVersion, have.value), base))
  }

  function Either(a: Option<Range>, b: Range): Range {
    if a.Some? then a.value else b
  }

  function StatusTypes(f: Fields, pact: Option<Pact>): seq<nat> {
    var types := Lookup(f.statusByPact, pact, f.status);
    if f.groupsFrom.None? || pact.None?
       || (pact.value.kind == f.groupsFrom.value.kind && pact.value.code >= f.groupsFrom.value.code) then types
    else Without(types, COLOR_GROUP)
  }

  // ---- Pact branches --------------------------------------------------------------------------------------------

  /** Looking a fact's own list up gives the branch's fact, else the default. */
  lemma {:induction false} SelectLookup<T>(byPact: seq<(Pact, Branch)>, pick: Branch -> Option<T>, pact: Pact,
                                           default: T)
    requires DistinctPacts(byPact)
    ensures Lookup(Select(byPact, pick), Some(pact), default)
         == var b := BranchAt(byPact, pact); if b.Some? && pick(b.value).Some? then pick(b.value).value else default
  {
    if byPact == [] {
    } else {
      var n := |byPact| - 1;
      SelectLookup(byPact[..n], pick, pact, default);
      var rest := Select(byPact[..n], pick);
      if pick(byPact[n].1).Some? {
        assert Select(byPact, pick)[..|rest|] == rest;
      } else {
        assert Select(byPact, pick) == rest;
        if byPact[n].0 == pact {
          NoBranch(byPact[..n], pact);
        }
      }
    }
  }

  lemma {:induction false} NoBranch(byPact: seq<(Pact, Branch)>, pact: Pact)
    requires forall k :: 0 <= k < |byPact| ==> byPact[k].0 != pact
    ensures BranchAt(byPact, pact) == None
  {
    if byPact == [] {
    } else {
      NoBranch(byPact[..|byPact| - 1], pact);
    }
  }

  lemma {:induction false} LookupNone<T>(entries: seq<(Pact, T)>, default: T)
    ensures Lookup(entries, None, default) == default
  {
    if entries == [] {
    } else {
      LookupNone(entries[..|entries| - 1], default);
    }
  }

  // ---- Scene sets and brightness --------------------------------------------------------------------------------

  lemma GateMeets(parse: Parse, gate: Option<Text>, have: Text)
    requires GateParses(parse, gate)
    ensures Meets(parse, Some(have), gate) <==> GateHolds(parse, gate, Some(have), false)
  {
  }

  /** With both versions known, the compiled scene gates run as the row's items do. */
  lemma {:induction false} ScenesItems(parse: Parse, items: seq<Item>, facts: Layer, scenes: set<nat>, soft: Text,
                                       hard: Text,
                                       wifi: Option<Text>)
    requires (forall k :: 0 <= k < |items| ==> ServedItem(parse, items[k])) && facts.scenes == Some(scenes)
    ensures Applied(parse, facts, items, Versions(Some(soft), Some(hard), wifi)).scenes
         == Some(ScenesAfter(parse, scenes, SceneGates(items), Some(soft), Some(hard)))
  {
    if items == [] {
    } else {
      var n, v := |items| - 1, Versions(Some(soft), Some(hard), wifi);
      var rest := SceneGates(items[..n]);
      ScenesItems(parse, items[..n], facts, scenes, soft, hard, wifi);
      assert ServedItem(parse, items[n]);
      if items[n].facts.scenes.Some? {
        assert SceneGates(items)[..|rest|] == rest;
        GateMeets(parse, items[n].gates.soft, soft);
        GateMeets(parse, items[n].gates.hard, hard);
      } else {
        assert SceneGates(items) == rest;
      }
    }
  }

  /** Items without a fact leave it as it was. */
  lemma {:induction false} ItemsLeave(parse: Parse, items: seq<Item>, facts: Layer, v: Versions)
    ensures (forall k :: 0 <= k < |items| ==> items[k].facts.scenes.None?) ==>
              Applied(parse, facts, items, v).scenes == facts.scenes
    ensures (forall k :: 0 <= k < |items| ==> items[k].facts.bright.None?) ==>
              Applied(parse, facts, items, v).bright == facts.bright
  {
    if items == [] {
    } else {
      ItemsLeave(parse, items[..|items| - 1], facts, v);
    }
  }

  lemma {:induction false} AppliedConcat(parse: Parse, facts: Layer, a: seq<Item>, b: seq<Item>, v: Versions)
    ensures Applied(parse, facts, a + b, v) == Applied(parse, Applied(parse, facts, a, v), b, v)
  {
    if b == [] {
      assert a + b == a;
    } else {
      assert (a + b)[..|a + b| - 1] == a + b[..|b| - 1];
      AppliedConcat(parse, facts, a, b[..|b| - 1], v);
    }
  }

  function ModelItems(s: Source): seq<Item> {
    seq(|s.modelItems|, i requires 0 <= i < |s.modelItems| => ModelItem(s, s.modelItems[i]))
  }

  lemma SceneBranch(s: Source, f: Fields, pact: Option<Pact>)
    requires DistinctPacts(s.row.byPact) && BaseFacts(s).scenes == Some(f.scenes)
    requires f.scenesByPact == Select(s.row.byPact, ScenesPick)
    ensures WithBranch(s, pact).layer.scenes == Some(Lookup(f.scenesByPact, pact, f.scenes))
  {
    if pact.Some? {
      SelectLookup(s.row.byPact, ScenesPick, pact.value, f.scenes);
    } else {
      LookupNone(f.scenesByPact, f.scenes);
    }
  }

  /** The model's items carry no scene set, so the row's own decide. */
  lemma SceneItems(parse: Parse, s: Source, facts: Layer, scenes: set<nat>, soft: Text, hard: Text, wifi: Option<Text>)
    requires ItemsServed(parse, s) && facts.scenes == Some(scenes)
    ensures Applied(parse, facts, ItemsOf(s), Versions(Some(soft), Some(hard), wifi)).scenes
         == Some(ScenesAfter(parse, scenes, SceneGates(s.row.items), Some(soft), Some(hard)))
  {
    var v := Versions(Some(soft), Some(hard), wifi);
    AppliedConcat(parse, facts, ModelItems(s), s.row.items, v);
    ItemsLeave(parse, ModelItems(s), facts, v);
    ScenesItems(parse, s.row.items, Applied(parse, facts, ModelItems(s), v), scenes, soft, hard, wifi);
  }

  /** The compiled scene set is the reference's, at every pact, with the soft and hard versions known. */
  lemma ScenesAgree(parse: Parse, caps: Caps, s: Source, f: Fields, pact: Option<Pact>, soft: Text, hard: Text,
                    wifi: Option<Text>)
    requires Accepts(parse, caps, s, f) && caps.uploads
    ensures ClientRow(parse, s, pact, Versions(Some(soft), Some(hard), wifi)).layer.scenes
         == Some(SceneVersions(parse, f, Some(soft), Some(hard), pact))
  {
    SceneBranch(s, f, pact);
    SceneItems(parse, s, WithBranch(s, pact).layer, Lookup(f.scenesByPact, pact, f.scenes), soft, hard, wifi);
  }

  /** The compiled raw brightness range is the reference's, percent being [1, 100], at every pact and any versions. */
  lemma BrightnessAgrees(parse: Parse, caps: Caps, s: Source, f: Fields, pact: Option<Pact>, v: Versions)
    requires Accepts(parse, caps, s, f) && caps.brightness
    ensures var range := ClientRow(parse, s, pact, v).layer.bright;
            range.Some? && Brightness(f, pact) == if range == Some(Range(1, 100)) then None else range
  {
    BrightBranch(s, f, pact);
    BrightItems(parse, s);
    ItemsLeave(parse, ItemsOf(s), WithBranch(s, pact).layer, v);
  }

  lemma BrightBranch(s: Source, f: Fields, pact: Option<Pact>)
    requires DistinctPacts(s.row.byPact) && BaseFacts(s).bright.Some? && f.bright == Raw(BaseFacts(s).bright.value)
    requires f.brightByPact == Select(s.row.byPact, BrightPick)
    ensures var range := WithBranch(s, pact).layer.bright; range.Some? && Brightness(f, pact) == Raw(range.value)
  {
    if pact.Some? {
      SelectLookup(s.row.byPact, BrightPick, pact.value, f.bright);
    } else {
      LookupNone(f.brightByPact, f.bright);
    }
  }

  /** No item carries a brightness range. */
  lemma BrightItems(parse: Parse, s: Source)
    requires ItemsServed(parse, s)
    ensures forall k :: 0 <= k < |ItemsOf(s)| ==> ItemsOf(s)[k].facts.bright.None?
  {
    var n := |s.modelItems|;
    forall k | 0 <= k < |ItemsOf(s)| ensures ItemsOf(s)[k].facts.bright.None? {
      if k < n {
        assert ServedItem(parse, s.modelItems[k]);
      } else {
        assert ServedItem(parse, s.row.items[k - n]);
      }
    }
  }

  // ---- Status reads ---------------------------------------------------------------------------------------------

  lemma {:induction false} SelectKeys<T>(byPact: seq<(Pact, Branch)>, pick: Branch -> Option<T>)
    requires DistinctPacts(byPact)
    ensures DistinctPacts(Select(byPact, pick))
    ensures forall j :: 0 <= j < |Select(byPact, pick)| ==>
              exists k :: 0 <= k < |byPact| && byPact[k].0 == Select(byPact, pick)[j].0
  {
    if byPact == [] {
    } else {
      var n := |byPact| - 1;
      var rest := Select(byPact[..n], pick);
      SelectKeys(byPact[..n], pick);
      forall j | 0 <= j < |Select(byPact, pick)|
        ensures exists k :: 0 <= k < |byPact| && byPact[k].0 == Select(byPact, pick)[j].0
      {
        if j < |rest| {
          var k :| 0 <= k < n && byPact[..n][k].0 == rest[j].0;
          assert byPact[k].0 == Select(byPact, pick)[j].0;
        } else {
          assert byPact[n].0 == Select(byPact, pick)[j].0;
        }
      }
    }
  }

  lemma {:induction false} LookupAt<T>(entries: seq<(Pact, T)>, k: nat, default: T)
    requires DistinctPacts(entries) && k < |entries|
    ensures Lookup(entries, Some(entries[k].0), default) == entries[k].1
  {
    if k < |entries| - 1 {
      LookupAt(entries[..|entries| - 1], k, default);
    }
  }

  lemma {:induction false} LookupAbsent<T>(entries: seq<(Pact, T)>, pact: Pact, default: T)
    requires forall k :: 0 <= k < |entries| ==> entries[k].0 != pact
    ensures Lookup(entries, Some(pact), default) == default
  {
    if entries == [] {
    } else {
      LookupAbsent(entries[..|entries| - 1], pact, default);
    }
  }

  lemma {:induction false} FilteredLookup(entries: seq<(Pact, seq<nat>)>, status: seq<nat>, pact: Pact)
    requires DistinctPacts(entries)
    ensures Lookup(Filtered(entries, status), Some(pact), status) == Lookup(entries, Some(pact), status)
  {
    if entries == [] {
    } else {
      var n := |entries| - 1;
      var rest := Filtered(entries[..n], status);
      FilteredLookup(entries[..n], status, pact);
      if entries[n].1 == status {
        assert Filtered(entries, status) == rest;
        if entries[n].0 == pact {
          LookupAbsent(entries[..n], pact, status);
        }
      } else {
        assert Filtered(entries, status)[..|rest|] == rest;
      }
    }
  }

  /** The pacts that drop the groups are those whose own read is not the row's. */
  lemma DroppingAt(row: Row, status: seq<nat>, pact: Pact)
    requires DistinctPacts(row.byPact)
    ensures pact in Dropping(row, status) <==> Lookup(StatusReads(row), Some(pact), status) != status
    ensures OneGate(row, status) && pact in Dropping(row, status) ==>
              Lookup(StatusReads(row), Some(pact), status) == Without(status, COLOR_GROUP)
  {
    var entries := StatusReads(row);
    SelectKeys(row.byPact, StatusPick);
    if k :| 0 <= k < |entries| && entries[k].0 == pact {
      LookupAt(entries, k, status);
    } else {
      LookupAbsent(entries, pact, status);
    }
  }

  /** At every listed pact, and before one is heard, the status read requests the types the reference gives. */
  lemma StatusAgrees(parse: Parse, caps: Caps, s: Source, f: Fields, pact: Option<Pact>, v: Versions)
    requires Accepts(parse, caps, s, f) && s.row.status.Some?
    requires pact.Some? && s.row.pacts.Some? ==> pact.value in s.row.pacts.value
    ensures ClientRow(parse, s, pact, v).status == Some(StatusTypes(f, pact))
  {
    if pact.None? {
      LookupNone(f.statusByPact, f.status);
    } else {
      var entries := StatusReads(s.row);
      SelectKeys(s.row.byPact, StatusPick);
      SelectLookup(s.row.byPact, StatusPick, pact.value, f.status);
      FilteredLookup(entries, f.status, pact.value);
      DroppingAt(s.row, f.status, pact.value);
      if OneGate(s.row, f.status) && Dropping(s.row, f.status) != {} {
        GateDecides(caps, s.row, f, pact.value);
      }
    }
  }

  /** The gate asks for the groups at exactly the listed pacts that keep them. */
  lemma GateDecides(caps: Caps, row: Row, f: Fields, pact: Pact)
    requires StatusAccepted(caps, row, f) && OneGate(row, f.status) && Dropping(row, f.status) != {}
    requires row.pacts.Some? && pact in row.pacts.value && GateIs(row, f.status, f.groupsFrom)
    ensures f.groupsFrom.Some?
    ensures pact in Dropping(row, f.status) <==>
            !(pact.kind == f.groupsFrom.value.kind && pact.code >= f.groupsFrom.value.code)
  {
    if pact !in Dropping(row, f.status) {
      assert pact in row.pacts.value - Dropping(row, f.status);
    }
  }

  // ---- Kelvin ---------------------------------------------------------------------------------------------------

  /** The last entry the version is at least, in list order. */
  function LastMet(gates: seq<KelvinGate>, have: Text): Option<Range> {
    if gates == [] then None
    else if TextAtLeast(have, gates[|gates| - 1].at) then Some(gates[|gates| - 1].range)
    else LastMet(gates[..|gates| - 1], have)
  }

  predicate OneVersion(items: seq<Item>, bySoft: bool) {
    forall k :: 0 <= k < |items| && items[k].facts.kelvin.Some? ==>
      (items[k].gates.soft.Some? <==> bySoft) && VersionGate(items[k]).Some? && VersionGate(items[k]).value != ""
      && !(items[k].gates.soft.Some? && items[k].gates.hard.Some?) && items[k].gates.wifi.None?
  }

  /** The items' Kelvin range in the reference reading is the last entry's that the version meets. */
  lemma {:induction false} ItemsKelvin(parse: Parse, items: seq<Item>, facts: Layer, base: Range, bySoft: bool,
                                       have: Text, v: Versions)
    requires OneVersion(items, bySoft) && facts.kelvin == Some(base)
    requires (if bySoft then v.soft else v.hard) == Some(have)
    ensures Applied(parse, facts, items, v).kelvin == Some(Either(LastMet(KelvinGates(items), have), base))
  {
    if items == [] {
    } else {
      var n := |items| - 1;
      var rest := KelvinGates(items[..n]);
      ItemsKelvin(parse, items[..n], facts, base, bySoft, have, v);
      if items[n].facts.kelvin.Some? {
        assert KelvinGates(items)[..|rest|] == rest;
        assert ItemHolds(parse, items[n], v) <==> TextAtLeast(have, VersionGate(items[n]).value);
      } else {
        assert KelvinGates(items) == rest;
      }
    }
  }

  /** `e` is the highest entry the version meets. */
  predicate Highest(gates: seq<KelvinGate>, have: Text, e: KelvinGate) {
    e in gates && TextAtLeast(have, e.at)
    && forall g :: g in gates && TextAtLeast(have, g.at) ==> TextAtLeast(e.at, g.at)
  }

  lemma {:induction false} FirstHighest(gates: seq<KelvinGate>, have: Text)
    requires Increasing(KelvinBefore, gates)
    ensures match FirstMet(gates, have)
            case None => forall g :: g in gates ==> !TextAtLeast(have, g.at)
            case Some(r) => exists e :: Highest(gates, have, e) && e.range == r
  {
    if gates == [] {
    } else {
      if TextAtLeast(have, gates[0].at) {
        forall g | g in gates ensures TextAtLeast(gates[0].at, g.at) {
          if g != gates[0] {
            assert KelvinBefore(gates[0], g);
            TextOrder();
          } else {
            TextIrreflexive(g.at);
          }
        }
        assert Highest(gates, have, gates[0]);
      } else {
        FirstHighest(gates[1..], have);
        if e :| FirstMet(gates[1..], have).Some? && Highest(gates[1..], have, e)
                && e.range == FirstMet(gates[1..], have).value {
          assert Highest(gates, have, e);
        }
      }
    }
  }

  /** Two versions that meet the same entries have the same last one. */
  lemma {:induction false} SameLast(gates: seq<KelvinGate>, a: Text, b: Text)
    requires forall g :: g in gates ==> (TextAtLeast(a, g.at) <==> TextAtLeast(b, g.at))
    ensures LastMet(gates, a) == LastMet(gates, b)
  {
    if gates == [] {
    } else {
      SameLast(gates[..|gates| - 1], a, b);
    }
  }

  lemma {:induction false} LastNone(gates: seq<KelvinGate>, have: Text)
    ensures LastMet(gates, have) == None <==> forall g :: g in gates ==> !TextAtLeast(have, g.at)
  {
    if gates == [] {
    } else {
      LastNone(gates[..|gates| - 1], have);
      assert forall g :: g in gates ==> g in gates[..|gates| - 1] || g == gates[|gates| - 1];
    }
  }

  /** At each entry's own version, the last entry met in list order has that entry's range. */
  predicate Settled(gates: seq<KelvinGate>) {
    forall k :: 0 <= k < |gates| ==> LastMet(gates, gates[k].at) == Some(gates[k].range)
  }

  lemma AtLeastTransitive(a: Text, b: Text, c: Text)
    requires TextAtLeast(a, b) && TextAtLeast(b, c)
    ensures TextAtLeast(a, c)
  {
    TextOrder();
  }

  lemma SettledAgrees(gates: seq<KelvinGate>, sorted: seq<KelvinGate>, base: Range, have: Text)
    requires Settled(gates) && Increasing(KelvinBefore, sorted) && forall e :: e in sorted <==> e in gates
    ensures Either(FirstMet(sorted, have), base) == Either(LastMet(gates, have), base)
  {
    FirstHighest(sorted, have);
    LastNone(gates, have);
    if FirstMet(sorted, have).Some? {
      var e :| Highest(sorted, have, e) && e.range == FirstMet(sorted, have).value;
      var k :| 0 <= k < |gates| && gates[k] == e;
      forall g | g in gates ensures TextAtLeast(have, g.at) <==> TextAtLeast(e.at, g.at) {
        if TextAtLeast(e.at, g.at) {
          AtLeastTransitive(have, e.at, g.at);
        }
      }
      SameLast(gates, have, e.at);
    }
  }

  lemma AgreementSettles(gates: seq<KelvinGate>, sorted: seq<KelvinGate>, base: Range, k: nat)
    requires DistinctVersions(gates) && k < |gates|
    requires Either(FirstMet(sorted, gates[k].at), base) == Either(LastMet(gates, gates[k].at), base)
    requires Increasing(KelvinBefore, sorted) && forall e :: e in sorted <==> e in gates
    ensures LastMet(gates, gates[k].at) == Some(gates[k].range)
  {
    var have := gates[k].at;
    TextIrreflexive(have);
    FirstHighest(sorted, have);
    LastNone(gates, have);
    var e :| Highest(sorted, have, e) && e.range == FirstMet(sorted, have).value;
    TextConnected(e.at, have);
    var j :| 0 <= j < |gates| && gates[j] == e;
  }

  predicate AscendingVersions(gates: seq<KelvinGate>) {
    forall i, j :: 0 <= i < j < |gates| ==> TextLess(gates[i].at, gates[j].at)
  }

  /** Ascending entries are settled. */
  lemma {:induction false} AscendingSettled(gates: seq<KelvinGate>, k: nat)
    requires k < |gates| && AscendingVersions(gates)
    ensures LastMet(gates, gates[k].at) == Some(gates[k].range)
    decreases |gates|
  {
    if k < |gates| - 1 {
      AscendingSettled(gates[..|gates| - 1], k);
    } else {
      TextIrreflexive(gates[k].at);
    }
  }

  lemma AllSettled(gates: seq<KelvinGate>)
    requires AscendingVersions(gates)
    ensures Settled(gates)
  {
    forall k | 0 <= k < |gates| ensures LastMet(gates, gates[k].at) == Some(gates[k].range) {
      AscendingSettled(gates, k);
    }
  }

  lemma KelvinItems(parse: Parse, s: Source, f: Fields)
    requires ItemsServed(parse, s) && KelvinAccepted(s, f)
    requires f.bySoft == exists k :: 0 <= k < |ItemsOf(s)| && ItemsOf(s)[k].facts.kelvin.Some?
                                 && ItemsOf(s)[k].gates.soft.Some?
    ensures OneVersion(ItemsOf(s), f.bySoft)
  {
    var items := ItemsOf(s);
    forall k | 0 <= k < |items| && items[k].facts.kelvin.Some?
      ensures (items[k].gates.soft.Some? <==> f.bySoft) && VersionGate(items[k]).Some?
              && VersionGate(items[k]).value != ""
              && !(items[k].gates.soft.Some? && items[k].gates.hard.Some?) && items[k].gates.wifi.None?
    {
      if k < |s.modelItems| {
        assert ServedItem(parse, s.modelItems[k]) && items[k].gates == s.modelItems[k].gates;
      } else {
        assert ServedItem(parse, s.row.items[k - |s.modelItems|]) && items[k] == s.row.items[k - |s.modelItems|];
      }
    }
  }

  /** `v` with the version the row's Kelvin entries are gated on. */
  function With(f: Fields, v: Versions, have: Text): Versions {
    if f.bySoft then v.(soft := Some(have)) else v.(hard := Some(have))
  }

  /** With that version known, and the pact (or no pact branch), the compiled Kelvin range runs the row's. */
  lemma KelvinBoth(parse: Parse, caps: Caps, s: Source, f: Fields, pact: Option<Pact>, v: Versions, have: Text)
    returns (base: Range)
    requires Accepts(parse, caps, s, f) && f.kelvin.Some? && (pact.None? ==> f.kelvinByPact == [])
    ensures var at := With(f, v, have);
            && KelvinRange(f, at.hard, pact, at.soft) == Some(Either(FirstMet(f.kelvinByVersion, have), base))
            && ClientRow(parse, s, pact, at).layer.kelvin == Some(Either(LastMet(KelvinGates(ItemsOf(s)), have), base))
  {
    base := KelvinBase(s, f, pact);
    KelvinItems(parse, s, f);
    ItemsKelvin(parse, ItemsOf(s), WithBranch(s, pact).layer, base, f.bySoft, have, With(f, v, have));
  }

  lemma KelvinBase(s: Source, f: Fields, pact: Option<Pact>) returns (base: Range)
    requires DistinctPacts(s.row.byPact) && f.kelvin == BaseFacts(s).kelvin && f.kelvin.Some?
    requires f.kelvinByPact == Select(s.row.byPact, KelvinPick) && (pact.None? ==> f.kelvinByPact == [])
    ensures WithBranch(s, pact).layer.kelvin == Some(base)
    ensures base == if pact.None? then Cut(f.kelvin.value, RangesOf(f.kelvinByPact))
                    else Lookup(f.kelvinByPact, pact, f.kelvin.value)
  {
    if pact.Some? {
      SelectLookup(s.row.byPact, KelvinPick, pact.value, f.kelvin.value);
      base := Lookup(f.kelvinByPact, pact, f.kelvin.value);
    } else {
      base := f.kelvin.value;
    }
  }

  /** The compiled Kelvin range is the reference's at these versions. */
  predicate KelvinAt(parse: Parse, s: Source, f: Fields, pact: Option<Pact>, v: Versions) {
    ClientRow(parse, s, pact, v).layer.kelvin == KelvinRange(f, v.hard, pact, v.soft)
  }

  /** Whatever is known of the other versions, the compiled Kelvin range is the reference's at every value of the
      version the entries are gated on exactly if the entries are settled: at each entry's own version, the last
      entry met in list order has that entry's range. */
  lemma KelvinAgreesExactly(parse: Parse, caps: Caps, s: Source, f: Fields, pact: Option<Pact>, v: Versions)
    requires Accepts(parse, caps, s, f) && f.kelvin.Some? && (pact.None? ==> f.kelvinByPact == [])
    ensures (forall have :: KelvinAt(parse, s, f, pact, With(f, v, have))) <==> Settled(KelvinGates(ItemsOf(s)))
  {
    var gates := KelvinGates(ItemsOf(s));
    forall have | Settled(gates) ensures KelvinAt(parse, s, f, pact, With(f, v, have)) {
      var base := KelvinBoth(parse, caps, s, f, pact, v, have);
      SettledAgrees(gates, f.kelvinByVersion, base, have);
    }
    if forall have :: KelvinAt(parse, s, f, pact, With(f, v, have)) {
      forall k | 0 <= k < |gates| ensures LastMet(gates, gates[k].at) == Some(gates[k].range) {
        assert KelvinAt(parse, s, f, pact, With(f, v, gates[k].at));
        KelvinSettles(parse, caps, s, f, pact, v, k);
      }
    }
  }

  lemma KelvinSettles(parse: Parse, caps: Caps, s: Source, f: Fields, pact: Option<Pact>, v: Versions, k: nat)
    requires Accepts(parse, caps, s, f) && f.kelvin.Some? && (pact.None? ==> f.kelvinByPact == [])
    requires k < |KelvinGates(ItemsOf(s))| && KelvinAt(parse, s, f, pact, With(f, v, KelvinGates(ItemsOf(s))[k].at))
    ensures var gates := KelvinGates(ItemsOf(s)); LastMet(gates, gates[k].at) == Some(gates[k].range)
  {
    var gates := KelvinGates(ItemsOf(s));
    var base := KelvinBoth(parse, caps, s, f, pact, v, gates[k].at);
    AgreementSettles(gates, f.kelvinByVersion, base, k);
  }

  /** Items listed in ascending version order are settled. */
  lemma AscendingAgrees(parse: Parse, caps: Caps, s: Source, f: Fields, pact: Option<Pact>, v: Versions, have: Text)
    requires Accepts(parse, caps, s, f) && f.kelvin.Some? && (pact.None? ==> f.kelvinByPact == [])
    requires AscendingVersions(KelvinGates(ItemsOf(s)))
    ensures KelvinAt(parse, s, f, pact, With(f, v, have))
  {
    AllSettled(KelvinGates(ItemsOf(s)));
    KelvinAgreesExactly(parse, caps, s, f, pact, v);
  }

  // ---- A row whose order matters --------------------------------------------------------------------------------

  const NEWER: KelvinGate := KelvinGate("2.00.00", Range(2200, 6500))

  const OLDER: KelvinGate := KelvinGate("1.00.00", Range(2700, 6500))

  function SoftItem(e: KelvinGate): Item {
    Item(Gates(Some(e.at), None, None), Layer(None, Some(e.range), None))
  }

  /** A row with a Kelvin range and two firmware items, the newer version's first. */
  function NewerFirst(): Source {
    var none := Layer(None, None, None);
    Source(Row(Layer(None, Some(Range(2000, 9000)), None), None, [], [SoftItem(NEWER), SoftItem(OLDER)], None),
           none, [], none)
  }

  ghost function NewerFields(): Fields {
    Fields({}, [], [], Some(Range(2000, 9000)), [], Descending({NEWER, OLDER}), true, None, [], [], None, [])
  }

  lemma {:induction false} CutHolds(base: Range, ranges: seq<Range>, k: int)
    requires base.lo <= k <= base.hi && forall i :: 0 <= i < |ranges| ==> ranges[i].lo <= k <= ranges[i].hi
    ensures Cut(base, ranges).lo <= k <= Cut(base, ranges).hi
  {
    if ranges == [] {
    } else {
      CutHolds(base, ranges[..|ranges| - 1], k);
    }
  }

  lemma NewerGates()
    ensures ItemsOf(NewerFirst()) == [SoftItem(NEWER), SoftItem(OLDER)]
    ensures KelvinGates(ItemsOf(NewerFirst())) == [NEWER, OLDER]
  {
    var items := [SoftItem(NEWER), SoftItem(OLDER)];
    assert ItemsOf(NewerFirst()) == items;
    assert items[..1] == [SoftItem(NEWER)] && items[..1][..0] == [];
    assert KelvinGates([]) == [];
    assert KelvinGates(items[..1]) == [NEWER];
  }

  lemma NewerAccepted(parse: Parse, caps: Caps)
    requires GateParses(parse, Some(NEWER.at)) && GateParses(parse, Some(OLDER.at)) && caps == Caps(false, false, false)
    ensures Accepts(parse, caps, NewerFirst(), NewerFields())
  {
    NewerCompiled(caps);
    NewerPasses(parse, caps);
  }

  lemma NewerCompiled(caps: Caps)
    requires caps == Caps(false, false, false)
    ensures Compiled(caps, NewerFirst(), NewerFields())
  {
    NewerGates();
    assert (set e | e in KelvinGates(ItemsOf(NewerFirst()))) == {NEWER, OLDER};
    assert StatusReads(NewerFirst().row) == [];
    assert ItemsOf(NewerFirst())[0] == SoftItem(NEWER);
  }

  lemma NewerPasses(parse: Parse, caps: Caps)
    requires GateParses(parse, Some(NEWER.at)) && GateParses(parse, Some(OLDER.at)) && caps == Caps(false, false, false)
    ensures Passes(parse, caps, NewerFirst(), NewerFields())
  {
    NewerServed(parse);
    NewerKelvin();
  }

  lemma NewerServed(parse: Parse)
    requires GateParses(parse, Some(NEWER.at)) && GateParses(parse, Some(OLDER.at))
    ensures ItemsServed(parse, NewerFirst())
  {
    assert ServedItem(parse, SoftItem(NEWER)) && ServedItem(parse, SoftItem(OLDER));
  }

  lemma NewerKelvin()
    ensures KelvinAccepted(NewerFirst(), NewerFields())
  {
    NewerGates();
    NewerOverlaps();
    NewerApart([NEWER, OLDER], ItemsOf(NewerFirst()));
  }

  lemma NewerApart(gates: seq<KelvinGate>, items: seq<Item>)
    requires gates == [NEWER, OLDER] && items == [SoftItem(NEWER), SoftItem(OLDER)]
    ensures DistinctVersions(gates) && forall i :: 0 <= i < |items| ==> items[i].gates.soft.Some?
  {
    assert NEWER.at[0] != OLDER.at[0];
  }

  lemma NewerOverlaps()
    ensures OverlapsEvery(Range(2000, 9000), GateRanges(NewerFields().kelvinByVersion))
  {
    var sorted := NewerFields().kelvinByVersion;
    forall k | 0 <= k < |sorted| ensures GateRanges(sorted)[k] in {NEWER.range, OLDER.range} {
      assert sorted[k] in sorted;
    }
    CutHolds(Range(2000, 9000), GateRanges(sorted), 3000);
  }

  /** The resolver takes this row, and at version 2.00.00 its compiled range is not the reference's, which the older
      version's item, listed last, has overwritten. */
  lemma NewerFirstDiffers(parse: Parse, caps: Caps, v: Versions)
    requires GateParses(parse, Some(NEWER.at)) && GateParses(parse, Some(OLDER.at)) && caps == Caps(false, false, false)
    ensures Accepts(parse, caps, NewerFirst(), NewerFields())
    ensures !KelvinAt(parse, NewerFirst(), NewerFields(), None, v.(soft := Some(NEWER.at)))
  {
    var gates := KelvinGates(ItemsOf(NewerFirst()));
    NewerGates();
    NewerAccepted(parse, caps);
    assert TextAtLeast(NEWER.at, OLDER.at);
    if KelvinAt(parse, NewerFirst(), NewerFields(), None, v.(soft := Some(NEWER.at))) {
      KelvinSettles(parse, caps, NewerFirst(), NewerFields(), None, v, 0);
    }
  }

  // ---- Before the version or the pact is known ------------------------------------------------------------------

  predicate Within(inner: Range, outer: Range) {
    outer.lo <= inner.lo && inner.hi <= outer.hi
  }

  lemma {:induction false} CutWithin(base: Range, ranges: seq<Range>)
    ensures Within(Cut(base, ranges), base) && forall k :: 0 <= k < |ranges| ==> Within(Cut(base, ranges), ranges[k])
  {
    if ranges == [] {
    } else {
      CutWithin(base, ranges[..|ranges| - 1]);
    }
  }

  lemma {:induction false} LookupFrom<T>(entries: seq<(Pact, T)>, pact: Option<Pact>, default: T)
    ensures Lookup(entries, pact, default) == default
            || exists k :: 0 <= k < |entries| && entries[k].1 == Lookup(entries, pact, default)
  {
    if entries == [] {
    } else {
      LookupFrom(entries[..|entries| - 1], pact, default);
    }
  }

  lemma {:induction false} FirstFrom(gates: seq<KelvinGate>, have: Text)
    ensures FirstMet(gates, have).Some? ==>
              exists k :: 0 <= k < |gates| && gates[k].range == FirstMet(gates, have).value
  {
    if gates == [] {
    } else {
      FirstFrom(gates[1..], have);
    }
  }

  /** Later knowledge keeps what earlier knowledge had. */
  predicate Learns<T(==)>(before: Option<T>, after: Option<T>) {
    before.Some? ==> after == before
  }

  lemma PactCut(f: Fields, pact: Option<Pact>)
    requires f.kelvin.Some?
    ensures Within(Cut(f.kelvin.value, RangesOf(f.kelvinByPact)), Lookup(f.kelvinByPact, pact, f.kelvin.value))
  {
    CutWithin(f.kelvin.value, RangesOf(f.kelvinByPact));
    LookupFrom(f.kelvinByPact, pact, f.kelvin.value);
    if k :| 0 <= k < |f.kelvinByPact| && f.kelvinByPact[k].1 == Lookup(f.kelvinByPact, pact, f.kelvin.value) {
      assert RangesOf(f.kelvinByPact)[k] == f.kelvinByPact[k].1;
    }
  }

  lemma GateCut(f: Fields, base: Range, have: Text)
    ensures Within(Cut(base, GateRanges(f.kelvinByVersion)), Either(FirstMet(f.kelvinByVersion, have), base))
  {
    CutWithin(base, GateRanges(f.kelvinByVersion));
    FirstFrom(f.kelvinByVersion, have);
    if k :| 0 <= k < |f.kelvinByVersion| && FirstMet(f.kelvinByVersion, have) == Some(f.kelvinByVersion[k].range) {
      assert GateRanges(f.kelvinByVersion)[k] == f.kelvinByVersion[k].range;
    }
  }

  /** A row has Kelvin entries by pact or by version, not both. */
  lemma OneKind(s: Source, f: Fields)
    requires KelvinAccepted(s, f) && forall e :: e in f.kelvinByVersion ==> e in KelvinGates(ItemsOf(s))
    ensures f.kelvinByPact == [] || f.kelvinByVersion == []
  {
    if f.kelvinByVersion != [] {
      assert f.kelvinByVersion[0] in KelvinGates(ItemsOf(s));
    }
  }

  /** Whatever is known of the versions and the pact, the range in use lies in the one used once more is known: the
      range used before they are known holds on every revision and every pact. */
  lemma KelvinNarrows(parse: Parse, caps: Caps, s: Source, f: Fields, hard: Option<Text>, pact: Option<Pact>,
                      soft: Option<Text>,
                      hard': Option<Text>, pact': Option<Pact>, soft': Option<Text>)
    requires Accepts(parse, caps, s, f) && f.kelvin.Some?
    requires Learns(hard, hard') && Learns(pact, pact') && Learns(soft, soft')
    ensures Within(KelvinRange(f, hard, pact, soft).value, KelvinRange(f, hard', pact', soft').value)
  {
    OneKind(s, f);
    PactCut(f, pact');
    var base := f.kelvin.value;
    if f.kelvinByPact == [] {
      var have' := if f.bySoft then soft' else hard';
      if have'.Some? {
        GateCut(f, base, have'.value);
      }
    }
  }

  /** And it is never empty. */
  lemma KelvinNonEmpty(parse: Parse, caps: Caps, s: Source, f: Fields, hard: Option<Text>, pact: Option<Pact>,
                       soft: Option<Text>)
    requires Accepts(parse, caps, s, f) && f.kelvin.Some?
    ensures var r := KelvinRange(f, hard, pact, soft).value; r.lo <= r.hi
  {
    OneKind(s, f);
    var have := if f.bySoft then soft else hard;
    if f.kelvinByVersion == [] {
      PactBaseValid(s, f, pact);
    } else if have.Some? && FirstMet(f.kelvinByVersion, have.value).Some? {
      FirstValid(parse, caps, s, f, have.value);
    }
  }

  lemma PactBaseValid(s: Source, f: Fields, pact: Option<Pact>)
    requires KelvinAccepted(s, f) && f.kelvin.Some?
    ensures var r := if pact.None? then Cut(f.kelvin.value, RangesOf(f.kelvinByPact))
                     else Lookup(f.kelvinByPact, pact, f.kelvin.value);
            r.lo <= r.hi
  {
    LookupFrom(f.kelvinByPact, pact, f.kelvin.value);
    if k :| 0 <= k < |f.kelvinByPact| && f.kelvinByPact[k].1 == Lookup(f.kelvinByPact, pact, f.kelvin.value) {
      assert ValidRange(Some(f.kelvinByPact[k].1));
    }
  }

  lemma FirstValid(parse: Parse, caps: Caps, s: Source, f: Fields, have: Text)
    requires Accepts(parse, caps, s, f) && FirstMet(f.kelvinByVersion, have).Some?
    ensures ValidRange(FirstMet(f.kelvinByVersion, have))
  {
    FirstFrom(f.kelvinByVersion, have);
    var k :| 0 <= k < |f.kelvinByVersion| && f.kelvinByVersion[k].range == FirstMet(f.kelvinByVersion, have).value;
    GateValid(parse, caps, s, f, f.kelvinByVersion[k]);
  }

  lemma GateValid(parse: Parse, caps: Caps, s: Source, f: Fields, e: KelvinGate)
    requires Accepts(parse, caps, s, f) && e in f.kelvinByVersion
    ensures ValidRange(Some(e.range))
  {
    assert e in KelvinGates(ItemsOf(s));
    var k := GateFrom(ItemsOf(s), e);
    if k < |s.modelItems| {
      assert ServedItem(parse, s.modelItems[k]);
    } else {
      assert ServedItem(parse, s.row.items[k - |s.modelItems|]);
    }
  }

  lemma {:induction false} GateFrom(items: seq<Item>, e: KelvinGate) returns (k: nat)
    requires e in KelvinGates(items)
    ensures k < |items| && items[k].facts.kelvin == Some(e.range)
  {
    var n := |items| - 1;
    if items[n].facts.kelvin.Some? && VersionGate(items[n]).Some?
       && e == KelvinGate(VersionGate(items[n]).value, items[n].facts.kelvin.value) {
      k := n;
    } else {
      k := GateFrom(items[..n], e);
    }
  }

  // ---- Pact routes ----------------------------------------------------------------------------------------------

  /** The row a pact route resolves as: the row's facts with its branch's, at that one pact and without branches. */
  function RouteRow(row: Row, pact: Pact, branch: Branch): Row {
    Row(Over(branch.facts, row.own), Else(branch.status, row.status), [], row.items, Some({pact}))
  }

  lemma RouteFacts(s: Source, t: Source, pact: Pact, branch: Branch)
    requires t == s.(row := RouteRow(s.row, pact, branch))
    ensures BaseFacts(t) == Over(branch.facts, BaseFacts(s))
  {
  }

  /** The reference reads the route's row as it reads the row at that pact. */
  lemma RouteReads(parse: Parse, caps: Caps, s: Source, t: Source, f: Fields, pact: Pact, branch: Branch, v: Versions)
    requires BranchAt(s.row.byPact, pact) == Some(branch) && t == s.(row := RouteRow(s.row, pact, branch))
    requires Accepts(parse, caps, t, f)
    ensures ClientRow(parse, t, Some(pact), v) == ClientRow(parse, s, Some(pact), v)
  {
    RouteFacts(s, t, pact, branch);
    RouteItems(parse, s, t, pact, branch);
  }

  lemma RouteItems(parse: Parse, s: Source, t: Source, pact: Pact, branch: Branch)
    requires LayersApart(t) && ItemsServed(parse, t) && t == s.(row := RouteRow(s.row, pact, branch))
    ensures ItemsOf(t) == ItemsOf(s)
  {
    forall k | 0 <= k < |s.modelItems| ensures ModelItem(t, s.modelItems[k]) == ModelItem(s, s.modelItems[k]) {
      assert ServedItem(parse, t.modelItems[k]) && t.row.own.kelvin.None?;
    }
  }

  /** So a pact route's profile gives what the reference gives for the row at its pact. */
  lemma RouteAgrees(parse: Parse, caps: Caps, s: Source, t: Source, f: Fields, pact: Pact, branch: Branch, soft: Text,
                    hard: Text,
                    wifi: Option<Text>)
    requires BranchAt(s.row.byPact, pact) == Some(branch)
    requires t == s.(row := RouteRow(s.row, pact, branch)) && Accepts(parse, caps, t, f)
    ensures var out := ClientRow(parse, s, Some(pact), Versions(Some(soft), Some(hard), wifi));
            && (caps.uploads ==> out.layer.scenes == Some(SceneVersions(parse, f, Some(soft), Some(hard), Some(pact))))
            && (caps.brightness ==> out.layer.bright.Some? && Brightness(f, Some(pact)) == Raw(out.layer.bright.value))
            && (out.status.Some? ==> out.status == Some(StatusTypes(f, Some(pact))))
  {
    var v := Versions(Some(soft), Some(hard), wifi);
    RouteReads(parse, caps, s, t, f, pact, branch, v);
    if caps.uploads {
      ScenesAgree(parse, caps, t, f, Some(pact), soft, hard, wifi);
    }
    if caps.brightness {
      BrightnessAgrees(parse, caps, t, f, Some(pact), v);
    }
    if t.row.status.Some? {
      StatusAgrees(parse, caps, t, f, Some(pact), v);
    }
  }

  // ---- The loops of devices/_fold.py ----------------------------------------------------------------------------

  method EvalSceneVersions(parse: Parse, f: Fields, soft: Option<Text>, hard: Option<Text>, pact: Option<Pact>)
    returns (out: set<nat>)
    ensures out == SceneVersions(parse, f, soft, hard, pact)
  {
    out := f.scenes;
    for k := 0 to |f.scenesByPact|
      invariant out == Lookup(f.scenesByPact[..k], pact, f.scenes)
    {
      assert f.scenesByPact[..k + 1][..k] == f.scenesByPact[..k];
      if Some(f.scenesByPact[k].0) == pact {
        out := f.scenesByPact[k].1;
      }
    }
    assert f.scenesByPact[..|f.scenesByPact|] == f.scenesByPact;
    ghost var base := out;
    var gates := f.scenesByFirmware;
    for k := 0 to |gates|
      invariant out == ScenesAfter(parse, base, gates[..k], soft, hard)
    {
      assert gates[..k + 1][..k] == gates[..k];
      if Meets(parse, soft, gates[k].soft) && Meets(parse, hard, gates[k].hard) {
        out := gates[k].scenes;
      }
    }
    assert gates[..|gates|] == gates;
  }

  method EvalBrightness(f: Fields, pact: Option<Pact>) returns (span: Option<Range>)
    ensures span == Brightness(f, pact)
  {
    span := f.bright;
    for k := 0 to |f.brightByPact|
      invariant span == Lookup(f.brightByPact[..k], pact, f.bright)
    {
      assert f.brightByPact[..k + 1][..k] == f.brightByPact[..k];
      if Some(f.brightByPact[k].0) == pact {
        span := f.brightByPact[k].1;
      }
    }
    assert f.brightByPact[..|f.brightByPact|] == f.brightByPact;
  }

  method EvalKelvin(f: Fields, hard: Option<Text>, pact: Option<Pact>, soft: Option<Text>) returns (r: Option<Range>)
    ensures r == KelvinRange(f, hard, pact, soft)
  {
    if f.kelvin.None? {
      return None;
    }
    var span, base := f.kelvin.value, f.kelvin.value;
    var ranges := RangesOf(f.kelvinByPact);
    for k := 0 to |f.kelvinByPact|
      invariant span == if pact.None? then Cut(base, ranges[..k]) else Lookup(f.kelvinByPact[..k], pact, base)
    {
      assert f.kelvinByPact[..k + 1][..k] == f.kelvinByPact[..k] && ranges[..k + 1][..k] == ranges[..k];
      var (at, own) := f.kelvinByPact[k];
      if pact.None? {
        span := Range(if span.lo >= own.lo then span.lo else own.lo, if span.hi <= own.hi then span.hi else own.hi);
      } else if Some(at) == pact {
        span := own;
      }
    }
    assert f.kelvinByPact[..|f.kelvinByPact|] == f.kelvinByPact && ranges[..|ranges|] == ranges;
    var have := if f.bySoft then soft else hard;
    if have.None? {
      span := CutGates(span, f.kelvinByVersion);
      return Some(span);
    }
    for k := 0 to |f.kelvinByVersion|
      invariant FirstMet(f.kelvinByVersion, have.value) == FirstMet(f.kelvinByVersion[k..], have.value)
    {
      if TextAtLeast(have.value, f.kelvinByVersion[k].at) {
        return Some(f.kelvinByVersion[k].range);
      }
      assert f.kelvinByVersion[k..][1..] == f.kelvinByVersion[k + 1..];
    }
    r := Some(span);
  }

  method CutGates(base: Range, gates: seq<KelvinGate>) returns (span: Range)
    ensures span == Cut(base, GateRanges(gates))
  {
    span := base;
    var ranges := GateRanges(gates);
    for k := 0 to |gates|
      invariant span == Cut(base, ranges[..k])
    {
      assert ranges[..k + 1][..k] == ranges[..k];
      var own := gates[k].range;
      span := Range(if span.lo >= own.lo then span.lo else own.lo, if span.hi <= own.hi then span.hi else own.hi);
    }
    assert ranges[..|ranges|] == ranges;
  }

  // ---- The resolver's pass over a row ---------------------------------------------------------------------------

  method SelectEach<T>(byPact: seq<(Pact, Branch)>, pick: Branch -> Option<T>) returns (out: seq<(Pact, T)>)
    ensures out == Select(byPact, pick)
  {
    out := [];
    for k := 0 to |byPact|
      invariant out == Select(byPact[..k], pick)
    {
      assert byPact[..k + 1][..k] == byPact[..k];
      var value := pick(byPact[k].1);
      if value.Some? {
        out := out + [(byPact[k].0, value.value)];
      }
    }
    assert byPact[..|byPact|] == byPact;
  }

  method ListSceneGates(items: seq<Item>) returns (out: seq<SceneGate>)
    ensures out == SceneGates(items)
  {
    out := [];
    for k := 0 to |items|
      invariant out == SceneGates(items[..k])
    {
      assert items[..k + 1][..k] == items[..k];
      if items[k].facts.scenes.Some? {
        out := out + [SceneGate(items[k].gates.soft, items[k].gates.hard, items[k].facts.scenes.value)];
      }
    }
    assert items[..|items|] == items;
  }

  method ListKelvinGates(items: seq<Item>) returns (out: seq<KelvinGate>)
    ensures out == KelvinGates(items)
  {
    out := [];
    for k := 0 to |items|
      invariant out == KelvinGates(items[..k])
    {
      assert items[..k + 1][..k] == items[..k];
      var at := VersionGate(items[k]);
      if items[k].facts.kelvin.Some? && at.Some? {
        out := out + [KelvinGate(at.value, items[k].facts.kelvin.value)];
      }
    }
    assert items[..|items|] == items;
  }

  method SortGates(entries: set<KelvinGate>) returns (out: seq<KelvinGate>)
    ensures out == Descending(entries)
  {
    KelvinOrder();
    out := SortSet(KelvinBefore, entries);
  }

  /** The least of some pacts. */
  method LeastPact(pacts: set<Pact>) returns (p: Pact)
    requires pacts != {}
    ensures First(pacts, p)
  {
    p :| p in pacts;
    var todo := pacts - {p};
    while todo != {}
      invariant todo <= pacts && p in pacts && p !in todo
      invariant forall q :: q in pacts && q !in todo && q != p ==> PactLess(p, q)
    {
      var q :| q in todo;
      todo := todo - {q};
      if PactLess(q, p) {
        p := q;
      }
    }
  }

  /** The colour-group gate of a row's status reads, where it has one. */
  method FindGate(row: Row, status: seq<nat>) returns (r: Result<Option<Pact>>)
    ensures r.Ok? ==> GateIs(row, status, r.value)
    ensures r.Err? ==> forall gate :: !GateIs(row, status, gate)
  {
    if !OneGate(row, status) || Dropping(row, status) == {} {
      return Ok(None);
    }
    if row.pacts.None? || row.pacts.value <= Dropping(row, status) {
      assert row.pacts.Some? ==> row.pacts.value - Dropping(row, status) == {};
      return Err;
    }
    var rest := row.pacts.value - Dropping(row, status);
    assert rest != {} by {
      var p :| p in row.pacts.value && p !in Dropping(row, status);
      assert p in rest;
    }
    var first := LeastPact(rest);
    r := Ok(Some(first));
  }

  lemma GateOnly(row: Row, status: seq<nat>, a: Option<Pact>, b: Option<Pact>)
    requires GateIs(row, status, a) && GateIs(row, status, b)
    ensures a == b
  {
  }

  lemma CompiledOnly(caps: Caps, s: Source, f: Fields, g: Fields)
    requires Compiled(caps, s, f) && Compiled(caps, s, g)
    ensures f == g
  {
    GateOnly(s.row, f.status, f.groupsFrom, g.groupsFrom);
  }

  method FilterReads(entries: seq<(Pact, seq<nat>)>, status: seq<nat>) returns (out: seq<(Pact, seq<nat>)>)
    ensures out == Filtered(entries, status)
  {
    out := [];
    for k := 0 to |entries|
      invariant out == Filtered(entries[..k], status)
    {
      assert entries[..k + 1][..k] == entries[..k];
      if entries[k].1 != status {
        out := out + [entries[k]];
      }
    }
    assert entries[..|entries|] == entries;
  }

  /** The fields of a row, layer by layer and branch by branch. */
  method Compile(caps: Caps, s: Source) returns (r: Result<Fields>)
    ensures r.Ok? ==> Compiled(caps, s, r.value)
    ensures r.Err? ==> forall f :: !Compiled(caps, s, f)
  {
    var base, items := BaseFacts(s), ItemsOf(s);
    var status := if s.row.status.Some? then s.row.status.value else [];
    var gate := FindGate(s.row, status);
    if gate.Err? {
      return Err;
    }
    var scenesByPact: seq<(Pact, set<nat>)>, scenesByFirmware: seq<SceneGate> := [], [];
    if caps.uploads {
      scenesByPact := SelectEach(s.row.byPact, ScenesPick);
      scenesByFirmware := ListSceneGates(s.row.items);
    }
    var kelvinByPact := SelectEach(s.row.byPact, KelvinPick);
    var gates := ListKelvinGates(items);
    var kelvinByVersion := SortGates(set e | e in gates);
    var brightByPact := SelectEach(s.row.byPact, BrightPick);
    var statusByPact: seq<(Pact, seq<nat>)> := [];
    if !OneGate(s.row, status) {
      var found := SelectEach(s.row.byPact, StatusPick);
      statusByPact := FilterReads(found, status);
    }
    r := Ok(Fields(if caps.uploads && base.scenes.Some? then base.scenes.value else {}, scenesByPact, scenesByFirmware,
                   base.kelvin, kelvinByPact, kelvinByVersion,
                   exists k :: 0 <= k < |items| && items[k].facts.kelvin.Some? && items[k].gates.soft.Some?,
                   if caps.brightness && base.bright.Some? then Raw(base.bright.value) else None, brightByPact,
                   status, gate.value, statusByPact));
  }

  /** A row is resolved to the fields the checks accept, or refused where no fields pass them. */
  method Resolve(parse: Parse, caps: Caps, s: Source) returns (r: Result<Fields>)
    ensures r.Ok? ==> Accepts(parse, caps, s, r.value)
    ensures r.Err? ==> forall f :: !Accepts(parse, caps, s, f)
  {
    var compiled := Compile(caps, s);
    if compiled.Err? {
      assert forall f :: Accepts(parse, caps, s, f) ==> Compiled(caps, s, f);
      return Err;
    }
    var f := compiled.value;
    if !Passes(parse, caps, s, f) {
      forall g ensures !Accepts(parse, caps, s, g) {
        if Accepts(parse, caps, s, g) {
          CompiledOnly(caps, s, f, g);
        }
      }
      return Err;
    }
    r := Ok(f);
  }
}

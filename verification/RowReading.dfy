/** What the reference reading of a row and the compiled form give, fact by fact (spec/govee_reference.py `client_row`,
    devices/_fold.py): which layer a fact comes from, and when a firmware item applies: from its own version on, field
    by field, and not below it. */
module RowReading {
  import opened Basics
  import opened Sorting
  import opened RowFacts
  import opened RowCompiler

  /** Version `a` is `b`, extends it, or is greater at the first field where they differ. */
  ghost predicate FromOn(a: seq<int>, b: seq<int>) {
    b <= a || exists k: nat :: DiffersUp(b, a, k)
  }

  /** The first field where `a` and `b` differ is field `k`, and `b` has the greater number there. */
  predicate DiffersUp(a: seq<int>, b: seq<int>, k: nat) {
    k < |a| && k < |b| && a[..k] == b[..k] && a[k] < b[k]
  }

  lemma {:induction false} AtLeastExactly(a: seq<int>, b: seq<int>)
    ensures AtLeast(a, b) <==> FromOn(a, b)
  {
    if b == [] || a == [] || a[0] != b[0] {
      assert a[..0] == b[..0];
      assert b != [] && a != [] && a[0] > b[0] ==> DiffersUp(b, a, 0);
    } else {
      AtLeastExactly(a[1..], b[1..]);
      assert a == [a[0]] + a[1..] && b == [b[0]] + b[1..];
      if k: nat :| DiffersUp(b[1..], a[1..], k) {
        assert a[..k + 1] == [a[0]] + a[1..][..k] && b[..k + 1] == [b[0]] + b[1..][..k];
        assert DiffersUp(b, a, k + 1);
      }
      if k: nat :| DiffersUp(b, a, k) {
        assert k > 0;
        assert a[1..][..k - 1] == a[..k][1..] && b[1..][..k - 1] == b[..k][1..];
        assert DiffersUp(b[1..], a[1..], k - 1);
      }
    }
  }

  /** The order is total, and two versions each at least the other are one. */
  lemma {:induction false} VersionsTotal(a: seq<int>, b: seq<int>)
    ensures AtLeast(a, b) || AtLeast(b, a)
    ensures AtLeast(a, b) && AtLeast(b, a) <==> a == b
  {
    if a == [] || b == [] {
    } else if a[0] == b[0] {
      VersionsTotal(a[1..], b[1..]);
      assert a == [a[0]] + a[1..] && b == [b[0]] + b[1..];
    }
  }

  lemma {:induction false} VersionsTransitive(a: seq<int>, b: seq<int>, c: seq<int>)
    requires AtLeast(a, b) && AtLeast(b, c)
    ensures AtLeast(a, c)
  {
    if c == [] {
    } else if a[0] == b[0] && b[0] == c[0] {
      VersionsTransitive(a[1..], b[1..], c[1..]);
    }
  }

  lemma VersionsExtend(a: seq<int>, more: seq<int>)
    ensures AtLeast(a + more, a)
  {
    AtLeastExactly(a + more, a);
  }

  /** The version text `have` is on from the version text `gate`. */
  ghost predicate Reaches(parse: Parse, have: Text, gate: Text) {
    && parse(gate).Some? && parse(have).Some?
    && FromOn(parse(have).value, parse(gate).value)
  }

  /** A gate is reached where there is none, or by a known version from its own on. */
  ghost predicate Reached(parse: Parse, gate: Option<Text>, have: Option<Text>) {
    gate.Some? ==> have.Some? && Reaches(parse, have.value, gate.value)
  }

  function LastItem(s: Source): Item
    requires s.row.items != []
  {
    s.row.items[|s.row.items| - 1]
  }

  function Without(s: Source): Source
    requires s.row.items != []
  {
    s.(row := s.row.(items := s.row.items[..|s.row.items| - 1]))
  }

  lemma GateReached(parse: Parse, gate: Option<Text>, have: Option<Text>)
    ensures GateHolds(parse, gate, have, false) <==> Reached(parse, gate, have)
  {
    if gate.Some? && have.Some? && parse(gate.value).Some? && parse(have.value).Some? {
      AtLeastExactly(parse(have.value).value, parse(gate.value).value);
    }
  }

  /** In the reference reading a last item without a Kelvin range gives the row its facts where each of its gates is
      reached; elsewhere the row reads as it does without the item. */
  lemma LastItemApplies(parse: Parse, s: Source, pact: Option<Pact>, v: Versions)
    requires s.row.items != [] && LastItem(s).facts.kelvin.None?
    ensures var (g, rest) := (LastItem(s).gates, ClientRow(parse, Without(s), pact, v));
            ClientRow(parse, s, pact, v)
            == if Reached(parse, g.soft, v.soft) && Reached(parse, g.hard, v.hard) && Reached(parse, g.wifi, v.wifi)
               then rest.(layer := rest.layer.(scenes := First(LastItem(s).facts.scenes, rest.layer.scenes),
                                               bright := First(LastItem(s).facts.bright, rest.layer.bright)))
               else rest
  {
    var items, n := ItemsOf(s), |ItemsOf(s)| - 1;
    assert ItemsOf(Without(s)) == items[..n] && items[n] == LastItem(s);
    GateReached(parse, LastItem(s).gates.soft, v.soft);
    GateReached(parse, LastItem(s).gates.hard, v.hard);
    GateReached(parse, LastItem(s).gates.wifi, v.wifi);
  }

  function First<T>(a: Option<T>, b: Option<T>): Option<T> {
    match a case Some(_) => a case None => b
  }

  /** An item gated on one version applies at that version itself. */
  lemma OwnVersionApplies(parse: Parse, s: Source, pact: Option<Pact>, v: Versions, gate: Text)
    requires s.row.items != [] && LastItem(s).facts.kelvin.None? && parse(gate).Some?
    requires (LastItem(s).gates == Gates(Some(gate), None, None) && v.soft == Some(gate))
             || (LastItem(s).gates == Gates(None, Some(gate), None) && v.hard == Some(gate))
    requires LastItem(s).facts.scenes.Some?
    ensures ClientRow(parse, s, pact, v).layer.scenes == LastItem(s).facts.scenes
  {
    LastItemApplies(parse, s, pact, v);
  }

  /** A Kelvin item's version is compared as text: `have` extends the gate's text, or is greater at the first character
      where they differ. */
  ghost predicate TextFrom(have: Text, gate: Text) {
    gate <= have || exists k: nat :: CharUp(gate, have, k)
  }

  /** The last item's Kelvin range is the row's exactly where the version text is known and from its gate's on. */
  lemma LastKelvinApplies(parse: Parse, s: Source, pact: Option<Pact>, v: Versions, gate: Text, soft: bool)
    requires s.row.items != [] && LastItem(s).facts.kelvin.Some?
    requires LastItem(s).gates == if soft then Gates(Some(gate), None, None) else Gates(None, Some(gate), None)
    ensures var have := if soft then v.soft else v.hard;
            ClientRow(parse, s, pact, v).layer.kelvin
            == if have.Some? && have.value != "" && TextFrom(have.value, gate) then LastItem(s).facts.kelvin
               else ClientRow(parse, Without(s), pact, v).layer.kelvin
  {
    var items, n, have := ItemsOf(s), |ItemsOf(s)| - 1, if soft then v.soft else v.hard;
    assert ItemsOf(Without(s)) == items[..n] && items[n] == LastItem(s);
    if have.Some? {
      TextLessExactly(have.value, gate);
    }
  }

  /** A later version than one it applies at applies it too. */
  lemma LaterVersionApplies(parse: Parse, a: Text, b: Text, gate: Text)
    requires Reaches(parse, a, gate) && Reaches(parse, b, a)
    ensures Reaches(parse, b, gate)
  {
    AtLeastExactly(parse(a).value, parse(gate).value);
    AtLeastExactly(parse(b).value, parse(a).value);
    VersionsTransitive(parse(b).value, parse(a).value, parse(gate).value);
    AtLeastExactly(parse(b).value, parse(gate).value);
  }

  /** A compiled gate is met where there is none, by a version not read yet, or by one from its own on. */
  ghost predicate Met(parse: Parse, gate: Option<Text>, have: Option<Text>) {
    gate.Some? && have.Some? ==> Reaches(parse, have.value, gate.value)
  }

  function WithoutGate(f: Fields): Fields
    requires f.scenesByFirmware != []
  {
    f.(scenesByFirmware := f.scenesByFirmware[..|f.scenesByFirmware| - 1])
  }

  /** In the compiled form the last gate's scene set is the row's where each of its versions is met; elsewhere the
      earlier gates decide. */
  lemma LastGateApplies(parse: Parse, f: Fields, soft: Option<Text>, hard: Option<Text>, pact: Option<Pact>)
    requires f.scenesByFirmware != []
    requires var gate := f.scenesByFirmware[|f.scenesByFirmware| - 1];
             && (gate.soft.Some? ==> parse(gate.soft.value).Some?) && (gate.hard.Some? ==> parse(gate.hard.value).Some?)
    ensures var gate := f.scenesByFirmware[|f.scenesByFirmware| - 1];
            SceneVersions(parse, f, soft, hard, pact)
            == if Met(parse, gate.soft, soft) && Met(parse, gate.hard, hard) then gate.scenes
               else SceneVersions(parse, WithoutGate(f), soft, hard, pact)
  {
    var gate := f.scenesByFirmware[|f.scenesByFirmware| - 1];
    GateMet(parse, gate.soft, soft);
    GateMet(parse, gate.hard, hard);
  }

  lemma GateMet(parse: Parse, gate: Option<Text>, have: Option<Text>)
    requires gate.Some? ==> parse(gate.value).Some?
    ensures Meets(parse, have, gate) <==> Met(parse, gate, have)
  {
    if gate.Some? && have.Some? && parse(have.value).Some? {
      AtLeastExactly(parse(have.value).value, parse(gate.value).value);
    }
  }

  // ---- Layers ---------------------------------------------------------------------------------------------------

  /** Without firmware items a fact is the pact branch's, else the row's own, else (a range) the model's, else the
      family's; the status read is the branch's, else the row's. */
  lemma LayersRead(parse: Parse, s: Source, pact: Option<Pact>, v: Versions)
    requires s.row.items == [] && s.modelItems == []
    ensures var out := ClientRow(parse, s, pact, v);
            var b := if pact.Some? then BranchAt(s.row.byPact, pact.value) else None;
            var facts := if b.Some? then b.value.facts else Layer(None, None, None);
            && out.layer.scenes == First(facts.scenes, First(s.row.own.scenes, s.specs.scenes))
            && out.layer.kelvin == First(facts.kelvin, First(s.row.own.kelvin, First(s.model.kelvin, s.specs.kelvin)))
            && out.layer.bright == First(facts.bright, First(s.row.own.bright, First(s.model.bright, s.specs.bright)))
            && out.status == First(if b.Some? then b.value.status else None, s.row.status)
  {
    assert ItemsOf(s) == [];
  }

  /** A model's firmware item gives no range the row has of its own. */
  lemma ModelItemYields(parse: Parse, s: Source, pact: Option<Pact>, v: Versions)
    requires s.row.items == [] && |s.modelItems| == 1 && s.row.own.kelvin.Some?
    ensures ClientRow(parse, s, pact, v).layer.kelvin == ClientRow(parse, s.(modelItems := []), pact, v).layer.kelvin
  {
    assert ItemsOf(s.(modelItems := [])) == [];
    assert ItemsOf(s)[..0] == [];
  }

  /** A pact's branch is the one listed for it. */
  lemma {:induction false} BranchListed(byPact: seq<(Pact, Branch)>, k: nat)
    requires k < |byPact| && DistinctPacts(byPact)
    ensures BranchAt(byPact, byPact[k].0) == Some(byPact[k].1)
  {
    if k < |byPact| - 1 {
      BranchListed(byPact[..|byPact| - 1], k);
    }
  }

  // ---- Accepting ------------------------------------------------------------------------------------------------

  /** A row without pact branches, whose items are served and carry scene sets, is accepted wherever it has the facts it
      needs and its Kelvin range is one. */
  lemma SceneRowAccepted(parse: Parse, caps: Caps, s: Source, f: Fields)
    requires Compiled(caps, s, f) && s.row.byPact == [] && s.modelItems == []
    requires forall k :: 0 <= k < |s.row.items| ==>
               ServedItem(parse, s.row.items[k]) && s.row.items[k].facts.kelvin.None?
    requires !(s.row.own.kelvin.Some? && s.model.kelvin.Some?) && !(s.row.own.bright.Some? && s.model.bright.Some?)
    requires (caps.uploads ==> s.row.own.scenes.Some? || s.specs.scenes.Some?)
             && (caps.brightness ==> s.row.own.bright.Some? || s.model.bright.Some? || s.specs.bright.Some?)
    requires var kelvin := BaseFacts(s).kelvin; kelvin.Some? ==> 0 < kelvin.value.lo <= kelvin.value.hi
    ensures Accepts(parse, caps, s, f)
  {
    SceneRowKelvin(s, f);
    assert StatusReads(s.row) == [];
  }

  lemma SceneRowKelvin(s: Source, f: Fields)
    requires s.row.byPact == [] && s.modelItems == []
    requires forall k :: 0 <= k < |s.row.items| ==> s.row.items[k].facts.kelvin.None?
    requires f.kelvin == BaseFacts(s).kelvin && f.kelvinByPact == Select(s.row.byPact, KelvinPick)
    requires f.kelvinByVersion == Descending(set e | e in KelvinGates(ItemsOf(s)))
    requires f.kelvin.Some? ==> 0 < f.kelvin.value.lo <= f.kelvin.value.hi
    ensures KelvinAccepted(s, f)
  {
    assert ItemsOf(s) == s.row.items;
    NoKelvinGates(s.row.items);
    DescendingNone(set e | e in KelvinGates(ItemsOf(s)));
    OneRange(s, f);
  }

  lemma OneRange(s: Source, f: Fields)
    requires KelvinGates(ItemsOf(s)) == [] && f.kelvinByVersion == [] && f.kelvinByPact == []
    requires forall k :: 0 <= k < |ItemsOf(s)| ==> ItemsOf(s)[k].facts.kelvin.None?
    requires f.kelvin.Some? ==> 0 < f.kelvin.value.lo <= f.kelvin.value.hi
    ensures KelvinAccepted(s, f)
  {
    assert RangesOf(f.kelvinByPact) == [] && GateRanges(f.kelvinByVersion) == [];
  }

  lemma DescendingNone(entries: set<KelvinGate>)
    requires entries == {}
    ensures Descending(entries) == []
  {
    assert forall e :: e in Descending(entries) ==> e in entries;
  }

  /** A layer whose Kelvin range, if any, is one, and which has the facts the row's kind needs. */
  predicate Usable(caps: Caps, out: Layer) {
    && (caps.uploads ==> out.scenes.Some?) && (caps.brightness ==> out.bright.Some?)
    && (out.kelvin.Some? ==> 0 < out.kelvin.value.lo <= out.kelvin.value.hi)
  }

  /** An accepted row reads so at every pact and at any versions, known or not. */
  lemma AcceptedReads(parse: Parse, caps: Caps, s: Source, f: Fields, pact: Option<Pact>, v: Versions)
    requires Accepts(parse, caps, s, f)
    ensures Usable(caps, ClientRow(parse, s, pact, v).layer)
  {
    var items := ItemsOf(s);
    assert Usable(caps, BaseFacts(s));
    BranchReads(caps, s, pact);
    forall k | 0 <= k < |items| && items[k].facts.kelvin.Some? ensures ValidRange(items[k].facts.kelvin) {
      ItemServed(parse, s, k);
    }
    AppliedReads(parse, caps, WithBranch(s, pact).layer, items, v);
  }

  lemma ItemServed(parse: Parse, s: Source, k: nat)
    requires ItemsServed(parse, s) && k < |ItemsOf(s)|
    ensures ValidRange(ItemsOf(s)[k].facts.kelvin)
  {
    if k < |s.modelItems| {
      assert ServedItem(parse, s.modelItems[k]) && ItemsOf(s)[k] == ModelItem(s, s.modelItems[k]);
    } else {
      assert ServedItem(parse, s.row.items[k - |s.modelItems|]) && ItemsOf(s)[k] == s.row.items[k - |s.modelItems|];
    }
  }

  lemma BranchReads(caps: Caps, s: Source, pact: Option<Pact>)
    requires Usable(caps, BaseFacts(s)) && DistinctPacts(s.row.byPact)
    requires var entries := Select(s.row.byPact, KelvinPick);
             forall k :: 0 <= k < |entries| ==> ValidRange(Some(entries[k].1))
    ensures Usable(caps, WithBranch(s, pact).layer)
  {
    if pact.Some? {
      SelectLookup(s.row.byPact, KelvinPick, pact.value, Range(1, 1));
      LookupFrom(Select(s.row.byPact, KelvinPick), pact, Range(1, 1));
    }
  }

  lemma {:induction false} AppliedReads(parse: Parse, caps: Caps, facts: Layer, items: seq<Item>, v: Versions)
    requires Usable(caps, facts) && forall k :: 0 <= k < |items| ==> ValidRange(items[k].facts.kelvin)
    ensures Usable(caps, Applied(parse, facts, items, v))
  {
    if items == [] {
    } else {
      AppliedReads(parse, caps, facts, items[..|items| - 1], v);
    }
  }

  /** In an accepted row each branch is for a pact of the row's, where it lists its pacts, no two for one, and gives a
      brightness range only for a SKU with brightness. */
  lemma AcceptedBranch(parse: Parse, caps: Caps, s: Source, f: Fields, k: nat)
    requires Accepts(parse, caps, s, f) && k < |s.row.byPact|
    ensures s.row.pacts.Some? ==> s.row.byPact[k].0 in s.row.pacts.value
    ensures s.row.byPact[k].1.facts.bright.Some? ==> caps.brightness
    ensures BranchAt(s.row.byPact, s.row.byPact[k].0) == Some(s.row.byPact[k].1)
  {
    BranchListed(s.row.byPact, k);
    if s.row.byPact[k].1.facts.bright.Some? {
      Selected(s.row.byPact, BrightPick, k);
    }
  }

  /** In an accepted row the model's range is the one in use before any pact or version: the row has none of its own. */
  lemma ModelHeard(parse: Parse, caps: Caps, s: Source, f: Fields)
    requires Accepts(parse, caps, s, f)
    ensures s.model.kelvin.Some? ==> f.kelvin == s.model.kelvin
    ensures s.model.bright.Some? && caps.brightness ==>
              f.bright == if s.model.bright == Some(Range(1, 100)) then None else s.model.bright
  {
  }

  // ---- The colour groups ----------------------------------------------------------------------------------------

  /** The status types without the colour groups' (0xA5). */
  function Plain(types: seq<nat>): seq<nat> {
    if types == [] then [] else (if types[0] == 0xA5 then [] else [types[0]]) + Plain(types[1..])
  }

  lemma {:induction false} PlainWithout(types: seq<nat>)
    ensures RowCompiler.Without(types, 0xA5) == Plain(types)
  {
    if types == [] {
    } else {
      PlainWithout(types[1..]);
      WithoutFirst(types, 0xA5);
    }
  }

  lemma {:induction false} WithoutFirst(types: seq<nat>, t: nat)
    requires types != []
    ensures RowCompiler.Without(types, t)
         == (if types[0] == t then [] else [types[0]]) + RowCompiler.Without(types[1..], t)
  {
    var n := |types| - 1;
    if n == 0 {
      assert types[..0] == [] && types[1..] == [];
    } else {
      WithoutFirst(types[..n], t);
      assert types[..n][1..] == types[1..][..n - 1] && types[1..][n - 1] == types[n];
    }
  }

  /** Every branch that has a status read of its own asks for what the row does, with or without the groups. */
  ghost predicate DropsGroups(row: Row, status: seq<nat>) {
    forall k :: 0 <= k < |row.byPact| && row.byPact[k].1.status.Some? ==>
      row.byPact[k].1.status.value == status || row.byPact[k].1.status.value == Plain(status)
  }

  /** A branch asks without the groups the row asks for. */
  ghost predicate SomeDrops(row: Row, status: seq<nat>) {
    exists k :: 0 <= k < |row.byPact| && row.byPact[k].1.status.Some? && row.byPact[k].1.status.value != status
  }

  /** Such a row compiles to a gate on the groups and no table of its pacts' reads, the gate exactly if a branch drops
      them. Any other row compiles to the table and no gate, and is refused for a SKU on the older pact fallback, which
      asks with the row's own types. */
  lemma GateOrTable(parse: Parse, caps: Caps, s: Source, f: Fields)
    requires Compiled(caps, s, f) && s.row.status.Some?
    ensures var status := s.row.status.value;
            if DropsGroups(s.row, status)
            then f.statusByPact == [] && (f.groupsFrom.Some? <==> SomeDrops(s.row, status))
            else f.statusByPact != [] && f.groupsFrom == None && (caps.fallback ==> !Accepts(parse, caps, s, f))
  {
    OneGateExactly(s.row, s.row.status.value);
    DropsExactly(s.row, s.row.status.value);
    FilteredNone(StatusReads(s.row), s.row.status.value);
  }

  lemma OneGateExactly(row: Row, status: seq<nat>)
    ensures OneGate(row, status) <==> DropsGroups(row, status)
  {
    PlainWithout(status);
    SelectedFrom(row.byPact);
    var asked := StatusReads(row);
    if OneGate(row, status) {
      forall k | 0 <= k < |row.byPact| && row.byPact[k].1.status.Some?
        ensures row.byPact[k].1.status.value in {status, Plain(status)}
      {
        Selected(row.byPact, StatusPick, k);
      }
    }
    if DropsGroups(row, status) {
      forall j | 0 <= j < |asked| ensures asked[j].1 in {status, RowCompiler.Without(status, COLOR_GROUP)} {
        assert asked[j] in asked;
      }
    }
  }

  lemma DropsExactly(row: Row, status: seq<nat>)
    ensures Dropping(row, status) != {} <==> SomeDrops(row, status)
    ensures SomeDrops(row, status) <==> exists e :: e in StatusReads(row) && e.1 != status
  {
    SelectedFrom(row.byPact);
    if k :| 0 <= k < |row.byPact| && row.byPact[k].1.status.Some? && row.byPact[k].1.status.value != status {
      Selected(row.byPact, StatusPick, k);
      var j :| 0 <= j < |StatusReads(row)| && StatusReads(row)[j] == (row.byPact[k].0, row.byPact[k].1.status.value);
      assert row.byPact[k].0 in Dropping(row, status);
    }
  }

  lemma {:induction false} FilteredNone(entries: seq<(Pact, seq<nat>)>, status: seq<nat>)
    ensures Filtered(entries, status) == [] <==> forall e :: e in entries ==> e.1 == status
  {
    if entries == [] {
    } else {
      FilteredNone(entries[..|entries| - 1], status);
      assert entries == entries[..|entries| - 1] + [entries[|entries| - 1]];
    }
  }

  /** What the branches give is listed by pact. */
  lemma {:induction false} Selected<T>(byPact: seq<(Pact, Branch)>, pick: Branch -> Option<T>, k: nat)
    requires k < |byPact| && pick(byPact[k].1).Some?
    ensures (byPact[k].0, pick(byPact[k].1).value) in Select(byPact, pick)
  {
    if k < |byPact| - 1 {
      Selected(byPact[..|byPact| - 1], pick, k);
    } else {
      assert (byPact[k].0, pick(byPact[k].1).value) == Select(byPact, pick)[|Select(byPact, pick)| - 1];
    }
  }

  lemma {:induction false} SelectedFrom(byPact: seq<(Pact, Branch)>)
    ensures forall e :: e in Select(byPact, StatusPick) ==>
              exists k :: 0 <= k < |byPact| && byPact[k].0 == e.0 && byPact[k].1.status == Some(e.1)
  {
    if byPact == [] {
    } else {
      var n := |byPact| - 1;
      SelectedFrom(byPact[..n]);
      forall e | e in Select(byPact, StatusPick)
        ensures exists k :: 0 <= k < |byPact| && byPact[k].0 == e.0 && byPact[k].1.status == Some(e.1)
      {
        if e in Select(byPact[..n], StatusPick) {
          var k :| 0 <= k < n && byPact[..n][k].0 == e.0 && byPact[..n][k].1.status == Some(e.1);
          assert byPact[k].0 == e.0;
        } else {
          assert byPact[n].0 == e.0;
        }
      }
    }
  }

  lemma {:induction false} NoKelvinGates(items: seq<Item>)
    requires forall k :: 0 <= k < |items| ==> items[k].facts.kelvin.None?
    ensures KelvinGates(items) == []
  {
    if items == [] {
    } else {
      NoKelvinGates(items[..|items| - 1]);
    }
  }
}

/** One row of the device table and the reference reading of it (spec/govee_reference.py `client_row`): the row's own
    facts, else the model's, else the family's; then the pact's branch; then every firmware item whose gates hold. */
module RowFacts {
  import opened Basics
  import opened Sorting

  type Text = string

  datatype Pact = Pact(kind: nat, code: nat)

  datatype Range = Range(lo: int, hi: int)

  /** Scene versions, Kelvin range, raw brightness range. */
  datatype Layer = Layer(scenes: Option<set<nat>>, kelvin: Option<Range>, bright: Option<Range>)

  /** A pact branch; `route`: it changes a fact a profile is built from, so its pact has a profile of its own. */
  datatype Branch = Branch(route: bool, status: Option<seq<nat>>, facts: Layer)

  datatype Gates = Gates(soft: Option<Text>, hard: Option<Text>, wifi: Option<Text>)

  datatype Item = Item(gates: Gates, facts: Layer)

  /** `pacts` None accepts any pact. */
  datatype Row = Row(own: Layer, status: Option<seq<nat>>, byPact: seq<(Pact, Branch)>, items: seq<Item>,
                     pacts: Option<set<Pact>>)

  /** A row with the layers under it: the SKU's by_model entry and its firmware items, and the family's specs. */
  datatype Source = Source(row: Row, model: Layer, modelItems: seq<Item>, specs: Layer)

  datatype Facts = Facts(layer: Layer, status: Option<seq<nat>>)

  datatype Versions = Versions(soft: Option<Text>, hard: Option<Text>, wifi: Option<Text>)

  /** How a version text parses into its fields (None: empty or not numbers), as both sides parse it. */
  type Parse = Text -> Option<seq<int>>

  function Else<T>(a: Option<T>, b: Option<T>): Option<T> {
    if a.Some? then a else b
  }

  function Over(top: Layer, under: Layer): Layer {
    Layer(Else(top.scenes, under.scenes), Else(top.kelvin, under.kelvin), Else(top.bright, under.bright))
  }

  /** The row's layered facts: its own, else the model's range, else the family's. */
  function BaseFacts(s: Source): Layer {
    Over(s.row.own, Over(Layer(None, s.model.kelvin, s.model.bright), s.specs))
  }

  function BranchAt(byPact: seq<(Pact, Branch)>, pact: Pact): Option<Branch> {
    if byPact == [] then None
    else if byPact[|byPact| - 1].0 == pact then Some(byPact[|byPact| - 1].1)
    else BranchAt(byPact[..|byPact| - 1], pact)
  }

  /** Versions compare field by field, a shorter one that agrees below a longer. */
  predicate AtLeast(have: seq<int>, need: seq<int>) {
    need == [] || (have != [] && (have[0] > need[0] || (have[0] == need[0] && AtLeast(have[1..], need[1..]))))
  }

  predicate TextAtLeast(have: Text, need: Text) {
    !TextLess(have, need)
  }

  /** One gate of an item holds: an unknown version fails its test; a Kelvin item's test is a string compare. */
  predicate GateHolds(parse: Parse, gate: Option<Text>, have: Option<Text>, asText: bool) {
    gate.Some? ==>
      if asText then have.Some? && have.value != "" && TextAtLeast(have.value, gate.value)
      else have.Some? && parse(gate.value).Some? && parse(have.value).Some?
           && AtLeast(parse(have.value).value, parse(gate.value).value)
  }

  predicate ItemHolds(parse: Parse, item: Item, v: Versions) {
    var asText := item.facts.kelvin.Some?;
    && GateHolds(parse, item.gates.soft, v.soft, asText)
    && GateHolds(parse, item.gates.hard, v.hard, asText)
    && GateHolds(parse, item.gates.wifi, v.wifi, asText)
  }

  /** The items in list order, each that holds replacing the facts it carries. */
  function Applied(parse: Parse, facts: Layer, items: seq<Item>, v: Versions): Layer {
    if items == [] then facts
    else
      var n := |items| - 1;
      var before := Applied(parse, facts, items[..n], v);
      if ItemHolds(parse, items[n], v) then Over(items[n].facts, before) else before
  }

  /** A model's item carries only the ranges the row leaves to the model. */
  function ModelItem(s: Source, item: Item): Item {
    item.(facts := Layer(None, if s.row.own.kelvin.None? then item.facts.kelvin else None,
                         if s.row.own.bright.None? then item.facts.bright else None))
  }

  function ItemsOf(s: Source): seq<Item> {
    seq(|s.modelItems|, i requires 0 <= i < |s.modelItems| => ModelItem(s, s.modelItems[i])) + s.row.items
  }

  function WithBranch(s: Source, pact: Option<Pact>): Facts {
    var branch := if pact.Some? then BranchAt(s.row.byPact, pact.value) else None;
    if branch.None? then Facts(BaseFacts(s), s.row.status)
    else Facts(Over(branch.value.facts, BaseFacts(s)), Else(branch.value.status, s.row.status))
  }

  function ClientRow(parse: Parse, s: Source, pact: Option<Pact>, v: Versions): Facts {
    var facts := WithBranch(s, pact);
    facts.(layer := Applied(parse, facts.layer, ItemsOf(s), v))
  }

  /** `client_row` as it runs: a copy updated layer by layer, then item by item. */
  method ResolveRow(parse: Parse, s: Source, pact: Option<Pact>, v: Versions) returns (out: Facts)
    ensures out == ClientRow(parse, s, pact, v)
  {
    var layer := Over(s.row.own, Over(Layer(None, s.model.kelvin, s.model.bright), s.specs));
    var status := s.row.status;
    if pact.Some? {
      var branch := BranchAt(s.row.byPact, pact.value);
      if branch.Some? {
        layer, status := Over(branch.value.facts, layer), Else(branch.value.status, status);
      }
    }
    var items := ItemsOf(s);
    ghost var first := layer;
    for k := 0 to |items|
      invariant layer == Applied(parse, first, items[..k], v)
    {
      assert items[..k + 1][..k] == items[..k];
      if ItemHolds(parse, items[k], v) {
        layer := Over(items[k].facts, layer);
      }
    }
    assert items[..|items|] == items;
    out := Facts(layer, status);
  }
}

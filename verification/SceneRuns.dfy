/** A SKU's stored names over any sequence of fetches (tools/fetch_scenes.py `main`): what each run keeps, retires,
    reclaims, and the one way a name is lost. */
module SceneRuns {
  import opened Basics
  import opened Sorting
  import opened SceneGroups
  import opened SceneLists
  import opened SceneMatching
  import opened SceneNames
  import opened SceneNaming

  /** One SKU's catalog and its tombstone's retired names. */
  datatype Shelf = Shelf(existing: Store, retired: Store)

  /** What one run finds: the listing and answers, its order, the stored names whose scene is refused for good
      (`_gone`), the blob a placeholder keeps (`_resolved`), and the sceneType-5 cut. */
  datatype Run = Run(c: Context, order: seq<nat>, gone: set<Text>, blobs: map<Text, Text>, cut: Entry -> bool)

  ghost predicate ValidRun(less: Order, run: Run) {
    && TotalOrder(less) && Ranked(less, run.c.listed, run.order)
    && forall i :: 0 <= i < |run.c.listed| ==> run.c.listed[i].own != ""
  }

  ghost function NamesIn(less: Order, s: Shelf, run: Run): seq<Text>
    requires ValidRun(less, run)
  {
    NamesByRank(less, run.c, s.existing, s.retired, run.order)
  }

  ghost predicate NameOf(less: Order, s: Shelf, run: Run, r: nat, n: Text)
    requires ValidRun(less, run)
  {
    r < |run.order| && NamesIn(less, s, run)[r] == n
  }

  /** The rank of a fetched name. */
  ghost function RankOf(less: Order, s: Shelf, run: Run, n: Text): (r: nat)
    requires ValidRun(less, run) && n in NamesIn(less, s, run)
    ensures NameOf(less, s, run, r, n)
  {
    var r :| 0 <= r < |run.order| && NamesIn(less, s, run)[r] == n;
    r
  }

  /** A listed scene as stored under `n`: it records its sceneName where the two differ. */
  function StoredAs(item: Item, n: Text): Held {
    Held(item.entry, if n != item.own then Some(item.own) else None)
  }

  ghost function Fresh(less: Order, s: Shelf, run: Run): Store
    requires ValidRun(less, run)
  {
    map n | n in NamesIn(less, s, run) :: StoredAs(run.c.listed[run.order[RankOf(less, s, run, n)]], n)
  }

  /** The fetched entry, with the blob an earlier run baked in where it is that scene's placeholder. */
  function WithBlob(run: Run, n: Text, fr: Held): Held {
    if fr.entry.placeholder && n in run.blobs
    then fr.(entry := fr.entry.(blob := Some(run.blobs[n]), placeholder := false)) else fr
  }

  /** `_merge`: the fetched scenes, and each stored one not listed whose scene is not refused for good. */
  function MergedOf(s: Shelf, run: Run, listed: Store): Store {
    map n | n in listed.Keys + (s.existing.Keys - run.gone) ::
      if n in listed then Tempered(s, run, listed, n) else s.existing[n]
  }

  /** A new name keeps its listed placeholder, not another's blob that the cut would drop. */
  function Tempered(s: Shelf, run: Run, listed: Store, n: Text): Held
    requires n in listed
  {
    var merged := WithBlob(run, n, listed[n]);
    if n !in s.existing && n !in s.retired && run.cut(merged.entry) && !run.cut(listed[n].entry)
    then listed[n] else merged
  }

  /** The catalog after the cut. */
  function ScenesOf(run: Run, merged: Store): Store {
    map n | n in merged && !run.cut(merged[n].entry) :: merged[n]
  }

  /** The retired names: what the store loses now, and what it does not take back. */
  function RetiredOf(s: Shelf, listed: Store, merged: Store, scenes: Store): Store {
    map n | n in s.existing.Keys + s.retired.Keys && n !in scenes ::
      if n !in s.existing then s.retired[n] else if n in listed && n in merged then merged[n] else s.existing[n]
  }

  ghost function Merged(less: Order, s: Shelf, run: Run): Store
    requires ValidRun(less, run)
  {
    MergedOf(s, run, Fresh(less, s, run))
  }

  ghost function Scenes(less: Order, s: Shelf, run: Run): Store
    requires ValidRun(less, run)
  {
    ScenesOf(run, Merged(less, s, run))
  }

  ghost function Retired(less: Order, s: Shelf, run: Run): Store
    requires ValidRun(less, run)
  {
    RetiredOf(s, Fresh(less, s, run), Merged(less, s, run), Scenes(less, s, run))
  }

  /** How a run ends: both files written; nothing written (a failed fetch, or nothing to store); or the tombstone
      written and the store's write failed. */
  datatype End = Written | Unchanged | StoreFailed

  ghost function After(less: Order, s: Shelf, run: Run, end: End): Shelf
    requires ValidRun(less, run)
  {
    match end
    case Written => Shelf(Scenes(less, s, run), Retired(less, s, run))
    case Unchanged => s
    case StoreFailed => Shelf(s.existing, Retired(less, s, run))
  }

  predicate Holds(s: Shelf, n: Text) {
    n in s.existing || n in s.retired
  }

  function Own(s: Shelf, n: Text): Text
    requires Holds(s, n)
  {
    SceneName(n, if n in s.existing then s.existing[n] else s.retired[n])
  }

  /** A name both hold (the tombstone was written, the store was not) is one scene's. */
  predicate Consistent(s: Shelf) {
    forall n :: n in s.existing && n in s.retired ==> SceneName(n, s.existing[n]) == SceneName(n, s.retired[n])
  }

  /** The names a run takes back from the tombstone. */
  ghost function Reclaimed(less: Order, s: Shelf, run: Run): set<Text>
    requires ValidRun(less, run)
  {
    Scenes(less, s, run).Keys * (s.retired.Keys - s.existing.Keys)
  }

  // ---- One run --------------------------------------------------------------------------------------------------

  lemma FreshOwn(less: Order, s: Shelf, run: Run, n: Text)
    requires ValidRun(less, run) && n in Fresh(less, s, run)
    ensures SceneName(n, Fresh(less, s, run)[n]) == run.c.listed[run.order[RankOf(less, s, run, n)]].own
    ensures Holds(s, n) ==> SceneName(n, Fresh(less, s, run)[n]) == Own(s, n)
    ensures n in s.retired && n !in s.existing ==>
              var item := run.c.listed[run.order[RankOf(less, s, run, n)]];
              SameScene(item.entry, s.retired[n].entry)
              && (NoForms(run.c.listed) ==> ExactReturn(item.entry, s.retired[n].entry))
  {
    var r := RankOf(less, s, run, n);
    StoredNames(less, run.c, s.existing, s.retired, run.order, r);
  }

  lemma MergedOwn(less: Order, s: Shelf, run: Run, n: Text)
    requires ValidRun(less, run) && n in Merged(less, s, run) && Holds(s, n)
    ensures SceneName(n, Merged(less, s, run)[n]) == Own(s, n)
  {
    if n in Fresh(less, s, run) {
      FreshOwn(less, s, run, n);
    }
  }

  /** One run keeps every stored or retired name, in the store or the tombstone, under its sceneName; but a run whose
      store write fails loses exactly the names it was taking back. */
  lemma RunKeeps(less: Order, s: Shelf, run: Run, end: End, n: Text)
    requires ValidRun(less, run) && Consistent(s) && Holds(s, n)
    ensures var s' := After(less, s, run, end);
            && (Holds(s', n) <==> !(end.StoreFailed? && n in Reclaimed(less, s, run)))
            && (Holds(s', n) ==> Own(s', n) == Own(s, n))
  {
    if n in Merged(less, s, run) {
      MergedOwn(less, s, run, n);
    }
  }

  lemma RunConsistent(less: Order, s: Shelf, run: Run, end: End)
    requires ValidRun(less, run) && Consistent(s)
    ensures Consistent(After(less, s, run, end))
  {
    var s' := After(less, s, run, end);
    forall n | n in s'.existing && n in s'.retired ensures SceneName(n, s'.existing[n]) == SceneName(n, s'.retired[n]) {
      if end.StoreFailed? && n in Merged(less, s, run) {
        MergedOwn(less, s, run, n);
      }
    }
  }

  /** A retired name comes back only on a listed scene of its sceneName, code and category, and, where no listed entry
      is another's placeholder form, of its blob too, or as its whole entry or placeholder. */
  lemma ReclaimedByReturn(less: Order, s: Shelf, run: Run, n: Text) returns (i: nat)
    requires ValidRun(less, run) && n in Reclaimed(less, s, run)
    ensures i < |run.c.listed| && run.c.listed[i].own == SceneName(n, s.retired[n])
    ensures SameScene(run.c.listed[i].entry, s.retired[n].entry)
    ensures NoForms(run.c.listed) ==> ExactReturn(run.c.listed[i].entry, s.retired[n].entry)
  {
    assert n in Fresh(less, s, run);
    FreshOwn(less, s, run, n);
    i := run.order[RankOf(less, s, run, n)];
  }

  /** What a caller can check: a retired name no listed scene of its sceneName, code and category could take back is
      kept by the run, however its writes end. */
  lemma NotListedKept(less: Order, s: Shelf, run: Run, end: End, n: Text)
    requires ValidRun(less, run) && Consistent(s) && Holds(s, n)
    requires n in s.existing || forall i :: 0 <= i < |run.c.listed| ==>
               !(run.c.listed[i].own == SceneName(n, s.retired[n])
                 && SameScene(run.c.listed[i].entry, s.retired[n].entry))
    ensures Holds(After(less, s, run, end), n) && Own(After(less, s, run, end), n) == Own(s, n)
  {
    RunKeeps(less, s, run, end, n);
    if n in Reclaimed(less, s, run) {
      var i := ReclaimedByReturn(less, s, run, n);
    }
  }

  /** A listed scene is stored as listed, under the name it was given, with its sceneName where that differs; a retired
      name so taken leaves the tombstone. */
  lemma ListedStored(less: Order, s: Shelf, run: Run, r: nat)
    requires ValidRun(less, run) && r < |run.order|
    requires var entry := run.c.listed[run.order[r]].entry; !entry.placeholder && !run.cut(entry)
    ensures var (n, item, s') := (NamesIn(less, s, run)[r], run.c.listed[run.order[r]], After(less, s, run, Written));
            && n in s'.existing && n !in s'.retired && s'.existing[n].entry == item.entry
            && s'.existing[n].sceneName == if n == item.own then None else Some(item.own)
  {
    var n := NamesIn(less, s, run)[r];
    FreshAt(less, s, run, r);
    assert n in Fresh(less, s, run);
  }

  lemma FreshAt(less: Order, s: Shelf, run: Run, r: nat)
    requires ValidRun(less, run) && r < |run.order|
    ensures RankOf(less, s, run, NamesIn(less, s, run)[r]) == r
  {
    StoredNames(less, run.c, s.existing, s.retired, run.order, r);
  }

  /** A listed placeholder whose blob an earlier run baked in is stored with that blob, unless the cut drops it so and
      the name is new. */
  lemma BlobStored(less: Order, s: Shelf, run: Run, r: nat)
    requires ValidRun(less, run) && r < |run.order| && NamesIn(less, s, run)[r] in run.blobs
    requires run.c.listed[run.order[r]].entry.placeholder
    requires var entry := run.c.listed[run.order[r]].entry;
             !run.cut(entry.(blob := Some(run.blobs[NamesIn(less, s, run)[r]]), placeholder := false))
    ensures var (n, s') := (NamesIn(less, s, run)[r], After(less, s, run, Written));
            && n in s'.existing && s'.existing[n].entry.blob == Some(run.blobs[n]) && !s'.existing[n].entry.placeholder
  {
    FreshAt(less, s, run, r);
    assert NamesIn(less, s, run)[r] in Fresh(less, s, run);
  }

  /** A stored scene no longer listed stays as it is, unless the library refuses it for good or the cut drops it; then
      it is retired as it was. A retired one not listed stays retired as it is. */
  lemma UnlistedKept(less: Order, s: Shelf, run: Run, n: Text)
    requires ValidRun(less, run) && Holds(s, n) && forall r :: 0 <= r < |run.order| ==> NamesIn(less, s, run)[r] != n
    ensures var s' := After(less, s, run, Written);
            if n in s.existing && n !in run.gone && !run.cut(s.existing[n].entry)
            then n in s'.existing && s'.existing[n] == s.existing[n] && n !in s'.retired
            else n !in s'.existing && n in s'.retired
                 && s'.retired[n] == if n in s.existing then s.existing[n] else s.retired[n]
  {
    assert n !in Fresh(less, s, run);
  }

  // ---- One run, as it goes --------------------------------------------------------------------------------------

  /** The first `k` ranked scenes by the names they were given. */
  ghost predicate FreshTo(items: seq<Item>, names: seq<Text>, k: nat, found: Store)
    requires k <= |names| == |items|
  {
    && (forall n :: n in found <==> n in names[..k])
    && forall r :: 0 <= r < k ==> names[r] in found && found[names[r]] == StoredAs(items[r], names[r])
  }

  lemma FreshMore(items: seq<Item>, names: seq<Text>, k: nat, found: Store)
    requires k < |names| == |items| && FreshTo(items, names, k, found)
    requires EachOnce(names)
    ensures FreshTo(items, names, k + 1, found[names[k] := StoredAs(items[k], names[k])])
  {
    assert names[..k + 1] == names[..k] + [names[k]];
  }

  predicate EachOnce(names: seq<Text>) {
    forall q, r :: 0 <= q < r < |names| ==> names[q] != names[r]
  }

  lemma OnceNamed(less: Order, s: Shelf, run: Run)
    requires ValidRun(less, run)
    ensures EachOnce(NamesIn(less, s, run))
  {
    var names := NamesIn(less, s, run);
    forall q, r | 0 <= q < r < |names| ensures names[q] != names[r] {
      StoredNames(less, run.c, s.existing, s.retired, run.order, r);
    }
  }

  /** `scenes[name] = entry`, for each listed scene and its name. */
  method StoreEach(items: seq<Item>, names: seq<Text>) returns (found: Store)
    requires |names| == |items| && EachOnce(names)
    ensures FreshTo(items, names, |names|, found)
  {
    found := map[];
    for k := 0 to |names|
      invariant FreshTo(items, names, k, found)
    {
      FreshMore(items, names, k, found);
      found := found[names[k] := StoredAs(items[k], names[k])];
    }
  }

  lemma FreshAll(less: Order, s: Shelf, run: Run, names: seq<Text>, found: Store)
    requires ValidRun(less, run) && names == NamesIn(less, s, run)
    requires FreshTo(RankedItems(run.c.listed, run.order), names, |names|, found)
    ensures found == Fresh(less, s, run)
  {
    assert names[..|names|] == names;
    forall n | n in found ensures found[n] == Fresh(less, s, run)[n] {
      var r := RankOf(less, s, run, n);
      assert names[r] == n;
    }
    SameMap(found, Fresh(less, s, run));
  }

  method NameScenes(less: Order, s: Shelf, run: Run) returns (found: Store)
    requires ValidRun(less, run)
    ensures found == Fresh(less, s, run)
  {
    var names := StoreNames(less, run.c, s.existing, s.retired, run.order);
    var items := seq(|run.order|, r requires 0 <= r < |run.order| => run.c.listed[run.order[r]]);
    OnceNamed(less, s, run);
    found := StoreEach(items, names);
    FreshAll(less, s, run, names, found);
  }

  method MergeBlobs(run: Run, listed: Store) returns (merged: Store)
    ensures merged == map n | n in listed :: WithBlob(run, n, listed[n])
  {
    merged := map[];
    var todo := listed.Keys;
    while todo != {}
      invariant todo <= listed.Keys
      invariant merged == map n | n in listed && n !in todo :: WithBlob(run, n, listed[n])
    {
      var n :| n in todo;
      merged := merged[n := WithBlob(run, n, listed[n])];
      todo := todo - {n};
    }
  }

  method KeepUnlisted(blobs: Store, existing: Store, kept: set<Text>) returns (merged: Store)
    requires kept <= existing.Keys
    ensures merged == blobs + map n | n in kept :: existing[n]
  {
    merged := blobs;
    var todo := kept;
    while todo != {}
      invariant todo <= kept && merged == blobs + map n | n in kept && n !in todo :: existing[n]
    {
      var n :| n in todo;
      merged := merged[n := existing[n]];
      todo := todo - {n};
    }
  }

  method TemperEach(s: Shelf, run: Run, listed: Store, blobs: Store) returns (merged: Store)
    requires listed.Keys <= blobs.Keys && forall n :: n in listed ==> blobs[n] == WithBlob(run, n, listed[n])
    ensures merged == map n | n in blobs :: if n in listed then Tempered(s, run, listed, n) else blobs[n]
  {
    merged := blobs;
    var todo := listed.Keys;
    while todo != {}
      invariant todo <= listed.Keys
      invariant merged == map n | n in blobs ::
                  if n in listed && n !in todo then Tempered(s, run, listed, n) else blobs[n]
    {
      var n :| n in todo;
      if n !in s.existing && n !in s.retired && run.cut(blobs[n].entry) && !run.cut(listed[n].entry) {
        merged := merged[n := listed[n]];
      }
      todo := todo - {n};
    }
  }

  /** `_merge`, and the step after it: a new name keeps its listed placeholder where the cut would drop another's
      blob. */
  method MergeScenes(s: Shelf, run: Run, listed: Store) returns (merged: Store)
    ensures merged == MergedOf(s, run, listed)
  {
    var blobs := MergeBlobs(run, listed);
    var kept := s.existing.Keys - listed.Keys - run.gone;
    var all := KeepUnlisted(blobs, s.existing, kept);
    merged := TemperEach(s, run, listed, all);
    SameMap(merged, MergedOf(s, run, listed));
  }

  lemma RetiredSame(s: Shelf, listed: Store, merged: Store, scenes: Store, retire: Store, out: Store)
    requires retire == s.retired + map n | n in s.existing && n !in scenes ::
               if n in listed && n in merged then merged[n] else s.existing[n]
    requires out == map n | n in retire && n !in scenes :: retire[n]
    ensures out == RetiredOf(s, listed, merged, scenes)
  {
    SameMap(out, RetiredOf(s, listed, merged, scenes));
  }

  /** One SKU's step of `main`, up to how its writes end. */
  method RunMain(less: Order, s: Shelf, run: Run, end: End) returns (s': Shelf)
    requires ValidRun(less, run)
    ensures s' == After(less, s, run, end)
  {
    var listed := NameScenes(less, s, run);
    var merged := MergeScenes(s, run, listed);
    var scenes := ScenesOf(run, merged);
    var gone := map n | n in s.existing && n !in scenes ::
                  if n in listed && n in merged then merged[n] else s.existing[n];
    var retire := s.retired + gone;
    var out := map n | n in retire && n !in scenes :: retire[n];
    RetiredSame(s, listed, merged, scenes, retire, out);
    match end {
      case Written => s' := Shelf(scenes, out);
      case Unchanged => s' := s;
      case StoreFailed => s' := Shelf(s.existing, out);
    }
  }

  // ---- Every sequence of runs -----------------------------------------------------------------------------------

  datatype Fetch = Fetch(run: Run, end: End)

  ghost predicate Leads(less: Order, s: Shelf, fetch: Fetch, s': Shelf) {
    ValidRun(less, fetch.run) && s' == After(less, s, fetch.run, fetch.end)
  }

  ghost predicate Path(less: Order, shelves: seq<Shelf>, fetches: seq<Fetch>) {
    && |shelves| == |fetches| + 1 && shelves[0] == Shelf(map[], map[])
    && forall k :: 0 <= k < |fetches| ==> Leads(less, shelves[k], fetches[k], shelves[k + 1])
  }

  /** Fetch `k` was taking name `n` back, and its store write failed. */
  ghost predicate Loses(less: Order, shelves: seq<Shelf>, fetches: seq<Fetch>, k: nat, n: Text)
    requires Path(less, shelves, fetches) && k < |fetches|
  {
    assert Leads(less, shelves[k], fetches[k], shelves[k + 1]);
    fetches[k].end.StoreFailed? && n in Reclaimed(less, shelves[k], fetches[k].run)
  }

  lemma LeadsConsistent(less: Order, s: Shelf, fetch: Fetch, s': Shelf)
    requires Leads(less, s, fetch, s') && Consistent(s)
    ensures Consistent(s')
  {
    RunConsistent(less, s, fetch.run, fetch.end);
  }

  lemma {:induction false} ChainKeeps<S(!new), F(!new)>(states: seq<S>, inputs: seq<F>, leads: (S, F, S) -> bool,
                                                        inv: S -> bool,
                                                        k: nat)
    requires |states| == |inputs| + 1 && k <= |inputs| && inv(states[0])
    requires forall j :: 0 <= j < |inputs| ==> leads(states[j], inputs[j], states[j + 1])
    requires forall s, f, t :: leads(s, f, t) && inv(s) ==> inv(t)
    ensures inv(states[k])
  {
    if k == 0 {
    } else {
      ChainKeeps(states, inputs, leads, inv, k - 1);
      assert leads(states[k - 1], inputs[k - 1], states[k]);
    }
  }

  lemma PathConsistent(less: Order, shelves: seq<Shelf>, fetches: seq<Fetch>, k: nat)
    requires Path(less, shelves, fetches) && k <= |fetches|
    ensures Consistent(shelves[k])
  {
    var leads := (s: Shelf, f: Fetch, t: Shelf) => Leads(less, s, f, t);
    forall s, f, t | leads(s, f, t) && Consistent(s) ensures Consistent(t) {
      LeadsConsistent(less, s, f, t);
    }
    ChainKeeps(shelves, fetches, leads, Consistent, k);
  }

  /** The next fetch keeps a name and its sceneName, but for the one way to lose it. */
  lemma NextKeeps(less: Order, shelves: seq<Shelf>, fetches: seq<Fetch>, k: nat, n: Text)
    requires Path(less, shelves, fetches) && k < |fetches| && Holds(shelves[k], n)
    ensures !Holds(shelves[k + 1], n) <==> Loses(less, shelves, fetches, k, n)
    ensures Holds(shelves[k + 1], n) ==> Own(shelves[k + 1], n) == Own(shelves[k], n)
  {
    PathConsistent(less, shelves, fetches, k);
    assert Leads(less, shelves[k], fetches[k], shelves[k + 1]);
    RunKeeps(less, shelves[k], fetches[k].run, fetches[k].end, n);
  }

  ghost predicate HeldAs(s: Shelf, n: Text, own: Text) {
    Holds(s, n) && Own(s, n) == own
  }

  ghost predicate NeverLost(less: Order, shelves: seq<Shelf>, fetches: seq<Fetch>, i: nat, k: nat, n: Text)
    requires Path(less, shelves, fetches) && k <= |fetches|
  {
    forall m :: i <= m < k ==> !Loses(less, shelves, fetches, m, n)
  }

  /** A name once stored is in the store or the tombstone ever after, under the same sceneName, until a run that was
      taking it back fails to write the store. */
  lemma {:induction false} NamesForever(less: Order, shelves: seq<Shelf>, fetches: seq<Fetch>, i: nat, k: nat, n: Text)
    requires Path(less, shelves, fetches) && i <= k <= |fetches| && Holds(shelves[i], n)
    requires NeverLost(less, shelves, fetches, i, k, n)
    ensures HeldAs(shelves[k], n, Own(shelves[i], n))
  {
    if i == k {
    } else {
      assert NeverLost(less, shelves, fetches, i, k - 1, n) && !Loses(less, shelves, fetches, k - 1, n);
      NamesForever(less, shelves, fetches, i, k - 1, n);
      NextKeeps(less, shelves, fetches, k - 1, n);
    }
  }

  // ---- The loss, fetch by fetch ---------------------------------------------------------------------------------

  /** A fetch that lists one scene or none, and refuses the stored names `gone` for good. */
  function Listing(items: seq<Item>, gone: set<Text>): Run {
    Run(Context(items, {}, {}), seq(|items|, i => i), gone, map[], _ => false)
  }

  lemma ListingValid(less: Order, items: seq<Item>, gone: set<Text>)
    requires TotalOrder(less) && |items| <= 1 && forall i :: 0 <= i < |items| ==> items[i].own != ""
    ensures ValidRun(less, Listing(items, gone))
  {
  }

  /** The one scene such a fetch lists is the catalog after it, whatever the tombstone holds. */
  lemma OneListed(less: Order, item: Item, retired: Store, n: Text)
    requires ValidRun(less, Listing([item], {}))
    requires n == NamesIn(less, Shelf(map[], retired), Listing([item], {}))[0]
    ensures Scenes(less, Shelf(map[], retired), Listing([item], {})) == map[n := StoredAs(item, n)]
  {
    var s, run := Shelf(map[], retired), Listing([item], {});
    OneFound(less, item, retired, n);
    SameMap(Scenes(less, s, run), map[n := StoredAs(item, n)]);
  }

  lemma OneFound(less: Order, item: Item, retired: Store, n: Text)
    requires ValidRun(less, Listing([item], {}))
    requires n == NamesIn(less, Shelf(map[], retired), Listing([item], {}))[0]
    ensures Fresh(less, Shelf(map[], retired), Listing([item], {})) == map[n := StoredAs(item, n)]
  {
    var s, run := Shelf(map[], retired), Listing([item], {});
    var found := Fresh(less, s, run);
    assert run.order == [0] && found.Keys == {n};
    assert RankOf(less, s, run, n) == 0;
    SameMap(found, map[n := StoredAs(item, n)]);
  }

  /** A scene retired under `n` and listed alone takes `n` back in the first match, and keeps it through the others. */
  lemma {:induction false} TakenBack(item: Item, n: Text, k: nat)
    requires 1 <= k && item.own != ""
    ensures Passes(Context([item], {}, {}), map[], map[n := StoredAs(item, n)], k).names == [Some(n)]
  {
    var c, retired := Context([item], {}, {}), map[n := StoredAs(item, n)];
    if k == 1 {
      FirstMatch(item, n);
    } else {
      TakenBack(item, n, k - 1);
      var s := Passes(c, map[], retired, k - 1);
      assert HitsAt(c, k - 1, s, 0) == {};
    }
  }

  lemma FirstMatch(item: Item, n: Text)
    requires item.own != ""
    ensures var c := Context([item], {}, {});
            Pass(c, 0, StartOf(c, map[], map[n := StoredAs(item, n)])).names == [Some(n)]
  {
    var c := Context([item], {}, {});
    var s := StartOf(c, map[], map[n := StoredAs(item, n)]);
    var fits := HitsOf(c, 0, s);
    assert Hit(c, 0, 0, n, s.back[n]);
    assert fits[0] == {n};
    assert Group(fits, 0) == {0};
    assert NamesOf(fits, {0}) == {n};
    var names := InOrder({n});
    assert names[0] in names;
    assert Before({0}, 0) == {};
  }

  function LossFetches(item: Item, n: Text): seq<Fetch> {
    [Fetch(Listing([item], {}), Written), Fetch(Listing([], {n}), Written), Fetch(Listing([item], {}), StoreFailed)]
  }

  /** Any scene can lose its name: stored by one fetch, retired by the next, which no longer lists it and is refused it
      for good, and listed again by a third, whose tombstone write drops the name and whose store write fails. */
  lemma LostName(less: Order, item: Item) returns (shelves: seq<Shelf>, n: Text)
    requires TotalOrder(less) && item.own != ""
    ensures Path(less, shelves, LossFetches(item, n)) && Loses(less, shelves, LossFetches(item, n), 2, n)
    ensures n in shelves[1].existing && n in shelves[2].retired && !Holds(shelves[3], n)
  {
    n := Stored(less, item);
    var stored := map[n := StoredAs(item, n)];
    Refused(less, n, stored[n]);
    var last := LostNow(less, item, n);
    var fetches := LossFetches(item, n);
    shelves, fetches := LossPath(less, Shelf(stored, map[]), Shelf(map[], stored), last, fetches[0], fetches[1],
                                  fetches[2]);
    LosesThird(less, shelves, fetches, n);
  }

  lemma LossPath(less: Order, b: Shelf, c: Shelf, d: Shelf, f: Fetch, g: Fetch, h: Fetch)
    returns (shelves: seq<Shelf>, fetches: seq<Fetch>)
    requires Leads(less, Shelf(map[], map[]), f, b) && Leads(less, b, g, c) && Leads(less, c, h, d)
    ensures shelves == [Shelf(map[], map[]), b, c, d] && fetches == [f, g, h] && Path(less, shelves, fetches)
  {
    var leads := (s: Shelf, fetch: Fetch, t: Shelf) => Leads(less, s, fetch, t);
    shelves, fetches := ThreeSteps(leads, Shelf(map[], map[]), b, c, d, f, g, h);
    forall k | 0 <= k < |fetches| ensures Leads(less, shelves[k], fetches[k], shelves[k + 1]) {
      assert leads(shelves[k], fetches[k], shelves[k + 1]);
    }
  }

  lemma ThreeSteps<S(!new), F(!new)>(leads: (S, F, S) -> bool, a: S, b: S, c: S, d: S, f: F, g: F, h: F)
    returns (states: seq<S>, inputs: seq<F>)
    requires leads(a, f, b) && leads(b, g, c) && leads(c, h, d)
    ensures states == [a, b, c, d] && inputs == [f, g, h]
    ensures forall k :: 0 <= k < |inputs| ==> leads(states[k], inputs[k], states[k + 1])
  {
    states, inputs := [a, b, c, d], [f, g, h];
  }

  lemma LosesThird(less: Order, shelves: seq<Shelf>, fetches: seq<Fetch>, n: Text)
    requires Path(less, shelves, fetches) && |fetches| == 3 && ValidRun(less, fetches[2].run)
    requires fetches[2].end.StoreFailed? && n in Reclaimed(less, shelves[2], fetches[2].run)
    ensures Loses(less, shelves, fetches, 2, n)
  {
  }

  lemma LostNow(less: Order, item: Item, n: Text) returns (last: Shelf)
    requires ValidRun(less, Listing([item], {})) && item.own != ""
    ensures Leads(less, Shelf(map[], map[n := StoredAs(item, n)]), Fetch(Listing([item], {}), StoreFailed), last)
    ensures n in Reclaimed(less, Shelf(map[], map[n := StoredAs(item, n)]), Listing([item], {})) && !Holds(last, n)
  {
    var s, run := Shelf(map[], map[n := StoredAs(item, n)]), Listing([item], {});
    TakenBack(item, n, MATCHES);
    Returned(less, item, n);
    last := After(less, s, run, StoreFailed);
    RunKeeps(less, s, run, StoreFailed, n);
  }

  lemma Stored(less: Order, item: Item) returns (n: Text)
    requires TotalOrder(less) && item.own != ""
    ensures ValidRun(less, Listing([item], {}))
    ensures After(less, Shelf(map[], map[]), Listing([item], {}), Written) == Shelf(map[n := StoredAs(item, n)], map[])
  {
    var first, empty := Listing([item], {}), Shelf(map[], map[]);
    ListingValid(less, [item], {});
    n := NamesIn(less, empty, first)[0];
    OneListed(less, item, map[], n);
    SameMap(Retired(less, empty, first), map[]);
  }

  lemma Refused(less: Order, n: Text, held: Held)
    requires TotalOrder(less)
    ensures ValidRun(less, Listing([], {n}))
    ensures After(less, Shelf(map[n := held], map[]), Listing([], {n}), Written) == Shelf(map[], map[n := held])
  {
    var s, run := Shelf(map[n := held], map[]), Listing([], {n});
    ListingValid(less, [], {n});
    assert NamesIn(less, s, run) == [];
    assert Fresh(less, s, run) == map[];
    assert Merged(less, s, run) == map[];
    assert Scenes(less, s, run) == map[];
    SameMap(Retired(less, s, run), map[n := held]);
  }

  lemma Returned(less: Order, item: Item, n: Text)
    requires ValidRun(less, Listing([item], {}))
    requires Passes(Context([item], {}, {}), map[], map[n := StoredAs(item, n)], MATCHES).names == [Some(n)]
    ensures n in Reclaimed(less, Shelf(map[], map[n := StoredAs(item, n)]), Listing([item], {}))
  {
    var retired, run := map[n := StoredAs(item, n)], Listing([item], {});
    var s := Shelf(map[], retired);
    assert run.order == [0] && run.c == Context([item], {}, {});
    assert Matched(run.c, map[], retired, run.order)[0] == Some(n);
    StoredNames(less, run.c, map[], retired, run.order, 0);
    OneListed(less, item, retired, n);
  }
}

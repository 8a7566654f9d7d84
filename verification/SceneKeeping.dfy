/** When a listed scene keeps a stored name (tools/fetch_scenes.py `stored_names`), told on the entries' own fields: for
    each match, what pairs a scene and a name; where one scene and one name are all there is of a sceneName, exactly
    when they are paired; and when nothing is guessed. */
module SceneKeeping {
  import opened Basics
  import opened SceneGroups
  import opened SceneLists
  import opened SceneNames
  import opened SceneNaming
  import opened Sorting
  import opened Texts

  function HeldAs(existing: Store, retired: Store, n: Text): SceneNames.Held
    requires n in existing || n in retired
  {
    if n in existing then existing[n] else retired[n]
  }

  /** Name `n` may be matched at match `k`: a stored one at any, a retired one at those of its exact return. */
  predicate Offered(existing: Store, retired: Store, k: nat, n: Text) {
    n in existing || (n in retired && k < RETURN)
  }

  // ---- The passes, for one scene and one name -------------------------------------------------------------------

  /** No match up to the `k`-th fits the scene to another name or the name to another scene. */
  ghost predicate Unrivalled(c: Context, existing: Store, retired: Store, i: nat, n: Text, k: nat)
    requires i < |c.listed| && Offered(existing, retired, k, n)
  {
    && (forall q: nat, m :: q <= k && m != n && Offered(existing, retired, q, m) ==>
          !Hit(c, q, i, m, HeldAs(existing, retired, m)))
    && (forall q: nat, j: nat :: q <= k && j < |c.listed| && j != i ==> !Hit(c, q, j, n, HeldAs(existing, retired, n)))
  }

  /** The scene is matched to the name, or both are still free. */
  ghost predicate Bound(c: Context, existing: Store, retired: Store, i: nat, n: Text, s: State) {
    && |s.names| == |c.listed| && i < |s.names| && Kept(c, existing, retired, s)
    && (s.names[i] == Some(n) || (Open(s, i) && if n in existing then n in s.live else n in s.back))
  }

  lemma PoolOffers(c: Context, existing: Store, retired: Store, k: nat, s: State, m: Text)
    requires Kept(c, existing, retired, s) && m in Pool(k, s)
    ensures Offered(existing, retired, k, m) && Pool(k, s)[m] == HeldAs(existing, retired, m)
  {
    PoolHolds(c, existing, retired, k, s, m);
  }

  lemma HitsOnly(c: Context, existing: Store, retired: Store, i: nat, n: Text, k: nat, q: nat, s: State)
    requires i < |c.listed| && Offered(existing, retired, k, n) && q <= k && Bound(c, existing, retired, i, n, s)
    requires Unrivalled(c, existing, retired, i, n, k) && s.names[i] != Some(n)
    ensures var fits := HitsOf(c, q, s);
            && fits[i] == (if Hit(c, q, i, n, HeldAs(existing, retired, n)) then {n} else {})
            && forall j :: 0 <= j < |fits| && n in fits[j] ==> j == i
  {
    var fits := HitsOf(c, q, s);
    forall m | m in fits[i] ensures m == n {
      PoolOffers(c, existing, retired, q, s, m);
    }
    forall j | 0 <= j < |fits| && n in fits[j] ensures j == i {
      PoolOffers(c, existing, retired, q, s, n);
    }
    assert n in Pool(q, s);
    PoolOffers(c, existing, retired, q, s, n);
  }

  /** A scene and a name that fit each other alone are paired by any match. */
  lemma AloneGiven(k: nat, fits: Fits, i: nat, n: Text)
    requires i < |fits| && Alone(fits, i, n)
    ensures Given(k, fits, i) == Some(n)
  {
    OneToOne(fits, i, n);
    var names := InOrder({n});
    assert names[0] in names;
    assert Before({i}, i) == {};
  }

  lemma PassBinds(c: Context, existing: Store, retired: Store, i: nat, n: Text, k: nat, q: nat, s: State)
    requires i < |c.listed| && Offered(existing, retired, k, n) && q <= k && Bound(c, existing, retired, i, n, s)
    requires Unrivalled(c, existing, retired, i, n, k)
    ensures Bound(c, existing, retired, i, n, Pass(c, q, s))
    ensures Hit(c, q, i, n, HeldAs(existing, retired, n)) ==> Pass(c, q, s).names[i] == Some(n)
  {
    var fits := HitsOf(c, q, s);
    PassKeeps(c, existing, retired, q, s);
    if s.names[i] == Some(n) {
      NamedStays(c, q, s, i);
    } else {
      HitsOnly(c, existing, retired, i, n, k, q, s);
      if fits[i] == {n} {
        AloneGiven(q, fits, i, n);
      } else {
        FreeStays(c, q, s, i, n);
      }
    }
  }

  lemma NamedStays(c: Context, k: nat, s: State, i: nat)
    requires i < |s.names| == |c.listed| && s.names[i].Some?
    ensures Pass(c, k, s).names[i] == s.names[i]
  {
    assert HitsAt(c, k, s, i) == {};
  }

  /** A scene nothing fits stays free, and so does a name that fits nothing. */
  lemma FreeStays(c: Context, k: nat, s: State, i: nat, n: Text)
    requires i < |s.names| == |c.listed| && Open(s, i)
    requires var fits := HitsOf(c, k, s); fits[i] == {} && forall j :: 0 <= j < |fits| ==> n !in fits[j]
    ensures Open(Pass(c, k, s), i)
    ensures (n in s.live ==> n in Pass(c, k, s).live) && (n in s.back ==> n in Pass(c, k, s).back)
  {
    var fits := HitsOf(c, k, s);
    PassGone(c, k, s);
    if n in GoneAt(k, fits) {
      GoneFits(k, fits, n);
    }
  }

  lemma GoneFits(k: nat, fits: Fits, n: Text)
    requires n in GoneAt(k, fits)
    ensures n in AllOf(fits)
  {
    if k == 0 {
      var i :| 0 <= i < |fits| && n in NamesOf(fits, Group(fits, i)) && Given(k, fits, i) == Some(n);
    }
  }

  lemma {:induction false} ByPass(holds: nat -> bool, from: nat, k: nat)
    requires from <= k && holds(from) && forall q: nat :: from <= q < k && holds(q) ==> holds(q + 1)
    ensures holds(k)
  {
    if k == from {
    } else {
      ByPass(holds, from, k - 1);
    }
  }

  lemma PassesStep(c: Context, existing: Store, retired: Store, k: nat)
    ensures Passes(c, existing, retired, k + 1) == Pass(c, k, Passes(c, existing, retired, k))
  {
  }

  lemma PassesStart(c: Context, existing: Store, retired: Store)
    ensures Passes(c, existing, retired, 0) == StartOf(c, existing, retired)
  {
  }

  lemma StartBinds(c: Context, existing: Store, retired: Store, i: nat, n: Text)
    requires i < |c.listed| && (n in existing || n in retired)
    ensures Bound(c, existing, retired, i, n, StartOf(c, existing, retired))
  {
    StartKeeps(c, existing, retired);
  }

  ghost predicate BoundAt(c: Context, existing: Store, retired: Store, i: nat, n: Text, q: nat) {
    Bound(c, existing, retired, i, n, Passes(c, existing, retired, q))
  }

  lemma FirstBinds(c: Context, existing: Store, retired: Store, i: nat, n: Text)
    requires i < |c.listed| && (n in existing || n in retired)
    ensures BoundAt(c, existing, retired, i, n, 0)
  {
    PassesStart(c, existing, retired);
    StartBinds(c, existing, retired, i, n);
  }

  lemma StepBinds(c: Context, existing: Store, retired: Store, i: nat, n: Text, k: nat, q: nat)
    requires i < |c.listed| && Offered(existing, retired, k, n) && Unrivalled(c, existing, retired, i, n, k) && q <= k
    requires BoundAt(c, existing, retired, i, n, q)
    ensures BoundAt(c, existing, retired, i, n, q + 1)
  {
    PassesStep(c, existing, retired, q);
    PassBinds(c, existing, retired, i, n, k, q, Passes(c, existing, retired, q));
  }

  lemma StepsBind(c: Context, existing: Store, retired: Store, i: nat, n: Text, k: nat)
    requires i < |c.listed| && Offered(existing, retired, k, n) && Unrivalled(c, existing, retired, i, n, k)
    ensures forall q: nat :: q <= k && BoundAt(c, existing, retired, i, n, q) ==>
              BoundAt(c, existing, retired, i, n, q + 1)
  {
    forall q: nat | q <= k && BoundAt(c, existing, retired, i, n, q)
      ensures BoundAt(c, existing, retired, i, n, q + 1)
    {
      StepBinds(c, existing, retired, i, n, k, q);
    }
  }

  /** Up to the match the two are unrivalled at, they stay bound. */
  lemma PassesBind(c: Context, existing: Store, retired: Store, i: nat, n: Text, k: nat, q: nat)
    requires i < |c.listed| && (n in existing || n in retired) && q <= k + 1
    requires forall p: nat :: p <= k && BoundAt(c, existing, retired, i, n, p) ==>
               BoundAt(c, existing, retired, i, n, p + 1)
    ensures BoundAt(c, existing, retired, i, n, q)
  {
    FirstBinds(c, existing, retired, i, n);
    ByPass((p: nat) => BoundAt(c, existing, retired, i, n, p), 0, q);
  }

  ghost predicate NamedAs(c: Context, s: State, i: nat, n: Text) {
    i < |c.listed| == |s.names| && s.names[i] == Some(n)
  }

  lemma StaysTo(c: Context, existing: Store, retired: Store, i: nat, n: Text, k: nat, q: nat)
    requires k <= q && NamedAs(c, Passes(c, existing, retired, k), i, n)
    ensures NamedAs(c, Passes(c, existing, retired, q), i, n)
  {
    var holds := (q: nat) => NamedAs(c, Passes(c, existing, retired, q), i, n);
    forall q: nat | holds(q) ensures holds(q + 1) {
      PassesStep(c, existing, retired, q);
      NamedStays(c, q, Passes(c, existing, retired, q), i);
    }
    ByPass(holds, k, q);
  }

  /** A scene and a name that some match fits to each other, and no match up to that one to any other, are paired by
      it. */
  lemma PairedAt(c: Context, existing: Store, retired: Store, i: nat, n: Text, k: nat)
    requires i < |c.listed| && Offered(existing, retired, k, n)
    requires Unrivalled(c, existing, retired, i, n, k) && Hit(c, k, i, n, HeldAs(existing, retired, n))
    ensures NamedAs(c, Passes(c, existing, retired, k + 1), i, n)
  {
    StepsBind(c, existing, retired, i, n, k);
    PassesBind(c, existing, retired, i, n, k, k);
    PassesStep(c, existing, retired, k);
    PassBinds(c, existing, retired, i, n, k, k, Passes(c, existing, retired, k));
  }

  /** No match fits the scene to any name. */
  ghost predicate FitsNone(c: Context, existing: Store, retired: Store, i: nat, k: nat)
    requires i < |c.listed|
  {
    forall q: nat, m :: q < k && Offered(existing, retired, q, m) ==> !Hit(c, q, i, m, HeldAs(existing, retired, m))
  }

  ghost predicate Unnamed(c: Context, existing: Store, retired: Store, s: State, i: nat) {
    i < |c.listed| == |s.names| && s.names[i].None? && Kept(c, existing, retired, s)
  }

  lemma UnnamedStays(c: Context, existing: Store, retired: Store, k: nat, s: State, i: nat)
    requires Unnamed(c, existing, retired, s, i)
    requires forall m :: Offered(existing, retired, k, m) ==> !Hit(c, k, i, m, HeldAs(existing, retired, m))
    ensures Unnamed(c, existing, retired, Pass(c, k, s), i)
  {
    PassKeeps(c, existing, retired, k, s);
    if m :| m in HitsAt(c, k, s, i) {
      PoolOffers(c, existing, retired, k, s, m);
    }
  }

  lemma FitsFewer(c: Context, existing: Store, retired: Store, i: nat, k: nat, q: nat)
    requires i < |c.listed| && FitsNone(c, existing, retired, i, k) && q <= k
    ensures FitsNone(c, existing, retired, i, q)
  {
  }

  lemma StartUnnamed(c: Context, existing: Store, retired: Store, i: nat)
    requires i < |c.listed|
    ensures Unnamed(c, existing, retired, StartOf(c, existing, retired), i)
  {
    StartKeeps(c, existing, retired);
  }

  lemma StepUnnamed(c: Context, existing: Store, retired: Store, i: nat, k: nat)
    requires i < |c.listed| && FitsNone(c, existing, retired, i, k + 1)
    requires Unnamed(c, existing, retired, Passes(c, existing, retired, k), i)
    ensures Unnamed(c, existing, retired, Passes(c, existing, retired, k + 1), i)
  {
    PassesStep(c, existing, retired, k);
    UnnamedStays(c, existing, retired, k, Passes(c, existing, retired, k), i);
  }

  lemma NonePaired(c: Context, existing: Store, retired: Store, i: nat, k: nat)
    requires i < |c.listed| && FitsNone(c, existing, retired, i, k)
    ensures Unnamed(c, existing, retired, Passes(c, existing, retired, k), i)
  {
    var holds := (q: nat) => Unnamed(c, existing, retired, Passes(c, existing, retired, q), i);
    PassesStart(c, existing, retired);
    StartUnnamed(c, existing, retired, i);
    forall q: nat | q < k && holds(q) ensures holds(q + 1) {
      FitsFewer(c, existing, retired, i, k, q + 1);
      StepUnnamed(c, existing, retired, i, q);
    }
    ByPass(holds, 0, k);
  }

  // ---- In fields ------------------------------------------------------------------------------------------------

  /** The stored scene `n` is of the sceneName `own`: the one it carries, else (none, or an empty one) its name. */
  predicate IsOf(n: Text, e: Held, own: Text) {
    if e.sceneName.None? || e.sceneName == Some("") then n == own else e.sceneName == Some(own)
  }

  /** Scene `r` of the sorted listing is of the sceneName the stored or retired scene `n` is of. */
  ghost predicate Setting(less: Order, c: Context, existing: Store, retired: Store, order: seq<nat>, r: nat, n: Text) {
    && (forall a, b :: less(a, b) ==> !less(b, a)) && r < |order| == |c.listed| && Ranked(less, c.listed, order)
    && (n in existing || n in retired)
    && IsOf(n, HeldAs(existing, retired, n), c.listed[order[r]].own)
  }

  /** No other stored or retired scene of the sceneName is related to the scene, and no other listed one of it to
      `n`. */
  ghost predicate Only(c: Context, existing: Store, retired: Store, i: nat, n: Text, related: (Item, Entry) -> bool)
    requires i < |c.listed| && (n in existing || n in retired)
  {
    && (forall m :: (m in existing || m in retired) && m != n
                    && IsOf(m, HeldAs(existing, retired, m), c.listed[i].own) ==>
          !related(c.listed[i], HeldAs(existing, retired, m).entry))
    && (forall j :: 0 <= j < |c.listed| && j != i && c.listed[j].own == c.listed[i].own ==>
          !related(c.listed[j], HeldAs(existing, retired, n).entry))
  }

  /** The scene keeps the name. */
  ghost predicate Keeps(less: Order, c: Context, existing: Store, retired: Store, order: seq<nat>, r: nat, n: Text)
    requires r < |order| && forall q :: 0 <= q < |order| ==> order[q] < |c.listed|
  {
    NamesByRank(less, c, existing, retired, order)[r] == n
  }

  lemma KeepsMatched(less: Order, c: Context, existing: Store, retired: Store, order: seq<nat>, r: nat, n: Text)
    requires r < |order| && forall q :: 0 <= q < |order| ==> order[q] < |c.listed|
    requires n in existing || n in retired
    ensures Keeps(less, c, existing, retired, order, r, n)
            <==> NamedAs(c, Passes(c, existing, retired, MATCHES), order[r], n)
  {
    var names := Matched(c, existing, retired, order);
    PassesKeep(c, existing, retired, MATCHES);
    NameKept(less, RankedItems(c.listed, order), names, Taken(existing, retired, names), r);
  }

  /** Where every match up to the `k`-th relates what it fits, the only one related is unrivalled. */
  lemma OnlyUnrivalled(c: Context, existing: Store, retired: Store, i: nat, n: Text, k: nat,
                       related: (Item, Entry) -> bool)
    requires i < |c.listed| && Offered(existing, retired, k, n)
    requires SceneName(n, HeldAs(existing, retired, n)) == c.listed[i].own
    requires Only(c, existing, retired, i, n, related)
    requires forall q: nat, x, e :: q <= k && Fitting(q, x, e) ==> related(x, e)
    ensures Unrivalled(c, existing, retired, i, n, k)
  {
    forall q: nat, m | q <= k && m != n && Offered(existing, retired, q, m)
      ensures !Hit(c, q, i, m, HeldAs(existing, retired, m))
    {
    }
    forall q: nat, j: nat | q <= k && j < |c.listed| && j != i ensures !Hit(c, q, j, n, HeldAs(existing, retired, n)) {
    }
  }

  lemma KeptBy(less: Order, c: Context, existing: Store, retired: Store, order: seq<nat>, r: nat, n: Text, k: nat,
               related: (Item, Entry) -> bool)
    requires Setting(less, c, existing, retired, order, r, n) && Offered(existing, retired, k, n) && k < MATCHES
    requires Only(c, existing, retired, order[r], n, related)
    requires forall q: nat, x, e :: q <= k && Fitting(q, x, e) ==> related(x, e)
    requires Fitting(k, c.listed[order[r]], HeldAs(existing, retired, n).entry)
    requires k >= EXACT ==> MayFollow(c, k, order[r], n, HeldAs(existing, retired, n).entry)
    ensures Keeps(less, c, existing, retired, order, r, n)
  {
    OnlyUnrivalled(c, existing, retired, order[r], n, k, related);
    PairedAt(c, existing, retired, order[r], n, k);
    PairedKeeps(less, c, existing, retired, order, r, n, k + 1);
  }

  lemma PairedKeeps(less: Order, c: Context, existing: Store, retired: Store, order: seq<nat>, r: nat, n: Text, k: nat)
    requires r < |order| && forall q :: 0 <= q < |order| ==> order[q] < |c.listed|
    requires k <= MATCHES && (n in existing || n in retired) && NamedAs(c, Passes(c, existing, retired, k), order[r], n)
    ensures Keeps(less, c, existing, retired, order, r, n)
  {
    StaysTo(c, existing, retired, order[r], n, k, MATCHES);
    KeepsMatched(less, c, existing, retired, order, r, n);
  }

  /** Of one code and category. */
  predicate OneScene(a: Entry, e: Entry) {
    a.code == e.code && a.category == e.category
  }

  /** The only stored scene of its sceneName, code and category is kept by the only listed one. */
  lemma IdentityKept(less: Order, c: Context, existing: Store, retired: Store, order: seq<nat>, r: nat, n: Text)
    requires Setting(less, c, existing, retired, order, r, n) && n in existing
    requires OneScene(c.listed[order[r]].entry, existing[n].entry)
    requires Only(c, existing, retired, order[r], n, (x: Item, e: Entry) => OneScene(x.entry, e))
    ensures Keeps(less, c, existing, retired, order, r, n)
  {
    KeptBy(less, c, existing, retired, order, r, n, 4, (x: Item, e: Entry) => OneScene(x.entry, e));
  }

  /** Among scenes of one code and category, the only one of its param id, where no other has its blob, is kept. */
  lemma ParamKept(less: Order, c: Context, existing: Store, retired: Store, order: seq<nat>, r: nat, n: Text)
    requires Setting(less, c, existing, retired, order, r, n) && n in existing
    requires var (a, e) := (c.listed[order[r]].entry, existing[n].entry); OneScene(a, e) && a.paramId == e.paramId
    requires Only(c, existing, retired, order[r], n, (x: Item, e: Entry) =>
               OneScene(x.entry, e) && (x.entry.paramId == e.paramId || x.entry.blob == e.blob))
    ensures Keeps(less, c, existing, retired, order, r, n)
  {
    KeptBy(less, c, existing, retired, order, r, n, 3, (x: Item, e: Entry) =>
             OneScene(x.entry, e) && (x.entry.paramId == e.paramId || x.entry.blob == e.blob));
  }

  /** So is the only one of its blob, stored or retired, where neither is a placeholder. */
  lemma BlobKept(less: Order, c: Context, existing: Store, retired: Store, order: seq<nat>, r: nat, n: Text)
    requires Setting(less, c, existing, retired, order, r, n)
    requires var (a, e) := (c.listed[order[r]].entry, HeldAs(existing, retired, n).entry);
             OneScene(a, e) && a.blob == e.blob && (a.bigEffect ==> a.blob.Some? && a.blob.value != "")
             && (e.bigEffect ==> e.blob.Some? && e.blob.value != "")
    requires Only(c, existing, retired, order[r], n, (x: Item, e: Entry) =>
               OneScene(x.entry, e) && (x.entry.blob == e.blob || FormOf(e, x.entry)))
    ensures Keeps(less, c, existing, retired, order, r, n)
  {
    KeptBy(less, c, existing, retired, order, r, n, 2, (x: Item, e: Entry) =>
             OneScene(x.entry, e) && (x.entry.blob == e.blob || FormOf(e, x.entry)));
  }

  /** `a` is the placeholder the public library ships for `e`, whose blob was baked in. */
  predicate FormOf(e: Entry, a: Entry) {
    && e.bigEffect && !e.placeholder && e.blob.Some? && e.blob.value != "" && e.paramId.Some?
    && a == e.(blob := None, placeholder := true)
  }

  /** A placeholder is kept by its blob and param id together, stored or retired. */
  lemma BlobParamKept(less: Order, c: Context, existing: Store, retired: Store, order: seq<nat>, r: nat, n: Text)
    requires Setting(less, c, existing, retired, order, r, n)
    requires var (a, e) := (c.listed[order[r]].entry, HeldAs(existing, retired, n).entry);
             OneScene(a, e) && a.blob == e.blob && a.paramId == e.paramId
    requires Only(c, existing, retired, order[r], n, (x: Item, e: Entry) =>
               OneScene(x.entry, e) && x.entry.paramId == e.paramId && (x.entry.blob == e.blob || FormOf(e, x.entry)))
    ensures Keeps(less, c, existing, retired, order, r, n)
  {
    KeptBy(less, c, existing, retired, order, r, n, 1, (x: Item, e: Entry) =>
             OneScene(x.entry, e) && x.entry.paramId == e.paramId && (x.entry.blob == e.blob || FormOf(e, x.entry)));
  }

  /** The only entry that is the listed one, or that it is the placeholder of, is kept, stored or retired. */
  lemma EntryKept(less: Order, c: Context, existing: Store, retired: Store, order: seq<nat>, r: nat, n: Text)
    requires Setting(less, c, existing, retired, order, r, n)
    requires var (a, e) := (c.listed[order[r]].entry, HeldAs(existing, retired, n).entry); e == a || FormOf(e, a)
    requires Only(c, existing, retired, order[r], n, (x: Item, e: Entry) => e == x.entry || FormOf(e, x.entry))
    ensures Keeps(less, c, existing, retired, order, r, n)
  {
    KeptBy(less, c, existing, retired, order, r, n, 0, (x: Item, e: Entry) => e == x.entry || FormOf(e, x.entry));
  }

  // ---- Close matches --------------------------------------------------------------------------------------------

  /** The library still answers the stored scene at its sceneName, category and code, or at its code under any. */
  predicate AnsweredAs(c: Context, own: Text, e: Entry) {
    Answer(own, e.category, e.code) in c.answers
  }

  predicate CodeAnswered(c: Context, e: Entry) {
    exists a :: a in c.answers && a.code == e.code
  }

  /** Another listed scene carries the stored scene's param id. */
  predicate CarriedElsewhere(c: Context, i: nat, e: Entry) {
    e.paramId.Some? && exists j :: 0 <= j < |c.listed| && j != i && c.listed[j].entry.paramId == e.paramId
  }

  /** By one of the scene's own effects' codes: a scene not dropped. */
  lemma CodeKept(less: Order, c: Context, existing: Store, retired: Store, order: seq<nat>, r: nat, n: Text)
    requires Setting(less, c, existing, retired, order, r, n) && n in existing
    requires existing[n].entry.code in c.listed[order[r]].codes && n !in c.dropped
    requires Only(c, existing, retired, order[r], n, (x: Item, e: Entry) => OneScene(x.entry, e) || e.code in x.codes)
    ensures Keeps(less, c, existing, retired, order, r, n)
  {
    KeptBy(less, c, existing, retired, order, r, n, 5,
           (x: Item, e: Entry) => OneScene(x.entry, e) || e.code in x.codes);
  }

  /** Of one category and blob. */
  predicate OneBlob(a: Entry, e: Entry) {
    a.category == e.category && a.blob == e.blob && a.blob.Some? && a.blob.value != ""
  }

  /** By category and blob, its code changed: a scene not answered as it was, and not dropped unless it comes back with
      its param id. */
  lemma BlobMoved(less: Order, c: Context, existing: Store, retired: Store, order: seq<nat>, r: nat, n: Text)
    requires Setting(less, c, existing, retired, order, r, n) && n in existing
    requires var (item, e) := (c.listed[order[r]], existing[n].entry);
             && OneBlob(item.entry, e)
             && (n !in c.dropped || (e.paramId.Some? && e.paramId == item.entry.paramId))
             && (e.code in item.codes || !AnsweredAs(c, item.own, e))
    requires Only(c, existing, retired, order[r], n, (x: Item, e: Entry) =>
               OneScene(x.entry, e) || e.code in x.codes || OneBlob(x.entry, e))
    ensures Keeps(less, c, existing, retired, order, r, n)
  {
    KeptBy(less, c, existing, retired, order, r, n, 6, (x: Item, e: Entry) =>
             OneScene(x.entry, e) || e.code in x.codes || OneBlob(x.entry, e));
  }

  /** A guess passes over a dropped scene, and over one whose code is answered or whose param id is listed elsewhere. */
  predicate MayGuess(c: Context, i: nat, n: Text, e: Entry)
    requires i < |c.listed|
  {
    n !in c.dropped && (e.code in c.listed[i].codes || (!CodeAnswered(c, e) && !CarriedElsewhere(c, i, e)))
  }

  /** Of one category and param id. */
  predicate OneParam(a: Entry, e: Entry) {
    a.category == e.category && a.paramId == e.paramId && a.paramId.Some?
  }

  /** By category and param id, a guess. */
  lemma ParamGuessed(less: Order, c: Context, existing: Store, retired: Store, order: seq<nat>, r: nat, n: Text)
    requires Setting(less, c, existing, retired, order, r, n) && n in existing
    requires OneParam(c.listed[order[r]].entry, existing[n].entry) && MayGuess(c, order[r], n, existing[n].entry)
    requires Only(c, existing, retired, order[r], n, (x: Item, e: Entry) =>
               OneScene(x.entry, e) || e.code in x.codes || OneBlob(x.entry, e) || OneParam(x.entry, e))
    ensures Keeps(less, c, existing, retired, order, r, n)
  {
    KeptBy(less, c, existing, retired, order, r, n, 7, (x: Item, e: Entry) =>
             OneScene(x.entry, e) || e.code in x.codes || OneBlob(x.entry, e) || OneParam(x.entry, e));
  }

  /** By category alone, a guess. */
  lemma CategoryGuessed(less: Order, c: Context, existing: Store, retired: Store, order: seq<nat>, r: nat, n: Text)
    requires Setting(less, c, existing, retired, order, r, n) && n in existing
    requires c.listed[order[r]].entry.category == existing[n].entry.category
    requires MayGuess(c, order[r], n, existing[n].entry)
    requires Only(c, existing, retired, order[r], n,
                  (x: Item, e: Entry) => x.entry.category == e.category || e.code in x.codes)
    ensures Keeps(less, c, existing, retired, order, r, n)
  {
    KeptBy(less, c, existing, retired, order, r, n, 8, (x: Item, e: Entry) =>
             x.entry.category == e.category || e.code in x.codes);
  }

  // ---- One scene and one name -----------------------------------------------------------------------------------

  /** The stored scene is kept by the one listed scene of its sceneName. */
  predicate Followed(c: Context, i: nat, n: Text, e: Entry)
    requires i < |c.listed|
  {
    var item := c.listed[i];
    || OneScene(item.entry, e)
    || (e.code in item.codes && n !in c.dropped)
    || (OneBlob(item.entry, e) && (n !in c.dropped || (e.paramId.Some? && e.paramId == item.entry.paramId))
        && (e.code in item.codes || !AnsweredAs(c, item.own, e)))
    || (item.entry.category == e.category && MayGuess(c, i, n, e))
  }

  /** Where a sceneName has one listed scene and one stored name, and no retired one, the scene keeps the name exactly
      if its code and category are the stored one's; or it has the stored one's code among its effects' and the name is
      not dropped; or its category and blob, unless that one is answered as it was, or is dropped and not back with its
      param id; or its category alone, and nothing shows the stored scene elsewhere. */
  lemma SoleFollowed(less: Order, c: Context, existing: Store, retired: Store, order: seq<nat>, r: nat, n: Text)
    requires Setting(less, c, existing, retired, order, r, n) && n in existing
    requires Only(c, existing, retired, order[r], n, (x: Item, e: Entry) => true)
    ensures Keeps(less, c, existing, retired, order, r, n) <==> Followed(c, order[r], n, existing[n].entry)
  {
    var all := (x: Item, e: Entry) => true;
    var i, e := order[r], existing[n].entry;
    if Followed(c, i, n, e) {
      var k := if OneScene(c.listed[i].entry, e) then 4
               else if e.code in c.listed[i].codes && n !in c.dropped then 5
               else if c.listed[i].entry.category == e.category && MayGuess(c, i, n, e) then 8 else 6;
      KeptBy(less, c, existing, retired, order, r, n, k, all);
    } else {
      forall q: nat, m | q < MATCHES && Offered(existing, retired, q, m)
        ensures !Hit(c, q, i, m, HeldAs(existing, retired, m))
      {
        if m == n {
          NotFollowed(c, i, n, existing[n], q);
        }
      }
      NonePaired(c, existing, retired, i, MATCHES);
      KeepsMatched(less, c, existing, retired, order, r, n);
    }
  }

  lemma NotFollowed(c: Context, i: nat, n: Text, held: SceneNames.Held, k: nat)
    requires i < |c.listed| && k < MATCHES && !Followed(c, i, n, held.entry)
    ensures !Hit(c, k, i, n, held)
  {
  }

  /** Where it has one listed scene and one retired name, and no stored one, the scene takes the name back exactly on
      its exact return: its whole entry or its placeholder; or its code, category and blob, with its param id too where
      either is a placeholder. */
  lemma SoleReturns(less: Order, c: Context, existing: Store, retired: Store, order: seq<nat>, r: nat, n: Text)
    requires Setting(less, c, existing, retired, order, r, n) && n !in existing
    requires Only(c, existing, retired, order[r], n, (x: Item, e: Entry) => true)
    ensures Keeps(less, c, existing, retired, order, r, n) <==> Returns(c.listed[order[r]].entry, retired[n].entry)
  {
    var all := (x: Item, e: Entry) => true;
    var i, e := order[r], retired[n].entry;
    if Returns(c.listed[i].entry, e) {
      var k := if e == c.listed[i].entry || FormOf(e, c.listed[i].entry) then 0
               else if c.listed[i].entry.paramId == e.paramId then 1 else 2;
      KeptBy(less, c, existing, retired, order, r, n, k, all);
    } else {
      forall q: nat, m | q < MATCHES && Offered(existing, retired, q, m)
        ensures !Hit(c, q, i, m, HeldAs(existing, retired, m))
      {
      }
      NonePaired(c, existing, retired, i, MATCHES);
      KeepsMatched(less, c, existing, retired, order, r, n);
    }
  }

  predicate NoBlobYet(e: Entry) {
    e.bigEffect && (e.blob.None? || e.blob.value == "")
  }

  predicate Returns(a: Entry, e: Entry) {
    e == a || FormOf(e, a)
    || (OneScene(a, e) && a.blob == e.blob && (a.paramId == e.paramId || (!NoBlobYet(a) && !NoBlobYet(e))))
  }

  // ---- No guess -------------------------------------------------------------------------------------------------

  /** A scene that two names fit is left unsure by any match but the first. */
  lemma Unguessed(c: Context, k: nat, s: State, i: nat, m: Text, n: Text)
    requires k > 0 && i < |s.names| == |c.listed| && Open(s, i) && m != n
    requires m in HitsAt(c, k, s, i) && n in HitsAt(c, k, s, i)
    ensures Pass(c, k, s).names[i].None? && i in Pass(c, k, s).unsure
  {
    var fits := HitsOf(c, k, s);
    var names := NamesOf(fits, Group(fits, i));
    assert m in names && n in names;
    SubsetSmaller({m, n}, names);
    TwoNames(k, Group(fits, i), InOrder(names), i);
    assert i in Unpaired(k, fits);
  }

  lemma TwoNames(k: nat, g: set<nat>, names: seq<Text>, i: nat)
    requires k > 0 && |names| >= 2
    ensures GivenIn(k, g, names, i).None?
  {
  }

  ghost predicate UnsureAt(c: Context, s: State, i: nat) {
    i < |c.listed| == |s.names| && s.names[i].None? && i in s.unsure
  }

  lemma UnsureStep(c: Context, k: nat, s: State, i: nat)
    requires UnsureAt(c, s, i)
    ensures UnsureAt(c, Pass(c, k, s), i)
  {
    assert HitsAt(c, k, s, i) == {};
  }

  lemma UnsureTo(c: Context, existing: Store, retired: Store, i: nat, k: nat, q: nat)
    requires k <= q && UnsureAt(c, Passes(c, existing, retired, k), i)
    ensures UnsureAt(c, Passes(c, existing, retired, q), i)
  {
    var holds := (q: nat) => UnsureAt(c, Passes(c, existing, retired, q), i);
    forall q: nat | holds(q) ensures holds(q + 1) {
      PassesStep(c, existing, retired, q);
      UnsureStep(c, q, Passes(c, existing, retired, q), i);
    }
    ByPass(holds, k, q);
  }

  /** The scene and the stored name are both free. */
  ghost predicate BothFree(c: Context, existing: Store, retired: Store, i: nat, n: Text, s: State) {
    i < |c.listed| == |s.names| && Kept(c, existing, retired, s) && Open(s, i) && n in s.live
  }

  /** The scene is the only listed one of its sceneName. */
  predicate OnlyListed(c: Context, i: nat) {
    i < |c.listed| && forall j :: 0 <= j < |c.listed| && j != i ==> c.listed[j].own != c.listed[i].own
  }

  lemma BothStayFree(c: Context, existing: Store, retired: Store, i: nat, n: Text, q: nat, s: State)
    requires OnlyListed(c, i) && n in existing && BothFree(c, existing, retired, i, n, s)
    requires SceneName(n, existing[n]) == c.listed[i].own
    requires forall z :: Offered(existing, retired, q, z) ==> !Hit(c, q, i, z, HeldAs(existing, retired, z))
    ensures BothFree(c, existing, retired, i, n, Pass(c, q, s))
  {
    var fits := HitsOf(c, q, s);
    PassKeeps(c, existing, retired, q, s);
    if z :| z in fits[i] {
      PoolOffers(c, existing, retired, q, s, z);
    }
    forall j | 0 <= j < |fits| ensures n !in fits[j] {
      if n in fits[j] {
        PoolOffers(c, existing, retired, q, s, n);
      }
    }
    FreeStays(c, q, s, i, n);
  }

  ghost predicate FreeAt(c: Context, existing: Store, retired: Store, i: nat, n: Text, q: nat) {
    BothFree(c, existing, retired, i, n, Passes(c, existing, retired, q))
  }

  lemma StartFree(c: Context, existing: Store, retired: Store, i: nat, n: Text)
    requires i < |c.listed| && n in existing
    ensures FreeAt(c, existing, retired, i, n, 0)
  {
    PassesStart(c, existing, retired);
    StartKeeps(c, existing, retired);
  }

  lemma StepFree(c: Context, existing: Store, retired: Store, i: nat, n: Text, k: nat, q: nat)
    requires OnlyListed(c, i) && n in existing && FitsNone(c, existing, retired, i, k) && q < k
    requires SceneName(n, existing[n]) == c.listed[i].own && FreeAt(c, existing, retired, i, n, q)
    ensures FreeAt(c, existing, retired, i, n, q + 1)
  {
    PassesStep(c, existing, retired, q);
    BothStayFree(c, existing, retired, i, n, q, Passes(c, existing, retired, q));
  }

  lemma StepsFree(c: Context, existing: Store, retired: Store, i: nat, n: Text, k: nat)
    requires OnlyListed(c, i) && n in existing && FitsNone(c, existing, retired, i, k)
    requires SceneName(n, existing[n]) == c.listed[i].own
    ensures forall q: nat :: q < k && FreeAt(c, existing, retired, i, n, q) ==>
              FreeAt(c, existing, retired, i, n, q + 1)
  {
    forall q: nat | q < k && FreeAt(c, existing, retired, i, n, q) ensures FreeAt(c, existing, retired, i, n, q + 1) {
      StepFree(c, existing, retired, i, n, k, q);
    }
  }

  lemma FreeTo(c: Context, existing: Store, retired: Store, i: nat, n: Text, k: nat)
    requires i < |c.listed| && n in existing
    requires forall q: nat :: q < k && FreeAt(c, existing, retired, i, n, q) ==>
               FreeAt(c, existing, retired, i, n, q + 1)
    ensures FreeAt(c, existing, retired, i, n, k)
  {
    StartFree(c, existing, retired, i, n);
    ByPass((q: nat) => FreeAt(c, existing, retired, i, n, q), 0, k);
  }

  /** No stored or retired scene of the scene's code and category has its blob or its param id. */
  ghost predicate Untold(existing: Store, retired: Store, a: Entry) {
    forall z :: (z in existing || z in retired) && OneScene(a, HeldAs(existing, retired, z).entry) ==>
      var e := HeldAs(existing, retired, z).entry; a.paramId != e.paramId && a.blob != e.blob
  }

  lemma SharedHit(c: Context, existing: Store, retired: Store, i: nat, n: Text)
    requires i < |c.listed| && OnlyListed(c, i) && n in existing && IsOf(n, existing[n], c.listed[i].own)
    requires OneScene(c.listed[i].entry, existing[n].entry) && Untold(existing, retired, c.listed[i].entry)
    ensures var s := Passes(c, existing, retired, 4);
            i < |s.names| == |c.listed| && Open(s, i) && n in HitsAt(c, 4, s, i)
  {
    StepsFree(c, existing, retired, i, n, 4);
    FreeTo(c, existing, retired, i, n, 4);
    PoolOffers(c, existing, retired, 4, Passes(c, existing, retired, 4), n);
  }

  /** A listed scene that two stored ones share the code and category of, with no blob or param id to tell them by,
      takes a new name: no match guesses, and none after guesses either. */
  lemma SharedNotGuessed(less: Order, c: Context, existing: Store, retired: Store, order: seq<nat>, r: nat, m: Text,
                         n: Text)
    requires Setting(less, c, existing, retired, order, r, n) && Setting(less, c, existing, retired, order, r, m)
    requires m in existing && n in existing && m != n && OnlyListed(c, order[r])
    requires OneScene(c.listed[order[r]].entry, existing[m].entry)
    requires OneScene(c.listed[order[r]].entry, existing[n].entry)
    requires Untold(existing, retired, c.listed[order[r]].entry)
    ensures NamesByRank(less, c, existing, retired, order)[r] !in existing
    ensures NamesByRank(less, c, existing, retired, order)[r] !in retired
  {
    var i, s := order[r], Passes(c, existing, retired, 4);
    SharedHit(c, existing, retired, i, m);
    SharedHit(c, existing, retired, i, n);
    PassesStep(c, existing, retired, 4);
    Unguessed(c, 4, s, i, m, n);
    UnsureTo(c, existing, retired, i, 5, MATCHES);
    NewWhereUnmatched(less, c, existing, retired, order, r);
  }

  lemma NewWhereUnmatched(less: Order, c: Context, existing: Store, retired: Store, order: seq<nat>, r: nat)
    requires r < |order| && forall q :: 0 <= q < |order| ==> order[q] < |c.listed|
    requires UnsureAt(c, Passes(c, existing, retired, MATCHES), order[r])
    ensures NamesByRank(less, c, existing, retired, order)[r] !in existing
    ensures NamesByRank(less, c, existing, retired, order)[r] !in retired
  {
    var names := Matched(c, existing, retired, order);
    NameKept(less, RankedItems(c.listed, order), names, Taken(existing, retired, names), r);
  }

  // ---- Twins ----------------------------------------------------------------------------------------------------

  /** The stored names of a sceneName and an entry. */
  function NamesOfEntry(existing: Store, own: Text, e: Entry): set<Text> {
    set n | n in existing && existing[n].entry == e && IsOf(n, existing[n], own)
  }

  /** Alike listed scenes, where the store holds as many of their entry: each keeps one of its names. */
  lemma TwinsKept(less: Order, c: Context, existing: Store, retired: Store, order: seq<nat>, r: nat)
    requires r < |order| == |c.listed| && Ranked(less, c.listed, order) && NoForms(c.listed)
    requires var item := c.listed[order[r]]; |Twins(c, order[r])| <= |NamesOfEntry(existing, item.own, item.entry)|
    ensures NamesByRank(less, c, existing, retired, order)[r] in existing
            || NamesByRank(less, c, existing, retired, order)[r] in retired
    ensures var n := NamesByRank(less, c, existing, retired, order)[r];
            var e := HeldAs(existing, retired, n).entry;
            e == c.listed[order[r]].entry || FormOf(e, c.listed[order[r]].entry)
  {
    var i := order[r];
    PassesStart(c, existing, retired);
    PassesStep(c, existing, retired, 0);
    var n := TwinGiven(c, existing, retired, i);
    StaysTo(c, existing, retired, i, n, 1, MATCHES);
    KeepsMatched(less, c, existing, retired, order, r, n);
  }

  lemma TwinGiven(c: Context, existing: Store, retired: Store, i: nat) returns (n: Text)
    requires i < |c.listed| && NoForms(c.listed)
    requires |Twins(c, i)| <= |NamesOfEntry(existing, c.listed[i].own, c.listed[i].entry)|
    ensures NamedAs(c, Pass(c, 0, StartOf(c, existing, retired)), i, n) && (n in existing || n in retired)
    ensures HeldAs(existing, retired, n).entry == c.listed[i].entry
            || FormOf(HeldAs(existing, retired, n).entry, c.listed[i].entry)
  {
    var s := StartOf(c, existing, retired);
    var fits := HitsOf(c, 0, s);
    var mine := NamesOfEntry(existing, c.listed[i].own, c.listed[i].entry);
    StartKeeps(c, existing, retired);
    assert i in Twins(c, i);
    forall m | m in mine ensures m in fits[i] {
      assert Pool(0, s)[m] == existing[m];
    }
    forall j | j in Group(fits, i) ensures j in Twins(c, i) {
      WholeGroupSame(c, s, i, j);
    }
    TwinPlace(fits, i, Twins(c, i), mine);
    n := Given(0, fits, i).value;
    var j := GivenFits(0, fits, i);
    PoolOffers(c, existing, retired, 0, s, n);
    WholeGroupSame(c, s, i, j);
  }

  lemma TwinPlace(fits: Fits, i: nat, twins: set<nat>, mine: set<Text>)
    requires i < |fits| && Group(fits, i) <= twins && mine <= fits[i] && |twins| <= |mine|
    ensures Given(0, fits, i).Some? && fits[i] != {}
  {
    var g := Group(fits, i);
    var names := NamesOf(fits, g);
    assert i in g && i !in Before(g, i);
    SubsetSmaller(Before(g, i), g - {i});
    SubsetSmaller(g, twins);
    assert mine <= names;
    SubsetSmaller(mine, names);
    SubsetSmaller({i}, twins);
    assert mine != {};
  }

  // ---- New names ------------------------------------------------------------------------------------------------

  /** No match fits scene `r` of the sorted listing. */
  ghost predicate Unmatched(c: Context, existing: Store, retired: Store, order: seq<nat>, r: nat) {
    && r < |order| && (forall q :: 0 <= q < |order| ==> order[q] < |c.listed|)
    && Matched(c, existing, retired, order)[r].None?
  }

  /** No stored or retired scene is of the sceneName. */
  ghost predicate NoneOf(existing: Store, retired: Store, own: Text) {
    forall m :: m in existing || m in retired ==> !IsOf(m, HeldAs(existing, retired, m), own)
  }

  /** A scene whose sceneName nothing stored or retired is of is matched to nothing. */
  lemma NewUnmatched(less: Order, c: Context, existing: Store, retired: Store, order: seq<nat>, r: nat)
    requires r < |order| == |c.listed| && Ranked(less, c.listed, order)
    requires NoneOf(existing, retired, c.listed[order[r]].own)
    ensures Unmatched(c, existing, retired, order, r)
  {
    NonePaired(c, existing, retired, order[r], MATCHES);
  }

  /** The only listed scene of a sceneName that nothing stored or retired is of or named by is stored under it. */
  lemma NewPlain(less: Order, c: Context, existing: Store, retired: Store, order: seq<nat>, r: nat)
    requires r < |order| == |c.listed| && Ranked(less, c.listed, order) && OnlyListed(c, order[r])
    requires forall e :: !less(e, e)
    requires var own := c.listed[order[r]].own;
             NoneOf(existing, retired, own) && own !in existing && own !in retired
    ensures NamesByRank(less, c, existing, retired, order)[r] == c.listed[order[r]].own
  {
    var items, names := RankedItems(c.listed, order), Matched(c, existing, retired, order);
    var taken := Taken(existing, retired, names);
    NewUnmatched(less, c, existing, retired, order, r);
    NotTaken(less, c, existing, retired, order, items[r].own);
    assert Plain(less, items, names, taken, r);
    SceneNaming.NamedAt(less, items, names, taken, |items|, r);
  }

  /** Of two listed scenes of such a sceneName the higher takes it. */
  lemma NewHigher(less: Order, c: Context, existing: Store, retired: Store, order: seq<nat>, r: nat, q: nat)
    requires r < |order| == |c.listed| && q < |order| && q != r && Ranked(less, c.listed, order)
    requires c.listed[order[q]].own == c.listed[order[r]].own
    requires less(c.listed[order[r]].entry, c.listed[order[q]].entry)
    requires forall a, b :: less(a, b) ==> !less(b, a)
    requires forall p :: 0 <= p < |order| && p != r && p != q ==> c.listed[order[p]].own != c.listed[order[r]].own
    requires var own := c.listed[order[r]].own;
             NoneOf(existing, retired, own) && own !in existing && own !in retired
    ensures NamesByRank(less, c, existing, retired, order)[q] == c.listed[order[q]].own
    ensures NamesByRank(less, c, existing, retired, order)[r] != c.listed[order[r]].own
  {
    var items, names := RankedItems(c.listed, order), Matched(c, existing, retired, order);
    var taken := Taken(existing, retired, names);
    NewUnmatched(less, c, existing, retired, order, r);
    NewUnmatched(less, c, existing, retired, order, q);
    NotTaken(less, c, existing, retired, order, items[r].own);
    HigherTop(less, items, names, r, q);
    PlainNamed(less, items, names, taken, r, q);
  }

  lemma HigherTop(less: Order, items: seq<Item>, names: seq<Option<Text>>, r: nat, q: nat)
    requires r < |items| == |names| && q < |items| && q != r && items[q].own == items[r].own
    requires less(items[r].entry, items[q].entry) && forall a, b :: less(a, b) ==> !less(b, a)
    requires forall p :: 0 <= p < |items| && p != r && p != q ==> items[p].own != items[r].own
    requires names[r].None? && names[q].None?
    ensures Top(less, items, names, q) && !Top(less, items, names, r)
  {
    assert !less(items[q].entry, items[q].entry);
  }

  lemma PlainNamed(less: Order, items: seq<Item>, names: seq<Option<Text>>, taken: set<Text>, r: nat, q: nat)
    requires r < |items| == |names| && q < |items| && items[q].own == items[r].own && items[q].own !in taken
    requires Top(less, items, names, q) && !Top(less, items, names, r) && names[r].None?
    ensures var out := SceneNaming.Named(less, items, names, taken, |items|);
            out[q] == items[q].own && out[r] != items[r].own
  {
    var out := SceneNaming.Named(less, items, names, taken, |items|);
    SceneNaming.NamedAt(less, items, names, taken, |items|, q);
    SceneNaming.NamedAt(less, items, names, taken, |items|, r);
    assert Plain(less, items, names, taken, q);
    assert items[q].own in PlainNames(less, items, names, taken);
    NewName(less, items, names, taken, r, out[..r]);
  }

  /** The names stored apart, in the order they are tried: "own (suffix)", "own (suffix, 2)", and so on. */
  function Tried(own: Text, suffix: Text, m: nat): Text {
    if m <= 1 then own + " (" + suffix + ")" else own + " (" + suffix + ", " + Decimal(m) + ")"
  }

  /** Names are tried in the order of sceneName, then entry. */
  predicate Sooner(less: (Entry, Entry) -> bool, a: Item, b: Item) {
    TextLess(a.own, b.own) || (a.own == b.own && (less(a.entry, b.entry) || a.entry == b.entry))
  }

  /** A name taken before, another scene's sceneName that it takes, or one apart that a sooner scene took. */
  predicate Used(less: (Entry, Entry) -> bool, items: seq<Item>, taken: set<Text>, out: seq<Text>, r: nat, n: Text)
    requires r < |items| == |out|
  {
    n in taken
    || exists q :: 0 <= q < |out| && q != r && out[q] == n && (n == items[q].own || Sooner(less, items[q], items[r]))
  }

  /** A scene without a name that does not take its sceneName is named apart, by the first such name that is free. */
  lemma NamedApart(less: (Entry, Entry) -> bool, items: seq<Item>, names: seq<Option<Text>>, taken: set<Text>, r: nat)
    returns (m: nat)
    requires r < |items| == |names| && names[r].None?
    requires forall q :: 0 <= q < r ==> Sooner(less, items[q], items[r])
    requires SceneNaming.Named(less, items, names, taken, |items|)[r] != items[r].own
    ensures var (out, own) := (SceneNaming.Named(less, items, names, taken, |items|), items[r].own);
            && m >= 1 && out[r] == Apart(own, Label(items[r].entry), m)
            && forall p :: 1 <= p < m ==> Used(less, items, taken, out, r, Apart(own, Label(items[r].entry), p))
  {
    var out := SceneNaming.Named(less, items, names, taken, |items|);
    var held := taken + PlainNames(less, items, names, taken) + set n | n in out[..r];
    SceneNaming.NamedAt(less, items, names, taken, |items|, r);
    m := NextFree(items[r].own, Label(items[r].entry), 1, held);
    forall n | n in held ensures Used(less, items, taken, out, r, n) {
      if n in PlainNames(less, items, names, taken) {
        var q :| 0 <= q < |items| && Plain(less, items, names, taken, q) && items[q].own == n;
        SceneNaming.NamedAt(less, items, names, taken, |items|, q);
        assert out[q] == n;
      } else if n !in taken {
        var q :| 0 <= q < r && out[..r][q] == n;
        assert out[q] == n;
      }
    }
  }

  /** The label of an entry, and the names tried for it. */
  lemma TriedApart(own: Text, e: Entry, suffix: Text, m: nat)
    requires if e.category in {None, Some("")} then suffix == "no category" else e.category == Some(suffix)
    ensures Apart(own, Label(e), m) == Tried(own, suffix, m)
  {
    assert Label(e) == suffix;
    if m <= 1 {
      assert own + " (" + suffix + ")" == Apart(own, suffix, m);
    } else {
      assert own + " (" + suffix + ", " + Decimal(m) + ")" == own + " (" + suffix + (", " + Decimal(m) + ")");
    }
  }

  /** A new scene that does not take its sceneName is stored apart under its category, by the first such name that is
      not stored, retired, a sceneName another takes, or taken by a sooner scene. */
  lemma NewApart(less: Order, c: Context, existing: Store, retired: Store, order: seq<nat>, r: nat, suffix: Text)
    returns (m: nat)
    requires r < |order| == |c.listed| && Ranked(less, c.listed, order) && Unmatched(c, existing, retired, order, r)
    requires NamesByRank(less, c, existing, retired, order)[r] != c.listed[order[r]].own
    requires var category := c.listed[order[r]].entry.category;
             if category in {None, Some("")} then suffix == "no category" else category == Some(suffix)
    ensures NamesByRank(less, c, existing, retired, order)[r] == Tried(c.listed[order[r]].own, suffix, m) && m >= 1
    ensures forall p :: 1 <= p < m ==>
              Used(less, RankedItems(c.listed, order), existing.Keys + retired.Keys,
                   NamesByRank(less, c, existing, retired, order), r, Tried(c.listed[order[r]].own, suffix, p))
  {
    var items, names := RankedItems(c.listed, order), Matched(c, existing, retired, order);
    m := NamedApart(less, items, names, Taken(existing, retired, names), r);
    TriedApart(items[r].own, items[r].entry, suffix, m);
    forall p | 1 <= p < m
      ensures Used(less, items, existing.Keys + retired.Keys, NamesByRank(less, c, existing, retired, order), r,
                   Tried(items[r].own, suffix, p))
    {
      TriedApart(items[r].own, items[r].entry, suffix, p);
      if Tried(items[r].own, suffix, p) !in existing && Tried(items[r].own, suffix, p) !in retired {
        NotTaken(less, c, existing, retired, order, Tried(items[r].own, suffix, p));
      }
    }
  }

  /** Nothing matched takes a name that is neither stored nor retired. */
  lemma NotTaken(less: Order, c: Context, existing: Store, retired: Store, order: seq<nat>, n: Text)
    requires Ranked(less, c.listed, order) && n !in existing && n !in retired
    ensures n !in Taken(existing, retired, Matched(c, existing, retired, order))
  {
    MatchedKept(less, c, existing, retired, order);
  }
}

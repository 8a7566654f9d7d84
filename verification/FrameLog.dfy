/** The frame capture's bounded queue and its writer thread (transport/framelog.py), under every interleaving of
    producers and writer. */
module FrameLog {
  import opened Basics

  const QUEUE_MAX: nat := 10000

  /** A queue item: a new capture's directory check, or a line, of a capture or of none. */
  datatype Item =
    | Check(path: nat, capture: nat)
    | Line(path: nat, text: string, owner: Option<nat>)

  /** What became of an item taken off the queue. */
  datatype Fate = Dropped | Held | Written | Skipped

  // ---- A batch --------------------------------------------------------------------------------------------------

  function Enabled(off: set<nat>, item: Item): bool {
    item.Line? && (item.owner.None? || item.owner.value !in off)
  }

  /** The captures switched off after a batch; `oks[k]` is what the directory check of item `k` says. */
  function OffAfter(batch: seq<Item>, oks: seq<bool>, off: set<nat>): set<nat>
    requires |oks| == |batch|
  {
    if batch == [] then off
    else
      var n := |batch| - 1;
      var off := OffAfter(batch[..n], oks[..n], off);
      if batch[n].Check? then (if oks[n] then off - {batch[n].capture} else off + {batch[n].capture}) else off
  }

  function FatesAfter(batch: seq<Item>, oks: seq<bool>, off: set<nat>): (r: seq<Fate>)
    requires |oks| == |batch|
    ensures |r| == |batch|
  {
    if batch == [] then []
    else
      var n := |batch| - 1;
      FatesAfter(batch[..n], oks[..n], off)
      + [if Enabled(OffAfter(batch[..n], oks[..n], off), batch[n]) then Written else Skipped]
  }

  /** The lines of one path with fate Written, in queue order. */
  function LinesTo(items: seq<Item>, fates: seq<Fate>, path: nat): seq<string>
    requires |items| == |fates|
  {
    if items == [] then []
    else
      var n := |items| - 1;
      LinesTo(items[..n], fates[..n], path) + LineTo(items[n], fates[n], path)
  }

  function LineTo(item: Item, fate: Fate, path: nat): seq<string> {
    if fate == Written && item.Line? && item.path == path then [item.text] else []
  }

  lemma LinesStep(batch: seq<Item>, oks: seq<bool>, off: set<nat>, k: nat, p: nat)
    requires |oks| == |batch| && k < |batch|
    ensures LinesTo(batch[..k + 1], FatesAfter(batch[..k + 1], oks[..k + 1], off), p)
         == LinesTo(batch[..k], FatesAfter(batch[..k], oks[..k], off), p)
            + if Enabled(OffAfter(batch[..k], oks[..k], off), batch[k]) && batch[k].path == p
              then [batch[k].text] else []
  {
    assert batch[..k + 1][..k] == batch[..k] && oks[..k + 1][..k] == oks[..k];
    assert FatesAfter(batch[..k + 1], oks[..k + 1], off)[..k] == FatesAfter(batch[..k], oks[..k], off);
  }

  ghost predicate Groups(grouped: map<nat, seq<string>>, batch: seq<Item>, oks: seq<bool>, off: set<nat>)
    requires |oks| == |batch|
  {
    forall p :: Text(grouped, p) == LinesTo(batch, FatesAfter(batch, oks, off), p)
  }

  lemma GroupStep(grouped: map<nat, seq<string>>, batch: seq<Item>, oks: seq<bool>, off: set<nat>, k: nat)
    requires |oks| == |batch| && k < |batch| && Groups(grouped, batch[..k], oks[..k], off)
    ensures batch[..k + 1][..k] == batch[..k] && oks[..k + 1][..k] == oks[..k]
    ensures var item := batch[k];
            Groups(if Enabled(OffAfter(batch[..k], oks[..k], off), item)
                   then grouped[item.path := Text(grouped, item.path) + [item.text]] else grouped,
                   batch[..k + 1], oks[..k + 1], off)
  {
    var item := batch[k];
    var more := if Enabled(OffAfter(batch[..k], oks[..k], off), item)
                then grouped[item.path := Text(grouped, item.path) + [item.text]] else grouped;
    forall p ensures Text(more, p) == LinesTo(batch[..k + 1], FatesAfter(batch[..k + 1], oks[..k + 1], off), p) {
      LinesStep(batch, oks, off, k, p);
      assert Text(grouped, p) == LinesTo(batch[..k], FatesAfter(batch[..k], oks[..k], off), p);
    }
    assert batch[..k + 1][..k] == batch[..k] && oks[..k + 1][..k] == oks[..k];
  }

  class Writer {
    /** Captures whose last directory check failed, and what each path was given to write. */
    var off: set<nat>
    var files: map<nat, seq<string>>

    constructor ()
      ensures off == {} && files == map[]
    {
      off, files := {}, map[];
    }

    /** The directory checks of one batch, in order, and its lines grouped by path. */
    method Group(batch: seq<Item>, oks: seq<bool>) returns (grouped: map<nat, seq<string>>)
      requires |oks| == |batch|
      modifies `off
      ensures off == OffAfter(batch, oks, old(off))
      ensures forall p :: Text(grouped, p) == LinesTo(batch, FatesAfter(batch, oks, old(off)), p)
    {
      grouped := map[];
      ghost var was := off;
      for k := 0 to |batch|
        invariant off == OffAfter(batch[..k], oks[..k], was)
        invariant Groups(grouped, batch[..k], oks[..k], was)
      {
        GroupStep(grouped, batch, oks, was, k);
        var item := batch[k];
        if item.Check? {
          off := if oks[k] then off - {item.capture} else off + {item.capture};
        } else if item.owner.None? || item.owner.value !in off {
          grouped := grouped[item.path := Text(grouped, item.path) + [item.text]];
        }
      }
      assert batch[..|batch|] == batch && oks[..|batch|] == oks;
    }

    method WriteGrouped(grouped: map<nat, seq<string>>)
      modifies `files
      ensures forall p :: Text(files, p) == Text(old(files), p) + Text(grouped, p)
    {
      var todo := grouped.Keys;
      while todo != {}
        invariant todo <= grouped.Keys
        invariant forall p :: Text(files, p) ==
                    if p in todo then Text(old(files), p) else Text(old(files), p) + Text(grouped, p)
      {
        var p :| p in todo;
        files := files[p := Text(files, p) + grouped[p]];
        todo := todo - {p};
      }
    }

    /** One batch: its checks and lines, then one write per path. */
    method ProcessBatch(batch: seq<Item>, oks: seq<bool>)
      requires |oks| == |batch|
      modifies this
      ensures off == OffAfter(batch, oks, old(off))
      ensures forall p :: Text(files, p) == Text(old(files), p) + LinesTo(batch, FatesAfter(batch, oks, old(off)), p)
    {
      var grouped := Group(batch, oks);
      WriteGrouped(grouped);
    }
  }

  function Text(files: map<nat, seq<string>>, path: nat): seq<string> {
    if path in files then files[path] else []
  }

  /** The bounded queue, filled by one producer with no other thread in between. */
  class Queue {
    var items: seq<Item>
    var unfinished: int

    constructor ()
      ensures items == [] && unfinished == 0
    {
      items, unfinished := [], 0;
    }

    /** The item is put; as long as the queue is full, the oldest one is dropped. */
    method Enqueue(item: Item) returns (ghost dropped: seq<Item>)
      requires |items| <= QUEUE_MAX
      modifies this
      ensures dropped + items == old(items) + [item] && |dropped| == if |old(items)| == 10000 then 1 else 0
      ensures unfinished - |items| == old(unfinished) - |old(items)|
    {
      dropped := [];
      while |items| == QUEUE_MAX
        invariant dropped + items == old(items) && |items| <= QUEUE_MAX
        invariant |dropped| == if |items| < |old(items)| == QUEUE_MAX then 1 else 0
        invariant unfinished - |items| == old(unfinished) - |old(items)|
        decreases |items|
      {
        dropped := dropped + [items[0]];
        items, unfinished := items[1..], unfinished - 1;
      }
      assert dropped + (items + [item]) == old(items) + [item];
      items, unfinished := items + [item], unfinished + 1;
    }
  }

  // ---- The threads ----------------------------------------------------------------------------------------------

  /** A producer inside `_enqueue`: about to put its item, or between dropping the oldest one and its task_done. */
  datatype Producer = Putting(item: Item) | Dropping(item: Item)

  /** The writer: gathering a batch, or counting a processed one off. */
  datatype Thread = Gathering(batch: seq<Item>) | Counting(left: int)

  /** `puts` and `fates` are the history: every item put, in order, and what became of each one taken since. */
  datatype Sys = Sys(queue: seq<Item>, unfinished: int, producers: map<nat, Producer>, writer: Thread, off: set<nat>,
                     files: map<nat, seq<string>>, puts: seq<Item>, fates: seq<Fate>)

  const IDLE := Sys([], 0, map[], Gathering([]), {}, map[], [], [])

  datatype Step =
    | Enter(id: nat, item: Item)
    | Put(id: nat)
    | DropOldest(id: nat)
    | DropDone(id: nat)
    | Take
    | Process(oks: seq<bool>)
    | TaskDone

  predicate ChecksOf(item: Item, c: nat) {
    item.Check? && item.capture == c
  }

  predicate LineOf(item: Item, c: nat) {
    item.Line? && item.owner == Some(c)
  }

  ghost predicate CheckedBefore(items: seq<Item>, j: nat, c: nat) {
    exists i :: 0 <= i < j && i < |items| && ChecksOf(items[i], c)
  }

  /** FrameLog's constructor puts its capture's check, once, before any of the capture's lines is recorded. */
  ghost predicate MayEnter(s: Sys, item: Item) {
    match item
    case Check(_, c) =>
      !CheckedBefore(s.puts, |s.puts|, c) && forall id :: id in s.producers ==> !ChecksOf(s.producers[id].item, c)
    case Line(_, _, owner) => owner.Some? ==> CheckedBefore(s.puts, |s.puts|, owner.value)
  }

  /** The batch's items are the last ones taken that are still held; processing settles them all. */
  function Settled(s: Sys, oks: seq<bool>): (r: seq<Fate>)
    requires s.writer.Gathering? && |oks| == |s.writer.batch|
    ensures |r| == |s.fates|
  {
    Settle(s.fates, FatesAfter(s.writer.batch, oks, s.off))
  }

  /** `fates` with its held entries, in order, replaced by `settled`. */
  function Settle(fates: seq<Fate>, settled: seq<Fate>): (r: seq<Fate>)
    ensures |r| == |fates|
  {
    if fates == [] then []
    else
      var n := |fates| - 1;
      if fates[n] == Held && settled != []
      then Settle(fates[..n], settled[..|settled| - 1]) + [settled[|settled| - 1]]
      else Settle(fates[..n], settled) + [fates[n]]
  }

  ghost predicate Next(s: Sys, step: Step, s': Sys) {
    match step
    case Enter(id, item) =>
      id !in s.producers && MayEnter(s, item) && s' == s.(producers := s.producers[id := Putting(item)])
    case Put(id) =>
      && id in s.producers && s.producers[id].Putting? && |s.queue| < QUEUE_MAX
      && var item := s.producers[id].item;
      && s' == s.(queue := s.queue + [item], unfinished := s.unfinished + 1, producers := s.producers - {id},
                  puts := s.puts + [item])
    case DropOldest(id) =>
      && id in s.producers && s.producers[id].Putting? && |s.queue| == QUEUE_MAX
      && s' == s.(queue := s.queue[1..], producers := s.producers[id := Dropping(s.producers[id].item)],
                  fates := s.fates + [Dropped])
    case DropDone(id) =>
      && id in s.producers && s.producers[id].Dropping?
      && s' == s.(unfinished := s.unfinished - 1, producers := s.producers[id := Putting(s.producers[id].item)])
    case Take =>
      && s.writer.Gathering? && s.queue != []
      && s' == s.(queue := s.queue[1..], writer := Gathering(s.writer.batch + [s.queue[0]]), fates := s.fates + [Held])
    case Process(oks) =>
      && s.writer.Gathering? && s.writer.batch != [] && |oks| == |s.writer.batch|
      && (forall p :: Text(s'.files, p) == Text(s.files, p)
                                           + LinesTo(s.writer.batch, FatesAfter(s.writer.batch, oks, s.off), p))
      && s' == s.(writer := Counting(|s.writer.batch|), off := OffAfter(s.writer.batch, oks, s.off),
                  files := s'.files, fates := Settled(s, oks))
    case TaskDone =>
      && s.writer.Counting?
      && s' == s.(unfinished := s.unfinished - 1,
                  writer := if s.writer.left == 1 then Gathering([]) else Counting(s.writer.left - 1))
  }

  // ---- The invariant --------------------------------------------------------------------------------------------

  function HeldOf(items: seq<Item>, fates: seq<Fate>): seq<Item>
    requires |items| == |fates|
  {
    if items == [] then []
    else
      var n := |items| - 1;
      HeldOf(items[..n], fates[..n]) + if fates[n] == Held then [items[n]] else []
  }

  /** Every capture's one check comes before its lines. */
  ghost predicate Ordered(puts: seq<Item>) {
    forall j, c :: 0 <= j < |puts| ==>
      (LineOf(puts[j], c) ==> CheckedBefore(puts, j, c)) && (ChecksOf(puts[j], c) ==> !CheckedBefore(puts, j, c))
  }

  /** No line was written after one still held. */
  ghost predicate InOrder(fates: seq<Fate>) {
    forall i, j :: 0 <= i < j < |fates| && fates[i] == Held ==> fates[j] != Written
  }

  /** A written line's capture has not failed its check; a skipped one's has. */
  ghost predicate Judged(puts: seq<Item>, fates: seq<Fate>, off: set<nat>)
    requires |fates| <= |puts|
  {
    && (forall j, c :: 0 <= j < |fates| && fates[j] == Written && LineOf(puts[j], c) ==> c !in off)
    && (forall j :: 0 <= j < |fates| && fates[j] == Skipped && puts[j].Line? ==>
          puts[j].owner.Some? && puts[j].owner.value in off)
  }

  function Droppers(s: Sys): set<nat> {
    set id | id in s.producers && s.producers[id].Dropping?
  }

  function InFlight(s: Sys): int {
    if s.writer.Gathering? then |s.writer.batch| else s.writer.left
  }

  /** The items taken off the queue so far. */
  function Taken(s: Sys): seq<Item>
    requires |s.fates| <= |s.puts|
  {
    s.puts[..|s.fates|]
  }

  ghost predicate Counts(s: Sys) {
    && |s.fates| <= |s.puts| && s.queue == s.puts[|s.fates|..] && |s.queue| <= QUEUE_MAX
    && (s.writer.Counting? ==> s.writer.left >= 1)
    && s.unfinished == |s.queue| + InFlight(s) + |Droppers(s)|
  }

  ghost predicate Lines(s: Sys) {
    && |s.fates| <= |s.puts|
    && HeldOf(Taken(s), s.fates) == Batch(s)
    && InOrder(s.fates)
    && forall p :: Text(s.files, p) == LinesTo(Taken(s), s.fates, p)
  }

  /** A capture whose check is still to be put has put nothing. */
  ghost predicate Unstarted(s: Sys, id: nat, c: nat) {
    && !CheckedBefore(s.puts, |s.puts|, c)
    && forall other :: other in s.producers && other != id ==> !ChecksOf(s.producers[other].item, c)
  }

  ghost predicate Order(s: Sys) {
    && Ordered(s.puts)
    && (forall id, c :: id in s.producers && ChecksOf(s.producers[id].item, c) ==> Unstarted(s, id, c))
    && (forall id, c :: id in s.producers && LineOf(s.producers[id].item, c) ==> CheckedBefore(s.puts, |s.puts|, c))
  }

  ghost predicate Judgement(s: Sys) {
    && |s.fates| <= |s.puts|
    && Judged(Taken(s), s.fates, s.off)
    && (forall c :: c in s.off ==> CheckedBefore(s.puts, |s.puts|, c))
    && (forall i, c :: 0 <= i < |s.puts| && ChecksOf(s.puts[i], c) && c in s.off ==>
          i < |s.fates| && s.fates[i] != Held)
  }

  ghost predicate Inv(s: Sys) {
    Counts(s) && Lines(s) && Order(s) && Judgement(s)
  }

  lemma {:induction false} NoneHeld(items: seq<Item>, fates: seq<Fate>)
    requires |items| == |fates|
    ensures HeldOf(items, fates) == [] <==> forall i :: 0 <= i < |fates| ==> fates[i] != Held
  {
    if items == [] {
    } else {
      NoneHeld(items[..|items| - 1], fates[..|fates| - 1]);
    }
  }

  /** Settling the held items adds exactly their lines, at the end. */
  lemma {:induction false} SettleLines(items: seq<Item>, fates: seq<Fate>, settled: seq<Fate>, p: nat)
    requires |items| == |fates| && |settled| == |HeldOf(items, fates)| && InOrder(fates)
    ensures LinesTo(items, Settle(fates, settled), p)
         == LinesTo(items, fates, p) + LinesTo(HeldOf(items, fates), settled, p)
  {
    if items == [] {
    } else {
      var n := |items| - 1;
      if fates[n] == Held {
        SettleLines(items[..n], fates[..n], settled[..|settled| - 1], p);
        HeldLast(items, fates, settled, p);
      } else {
        assert HeldOf(items, fates) == HeldOf(items[..n], fates[..n]);
        SettleLines(items[..n], fates[..n], settled, p);
        OtherLast(items, fates, settled, p);
      }
    }
  }

  lemma Joined(a: seq<string>, b: seq<string>, x: seq<string>)
    ensures (a + b) + x == (a + []) + (b + x)
  {
  }

  lemma OtherLast(items: seq<Item>, fates: seq<Fate>, settled: seq<Fate>, p: nat)
    requires |items| == |fates| && |settled| == |HeldOf(items, fates)| && items != [] && fates[|fates| - 1] != Held
    requires InOrder(fates)
    requires var n := |items| - 1;
             LinesTo(items[..n], Settle(fates[..n], settled), p)
             == LinesTo(items[..n], fates[..n], p) + LinesTo(HeldOf(items, fates), settled, p)
    ensures LinesTo(items, Settle(fates, settled), p)
         == LinesTo(items, fates, p) + LinesTo(HeldOf(items, fates), settled, p)
  {
    var n := |items| - 1;
    assert Settle(fates, settled) == Settle(fates[..n], settled) + [fates[n]];
    assert Settle(fates, settled)[..n] == Settle(fates[..n], settled);
    if fates[n] == Written {
      NoneHeld(items, fates);
      assert HeldOf(items, fates) == [];
    }
    Swapped(LinesTo(items[..n], fates[..n], p), LinesTo(HeldOf(items, fates), settled, p),
            LineTo(items[n], fates[n], p));
  }

  lemma Swapped(a: seq<string>, b: seq<string>, x: seq<string>)
    requires b == [] || x == []
    ensures (a + b) + x == (a + x) + b
  {
  }

  lemma HeldLast(items: seq<Item>, fates: seq<Fate>, settled: seq<Fate>, p: nat)
    requires |items| == |fates| && |settled| == |HeldOf(items, fates)| && items != [] && fates[|fates| - 1] == Held
    requires LinesTo(items[..|items| - 1], Settle(fates[..|items| - 1], settled[..|settled| - 1]), p)
          == LinesTo(items[..|items| - 1], fates[..|items| - 1], p)
             + LinesTo(HeldOf(items[..|items| - 1], fates[..|items| - 1]), settled[..|settled| - 1], p)
    ensures LinesTo(items, Settle(fates, settled), p)
         == LinesTo(items, fates, p) + LinesTo(HeldOf(items, fates), settled, p)
  {
    var n := |items| - 1;
    var held := HeldOf(items[..n], fates[..n]);
    var m := |settled| - 1;
    HeldGrows(items, fates);
    SettleGrows(items, fates, settled);
    LinesGrow(items, Settle(fates, settled), p);
    LinesGrow(items, fates, p);
    LinesGrow(HeldOf(items, fates), settled, p);
    Joined(LinesTo(items[..n], fates[..n], p), LinesTo(held, settled[..m], p), LineTo(items[n], settled[m], p));
  }

  lemma HeldGrows(items: seq<Item>, fates: seq<Fate>)
    requires |items| == |fates| && items != [] && fates[|fates| - 1] == Held
    ensures var (n, held) := (|items| - 1, HeldOf(items, fates));
            held == HeldOf(items[..n], fates[..n]) + [items[n]] && held[..|held| - 1] == HeldOf(items[..n], fates[..n])
  {
    var n := |items| - 1;
    var first := HeldOf(items[..n], fates[..n]);
    assert HeldOf(items, fates) == first + [items[n]];
    assert (first + [items[n]])[..|first|] == first;
  }

  lemma SettleGrows(items: seq<Item>, fates: seq<Fate>, settled: seq<Fate>)
    requires |items| == |fates| && |settled| == |HeldOf(items, fates)| && items != [] && fates[|fates| - 1] == Held
    ensures var (n, m) := (|items| - 1, |settled| - 1);
            && settled != [] && Settle(fates, settled) == Settle(fates[..n], settled[..m]) + [settled[m]]
            && Settle(fates, settled)[..n] == Settle(fates[..n], settled[..m])
  {
    HeldGrows(items, fates);
  }

  lemma LinesGrow(items: seq<Item>, fates: seq<Fate>, p: nat)
    requires |items| == |fates| && items != []
    ensures var n := |items| - 1;
            LinesTo(items, fates, p) == LinesTo(items[..n], fates[..n], p) + LineTo(items[n], fates[n], p)
  {
  }

  lemma {:induction false} SettleFates(items: seq<Item>, fates: seq<Fate>, settled: seq<Fate>, i: nat)
    requires |items| == |fates| && |settled| == |HeldOf(items, fates)| && i < |fates|
    requires forall k :: 0 <= k < |settled| ==> settled[k] != Held
    ensures Settle(fates, settled)[i] == fates[i] || fates[i] == Held
    ensures Settle(fates, settled)[i] != Held
  {
    var n := |items| - 1;
    if i < n {
      SettleFates(items[..n], fates[..n], if fates[n] == Held then settled[..|settled| - 1] else settled, i);
    }
  }

  lemma {:induction false} FatesSettled(batch: seq<Item>, oks: seq<bool>, off: set<nat>, k: nat)
    requires |oks| == |batch| && k < |batch|
    ensures FatesAfter(batch, oks, off)[k]
         == if Enabled(OffAfter(batch[..k], oks[..k], off), batch[k]) then Written else Skipped
  {
    var n := |batch| - 1;
    if k < n {
      FatesSettled(batch[..n], oks[..n], off, k);
      assert batch[..n][..k] == batch[..k] && oks[..n][..k] == oks[..k];
    }
  }

  lemma NoLineBefore(items: seq<Item>, n: nat, c: nat)
    requires Ordered(items) && n < |items| && ChecksOf(items[n], c)
    ensures forall j :: 0 <= j < n ==> !LineOf(items[j], c)
  {
    assert forall j :: 0 <= j < n && CheckedBefore(items, j, c) ==> CheckedBefore(items, n, c);
  }

  lemma OrderedPrefix(items: seq<Item>, n: nat)
    requires Ordered(items) && n <= |items|
    ensures Ordered(items[..n])
  {
    forall j, c | 0 <= j < n ensures CheckedBefore(items[..n], j, c) <==> CheckedBefore(items, j, c) {
      if CheckedBefore(items, j, c) {
        var i :| 0 <= i < j && ChecksOf(items[i], c);
        assert ChecksOf(items[..n][i], c);
      }
    }
  }

  /** Each line is judged by its own capture's check, which has run before it or is gone. */
  lemma {:induction false} SettleJudged(items: seq<Item>, fates: seq<Fate>, oks: seq<bool>, off: set<nat>)
    requires |items| == |fates| && |oks| == |HeldOf(items, fates)| && InOrder(fates)
    requires Ordered(items) && Judged(items, fates, off)
    requires forall i, c :: 0 <= i < |items| && ChecksOf(items[i], c) && fates[i] == Held ==> c !in off
    ensures var held := HeldOf(items, fates);
            Judged(items, Settle(fates, FatesAfter(held, oks, off)), OffAfter(held, oks, off))
    ensures off <= OffAfter(HeldOf(items, fates), oks, off)
  {
    if items == [] {
    } else {
      var n := |items| - 1;
      var held := HeldOf(items, fates);
      PrefixJudged(items, fates, off);
      if fates[n] == Held {
        var m := |held| - 1;
        HeldGrows(items, fates);
        SettleJudged(items[..n], fates[..n], oks[..m], off);
        LastJudged(items, fates, oks, off);
      } else {
        assert held == HeldOf(items[..n], fates[..n]);
        SettleJudged(items[..n], fates[..n], oks, off);
        LastSettled(items, fates, oks, off);
      }
    }
  }

  lemma PrefixJudged(items: seq<Item>, fates: seq<Fate>, off: set<nat>)
    requires |items| == |fates| && items != [] && InOrder(fates) && Ordered(items) && Judged(items, fates, off)
    requires forall i, c :: 0 <= i < |items| && ChecksOf(items[i], c) && fates[i] == Held ==> c !in off
    ensures var n := |items| - 1;
            && InOrder(fates[..n]) && Ordered(items[..n]) && Judged(items[..n], fates[..n], off)
            && forall i, c :: 0 <= i < n && ChecksOf(items[..n][i], c) && fates[..n][i] == Held ==> c !in off
  {
    OrderedPrefix(items, |items| - 1);
  }

  lemma LastSettled(items: seq<Item>, fates: seq<Fate>, oks: seq<bool>, off: set<nat>)
    requires |items| == |fates| && |oks| == |HeldOf(items, fates)| && items != [] && fates[|items| - 1] != Held
    requires InOrder(fates) && Judged(items, fates, off)
    requires var (n, held) := (|items| - 1, HeldOf(items, fates));
             && Judged(items[..n], Settle(fates[..n], FatesAfter(held, oks, off)), OffAfter(held, oks, off))
             && off <= OffAfter(held, oks, off)
    ensures var held := HeldOf(items, fates);
            Judged(items, Settle(fates, FatesAfter(held, oks, off)), OffAfter(held, oks, off))
  {
    var n, held := |items| - 1, HeldOf(items, fates);
    var off' := OffAfter(held, oks, off);
    var before, after := Settle(fates[..n], FatesAfter(held, oks, off)), Settle(fates, FatesAfter(held, oks, off));
    assert after == before + [fates[n]];
    if fates[n] == Written {
      NoneHeld(items, fates);
      assert held == [];
    }
    LaterJudged(items, n, before, fates[n], off');
  }

  lemma LastJudged(items: seq<Item>, fates: seq<Fate>, oks: seq<bool>, off: set<nat>)
    requires |items| == |fates| && |oks| == |HeldOf(items, fates)| && items != [] && fates[|items| - 1] == Held
    requires Ordered(items)
    requires forall c :: ChecksOf(items[|items| - 1], c) ==> c !in off
    requires var (n, m) := (|items| - 1, |oks| - 1);
             var held := HeldOf(items[..n], fates[..n]);
             Judged(items[..n], Settle(fates[..n], FatesAfter(held, oks[..m], off)), OffAfter(held, oks[..m], off))
             && off <= OffAfter(held, oks[..m], off)
    ensures var held := HeldOf(items, fates);
            Judged(items, Settle(fates, FatesAfter(held, oks, off)), OffAfter(held, oks, off))
            && off <= OffAfter(held, oks, off)
  {
    var n, m := |items| - 1, |oks| - 1;
    var held, first := HeldOf(items, fates), HeldOf(items[..n], fates[..n]);
    assert held == first + [items[n]] && held[..m] == first;
    var before, after := Settle(fates[..n], FatesAfter(first, oks[..m], off)),
                         Settle(fates, FatesAfter(held, oks, off));
    assert FatesAfter(held, oks, off)[..m] == FatesAfter(first, oks[..m], off);
    assert after[..n] == before;
    if items[n].Check? {
      NoLineBefore(items, n, items[n].capture);
    }
    assert OffAfter(held[..m], oks[..m], off) == OffAfter(first, oks[..m], off);
    EarlierJudged(items, n, before, OffAfter(first, oks[..m], off), OffAfter(held, oks, off));
    assert after == before + [after[n]];
    LaterJudged(items, n, before, after[n], OffAfter(held, oks, off));
  }

  /** One more item judged. */
  lemma LaterJudged(items: seq<Item>, n: nat, before: seq<Fate>, fate: Fate, off: set<nat>)
    requires |items| == n + 1 && |before| == n && Judged(items[..n], before, off)
    requires forall c :: fate == Written && LineOf(items[n], c) ==> c !in off
    requires fate == Skipped && items[n].Line? ==> items[n].owner.Some? && items[n].owner.value in off
    ensures Judged(items, before + [fate], off)
  {
    var after := before + [fate];
    forall j, c | 0 <= j < n && after[j] == Written && LineOf(items[j], c) ensures c !in off {
      assert before[j] == Written && LineOf(items[..n][j], c);
    }
    forall j | 0 <= j < n && after[j] == Skipped && items[j].Line?
      ensures items[j].owner.Some? && items[j].owner.value in off
    {
      assert before[j] == Skipped && items[..n][j].Line?;
    }
  }

  /** The items judged before a check stay judged after it, which no line before it belongs to. */
  lemma EarlierJudged(items: seq<Item>, n: nat, before: seq<Fate>, off: set<nat>, off': set<nat>)
    requires n < |items| && |before| == n && Judged(items[..n], before, off)
    requires forall j, c :: 0 <= j < n && LineOf(items[j], c) ==> (c in off <==> c in off')
    ensures Judged(items[..n], before, off')
  {
    forall j | 0 <= j < n && before[j] == Skipped && items[j].Line?
      ensures items[j].owner.Some? && items[j].owner.value in off'
    {
      assert items[..n][j].Line? && LineOf(items[j], items[j].owner.value);
    }
    forall j, c | 0 <= j < n && before[j] == Written && LineOf(items[j], c) ensures c !in off' {
      assert LineOf(items[..n][j], c);
    }
  }

  // ---- Steps ----------------------------------------------------------------------------------------------------

  lemma CheckedLater(puts: seq<Item>, item: Item)
    ensures forall j, c :: 0 <= j <= |puts| ==> (CheckedBefore(puts + [item], j, c) <==> CheckedBefore(puts, j, c))
    ensures forall c :: CheckedBefore(puts + [item], |puts| + 1, c)
                        <==> CheckedBefore(puts, |puts|, c) || ChecksOf(item, c)
  {
    var more := puts + [item];
    assert more[|puts|] == item;
    forall j, c | 0 <= j <= |puts| ensures CheckedBefore(more, j, c) <==> CheckedBefore(puts, j, c) {
      if CheckedBefore(puts, j, c) {
        var i :| 0 <= i < j && ChecksOf(puts[i], c);
        assert ChecksOf(more[i], c);
      }
    }
    forall c ensures CheckedBefore(more, |puts| + 1, c) <==> CheckedBefore(puts, |puts|, c) || ChecksOf(item, c) {
      if CheckedBefore(puts, |puts|, c) {
        var i :| 0 <= i < |puts| && ChecksOf(puts[i], c);
        assert ChecksOf(more[i], c);
      }
    }
  }

  lemma PutKeeps(s: Sys, id: nat, s': Sys)
    requires Inv(s) && Next(s, Put(id), s')
    ensures Inv(s')
  {
    assert Droppers(s') == Droppers(s);
    assert Taken(s') == Taken(s);
    PutOrder(s, id, s');
    PutJudgement(s, id, s');
  }

  lemma PutJudgement(s: Sys, id: nat, s': Sys)
    requires Inv(s) && Next(s, Put(id), s')
    ensures Judgement(s')
  {
    var item := s.producers[id].item;
    assert Taken(s') == Taken(s);
    forall c | c in s'.off ensures CheckedBefore(s'.puts, |s'.puts|, c) && !ChecksOf(item, c) {
      assert CheckedBefore(s.puts, |s.puts|, c);
      assert ChecksOf(item, c) ==> Unstarted(s, id, c);
      var i :| 0 <= i < |s.puts| && ChecksOf(s.puts[i], c);
      assert s'.puts[i] == s.puts[i];
    }
  }

  lemma PutOrder(s: Sys, id: nat, s': Sys)
    requires Order(s) && Next(s, Put(id), s')
    ensures Order(s')
  {
    var item := s.producers[id].item;
    CheckedLater(s.puts, item);
    forall j, c | 0 <= j < |s'.puts|
      ensures LineOf(s'.puts[j], c) ==> CheckedBefore(s'.puts, j, c)
      ensures ChecksOf(s'.puts[j], c) ==> !CheckedBefore(s'.puts, j, c)
    {
      if j < |s.puts| {
        assert s'.puts[j] == s.puts[j];
      }
    }
    forall other, c | other in s'.producers && ChecksOf(s'.producers[other].item, c) ensures Unstarted(s', other, c) {
      assert Unstarted(s, other, c);
    }
    forall other, c | other in s'.producers && LineOf(s'.producers[other].item, c)
      ensures CheckedBefore(s'.puts, |s'.puts|, c)
    {
      assert CheckedBefore(s.puts, |s.puts|, c);
      assert CheckedBefore(s.puts + [item], |s.puts| + 1, c);
    }
  }

  lemma EnterKeeps(s: Sys, id: nat, item: Item, s': Sys)
    requires Inv(s) && Next(s, Enter(id, item), s')
    ensures Inv(s')
  {
    assert Droppers(s') == Droppers(s);
    EnterOrder(s, id, item, s');
    SameLines(s, s');
  }

  lemma EnterOrder(s: Sys, id: nat, item: Item, s': Sys)
    requires Order(s) && Next(s, Enter(id, item), s')
    ensures Order(s')
  {
    forall other, c | other in s'.producers && ChecksOf(s'.producers[other].item, c) ensures Unstarted(s', other, c) {
      assert other != id ==> Unstarted(s, other, c);
    }
  }

  function Batch(s: Sys): seq<Item> {
    if s.writer.Gathering? then s.writer.batch else []
  }

  /** Steps that take nothing and write nothing leave the lines and the judgement as they are. */
  lemma SameLines(s: Sys, s': Sys)
    requires Lines(s) && Judgement(s) && s'.puts == s.puts && s'.fates == s.fates && s'.files == s.files
    requires s'.off == s.off && Batch(s') == Batch(s)
    ensures Lines(s') && Judgement(s')
  {
  }

  lemma TakenMore(s: Sys, fate: Fate)
    requires |s.fates| < |s.puts| && fate != Written
    ensures var (more, last) := (s.fates + [fate], s.puts[|s.fates|]);
            && s.puts[..|more|] == Taken(s) + [last]
            && HeldOf(s.puts[..|more|], more) == HeldOf(Taken(s), s.fates) + (if fate == Held then [last] else [])
            && forall p :: LinesTo(s.puts[..|more|], more, p) == LinesTo(Taken(s), s.fates, p)
  {
    var more := s.fates + [fate];
    assert s.puts[..|more|][..|s.fates|] == Taken(s) && more[..|s.fates|] == s.fates;
  }

  /** The front item is taken, to drop it or to hold it. */
  ghost predicate Takes(s: Sys, fate: Fate, s': Sys) {
    && |s.fates| < |s.puts| && fate in {Dropped, Held} && (s.writer.Gathering? || fate == Dropped)
    && s'.puts == s.puts && s'.fates == s.fates + [fate] && s'.files == s.files && s'.off == s.off
    && s'.writer == (if fate == Held then Gathering(s.writer.batch + [s.puts[|s.fates|]]) else s.writer)
  }

  /** Taking the front item leaves the lines and the judgement as they are. */
  lemma TakingKeeps(s: Sys, fate: Fate, s': Sys)
    requires Inv(s) && Takes(s, fate, s')
    ensures Lines(s') && Judgement(s')
  {
    TakenMore(s, fate);
    TakingJudged(s, fate, s');
  }

  lemma TakingJudged(s: Sys, fate: Fate, s': Sys)
    requires Judgement(s) && Takes(s, fate, s')
    ensures Judgement(s')
  {
    assert Taken(s') == Taken(s) + [s.puts[|s.fates|]];
  }

  lemma DropKeeps(s: Sys, id: nat, s': Sys)
    requires Inv(s) && Next(s, DropOldest(id), s')
    ensures Inv(s')
  {
    TakingKeeps(s, Dropped, s');
    assert Droppers(s') == Droppers(s) + {id};
    SameOrder(s, s');
  }

  lemma SameOrder(s: Sys, s': Sys)
    requires Order(s) && s'.puts == s.puts && s'.producers.Keys == s.producers.Keys
    requires forall id :: id in s.producers ==> s'.producers[id].item == s.producers[id].item
    ensures Order(s')
  {
    forall id, c | id in s'.producers && ChecksOf(s'.producers[id].item, c) ensures Unstarted(s', id, c) {
      assert Unstarted(s, id, c);
    }
  }

  lemma DropDoneKeeps(s: Sys, id: nat, s': Sys)
    requires Inv(s) && Next(s, DropDone(id), s')
    ensures Inv(s')
  {
    assert Droppers(s') == Droppers(s) - {id} && id in Droppers(s);
    SameOrder(s, s');
    SameLines(s, s');
  }

  lemma TakeKeeps(s: Sys, s': Sys)
    requires Inv(s) && Next(s, Take, s')
    ensures Inv(s')
  {
    TakingKeeps(s, Held, s');
    assert Droppers(s') == Droppers(s);
    SameOrder(s, s');
  }

  lemma {:induction false} OffFrom(batch: seq<Item>, oks: seq<bool>, off: set<nat>, c: nat)
    requires |oks| == |batch| && c in OffAfter(batch, oks, off)
    ensures c in off || exists k :: 0 <= k < |batch| && ChecksOf(batch[k], c)
  {
    if batch != [] && c !in off {
      var n := |batch| - 1;
      if !ChecksOf(batch[n], c) {
        OffFrom(batch[..n], oks[..n], off, c);
      }
    }
  }

  lemma {:induction false} HeldFrom(items: seq<Item>, fates: seq<Fate>, k: nat) returns (i: nat)
    requires |items| == |fates| && k < |HeldOf(items, fates)|
    ensures i < |items| && items[i] == HeldOf(items, fates)[k] && fates[i] == Held
  {
    var n := |items| - 1;
    if fates[n] == Held && k == |HeldOf(items, fates)| - 1 {
      i := n;
    } else {
      i := HeldFrom(items[..n], fates[..n], k);
    }
  }

  lemma ProcessLines(s: Sys, oks: seq<bool>, s': Sys)
    requires Inv(s) && Next(s, Process(oks), s')
    ensures Lines(s')
  {
    SettleAll(s, oks);
    assert Taken(s') == Taken(s);
    forall p ensures Text(s'.files, p) == LinesTo(Taken(s'), s'.fates, p) {
      SettleLines(Taken(s), s.fates, FatesAfter(s.writer.batch, oks, s.off), p);
    }
    NoneHeld(Taken(s'), s'.fates);
  }

  lemma ProcessJudgement(s: Sys, oks: seq<bool>, s': Sys)
    requires Inv(s) && Next(s, Process(oks), s')
    ensures Judgement(s')
  {
    ProcessJudged(s, oks, s');
    ProcessChecked(s, oks, s');
  }

  lemma ProcessJudged(s: Sys, oks: seq<bool>, s': Sys)
    requires Inv(s) && Next(s, Process(oks), s')
    ensures |s'.fates| == |s.fates| && Taken(s') == Taken(s) && Judged(Taken(s'), s'.fates, s'.off)
  {
    assert Taken(s') == Taken(s);
    OrderedPrefix(s.puts, |s.fates|);
    SettleJudged(Taken(s), s.fates, oks, s.off);
  }

  lemma ProcessChecked(s: Sys, oks: seq<bool>, s': Sys)
    requires Inv(s) && Next(s, Process(oks), s')
    ensures |s'.fates| == |s.fates|
    ensures forall c :: c in s'.off ==> CheckedBefore(s'.puts, |s'.puts|, c)
    ensures forall i, c :: 0 <= i < |s'.puts| && ChecksOf(s'.puts[i], c) && c in s'.off ==>
              i < |s'.fates| && s'.fates[i] != Held
  {
    SettleAll(s, oks);
    forall c | c in s'.off && c !in s.off
      ensures CheckedBefore(s.puts, |s.puts|, c)
      ensures forall i :: 0 <= i < |s.puts| && ChecksOf(s.puts[i], c) ==> i < |s.fates|
    {
      FailedIn(s, oks, c);
    }
  }

  /** A capture the batch fails had its check in the batch. */
  lemma FailedIn(s: Sys, oks: seq<bool>, c: nat)
    requires Inv(s) && s.writer.Gathering? && |oks| == |s.writer.batch|
    requires c in OffAfter(s.writer.batch, oks, s.off) && c !in s.off
    ensures CheckedBefore(s.puts, |s.puts|, c)
    ensures forall i :: 0 <= i < |s.puts| && ChecksOf(s.puts[i], c) ==> i < |s.fates|
  {
    OffFrom(s.writer.batch, oks, s.off, c);
    var k :| 0 <= k < |s.writer.batch| && ChecksOf(s.writer.batch[k], c);
    var i := HeldFrom(Taken(s), s.fates, k);
    assert ChecksOf(s.puts[i], c);
    assert forall j :: i < j < |s.puts| ==> CheckedBefore(s.puts, j, c);
  }

  lemma ProcessKeeps(s: Sys, oks: seq<bool>, s': Sys)
    requires Inv(s) && Next(s, Process(oks), s')
    ensures Inv(s')
  {
    assert Droppers(s') == Droppers(s);
    SameOrder(s, s');
    ProcessLines(s, oks, s');
    ProcessJudgement(s, oks, s');
  }

  /** Once a batch is processed, nothing taken is held any more. */
  lemma SettleAll(s: Sys, oks: seq<bool>)
    requires Inv(s) && s.writer.Gathering? && |oks| == |s.writer.batch|
    ensures forall i :: 0 <= i < |s.fates| ==> Settled(s, oks)[i] != Held
  {
    var settled := FatesAfter(s.writer.batch, oks, s.off);
    forall k | 0 <= k < |settled| ensures settled[k] != Held {
      FatesSettled(s.writer.batch, oks, s.off, k);
    }
    forall i | 0 <= i < |s.fates| ensures Settled(s, oks)[i] != Held {
      SettleFates(Taken(s), s.fates, settled, i);
    }
  }

  lemma TaskDoneKeeps(s: Sys, s': Sys)
    requires Inv(s) && Next(s, TaskDone, s')
    ensures Inv(s')
  {
    assert Droppers(s') == Droppers(s);
    SameOrder(s, s');
    SameLines(s, s');
  }

  lemma StepKeeps(s: Sys, step: Step, s': Sys)
    requires Inv(s) && Next(s, step, s')
    ensures Inv(s')
  {
    match step {
      case Enter(id, item) => EnterKeeps(s, id, item, s');
      case Put(id) => PutKeeps(s, id, s');
      case DropOldest(id) => DropKeeps(s, id, s');
      case DropDone(id) => DropDoneKeeps(s, id, s');
      case Take => TakeKeeps(s, s');
      case Process(oks) => ProcessKeeps(s, oks, s');
      case TaskDone => TaskDoneKeeps(s, s');
    }
  }

  // ---- Runs -----------------------------------------------------------------------------------------------------

  ghost predicate Path(run: seq<Sys>, steps: seq<Step>) {
    && |run| == |steps| + 1 && run[0] == IDLE
    && forall k :: 0 <= k < |steps| ==> Next(run[k], steps[k], run[k + 1])
  }

  lemma {:induction false} RunKeeps(run: seq<Sys>, steps: seq<Step>, k: nat)
    requires Path(run, steps) && k <= |steps|
    ensures Inv(run[k])
  {
    if k == 0 {
      assert Droppers(IDLE) == {};
    } else {
      RunKeeps(run, steps, k - 1);
      StepKeeps(run[k - 1], steps[k - 1], run[k]);
    }
  }

  /** The queue's count of unfinished tasks is its items, the writer's, and those a producer is dropping: it never
      goes negative, and the queue never holds more than its bound. */
  lemma UnfinishedCounts(run: seq<Sys>, steps: seq<Step>, k: nat)
    requires Path(run, steps) && k <= |steps|
    ensures run[k].unfinished == |run[k].queue| + InFlight(run[k]) + |Droppers(run[k])| >= 0
    ensures |run[k].queue| <= 10000
  {
    RunKeeps(run, steps, k);
  }

  /** When `flush` sees no unfinished task, every item put before is settled: dropped as the oldest, skipped (a check,
      or a line of a capture whose check failed), or a line handed to a write. */
  lemma FlushedAll(run: seq<Sys>, steps: seq<Step>, k: nat, i: nat)
    requires Path(run, steps) && k <= |steps| && run[k].unfinished == 0 && i < |run[k].puts|
    ensures |run[k].fates| == |run[k].puts| && run[k].fates[i] != Held
    ensures run[k].fates[i] == Skipped && run[k].puts[i].Line? ==>
              run[k].puts[i].owner.Some? && run[k].puts[i].owner.value in run[k].off
  {
    RunKeeps(run, steps, k);
    NoneHeld(Taken(run[k]), run[k].fates);
    assert Taken(run[k])[i] == run[k].puts[i];
  }

  /** Each file holds exactly the lines handed to it, in the order they were put. */
  lemma FilesInOrder(run: seq<Sys>, steps: seq<Step>, k: nat, path: nat)
    requires Path(run, steps) && k <= |steps|
    ensures |run[k].fates| <= |run[k].puts|
    ensures Text(run[k].files, path) == LinesTo(run[k].puts[..|run[k].fates|], run[k].fates, path)
  {
    RunKeeps(run, steps, k);
  }

  lemma OffGrows(run: seq<Sys>, steps: seq<Step>, k: nat)
    requires Path(run, steps) && k < |steps|
    ensures run[k].off <= run[k + 1].off
  {
    RunKeeps(run, steps, k);
    if steps[k].Process? {
      var s := run[k];
      OrderedPrefix(s.puts, |s.fates|);
      SettleJudged(Taken(s), s.fates, steps[k].oks, s.off);
    }
  }

  lemma {:induction false} OffStays(run: seq<Sys>, steps: seq<Step>, i: nat, k: nat)
    requires Path(run, steps) && i <= k <= |steps|
    ensures run[i].off <= run[k].off
  {
    if i == k {
    } else {
      OffStays(run, steps, i, k - 1);
      OffGrows(run, steps, k - 1);
    }
  }

  lemma {:induction false} FailedOff(items: seq<Item>, fates: seq<Fate>, oks: seq<bool>, off: set<nat>, k: nat, c: nat)
    requires |items| == |fates| && |oks| == |HeldOf(items, fates)| && Ordered(items)
    requires k < |oks| && ChecksOf(HeldOf(items, fates)[k], c) && !oks[k]
    ensures c in OffAfter(HeldOf(items, fates), oks, off)
  {
    var n := |items| - 1;
    var held, first := HeldOf(items, fates), HeldOf(items[..n], fates[..n]);
    OrderedPrefix(items, n);
    if fates[n] != Held {
      assert held == first;
      FailedOff(items[..n], fates[..n], oks, off, k, c);
    } else {
      var m := |oks| - 1;
      assert held[..m] == first;
      if k < m {
        FailedOff(items[..n], fates[..n], oks[..m], off, k, c);
        var i := HeldFrom(items[..n], fates[..n], k);
        assert ChecksOf(items[i], c) && CheckedBefore(items, n, c);
      }
    }
  }

  /** A check that ran and failed switches its capture off. */
  lemma CheckFails(run: seq<Sys>, steps: seq<Step>, i: nat, k: nat, c: nat)
    requires Path(run, steps) && i < |steps| && steps[i].Process? && run[i].writer.Gathering?
    requires k < |steps[i].oks| == |run[i].writer.batch|
    requires ChecksOf(run[i].writer.batch[k], c) && !steps[i].oks[k]
    ensures c in run[i + 1].off
  {
    RunKeeps(run, steps, i);
    OrderedPrefix(run[i].puts, |run[i].fates|);
    FailedOff(Taken(run[i]), run[i].fates, steps[i].oks, run[i].off, k, c);
  }

  /** Once a capture's check has failed, none of its lines is in any file, then or later. */
  lemma FailedCaptureSilent(run: seq<Sys>, steps: seq<Step>, i: nat, k: nat, c: nat, j: nat)
    requires Path(run, steps) && i <= k <= |steps| && c in run[i].off
    requires j < |run[k].fates| <= |run[k].puts| && LineOf(run[k].puts[j], c)
    ensures run[k].fates[j] != Written
  {
    OffStays(run, steps, i, k);
    RunKeeps(run, steps, k);
    assert LineOf(Taken(run[k])[j], c);
  }
}

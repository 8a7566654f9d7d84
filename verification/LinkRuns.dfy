/** Runs of a Device's operations over its FIFO locks and its link (module Locks gives their programs). */
module LinkRuns {
  import opened Basics
  import opened Locks

  /** A call in progress: what is left of its program, the locks it holds, and its number (Device._ticket). */
  datatype Task = Task(rest: Program, hold: Hold, ticket: nat)

  /** `link` is the number of the link that is up (0: none) of `links` so far, and `at`, `latest` are `_link_write`. */
  datatype Sys = Sys(tasks: map<nat, Task>, owner: map<Lock, nat>, queues: map<Lock, seq<nat>>, tickets: nat,
                     link: nat, links: nat, at: nat, latest: int)

  const IDLE := Sys(map[], map[], map[], 0, 0, 0, 0, -1)

  datatype Step =
    | Start(id: nat, op: Op)
    | Enqueue(id: nat)
    | Grant(id: nat)
    | Drops(id: nat)
    | Perform(id: nat, link: nat, wrote: bool)
    | Finish(id: nat)
    | Cancel(id: nat)
    | LoseLink

  function Queue(s: Sys, l: Lock): seq<nat> {
    if l in s.queues then s.queues[l] else []
  }

  predicate Waits(t: Task, l: Lock) {
    t.rest != [] && t.rest[0] == Take(l)
  }

  predicate Doing(t: Task, io: Io) {
    t.rest != [] && t.rest[0] == Do(io)
  }

  /** Whether a write called after call `ticket` wrote on the link that is up. */
  predicate KeptFor(s: Sys, ticket: nat) {
    s.at != 0 && s.at == s.link && s.latest > ticket
  }

  /** The latest call that wrote on link `link`, after call `ticket` wrote on it too. */
  function LatestOn(at: nat, latest: int, link: nat, ticket: nat): int {
    if at == link && latest > ticket then latest else ticket
  }

  function Advance(s: Sys, id: nat): Sys
    requires id in s.tasks && s.tasks[id].rest != []
  {
    var t := s.tasks[id];
    s.(tasks := s.tasks[id := t.(rest := t.rest[1..], hold := After(t.hold, t.rest[0]))])
  }

  function Without(q: seq<nat>, id: nat): seq<nat> {
    if q == [] then [] else (if q[0] == id then [] else [q[0]]) + Without(q[1..], id)
  }

  /** A call that gives up leaves the queue, and every other call keeps its place in it. */
  lemma {:induction false} WithoutAt(before: seq<nat>, id: nat, behind: seq<nat>)
    requires id !in before && id !in behind
    ensures Without(before + [id] + behind, id) == before + behind
  {
    if before == [] {
      WithoutNone(behind, id);
      assert [] + [id] + behind == [id] + behind && ([id] + behind)[1..] == behind;
    } else {
      WithoutAt(before[1..], id, behind);
      assert (before + [id] + behind)[1..] == before[1..] + [id] + behind;
      assert [before[0]] + (before[1..] + behind) == before + behind;
    }
  }

  lemma {:induction false} WithoutNone(q: seq<nat>, id: nat)
    requires id !in q
    ensures Without(q, id) == q
  {
    if q == [] {
    } else {
      WithoutNone(q[1..], id);
      assert [q[0]] + q[1..] == q;
    }
  }

  /** I/O of task `id` on the link that ends up `link`: the one that was up, a fresh one, or none. A write it acked or
      refused (`wrote`) is recorded with the link (Device._wrote). */
  function Performed(s: Sys, id: nat, link: nat, wrote: bool): Sys
    requires id in s.tasks && s.tasks[id].rest != []
  {
    var t := s.tasks[id];
    var s := Advance(s, id);
    if t.rest[0] == Do(Disconnect) then s.(link := if KeptFor(s, t.ticket) then s.link else 0)
    else
      var s := s.(link := link, links := if link > s.links then link else s.links);
      if !wrote || link == 0 then s
      else s.(at := link, latest := LatestOn(s.at, s.latest, link, t.ticket))
  }

  /** The Device's call numbers and the record of its last write. */
  class WriteRecord {
    var tickets: nat
    var at: nat
    var latest: int

    constructor ()
      ensures tickets == 0 && at == 0 && latest == -1
    {
      tickets, at, latest := 0, 0, -1;
    }

    /** The next call number. */
    method Ticket() returns (ticket: nat)
      modifies `tickets
      ensures ticket == tickets == old(tickets) + 1
    {
      tickets := tickets + 1;
      ticket := tickets;
    }

    /** Call `ticket`'s frames went out on the link that is up, 0 for none. */
    method Wrote(link: nat, ticket: nat)
      modifies `at, `latest
      ensures if link == 0 then at == old(at) && latest == old(latest)
              else at == link && latest == LatestOn(old(at), old(latest), link, ticket)
    {
      if link == 0 {
        return;
      }
      latest := if at == link && latest > ticket then latest else ticket;
      at := link;
    }

    method Kept(link: nat, ticket: nat) returns (kept: bool)
      ensures kept == KeptFor(IDLE.(link := link, at := at, latest := latest), ticket)
    {
      kept := at != 0 && at == link && latest > ticket;
    }
  }

  ghost predicate Next(s: Sys, step: Step, s': Sys) {
    match step
    case Start(id, op) =>
      && id !in s.tasks
      && s' == s.(tasks := s.tasks[id := Task(ProgramOf(op), NOTHING, s.tickets + 1)], tickets := s.tickets + 1)
    case Enqueue(id) =>
      && id in s.tasks && s.tasks[id].rest != [] && s.tasks[id].rest[0].Take?
      && var l := s.tasks[id].rest[0].lock;
      && id !in Queue(s, l) && s' == s.(queues := s.queues[l := Queue(s, l) + [id]])
    case Grant(id) =>
      && id in s.tasks && s.tasks[id].rest != [] && s.tasks[id].rest[0].Take?
      && var l := s.tasks[id].rest[0].lock;
      && Queue(s, l) != [] && Queue(s, l)[0] == id && l !in s.owner
      && s' == Advance(s, id).(owner := s.owner[l := id], queues := s.queues[l := Queue(s, l)[1..]])
    case Drops(id) =>
      && id in s.tasks && s.tasks[id].rest != [] && s.tasks[id].rest[0].Drop?
      && s' == Advance(s, id).(owner := s.owner - {s.tasks[id].rest[0].lock})
    case Perform(id, link, wrote) =>
      && id in s.tasks && s.tasks[id].rest != [] && s.tasks[id].rest[0].Do?
      && link in {0, s.link, s.links + 1} && (wrote ==> s.tasks[id].rest[0].io in {Send, Activate})
      && s' == Performed(s, id, link, wrote)
    case Finish(id) =>
      && id in s.tasks && s.tasks[id].rest == [] && s' == s.(tasks := s.tasks - {id})
    case Cancel(id) =>
      && id in s.tasks
      && s' == s.(tasks := s.tasks - {id}, owner := map l | l in s.owner && s.owner[l] != id :: s.owner[l],
                  queues := map l | l in s.queues :: Without(s.queues[l], id))
    case LoseLink => s' == s.(link := 0)
  }

  // ---- The invariant --------------------------------------------------------------------------------------------

  ghost predicate TaskOk(s: Sys, id: nat)
    requires id in s.tasks
  {
    var t := s.tasks[id];
    && Check(t.hold, t.rest) == Some(NOTHING)
    && (t.hold.scene ==> SCENE in t.hold.locks && GATE in t.hold.locks)
    && t.ticket <= s.tickets
    && forall l :: l in t.hold.locks ==> l in s.owner && s.owner[l] == id
  }

  predicate Distinct(q: seq<nat>) {
    forall i, j :: 0 <= i < j < |q| ==> q[i] != q[j]
  }

  ghost predicate QueuesOk(s: Sys) {
    forall l :: l in s.queues ==>
      Distinct(s.queues[l]) && forall id :: id in s.queues[l] ==> id in s.tasks && Waits(s.tasks[id], l)
  }

  ghost predicate LinkOk(s: Sys) {
    s.link in {0, s.links} && s.at <= s.links
  }

  ghost predicate Inv(s: Sys) {
    && (forall id :: id in s.tasks ==> TaskOk(s, id))
    && (forall l :: l in s.owner ==> s.owner[l] in s.tasks && l in s.tasks[s.owner[l]].hold.locks)
    && QueuesOk(s)
    && LinkOk(s)
  }

  lemma {:induction false} WithoutKeeps(q: seq<nat>, id: nat)
    requires Distinct(q)
    ensures Distinct(Without(q, id)) && forall i :: i in Without(q, id) ==> i in q && i != id
  {
    if q == [] {
    } else {
      WithoutKeeps(q[1..], id);
      assert q[0] !in q[1..];
      assert q[0] !in Without(q[1..], id);
    }
  }

  lemma CancelKeeps(s: Sys, id: nat, s': Sys)
    requires Inv(s) && Next(s, Cancel(id), s')
    ensures Inv(s')
  {
    forall l | l in s'.queues
      ensures Distinct(s'.queues[l]) && forall i :: i in s'.queues[l] ==> i in s'.tasks && Waits(s'.tasks[i], l)
    {
      WithoutKeeps(s.queues[l], id);
    }
    forall i | i in s'.tasks ensures TaskOk(s', i) {
      assert TaskOk(s, i);
    }
  }

  lemma EnqueueKeeps(s: Sys, id: nat, s': Sys)
    requires Inv(s) && Next(s, Enqueue(id), s')
    ensures Inv(s')
  {
    forall i | i in s'.tasks ensures TaskOk(s', i) {
      assert TaskOk(s, i);
    }
  }

  lemma GrantKeeps(s: Sys, id: nat, s': Sys)
    requires Inv(s) && Next(s, Grant(id), s')
    ensures Inv(s')
  {
    var l := s.tasks[id].rest[0].lock;
    var q := s.queues[l];
    assert Waits(s.tasks[id], l) && q == [id] + q[1..];
    GrantQueues(s, id, s');
    forall i | i in s'.tasks ensures TaskOk(s', i) {
      assert TaskOk(s, i);
    }
  }

  lemma GrantQueues(s: Sys, id: nat, s': Sys)
    requires QueuesOk(s) && Next(s, Grant(id), s')
    ensures QueuesOk(s')
  {
    var l := s.tasks[id].rest[0].lock;
    var q := s.queues[l];
    assert Waits(s.tasks[id], l) && q == [id] + q[1..];
    forall m, i | m in s'.queues && i in s'.queues[m] ensures i != id && Waits(s.tasks[i], m) {
    }
  }

  lemma UnlockKeeps(s: Sys, id: nat, s': Sys)
    requires Inv(s) && Next(s, Drops(id), s')
    ensures Inv(s')
  {
    assert TaskOk(s, id);
    forall i | i in s'.tasks ensures TaskOk(s', i) {
      assert TaskOk(s, i);
    }
  }

  lemma PerformKeeps(s: Sys, id: nat, link: nat, wrote: bool, s': Sys)
    requires Inv(s) && Next(s, Perform(id, link, wrote), s')
    ensures Inv(s')
  {
    var t := Advance(s, id);
    IoKeeps(s, id, t);
    assert t.tasks == s'.tasks && t.owner == s'.owner && t.queues == s'.queues && t.tickets == s'.tickets;
    forall i | i in s'.tasks ensures TaskOk(s', i) {
      assert TaskOk(t, i);
    }
  }

  lemma IoKeeps(s: Sys, id: nat, t: Sys)
    requires Inv(s) && id in s.tasks && s.tasks[id].rest != [] && s.tasks[id].rest[0].Do? && t == Advance(s, id)
    ensures Inv(t)
  {
    assert TaskOk(s, id) && t.tasks[id].hold.locks == s.tasks[id].hold.locks;
    forall i | i in t.tasks ensures TaskOk(t, i) {
      assert TaskOk(s, i);
    }
  }

  lemma StepKeeps(s: Sys, step: Step, s': Sys)
    requires Inv(s) && Next(s, step, s')
    ensures Inv(s')
  {
    match step {
      case Start(id, op) => StartKeeps(s, id, op, s');
      case Enqueue(id) => EnqueueKeeps(s, id, s');
      case Grant(id) => GrantKeeps(s, id, s');
      case Drops(id) => UnlockKeeps(s, id, s');
      case Perform(id, link, wrote) => PerformKeeps(s, id, link, wrote, s');
      case Finish(id) => FinishKeeps(s, id, s');
      case Cancel(id) => CancelKeeps(s, id, s');
      case LoseLink => assert forall i :: i in s.tasks && TaskOk(s, i) ==> TaskOk(s', i);
    }
  }

  lemma StartKeeps(s: Sys, id: nat, op: Op, s': Sys)
    requires Inv(s) && Next(s, Start(id, op), s')
    ensures Inv(s')
  {
    Disciplined(op);
    forall i | i in s'.tasks ensures TaskOk(s', i) {
      assert i != id ==> TaskOk(s, i);
    }
  }

  lemma FinishKeeps(s: Sys, id: nat, s': Sys)
    requires Inv(s) && Next(s, Finish(id), s')
    ensures Inv(s')
  {
    forall i | i in s'.tasks ensures TaskOk(s', i) {
      assert TaskOk(s, i);
    }
    assert TaskOk(s, id) && s.tasks[id].hold == NOTHING;
  }

  // ---- No deadlock ----------------------------------------------------------------------------------------------

  /** Task `id` is not held up: it can go on now, whatever the others do. */
  predicate CanMove(s: Sys, id: nat)
    requires id in s.tasks
  {
    var rest := s.tasks[id].rest;
    rest == [] || !rest[0].Take?
    || id !in Queue(s, rest[0].lock)
    || (Queue(s, rest[0].lock)[0] == id && rest[0].lock !in s.owner)
  }

  /** From a task that is held up, the chain of holders it waits for leads, up the lock order, to one that is not. */
  lemma {:induction false} Unblocked(s: Sys, id: nat) returns (next: nat)
    requires Inv(s) && id in s.tasks
    ensures next in s.tasks && CanMove(s, next)
    decreases if CanMove(s, id) then 0 else 1 + CONNECTION - s.tasks[id].rest[0].lock
  {
    if CanMove(s, id) {
      next := id;
    } else {
      var l := s.tasks[id].rest[0].lock;
      var head := s.queues[l][0];
      assert Waits(s.tasks[head], l) && TaskOk(s, id) && TaskOk(s, head);
      if l !in s.owner {
        next := head;
      } else {
        assert TaskOk(s, s.owner[l]);
        next := Unblocked(s, s.owner[l]);
      }
    }
  }

  // ---- Runs -----------------------------------------------------------------------------------------------------

  ghost predicate Path(run: seq<Sys>, steps: seq<Step>) {
    && |run| == |steps| + 1 && run[0] == IDLE
    && forall k :: 0 <= k < |steps| ==> Next(run[k], steps[k], run[k + 1])
  }

  lemma {:induction false} RunKeeps(run: seq<Sys>, steps: seq<Step>, k: nat)
    requires Path(run, steps) && k <= |steps|
    ensures Inv(run[k])
  {
    if k == 0 {
    } else {
      RunKeeps(run, steps, k - 1);
      StepKeeps(run[k - 1], steps[k - 1], run[k]);
    }
  }

  /** The step by which a call that is not held up goes on by itself. */
  lemma MovesOn(s: Sys, id: nat) returns (step: Step, s': Sys)
    requires id in s.tasks && CanMove(s, id)
    ensures Next(s, step, s') && GoesOn(step, id)
  {
    var rest := s.tasks[id].rest;
    if rest == [] {
      step, s' := Finish(id), s.(tasks := s.tasks - {id});
    } else {
      match rest[0]
      case Do(io) => step, s' := Perform(id, s.link, false), Performed(s, id, s.link, false);
      case Drop(l) => step, s' := Drops(id), Advance(s, id).(owner := s.owner - {l});
      case Take(l) =>
        if id !in Queue(s, l) {
          step, s' := Enqueue(id), s.(queues := s.queues[l := Queue(s, l) + [id]]);
        } else {
          step, s' := Grant(id), Advance(s, id).(owner := s.owner[l := id], queues := s.queues[l := Queue(s, l)[1..]]);
        }
    }
  }

  /** A step of the call itself: it is not called off. */
  predicate GoesOn(step: Step, id: nat) {
    (step.Enqueue? || step.Grant? || step.Drops? || step.Perform? || step.Finish?) && step.id == id
  }

  /** No run deadlocks: while a call is in progress, one of them can go on. */
  lemma NoDeadlock(run: seq<Sys>, steps: seq<Step>, k: nat) returns (id: nat, step: Step, s: Sys)
    requires Path(run, steps) && k <= |steps| && run[k].tasks != map[]
    ensures id in run[k].tasks && GoesOn(step, id) && Next(run[k], step, s)
  {
    RunKeeps(run, steps, k);
    var first :| first in run[k].tasks;
    id := Unblocked(run[k], first);
    step, s := MovesOn(run[k], id);
  }

  /** A call the scene's sequence must be kept whole against: a read-back, a release's drop, or a scene write. */
  predicate Intrudes(s: Sys, step: Step) {
    && step.Perform? && step.id in s.tasks
    && (Doing(s.tasks[step.id], Query) || Doing(s.tasks[step.id], Disconnect)
        || Doing(s.tasks[step.id], Upload) || Doing(s.tasks[step.id], Activate))
  }

  /** Step `k` is the I/O `io` of a call. */
  predicate Does(run: seq<Sys>, steps: seq<Step>, k: nat, io: Io)
    requires k < |steps| < |run|
  {
    steps[k].Perform? && steps[k].id in run[k].tasks && Doing(run[k].tasks[steps[k].id], io)
  }

  predicate Ends(step: Step, id: nat) {
    (step.Finish? || step.Cancel?) && step.id == id
  }

  lemma {:induction false} SceneUnderWay(run: seq<Sys>, steps: seq<Step>, i: nat, k: nat)
    requires Path(run, steps) && i < k <= |steps|
    requires Does(run, steps, i, Upload)
    requires forall m :: i < m < k ==> !Ends(steps[m], steps[i].id)
    requires forall m :: i < m < k ==> !(steps[m].Perform? && steps[m].id == steps[i].id && Intrudes(run[m], steps[m]))
    ensures steps[i].id in run[k].tasks && run[k].tasks[steps[i].id].hold.scene
  {
    if k > i + 1 {
      SceneUnderWay(run, steps, i, k - 1);
    }
  }

  /** Between a scene's upload and its activation, no other call's read-back, release or scene write goes out. */
  lemma SceneWhole(run: seq<Sys>, steps: seq<Step>, i: nat, m: nat)
    requires Path(run, steps) && i < m < |steps|
    requires Does(run, steps, i, Upload)
    requires forall n :: i < n < m ==> !Ends(steps[n], steps[i].id)
    requires forall n :: i < n < m ==> !(steps[n].Perform? && steps[n].id == steps[i].id && Intrudes(run[n], steps[n]))
    ensures Intrudes(run[m], steps[m]) ==> steps[m].id == steps[i].id && Doing(run[m].tasks[steps[m].id], Activate)
  {
    SceneUnderWay(run, steps, i, m);
    RunKeeps(run, steps, m);
    assert TaskOk(run[m], steps[i].id);
    if Intrudes(run[m], steps[m]) {
      assert TaskOk(run[m], steps[m].id);
    }
  }

  // ---- Release --------------------------------------------------------------------------------------------------

  /** Step `m` is a write of call `ticket` that the device acked or refused on link `n`. */
  predicate WroteOn(run: seq<Sys>, steps: seq<Step>, m: nat, n: nat, ticket: nat)
    requires m < |steps| < |run|
  {
    && steps[m].Perform? && steps[m].wrote && steps[m].link == n
    && steps[m].id in run[m].tasks && run[m].tasks[steps[m].id].ticket == ticket
  }

  lemma RecordStep(s: Sys, step: Step, s': Sys)
    requires LinkOk(s) && Next(s, step, s')
    ensures s'.at >= s.at && (s'.at == s.at ==> s'.latest >= s.latest)
    ensures step.Perform? && step.wrote && step.link != 0 ==> s'.at == step.link && s'.latest >= s.tasks[step.id].ticket
  {
  }

  /** The record of a write stays, or a later call's takes its place, until another link is written on. */
  lemma {:induction false} Recorded(run: seq<Sys>, steps: seq<Step>, m: nat, k: nat, n: nat, ticket: nat)
    requires Path(run, steps) && m < k <= |steps| && n != 0 && WroteOn(run, steps, m, n, ticket)
    ensures run[k].at >= n && (run[k].at == n ==> run[k].latest >= ticket)
  {
    RunKeeps(run, steps, k - 1);
    RecordStep(run[k - 1], steps[k - 1], run[k]);
    if k > m + 1 {
      Recorded(run, steps, m, k - 1, n, ticket);
    }
  }

  /** Whatever the record names was written. */
  lemma {:induction false} RecordTrue(run: seq<Sys>, steps: seq<Step>, k: nat) returns (m: nat)
    requires Path(run, steps) && k <= |steps| && run[k].at != 0
    ensures m < k && run[k].latest >= 0 && WroteOn(run, steps, m, run[k].at, run[k].latest)
  {
    if run[k - 1].at == run[k].at && run[k - 1].latest == run[k].latest {
      m := RecordTrue(run, steps, k - 1);
    } else {
      m := k - 1;
    }
  }

  /** A release drops the link that is up unless a write called after it was acked or refused on it, and then, and
      only then, keeps it. */
  lemma ReleaseKeepsExactly(run: seq<Sys>, steps: seq<Step>, k: nat)
    requires Path(run, steps) && k < |steps| && Does(run, steps, k, Disconnect) && run[k].link != 0
    ensures var ticket := run[k].tasks[steps[k].id].ticket;
            run[k + 1].link == run[k].link <==>
            exists m, later :: 0 <= m < k && later > ticket && WroteOn(run, steps, m, run[k].link, later)
    ensures run[k + 1].link in {run[k].link, 0}
  {
    var ticket := run[k].tasks[steps[k].id].ticket;
    RunKeeps(run, steps, k);
    if KeptFor(run[k], ticket) {
      var m := RecordTrue(run, steps, k);
      assert WroteOn(run, steps, m, run[k].link, run[k].latest);
    }
    forall m, later | 0 <= m < k && later > ticket && WroteOn(run, steps, m, run[k].link, later)
      ensures KeptFor(run[k], ticket)
    {
      Recorded(run, steps, m, k, run[k].link, later);
    }
  }
}

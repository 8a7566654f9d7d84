/** The stale-read protocol (`_mutation_seq`, Device._read_fresh): a read-back may send any number of requests, and
    its values are folded in together, unless a setter applied state since the read started. Proved over every
    interleaving of setters, failed writes and read-backs, for any state fields. */
module StaleReads {

  type Values = map<nat, int>

  /** A read-back in flight: the setter count when it started, and the field values its replies gave so far. */
  datatype Walk = Walk(seqNo: nat, got: Values)

  datatype Sys = Sys(live: Values, seqNo: nat, discarded: nat, walks: map<nat, Walk>)

  datatype Step =
    | Commit(writes: Values)
    | Fail
    | Start(id: nat)
    | Ask(id: nat, reply: Values)
    | Fold(id: nat)
    | Abandon(id: nat)

  const EMPTY := Sys(map[], 0, 0, map[])

  predicate Enabled(s: Sys, step: Step) {
    match step
    case Start(id) => id !in s.walks
    case Ask(id, _) => id in s.walks
    case Fold(id) => id in s.walks
    case _ => true
  }

  function Next(s: Sys, step: Step): Sys
    requires Enabled(s, step)
  {
    match step
    case Commit(writes) => s.(live := s.live + writes, seqNo := s.seqNo + 1)
    case Fail => s
    case Start(id) => s.(walks := s.walks[id := Walk(s.seqNo, map[])])
    case Ask(id, reply) => s.(walks := s.walks[id := s.walks[id].(got := s.walks[id].got + reply)])
    case Fold(id) =>
      if s.walks[id].seqNo == s.seqNo then s.(live := s.live + s.walks[id].got, walks := s.walks - {id})
      else s.(discarded := s.discarded + 1, walks := s.walks - {id})
    case Abandon(id) => s.(walks := s.walks - {id})
  }

  ghost predicate Path(run: seq<Sys>, steps: seq<Step>) {
    && |run| == |steps| + 1 && run[0] == EMPTY
    && forall k :: 0 <= k < |steps| ==> Enabled(run[k], steps[k]) && run[k + 1] == Next(run[k], steps[k])
  }

  lemma {:induction false} SeqNoGrows(run: seq<Sys>, steps: seq<Step>, i: nat, k: nat)
    requires Path(run, steps) && i <= k <= |steps|
    ensures run[i].seqNo <= run[k].seqNo
    ensures run[i].seqNo == run[k].seqNo <==> forall m :: i <= m < k ==> !steps[m].Commit?
  {
    if i == k {
    } else {
      SeqNoGrows(run, steps, i, k - 1);
    }
  }

  /** A read-back in flight was started once, at step `i`, and asked for each value it holds after that. */
  lemma {:induction false} WalkFrom(run: seq<Sys>, steps: seq<Step>, k: nat, id: nat) returns (i: nat)
    requires Path(run, steps) && k <= |steps| && id in run[k].walks
    ensures i < k && steps[i] == Start(id) && run[i].seqNo == run[k].walks[id].seqNo
    ensures forall m :: i < m < k ==> steps[m] != Start(id)
    ensures forall f :: f in run[k].walks[id].got ==> Asked(steps, i, k, id, f, run[k].walks[id].got[f])
  {
    if steps[k - 1] == Start(id) {
      i := k - 1;
    } else {
      i := WalkFrom(run, steps, k - 1, id);
      forall f | f in run[k].walks[id].got ensures Asked(steps, i, k, id, f, run[k].walks[id].got[f]) {
        var now := steps[k - 1].Ask? && steps[k - 1].id == id && f in steps[k - 1].reply;
        assert !now ==> Asked(steps, i, k - 1, id, f, run[k - 1].walks[id].got[f]);
        var a := if now then k - 1 else Witness(steps, i, k - 1, id, f, run[k - 1].walks[id].got[f]);
        assert AsksFor(steps[a], id, f, run[k].walks[id].got[f]);
      }
    }
  }

  predicate AsksFor(step: Step, id: nat, f: nat, v: int) {
    step.Ask? && step.id == id && f in step.reply && step.reply[f] == v
  }

  ghost predicate Asked(steps: seq<Step>, i: nat, k: nat, id: nat, f: nat, v: int) {
    exists a :: i < a < k && a < |steps| && AsksFor(steps[a], id, f, v)
  }

  ghost function Witness(steps: seq<Step>, i: nat, k: nat, id: nat, f: nat, v: int): (a: nat)
    requires Asked(steps, i, k, id, f, v)
    ensures i < a < k && a < |steps| && AsksFor(steps[a], id, f, v)
  {
    var a :| i < a < k && a < |steps| && AsksFor(steps[a], id, f, v);
    a
  }

  /** Step `m` writes field `f`. */
  predicate Writes(run: seq<Sys>, steps: seq<Step>, m: nat, f: nat)
    requires m < |steps| < |run| && Enabled(run[m], steps[m])
  {
    match steps[m]
    case Commit(writes) => f in writes
    case Fold(id) => run[m].walks[id].seqNo == run[m].seqNo && f in run[m].walks[id].got
    case _ => false
  }

  /** Every live value was written last at a step `j`: by a setter, or by a read-back whose every request was sent
      (from step `i` on) after the last setter before it; and no setter has written the field since. */
  lemma {:induction false} LiveFrom(run: seq<Sys>, steps: seq<Step>, k: nat, f: nat) returns (i: nat, j: nat)
    requires Path(run, steps) && k <= |steps| && f in run[k].live
    ensures i <= j < k && Writes(run, steps, j, f)
    ensures forall m :: j < m < k ==> !Writes(run, steps, m, f)
    ensures steps[j].Commit? ==> run[k].live[f] == steps[j].writes[f]
    ensures steps[j].Fold? ==>
              && steps[i] == Start(steps[j].id)
              && (forall m :: i < m < j ==> !steps[m].Commit? && steps[m] != Start(steps[j].id))
              && Asked(steps, i, j, steps[j].id, f, run[k].live[f])
  {
    var s, step := run[k - 1], steps[k - 1];
    if Writes(run, steps, k - 1, f) {
      i, j := k - 1, k - 1;
      if step.Fold? {
        i := WalkFrom(run, steps, j, step.id);
        SeqNoGrows(run, steps, i, j);
      }
    } else {
      i, j := LiveFrom(run, steps, k - 1, f);
    }
  }

  /** A finished read-back is discarded, whole, exactly if a setter committed while it was in flight. */
  lemma DiscardedExactly(run: seq<Sys>, steps: seq<Step>, k: nat, id: nat) returns (i: nat)
    requires Path(run, steps) && k < |steps| && steps[k] == Fold(id)
    ensures i < k && steps[i] == Start(id) && forall m :: i < m < k ==> steps[m] != Start(id)
    ensures run[k + 1].discarded > run[k].discarded <==> exists m :: i < m < k && steps[m].Commit?
    ensures run[k + 1].discarded > run[k].discarded ==> run[k + 1].live == run[k].live
  {
    i := WalkFrom(run, steps, k, id);
    SeqNoGrows(run, steps, i, k);
  }
}

/** L2CAP reassembly over interleaved ACL handles (tools/decrypt_btsnoop.py `_att_pdus`; fragmentation is Vol 3
    Part A, section 7.2 of the Bluetooth Core Specification). */
module L2cap {
  import opened Basics
  import opened Bytes

  const ACL: byte := 0x02
  const EVENT: byte := 0x04
  const ATT_CID: nat := 4

  datatype Record = Record(flags: int, data: Buffer)

  /** An L2CAP PDU being put together on one handle. */
  datatype Partial = Partial(length: nat, cid: nat, buf: Buffer)

  datatype Pdu = Pdu(handle: nat, peer: Option<Buffer>, flags: int, att: Buffer)

  datatype State = State(frag: map<nat, Partial>, peer: map<nat, Buffer>)

  const START: State := State(map[], map[])

  // ---- One record -----------------------------------------------------------------------------------------------

  function Short(s: Buffer): nat
    requires |s| >= 2
  {
    s[0] as int + 256 * s[1] as int
  }

  datatype Parsed = Connected(handle: nat, peer: Buffer) | Data(handle: nat, boundary: nat, payload: Buffer) | Ignored

  function Parse(data: Buffer): Parsed {
    if data == [] then Ignored
    else if data[0] == EVENT && |data| >= 4 && data[1] == 0x3E then
      var p := data[4..];
      if data[3] in {0x01, 0x0A} && |p| >= 11 then Connected(Short(p[1..3]) % 4096, p[5..11]) else Ignored
    else if data[0] != ACL || |data| < 5 then Ignored
    else
      var body := data[1..];
      var word := Short(body);
      Data(word % 4096, word / 4096 % 4, Slice(body, 4, 4 + Short(body[2..4])))
  }

  /** The whole PDU on `handle`, if the partial one is complete. */
  function Completed(s: State, handle: nat, flags: int, p: Partial): (State, seq<Pdu>) {
    if |p.buf| < p.length then (s.(frag := s.frag[handle := p]), [])
    else
      var att := p.buf[..p.length];
      (s.(frag := s.frag - {handle}),
       if p.cid == ATT_CID && att != [] then [Pdu(handle, Get(s.peer, handle), flags, att)] else [])
  }

  function Taken(s: State, flags: int, p: Parsed): (State, seq<Pdu>) {
    match p
    case Ignored => (s, [])
    case Connected(handle, peer) => (s.(peer := s.peer[handle := peer]), [])
    case Data(handle, boundary, payload) =>
      if boundary == 1 then
        if handle in s.frag
        then Completed(s, handle, flags, s.frag[handle].(buf := s.frag[handle].buf + payload)) else (s, [])
      else if |payload| < 4 then (s, [])
      else Completed(s, handle, flags, Partial(Short(payload), Short(payload[2..4]), payload[4..]))
  }

  function Step(s: State, r: Record): (State, seq<Pdu>) {
    Taken(s, r.flags, Parse(r.data))
  }

  /** The state after the records, from state `s`, and every PDU they complete. */
  function Trace(s: State, records: seq<Record>): (State, seq<Pdu>) {
    if records == [] then (s, [])
    else
      var n := |records| - 1;
      var (t, out) := Trace(s, records[..n]);
      var (t, more) := Step(t, records[n]);
      (t, out + more)
  }

  /** `_att_pdus`: one pass that updates the two dictionaries and yields each PDU as it completes. */
  method AttPdus(records: seq<Record>) returns (out: seq<Pdu>)
    ensures out == Trace(START, records).1
  {
    var frag: map<nat, Partial>, peer: map<nat, Buffer> := map[], map[];
    out := [];
    for k := 0 to |records|
      invariant (State(frag, peer), out) == Trace(START, records[..k])
    {
      assert records[..k + 1][..k] == records[..k];
      ghost var s := State(frag, peer);
      var r := records[k];
      ghost var was := out;
      assert was + [] == was;
      match Parse(r.data) {
        case Ignored =>
        case Connected(handle, mac) => peer := peer[handle := mac];
        case Data(handle, boundary, payload) =>
          if boundary == 1 && handle in frag {
            CompletedAgain(s, handle, r.flags, frag[handle].(buf := frag[handle].buf + payload));
            frag := frag[handle := frag[handle].(buf := frag[handle].buf + payload)];
            frag, out := Finish(frag, peer, handle, r.flags, out);
          } else if boundary != 1 && |payload| >= 4 {
            CompletedAgain(s, handle, r.flags, Partial(Short(payload), Short(payload[2..4]), payload[4..]));
            frag := frag[handle := Partial(Short(payload), Short(payload[2..4]), payload[4..])];
            frag, out := Finish(frag, peer, handle, r.flags, out);
          }
      }
      assert (State(frag, peer), out) == (Step(s, r).0, was + Step(s, r).1);
    }
    assert records[..|records|] == records;
  }

  lemma CompletedAgain(s: State, handle: nat, flags: int, p: Partial)
    ensures Completed(s.(frag := s.frag[handle := p]), handle, flags, p) == Completed(s, handle, flags, p)
  {
    assert s.frag[handle := p][handle := p] == s.frag[handle := p];
    assert s.frag[handle := p] - {handle} == s.frag - {handle};
  }

  method Finish(frag: map<nat, Partial>, peer: map<nat, Buffer>, handle: nat, flags: int, out: seq<Pdu>)
    returns (frag': map<nat, Partial>, out': seq<Pdu>)
    requires handle in frag
    ensures var (s, more) := Completed(State(frag, peer), handle, flags, frag[handle]);
            frag' == s.frag && out' == out + more
  {
    frag', out' := frag, out;
    var p := frag[handle];
    assert frag[handle := p] == frag;
    if |p.buf| >= p.length {
      frag' := frag - {handle};
      if p.cid == ATT_CID && p.buf[..p.length] != [] {
        out' := out + [Pdu(handle, Get(peer, handle), flags, p.buf[..p.length])];
      }
    }
  }

  // ---- Handles are independent ----------------------------------------------------------------------------------

  predicate About(p: Parsed, h: nat) {
    !p.Ignored? && p.handle == h
  }

  predicate Concerns(r: Record, h: nat) {
    About(Parse(r.data), h)
  }

  function RecordsOf(records: seq<Record>, h: nat): seq<Record> {
    if records == [] then []
    else RecordsOf(records[..|records| - 1], h)
         + if Concerns(records[|records| - 1], h) then [records[|records| - 1]] else []
  }

  function PdusOf(out: seq<Pdu>, h: nat): seq<Pdu> {
    if out == [] then []
    else PdusOf(out[..|out| - 1], h) + if out[|out| - 1].handle == h then [out[|out| - 1]] else []
  }

  ghost predicate SameAt(s: State, t: State, h: nat) {
    Get(s.frag, h) == Get(t.frag, h) && Get(s.peer, h) == Get(t.peer, h)
  }

  lemma PdusOfMore(out: seq<Pdu>, more: seq<Pdu>, h: nat)
    requires |more| <= 1
    ensures PdusOf(out + more, h) == PdusOf(out, h) + PdusOf(more, h)
  {
    if more == [] {
      assert out + more == out;
    } else {
      assert (out + more)[..|out + more| - 1] == out && more[..0] == [];
    }
  }

  lemma TakenAt(s: State, t: State, flags: int, p: Parsed, h: nat)
    requires SameAt(s, t, h)
    ensures var (s', out) := Taken(s, flags, p);
            var (t', own) := Taken(t, flags, p);
            && |out| <= 1
            && (About(p, h) ==> SameAt(s', t', h) && out == own && (out != [] ==> out[0].handle == h))
            && (!About(p, h) ==> SameAt(s', s, h) && (out != [] ==> out[0].handle != h))
  {
  }

  lemma OnePdu(out: seq<Pdu>, h: nat)
    requires |out| <= 1
    ensures PdusOf(out, h) == if out != [] && out[0].handle == h then out else []
  {
    if out != [] {
      assert out[..0] == [] && out == [out[0]];
    }
  }

  lemma StepAt(s: State, t: State, r: Record, h: nat)
    requires SameAt(s, t, h)
    ensures |Step(s, r).1| <= 1
    ensures Concerns(r, h) ==> SameAt(Step(s, r).0, Step(t, r).0, h) && Step(s, r).1 == Step(t, r).1
                               && PdusOf(Step(s, r).1, h) == Step(s, r).1
    ensures !Concerns(r, h) ==> SameAt(Step(s, r).0, s, h) && PdusOf(Step(s, r).1, h) == []
  {
    TakenAt(s, t, r.flags, Parse(r.data), h);
    OnePdu(Step(s, r).1, h);
  }

  /** What comes out for one handle depends on that handle's records alone, however they are interleaved. */
  lemma {:induction false} HandlesIndependent(records: seq<Record>, h: nat)
    ensures PdusOf(Trace(START, records).1, h) == Trace(START, RecordsOf(records, h)).1
    ensures SameAt(Trace(START, records).0, Trace(START, RecordsOf(records, h)).0, h)
  {
    if records == [] {
    } else {
      var n := |records| - 1;
      var own := RecordsOf(records[..n], h);
      HandlesIndependent(records[..n], h);
      StepAt(Trace(START, records[..n]).0, Trace(START, own).0, records[n], h);
      PdusOfMore(Trace(START, records[..n]).1, Step(Trace(START, records[..n]).0, records[n]).1, h);
      if Concerns(records[n], h) {
        assert (own + [records[n]])[..|own|] == own;
      } else {
        assert RecordsOf(records, h) == own;
      }
    }
  }

  // ---- Fragmentation --------------------------------------------------------------------------------------------

  datatype Packet = Packet(cid: nat, payload: Buffer)

  function Word(n: nat): Buffer
    requires n < 65536
  {
    [n % 256, n / 256]
  }

  predicate Sendable(p: Packet) {
    p.cid < 65536 && |p.payload| < 65536
  }

  function Wire(p: Packet): Buffer
    requires Sendable(p)
  {
    Word(|p.payload|) + Word(p.cid) + p.payload
  }

  function Join(parts: seq<Buffer>): Buffer {
    if parts == [] then [] else Join(parts[..|parts| - 1]) + parts[|parts| - 1]
  }

  /** A well-formed fragmentation: the parts join to the PDU, and the first holds its header. */
  predicate Fragments(p: Packet, parts: seq<Buffer>) {
    && Sendable(p) && parts != [] && |parts[0]| >= 4 && Join(parts) == Wire(p)
    && forall k :: 0 <= k < |parts| ==> |parts[k]| < 65536
  }

  /** `r` carries part `k` of a PDU on handle `h`. */
  predicate Carries(r: Record, h: nat, k: nat, part: Buffer) {
    match Parse(r.data)
    case Data(handle, boundary, payload) => handle == h && payload == part && (boundary == 1 <==> k > 0)
    case _ => false
  }

  /** An ACL packet on the air carries its part. */
  lemma OnAir(flags: int, h: nat, k: nat, part: Buffer)
    requires h < 4096 && |part| < 65536
    ensures var word := h + if k > 0 then 4096 else 2 * 4096;
            Carries(Record(flags, [ACL] + Word(word) + Word(|part|) + part), h, k, part)
  {
    var word := h + if k > 0 then 4096 else 2 * 4096;
    var data := [ACL] + Word(word) + Word(|part|) + part;
    assert data[1..] == Word(word) + Word(|part|) + part;
    assert data[1..][2..4] == Word(|part|) && data[1..][4..] == part;
  }

  /** An LE connection event (1, or 0x0A for an enhanced one) names its handle and the peer's address. */
  lemma LinkUp(size: byte, sub: byte, status: byte, h: nat, role: byte, kind: byte, peer: Buffer, rest: Buffer)
    requires h < 4096 && |peer| == 6
    ensures Parse([0x04, 0x3E, size, sub] + ([status] + Word(h) + [role, kind] + peer + rest))
         == if sub == 1 || sub == 0x0A then Connected(h, peer) else Ignored
  {
    var p := [status] + Word(h) + [role, kind] + peer + rest;
    assert ([0x04, 0x3E, size, sub] + p)[4..] == p;
    assert p[1..3] == Word(h) && p[5..11] == peer;
  }

  predicate CarriesAll(records: seq<Record>, h: nat, parts: seq<Buffer>) {
    |records| == |parts| && forall k :: 0 <= k < |parts| ==> Carries(records[k], h, k, parts[k])
  }

  function Atts(out: seq<Pdu>): seq<Buffer> {
    if out == [] then [] else Atts(out[..|out| - 1]) + [out[|out| - 1].att]
  }

  /** The ATT payload a PDU yields: none on another channel, and none if it is empty. */
  function AttOf(p: Packet): seq<Buffer> {
    if p.cid == ATT_CID && p.payload != [] then [p.payload] else []
  }

  function AttsOf(packets: seq<Packet>): seq<Buffer> {
    if packets == [] then [] else AttsOf(packets[..|packets| - 1]) + AttOf(packets[|packets| - 1])
  }

  lemma {:induction false} JoinGrows(parts: seq<Buffer>, k: nat)
    requires k <= |parts|
    ensures Join(parts[..k]) <= Join(parts)
  {
    if k < |parts| {
      JoinGrows(parts[..|parts| - 1], k);
      assert parts[..|parts| - 1][..k] == parts[..k];
    } else {
      assert parts[..k] == parts;
    }
  }

  lemma Header(p: Packet, head: Buffer)
    requires Sendable(p) && head <= Wire(p) && |head| >= 4
    ensures Short(head) == |p.payload| && Short(head[2..4]) == p.cid && head[4..] <= p.payload
  {
    assert head[0] == Wire(p)[0] && head[1] == Wire(p)[1] && head[2] == Wire(p)[2] && head[3] == Wire(p)[3];
    assert Wire(p)[4..] == p.payload && head[4..] == Wire(p)[4..|head|];
  }

  /** What the state holds of a PDU once `got` of its bytes are in. */
  ghost predicate Holds(t: State, h: nat, p: Packet, got: Buffer)
    requires Sendable(p) && |got| >= 4
  {
    Get(t.frag, h) == if got == Wire(p) then None else Some(Partial(|p.payload|, p.cid, got[4..]))
  }

  /** One more part of a PDU: gathered, or the PDU emitted once it is whole. */
  lemma PartGathered(t: State, p: Packet, before: Buffer, part: Buffer, r: Record, h: nat, k: nat)
    requires Sendable(p) && Carries(r, h, k, part) && before + part <= Wire(p) && |before + part| >= 4
    requires if k == 0 then before == [] else |before| >= 4 && Holds(t, h, p, before)
    ensures Holds(Step(t, r).0, h, p, before + part)
    ensures Step(t, r).1 == [] || (|Step(t, r).1| == 1 && Step(t, r).1[0].att == p.payload)
    ensures Step(t, r).1 != [] <==> before != Wire(p) && before + part == Wire(p) && AttOf(p) != []
  {
    var got := before + part;
    Header(p, got);
    Gathered(p, got);
    if k == 0 {
      assert got == part;
    } else if before != Wire(p) {
      assert got[4..] == before[4..] + part;
    } else {
      assert part == [];
    }
  }

  lemma PartAtts(t: State, p: Packet, before: Buffer, part: Buffer, r: Record, h: nat, k: nat)
    requires Sendable(p) && Carries(r, h, k, part) && before + part <= Wire(p) && |before + part| >= 4
    requires if k == 0 then before == [] else |before| >= 4 && Holds(t, h, p, before)
    ensures Atts(Step(t, r).1) == if before != Wire(p) && before + part == Wire(p) then AttOf(p) else []
  {
    PartGathered(t, p, before, part, r, h, k);
    var more := Step(t, r).1;
    assert more != [] ==> more[..0] == [] && Atts(more) == [p.payload];
  }

  /** After `k` parts of a PDU: what is gathered so far, or the PDU, emitted once. */
  lemma {:induction false} PartsGathered(s: State, p: Packet, parts: seq<Buffer>, h: nat, records: seq<Record>, k: nat)
    requires Fragments(p, parts) && CarriesAll(records, h, parts) && 1 <= k <= |parts|
    ensures var got, (t, out) := Join(parts[..k]), Trace(s, records[..k]);
            && |got| >= 4 && got <= Wire(p) && Holds(t, h, p, got)
            && Atts(out) == (if got == Wire(p) then AttOf(p) else [])
  {
    var (t, out) := Trace(s, records[..k - 1]);
    var before := Join(parts[..k - 1]);
    JoinGrows(parts, k);
    assert records[..k][..k - 1] == records[..k - 1] && parts[..k][..k - 1] == parts[..k - 1];
    assert Join(parts[..k]) == before + parts[k - 1];
    assert Carries(records[k - 1], h, k - 1, parts[k - 1]);
    if k == 1 {
      assert parts[..0] == [] && records[..0] == [];
    } else {
      PartsGathered(s, p, parts, h, records, k - 1);
    }
    PartGathered(t, p, before, parts[k - 1], records[k - 1], h, k - 1);
    PartAtts(t, p, before, parts[k - 1], records[k - 1], h, k - 1);
    AttsJoin(out, Step(t, records[k - 1]).1);
  }

  lemma Gathered(p: Packet, got: Buffer)
    requires Sendable(p) && got <= Wire(p) && |got| >= 4
    ensures |got[4..]| >= |p.payload| <==> got == Wire(p)
    ensures got == Wire(p) ==> got[4..] == p.payload && got[4..][..|p.payload|] == p.payload
  {
  }

  lemma {:induction false} TraceMore(s: State, a: seq<Record>, b: seq<Record>)
    ensures Trace(s, a + b) == (Trace(Trace(s, a).0, b).0, Trace(s, a).1 + Trace(Trace(s, a).0, b).1)
  {
    if b == [] {
      assert a + b == a && Trace(s, a).1 + [] == Trace(s, a).1;
    } else {
      assert (a + b)[..|a + b| - 1] == a + b[..|b| - 1];
      TraceMore(s, a, b[..|b| - 1]);
      var (t, out) := Trace(Trace(s, a).0, b[..|b| - 1]);
      assert Trace(s, a).1 + (out + Step(t, b[|b| - 1]).1) == Trace(s, a).1 + out + Step(t, b[|b| - 1]).1;
    }
  }

  /** One handle's records: the fragments of each packet in turn. */
  predicate Sent(records: seq<Record>, h: nat, packets: seq<Packet>, parts: seq<seq<Buffer>>)
    decreases |packets|
  {
    if packets == [] then records == []
    else
      var n := |packets| - 1;
      && |parts| == |packets| && Fragments(packets[n], parts[n]) && |parts[n]| <= |records|
      && CarriesAll(records[|records| - |parts[n]|..], h, parts[n])
      && Sent(records[..|records| - |parts[n]|], h, packets[..n], parts[..n])
  }

  lemma PacketReassembled(s: State, p: Packet, parts: seq<Buffer>, h: nat, records: seq<Record>)
    requires Fragments(p, parts) && CarriesAll(records, h, parts)
    ensures Atts(Trace(s, records).1) == AttOf(p)
  {
    PartsGathered(s, p, parts, h, records, |parts|);
    assert records[..|parts|] == records && parts[..|parts|] == parts;
  }

  /** Any well-formed fragmentation of a PDU sequence yields exactly its non-empty ATT payloads, in order. */
  lemma {:induction false} FragmentsReassembled(records: seq<Record>, h: nat, packets: seq<Packet>,
                                                parts: seq<seq<Buffer>>)
    requires Sent(records, h, packets, parts)
    ensures Atts(Trace(START, records).1) == AttsOf(packets)
    decreases |packets|
  {
    if packets == [] {
    } else {
      var n := |packets| - 1;
      var cut := |records| - |parts[n]|;
      var first, last := records[..cut], records[cut..];
      var s := Trace(START, first).0;
      FragmentsReassembled(first, h, packets[..n], parts[..n]);
      assert first + last == records;
      TraceMore(START, first, last);
      PacketReassembled(s, packets[n], parts[n], h, last);
      AttsJoin(Trace(START, first).1, Trace(s, last).1);
    }
  }

  lemma {:induction false} AttsJoin(out: seq<Pdu>, more: seq<Pdu>)
    ensures Atts(out + more) == Atts(out) + Atts(more)
  {
    if more == [] {
      assert out + more == out;
    } else {
      assert (out + more)[..|out + more| - 1] == out + more[..|more| - 1];
      AttsJoin(out, more[..|more| - 1]);
    }
  }

  /** The ACL data of one handle. */
  function DataOf(records: seq<Record>, h: nat): seq<Record> {
    if records == [] then []
    else
      var r := records[|records| - 1];
      DataOf(records[..|records| - 1], h) + if Concerns(r, h) && Parse(r.data).Data? then [r] else []
  }

  /** ACL data of the handle does the same to states that hold the same part for it, but for the peer it names; any
      other record leaves that part and gives nothing of the handle's. */
  lemma TakenData(s: State, t: State, flags: int, p: Parsed, h: nat)
    requires Get(s.frag, h) == Get(t.frag, h)
    ensures var (s', out) := Taken(s, flags, p);
            var (t', own) := Taken(t, flags, p);
            && |out| <= 1
            && (About(p, h) && p.Data? ==>
                  Get(s'.frag, h) == Get(t'.frag, h) && |out| == |own|
                  && (out != [] ==> out[0].handle == own[0].handle == h && out[0].att == own[0].att))
            && (!(About(p, h) && p.Data?) ==> Get(s'.frag, h) == Get(s.frag, h) && (out != [] ==> out[0].handle != h))
  {
  }

  lemma OneAtt(out: seq<Pdu>)
    requires |out| == 1
    ensures Atts(out) == [out[0].att]
  {
    assert out[..0] == [];
  }

  lemma DataStep(s: State, t: State, r: Record, h: nat)
    requires Get(s.frag, h) == Get(t.frag, h)
    ensures var (s', out) := Step(s, r);
            var (t', own) := Step(t, r);
            if Concerns(r, h) && Parse(r.data).Data?
            then Get(s'.frag, h) == Get(t'.frag, h) && Atts(PdusOf(out, h)) == Atts(own)
            else Get(s'.frag, h) == Get(s.frag, h) && PdusOf(out, h) == []
  {
    var out, own := Step(s, r).1, Step(t, r).1;
    TakenData(s, t, r.flags, Parse(r.data), h);
    OnePdu(out, h);
    if Concerns(r, h) && Parse(r.data).Data? && out != [] {
      OneAtt(out);
      OneAtt(own);
    }
  }

  lemma {:induction false} AttsIndependent(records: seq<Record>, h: nat)
    ensures Atts(PdusOf(Trace(START, records).1, h)) == Atts(Trace(START, DataOf(records, h)).1)
    ensures Get(Trace(START, records).0.frag, h) == Get(Trace(START, DataOf(records, h)).0.frag, h)
  {
    if records == [] {
    } else {
      var n := |records| - 1;
      var own := DataOf(records[..n], h);
      var (s, out) := Trace(START, records[..n]);
      var (t, mine) := Trace(START, own);
      AttsIndependent(records[..n], h);
      DataStep(s, t, records[n], h);
      StepAt(s, s, records[n], h);
      PdusOfMore(out, Step(s, records[n]).1, h);
      AttsJoin(PdusOf(out, h), PdusOf(Step(s, records[n]).1, h));
      if Concerns(records[n], h) && Parse(records[n].data).Data? {
        assert (own + [records[n]])[..|own|] == own;
        AttsJoin(mine, Step(t, records[n]).1);
      } else {
        assert DataOf(records, h) == own;
      }
    }
  }

  /** So a capture of many connections gives, for each handle, the ATT payloads its fragments carried, in order. */
  lemma CaptureDecoded(records: seq<Record>, h: nat, packets: seq<Packet>, parts: seq<seq<Buffer>>)
    requires Sent(DataOf(records, h), h, packets, parts)
    ensures Atts(PdusOf(Trace(START, records).1, h)) == AttsOf(packets)
  {
    AttsIndependent(records, h);
    FragmentsReassembled(DataOf(records, h), h, packets, parts);
  }
}

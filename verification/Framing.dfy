/** The 0xAC status burst of spec/govee_reference.py: 20-byte frames with an XOR checksum, cutting a TLV buffer into
    them, and putting a received burst together again. */
module Framing {
  import opened Basics
  import opened Bytes

  const FRAME_LEN: nat := 20
  const BODY_MAX: nat := 19
  const FIRST_LEN: nat := 12
  const DATA_LEN: nat := 17
  const LAST_TAG: nat := 0xFF
  const AC: byte := 0xAC

  // ---- Checksum -------------------------------------------------------------------------------------------------

  function XorAll(s: Buffer): byte {
    if s == [] then 0 else Xor(XorAll(s[..|s| - 1]), s[|s| - 1])
  }

  function Zeros(n: nat): Buffer {
    seq(n, _ => 0)
  }

  /** A payload of at most 19 bytes, zero-padded, with the checksum at byte 19. */
  function Framed(payload: Buffer): Buffer
    requires |payload| <= BODY_MAX
  {
    var body := payload + Zeros(BODY_MAX - |payload|);
    body + [XorAll(body)]
  }

  predicate ValidFrame(frame: Buffer) {
    |frame| == FRAME_LEN && frame[BODY_MAX] == XorAll(frame[..BODY_MAX])
  }

  /** XOR of the first 19 bytes (fewer in a shorter frame). */
  method Bcc(frame: Buffer) returns (x: byte)
    ensures x == XorAll(Slice(frame, 0, BODY_MAX))
  {
    var body := Slice(frame, 0, BODY_MAX);
    x := 0;
    for i := 0 to |body|
      invariant x == XorAll(body[..i])
    {
      assert body[..i + 1][..i] == body[..i];
      x := Xor(x, body[i]);
    }
    assert body[..|body|] == body;
  }

  method AppendBcc(payload: Buffer) returns (r: Result<Buffer>)
    ensures r.Ok? <==> |payload| <= BODY_MAX
    ensures r.Ok? ==> r.value == Framed(payload) && ValidFrame(r.value)
  {
    if |payload| > BODY_MAX {
      return Err;
    }
    var b := payload + Zeros(FRAME_LEN - |payload|);
    var x := Bcc(b);
    assert b[..BODY_MAX] == payload + Zeros(BODY_MAX - |payload|);
    r := Ok(b[BODY_MAX := x]);
    assert r.value == Framed(payload);
    FramedValid(payload);
  }

  /** A frame is the payload, padded with zeros. */
  lemma FramePadded(payload: Buffer, k: nat)
    requires |payload| <= BODY_MAX && k < BODY_MAX
    ensures |Framed(payload)| == 20 && Framed(payload)[k] == if k < |payload| then payload[k] else 0
  {
    var body := payload + Zeros(BODY_MAX - |payload|);
    assert Framed(payload) == body + [XorAll(body)];
  }

  lemma FramedValid(payload: Buffer)
    requires |payload| <= BODY_MAX
    ensures ValidFrame(Framed(payload)) && Framed(payload)[..|payload|] == payload
  {
    var body := payload + Zeros(BODY_MAX - |payload|);
    assert Framed(payload)[..BODY_MAX] == body;
  }

  lemma {:induction false} XorAllDiffers(s: Buffer, k: nat, v: byte)
    requires k < |s| && s[k] != v
    ensures XorAll(s) != XorAll(s[k := v])
  {
    var n := |s| - 1;
    XorTwice(XorAll(s[..n]), s[n]);
    if k < n {
      XorAllDiffers(s[..n], k, v);
      assert s[k := v][..n] == s[..n][k := v];
      XorTwice(XorAll(s[..n][k := v]), s[n]);
    } else {
      assert s[k := v][..n] == s[..n];
      XorTwice(s[n], XorAll(s[..n]));
      XorTwice(XorAll(s[..n]), v);
      XorTwice(v, XorAll(s[..n]));
    }
  }

  /** A frame with one byte received wrong never passes the check. */
  lemma OneByteWrong(frame: Buffer, k: nat, v: byte)
    requires ValidFrame(frame) && k < FRAME_LEN && frame[k] != v
    ensures !ValidFrame(frame[k := v])
  {
    if k < BODY_MAX {
      XorAllDiffers(frame[..BODY_MAX], k, v);
      assert frame[k := v][..BODY_MAX] == frame[..BODY_MAX][k := v];
    } else {
      assert frame[k := v][..BODY_MAX] == frame[..BODY_MAX];
    }
  }

  // ---- Chunking -------------------------------------------------------------------------------------------------

  /** Packets a buffer longer than one packet is cut into. */
  function Packets(n: nat): nat {
    if n <= 12 then 1 else 1 + (n - 12 + 16) / 17
  }

  /** Where packet `i`'s data starts in the buffer. */
  function Start(i: nat): nat {
    if i == 0 then 0 else 12 + 17 * (i - 1)
  }

  /** The data bytes packet `i` carries. */
  function DataAt(t: Buffer, i: nat): Buffer {
    Slice(t, Start(i), Start(i + 1))
  }

  function HeadOf(t: Buffer, cmd: byte, sub: byte): Buffer
    requires Packets(|t|) <= LAST_TAG
  {
    LastData(t);
    [AC, 0, Packets(|t|), 0, |DataAt(t, Packets(|t|) - 1)|, cmd, sub]
  }

  function TagAt(t: Buffer, i: nat): byte
    requires i < Packets(|t|) <= LAST_TAG
  {
    if i > 0 && i == Packets(|t|) - 1 then LAST_TAG else i
  }

  lemma DataFits(t: Buffer, i: nat)
    ensures |DataAt(t, i)| <= if i == 0 then FIRST_LEN else DATA_LEN
  {
  }

  function FrameAt(t: Buffer, cmd: byte, sub: byte, i: nat): Buffer
    requires i < Packets(|t|) <= LAST_TAG
  {
    DataFits(t, i);
    Framed(if i == 0 then HeadOf(t, cmd, sub) + DataAt(t, 0) else [AC, TagAt(t, i)] + DataAt(t, i))
  }

  function Burst(t: Buffer, cmd: byte, sub: byte): seq<Buffer>
    requires Packets(|t|) <= LAST_TAG
  {
    seq(Packets(|t|), i requires 0 <= i < Packets(|t|) => FrameAt(t, cmd, sub, i))
  }

  lemma LastData(t: Buffer)
    ensures var last := DataAt(t, Packets(|t|) - 1);
            && |last| <= DATA_LEN && (Packets(|t|) == 1 ==> last == t)
            && (Packets(|t|) > 1 ==> Start(Packets(|t|) - 1) < |t| && last == t[Start(Packets(|t|) - 1)..])
  {
  }

  /** Every packet but the last is full. */
  lemma InnerData(t: Buffer, i: nat)
    requires i < Packets(|t|) - 1
    ensures Start(i) < Start(i + 1) <= Start(Packets(|t|) - 1) < |t| && DataAt(t, i) == t[Start(i)..Start(i + 1)]
    ensures |DataAt(t, i)| == if i == 0 then FIRST_LEN else DATA_LEN
  {
  }

  lemma OnlyFrame(t: Buffer, cmd: byte, sub: byte)
    requires |t| <= FIRST_LEN
    ensures Packets(|t|) == 1 && Burst(t, cmd, sub) == [Framed([AC, 0, 1, 0, |t|, cmd, sub] + t)]
  {
    assert DataAt(t, 0) == t;
  }

  lemma FirstFrame(t: Buffer, cmd: byte, sub: byte, last: Buffer)
    requires |t| > FIRST_LEN && Packets(|t|) <= LAST_TAG && last == DataAt(t, Packets(|t|) - 1)
    ensures Packets(|t|) > 1 && |last| <= DATA_LEN
    ensures FrameAt(t, cmd, sub, 0) == Framed([AC, 0, Packets(|t|), 0, |last|, cmd, sub] + t[..FIRST_LEN])
  {
    LastData(t);
    assert DataAt(t, 0) == t[..FIRST_LEN];
  }

  lemma LaterFrame(t: Buffer, cmd: byte, sub: byte, i: nat)
    requires 0 < i < Packets(|t|) <= LAST_TAG
    ensures |DataAt(t, i)| <= DATA_LEN && FrameAt(t, cmd, sub, i) == Framed([AC, TagAt(t, i)] + DataAt(t, i))
  {
  }

  lemma BurstGrows(t: Buffer, cmd: byte, sub: byte, i: nat)
    requires i < Packets(|t|) <= LAST_TAG
    ensures Burst(t, cmd, sub)[..i + 1] == Burst(t, cmd, sub)[..i] + [FrameAt(t, cmd, sub, i)]
  {
    TakeMore(Burst(t, cmd, sub), i);
  }

  lemma TakeMore<T>(s: seq<T>, i: nat)
    requires i < |s|
    ensures s[..i + 1] == s[..i] + [s[i]]
  {
  }

  method ChunkAc(t: Buffer, cmd: byte, sub: byte) returns (r: Result<seq<Buffer>>)
    ensures r.Ok? <==> Packets(|t|) <= LAST_TAG
    ensures r.Ok? ==> r.value == Burst(t, cmd, sub)
  {
    if |t| <= FIRST_LEN {
      var only := AppendBcc([AC, 0, 1, 0, |t|, cmd, sub] + t);
      OnlyFrame(t, cmd, sub);
      return Ok([only.value]);
    }
    var count := Packets(|t|);
    if count > LAST_TAG {
      return Err;
    }
    var last := DataAt(t, count - 1);
    FirstFrame(t, cmd, sub, last);
    var first := AppendBcc([AC, 0, count, 0, |last|, cmd, sub] + t[..FIRST_LEN]);
    var frames := [first.value];
    BurstGrows(t, cmd, sub, 0);
    for tag := 1 to count - 1
      invariant frames == Burst(t, cmd, sub)[..tag]
    {
      LaterFrame(t, cmd, sub, tag);
      BurstGrows(t, cmd, sub, tag);
      var next := AppendBcc([AC, tag] + DataAt(t, tag));
      frames := frames + [next.value];
    }
    LaterFrame(t, cmd, sub, count - 1);
    BurstGrows(t, cmd, sub, count - 1);
    var end := AppendBcc([AC, LAST_TAG] + last);
    r := Ok(frames + [end.value]);
  }

  // ---- Reassembly -----------------------------------------------------------------------------------------------

  /** The data of packets `pos` up to `end`, if each carries its position as its tag. */
  function Middle(frames: seq<Buffer>, pos: nat, end: nat): Result<Buffer>
    requires pos <= end <= |frames|
    decreases end - pos
  {
    if pos == end then Ok([])
    else if |frames[pos]| < 2 || frames[pos][1] != pos || frames[pos][1] == LAST_TAG then Err
    else match Middle(frames, pos + 1, end)
         case Err => Err
         case Ok(rest) => Ok(Slice(frames[pos], 2, 2 + DATA_LEN) + rest)
  }

  function Reassembled(frames: seq<Buffer>): Result<Buffer> {
    if frames == [] || |frames[0]| < 5 || frames[0][0] != AC || frames[0][1] != 0 then Err
    else
      var count: nat := frames[0][2] as int + 256 * frames[0][3] as int;
      var lastLen: nat := frames[0][4];
      if count == 1 then if lastLen > FIRST_LEN then Err else Ok(Slice(frames[0], 7, 7 + lastLen))
      else if count < 1 || lastLen > DATA_LEN || |frames| < count then Err
      else match Middle(frames, 1, count - 1)
           case Err => Err
           case Ok(middle) =>
             var last := frames[count - 1];
             if |last| < 2 || (last[1] != LAST_TAG && last[1] != count - 1) then Err
             else Ok(Slice(frames[0], 7, 7 + FIRST_LEN) + middle + Slice(last, 2, 2 + lastLen))
  }

  method ReassembleAc(frames: seq<Buffer>) returns (r: Result<Buffer>)
    ensures r == Reassembled(frames)
  {
    if frames == [] || |frames[0]| < 5 || frames[0][0] != AC || frames[0][1] != 0 {
      return Err;
    }
    var count: nat := frames[0][2] as int + 256 * frames[0][3] as int;
    var lastLen: nat := frames[0][4];
    if count == 1 {
      if lastLen > FIRST_LEN {
        return Err;
      }
      return Ok(Slice(frames[0], 7, 7 + lastLen));
    }
    if count < 1 || lastLen > DATA_LEN || |frames| < count {
      return Err;
    }
    var data := Slice(frames[0], 7, 7 + FIRST_LEN);
    for pos := 1 to count - 1
      invariant match Middle(frames, 1, count - 1)
                case Err => Middle(frames, pos, count - 1).Err?
                case Ok(middle) => Middle(frames, pos, count - 1).Ok?
                                   && data + Middle(frames, pos, count - 1).value
                                      == Slice(frames[0], 7, 7 + FIRST_LEN) + middle
    {
      var f := frames[pos];
      if |f| < 2 || f[1] != pos || f[1] == LAST_TAG {
        return Err;
      }
      ghost var rest := Middle(frames, pos + 1, count - 1);
      assert rest.Ok? ==>
        data + (Slice(f, 2, 2 + DATA_LEN) + rest.value) == data + Slice(f, 2, 2 + DATA_LEN) + rest.value;
      data := data + Slice(f, 2, 2 + DATA_LEN);
    }
    assert data + [] == data;
    var last := frames[count - 1];
    if |last| < 2 || (last[1] != LAST_TAG && last[1] != count - 1) {
      return Err;
    }
    r := Ok(data + Slice(last, 2, 2 + lastLen));
  }

  // ---- Round trip -----------------------------------------------------------------------------------------------

  /** What reassembly reads off frame `i` of a burst. */
  predicate Carries(t: Buffer, i: nat, f: Buffer)
    requires i < Packets(|t|) <= LAST_TAG
  {
    var from := if i == 0 then 7 else 2;
    && |f| == FRAME_LEN && f[0] == AC && f[1] == TagAt(t, i)
    && Slice(f, from, from + |DataAt(t, i)|) == DataAt(t, i)
    && (i == 0 ==> f[2] == Packets(|t|) && f[3] == 0 && f[4] == |DataAt(t, Packets(|t|) - 1)|)
  }

  ghost predicate CarriesAll(t: Buffer, frames: seq<Buffer>)
    requires Packets(|t|) <= LAST_TAG
  {
    Packets(|t|) <= |frames| && forall i :: 0 <= i < Packets(|t|) ==> Carries(t, i, frames[i])
  }

  lemma FrameCarries(t: Buffer, cmd: byte, sub: byte, i: nat)
    requires i < Packets(|t|) <= LAST_TAG
    ensures ValidFrame(FrameAt(t, cmd, sub, i)) && Carries(t, i, FrameAt(t, cmd, sub, i))
  {
    DataFits(t, i);
    var head := if i == 0 then HeadOf(t, cmd, sub) else [AC, TagAt(t, i)];
    var payload := head + DataAt(t, i);
    var f := FrameAt(t, cmd, sub, i);
    FramedValid(payload);
    assert f[|head|..|payload|] == f[..|payload|][|head|..] == DataAt(t, i);
    assert forall k :: 0 <= k < |head| ==> f[k] == f[..|payload|][k] == head[k];
  }

  lemma BurstCarries(t: Buffer, cmd: byte, sub: byte, frames: seq<Buffer>)
    requires Packets(|t|) <= LAST_TAG && Burst(t, cmd, sub) <= frames
    ensures CarriesAll(t, frames)
  {
    forall i | 0 <= i < Packets(|t|) ensures Carries(t, i, frames[i]) {
      assert frames[i] == Burst(t, cmd, sub)[i];
      FrameCarries(t, cmd, sub, i);
    }
  }

  /** Packet `i` carries its position as its tag and a whole packet of data. */
  predicate Inner(t: Buffer, frames: seq<Buffer>, i: nat) {
    && i < |frames| && |frames[i]| >= 2 && frames[i][1] == i
    && Slice(frames[i], 2, 2 + DATA_LEN) == Slice(t, Start(i), Start(i + 1))
  }

  /** The data of packets `pos` up to the last, in order, is the buffer from packet `pos` to the last. */
  lemma {:induction false} MiddleOf(t: Buffer, frames: seq<Buffer>, pos: nat, end: nat)
    requires 1 <= pos <= end < LAST_TAG && end <= |frames| && Start(end) <= |t|
    requires forall i :: pos <= i < end ==> Inner(t, frames, i)
    ensures Middle(frames, pos, end) == Ok(Slice(t, Start(pos), Start(end)))
    decreases end - pos
  {
    if pos < end {
      assert Inner(t, frames, pos);
      MiddleOf(t, frames, pos + 1, end);
      MiddleJoin(t, Start(pos), Start(pos + 1), Start(end));
    }
  }

  lemma InnerAt(t: Buffer, frames: seq<Buffer>, i: nat)
    requires 1 <= i < Packets(|t|) - 1 < LAST_TAG && CarriesAll(t, frames)
    ensures Inner(t, frames, i)
  {
    assert Carries(t, i, frames[i]);
    InnerData(t, i);
  }

  lemma MiddleJoin(t: Buffer, a: nat, b: nat, c: nat)
    requires a <= b <= c <= |t|
    ensures Slice(t, a, b) + Slice(t, b, c) == Slice(t, a, c)
  {
  }

  /** Every buffer of up to 12 + 17 * 254 bytes comes back from its burst, whatever follows the burst. */
  lemma RoundTrip(t: Buffer, cmd: byte, sub: byte, frames: seq<Buffer>)
    requires |t| <= 12 + 17 * 254
    ensures Packets(|t|) <= LAST_TAG
    ensures forall i :: 0 <= i < Packets(|t|) ==> ValidFrame(Burst(t, cmd, sub)[i])
    ensures Burst(t, cmd, sub) <= frames ==> Reassembled(frames) == Ok(t)
  {
    forall i | 0 <= i < Packets(|t|) ensures ValidFrame(Burst(t, cmd, sub)[i]) {
      FrameCarries(t, cmd, sub, i);
    }
    if Burst(t, cmd, sub) <= frames {
      BurstCarries(t, cmd, sub, frames);
      if Packets(|t|) == 1 {
        OnePacket(t, frames);
      } else {
        ManyPackets(t, frames);
      }
    }
  }

  lemma OnePacket(t: Buffer, frames: seq<Buffer>)
    requires Packets(|t|) == 1 && CarriesAll(t, frames)
    ensures Reassembled(frames) == Ok(t)
  {
    assert Carries(t, 0, frames[0]);
    LastData(t);
  }

  lemma ManyPackets(t: Buffer, frames: seq<Buffer>)
    requires 1 < Packets(|t|) <= LAST_TAG && CarriesAll(t, frames)
    ensures Reassembled(frames) == Ok(t)
  {
    var count := Packets(|t|);
    var first, middle, last := DataAt(t, 0), Slice(t, Start(1), Start(count - 1)), DataAt(t, count - 1);
    assert Carries(t, 0, frames[0]) && Carries(t, count - 1, frames[count - 1]);
    LastData(t);
    InnerData(t, 0);
    forall i | 1 <= i < count - 1 ensures Inner(t, frames, i) {
      InnerAt(t, frames, i);
    }
    MiddleOf(t, frames, 1, count - 1);
    Assembled(frames, count, first, middle, last);
    MiddleJoin(t, 0, Start(1), Start(count - 1));
    MiddleJoin(t, 0, Start(count - 1), |t|);
  }

  lemma Assembled(frames: seq<Buffer>, count: nat, first: Buffer, middle: Buffer, last: Buffer)
    requires 1 < count <= |frames| && count <= LAST_TAG && |last| <= DATA_LEN
    requires |frames[0]| == FRAME_LEN && frames[0][0] == AC && frames[0][1] == 0
    requires frames[0][2] == count && frames[0][3] == 0 && frames[0][4] == |last|
    requires Slice(frames[0], 7, 7 + FIRST_LEN) == first && Middle(frames, 1, count - 1) == Ok(middle)
    requires |frames[count - 1]| >= 2 && frames[count - 1][1] == LAST_TAG
    requires Slice(frames[count - 1], 2, 2 + |last|) == last
    ensures Reassembled(frames) == Ok(first + middle + last)
  {
  }

  lemma {:induction false} MiddleTag(frames: seq<Buffer>, pos: nat, end: nat, k: nat)
    requires pos <= k < end <= |frames| && Middle(frames, pos, end).Ok?
    ensures |frames[k]| >= 2 && frames[k][1] == k && k != LAST_TAG
    decreases end - pos
  {
    if k == pos {
    } else {
      MiddleTag(frames, pos + 1, end, k);
    }
  }

  /** Frames drawn from a burst (dropped, repeated, reordered) are accepted exactly if the whole burst comes first, in
      order; so a burst that is accepted gives its buffer and no other. */
  lemma DrawnFrames(t: Buffer, cmd: byte, sub: byte, frames: seq<Buffer>)
    requires Packets(|t|) <= LAST_TAG && forall f :: f in frames ==> f in Burst(t, cmd, sub)
    ensures Reassembled(frames).Ok? <==> Burst(t, cmd, sub) <= frames
    ensures Reassembled(frames).Ok? ==> Reassembled(frames) == Ok(t)
  {
    RoundTrip(t, cmd, sub, frames);
    if Reassembled(frames).Ok? {
      AcceptedCount(t, cmd, sub, frames);
      forall k | 0 <= k < Packets(|t|) ensures frames[k] == Burst(t, cmd, sub)[k] {
        AcceptedAt(t, cmd, sub, frames, k);
      }
    }
  }

  lemma AcceptedCount(t: Buffer, cmd: byte, sub: byte, frames: seq<Buffer>)
    requires Packets(|t|) <= LAST_TAG && forall f :: f in frames ==> f in Burst(t, cmd, sub)
    requires Reassembled(frames).Ok?
    ensures Packets(|t|) <= |frames| && frames[0] == FrameAt(t, cmd, sub, 0)
    ensures Packets(|t|) > 1 ==> Middle(frames, 1, Packets(|t|) - 1).Ok?
    ensures Packets(|t|) > 1 ==> |frames[Packets(|t|) - 1]| >= 2
                                 && LastTagged(frames[Packets(|t|) - 1][1], Packets(|t|))
  {
    AcceptedHead(frames);
    Whence(t, cmd, sub, frames, 0);
    FrameCarries(t, cmd, sub, 0);
    assert Carries(t, 0, frames[0]);
    AcceptedShape(frames, Packets(|t|));
  }

  predicate LastTagged(tag: byte, count: nat) {
    tag == LAST_TAG || tag == count - 1
  }

  lemma AcceptedHead(frames: seq<Buffer>)
    requires Reassembled(frames).Ok?
    ensures frames != [] && |frames[0]| >= 5 && frames[0][1] == 0
  {
  }

  lemma AcceptedShape(frames: seq<Buffer>, count: nat)
    requires Reassembled(frames).Ok? && |frames[0]| >= 5 && frames[0][2] == count && frames[0][3] == 0 && count >= 1
    ensures count <= |frames| && (count > 1 ==> Middle(frames, 1, count - 1).Ok?)
    ensures count > 1 ==> |frames[count - 1]| >= 2 && LastTagged(frames[count - 1][1], count)
  {
  }

  lemma AcceptedAt(t: Buffer, cmd: byte, sub: byte, frames: seq<Buffer>, k: nat)
    requires Packets(|t|) <= LAST_TAG && forall f :: f in frames ==> f in Burst(t, cmd, sub)
    requires Reassembled(frames).Ok? && k < Packets(|t|)
    ensures k < |frames| && frames[k] == FrameAt(t, cmd, sub, k)
  {
    AcceptedCount(t, cmd, sub, frames);
    if k > 0 {
      if k < Packets(|t|) - 1 {
        MiddleTag(frames, 1, Packets(|t|) - 1, k);
      }
      Whence(t, cmd, sub, frames, k);
    }
  }

  /** A frame of the burst is known by its tag. */
  lemma Whence(t: Buffer, cmd: byte, sub: byte, frames: seq<Buffer>, k: nat)
    requires Packets(|t|) <= LAST_TAG && k < |frames| && forall f :: f in frames ==> f in Burst(t, cmd, sub)
    ensures exists i :: 0 <= i < Packets(|t|) && frames[k] == FrameAt(t, cmd, sub, i) && |frames[k]| == FRAME_LEN
                        && frames[k][1] == TagAt(t, i)
  {
    assert frames[k] in Burst(t, cmd, sub);
    var i :| 0 <= i < Packets(|t|) && frames[k] == Burst(t, cmd, sub)[i];
    FrameCarries(t, cmd, sub, i);
  }
}

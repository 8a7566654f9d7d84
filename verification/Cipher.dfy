/** The V1 wire cipher: AES-ECB on each whole 16-byte block, RC4 on the rest, re-keyed on every call. Three
    implementations (crypto.py's functions, its FrameCipher, and spec/govee_reference.py) proved to compute one
    function under a 16-byte key, whose decryption undoes its encryption, and to differ under any other key. AES itself
    is a parameter: a keyed map of 16-byte blocks. */
module Cipher {
  import opened Basics
  import opened Bytes

  const BLOCK: nat := 16

  // ---- RC4 ------------------------------------------------------------------------------------------------------

  function Identity(): (s: Buffer)
    ensures |s| == 256
  {
    seq(256, i requires 0 <= i < 256 => i)
  }

  function Swap(s: Buffer, i: nat, j: nat): (r: Buffer)
    requires i < |s| && j < |s|
    ensures |r| == |s|
  {
    s[i := s[j]][j := s[i]]
  }

  lemma SwapPermutes(s: Buffer, i: nat, j: nat)
    requires i < |s| && j < |s|
    ensures multiset(Swap(s, i, j)) == multiset(s)
  {
  }

  /** The state and index after `n` rounds of the key schedule. */
  function Ksa(key: Buffer, n: nat): (r: (Buffer, nat))
    requires key != [] && n <= 256
    ensures |r.0| == 256 && r.1 < 256
  {
    if n == 0 then (Identity(), 0)
    else
      var (s, j) := Ksa(key, n - 1);
      var j := (j + s[n - 1] + key[(n - 1) % |key|]) % 256;
      (Swap(s, n - 1, j), j)
  }

  /** One keystream step: the next state and indexes. */
  function Step(s: Buffer, i: nat, j: nat): (r: (Buffer, nat, nat))
    requires |s| == 256
    ensures |r.0| == 256 && r.1 < 256 && r.2 < 256
  {
    var i := (i + 1) % 256;
    var j := (j + s[i]) % 256;
    (Swap(s, i, j), i, j)
  }

  function KeyByte(s: Buffer, i: nat, j: nat): byte
    requires |s| == 256 && i < 256 && j < 256
  {
    s[(s[i] as int + s[j] as int) % 256]
  }

  /** `data` with the keystream that starts at state (s, i, j) XORed in. */
  function Prga(s: Buffer, i: nat, j: nat, data: Buffer): (out: Buffer)
    requires |s| == 256
    ensures |out| == |data|
    decreases |data|
  {
    if data == [] then []
    else
      var (t, i, j) := Step(s, i, j);
      [Xor(data[0], KeyByte(t, i, j))] + Prga(t, i, j, data[1..])
  }

  /** The state after `n` keystream bytes. */
  function PrgaState(s: Buffer, n: nat): (r: (Buffer, nat, nat))
    requires |s| == 256
    ensures |r.0| == 256 && r.1 < 256 && r.2 < 256
  {
    if n == 0 then (s, 0, 0) else var (t, i, j) := PrgaState(s, n - 1); Step(t, i, j)
  }

  function Rc4(key: Buffer, data: Buffer): Buffer
    requires key != []
  {
    Prga(Ksa(key, 256).0, 0, 0, data)
  }

  ghost predicate Permutation(s: Buffer) {
    multiset(s) == multiset(Identity())
  }

  lemma ScheduleStep(key: Buffer, n: nat)
    requires key != [] && 0 < n <= 256
    ensures multiset(Ksa(key, n).0) == multiset(Ksa(key, n - 1).0)
  {
    var (s, j) := Ksa(key, n - 1);
    var next := (j + s[n - 1] + key[(n - 1) % |key|]) % 256;
    assert Ksa(key, n) == (Swap(s, n - 1, next), next);
    SwapPermutes(s, n - 1, next);
  }

  lemma {:induction false} SchedulePermutes(key: Buffer, n: nat)
    requires key != [] && n <= 256
    ensures Permutation(Ksa(key, n).0)
  {
    if n == 0 {
    } else {
      SchedulePermutes(key, n - 1);
      ScheduleStep(key, n);
    }
  }

  lemma KeystreamPermutes(s: Buffer, i: nat, j: nat)
    requires |s| == 256
    ensures multiset(Step(s, i, j).0) == multiset(s)
  {
    var i' := (i + 1) % 256;
    SwapPermutes(s, i', (j + s[i']) % 256);
  }

  lemma {:induction false} StatePermutes(key: Buffer, n: nat)
    requires key != []
    ensures Permutation(PrgaState(Ksa(key, 256).0, n).0)
  {
    if n == 0 {
      SchedulePermutes(key, 256);
    } else {
      StatePermutes(key, n - 1);
      var (s, i, j) := PrgaState(Ksa(key, 256).0, n - 1);
      KeystreamPermutes(s, i, j);
    }
  }

  /** For every non-empty key, after every number of keystream bytes, the state holds each of 0..255 once. */
  lemma StateHoldsEach(key: Buffer, n: nat, v: byte)
    requires key != []
    ensures multiset(PrgaState(Ksa(key, 256).0, n).0)[v] == 1
  {
    StatePermutes(key, n);
    OneOfEach(v);
  }

  lemma OneOfEach(v: byte)
    ensures multiset(Identity())[v] == 1
  {
    var s := Identity();
    assert s == s[..v] + [v] + s[v + 1..];
    assert multiset(s) == multiset(s[..v]) + multiset{v} + multiset(s[v + 1..]);
    assert v !in s[..v] && v !in s[v + 1..];
    assert v !in multiset(s[..v]) && v !in multiset(s[v + 1..]);
  }

  /** RC4 undoes itself: the keystream depends on the key and the length alone. */
  lemma {:induction false} PrgaTwice(s: Buffer, i: nat, j: nat, data: Buffer)
    requires |s| == 256
    ensures Prga(s, i, j, Prga(s, i, j, data)) == data
    decreases |data|
  {
    if data == [] {
    } else {
      var (t, i', j') := Step(s, i, j);
      PrgaTwice(t, i', j', data[1..]);
      XorTwice(data[0], KeyByte(t, i', j'));
      assert Prga(s, i, j, data)[1..] == Prga(t, i', j', data[1..]);
    }
  }

  method SwapAt(s: array<byte>, i: nat, j: nat)
    requires i < s.Length && j < s.Length
    modifies s
    ensures s[..] == Swap(old(s[..]), i, j)
  {
    s[i], s[j] := s[j], s[i];
  }

  /** The state, 0..255 in order, with the key scheduled into it in place. */
  method Schedule(key: Buffer) returns (s: array<byte>)
    requires key != []
    ensures fresh(s) && s.Length == 256 && s[..] == Ksa(key, 256).0
  {
    s := new byte[256](i => if 0 <= i < 256 then i else 0);
    assert s[..] == Identity();
    var j: nat := 0;
    for i := 0 to 256
      invariant s[..] == Ksa(key, i).0 && j == Ksa(key, i).1
    {
      j := (j + s[i] + key[i % |key|]) % 256;
      SwapAt(s, i, j);
    }
  }

  /** The keystream XOR, run on the state in place. */
  method Keystream(s: array<byte>, data: Buffer) returns (out: Buffer)
    requires s.Length == 256
    modifies s
    ensures out == Prga(old(s[..]), 0, 0, data)
  {
    out := [];
    var i: nat, j: nat := 0, 0;
    for k := 0 to |data|
      invariant i < 256 && j < 256
      invariant out + Prga(s[..], i, j, data[k..]) == Prga(old(s[..]), 0, 0, data)
    {
      ghost var rest := data[k..];
      ghost var was := s[..];
      ghost var (next, i', j') := Step(was, i, j);
      i := (i + 1) % 256;
      j := (j + s[i]) % 256;
      SwapAt(s, i, j);
      var x := Xor(data[k], s[(s[i] as int + s[j] as int) % 256]);
      assert rest[1..] == data[k + 1..] && rest[0] == data[k];
      assert s[..] == next && i == i' && j == j' && x == Xor(rest[0], KeyByte(next, i', j'));
      KeystreamStep(out, x, Prga(next, i', j', data[k + 1..]));
      out := out + [x];
    }
  }

  lemma KeystreamStep(out: Buffer, x: byte, rest: Buffer)
    ensures out + ([x] + rest) == out + [x] + rest
  {
  }

  /** crypto.py `_rc4_ksa`: the schedule, which an empty key has none of. */
  method RunKsa(key: Buffer) returns (r: Result<Buffer>)
    ensures r.Ok? <==> key != []
    ensures r.Ok? ==> r.value == Ksa(key, 256).0
  {
    if key == [] {
      return Err;
    }
    var s := Schedule(key);
    r := Ok(s[..]);
  }

  /** crypto.py `_rc4_prga`: the keystream XOR, on a copy of the schedule. */
  method RunPrga(ksa: Buffer, data: Buffer) returns (out: Buffer)
    requires |ksa| == 256
    ensures out == Prga(ksa, 0, 0, data)
  {
    var s := new byte[256](k requires 0 <= k < 256 => ksa[k]);
    assert s[..] == ksa;
    out := Keystream(s, data);
  }

  /** The reference's RC4: schedule and keystream on one state. */
  method ReferenceRc4(data: Buffer, key: Buffer) returns (out: Buffer)
    requires key != []
    ensures out == Rc4(key, data)
  {
    var s := Schedule(key);
    out := Keystream(s, data);
  }

  // ---- The block cipher and the whole ---------------------------------------------------------------------------

  /** AES, by key: 16-byte blocks to 16-byte blocks, each direction undoing the other. */
  datatype Aes = Aes(encrypt: (Buffer, Buffer) -> Buffer, decrypt: (Buffer, Buffer) -> Buffer)

  ghost predicate InvertibleAt(aes: Aes, key: Buffer, b: Buffer) {
    && |aes.encrypt(key, b)| == BLOCK && |aes.decrypt(key, b)| == BLOCK
    && aes.decrypt(key, aes.encrypt(key, b)) == b && aes.encrypt(key, aes.decrypt(key, b)) == b
  }

  /** The keys AES itself takes: 128, 192 or 256 bits. */
  predicate AesTakes(key: Buffer) {
    |key| in {16, 24, 32}
  }

  ghost predicate Invertible(aes: Aes) {
    forall key, b :: AesTakes(key) && |b| == BLOCK ==> InvertibleAt(aes, key, b)
  }

  function Block(aes: Aes, key: Buffer, encrypt: bool, b: Buffer): Buffer {
    if encrypt then aes.encrypt(key, b) else aes.decrypt(key, b)
  }

  function Blocks(aes: Aes, key: Buffer, encrypt: bool, data: Buffer): Buffer
    decreases |data|
  {
    if |data| < 16 then [] else Block(aes, key, encrypt, data[..16]) + Blocks(aes, key, encrypt, data[16..])
  }

  /** The bytes after the last whole block. */
  function Rest(data: Buffer): (r: Buffer)
    ensures |r| == |data| % 16
  {
    data[|data| - |data| % 16..]
  }

  function Crypt(aes: Aes, key: Buffer, encrypt: bool, data: Buffer): Buffer
    requires key != []
  {
    Blocks(aes, key, encrypt, data) + Rc4(key, Rest(data))
  }

  /** `n` whole blocks come back, whatever shorter tail follows them. */
  lemma {:induction false} BlocksBack(aes: Aes, key: Buffer, encrypt: bool, whole: Buffer, n: nat, tail: Buffer)
    requires Invertible(aes) && AesTakes(key) && |whole| == 16 * n && |tail| < 16
    ensures |Blocks(aes, key, encrypt, whole)| == 16 * n
    ensures Blocks(aes, key, !encrypt, Blocks(aes, key, encrypt, whole) + tail) == whole
    decreases n
  {
    if n == 0 {
      assert Blocks(aes, key, encrypt, whole) + tail == tail;
    } else {
      var head, last := whole[..16], whole[16..];
      assert head + last == whole;
      BlocksBack(aes, key, encrypt, last, n - 1, tail);
      OneBlockBack(aes, key, encrypt, head, last, tail);
    }
  }

  lemma OneBlockBack(aes: Aes, key: Buffer, encrypt: bool, head: Buffer, last: Buffer, tail: Buffer)
    requires Invertible(aes) && AesTakes(key) && |head| == 16
    requires Blocks(aes, key, !encrypt, Blocks(aes, key, encrypt, last) + tail) == last
    ensures |Blocks(aes, key, encrypt, head + last)| == 16 + |Blocks(aes, key, encrypt, last)|
    ensures Blocks(aes, key, !encrypt, Blocks(aes, key, encrypt, head + last) + tail) == head + last
  {
    var first, rest := Block(aes, key, encrypt, head), Blocks(aes, key, encrypt, last);
    assert InvertibleAt(aes, key, head);
    FirstBlock(aes, key, encrypt, head, last);
    FirstBlock(aes, key, !encrypt, first, rest + tail);
    calc {
      Blocks(aes, key, !encrypt, Blocks(aes, key, encrypt, head + last) + tail);
      Blocks(aes, key, !encrypt, first + rest + tail);
      { Regroup(first, rest, tail); }
      Blocks(aes, key, !encrypt, first + (rest + tail));
      Block(aes, key, !encrypt, first) + Blocks(aes, key, !encrypt, rest + tail);
      head + last;
    }
  }

  lemma Regroup(a: Buffer, b: Buffer, c: Buffer)
    ensures a + b + c == a + (b + c)
  {
  }

  lemma FirstBlock(aes: Aes, key: Buffer, encrypt: bool, first: Buffer, rest: Buffer)
    requires |first| == 16
    ensures Blocks(aes, key, encrypt, first + rest) == Block(aes, key, encrypt, first) + Blocks(aes, key, encrypt, rest)
  {
    assert (first + rest)[..16] == first && (first + rest)[16..] == rest;
  }

  lemma RestOf(whole: Buffer, n: nat, tail: Buffer)
    requires |whole| == 16 * n && |tail| < 16
    ensures Rest(whole + tail) == tail
  {
  }

  lemma Parts(data: Buffer)
    ensures data[..16 * (|data| / 16)] + Rest(data) == data && |Rest(data)| < 16
  {
  }

  /** Decryption undoes encryption at every length, and encryption undoes decryption. */
  lemma CryptBack(aes: Aes, key: Buffer, encrypt: bool, data: Buffer)
    requires Invertible(aes) && AesTakes(key)
    ensures Crypt(aes, key, !encrypt, Crypt(aes, key, encrypt, data)) == data
  {
    var n := |data| / 16;
    var whole, tail := Blocks(aes, key, encrypt, data), Rc4(key, Rest(data));
    var out := whole + tail;
    Parts(data);
    BlocksWhole(aes, key, encrypt, data);
    BlocksBack(aes, key, encrypt, data[..16 * n], n, tail);
    calc {
      Crypt(aes, key, !encrypt, Crypt(aes, key, encrypt, data));
      Crypt(aes, key, !encrypt, out);
      Blocks(aes, key, !encrypt, out) + Rc4(key, Rest(out));
      { RestOf(whole, n, tail); }
      Blocks(aes, key, !encrypt, out) + Rc4(key, tail);
      { PrgaTwice(Ksa(key, 256).0, 0, 0, Rest(data)); }
      data[..16 * n] + Rest(data);
      data;
    }
  }

  /** `aes_ecb_block`: refuses a key that is not 16 bytes. */
  method AesBlock(aes: Aes, key: Buffer, b: Buffer, encrypt: bool) returns (r: Result<Buffer>)
    ensures r == if |key| == BLOCK && |b| == BLOCK then Ok(Block(aes, key, encrypt, b)) else Err
  {
    if |key| != BLOCK || |b| != BLOCK {
      return Err;
    }
    r := Ok(if encrypt then aes.encrypt(key, b) else aes.decrypt(key, b));
  }

  lemma {:induction false} BlocksTo(aes: Aes, key: Buffer, encrypt: bool, data: Buffer, n: nat)
    requires 16 * n + 16 <= |data|
    ensures Blocks(aes, key, encrypt, data[..16 * n + 16])
         == Blocks(aes, key, encrypt, data[..16 * n]) + Block(aes, key, encrypt, data[16 * n..16 * n + 16])
    decreases n
  {
    if n == 0 {
      assert data[..16][..16] == data[0..16];
    } else {
      var rest := data[16..];
      BlocksTo(aes, key, encrypt, rest, n - 1);
      assert data[..16 * n + 16][16..] == rest[..16 * n] && data[..16 * n][16..] == rest[..16 * n - 16];
      assert data[..16 * n + 16][..16] == data[..16] == data[..16 * n][..16];
      assert rest[16 * n - 16..16 * n] == data[16 * n..16 * n + 16];
    }
  }

  // ---- What each implementation answers -------------------------------------------------------------------------

  /** The module functions: a key that is not 16 bytes is refused at the first whole block, an empty one for any
      data. */
  function ModuleResult(aes: Aes, key: Buffer, encrypt: bool, data: Buffer): Result<Buffer> {
    if |key| == BLOCK then Ok(Crypt(aes, key, encrypt, data))
    else if |data| >= 16 || (key == [] && data != []) then Err
    else Ok(if data == [] then [] else Rc4(key, data))
  }

  /** FrameCipher: any other key is refused when it is built. */
  function BoundResult(aes: Aes, key: Buffer, encrypt: bool, data: Buffer): Result<Buffer> {
    if |key| == BLOCK then Ok(Crypt(aes, key, encrypt, data)) else Err
  }

  /** The reference: AES is set up first, so the keys AES takes are the ones it takes. */
  function ReferenceResult(aes: Aes, key: Buffer, encrypt: bool, data: Buffer): Result<Buffer> {
    if AesTakes(key) then Ok(Crypt(aes, key, encrypt, data)) else Err
  }

  predicate Agree(aes: Aes, key: Buffer, encrypt: bool, data: Buffer) {
    ModuleResult(aes, key, encrypt, data) == BoundResult(aes, key, encrypt, data)
    == ReferenceResult(aes, key, encrypt, data)
  }

  /** Under a key of another length FrameCipher and the module functions differ on no data at all, and the module
      functions and the reference on no data or on one block of it. */
  lemma DifferAt(aes: Aes, key: Buffer, encrypt: bool, block: Buffer)
    requires |key| != BLOCK && |block| == BLOCK
    ensures ModuleResult(aes, key, encrypt, []) == Ok([]) && BoundResult(aes, key, encrypt, []) == Err
    ensures !AesTakes(key) ==> ReferenceResult(aes, key, encrypt, []) == Err
    ensures AesTakes(key) ==>
              ModuleResult(aes, key, encrypt, block) == Err && ReferenceResult(aes, key, encrypt, block).Ok?
  {
  }

  /** The three agree, on whether they answer and on what, for every data exactly if the key is 16 bytes; so do the
      module functions and either of the others; FrameCipher and the reference exactly if the key is not 24 or 32
      bytes. */
  lemma AgreeExactly(aes: Aes, key: Buffer, encrypt: bool)
    ensures (forall data :: Agree(aes, key, encrypt, data)) <==> |key| == BLOCK
    ensures (forall data :: ModuleResult(aes, key, encrypt, data) == BoundResult(aes, key, encrypt, data))
            <==> |key| == BLOCK
    ensures (forall data :: ModuleResult(aes, key, encrypt, data) == ReferenceResult(aes, key, encrypt, data))
            <==> |key| == BLOCK
    ensures (forall data :: BoundResult(aes, key, encrypt, data) == ReferenceResult(aes, key, encrypt, data))
            <==> |key| !in {24, 32}
  {
    if |key| != BLOCK {
      var block: Buffer := seq(16, _ => 0);
      DifferAt(aes, key, encrypt, block);
      assert !Agree(aes, key, encrypt, []);
      assert BoundResult(aes, key, encrypt, []) == Err;
      assert AesTakes(key) ==> ModuleResult(aes, key, encrypt, block) != ReferenceResult(aes, key, encrypt, block);
    }
  }

  /** Data of whole blocks leaves nothing for RC4. */
  lemma WholeCrypt(aes: Aes, key: Buffer, encrypt: bool, data: Buffer)
    requires key != [] && |data| % 16 == 0
    ensures Crypt(aes, key, encrypt, data) == Blocks(aes, key, encrypt, data)
  {
    var blocks := Blocks(aes, key, encrypt, data);
    assert Rest(data) == [] && Rc4(key, []) == [] && blocks + [] == blocks;
  }

  /** The module functions `encrypt` and `decrypt` (`_transform` over fresh per-call setup): they refuse a key that is
      not 16 bytes only once there is a whole block, and an empty key only for what is left. */
  method Transform(aes: Aes, data: Buffer, key: Buffer, encrypt: bool) returns (r: Result<Buffer>)
    ensures r == ModuleResult(aes, key, encrypt, data)
    ensures |key| == BLOCK ==> r == Ok(Crypt(aes, key, encrypt, data))
    ensures r.Ok? <==> |key| == BLOCK || (|data| < 16 && (key != [] || data == []))
    ensures r.Ok? && |key| != BLOCK ==> r.value == if data == [] then [] else Rc4(key, data)
  {
    var blocks, rem := |data| / 16, |data| % 16;
    var out: Buffer := [];
    for b := 0 to blocks
      invariant |key| == BLOCK || b == 0
      invariant out == Blocks(aes, key, encrypt, data[..16 * b])
    {
      var block := AesBlock(aes, key, data[16 * b..16 * b + 16], encrypt);
      if block.Err? {
        return Err;
      }
      BlocksTo(aes, key, encrypt, data, b);
      out := out + block.value;
    }
    BlocksWhole(aes, key, encrypt, data);
    assert data[16 * blocks..] == Rest(data);
    var tail: Buffer := [];
    if rem != 0 {
      var ksa := RunKsa(key);
      if ksa.Err? {
        return Err;
      }
      tail := RunPrga(ksa.value, data[16 * blocks..]);
    }
    r := Ok(out + tail);
    TransformDone(aes, key, encrypt, data, out, tail);
  }

  lemma TransformDone(aes: Aes, key: Buffer, encrypt: bool, data: Buffer, out: Buffer, tail: Buffer)
    requires |key| == BLOCK || |data| < 16
    requires out == Blocks(aes, key, encrypt, data)
    requires if |data| % 16 == 0 then tail == [] else key != [] && tail == Rc4(key, Rest(data))
    ensures ModuleResult(aes, key, encrypt, data) == Ok(out + tail)
  {
    if |key| == BLOCK {
      if |data| % 16 == 0 {
        WholeCrypt(aes, key, encrypt, data);
        assert out + tail == out;
      }
    } else {
      ShortRest(data);
      ShortDone(aes, key, encrypt, data, out, tail);
    }
  }

  lemma ShortRest(data: Buffer)
    requires |data| < 16
    ensures |data| % 16 == |data| && Rest(data) == data
  {
  }

  lemma ShortDone(aes: Aes, key: Buffer, encrypt: bool, data: Buffer, out: Buffer, tail: Buffer)
    requires |key| != BLOCK && |data| < 16 && out == []
    requires if data == [] then tail == [] else key != [] && tail == Rc4(key, data)
    ensures ModuleResult(aes, key, encrypt, data) == Ok(out + tail)
  {
    assert out + tail == tail;
  }

  lemma {:induction false} BlocksWhole(aes: Aes, key: Buffer, encrypt: bool, data: Buffer)
    ensures Blocks(aes, key, encrypt, data[..16 * (|data| / 16)]) == Blocks(aes, key, encrypt, data)
    decreases |data|
  {
    if |data| < 16 {
    } else {
      var n := |data| / 16;
      BlocksWhole(aes, key, encrypt, data[16..]);
      assert data[..16 * n][16..] == data[16..][..16 * (n - 1)];
      assert data[..16 * n][..16] == data[..16];
    }
  }

  /** A cipher bound to one key: the schedule is computed once, and each call works on a copy of it. */
  class FrameCipher {
    const aes: Aes
    const key: Buffer
    var ksa: Buffer

    ghost predicate Valid()
      reads this
    {
      |key| == BLOCK && ksa == Ksa(key, 256).0
    }

    constructor (aes: Aes, key: Buffer)
      requires |key| == BLOCK
      ensures Valid() && this.aes == aes && this.key == key
    {
      this.aes, this.key, this.ksa := aes, key, [];
      new;
      var schedule := RunKsa(key);
      ksa := schedule.value;
    }

    method Run(data: Buffer, encrypt: bool) returns (out: Buffer)
      requires Valid()
      ensures out == Crypt(aes, key, encrypt, data)
    {
      var blocks := |data| / 16;
      out := [];
      for b := 0 to blocks
        invariant out == Blocks(aes, key, encrypt, data[..16 * b])
      {
        var block := AesBlock(aes, key, data[16 * b..16 * b + 16], encrypt);
        BlocksTo(aes, key, encrypt, data, b);
        out := out + block.value;
      }
      BlocksWhole(aes, key, encrypt, data);
      assert data[16 * blocks..] == Rest(data);
      if |data| % 16 != 0 {
        var rest := RunPrga(ksa, data[16 * blocks..]);
        out := out + rest;
      }
    }
  }

  /** FrameCipher's constructor: refuses a key that is not 16 bytes, whatever is encrypted later. */
  method BindKey(aes: Aes, key: Buffer) returns (r: Result<FrameCipher>)
    ensures r.Ok? <==> |key| == BLOCK
    ensures r.Ok? ==> r.value.Valid() && r.value.aes == aes && r.value.key == key
  {
    if |key| != BLOCK {
      return Err;
    }
    var cipher := new FrameCipher(aes, key);
    r := Ok(cipher);
  }

  /** A cipher bound for one call. */
  method RunBound(aes: Aes, data: Buffer, key: Buffer, encrypt: bool) returns (r: Result<Buffer>)
    ensures r == BoundResult(aes, key, encrypt, data)
  {
    var bound := BindKey(aes, key);
    if bound.Err? {
      return Err;
    }
    var out := bound.value.Run(data, encrypt);
    r := Ok(out);
  }

  /** The reference codec: AES is set up with the key before any byte is read. */
  method CryptV1(aes: Aes, buf: Buffer, key: Buffer, encrypt: bool) returns (r: Result<Buffer>)
    ensures r == ReferenceResult(aes, key, encrypt, buf)
  {
    if !AesTakes(key) {
      return Err;
    }
    var out: Buffer := [];
    var blocks := |buf| / 16;
    for i := 0 to blocks
      invariant out == Blocks(aes, key, encrypt, buf[..16 * i])
    {
      var b := buf[i * 16..i * 16 + 16];
      BlocksTo(aes, key, encrypt, buf, i);
      out := out + if encrypt then aes.encrypt(key, b) else aes.decrypt(key, b);
    }
    BlocksWhole(aes, key, encrypt, buf);
    assert buf[16 * blocks..] == Rest(buf);
    if |buf| % 16 != 0 {
      var rest := ReferenceRc4(buf[16 * blocks..], key);
      out := out + rest;
    } else {
      WholeCrypt(aes, key, encrypt, buf);
    }
    r := Ok(out);
  }
}

/** SHA-256. First the function FIPS 180-4 defines (section 5.1.1 padding, section 6.2
    hash computation), then the buffered incremental hasher that the store uses. */
module Sha256 {
  import opened Types

  type Word = bv32
  type Hash = h: seq<Word> | |h| == 8 witness [0, 0, 0, 0, 0, 0, 0, 0]

  /** The round constants, eight to a row. */
  const K0: seq<Word> := [0x428a2f98, 0x71374491, 0xb5c0fbcf, 0xe9b5dba5, 0x3956c25b, 0x59f111f1, 0x923f82a4, 0xab1c5ed5]
  const K1: seq<Word> := [0xd807aa98, 0x12835b01, 0x243185be, 0x550c7dc3, 0x72be5d74, 0x80deb1fe, 0x9bdc06a7, 0xc19bf174]
  const K2: seq<Word> := [0xe49b69c1, 0xefbe4786, 0x0fc19dc6, 0x240ca1cc, 0x2de92c6f, 0x4a7484aa, 0x5cb0a9dc, 0x76f988da]
  const K3: seq<Word> := [0x983e5152, 0xa831c66d, 0xb00327c8, 0xbf597fc7, 0xc6e00bf3, 0xd5a79147, 0x06ca6351, 0x14292967]
  const K4: seq<Word> := [0x27b70a85, 0x2e1b2138, 0x4d2c6dfc, 0x53380d13, 0x650a7354, 0x766a0abb, 0x81c2c92e, 0x92722c85]
  const K5: seq<Word> := [0xa2bfe8a1, 0xa81a664b, 0xc24b8b70, 0xc76c51a3, 0xd192e819, 0xd6990624, 0xf40e3585, 0x106aa070]
  const K6: seq<Word> := [0x19a4c116, 0x1e376c08, 0x2748774c, 0x34b0bcb5, 0x391c0cb3, 0x4ed8aa4a, 0x5b9cca4f, 0x682e6ff3]
  const K7: seq<Word> := [0x748f82ee, 0x78a5636f, 0x84c87814, 0x8cc70208, 0x90befffa, 0xa4506ceb, 0xbef9a3f7, 0xc67178f2]
  const K: seq<Word> := K0 + K1 + K2 + K3 + K4 + K5 + K6 + K7

  const H0: Hash := [
    0x6a09e667, 0xbb67ae85, 0x3c6ef372, 0xa54ff53a, 0x510e527f, 0x9b05688c, 0x1f83d9ab, 0x5be0cd19
  ]

  // ----- FIPS 180-4, section 4.1.2: the logical functions -----

  /** Addition modulo 2^32. */
  function Add(x: Word, y: Word): Word { x + y }

  function Ch(x: Word, y: Word, z: Word): Word { (x & y) ^ (!x & z) }
  function Maj(x: Word, y: Word, z: Word): Word { (x & y) ^ (x & z) ^ (y & z) }
  function BigSigma0(x: Word): Word { x.RotateRight(2) ^ x.RotateRight(13) ^ x.RotateRight(22) }
  function BigSigma1(x: Word): Word { x.RotateRight(6) ^ x.RotateRight(11) ^ x.RotateRight(25) }
  function SmallSigma0(x: Word): Word { x.RotateRight(7) ^ x.RotateRight(18) ^ (x >> 3) }
  function SmallSigma1(x: Word): Word { x.RotateRight(17) ^ x.RotateRight(19) ^ (x >> 10) }

  // ----- FIPS 180-4, section 6.2.2: one block -----

  function WordAt(block: Bytes, at: nat): Word
    requires at + 4 <= |block|
  {
    ((block[at] as bv32) << 24) | ((block[at + 1] as bv32) << 16)
    | ((block[at + 2] as bv32) << 8) | (block[at + 3] as bv32)
  }

  /** W_t, the message schedule. */
  function Schedule(block: Bytes, t: nat): Word
    requires |block| == 64 && t < 64
  {
    if t < 16 then WordAt(block, 4 * t)
    else Add(Add(Add(Schedule(block, t - 16), SmallSigma0(Schedule(block, t - 15))),
                 Schedule(block, t - 7)), SmallSigma1(Schedule(block, t - 2)))
  }

  lemma ScheduleWord(block: Bytes, t: nat)
    requires |block| == 64 && t < 64
    ensures t < 16 ==> Schedule(block, t) == WordAt(block, 4 * t)
    ensures t >= 16 ==> Schedule(block, t) ==
                        Add(Add(Add(Schedule(block, t - 16), SmallSigma0(Schedule(block, t - 15))),
                                Schedule(block, t - 7)), SmallSigma1(Schedule(block, t - 2)))
  {
    hide Add, WordAt, SmallSigma0, SmallSigma1;
  }

  datatype Working = Working(a: Word, b: Word, c: Word, d: Word, e: Word, f: Word, g: Word, h: Word)

  function Load(h: Hash): Working { Working(h[0], h[1], h[2], h[3], h[4], h[5], h[6], h[7]) }

  function T1(v: Working, k: Word, w: Word): Word {
    Add(Add(Add(Add(v.h, BigSigma1(v.e)), Ch(v.e, v.f, v.g)), k), w)
  }

  function T2(v: Working): Word { Add(BigSigma0(v.a), Maj(v.a, v.b, v.c)) }

  function Round(v: Working, k: Word, w: Word): Working {
    Working(Add(T1(v, k, w), T2(v)), v.a, v.b, v.c, Add(v.d, T1(v, k, w)), v.e, v.f, v.g)
  }

  /** The working variables after rounds 0 .. t-1. */
  function Rounds(v: Working, block: Bytes, t: nat): Working
    requires |block| == 64 && t <= |block|
  {
    if t == 0 then v else KLength(); Round(Rounds(v, block, t - 1), K[t - 1], Schedule(block, t - 1))
  }

  function AddInto(h: Hash, v: Working): Hash {
    [Add(h[0], v.a), Add(h[1], v.b), Add(h[2], v.c), Add(h[3], v.d),
     Add(h[4], v.e), Add(h[5], v.f), Add(h[6], v.g), Add(h[7], v.h)]
  }

  function CompressBlock(h: Hash, block: Bytes): Hash
    requires |block| == 64
  {
    AddInto(h, Rounds(Load(h), block, |block|))
  }

  lemma KLength() ensures |K| == 64 {}

  // ----- FIPS 180-4, sections 5.1.1 and 6.2: a whole message -----

  /** H^(n): the hash value after the first `n` blocks of a message. */
  function HashAfter(m: Bytes, n: nat): Hash
    requires 64 * n <= |m|
  {
    if n == 0 then H0 else CompressBlock(HashAfter(m, n - 1), m[64 * (n - 1)..64 * n])
  }

  function Zeros(n: nat): (r: Bytes)
    ensures |r| == n
  {
    seq(n, _ => 0)
  }

  /** The number of zero bytes after the 0x80 marker: the least that leaves room for the length. */
  function ZeroCount(len: nat): (k: nat)
    ensures k < 64 && (len + 1 + k) % 64 == 56
  {
    (119 - len % 64) % 64
  }

  function Pad(m: Bytes): Bytes
    requires 8 * |m| < 0x1_0000_0000_0000_0000
  {
    m + [0x80] + Zeros(ZeroCount(|m|)) + BigEndian(8 * |m|, 8)
  }

  function WordBytes(w: Word): (r: Bytes)
    ensures |r| == 4
  {
    var n := w as int;
    [n / 0x100_0000 % 256, n / 0x1_0000 % 256, n / 0x100 % 256, n % 256]
  }

  function HashBytes(h: seq<Word>): (r: Bytes)
    ensures |r| == 4 * |h|
  {
    if h == [] then [] else HashBytes(h[..|h| - 1]) + WordBytes(h[|h| - 1])
  }

  function Sum(m: Bytes): (digest: Bytes)
    requires 8 * |m| < 0x1_0000_0000_0000_0000
    ensures |digest| == 32
  {
    var p := Pad(m);
    HashBytes(HashAfter(p, |p| / 64))
  }

  /** H^(n) depends on the first n blocks only. */
  lemma {:induction false} HashAfterPrefix(m: Bytes, more: Bytes, n: nat)
    requires 64 * n <= |m|
    ensures HashAfter(m + more, n) == HashAfter(m, n)
  {
    hide CompressBlock;
    if n > 0 {
      HashAfterPrefix(m, more, n - 1);
      assert (m + more)[64 * (n - 1)..64 * n] == m[64 * (n - 1)..64 * n];
    }
  }

  // ----- the incremental hasher -----

  class Hasher {
    const state: array<Word>
    const buffer: array<Byte>
    var bufferLen: nat
    var totalLen: U64
    /** Everything fed so far: the message. */
    ghost var fed: Bytes

    /** How many whole blocks of it the state has absorbed. */
    ghost var blocks: nat

    ghost predicate Valid()
      reads this, state, buffer
    {
      && Holds(fed)
      && |fed| == 64 * blocks + bufferLen
      && totalLen == |fed| % 0x1_0000_0000_0000_0000
    }

    /** The state has absorbed the first `blocks` blocks of `message` and the buffer holds what follows. */
    ghost predicate Holds(message: Bytes)
      reads this`bufferLen, this`blocks, state, buffer
    {
      && state.Length == 8 && buffer.Length == 64 && bufferLen < 64
      && 64 * blocks + bufferLen <= |message|
      && state[..] == HashAfter(message, blocks)
      && buffer[..bufferLen] == message[64 * blocks..64 * blocks + bufferLen]
    }

    constructor ()
      ensures Valid() && fed == []
      ensures fresh(state) && fresh(buffer)
    {
      state := new Word[8](i requires 0 <= i < 8 => H0[i]);
      buffer := new Byte[64](_ => 0);
      bufferLen, totalLen, fed, blocks := 0, 0, [], 0;
      new;
      assert state[..] == H0;
    }

    /** The 64 words of the message schedule. */
    static method ExpandSchedule(block: seq<Byte>) returns (w: array<Word>)
      requires |block| == 64
      ensures fresh(w) && w.Length == 64
      ensures forall j :: 0 <= j < 64 ==> w[j] == Schedule(block, j)
    {
      hide Add, WordAt, SmallSigma0, SmallSigma1, Schedule;
      w := new Word[64](_ => 0);
      for i := 0 to 16
        invariant forall j :: 0 <= j < i ==> w[j] == Schedule(block, j)
      {
        ScheduleWord(block, i);
        w[i] := WordAt(block, 4 * i);
      }
      for i := 16 to 64
        invariant w.Length == 64
        invariant forall j :: 0 <= j < i ==> w[j] == Schedule(block, j)
      {
        ScheduleWord(block, i);
        var s0 := SmallSigma0(w[i - 15]);
        var s1 := SmallSigma1(w[i - 2]);
        w[i] := Add(Add(Add(w[i - 16], s0), w[i - 7]), s1);
      }
    }

    /** Replace the state by its compression with one block. */
    method Compress(block: seq<Byte>)
      requires |block| == 64 && state.Length == 8
      modifies state
      ensures state[..] == CompressBlock(old(state[..]), block)
    {
      hide Add, AddInto, Schedule, Ch, Maj, BigSigma0, BigSigma1;
      KLength();
      var w := ExpandSchedule(block);
      var a, b, c, d := state[0], state[1], state[2], state[3];
      var e, f, g, h := state[4], state[5], state[6], state[7];
      for i := 0 to |block|
        invariant forall j :: 0 <= j < 64 ==> w[j] == Schedule(block, j)
        invariant Working(a, b, c, d, e, f, g, h) == Rounds(Load(state[..]), block, i)
        invariant state[..] == old(state[..])
      {
        var s1 := BigSigma1(e);
        var ch := Ch(e, f, g);
        var t1 := Add(Add(Add(Add(h, s1), ch), K[i]), w[i]);
        var s0 := BigSigma0(a);
        var maj := Maj(a, b, c);
        var t2 := Add(s0, maj);
        h := g;
        g := f;
        f := e;
        e := Add(d, t1);
        d := c;
        c := b;
        b := a;
        a := Add(t1, t2);
      }
      AddToState(a, b, c, d, e, f, g, h);
    }

    method AddToState(a: Word, b: Word, c: Word, d: Word, e: Word, f: Word, g: Word, h: Word)
      requires state.Length == 8
      modifies state
      ensures state[..] == AddInto(old(state[..]), Working(a, b, c, d, e, f, g, h))
    {
      hide Add;
      var sum := [Add(state[0], a), Add(state[1], b), Add(state[2], c), Add(state[3], d),
                  Add(state[4], e), Add(state[5], f), Add(state[6], g), Add(state[7], h)];
      forall i | 0 <= i < 8 {
        state[i] := sum[i];
      }
      assert state[..] == sum;
    }

    /** Feed more of the message. However it is cut, the hasher stands for the whole of it. */
    method Update(input: seq<Byte>)
      requires Valid()
      modifies this, state, buffer
      ensures Valid() && fed == old(fed) + input
    {
      hide CompressBlock, HashAfter, Holds;
      var data := input;
      totalLen := (totalLen + |data|) % 0x1_0000_0000_0000_0000;
      TotalLength(|fed|, |input|);
      HoldsLonger(input);
      fed := fed + input;
      BufferShort();
      assert data == fed[64 * blocks + bufferLen..];
      if bufferLen > 0 {
        data := TopUp(data);
      }
      data := WholeBlocks(data);
      if data != [] {
        KeepTail(data);
      }
    }

    lemma HoldsLonger(more: Bytes)
      requires Holds(fed)
      ensures Holds(fed + more)
    {
      hide CompressBlock, HashAfter;
      HashAfterPrefix(fed, more, blocks);
      assert (fed + more)[64 * blocks..64 * blocks + bufferLen] == fed[64 * blocks..64 * blocks + bufferLen];
    }

    lemma BufferShort()
      requires Holds(fed)
      ensures bufferLen < 64 && 64 * blocks + bufferLen <= |fed|
    {}

    /** Buffer the tail that does not fill a block. */
    method KeepTail(data: seq<Byte>)
      requires Holds(fed) && bufferLen == 0 && |data| < 64
      requires 64 * blocks + |data| == |fed| && data == fed[64 * blocks..]
      modifies this`bufferLen, buffer
      ensures Holds(fed) && 64 * blocks + bufferLen == |fed|
    {
      hide CompressBlock, HashAfter;
      Fill(data);
      assert buffer[..bufferLen] == data;
    }

    /** Append to the buffer. */
    method Fill(data: seq<Byte>)
      requires buffer.Length == 64 && bufferLen + |data| <= 64
      modifies this`bufferLen, buffer
      ensures bufferLen == old(bufferLen) + |data|
      ensures buffer[..bufferLen] == old(buffer[..bufferLen]) + data
    {
      forall i | bufferLen <= i < bufferLen + |data| {
        buffer[i] := data[i - bufferLen];
      }
      bufferLen := bufferLen + |data|;
    }

    /** Complete the partial block, and compress it once it is full. */
    method TopUp(data: seq<Byte>) returns (rest: seq<Byte>)
      requires Holds(fed) && bufferLen > 0
      requires 64 * blocks + bufferLen + |data| == |fed| && data == fed[64 * blocks + bufferLen..]
      modifies this`bufferLen, this`blocks, state, buffer
      ensures Holds(fed)
      ensures 64 * blocks + bufferLen + |rest| == |fed| && rest == fed[64 * blocks + bufferLen..]
      ensures rest != [] ==> bufferLen == 0
    {
      hide CompressBlock;
      ghost var kept := bufferLen;
      var take := if 64 - bufferLen <= |data| then 64 - bufferLen else |data|;
      Fill(data[..take]);
      rest := data[take..];
      assert data[..take] == fed[64 * blocks + kept..64 * blocks + kept + take];
      assert buffer[..bufferLen] == fed[64 * blocks..64 * blocks + bufferLen];
      if bufferLen == 64 {
        CompressBuffer();
      }
    }

    method CompressBuffer()
      requires state.Length == 8 && buffer.Length == 64 && bufferLen == 64
      requires 64 * blocks + 64 <= |fed| && state[..] == HashAfter(fed, blocks)
      requires buffer[..] == fed[64 * blocks..64 * blocks + 64]
      modifies this`bufferLen, this`blocks, state
      ensures Holds(fed) && blocks == old(blocks) + 1 && bufferLen == 0
    {
      hide CompressBlock;
      var block := buffer[..];
      Compress(block);
      blocks := blocks + 1;
      bufferLen := 0;
    }

    /** Compress the whole blocks of `data` directly. */
    method WholeBlocks(input: seq<Byte>) returns (data: seq<Byte>)
      requires Holds(fed)
      requires 64 * blocks + bufferLen + |input| == |fed| && input == fed[64 * blocks + bufferLen..]
      requires input != [] ==> bufferLen == 0
      modifies this`blocks, state
      ensures Holds(fed) && |data| < 64
      ensures 64 * blocks + bufferLen + |data| == |fed| && data == fed[64 * blocks + bufferLen..]
      ensures data != [] ==> bufferLen == 0
    {
      hide CompressBlock;
      data := input;
      while |data| >= 64
        invariant Holds(fed)
        invariant 64 * blocks + bufferLen + |data| == |fed| && data == fed[64 * blocks + bufferLen..]
        invariant data != [] ==> bufferLen == 0
      {
        var fixed := data[..64];
        assert fixed == fed[64 * blocks..64 * blocks + 64];
        Compress(fixed);
        blocks := blocks + 1;
        data := data[64..];
      }
    }

    static lemma TotalLength(n: nat, k: nat)
      ensures (n % 0x1_0000_0000_0000_0000 + k) % 0x1_0000_0000_0000_0000 == (n + k) % 0x1_0000_0000_0000_0000
    {}

    static lemma BitLength(len: nat, total: nat)
      requires len < 0x2000_0000_0000_0000 && total == len % 0x1_0000_0000_0000_0000
      ensures total * 8 % 0x1_0000_0000_0000_0000 == 8 * len
    {}

    /** The buffer fills to 56 bytes after exactly ZeroCount zeros, never earlier. */
    static lemma PaddingLeft(len: nat, zeros: nat, blocks: nat, kept: nat)
      requires zeros <= ZeroCount(len) && len + 1 + zeros == 64 * blocks + kept && kept < 64
      ensures kept == 56 <==> zeros == ZeroCount(len)
    {}

    /** Append zeros until eight bytes of the block are left. */
    method PadZeros(ghost len: nat)
      requires Valid() && |fed| == len + 1
      modifies this, state, buffer
      ensures Valid() && fed == old(fed) + Zeros(ZeroCount(len)) && bufferLen == 56
    {
      hide CompressBlock, HashAfter, Holds, ZeroCount;
      ghost var start := fed;
      ghost var zeros := 0;
      while bufferLen != 56
        invariant Valid() && fed == start + Zeros(zeros)
        invariant zeros <= ZeroCount(len)
        decreases ZeroCount(len) - zeros
      {
        BufferShort();
        PaddingLeft(len, zeros, blocks, bufferLen);
        Update([0]);
        zeros := zeros + 1;
        assert Zeros(zeros) == Zeros(zeros - 1) + [0];
      }
      BufferShort();
      PaddingLeft(len, zeros, blocks, bufferLen);
    }

    /** Append the marker, the zeros and the length. */
    method PadMessage()
      requires Valid() && |fed| < 0x2000_0000_0000_0000
      modifies this, state, buffer
      ensures Valid() && fed == Pad(old(fed)) && |fed| == 64 * blocks
    {
      hide CompressBlock, HashAfter, Holds, ZeroCount, BigEndian;
      ghost var m := fed;
      var bitLen := totalLen * 8 % 0x1_0000_0000_0000_0000;
      Update([0x80]);
      PadZeros(|m|);
      BitLength(|m|, |m| % 0x1_0000_0000_0000_0000);
      Update(BigEndian(bitLen, 8));
      BufferShort();
    }

    /** Pad, absorb the rest and read the digest out: the one-shot function of the whole message. */
    method Finish() returns (out: seq<Byte>)
      requires Valid() && |fed| < 0x2000_0000_0000_0000
      modifies this, state, buffer
      ensures out == Sum(old(fed))
    {
      hide CompressBlock, HashAfter, Pad, WordBytes;
      PadMessage();
      assert blocks == |fed| / 64;
      out := [];
      for i := 0 to 8
        invariant out == HashBytes(state[..i])
      {
        out := out + WordBytes(state[i]);
        assert state[..i + 1][..i] == state[..i];
      }
      assert state[..8] == state[..];
    }
  }
}

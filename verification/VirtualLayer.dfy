/**
 * A synthetic image layer of any size, readable at any offset without being stored: a tar header, a payload that is the
 * keystream of a block cipher in counter mode (section 6.5 of NIST SP 800-38A), padding and two zero blocks. Every
 * read must return the matching slice of one fixed byte string.
 */
module VirtualLayer {
  import opened Prelude

  type byte = bv8

  const BLOCK := 16
  const TAR_BLOCK := 512

  // ----- Counter blocks -----

  /** The last `n` base-256 digits of `v`, most significant first. */
  function Digits(v: nat, n: nat): (s: seq<int>)
    ensures |s| == n
  {
    if n == 0 then [] else Digits(v / 256, n - 1) + [v % 256]
  }

  /** One more, modulo 256 to the length, carrying from the last digit. */
  function Increment(s: seq<int>): (r: seq<int>)
    ensures |r| == |s|
  {
    if s == [] then []
    else if s[|s| - 1] < 255 then s[..|s| - 1] + [s[|s| - 1] + 1]
    else Increment(s[..|s| - 1]) + [0]
  }

  lemma {:induction false} IncrementAddsOne(v: nat, n: nat)
    ensures Increment(Digits(v, n)) == Digits(v + 1, n)
  {
    if n > 0 {
      assert Digits(v, n)[..n - 1] == Digits(v / 256, n - 1);
      if v % 256 < 255 {
        assert (v + 1) / 256 == v / 256 && (v + 1) % 256 == v % 256 + 1;
      } else {
        assert (v + 1) / 256 == v / 256 + 1 && (v + 1) % 256 == 0;
        IncrementAddsOne(v / 256, n - 1);
      }
    }
  }

  function Power(n: nat): nat {
    if n == 0 then 1 else 256 * Power(n - 1)
  }

  /** Padding a number that fits in `n` digits on the left with zeros does not change it. */
  lemma {:induction false} LeadingZeros(v: nat, n: nat, zeros: nat)
    requires v < Power(n)
    ensures Digits(v, n + zeros) == seq(zeros, i => 0) + Digits(v, n)
  {
    if n > 0 {
      assert v / 256 < Power(n - 1);
      LeadingZeros(v / 256, n - 1, zeros);
      assert seq(zeros, i => 0) + Digits(v, n) == (seq(zeros, i => 0) + Digits(v / 256, n - 1)) + [v % 256];
    } else if zeros > 0 {
      LeadingZeros(0, 0, zeros - 1);
      assert seq(zeros, i => 0) == seq(zeros - 1, i => 0) + [0];
    }
  }

  // ----- Keystream -----

  type Cipher = seq<int> -> seq<byte>

  ghost predicate IsCipher(block: Cipher) {
    forall t: seq<int> :: |t| == BLOCK ==> |block(t)| == BLOCK
  }

  /** Byte `k` of the keystream whose counter blocks are the numbers 0, 1, 2, ... */
  ghost function KeyByte(block: Cipher, k: nat): byte
    requires IsCipher(block)
  {
    block(Digits(k / BLOCK, BLOCK))[k % BLOCK]
  }

  lemma KeyByteAt(block: Cipher, n: nat, i: nat)
    requires IsCipher(block) && i < BLOCK
    ensures KeyByte(block, BLOCK * n + i) == block(Digits(n, BLOCK))[i]
  {
    assert (BLOCK * n + i) / BLOCK == n && (BLOCK * n + i) % BLOCK == i;
  }

  /** A keystream generator started at a counter block, producing one output block at a time. */
  class CtrStream {
    const block: Cipher
    var counter: seq<int>
    var out: seq<byte>
    var used: nat
    ghost var blocks: nat
    ghost const base: nat

    ghost predicate Valid()
      reads this
    {
      && IsCipher(block) && used <= BLOCK && |out| == BLOCK
      && counter == Digits(base + blocks, BLOCK)
      && (used < BLOCK ==> blocks > 0 && out == block(Digits(base + blocks - 1, BLOCK)))
      && BLOCK <= BLOCK * blocks + used
    }

    /** The position of the next byte in the keystream that starts at counter zero. */
    ghost function Position(): nat
      requires Valid()
      reads this
    {
      BLOCK * (base + blocks) + used - BLOCK
    }

    constructor (block: Cipher, iv: seq<int>, ghost base: nat)
      requires IsCipher(block) && iv == Digits(base, BLOCK)
      ensures Valid() && this.block == block && Position() == BLOCK * base
    {
      this.block, counter, out, used := block, iv, seq(BLOCK, i => 0), BLOCK;
      this.blocks, this.base := 0, base;
    }

    /** The next keystream byte. */
    method Take() returns (key: byte)
      requires Valid()
      modifies this
      ensures Valid() && key == KeyByte(block, old(Position())) && Position() == old(Position()) + 1
    {
      hide KeyByte, Digits, Increment;
      if used == BLOCK {
        out := block(counter);
        IncrementAddsOne(base + blocks, BLOCK);
        counter := Increment(counter);
        used, blocks := 0, blocks + 1;
      }
      KeyByteAt(block, base + blocks - 1, used);
      key := out[used];
      used := used + 1;
    }

    method XorKeyStream(p: array<byte>, lo: nat, hi: nat)
      requires Valid() && lo <= hi <= p.Length
      modifies this, p
      ensures Valid() && Position() == old(Position()) + hi - lo
      ensures forall i | 0 <= i < p.Length ::
                p[i] == if lo <= i < hi then old(p[i]) ^ KeyByte(block, old(Position()) + i - lo) else old(p[i])
    {
      hide KeyByte, Digits, IsCipher;
      var i := lo;
      while i < hi
        invariant lo <= i <= hi && Valid() && Position() == old(Position()) + i - lo
        invariant forall j | 0 <= j < p.Length ::
                    p[j] == if lo <= j < i then old(p[j]) ^ KeyByte(block, old(Position()) + j - lo) else old(p[j])
      {
        var key := Take();
        p[i] := p[i] ^ key;
        i := i + 1;
      }
    }
  }

  // ----- The layer -----

  datatype Layer = Layer(header: seq<byte>, payloadBytes: int64, size: int64, block: Cipher)

  /** What brings the payload to a whole number of tar blocks. */
  function Padding(payloadBytes: int): (r: int)
    ensures 0 <= r < TAR_BLOCK && (payloadBytes + r) % TAR_BLOCK == 0
  {
    (TAR_BLOCK - payloadBytes % TAR_BLOCK) % TAR_BLOCK
  }

  ghost predicate Valid(layer: Layer) {
    && IsCipher(layer.block) && layer.payloadBytes >= 0
    && layer.size as int == |layer.header| + layer.payloadBytes as int + Padding(layer.payloadBytes as int) + 2 * TAR_BLOCK
  }

  /** The one byte string the layer stands for. */
  ghost function ByteAt(layer: Layer, i: nat): byte
    requires IsCipher(layer.block)
  {
    if i < |layer.header| then layer.header[i]
    else if i < |layer.header| + layer.payloadBytes as int then KeyByte(layer.block, i - |layer.header|)
    else 0
  }

  ghost function Slice(layer: Layer, from: nat, to: nat): (s: seq<byte>)
    requires IsCipher(layer.block) && from <= to
    ensures |s| == to - from && forall i | 0 <= i < |s| :: s[i] == ByteAt(layer, from + i)
  {
    seq(to - from, i requires 0 <= i < to - from => ByteAt(layer, from + i))
  }

  ghost function Content(layer: Layer): seq<byte>
    requires Valid(layer)
  {
    Slice(layer, 0, layer.size as int)
  }

  datatype ReadError = NegativeOffset | Eof

  method Clear(p: array<byte>, n: nat)
    requires n <= p.Length
    modifies p
    ensures forall i | 0 <= i < p.Length :: p[i] == if i < n then 0 else old(p[i])
  {
    var i := 0;
    while i < n
      invariant i <= n && forall j | 0 <= j < p.Length :: p[j] == if j < i then 0 else old(p[j])
    {
      p[i] := 0;
      i := i + 1;
    }
  }

  /** Copies as much of the header from `offset` on as fits into the first `n` bytes. */
  method CopyHeader(p: array<byte>, n: nat, header: seq<byte>, offset: nat) returns (copied: nat)
    requires n <= p.Length && offset <= |header|
    modifies p
    ensures copied == if n <= |header| - offset then n else |header| - offset
    ensures forall i | 0 <= i < p.Length :: p[i] == if i < copied then header[offset + i] else old(p[i])
  {
    copied := 0;
    while copied < n && copied < |header| - offset
      invariant copied <= n && copied <= |header| - offset
      invariant forall i | 0 <= i < p.Length :: p[i] == if i < copied then header[offset + i] else old(p[i])
    {
      p[copied] := header[offset + copied];
      copied := copied + 1;
    }
  }

  /** Xors the payload's keystream from `offset` on into p[lo..hi]: start at its block, then skip within the block. */
  method FillPayload(layer: Layer, p: array<byte>, lo: nat, hi: nat, offset: int64)
    requires IsCipher(layer.block) && lo <= hi <= p.Length && offset >= 0
    modifies p
    ensures forall i | 0 <= i < p.Length ::
              p[i] == if lo <= i < hi then old(p[i]) ^ KeyByte(layer.block, offset as int + i - lo) else old(p[i])
  {
    hide KeyByte, Digits, Power;
    var first, within := offset as int / BLOCK, offset as int % BLOCK;
    var counter := seq(8, i => 0) + Digits(first, 8);
    EightDigits(first);
    var stream := new CtrStream(layer.block, counter, first);
    var skip := new byte[BLOCK](i => 0);
    stream.XorKeyStream(skip, 0, within);
    stream.XorKeyStream(p, lo, hi);
  }

  /** The counter of any offset an int64 can hold fits in the low half of the block. */
  lemma EightDigits(v: nat)
    requires v <= MAX_INT64
    ensures seq(8, i => 0) + Digits(v, 8) == Digits(v, BLOCK)
  {
    assert Power(8) == 0x1_0000_0000_0000_0000 by {
      assert Power(2) == 65536;
      assert Power(4) == 65536 * 65536;
      assert Power(6) == 65536 * Power(4);
      assert Power(8) == 65536 * Power(6);
    }
    LeadingZeros(v, 8, 8);
  }

  /**
   * Reads at any offset into a buffer of any length: exactly the matching slice of the content, end of file exactly when
   * the content runs out, nothing beyond the bytes read touched. Every 64-bit sum and difference on the way is in range.
   */
  method ReadAt(layer: Layer, p: array<byte>, offset: int64) returns (n: nat, err: Option<ReadError>)
    requires Valid(layer) && p.Length <= MAX_INT64
    modifies p
    ensures offset < 0 ==> n == 0 && err == Some(NegativeOffset)
    ensures offset >= 0 ==> n == if p.Length == 0 || offset >= layer.size then 0 else Min(p.Length, layer.size as int - offset as int)
    ensures offset >= 0 ==> err == if p.Length > 0 && n < p.Length then Some(Eof) else None
    ensures offset >= 0 ==> p[..n] == Slice(layer, offset as int, offset as int + n)
    ensures p[n..] == old(p[n..])
  {
    hide KeyByte, Padding;
    if offset < 0 {
      return 0, Some(NegativeOffset);
    }
    if p.Length == 0 {
      return 0, None;
    }
    if offset >= layer.size {
      return 0, Some(Eof);
    }
    n := Min(p.Length, (layer.size - offset) as int);
    Clear(p, n);
    var lo, at := 0, offset;
    var headerEnd := |layer.header| as int64;
    if at < headerEnd {
      lo := CopyHeader(p, n, layer.header, at as int);
      at := at + lo as int64;
    }
    if lo < n && at < headerEnd + layer.payloadBytes {
      var payloadOffset := at - headerEnd;
      var payloadLen := Min(n - lo, (layer.payloadBytes - payloadOffset) as int);
      FillPayload(layer, p, lo, lo + payloadLen, payloadOffset);
    }
    if n < p.Length {
      return n, Some(Eof);
    }
    return n, None;
  }

  lemma SlicesJoin(layer: Layer, a: nat, b: nat, c: nat)
    requires IsCipher(layer.block) && a <= b <= c
    ensures Slice(layer, a, b) + Slice(layer, b, c) == Slice(layer, a, c)
  {
  }

  /** Hashing a layer feeds exactly its content to the digest, whatever the length of the buffer. */
  method HashedBytes(layer: Layer, buffer: array<byte>) returns (written: seq<byte>)
    requires Valid(layer) && 0 < buffer.Length <= MAX_INT64
    modifies buffer
    ensures written == Content(layer)
  {
    hide ByteAt, KeyByte;
    written := [];
    var offset: int64 := 0;
    while offset < layer.size
      invariant 0 <= offset <= layer.size && written == Slice(layer, 0, offset as int)
      decreases layer.size - offset
    {
      var n, _ := ReadAt(layer, buffer, offset);
      SlicesJoin(layer, 0, offset as int, offset as int + n);
      written := written + buffer[..n];
      offset := offset + n as int64;
    }
  }

  // ----- Sizes -----

  const MAX_PAYLOAD: int := MAX_INT64 - 4096

  datatype SizeError = NotPositive | PayloadTooLarge | JitterTooLarge

  /** The spread around the configured size; `product` is the rounded-down product of size and jitter. */
  method Jitter(layerBytes: int64, product: int64) returns (r: Outcome<int64, SizeError>)
    requires product >= 0
    ensures r.Err? <==> layerBytes <= 0 || layerBytes as int > MAX_PAYLOAD ||
                        layerBytes as int + Min(product as int, layerBytes as int - 1) > MAX_PAYLOAD
    ensures r.Ok? ==> r.value as int == Min(product as int, layerBytes as int - 1)
  {
    if layerBytes <= 0 {
      return Err(NotPositive);
    }
    if layerBytes as int > MAX_PAYLOAD {
      return Err(PayloadTooLarge);
    }
    var delta := product;
    if delta >= layerBytes {
      delta := layerBytes - 1;
    }
    if delta > (MAX_PAYLOAD as int64) - layerBytes {
      return Err(JitterTooLarge);
    }
    return Ok(delta);
  }

  /** The payload of one layer, from 64 bits of a hash: no step wraps, and it is positive and small enough for a tar. */
  method PayloadBytes(layerBytes: int64, delta: int64, hash: uint64) returns (n: int64)
    requires 0 <= delta < layerBytes && layerBytes as int + delta as int <= MAX_PAYLOAD
    ensures layerBytes as int - delta as int <= n as int <= layerBytes as int + delta as int
    ensures 1 <= n as int <= MAX_PAYLOAD
    ensures n as int == layerBytes as int - delta as int + hash as int % (2 * delta as int + 1)
  {
    var spread := 2 * (delta as uint64) + 1;
    var extra := (hash % spread) as int64;
    n := layerBytes - delta + extra;
  }

  /** Accepted sizes never overflow, and the whole archive is a whole number of tar blocks. */
  method NewVirtualLayer(header: seq<byte>, payloadBytes: int64, block: Cipher) returns (layer: Layer)
    requires IsCipher(block) && 0 <= payloadBytes as int <= MAX_PAYLOAD
    requires |header| + 2 * TAR_BLOCK + TAR_BLOCK <= 4096 && |header| % TAR_BLOCK == 0
    ensures Valid(layer) && layer.header == header && layer.payloadBytes == payloadBytes && layer.block == block
    ensures layer.size as int % TAR_BLOCK == 0
  {
    var padding: int64 := (512 - payloadBytes % 512) % 512;
    layer := Layer(header, payloadBytes, |header| as int64 + payloadBytes + padding + 1024, block);
  }
}

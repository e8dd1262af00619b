/**
 * Reading one WebSocket frame of at most 2 MiB into pooled, size-classed buffers. The reader behind it is a script of
 * chunks; whatever the chunks and however the buffer grows, the result is a fold over the script. Buffers are arrays,
 * lent by the pool to one owner at a time.
 */
module FrameReader {
  import opened Prelude

  type byte = bv8

  const MAX_FRAME := 2 * 1024 * 1024
  const CLASSES := 9
  const MIN_BUFFER := 8 * 1024
  const MAX_EMPTY := 100

  function ClassSize(i: nat): nat {
    if i == 0 then MIN_BUFFER else 2 * ClassSize(i - 1)
  }

  lemma {:induction false} ClassSizesGrow(i: nat, j: nat)
    requires i < j
    ensures ClassSize(i) < ClassSize(j)
  {
    if i < j - 1 {
      ClassSizesGrow(i, j - 1);
    }
    ClassSizeIsPositive(j - 1);
  }

  lemma ClassSizeIsPositive(i: nat)
    ensures ClassSize(i) > 0
  {
  }

  lemma LargestClass()
    ensures ClassSize(CLASSES - 1) == MAX_FRAME
  {
  }

  // ----- The reader and what a frame read means -----

  datatype ReadError = Eof | Broken | NoProgress | TooBig

  /** What the connection hands over at once; a chunk longer than the space offered arrives in pieces. */
  datatype Chunk = Chunk(data: seq<byte>, err: Option<ReadError>)

  /** The outcome of reading `rest` after `got`, with `empties` reads in a row having returned nothing. */
  function Fold(rest: seq<Chunk>, got: seq<byte>, empties: nat): Outcome<seq<byte>, ReadError>
    decreases |rest|
  {
    if rest == [] then Ok(got)
    else
      var Chunk(data, err) := rest[0];
      if |got| + |data| > MAX_FRAME then Err(TooBig)
      else if err == Some(Eof) then Ok(got + data)
      else if err.Some? then Err(err.value)
      else if data != [] then Fold(rest[1..], got + data, 0)
      else if empties + 1 >= MAX_EMPTY then Err(NoProgress)
      else Fold(rest[1..], got, empties + 1)
  }

  /** Everything up to the end of the message. */
  function Joined(rest: seq<Chunk>): seq<byte> {
    if rest == [] then [] else if rest[0].err.Some? then rest[0].data else rest[0].data + Joined(rest[1..])
  }

  /** The message ends properly, with never a hundred empty reads in a row on the way. */
  predicate Flows(rest: seq<Chunk>, empties: nat) {
    if rest == [] then true
    else if rest[0].err.Some? then rest[0].err == Some(Eof)
    else if rest[0].data != [] then Flows(rest[1..], 0)
    else empties + 1 < MAX_EMPTY && Flows(rest[1..], empties + 1)
  }

  /** A message that flows is returned whole when it fits, and is too big exactly when it has a byte more. */
  lemma {:induction false} WholeOrTooBig(rest: seq<Chunk>, got: seq<byte>, empties: nat)
    requires Flows(rest, empties) && |got| <= MAX_FRAME
    ensures Fold(rest, got, empties) == if |got| + |Joined(rest)| <= MAX_FRAME then Ok(got + Joined(rest)) else Err(TooBig)
    decreases |rest|
  {
    if rest == [] {
      assert got + [] == got;
    } else if |got| + |rest[0].data| <= MAX_FRAME && rest[0].err.None? {
      WholeOrTooBig(rest[1..], got + rest[0].data, if rest[0].data != [] then 0 else empties + 1);
      assert got + rest[0].data + Joined(rest[1..]) == got + Joined(rest);
      assert rest[0].data == [] ==> got + rest[0].data == got;
    }
  }

  /** A message is delivered only if it flows and fits; in particular nothing is ever truncated or reordered. */
  lemma {:induction false} DeliveredIsWhole(rest: seq<Chunk>, got: seq<byte>, empties: nat)
    requires |got| <= MAX_FRAME && Fold(rest, got, empties).Ok?
    ensures Flows(rest, empties) && Fold(rest, got, empties).value == got + Joined(rest) && |got + Joined(rest)| <= MAX_FRAME
    decreases |rest|
  {
    if rest == [] {
      assert got + [] == got;
    } else if rest[0].err.None? {
      assert rest[0].data == [] ==> got + rest[0].data == got;
      DeliveredIsWhole(rest[1..], got + rest[0].data, if rest[0].data != [] then 0 else empties + 1);
      assert got + rest[0].data + Joined(rest[1..]) == got + Joined(rest);
    }
  }

  /** What is left of the script after a read that took `n` bytes of its first chunk. */
  function Rest(rest: seq<Chunk>, n: nat): seq<Chunk>
    requires rest != [] && n <= |rest[0].data|
  {
    if n < |rest[0].data| then [rest[0].(data := rest[0].data[n..])] + rest[1..] else rest[1..]
  }

  class ScriptReader {
    var rest: seq<Chunk>

    /** Fills p[lo..hi] with as much of the next chunk as fits, writing only the bytes it reports. */
    method Read(p: array<byte>, lo: nat, hi: nat) returns (n: nat, err: Option<ReadError>)
      requires lo < hi <= p.Length
      modifies this, p
      ensures n <= hi - lo
      ensures forall i | 0 <= i < p.Length && !(lo <= i < lo + n) :: p[i] == old(p[i])
      ensures old(rest) == [] ==> n == 0 && err == Some(Eof) && rest == []
      ensures old(rest) != [] ==>
                && n == Min(hi - lo, |old(rest)[0].data|) && p[lo..lo + n] == old(rest)[0].data[..n]
                && err == (if n == |old(rest)[0].data| then old(rest)[0].err else None) && rest == Rest(old(rest), n)
    {
      if rest == [] {
        return 0, Some(Eof);
      }
      var chunk := rest[0];
      n := 0;
      while n < hi - lo && n < |chunk.data|
        invariant n <= hi - lo && n <= |chunk.data| && rest == old(rest)
        invariant forall i | 0 <= i < p.Length :: p[i] == if lo <= i < lo + n then chunk.data[i - lo] else old(p[i])
      {
        p[lo + n] := chunk.data[n];
        n := n + 1;
      }
      rest := Rest(rest, n);
      err := if n == |chunk.data| then chunk.err else None;
    }
  }

  /** Taking part of a chunk, or a whole one without an error, leaves the outcome as it was. */
  lemma FoldAfterRead(rest: seq<Chunk>, got: seq<byte>, empties: nat, n: nat)
    requires rest != [] && 0 < n <= |rest[0].data| && |got| + n <= MAX_FRAME && (n == |rest[0].data| ==> rest[0].err.None?)
    ensures Fold(rest, got, empties) == Fold(Rest(rest, n), got + rest[0].data[..n], 0)
  {
    var chunk := rest[0];
    if n < |chunk.data| {
      var more := Rest(rest, n);
      assert more[1..] == rest[1..];
      assert got + chunk.data[..n] + chunk.data[n..] == got + chunk.data;
    } else {
      assert chunk.data[..n] == chunk.data;
    }
  }

  // ----- The pool -----

  ghost function Members(classes: seq<seq<array<byte>>>): set<array<byte>> {
    set i, j | 0 <= i < |classes| && 0 <= j < |classes[i]| :: classes[i][j]
  }

  /** Idle buffers of one class: all of its size, no two the same. */
  ghost predicate IsClass(buffers: seq<array<byte>>, size: nat, perClass: nat) {
    && |buffers| <= perClass
    && (forall j | 0 <= j < |buffers| :: buffers[j].Length == size)
    && (forall j, k | 0 <= j < k < |buffers| :: buffers[j] != buffers[k])
  }

  /** A goroutine, by the buffers in its hands; only getting and putting changes them. */
  class Holder {
    ghost var held: set<array<byte>>
  }

  class BufferPool {
    const perClass: nat
    var classes: seq<seq<array<byte>>>
    /** The buffers currently in someone's hands. */
    ghost var lent: set<array<byte>>

    ghost predicate Valid()
      reads this
    {
      && |classes| == CLASSES
      && (forall i | 0 <= i < CLASSES :: IsClass(classes[i], ClassSize(i), perClass))
      && Members(classes) !! lent
    }

    ghost function Buffers(): set<array<byte>>
      reads this
    {
      Members(classes) + lent
    }

    constructor (perClass: nat)
      ensures Valid() && this.perClass == perClass && Buffers() == {} && fresh(this)
    {
      this.perClass := perClass;
      classes := seq(CLASSES, i => []);
      lent := {};
    }

    /** A buffer of the smallest class that holds `size`; requests up to the frame limit never panic. */
    method Get(h: Holder, size: nat) returns (data: array<byte>)
      requires Valid() && size <= MAX_FRAME
      modifies this, h
      ensures Valid() && data !in old(lent) && lent == old(lent) + {data} && (data in old(Members(classes)) || fresh(data))
      ensures IsClassSize(data.Length) && size <= data.Length && (data.Length == MIN_BUFFER || data.Length < 2 * size)
      ensures Members(classes) == old(Members(classes)) - {data} && h.held == old(h.held) + {data}
    {
      LargestClass();
      var i := 0;
      while ClassSize(i) < size
        invariant i < CLASSES && (i > 0 ==> ClassSize(i - 1) < size)
        decreases CLASSES - i
      {
        if i == CLASSES - 1 {
          assert false;
        }
        i := i + 1;
      }
      if classes[i] != [] {
        data := classes[i][0];
        TakeFirst(classes, i, perClass);
        classes := classes[i := classes[i][1..]];
      } else {
        data := new byte[ClassSize(i)];
      }
      lent, h.held := lent + {data}, h.held + {data};
    }

    /** Gives a buffer up: it becomes idle if its class has room and is dropped otherwise. Giving up nothing does nothing. */
    method Put(h: Holder, data: array?<byte>)
      requires Valid() && (data == null || (data in lent && data in h.held))
      modifies this, h
      ensures Valid() && Buffers() <= old(Buffers()) && old(Members(classes)) <= Members(classes)
      ensures if data == null then unchanged(this, h) else lent == old(lent) - {data} && h.held == old(h.held) - {data}
    {
      if data == null {
        return;
      }
      lent, h.held := lent - {data}, h.held - {data};
      var i := 0;
      while i < CLASSES && data.Length != ClassSize(i)
        invariant i <= CLASSES
      {
        i := i + 1;
      }
      if i < CLASSES && |classes[i]| < perClass {
        AddLast(classes, i, perClass, data);
        classes := classes[i := classes[i] + [data]];
      }
    }

    /**
     * Whatever other goroutines do with the pool meanwhile. A caller can rely on this contract alone: the pool and any
     * buffer but its own may change in any way that keeps the pool valid and its own buffers its own.
     */
    method Yield(h: Holder)
      requires Valid() && h.held <= lent
      modifies this, Buffers() - h.held
      ensures Valid() && h.held <= lent && fresh(Buffers() - old(Buffers()))
    {
    }

    /** Moves the first `n` bytes to a buffer of the next class and gives the old buffer up. */
    method Grow(h: Holder, data: array<byte>, n: nat) returns (larger: array<byte>)
      requires Valid() && h.held <= lent && data in h.held && n == data.Length && IsClassSize(data.Length) && n < MAX_FRAME
      modifies this, h, Buffers() - h.held
      ensures Valid() && h.held <= lent && data !in lent && fresh(Buffers() - old(Buffers()))
      ensures larger !in old(h.held) && h.held == old(h.held) - {data} + {larger}
      ensures IsClassSize(larger.Length) && n < larger.Length && larger[..n] == data[..n]
    {
      hide IsClass, ClassSize, IsClassSize;
      NextClass(data.Length);
      larger := Get(h, data.Length * 2);
      Yield(h);
      var i := 0;
      while i < n
        invariant i <= n && larger[..i] == data[..i]
        modifies larger
      {
        larger[i] := data[i];
        i := i + 1;
      }
      Yield(h);
      Put(h, data);
    }

    /** One read of the loop: into the space that is left, growing first if there is none, or a probe past the limit. */
    method Round(h: Holder, data: array<byte>, len: nat, ghost empties: nat, reader: ScriptReader)
      returns (data': array<byte>, n: nat, err: Option<ReadError>)
      requires Valid() && h.held <= lent && data in h.held && IsClassSize(data.Length) && len <= data.Length
      modifies this, h, data, Buffers() - h.held, reader
      ensures Valid() && h.held <= lent && fresh(Buffers() - old(Buffers())) && IsClassSize(data'.Length)
      ensures data' !in old(h.held) - {data} && h.held == old(h.held) - {data} + {data'}
      ensures var rest, got := old(reader.rest), old(data[..len]);
              if len == MAX_FRAME && n != 0 then Fold(rest, got, empties) == Err(TooBig)
              else len + n <= data'.Length && Fold(rest, got, empties) == Continued(reader.rest, data'[..len + n], empties, n, err)
    {
      hide Fold, ClassSize, IsClass;
      SizesAreFrames(data.Length);
      Yield(h);
      data' := data;
      if len < MAX_FRAME && len == data.Length {
        data' := Grow(h, data, len);
        SizesAreFrames(data'.Length);
      }
      ghost var rest, got := reader.rest, data'[..len];
      ghost var space := if len == MAX_FRAME then 1 else data'.Length - len;
      if len == MAX_FRAME {
        n, err := reader.Read(data', 0, 1);
      } else {
        n, err := reader.Read(data', len, data'.Length);
      }
      Advance(rest, got, empties, space, n, err, reader.rest);
      if len < MAX_FRAME || n == 0 {
        assert data'[..len + n] == got + (if rest == [] then [] else rest[0].data[..n]);
      }
      Yield(h);
    }

    /**
     * Reads one frame. On success the goroutine holds one buffer more, whose first `len` bytes are exactly what the
     * script amounts to; on failure the error is the script's and the goroutine holds what it held before. It ends because
     * each round takes bytes or uses up one of the hundred empty reads, whatever the reader does.
     */
    method ReadFrame(h: Holder, reader: ScriptReader) returns (r: Outcome<Frame, ReadError>)
      requires Valid() && h.held <= lent
      modifies this, h, Buffers() - h.held, reader
      ensures Valid() && h.held <= lent && fresh(Buffers() - old(Buffers()))
      ensures if r.Err? then h.held == old(h.held) else r.value.data !in old(h.held) && h.held == old(h.held) + {r.value.data}
      ensures r.Ok? ==> r.value.data !in Members(classes) && r.value.len <= r.value.data.Length
      ensures Fold(old(reader.rest), [], 0) == if r.Ok? then Ok(r.value.data[..r.value.len]) else Err(r.error)
    {
      hide Fold, IsClassSize, IsClass, ClassSize;
      var data := Get(h, MIN_BUFFER);
      var len, empties := 0, 0;
      assert data[..len] == [];
      while true
        invariant Valid() && h.held <= lent && fresh(Buffers() - old(Buffers()))
        invariant data !in old(h.held) && h.held == old(h.held) + {data}
        invariant IsClassSize(data.Length) && len <= data.Length && len <= MAX_FRAME && empties < MAX_EMPTY
        invariant Fold(reader.rest, data[..len], empties) == Fold(old(reader.rest), [], 0)
        decreases MAX_FRAME - len, MAX_EMPTY - empties
      {
        var n, err;
        data, n, err := Round(h, data, len, empties, reader);
        if len == MAX_FRAME && n != 0 {
          Put(h, data);
          return Err(TooBig);
        }
        SizesAreFrames(data.Length);
        len := len + n;
        if err == Some(Eof) {
          return Ok(Frame(data, len));
        }
        if err.Some? {
          Put(h, data);
          return Err(err.value);
        }
        if n > 0 {
          empties := 0;
        } else {
          empties := empties + 1;
          if empties >= MAX_EMPTY {
            Put(h, data);
            return Err(NoProgress);
          }
        }
      }
    }
  }

  /** What a read that reported `n` and `err` leaves of the outcome. */
  function Continued(rest: seq<Chunk>, got: seq<byte>, empties: nat, n: nat, err: Option<ReadError>): Outcome<seq<byte>, ReadError> {
    if err == Some(Eof) then Ok(got)
    else if err.Some? then Err(err.value)
    else if n > 0 then Fold(rest, got, 0)
    else if empties + 1 >= MAX_EMPTY then Err(NoProgress)
    else Fold(rest, got, empties + 1)
  }

  datatype Frame = Frame(data: array<byte>, len: nat)

  ghost predicate IsClassSize(size: nat) {
    exists i: nat :: i < CLASSES && size == ClassSize(i)
  }

  lemma SizesAreFrames(size: nat)
    requires IsClassSize(size)
    ensures 0 < size <= MAX_FRAME
  {
    var i: nat :| i < CLASSES && size == ClassSize(i);
    LargestClass();
    ClassSizeIsPositive(i);
    if i < CLASSES - 1 {
      ClassSizesGrow(i, CLASSES - 1);
    }
  }

  lemma NextClass(size: nat)
    requires IsClassSize(size) && size < MAX_FRAME
    ensures 0 < size && size * 2 <= MAX_FRAME && IsClassSize(size * 2)
  {
    var i: nat :| i < CLASSES && size == ClassSize(i);
    LargestClass();
    ClassSizeIsPositive(i);
    assert ClassSize(i + 1) == size * 2;
    if i + 1 < CLASSES - 1 {
      ClassSizesGrow(i + 1, CLASSES - 1);
    }
  }

  /** What one read into `space` bytes tells of the outcome. */
  lemma Advance(rest: seq<Chunk>, got: seq<byte>, empties: nat, space: nat, n: nat, err: Option<ReadError>, after: seq<Chunk>)
    requires |got| <= MAX_FRAME && space > 0 && (if |got| == MAX_FRAME then space == 1 else |got| + space <= MAX_FRAME)
    requires rest == [] ==> n == 0 && err == Some(Eof)
    requires rest != [] ==> n == Min(space, |rest[0].data|) && err == (if n == |rest[0].data| then rest[0].err else None) && after == Rest(rest, n)
    ensures var more := if rest == [] then [] else rest[0].data[..n];
            Fold(rest, got, empties) ==
            if |got| == MAX_FRAME && n != 0 then Err(TooBig) else Continued(after, got + more, empties, n, err)
  {
    if rest == [] {
      assert got + [] == got;
    } else {
      assert n == |rest[0].data| ==> rest[0].data[..n] == rest[0].data;
      if n > 0 && err.None? && |got| + n <= MAX_FRAME {
        FoldAfterRead(rest, got, empties, n);
      }
      assert rest[0].data == [] ==> got + rest[0].data[..n] == got;
    }
  }

  // ----- Idle memory -----

  ghost function IdleBytes(classes: seq<seq<array<byte>>>, n: nat): nat
    requires n <= |classes|
  {
    if n == 0 then 0 else IdleBytes(classes, n - 1) + |classes[n - 1]| * ClassSize(n - 1)
  }

  lemma {:induction false} IdleIsBounded(classes: seq<seq<array<byte>>>, perClass: nat, n: nat)
    requires AreClasses(classes, perClass) && n <= CLASSES
    ensures IdleBytes(classes, n) <= perClass * (ClassSize(n) - MIN_BUFFER)
  {
    if n > 0 {
      IdleIsBounded(classes, perClass, n - 1);
      assert IsClass(classes[n - 1], ClassSize(n - 1), perClass);
      MoreIdle(|classes[n - 1]|, perClass, ClassSize(n - 1));
    }
  }

  lemma MoreIdle(a: nat, b: nat, size: nat)
    requires a <= b
    ensures b * (size - MIN_BUFFER) + a * size <= b * (2 * size - MIN_BUFFER)
  {
    assert b * (2 * size - MIN_BUFFER) == b * (size - MIN_BUFFER) + b * size;
    assert (b - a) * size >= 0;
  }

  /** With sixteen buffers a class, idle buffers never take up 64 MiB. */
  lemma IdleStaysBelow64MiB(classes: seq<seq<array<byte>>>)
    requires AreClasses(classes, 16)
    ensures IdleBytes(classes, CLASSES) < 64 * 1024 * 1024
  {
    LargestClass();
    IdleIsBounded(classes, 16, CLASSES);
  }

  ghost predicate AreClasses(classes: seq<seq<array<byte>>>, perClass: nat) {
    |classes| == CLASSES && forall i | 0 <= i < CLASSES :: IsClass(classes[i], ClassSize(i), perClass)
  }

  lemma ClassOf(classes: seq<seq<array<byte>>>, i: nat, perClass: nat, data: array<byte>, j: nat, k: nat)
    requires AreClasses(classes, perClass) && i < CLASSES && data.Length == ClassSize(i) && j < CLASSES && k < |classes[j]| && classes[j][k] == data
    ensures j == i
  {
    assert IsClass(classes[j], ClassSize(j), perClass);
    if j < i {
      ClassSizesGrow(j, i);
    } else if i < j {
      ClassSizesGrow(i, j);
    }
  }

  lemma TakeFirst(classes: seq<seq<array<byte>>>, i: nat, perClass: nat)
    requires AreClasses(classes, perClass) && i < CLASSES && classes[i] != []
    ensures var after := classes[i := classes[i][1..]];
            AreClasses(after, perClass) && Members(after) == Members(classes) - {classes[i][0]} && classes[i][0] in Members(classes)
  {
    hide ClassSize;
    var after, data := classes[i := classes[i][1..]], classes[i][0];
    assert IsClass(classes[i], ClassSize(i), perClass);
    forall j | 0 <= j < CLASSES ensures IsClass(after[j], ClassSize(j), perClass) {
      assert IsClass(classes[j], ClassSize(j), perClass);
    }
    forall b | b in Members(after) ensures b in Members(classes) - {data} {
      var j, k :| 0 <= j < |after| && 0 <= k < |after[j]| && after[j][k] == b;
      if j == i {
        assert classes[j][k + 1] == b;
      } else {
        assert classes[j][k] == b;
        if b == data {
          ClassOf(classes, i, perClass, data, j, k);
        }
      }
    }
    forall b | b in Members(classes) - {data} ensures b in Members(after) {
      var j, k :| 0 <= j < |classes| && 0 <= k < |classes[j]| && classes[j][k] == b;
      if j == i {
        assert after[j][k - 1] == b;
      } else {
        assert after[j][k] == b;
      }
    }
  }

  lemma AddLast(classes: seq<seq<array<byte>>>, i: nat, perClass: nat, data: array<byte>)
    requires AreClasses(classes, perClass) && i < CLASSES && |classes[i]| < perClass && data.Length == ClassSize(i) && data !in Members(classes)
    ensures var after := classes[i := classes[i] + [data]];
            AreClasses(after, perClass) && Members(after) == Members(classes) + {data}
  {
    hide ClassSize;
    var after := classes[i := classes[i] + [data]];
    assert IsClass(classes[i], ClassSize(i), perClass);
    forall j | 0 <= j < CLASSES ensures IsClass(after[j], ClassSize(j), perClass) {
      assert IsClass(classes[j], ClassSize(j), perClass);
      if j == i {
        forall k | 0 <= k < |classes[i]| ensures classes[i][k] != data {
          assert classes[i][k] in Members(classes);
        }
      }
    }
    forall b | b in Members(after) ensures b in Members(classes) + {data} {
      var j, k :| 0 <= j < |after| && 0 <= k < |after[j]| && after[j][k] == b;
      if k < |classes[j]| {
        assert classes[j][k] == b;
      }
    }
    forall b | b in Members(classes) + {data} ensures b in Members(after) {
      if b == data {
        assert after[i][|classes[i]|] == b;
      } else {
        var j, k :| 0 <= j < |classes| && 0 <= k < |classes[j]| && classes[j][k] == b;
        assert after[j][k] == b;
      }
    }
  }
}

/**
 * Reading one object as consecutive byte ranges, several at a time: workers claim range numbers from a shared counter,
 * rotate them, and copy each range, resuming a failed copy at its first unwritten byte. A run is any interleaving of the
 * workers' steps with cancellation; what the sink received is the multiset of byte positions written to it.
 */
module RangedRead {
  import opened Prelude

  datatype Config = Config(size: int, rangeBytes: int, rotate: int, parallel: int, retries: int)

  /** Truncating division, for a positive divisor. */
  function TruncDiv(a: int, b: int): int
    requires b > 0
  {
    if a >= 0 then a / b else -((-a) / b)
  }

  function Ranges(size: int, rangeBytes: int): int
    requires rangeBytes > 0
  {
    TruncDiv(Wrap(size + rangeBytes - 1), rangeBytes)
  }

  ghost predicate Sane(cfg: Config) {
    0 <= cfg.size <= MAX_INT64 && 0 < cfg.rangeBytes <= MAX_INT64 && -MAX_INT64 - 1 <= cfg.rotate <= MAX_INT64
  }

  /** The range count does not wrap. */
  ghost predicate CountFits(cfg: Config) {
    Sane(cfg) && cfg.size + cfg.rangeBytes - 1 <= MAX_INT64
  }

  /** Rotating by `rotate` maps `n` indices to all of `n` ranges: it is not negative and no sum wraps, or the one that
      does wraps to a multiple of `n`. */
  predicate RotationFits(rotate: int, n: int) {
    || n <= 1
    || (0 <= rotate && rotate + n - 1 <= MAX_INT64)
    || (0 <= rotate && rotate + n - 1 == MAX_INT64 + 1 && (MAX_INT64 + 1) % n == 0)
  }

  ghost predicate Rotatable(cfg: Config) {
    CountFits(cfg) && RotationFits(cfg.rotate, Ranges(cfg.size, cfg.rangeBytes))
  }

  ghost function Count(cfg: Config): nat
    requires CountFits(cfg)
  {
    Ranges(cfg.size, cfg.rangeBytes)
  }

  /** The range a claimed index stands for. */
  ghost function Slot(cfg: Config, index: nat): nat
    requires CountFits(cfg) && Count(cfg) > 0
  {
    (index + cfg.rotate) % Count(cfg)
  }

  ghost function Start(cfg: Config, index: nat): nat
    requires CountFits(cfg) && Count(cfg) > 0
  {
    Slot(cfg, index) * cfg.rangeBytes
  }

  ghost function End(cfg: Config, index: nat): int
    requires CountFits(cfg) && Count(cfg) > 0
  {
    Min(Start(cfg, index) + cfg.rangeBytes, cfg.size)
  }

  // ----- Every byte lies in exactly one range -----

  lemma CountIsCeiling(cfg: Config)
    requires CountFits(cfg)
    ensures (Count(cfg) - 1) * cfg.rangeBytes < cfg.size <= Count(cfg) * cfg.rangeBytes || cfg.size == Count(cfg) == 0
  {
    var q, r := (cfg.size + cfg.rangeBytes - 1) / cfg.rangeBytes, (cfg.size + cfg.rangeBytes - 1) % cfg.rangeBytes;
    assert cfg.size + cfg.rangeBytes - 1 == q * cfg.rangeBytes + r;
    assert (q - 1) * cfg.rangeBytes == q * cfg.rangeBytes - cfg.rangeBytes;
  }

  /** The index whose range holds byte `b`. */
  ghost function IndexOf(cfg: Config, b: nat): nat
    requires CountFits(cfg) && Count(cfg) > 0
  {
    (b / cfg.rangeBytes - cfg.rotate) % Count(cfg)
  }

  lemma ModAdd(a: int, b: int, m: int)
    requires m > 0
    ensures (a % m + b) % m == (a + b) % m
  {
    var q := a / m;
    assert a == q * m + a % m;
    assert a + b == q * m + (a % m + b);
    ModMultiple(a % m + b, q, m);
  }

  lemma ModMultiple(a: int, k: int, m: int)
    requires m > 0
    ensures (k * m + a) % m == a % m
  {
    var q, r := a / m, a % m;
    assert k * m + a == (k + q) * m + r;
    ModUnique(k * m + a, k + q, r, m);
  }

  lemma ModUnique(a: int, q: int, r: int, m: int)
    requires m > 0 && a == q * m + r && 0 <= r < m
    ensures a % m == r && a / m == q
  {
    var q', r' := a / m, a % m;
    assert a == q' * m + r';
    assert (q - q') * m == r' - r;
    Small(q - q', m);
  }

  lemma Small(k: int, m: int)
    requires m > 0 && -m < k * m < m
    ensures k == 0
  {
    if k >= 1 {
      Larger(k, 1, m);
    }
    if k <= -1 {
      Larger(-1, k, m);
    }
  }

  lemma Larger(a: int, b: int, m: int)
    requires m > 0 && a >= b
    ensures a * m >= b * m
  {
    assert (a - b) * m >= 0;
  }

  /** Rotation is a bijection: among the indices below the count, byte `b` lies in the range of exactly one. */
  lemma OneRange(cfg: Config, index: nat, b: nat)
    requires CountFits(cfg) && b < cfg.size && index < Count(cfg)
    ensures Count(cfg) > 0 && IndexOf(cfg, b) < Count(cfg)
    ensures Start(cfg, index) <= b < End(cfg, index) <==> index == IndexOf(cfg, b)
  {
    CountIsCeiling(cfg);
    hide Ranges, CountFits, RotationFits;
    var n, slot := Count(cfg), b / cfg.rangeBytes;
    SlotIsInRange(cfg, b);
    InSlot(cfg, Slot(cfg, index), b);
    if index == IndexOf(cfg, b) {
      ModAdd(slot - cfg.rotate, cfg.rotate, n);
      ModUnique(slot, 0, slot, n);
    }
    if Slot(cfg, index) == slot {
      ModAdd(index + cfg.rotate, -cfg.rotate, n);
      ModUnique(index, 0, index, n);
    }
  }

  lemma SlotIsInRange(cfg: Config, b: nat)
    requires CountFits(cfg) && b < cfg.size
    ensures b / cfg.rangeBytes < Count(cfg)
  {
    CountIsCeiling(cfg);
    var slot := b / cfg.rangeBytes;
    if slot >= Count(cfg) {
      Larger(slot, Count(cfg), cfg.rangeBytes);
    }
  }

  lemma InSlot(cfg: Config, slot: nat, b: nat)
    requires CountFits(cfg) && b < cfg.size
    ensures slot * cfg.rangeBytes <= b < slot * cfg.rangeBytes + cfg.rangeBytes <==> slot == b / cfg.rangeBytes
  {
    var q, r := b / cfg.rangeBytes, b % cfg.rangeBytes;
    assert b == q * cfg.rangeBytes + r;
    if slot * cfg.rangeBytes <= b < slot * cfg.rangeBytes + cfg.rangeBytes {
      ModUnique(b, slot, b - slot * cfg.rangeBytes, cfg.rangeBytes);
    }
  }

  // ----- Workers -----

  datatype Worker =
    | Claiming
    | Got(index: nat)
    | Copying(index: nat, offset: int, attempt: nat)
    | Retrying(index: nat, offset: int, attempt: nat)
    | Waiting(index: nat, offset: int, attempt: nat)
    | Failing
    | Done

  /**
   * `sent` holds every byte position written to the sink. `marks` and `tries` record, for each range begun, how far it
   * has been written and how many attempts it took; `finished` are the indices copied without error.
   */
  datatype State = State(next: nat, total: int, failed: bool, cancelled: bool, parentDone: bool, resumes: nat, workers: map<nat, Worker>,
                         sent: multiset<int>, marks: map<nat, int>, tries: map<nat, nat>, finished: set<nat>)

  datatype Event =
    | Claim(w: nat)
    | Look(w: nat)
    | Attempt(w: nat, n: nat, ok: bool)
    | Check(w: nat)
    | Wake(w: nat, timer: bool)
    | Fail(w: nat)
    | CancelParent

  function GoMod(a: int, m: int): int
    requires m > 0
  {
    a - TruncDiv(a, m) * m
  }

  /** The bounds of the range a claimed index stands for, as the 64-bit code computes them. */
  function StartOf(cfg: Config, index: nat): int
    requires cfg.rangeBytes > 0 && Ranges(cfg.size, cfg.rangeBytes) > 0
  {
    Wrap(GoMod(Wrap(index + cfg.rotate), Ranges(cfg.size, cfg.rangeBytes)) * cfg.rangeBytes)
  }

  function EndOf(cfg: Config, index: nat): int
    requires cfg.rangeBytes > 0 && Ranges(cfg.size, cfg.rangeBytes) > 0
  {
    Min(Wrap(StartOf(cfg, index) + cfg.rangeBytes), cfg.size)
  }

  predicate InLoop(worker: Worker) {
    worker.Copying? || worker.Retrying? || worker.Waiting?
  }

  ghost predicate Enabled(cfg: Config, s: State, e: Event) {
    && Sane(cfg)
    && match e
       case Claim(w) => w in s.workers && s.workers[w].Claiming?
       case Look(w) => w in s.workers && s.workers[w].Got?
       case Attempt(w, _, _) => w in s.workers && s.workers[w].Copying? && Ranges(cfg.size, cfg.rangeBytes) > 0 && s.workers[w].index in s.tries
       case Check(w) => w in s.workers && s.workers[w].Retrying?
       case Wake(w, timer) => w in s.workers && s.workers[w].Waiting? && (!timer ==> s.cancelled)
       case Fail(w) => w in s.workers && s.workers[w].Failing?
       case CancelParent => true
  }

  /** The `n` byte positions from `from` on. */
  function Bytes(from: int, n: nat): multiset<int> {
    if n == 0 then multiset{} else Bytes(from, n - 1) + multiset{from + n - 1}
  }

  ghost function Next(cfg: Config, s: State, e: Event): State
    requires Enabled(cfg, s, e)
  {
    match e
    case Claim(w) => s.(next := s.next + 1, workers := s.workers[w := Got(s.next)])
    case Look(w) =>
      var i := s.workers[w].index;
      if i >= Ranges(cfg.size, cfg.rangeBytes) || s.cancelled then s.(workers := s.workers[w := Done])
      else
        var start := StartOf(cfg, i);
        s.(workers := s.workers[w := Copying(i, start, 0)], marks := s.marks[i := start], tries := s.tries[i := 0])
    case Attempt(w, n, ok) =>
      var Copying(i, offset, attempt) := s.workers[w];
      var done := ok && offset + n == EndOf(cfg, i);
      s.(sent := s.sent + Bytes(offset, n), total := s.total + n, marks := s.marks[i := offset + n], tries := s.tries[i := s.tries[i] + 1],
         finished := if done then s.finished + {i} else s.finished,
         workers := s.workers[w := if done then Claiming else Retrying(i, offset + n, attempt)])
    case Check(w) =>
      var Retrying(i, offset, attempt) := s.workers[w];
      if s.cancelled || attempt >= cfg.retries then s.(workers := s.workers[w := Failing])
      else s.(resumes := s.resumes + 1, workers := s.workers[w := Waiting(i, offset, attempt)])
    case Wake(w, timer) =>
      var Waiting(i, offset, attempt) := s.workers[w];
      s.(workers := s.workers[w := if timer then Copying(i, offset, attempt + 1) else Failing])
    case Fail(w) => s.(failed := true, cancelled := true, workers := s.workers[w := Done])
    case CancelParent => s.(parentDone := true, cancelled := true)
  }

  datatype Outcome = Pending | Failed(total: int) | Succeeded(total: int)

  /** What the caller gets once every worker has returned. */
  ghost function Result(s: State): Outcome {
    if exists w :: w in s.workers && !s.workers[w].Done? then Pending
    else if s.failed || s.parentDone then Failed(s.total)
    else Succeeded(s.total)
  }

  function Width(cfg: Config): nat {
    if cfg.parallel < 1 then 1 else cfg.parallel
  }

  ghost predicate Initial(cfg: Config, s: State) {
    && s.next == 0 && s.total == 0 && !s.failed && !s.cancelled && !s.parentDone && s.resumes == 0
    && s.sent == multiset{} && s.marks == map[] && s.tries == map[] && s.finished == {}
    && (forall w: nat :: w in s.workers <==> w < Width(cfg))
    && (forall w | w in s.workers :: s.workers[w] == Claiming)
  }

  // ----- Invariant -----

  ghost predicate Holds(s: State, w: nat, i: nat) {
    w in s.workers && (s.workers[w].Got? || InLoop(s.workers[w])) && s.workers[w].index == i
  }

  /** A worker has failed, is about to, or has overrun its range and so can only fail. */
  ghost predicate Doomed(cfg: Config, s: State)
    requires Rotatable(cfg)
  {
    s.failed || exists w :: w in s.workers && Dooms(cfg, s.workers[w])
  }

  ghost predicate Dooms(cfg: Config, worker: Worker)
    requires Rotatable(cfg)
  {
    worker.Failing? || (InLoop(worker) && (Count(cfg) == 0 || worker.offset > End(cfg, worker.index)))
  }

  ghost predicate Fits(cfg: Config, s: State, worker: Worker)
    requires Rotatable(cfg)
  {
    match worker
    case Claiming => true
    case Got(i) => i < s.next && i !in s.finished && i !in s.marks
    case Failing => true
    case Done => s.next >= Count(cfg) || s.cancelled
    case _ =>
      && worker.index < s.next && worker.index < Count(cfg) && worker.index !in s.finished
      && worker.index in s.marks && s.marks[worker.index] == worker.offset >= Start(cfg, worker.index)
  }

  function Allowed(cfg: Config): nat {
    if cfg.retries < 0 then 0 else cfg.retries
  }

  /** Byte `b` has been written as often as its range's mark says: once below it and not at all above. */
  ghost predicate Accounted(cfg: Config, s: State, b: int)
    requires Rotatable(cfg)
  {
    s.sent[b] == if 0 <= b < cfg.size && Count(cfg) > 0 && IndexOf(cfg, b) in s.marks && b < s.marks[IndexOf(cfg, b)] then 1 else 0
  }

  ghost predicate Alone(s: State) {
    forall v, w, i | Holds(s, v, i) && Holds(s, w, i) :: v == w
  }

  ghost predicate Covered(cfg: Config, s: State, i: nat) {
    i in s.finished || s.cancelled || s.failed || exists w :: w in s.workers && (Holds(s, w, i) || s.workers[w].Failing?)
  }

  ghost predicate Inv(cfg: Config, s: State)
    requires Rotatable(cfg)
  {
    && s.workers != map[]
    && (forall w | w in s.workers :: Fits(cfg, s, s.workers[w]))
    && Alone(s)
    && (forall i | i in s.finished :: i < Count(cfg) && i < s.next && i in s.marks && s.marks[i] == End(cfg, i))
    && (forall i | i in s.marks :: i < s.next && i < Count(cfg))
    && (forall i: nat | i < s.next && i < Count(cfg) :: Covered(cfg, s, i))
    && (s.cancelled ==> s.failed || s.parentDone)
    && s.total == |s.sent|
    && (Doomed(cfg, s) || forall b: int :: Accounted(cfg, s, b))
  }

  // ----- Every step keeps the invariant -----

  lemma {:induction false} BytesCount(from: int, n: nat, b: int)
    ensures Bytes(from, n)[b] == (if from <= b < from + n then 1 else 0) && |Bytes(from, n)| == n
  {
    if n > 0 {
      BytesCount(from, n - 1, b);
    }
  }

  lemma GoModIsMod(a: int, m: int)
    requires m > 0 && a >= 0
    ensures GoMod(a, m) == a % m && GoMod(-a, m) == -(a % m)
  {
  }

  /** When the rotation fits, the 64-bit computation gives the exact rotated index. */
  lemma RotatedIndex(rotate: int, n: int, i: nat)
    requires i < n && RotationFits(rotate, n) && -MAX_INT64 - 1 <= rotate <= MAX_INT64
    ensures GoMod(Wrap(i + rotate), n) == (i + rotate) % n
  {
    if n == 1 {
      var v := Wrap(i + rotate);
      if v >= 0 {
        GoModIsMod(v, 1);
      } else {
        GoModIsMod(-v, 1);
      }
    } else if i + rotate <= MAX_INT64 {
      GoModIsMod(i + rotate, n);
    } else {
      assert Wrap(MAX_INT64 + 1) == -(MAX_INT64 + 1);
      GoModIsMod(MAX_INT64 + 1, n);
    }
  }

  /** Ranges below the count begin inside the object. */
  lemma SlotFits(cfg: Config, slot: nat)
    requires CountFits(cfg) && slot < Count(cfg)
    ensures 0 <= slot * cfg.rangeBytes < cfg.size
  {
    hide Ranges, Wrap;
    CountIsCeiling(cfg);
    Larger(Count(cfg) - 1, slot, cfg.rangeBytes);
  }

  /** When the rotation fits, the computed bounds are the exact ones. */
  lemma BoundsAreExact(cfg: Config, i: nat)
    requires Rotatable(cfg) && i < Count(cfg)
    ensures StartOf(cfg, i) == Start(cfg, i) && EndOf(cfg, i) == End(cfg, i)
    ensures Start(cfg, i) < End(cfg, i) <= cfg.size
  {
    hide Ranges, Wrap, GoMod, RotationFits;
    RotatedIndex(cfg.rotate, Count(cfg), i);
    SlotFits(cfg, Slot(cfg, i));
  }

  // ----- Which rotations cover the object -----

  ghost predicate InRangeOf(cfg: Config, i: nat, b: int)
    requires CountFits(cfg) && Count(cfg) > 0
  {
    StartOf(cfg, i) <= b < EndOf(cfg, i)
  }

  ghost predicate CoveredOnce(cfg: Config, b: nat)
    requires CountFits(cfg)
  {
    && Count(cfg) > 0
    && (exists i: nat :: i < Count(cfg) && InRangeOf(cfg, i, b))
    && (forall i: nat, j: nat | i < Count(cfg) && j < Count(cfg) && InRangeOf(cfg, i, b) && InRangeOf(cfg, j, b) :: i == j)
  }

  /** As computed, every byte of the object lies in the range of exactly one index. */
  ghost predicate Covers(cfg: Config)
    requires CountFits(cfg)
  {
    forall b: nat | b < cfg.size :: CoveredOnce(cfg, b)
  }

  /** A range no index is rotated to, when the rotation does not fit. */
  ghost function MissedSlot(rotate: int, n: int): (u: nat)
    requires n > 1
    ensures 0 < u < n || (rotate >= 0 && u == 0 && (MAX_INT64 + 1) % n == 0 && (MAX_INT64 + 2) % n == 0)
  {
    if rotate < 0 then n - 1 else if (MAX_INT64 + 1) % n != 0 then (MAX_INT64 + 1) % n else (MAX_INT64 + 2) % n
  }

  /** Two numbers less than `n` apart are not the same modulo `n`. */
  lemma Apart(a: int, b: int, n: int)
    requires n > 0 && 0 < b - a < n
    ensures a % n != b % n
  {
    if a % n == b % n {
      var p, q := a / n, b / n;
      assert b - a == (q - p) * n;
      Small(q - p, n);
    }
  }

  lemma NobodyComes(rotate: int, n: int, i: nat)
    requires 1 < n <= MAX_INT64 && i < n && !RotationFits(rotate, n) && -MAX_INT64 - 1 <= rotate <= MAX_INT64
    ensures 0 < MissedSlot(rotate, n) && GoMod(Wrap(i + rotate), n) != MissedSlot(rotate, n)
  {
    var v, u := Wrap(i + rotate), MissedSlot(rotate, n);
    Apart(MAX_INT64 + 1, MAX_INT64 + 2, n);
    if v < 0 {
      GoModIsMod(-v, n);
    } else {
      GoModIsMod(v, n);
      if rotate < 0 {
        ModUnique(v, 0, v, n);
      } else if u == (MAX_INT64 + 1) % n {
        Apart(v, MAX_INT64 + 1, n);
      } else {
        Apart(v, MAX_INT64 + 2, n);
      }
    }
  }
  /** Whatever the rotation, a computed range is a whole range of the object or the mirror image of one before it. */
  lemma RangeIsWhole(cfg: Config, i: nat)
    requires CountFits(cfg) && Count(cfg) > 0
    ensures var slot := GoMod(Wrap(i + cfg.rotate), Count(cfg));
            && 0 - Count(cfg) < slot < Count(cfg) && StartOf(cfg, i) == slot * cfg.rangeBytes
            && EndOf(cfg, i) == Min(slot * cfg.rangeBytes + cfg.rangeBytes, cfg.size) && StartOf(cfg, i) < EndOf(cfg, i)
  {
    hide Ranges, RotationFits;
    var v, n := Wrap(i + cfg.rotate), Count(cfg);
    if v >= 0 {
      GoModIsMod(v, n);
      SlotFits(cfg, v % n);
    } else {
      GoModIsMod(-v, n);
      SlotFits(cfg, (-v) % n);
      assert (0 - (-v) % n) * cfg.rangeBytes == 0 - (-v) % n * cfg.rangeBytes;
    }
  }

  /** A byte in no range, when the rotation does not fit. */
  ghost function MissedByte(cfg: Config): nat
    requires CountFits(cfg) && Count(cfg) > 1
  {
    MissedSlot(cfg.rotate, Count(cfg)) * cfg.rangeBytes
  }

  lemma CountIsNumber(cfg: Config)
    requires CountFits(cfg)
    ensures Count(cfg) <= MAX_INT64
  {
    CountIsCeiling(cfg);
    if Count(cfg) >= 2 {
      Larger(cfg.rangeBytes, 1, Count(cfg) - 1);
    }
  }

  lemma FewAlwaysFit(rotate: int, n: int)
    ensures n <= 1 ==> RotationFits(rotate, n)
  {
  }

  lemma MissedByteIsMissed(cfg: Config, i: nat)
    requires CountFits(cfg) && !Rotatable(cfg) && i < Count(cfg)
    ensures Count(cfg) > 1 && MissedByte(cfg) < cfg.size && !InRangeOf(cfg, i, MissedByte(cfg))
  {
    CountIsNumber(cfg);
    hide Ranges, Wrap, GoMod, StartOf, EndOf, MissedSlot, RotationFits;
    var n := Count(cfg);
    FewAlwaysFit(cfg.rotate, n);
    NobodyComes(cfg.rotate, n, i);
    RangeIsWhole(cfg, i);
    SlotFits(cfg, MissedSlot(cfg.rotate, n));
    OtherRange(GoMod(Wrap(i + cfg.rotate), n), MissedSlot(cfg.rotate, n), cfg.rangeBytes, cfg.size);
  }

  lemma OtherRange(slot: int, u: int, rb: int, size: int)
    requires slot != u && rb > 0
    ensures !(slot * rb <= u * rb < Min(slot * rb + rb, size))
  {
    if slot < u {
      Larger(u, slot + 1, rb);
      assert (slot + 1) * rb == slot * rb + rb;
    } else {
      Larger(slot, u + 1, rb);
      assert (u + 1) * rb == u * rb + rb;
    }
  }

  /** The ranges, as the 64-bit code computes them, cover every byte exactly once if and only if the rotation fits. */
  lemma CoverIsExact(cfg: Config)
    requires CountFits(cfg)
    ensures Covers(cfg) <==> Rotatable(cfg)
  {
    hide Ranges, StartOf, EndOf, RotationFits;
    if Rotatable(cfg) {
      forall b: nat | b < cfg.size ensures CoveredOnce(cfg, b) {
        FittingCovers(cfg, b);
      }
    } else {
      var b := MissedByteOf(cfg);
      assert !CoveredOnce(cfg, b);
    }
  }

  lemma MissedByteOf(cfg: Config) returns (b: nat)
    requires CountFits(cfg) && !Rotatable(cfg)
    ensures b < cfg.size && Count(cfg) > 1 && forall i: nat | i < Count(cfg) :: !InRangeOf(cfg, i, b)
  {
    assert 0 < Count(cfg);
    MissedByteIsMissed(cfg, 0);
    b := MissedByte(cfg);
    forall i: nat | i < Count(cfg) ensures !InRangeOf(cfg, i, b) {
      MissedByteIsMissed(cfg, i);
    }
  }

  lemma FittingCovers(cfg: Config, b: nat)
    requires Rotatable(cfg) && b < cfg.size
    ensures CoveredOnce(cfg, b)
  {
    hide Ranges, StartOf, EndOf, RotationFits, IndexOf;
    SlotIsInRange(cfg, b);
    forall i: nat | i < Count(cfg) ensures InRangeOf(cfg, i, b) <==> i == IndexOf(cfg, b) {
      BoundsAreExact(cfg, i);
      OneRange(cfg, i, b);
    }
    OneRange(cfg, 0, b);
    assert InRangeOf(cfg, IndexOf(cfg, b), b);
  }

  predicate AgreeOff(s: State, t: State, i: nat) {
    && t.marks - {i} == s.marks - {i} && t.finished - {i} == s.finished - {i}
    && s.next <= t.next && (s.cancelled ==> t.cancelled) && (s.failed ==> t.failed)
  }

  lemma FitsOther(cfg: Config, s: State, t: State, worker: Worker, i: nat)
    requires Rotatable(cfg) && Fits(cfg, s, worker) && AgreeOff(s, t, i)
    requires worker.Got? || InLoop(worker) ==> worker.index != i
    ensures Fits(cfg, t, worker)
  {
    hide CountFits, RotationFits, Start, Count;
    if worker.Got? || InLoop(worker) {
      var k := worker.index;
      assert (k in s.marks - {i}) == (k in t.marks - {i});
      assert (k in s.finished - {i}) == (k in t.finished - {i});
    }
  }

  /** Worker `w` alone has moved, holding what it held or an index nobody held. */
  ghost predicate Moved(s: State, t: State, w: nat) {
    && w in s.workers && w in t.workers && t.workers == s.workers[w := t.workers[w]]
    && forall i | Holds(t, w, i) :: Holds(s, w, i) || forall v :: !Holds(s, v, i)
  }

  lemma AloneMoves(s: State, t: State, w: nat)
    requires Alone(s) && Moved(s, t, w)
    ensures Alone(t)
  {
    forall u, v, i | Holds(t, u, i) && Holds(t, v, i) ensures u == v {
      assert u == w || Holds(s, u, i);
      assert v == w || Holds(s, v, i);
    }
  }

  lemma CoveredMoves(cfg: Config, s: State, t: State, w: nat, i: nat)
    requires Covered(cfg, s, i) && Moved(s, t, w) && s.finished <= t.finished && (s.cancelled ==> t.cancelled) && (s.failed ==> t.failed)
    requires Holds(s, w, i) || s.workers[w].Failing? ==> Holds(t, w, i) || t.workers[w].Failing? || i in t.finished || t.cancelled || t.failed
    ensures Covered(cfg, t, i)
  {
    if !(i in s.finished || s.cancelled || s.failed) {
      var v :| v in s.workers && (Holds(s, v, i) || s.workers[v].Failing?);
      if v != w {
        assert t.workers[v] == s.workers[v] && v in t.workers;
      }
    }
  }

  lemma DoomMoves(cfg: Config, s: State, t: State, w: nat)
    requires Rotatable(cfg) && Moved(s, t, w) && (s.failed ==> t.failed)
    requires Dooms(cfg, s.workers[w]) ==> t.failed || Dooms(cfg, t.workers[w])
    ensures Doomed(cfg, s) ==> Doomed(cfg, t)
  {
    hide Dooms, Rotatable;
    if Doomed(cfg, s) && !s.failed {
      var v :| v in s.workers && Dooms(cfg, s.workers[v]);
      assert v in t.workers && (v == w || t.workers[v] == s.workers[v]);
    }
  }

  /** The part of the invariant that a step of one worker keeps when it touches at most the index `i0`. */
  lemma MoveKeeps(cfg: Config, s: State, t: State, w: nat, i0: nat)
    requires Rotatable(cfg) && Inv(cfg, s) && Moved(s, t, w) && AgreeOff(s, t, i0)
    requires forall i | Holds(s, w, i) :: i == i0
    requires (forall v | v != w :: !Holds(s, v, i0)) && Fits(cfg, t, t.workers[w])
    ensures t.workers != map[] && Alone(t) && forall v | v in t.workers :: Fits(cfg, t, t.workers[v])
  {
    hide CountFits, RotationFits, Fits, Covered, Accounted, Doomed;
    AloneMoves(s, t, w);
    forall v | v in t.workers ensures Fits(cfg, t, t.workers[v]) {
      if v != w {
        assert t.workers[v] == s.workers[v];
        assert (s.workers[v].Got? || InLoop(s.workers[v])) ==> Holds(s, v, s.workers[v].index);
        FitsOther(cfg, s, t, s.workers[v], i0);
      }
    }
  }

  lemma HeldIsClaimed(cfg: Config, s: State, w: nat, i: nat)
    requires Rotatable(cfg) && Inv(cfg, s) && Holds(s, w, i)
    ensures i < s.next && i !in s.finished
  {
  }

  lemma ClaimKeeps(cfg: Config, s: State, w: nat)
    requires Rotatable(cfg) && Inv(cfg, s) && Enabled(cfg, s, Claim(w))
    ensures Inv(cfg, Next(cfg, s, Claim(w)))
  {
    hide CountFits, RotationFits, IndexOf, Start, End, Count;
    var t := Next(cfg, s, Claim(w));
    forall v ensures !Holds(s, v, s.next) {
      if Holds(s, v, s.next) {
        HeldIsClaimed(cfg, s, v, s.next);
      }
    }
    MoveKeeps(cfg, s, t, w, s.next);
    DoomMoves(cfg, s, t, w);
    forall i: nat | i < t.next && i < Count(cfg) ensures Covered(cfg, t, i) {
      if i == s.next {
        assert Holds(t, w, i);
      } else {
        CoveredMoves(cfg, s, t, w, i);
      }
    }
    forall b: int ensures Doomed(cfg, t) || Accounted(cfg, t, b) {
      assert Doomed(cfg, s) || Accounted(cfg, s, b);
    }
  }

  /** The steps that leave the ranges alone: a worker leaves, gives up, waits or wakes. */
  lemma QuietKeeps(cfg: Config, s: State, t: State, w: nat)
    requires Rotatable(cfg) && Inv(cfg, s) && Moved(s, t, w) && Fits(cfg, t, t.workers[w])
    requires t.next == s.next && t.total == s.total && t.sent == s.sent && t.marks == s.marks && t.finished == s.finished
    requires (s.failed ==> t.failed) && (s.cancelled ==> t.cancelled) && (s.parentDone ==> t.parentDone)
    requires t.cancelled ==> t.failed || t.parentDone
    requires Dooms(cfg, s.workers[w]) ==> t.failed || Dooms(cfg, t.workers[w])
    requires forall i: nat | Holds(s, w, i) :: Holds(t, w, i) || t.workers[w].Failing? || t.cancelled || i >= Count(cfg)
    requires s.workers[w].Failing? ==> t.failed
    ensures Inv(cfg, t)
  {
    hide CountFits, RotationFits, IndexOf, Start, End, Count, Dooms, Fits;
    var i0 := if s.workers[w].Got? || InLoop(s.workers[w]) then s.workers[w].index else s.next;
    assert Holds(s, w, i0) || i0 == s.next;
    forall v | v != w ensures !Holds(s, v, i0) {
      if Holds(s, v, i0) {
        HeldIsClaimed(cfg, s, v, i0);
      }
    }
    MoveKeeps(cfg, s, t, w, i0);
    DoomMoves(cfg, s, t, w);
    forall i: nat | i < t.next && i < Count(cfg) ensures Covered(cfg, t, i) {
      CoveredMoves(cfg, s, t, w, i);
    }
    forall b: int ensures Doomed(cfg, t) || Accounted(cfg, t, b) {
      assert Doomed(cfg, s) || Accounted(cfg, s, b);
    }
  }

  lemma CheckKeeps(cfg: Config, s: State, w: nat)
    requires Rotatable(cfg) && Inv(cfg, s) && Enabled(cfg, s, Check(w))
    ensures Inv(cfg, Next(cfg, s, Check(w)))
  {
    hide CountFits, RotationFits, IndexOf, Start, End, Count, Accounted, Covered;
    assert Fits(cfg, s, s.workers[w]);
    QuietKeeps(cfg, s, Next(cfg, s, Check(w)), w);
  }

  lemma WakeKeeps(cfg: Config, s: State, w: nat, timer: bool)
    requires Rotatable(cfg) && Inv(cfg, s) && Enabled(cfg, s, Wake(w, timer))
    ensures Inv(cfg, Next(cfg, s, Wake(w, timer)))
  {
    hide CountFits, RotationFits, IndexOf, Start, End, Count, Accounted, Covered;
    assert Fits(cfg, s, s.workers[w]);
    QuietKeeps(cfg, s, Next(cfg, s, Wake(w, timer)), w);
  }

  lemma FailKeeps(cfg: Config, s: State, w: nat)
    requires Rotatable(cfg) && Inv(cfg, s) && Enabled(cfg, s, Fail(w))
    ensures Inv(cfg, Next(cfg, s, Fail(w)))
  {
    hide CountFits, RotationFits, IndexOf, Start, End, Count, Accounted, Covered;
    QuietKeeps(cfg, s, Next(cfg, s, Fail(w)), w);
  }

  lemma CancelKeeps(cfg: Config, s: State)
    requires Rotatable(cfg) && Inv(cfg, s) && Enabled(cfg, s, CancelParent)
    ensures Inv(cfg, Next(cfg, s, CancelParent))
  {
    hide CountFits, RotationFits, IndexOf, Start, End, Count;
    var t := Next(cfg, s, CancelParent);
    forall i: nat | i < t.next && i < Count(cfg) ensures Covered(cfg, t, i) {
    }
    forall w | w in t.workers ensures Fits(cfg, t, t.workers[w]) {
      assert Fits(cfg, s, s.workers[w]);
    }
    assert Alone(t) by {
      forall v, w, i | Holds(t, v, i) && Holds(t, w, i) ensures v == w {
        assert Holds(s, v, i) && Holds(s, w, i);
      }
    }
    assert Doomed(cfg, s) ==> Doomed(cfg, t);
    forall b: int ensures Doomed(cfg, t) || Accounted(cfg, t, b) {
      assert Doomed(cfg, s) || Accounted(cfg, s, b);
    }
  }

  /** A worker looks at what it claimed: it leaves, or begins a range nobody has begun. */
  lemma LookKeeps(cfg: Config, s: State, w: nat)
    requires Rotatable(cfg) && Inv(cfg, s) && Enabled(cfg, s, Look(w))
    ensures Inv(cfg, Next(cfg, s, Look(w)))
  {
    var t, i := Next(cfg, s, Look(w)), s.workers[w].index;
    assert Fits(cfg, s, s.workers[w]);
    if i >= Count(cfg) || s.cancelled {
      hide CountFits, RotationFits, IndexOf, Start, End, Count, Accounted, Covered;
      QuietKeeps(cfg, s, t, w);
    } else {
      BoundsAreExact(cfg, i);
      BeginKeeps(cfg, s, t, w);
    }
  }

  lemma BeginKeeps(cfg: Config, s: State, t: State, w: nat)
    requires Rotatable(cfg) && Inv(cfg, s) && w in s.workers && s.workers[w].Got? && s.workers[w].index < Count(cfg) && !s.cancelled
    requires var i := s.workers[w].index;
             t == s.(workers := s.workers[w := Copying(i, Start(cfg, i), 0)], marks := s.marks[i := Start(cfg, i)], tries := s.tries[i := 0])
    requires Start(cfg, s.workers[w].index) < End(cfg, s.workers[w].index)
    ensures Inv(cfg, t)
  {
    hide CountFits, RotationFits, IndexOf, Start, End, Count, Accounted;
    var i := s.workers[w].index;
    assert Fits(cfg, s, s.workers[w]);
    assert Holds(s, w, i) && Holds(t, w, i);
    MoveKeeps(cfg, s, t, w, i);
    DoomMoves(cfg, s, t, w);
    forall k: nat | k < t.next && k < Count(cfg) ensures Covered(cfg, t, k) {
      CoveredMoves(cfg, s, t, w, k);
    }
    forall b: int ensures Doomed(cfg, t) || Accounted(cfg, t, b) {
      assert Doomed(cfg, s) || Accounted(cfg, s, b);
      BeginAccounts(cfg, s, t, i, b);
    }
  }

  /** Marking a range at its start delivers nothing. */
  lemma BeginAccounts(cfg: Config, s: State, t: State, i: nat, b: int)
    requires Rotatable(cfg) && i < Count(cfg) && i !in s.marks && t.sent == s.sent && t.marks == s.marks[i := Start(cfg, i)]
    ensures Accounted(cfg, s, b) ==> Accounted(cfg, t, b)
  {
    if 0 <= b < cfg.size {
      OneRange(cfg, i, b);
    }
  }

  lemma AttemptKeeps(cfg: Config, s: State, w: nat, n: nat, ok: bool)
    requires Rotatable(cfg) && Inv(cfg, s) && Enabled(cfg, s, Attempt(w, n, ok))
    ensures Inv(cfg, Next(cfg, s, Attempt(w, n, ok)))
  {
    hide IndexOf, Start, End, Accounted, Bytes, StartOf, EndOf;
    var i, offset, t := s.workers[w].index, s.workers[w].offset, Next(cfg, s, Attempt(w, n, ok));
    assert Fits(cfg, s, s.workers[w]);
    BoundsAreExact(cfg, i);
    BytesCount(offset, n, 0);
    assert Holds(s, w, i);
    MoveKeeps(cfg, s, t, w, i);
    DoomMoves(cfg, s, t, w);
    forall k: nat | k < t.next && k < Count(cfg) ensures Covered(cfg, t, k) {
      CoveredMoves(cfg, s, t, w, k);
    }
    if !Doomed(cfg, t) {
      assert offset + n <= End(cfg, i);
      forall b: int ensures Accounted(cfg, t, b) {
        AttemptAccounts(cfg, s, t, i, offset, n, b);
      }
    }
  }

  /** An attempt that stays within its range delivers exactly the bytes from the old mark to the new one. */
  lemma AttemptAccounts(cfg: Config, s: State, t: State, i: nat, offset: int, n: nat, b: int)
    requires Rotatable(cfg) && i < Count(cfg) && i in s.marks && s.marks[i] == offset && Start(cfg, i) <= offset && offset + n <= End(cfg, i)
    requires t.sent == s.sent + Bytes(offset, n) && t.marks == s.marks[i := offset + n] && Accounted(cfg, s, b)
    ensures Accounted(cfg, t, b)
  {
    BytesCount(offset, n, b);
    if 0 <= b < cfg.size {
      OneRange(cfg, i, b);
    }
  }

  lemma NextKeeps(cfg: Config, s: State, e: Event)
    requires Rotatable(cfg) && Inv(cfg, s) && Enabled(cfg, s, e)
    ensures Inv(cfg, Next(cfg, s, e))
  {
    hide Inv, Next;
    match e
    case Claim(w) => ClaimKeeps(cfg, s, w);
    case Look(w) => LookKeeps(cfg, s, w);
    case Attempt(w, n, ok) => AttemptKeeps(cfg, s, w, n, ok);
    case Check(w) => CheckKeeps(cfg, s, w);
    case Wake(w, timer) => WakeKeeps(cfg, s, w, timer);
    case Fail(w) => FailKeeps(cfg, s, w);
    case CancelParent => CancelKeeps(cfg, s);
  }

  // ----- Runs -----

  ghost predicate StepsTo(cfg: Config, s: State, e: Event, t: State) {
    Enabled(cfg, s, e) && t == Next(cfg, s, e)
  }

  ghost predicate IsRun(cfg: Config, states: seq<State>, events: seq<Event>) {
    && |states| == |events| + 1 && Initial(cfg, states[0])
    && forall i | 0 <= i < |events| :: StepsTo(cfg, states[i], events[i], states[i + 1])
  }

  lemma InitialKeeps(cfg: Config, s: State)
    requires Rotatable(cfg) && Initial(cfg, s)
    ensures Inv(cfg, s)
  {
    hide CountFits, RotationFits, IndexOf;
    assert 0 in s.workers;
  }

  lemma {:induction false} RunKeeps(cfg: Config, states: seq<State>, events: seq<Event>, i: nat)
    requires Rotatable(cfg) && IsRun(cfg, states, events) && i <= |events|
    ensures Inv(cfg, states[i])
  {
    hide CountFits, RotationFits, Inv, Initial, Enabled, Next;
    if i == 0 {
      InitialKeeps(cfg, states[0]);
    } else {
      RunKeeps(cfg, states, events, i - 1);
      assert StepsTo(cfg, states[i - 1], events[i - 1], states[i]);
      NextKeeps(cfg, states[i - 1], events[i - 1]);
    }
  }

  /** A state without an error in which everyone has returned has finished every range. */
  lemma AllFinished(cfg: Config, s: State, i: nat)
    requires Rotatable(cfg) && Inv(cfg, s) && Result(s).Succeeded? && i < Count(cfg)
    ensures i in s.finished && !Doomed(cfg, s)
  {
    hide CountFits, RotationFits, IndexOf, Start, End, Accounted, Count;
    var w :| w in s.workers;
    assert Fits(cfg, s, s.workers[w]) && s.workers[w].Done?;
    assert Covered(cfg, s, i);
  }

  lemma SuccessCovers(cfg: Config, s: State, b: int)
    requires Rotatable(cfg) && Inv(cfg, s) && Result(s).Succeeded?
    ensures s.sent[b] == if 0 <= b < cfg.size then 1 else 0
  {
    hide Fits, Covered, Alone;
    if 0 <= b < cfg.size {
      CountIsCeiling(cfg);
      OneRange(cfg, IndexOf(cfg, b), b);
      AllFinished(cfg, s, IndexOf(cfg, b));
      assert Accounted(cfg, s, b);
    } else {
      NotDoomed(cfg, s);
      assert Accounted(cfg, s, b);
    }
  }

  lemma NotDoomed(cfg: Config, s: State)
    requires Rotatable(cfg) && Result(s).Succeeded?
    ensures !Doomed(cfg, s)
  {
  }

  /** A read that reports success has written every byte of the object exactly once and nothing else. */
  lemma ExactCover(cfg: Config, states: seq<State>, events: seq<Event>)
    requires Rotatable(cfg) && IsRun(cfg, states, events) && Result(states[|events|]).Succeeded?
    ensures states[|events|].sent == Bytes(0, cfg.size) && Result(states[|events|]).total == cfg.size
  {
    hide Inv, Initial, StepsTo;
    var s := states[|events|];
    RunKeeps(cfg, states, events, |events|);
    forall b: int ensures s.sent[b] == Bytes(0, cfg.size)[b] {
      SuccessCovers(cfg, s, b);
      BytesCount(0, cfg.size, b);
    }
    BytesCount(0, cfg.size, 0);
    assert s.total == |s.sent| by {
      TotalIsSent(cfg, s);
    }
  }

  lemma TotalIsSent(cfg: Config, s: State)
    requires Rotatable(cfg) && Inv(cfg, s)
    ensures s.total == |s.sent|
  {
  }

  // ----- Attempts -----

  /** The attempts counted for the range a worker is on are the ones it has made. */
  ghost predicate Tallied(cfg: Config, s: State, worker: Worker) {
    match worker
    case Got(i) => i < s.next && i !in s.tries
    case Copying(i, _, attempt) => i < s.next && i in s.tries && s.tries[i] == attempt <= Allowed(cfg)
    case Retrying(i, _, attempt) => i < s.next && i in s.tries && s.tries[i] == attempt + 1 <= Allowed(cfg) + 1
    case Waiting(i, _, attempt) => i < s.next && i in s.tries && s.tries[i] == attempt + 1 <= Allowed(cfg)
    case _ => true
  }

  ghost predicate Tally(cfg: Config, s: State) {
    && Alone(s) && (forall w | w in s.workers :: Tallied(cfg, s, s.workers[w]))
    && forall i | i in s.tries :: i < s.next && s.tries[i] <= 1 + Allowed(cfg)
  }

  /** Other workers' tallies survive a step that counts at most for an index they do not hold. */
  lemma TallyMoves(cfg: Config, s: State, t: State, w: nat, i0: nat)
    requires Tally(cfg, s) && Moved(s, t, w) && s.next <= t.next && t.tries - {i0} == s.tries - {i0}
    requires forall v | v != w :: !Holds(s, v, i0)
    requires Tallied(cfg, t, t.workers[w]) && (i0 in t.tries ==> i0 < t.next && t.tries[i0] <= 1 + Allowed(cfg))
    ensures Tally(cfg, t)
  {
    AloneMoves(s, t, w);
    forall v | v in t.workers ensures Tallied(cfg, t, t.workers[v]) {
      var worker := t.workers[v];
      if v != w && (worker.Got? || InLoop(worker)) {
        assert s.workers[v] == worker && Holds(s, v, worker.index);
        assert (worker.index in s.tries - {i0}) == (worker.index in t.tries - {i0});
        assert worker.index in t.tries ==> (s.tries - {i0})[worker.index] == (t.tries - {i0})[worker.index];
      }
    }
    forall i | i in t.tries ensures i < t.next && t.tries[i] <= 1 + Allowed(cfg) {
      if i != i0 {
        assert i in t.tries - {i0};
        assert (s.tries - {i0})[i] == (t.tries - {i0})[i];
      }
    }
  }

  lemma TallyKept(cfg: Config, s: State, e: Event)
    requires Tally(cfg, s) && Enabled(cfg, s, e)
    ensures Tally(cfg, Next(cfg, s, e))
  {
    hide Tally, Ranges, StartOf, EndOf, Bytes, Moved, Alone, Holds, Tallied;
    match e
    case Claim(w) => ClaimTallies(cfg, s, w);
    case Fail(w) => FailTallies(cfg, s, w);
    case CancelParent => CancelTallies(cfg, s);
    case _ => StepTallies(cfg, s, e);
  }

  lemma NextIsFree(cfg: Config, s: State)
    requires Tally(cfg, s)
    ensures forall v :: !Holds(s, v, s.next)
  {
    forall v ensures !Holds(s, v, s.next) {
      if v in s.workers {
        assert Tallied(cfg, s, s.workers[v]);
      }
    }
  }

  lemma ClaimTallies(cfg: Config, s: State, w: nat)
    requires Tally(cfg, s) && Enabled(cfg, s, Claim(w))
    ensures Tally(cfg, Next(cfg, s, Claim(w)))
  {
    NextIsFree(cfg, s);
    TallyMoves(cfg, s, Next(cfg, s, Claim(w)), w, s.next);
  }

  lemma CancelTallies(cfg: Config, s: State)
    requires Tally(cfg, s) && Sane(cfg)
    ensures Tally(cfg, Next(cfg, s, CancelParent))
  {
    var t := Next(cfg, s, CancelParent);
    assert forall w, i :: Holds(t, w, i) == Holds(s, w, i);
    assert forall w | w in s.workers :: Tallied(cfg, s, s.workers[w]) == Tallied(cfg, t, t.workers[w]);
  }

  lemma FailTallies(cfg: Config, s: State, w: nat)
    requires Tally(cfg, s) && Enabled(cfg, s, Fail(w))
    ensures Tally(cfg, Next(cfg, s, Fail(w)))
  {
    NextIsFree(cfg, s);
    TallyMoves(cfg, s, Next(cfg, s, Fail(w)), w, s.next);
  }

  lemma StepTallies(cfg: Config, s: State, e: Event)
    requires Tally(cfg, s) && Enabled(cfg, s, e) && (e.Look? || e.Attempt? || e.Check? || e.Wake?)
    ensures Tally(cfg, Next(cfg, s, e))
  {
    hide Ranges, StartOf, EndOf, Bytes, Alone;
    assert Tallied(cfg, s, s.workers[e.w]);
    OnIndexTallies(cfg, s, Next(cfg, s, e), e.w, s.workers[e.w].index);
  }

  lemma OnIndexTallies(cfg: Config, s: State, t: State, w: nat, i: nat)
    requires Tally(cfg, s) && Holds(s, w, i) && t.next == s.next && w in t.workers && t.workers == s.workers[w := t.workers[w]]
    requires t.workers[w].Got? || InLoop(t.workers[w]) ==> t.workers[w].index == i
    requires t.tries == s.tries || (i in t.tries && t.tries == s.tries[i := t.tries[i]])
    requires Tallied(cfg, t, t.workers[w]) && (i in t.tries ==> i < t.next && t.tries[i] <= 1 + Allowed(cfg))
    ensures Tally(cfg, t)
  {
    HoldsAlone(s, w, i);
    StaysPut(s, t, w, i);
    hide Alone, Holds, Moved, Tallied;
    assert t.tries - {i} == s.tries - {i};
    TallyMoves(cfg, s, t, w, i);
  }

  lemma HoldsAlone(s: State, w: nat, i: nat)
    requires Alone(s) && Holds(s, w, i)
    ensures forall v | v != w :: !Holds(s, v, i)
  {
  }

  lemma StaysPut(s: State, t: State, w: nat, i: nat)
    requires Holds(s, w, i) && w in t.workers && t.workers == s.workers[w := t.workers[w]]
    requires t.workers[w].Got? || InLoop(t.workers[w]) ==> t.workers[w].index == i
    ensures Moved(s, t, w)
  {
  }

  lemma {:induction false} RunTallies(cfg: Config, states: seq<State>, events: seq<Event>, i: nat)
    requires IsRun(cfg, states, events) && i <= |events|
    ensures Tally(cfg, states[i])
  {
    if i > 0 {
      hide Tally, Enabled, Next, Initial;
      RunTallies(cfg, states, events, i - 1);
      assert StepsTo(cfg, states[i - 1], events[i - 1], states[i]);
      TallyKept(cfg, states[i - 1], events[i - 1]);
    }
  }

  /** No range is attempted more than once plus the configured number of retries, whatever the rotation and the count. */
  lemma AttemptsAreBounded(cfg: Config, states: seq<State>, events: seq<Event>, i: nat, index: nat)
    requires IsRun(cfg, states, events) && i <= |events| && index in states[i].tries
    ensures states[i].tries[index] <= 1 + Allowed(cfg)
  {
    hide Initial, StepsTo, Tallied, Alone;
    RunTallies(cfg, states, events, i);
  }

  // ----- Why the rotation must fit -----

  /** What the first `k` ranges, as computed, put into the sink when each is copied in one go. */
  ghost function Sent(cfg: Config, k: nat): multiset<int>
    requires CountFits(cfg) && (k > 0 ==> Count(cfg) > 0)
  {
    if k == 0 then multiset{}
    else
      RangeIsWhole(cfg, k - 1);
      Sent(cfg, k - 1) + Bytes(StartOf(cfg, k - 1), EndOf(cfg, k - 1) - StartOf(cfg, k - 1))
  }

  lemma {:induction false} SentMisses(cfg: Config, k: nat, b: int)
    requires CountFits(cfg) && (k > 0 ==> Count(cfg) > 0) && forall i: nat | i < k :: !InRangeOf(cfg, i, b)
    ensures Sent(cfg, k)[b] == 0
  {
    hide StartOf, EndOf, Bytes;
    if k > 0 {
      SentMisses(cfg, k - 1, b);
      RangeIsWhole(cfg, k - 1);
      BytesCount(StartOf(cfg, k - 1), EndOf(cfg, k - 1) - StartOf(cfg, k - 1), b);
      assert !InRangeOf(cfg, k - 1, b);
    }
  }

  lemma Extend(cfg: Config, states: seq<State>, events: seq<Event>, e: Event, t: State)
    requires IsRun(cfg, states, events) && StepsTo(cfg, states[|events|], e, t)
    ensures IsRun(cfg, states + [t], events + [e])
  {
    hide StepsTo, Initial;
  }

  /** Nothing has gone wrong, every worker is about to claim, and the first `k` ranges have been sent. */
  ghost predicate Smooth(cfg: Config, s: State, k: nat)
    requires CountFits(cfg) && (k > 0 ==> Count(cfg) > 0)
  {
    && s.next == k && !s.failed && !s.cancelled && !s.parentDone && s.sent == Sent(cfg, k)
    && 0 in s.workers && forall w | w in s.workers :: s.workers[w].Claiming?
  }

  lemma CopiesOne(cfg: Config, s: State, k: nat) returns (s1: State, s2: State, s3: State, n: nat)
    requires CountFits(cfg) && k < Count(cfg) && Smooth(cfg, s, k)
    ensures StepsTo(cfg, s, Claim(0), s1) && StepsTo(cfg, s1, Look(0), s2) && StepsTo(cfg, s2, Attempt(0, n, true), s3)
    ensures Smooth(cfg, s3, k + 1) && s3.workers.Keys == s.workers.Keys
  {
    hide StartOf, EndOf, Bytes, Ranges;
    RangeIsWhole(cfg, k);
    var start, end := StartOf(cfg, k), EndOf(cfg, k);
    n := end - start;
    s1 := s.(next := k + 1, workers := s.workers[0 := Got(k)]);
    s2 := s1.(workers := s1.workers[0 := Copying(k, start, 0)], marks := s1.marks[k := start], tries := s1.tries[k := 0]);
    s3 := s2.(sent := s2.sent + Bytes(start, n), total := s2.total + n, marks := s2.marks[k := end], tries := s2.tries[k := 1],
              finished := s2.finished + {k}, workers := s2.workers[0 := Claiming]);
  }

  lemma StartsSmooth(cfg: Config, s: State)
    requires CountFits(cfg) && Initial(cfg, s)
    ensures Smooth(cfg, s, 0)
  {
    assert 0 in s.workers;
  }

  lemma CopiesNext(cfg: Config, states: seq<State>, events: seq<Event>, k: nat) returns (states': seq<State>, events': seq<Event>)
    requires CountFits(cfg) && k < Count(cfg) && IsRun(cfg, states, events) && Smooth(cfg, states[|events|], k)
    ensures IsRun(cfg, states', events') && states'[0] == states[0] && Smooth(cfg, states'[|events'|], k + 1)
    ensures states'[|events'|].workers.Keys == states[|events|].workers.Keys
  {
    hide StepsTo, Smooth, Initial;
    var s1, s2, s3, n := CopiesOne(cfg, states[|events|], k);
    Extend(cfg, states, events, Claim(0), s1);
    var states1, events1 := states + [s1], events + [Claim(0)];
    Extend(cfg, states1, events1, Look(0), s2);
    var states2, events2 := states1 + [s2], events1 + [Look(0)];
    Extend(cfg, states2, events2, Attempt(0, n, true), s3);
    states', events' := states2 + [s3], events2 + [Attempt(0, n, true)];
  }

  /** One worker copies every range in one go while the others wait. */
  lemma {:induction false} CopiesAll(cfg: Config, s: State, k: nat) returns (states: seq<State>, events: seq<Event>)
    requires CountFits(cfg) && Initial(cfg, s) && k <= Count(cfg)
    ensures IsRun(cfg, states, events) && states[0] == s && Smooth(cfg, states[|events|], k)
    ensures states[|events|].workers.Keys == s.workers.Keys
  {
    hide StepsTo, Smooth, Initial, Ranges;
    if k == 0 {
      StartsSmooth(cfg, s);
      states, events := [s], [];
    } else {
      states, events := CopiesAll(cfg, s, k - 1);
      states, events := CopiesNext(cfg, states, events, k - 1);
    }
  }

  /** Every range has been sent; the workers numbered below `k` have left and the others are about to find nothing. */
  ghost predicate Leaving(cfg: Config, s: State, k: nat)
    requires CountFits(cfg)
  {
    && s.next >= Count(cfg) && !s.failed && !s.cancelled && !s.parentDone && s.sent == Sent(cfg, Count(cfg))
    && forall w | w in s.workers :: if w < k then s.workers[w].Done? else s.workers[w].Claiming?
  }

  lemma OneLeaves(cfg: Config, s: State, k: nat) returns (s1: State, s2: State)
    requires CountFits(cfg) && k in s.workers && Leaving(cfg, s, k)
    ensures StepsTo(cfg, s, Claim(k), s1) && StepsTo(cfg, s1, Look(k), s2) && Leaving(cfg, s2, k + 1) && s2.workers.Keys == s.workers.Keys
  {
    hide Ranges, Sent;
    s1 := s.(next := s.next + 1, workers := s.workers[k := Got(s.next)]);
    s2 := s1.(workers := s1.workers[k := Done]);
  }

  lemma {:induction false} AllLeave(cfg: Config, states: seq<State>, events: seq<Event>, k: nat) returns (states': seq<State>, events': seq<Event>)
    requires CountFits(cfg) && IsRun(cfg, states, events) && Leaving(cfg, states[|events|], 0)
    ensures IsRun(cfg, states', events') && Leaving(cfg, states'[|events'|], k) && states'[|events'|].workers.Keys == states[|events|].workers.Keys
  {
    if k == 0 {
      states', events' := states, events;
    } else {
      states', events' := AllLeave(cfg, states, events, k - 1);
      var last := states'[|events'|];
      if k - 1 in last.workers {
        hide StepsTo, Initial;
        var s1, s2 := OneLeaves(cfg, last, k - 1);
        Extend(cfg, states', events', Claim(k - 1), s1);
        Extend(cfg, states' + [s1], events' + [Claim(k - 1)], Look(k - 1), s2);
        states', events' := states' + [s1] + [s2], events' + [Claim(k - 1)] + [Look(k - 1)];
      }
    }
  }

  /** That many workers about to claim. */
  function Crew(n: nat): (r: map<nat, Worker>)
    ensures (forall w: nat :: w in r <==> w < n) && forall w | w in r :: r[w] == Claiming
  {
    if n == 0 then map[] else Crew(n - 1)[n - 1 := Claiming]
  }

  function Fresh(cfg: Config): State {
    State(0, 0, false, false, false, 0, Crew(Width(cfg)), multiset{}, map[], map[], {})
  }

  /** Whenever the rotation does not fit, some run reports success although a byte of the object was never written. */
  lemma MisfitMisses(cfg: Config) returns (states: seq<State>, events: seq<Event>, b: nat)
    requires CountFits(cfg) && !Rotatable(cfg)
    ensures IsRun(cfg, states, events) && Result(states[|events|]).Succeeded?
    ensures b < cfg.size && states[|events|].sent[b] == 0
  {
    hide StepsTo, Ranges, Sent, RotationFits;
    b := MissedByteOf(cfg);
    SentMisses(cfg, Count(cfg), b);
    states, events := CopiesAll(cfg, Fresh(cfg), Count(cfg));
    states, events := AllLeave(cfg, states, events, Width(cfg));
  }

  // ----- Why the range count must not wrap -----

  lemma WrappedCount(cfg: Config)
    requires Sane(cfg) && cfg.size + cfg.rangeBytes - 1 > MAX_INT64
    ensures Ranges(cfg.size, cfg.rangeBytes) <= 0 < cfg.size
  {
  }

  ghost predicate Idle(s: State) {
    && s.total == 0 && s.sent == multiset{} && !s.failed
    && forall w | w in s.workers :: s.workers[w].Claiming? || s.workers[w].Got? || s.workers[w].Done?
  }

  /** If it wraps, no byte is ever read, and unless the caller cancels the read still reports success. */
  lemma {:induction false} WrappedReadsNothing(cfg: Config, states: seq<State>, events: seq<Event>, i: nat)
    requires Sane(cfg) && cfg.size + cfg.rangeBytes - 1 > MAX_INT64 && IsRun(cfg, states, events) && i <= |events|
    ensures Idle(states[i]) && cfg.size > 0
    ensures Result(states[i]) == Failed(0) ==> states[i].parentDone
  {
    WrappedCount(cfg);
    if i > 0 {
      hide Ranges, StartOf, EndOf;
      WrappedReadsNothing(cfg, states, events, i - 1);
      assert StepsTo(cfg, states[i - 1], events[i - 1], states[i]);
    }
  }

  // ----- One worker on its own -----

  /**
   * How one attempt goes: bytes written, whether opening and copying went without error, and whether cancellation is seen
   * right after it or while waiting for the next.
   */
  datatype Try = Try(n: nat, ok: bool, cancelled: bool, interrupted: bool)

  datatype Ending = Copied | Short | Broken | Interrupted

  /** Bytes written by the first `k` attempts. */
  function Progress(script: nat -> Try, k: nat): nat {
    if k == 0 then 0 else Progress(script, k - 1) + script(k - 1).n
  }

  /** Whether attempt `k` ends the copy, and how. */
  function Verdict(script: nat -> Try, k: nat, start: int, end: int, retries: int): Option<Ending> {
    if script(k).ok && start + Progress(script, k + 1) == end then Some(Copied)
    else if script(k).cancelled || k >= retries then Some(if script(k).ok then Short else Broken)
    else if script(k).interrupted then Some(Interrupted)
    else None
  }

  /** Copies one range, resuming at the first unwritten byte; the first attempt with a verdict decides. */
  method CopyRange(start: int, end: int, retries: int, script: nat -> Try)
    returns (ending: Ending, offset: int, attempts: nat, resumes: nat, sent: multiset<int>)
    ensures 1 <= attempts <= (if retries < 0 then 0 else retries) + 1
    ensures Verdict(script, attempts - 1, start, end, retries) == Some(ending)
    ensures forall k: nat | k < attempts - 1 :: Verdict(script, k, start, end, retries) == None
    ensures offset == start + Progress(script, attempts) && sent == Bytes(start, offset - start)
    ensures (ending == Copied ==> offset == end) && resumes == if ending == Interrupted then attempts else attempts - 1
  {
    hide Bytes;
    offset, attempts, resumes, sent := start, 0, 0, Bytes(start, 0);
    while true
      invariant offset == start + Progress(script, attempts) && sent == Bytes(start, offset - start)
      invariant attempts == resumes <= if retries < 0 then 0 else retries
      invariant forall k: nat | k < attempts :: Verdict(script, k, start, end, retries) == None
      decreases (if retries < 0 then 0 else retries) - attempts
    {
      var t := script(attempts);
      BytesJoin(start, offset - start, t.n);
      sent := sent + Bytes(offset, t.n);
      offset, attempts := offset + t.n, attempts + 1;
      if t.ok && offset == end {
        return Copied, offset, attempts, resumes, sent;
      }
      if t.cancelled || attempts - 1 >= retries {
        return if t.ok then Short else Broken, offset, attempts, resumes, sent;
      }
      resumes := resumes + 1;
      if t.interrupted {
        return Interrupted, offset, attempts, resumes, sent;
      }
    }
  }

  lemma BytesJoin(from: int, m: nat, n: nat)
    ensures Bytes(from, m) + Bytes(from + m, n) == Bytes(from, m + n)
  {
    hide Bytes;
    var parts, whole := Bytes(from, m) + Bytes(from + m, n), Bytes(from, m + n);
    forall b: int ensures parts[b] == whole[b] {
      BytesCount(from, m, b);
      BytesCount(from + m, n, b);
      BytesCount(from, m + n, b);
    }
  }

  /** What a read that fails nowhere puts into the sink: nothing if the range count is not positive, else every range as computed. */
  ghost function Planned(cfg: Config): multiset<int>
    requires Sane(cfg)
  {
    if Ranges(cfg.size, cfg.rangeBytes) <= 0 then multiset{}
    else
      CountIsSound(cfg);
      Sent(cfg, Count(cfg))
  }

  lemma CountIsSound(cfg: Config)
    requires Sane(cfg) && Ranges(cfg.size, cfg.rangeBytes) > 0
    ensures CountFits(cfg)
  {
  }

  /** The whole read as a single worker performs it, range after range. */
  method WriteTo(cfg: Config, script: nat -> nat -> Try) returns (ending: Ending, total: int, sent: multiset<int>)
    requires Sane(cfg)
    ensures ending == Copied ==> sent == Planned(cfg)
    ensures total == |sent|
  {
    hide Bytes, StartOf, EndOf, Ranges, Verdict, Progress;
    var next, ranges := 0, Ranges(cfg.size, cfg.rangeBytes);
    ending, total, sent := Copied, 0, multiset{};
    if ranges > 0 {
      CountIsSound(cfg);
    }
    while next < ranges
      invariant 0 <= next && total == |sent| && ending == Copied
      invariant if ranges > 0 then next <= ranges && sent == Sent(cfg, next) else sent == multiset{}
    {
      RangeIsWhole(cfg, next);
      var start, end := StartOf(cfg, next), EndOf(cfg, next);
      var how, offset, _, _, part := CopyRange(start, end, cfg.retries, script(next));
      BytesCount(start, offset - start, 0);
      ending, sent, total := how, sent + part, total + offset - start;
      if ending != Copied {
        return;
      }
      next := next + 1;
    }
  }

  /** What the first `next` ranges leave written, when the rotation fits. */
  ghost predicate Written(cfg: Config, sent: multiset<int>, next: nat, b: int)
    requires Rotatable(cfg)
  {
    sent[b] == if 0 <= b < cfg.size && Count(cfg) > 0 && IndexOf(cfg, b) < next then 1 else 0
  }

  lemma WrittenMore(cfg: Config, sent: multiset<int>, next: nat, b: int)
    requires Rotatable(cfg) && next < Count(cfg) && Written(cfg, sent, next, b) && Start(cfg, next) <= End(cfg, next) <= cfg.size
    ensures Written(cfg, sent + Bytes(Start(cfg, next), End(cfg, next) - Start(cfg, next)), next + 1, b)
  {
    BytesCount(Start(cfg, next), End(cfg, next) - Start(cfg, next), b);
    if 0 <= b < cfg.size {
      OneRange(cfg, next, b);
    }
  }

  lemma {:induction false} SentIsWritten(cfg: Config, next: nat, b: int)
    requires Rotatable(cfg) && next <= Count(cfg)
    ensures Written(cfg, Sent(cfg, next), next, b)
  {
    hide Start, End, IndexOf, Bytes, StartOf, EndOf, CountFits, RotationFits, Ranges;
    if next > 0 {
      hide Written;
      SentIsWritten(cfg, next - 1, b);
      BoundsAreExact(cfg, next - 1);
      WrittenMore(cfg, Sent(cfg, next - 1), next - 1, b);
    }
  }

  /** The ranges, copied one after another, make up the object exactly when the rotation fits. */
  lemma PlanIsExact(cfg: Config)
    requires CountFits(cfg)
    ensures Planned(cfg) == Bytes(0, cfg.size) <==> Rotatable(cfg)
  {
    hide Bytes, Sent, RotationFits;
    if Rotatable(cfg) {
      CountIsCeiling(cfg);
      forall b: int ensures Planned(cfg)[b] == Bytes(0, cfg.size)[b] {
        PlannedByte(cfg, b);
      }
    } else {
      var b := MissedByteOf(cfg);
      SentMisses(cfg, Count(cfg), b);
      BytesCount(0, cfg.size, b);
    }
  }

  lemma PlannedByte(cfg: Config, b: int)
    requires Rotatable(cfg)
    ensures Planned(cfg)[b] == Bytes(0, cfg.size)[b]
  {
    CountIsCeiling(cfg);
    hide Bytes, Ranges, CountFits, RotationFits, Sent;
    BytesCount(0, cfg.size, b);
    if Count(cfg) > 0 {
      SentIsWritten(cfg, Count(cfg), b);
      if 0 <= b < cfg.size {
        OneRange(cfg, 0, b);
      }
    }
  }

  // ----- Where a process starts -----

  function CohortStart(ranges: nat, cohorts: nat, cohort: nat): nat
    requires cohorts > 0
  {
    cohort * ranges / cohorts
  }

  lemma ShareAdds(ranges: nat, cohorts: nat, cohort: nat, a: nat, x: nat, q: nat, r: nat)
    requires ranges == q * cohorts + r && cohort * ranges == a * cohorts + x
    ensures (cohort + 1) * ranges == (a + q) * cohorts + (x + r)
    ensures (cohort + 1) * ranges == (a + q + 1) * cohorts + (x + r - cohorts)
    ensures ranges + cohorts - 1 == (q + 1) * cohorts + (r - 1)
  {
  }

  /** Cohorts start evenly apart: neighbours differ by the rounded-down or rounded-up share, all the way round. */
  lemma CohortsAreEven(ranges: nat, cohorts: nat, cohort: nat)
    requires cohort < cohorts
    ensures var gap := CohortStart(ranges, cohorts, cohort + 1) - CohortStart(ranges, cohorts, cohort);
            gap == ranges / cohorts || gap == (ranges + cohorts - 1) / cohorts
  {
    var q, r := ranges / cohorts, ranges % cohorts;
    var a, x := cohort * ranges / cohorts, cohort * ranges % cohorts;
    ShareAdds(ranges, cohorts, cohort, a, x, q, r);
    if x + r < cohorts {
      ModUnique((cohort + 1) * ranges, a + q, x + r, cohorts);
    } else {
      ModUnique((cohort + 1) * ranges, a + q + 1, x + r - cohorts, cohorts);
      ModUnique(ranges + cohorts - 1, q + 1, r - 1, cohorts);
    }
  }

  /** The first cohort starts at the first range, the others below the range count, and one more would close the circle. */
  lemma CohortsAreInside(ranges: nat, cohorts: nat, cohort: nat)
    requires cohort < cohorts
    ensures CohortStart(ranges, cohorts, 0) == 0 && CohortStart(ranges, cohorts, cohorts) == ranges
    ensures ranges > 0 ==> CohortStart(ranges, cohorts, cohort) < ranges
  {
    ModUnique(cohorts * ranges, ranges, 0, cohorts);
    if ranges > 0 {
      var a := cohort * ranges / cohorts;
      Larger(cohorts - 1, cohort, ranges);
      if a >= ranges {
        Larger(a, ranges, cohorts);
      }
    }
  }

  predicate IsDigit(c: char) {
    '0' <= c <= '9'
  }

  /** Where the decimal suffix of a name begins. */
  function DigitStart(name: string): (r: nat)
    ensures r <= |name| && (forall i | r <= i < |name| :: IsDigit(name[i])) && (r > 0 ==> !IsDigit(name[r - 1]))
  {
    if name != "" && IsDigit(name[|name| - 1]) then DigitStart(name[..|name| - 1]) else |name|
  }

  function Decimal(s: string): nat
    requires forall i | 0 <= i < |s| :: IsDigit(s[i])
  {
    if s == "" then 0 else assert IsDigit(s[|s| - 1]); Decimal(s[..|s| - 1]) * 10 + (s[|s| - 1] - '0') as int
  }

  function TenTo(n: nat): nat {
    if n == 0 then 1 else 10 * TenTo(n - 1)
  }

  lemma {:induction false} DecimalIsSmall(s: string)
    requires forall i | 0 <= i < |s| :: IsDigit(s[i])
    ensures Decimal(s) < TenTo(|s|)
  {
    if s != "" {
      DecimalIsSmall(s[..|s| - 1]);
    }
  }

  lemma {:induction false} TenToGrows(m: nat, n: nat)
    requires m <= n
    ensures TenTo(m) <= TenTo(n)
  {
    if m < n {
      TenToGrows(m, n - 1);
    }
  }

  method ParseInt(digits: string) returns (value: int64)
    requires |digits| <= 18 && forall i | 0 <= i < |digits| :: IsDigit(digits[i])
    ensures value >= 0 && value as int == Decimal(digits)
  {
    value := 0;
    var i := 0;
    while i < |digits|
      invariant i <= |digits| && value >= 0 && value as int == Decimal(digits[..i])
    {
      assert digits[..i + 1][..i] == digits[..i];
      DecimalFits(digits[..i + 1]);
      value := value * 10 + (digits[i] - '0') as int64;
      i := i + 1;
    }
    assert digits[..|digits|] == digits;
  }

  /** The number a name ends in, if it has at most eighteen digits; every partial sum fits in 64 bits. */
  method TrailingNumber(name: string) returns (r: Option<int64>)
    ensures var start := DigitStart(name);
            r.Some? <==> 1 <= |name| - start <= 18
    ensures r.Some? ==> r.value as int == Decimal(name[DigitStart(name)..]) && r.value >= 0
  {
    hide Decimal;
    var start := |name|;
    while start > 0 && IsDigit(name[start - 1])
      invariant 0 <= start <= |name| && DigitStart(name[..start]) == DigitStart(name)
    {
      assert name[..start][..start - 1] == name[..start - 1];
      start := start - 1;
    }
    assert name[..|name|] == name && start == DigitStart(name);
    if start == |name| || |name| - start > 18 {
      return None;
    }
    var value := ParseInt(name[start..]);
    return Some(value);
  }

  lemma DecimalFits(s: string)
    requires |s| <= 18 && forall i | 0 <= i < |s| :: IsDigit(s[i])
    ensures Decimal(s) < 1_000_000_000_000_000_000
  {
    DecimalIsSmall(s);
    TenToGrows(|s|, 18);
    assert TenTo(6) == 1_000_000 && TenTo(12) == 1_000_000 * TenTo(6) && TenTo(18) == 1_000_000 * TenTo(12);
  }

  /** `host` is the hash of the host name, unless the name cannot be read. */
  datatype Options = Options(rotate: bool, cohorts: int, rangeBytes: int, host: Option<uint64>, node: string)

  datatype Rotation = Returned(at: int) | Panicked

  ghost predicate Rotates(o: Options) {
    (o.rotate || o.cohorts > 1) && o.rangeBytes > 0 && o.host.Some?
  }

  /** A node's cohort: from the number its name ends in, if it is short enough, else from the host. */
  function Cohort(o: Options): (r: nat)
    requires o.cohorts > 0 && o.host.Some?
    ensures r < o.cohorts
  {
    var start := DigitStart(o.node);
    if 1 <= |o.node| - start <= 18 then Decimal(o.node[start..]) % o.cohorts else o.host.value as int % o.cohorts
  }

  /** The first range of a cohort as the 64-bit code computes it. */
  function CohortAt(ranges: int, cohorts: nat, cohort: nat): int
    requires cohorts > 0
  {
    TruncDiv(Wrap(cohort * ranges), cohorts)
  }

  /** The first range of a process: the first of all, its cohort's, or one picked by the host. */
  ghost predicate Starts(o: Options, size: int, at: int) {
    && -MAX_INT64 - 1 <= at <= MAX_INT64
    && if !Rotates(o) then at == 0
       else if o.cohorts > 1 then at == CohortAt(Ranges(size, o.rangeBytes), o.cohorts, Cohort(o))
       else Ranges(size, o.rangeBytes) > 0 ==> at == o.host.value as int % Ranges(size, o.rangeBytes)
  }

  /** The first range of this process. It panics exactly for an empty object read with plain rotation. */
  method RangeRotation(o: Options, size: int) returns (r: Rotation)
    requires 0 <= size <= MAX_INT64 && o.rangeBytes <= MAX_INT64 && o.cohorts <= MAX_INT64
    ensures r.Panicked? <==> Rotates(o) && o.cohorts <= 1 && Ranges(size, o.rangeBytes) == 0
    ensures r.Returned? ==> Starts(o, size, r.at)
  {
    hide Ranges, TruncDiv, Decimal, DigitStart, Wrap;
    if (!o.rotate && o.cohorts <= 1) || o.rangeBytes <= 0 || o.host.None? {
      return Returned(0);
    }
    var ranges := Ranges(size, o.rangeBytes);
    if o.cohorts > 1 {
      var cohort := o.host.value as int % o.cohorts;
      var number := TrailingNumber(o.node);
      if number.Some? {
        cohort := number.value as int % o.cohorts;
      }
      ShareIsInt64(Wrap(cohort * ranges), o.cohorts);
      return Returned(TruncDiv(Wrap(cohort * ranges), o.cohorts));
    }
    if ranges == 0 {
      return Panicked;
    }
    RangesAreInt64(size, o.rangeBytes);
    PlainRotation(ranges, o.host.value as int);
    return Returned(Wrap(o.host.value as int % AsUint64(ranges)));
  }

  function AsUint64(x: int): int {
    if x < 0 then x + 2 * (MAX_INT64 + 1) else x
  }

  lemma RangesAreInt64(size: int, rangeBytes: int)
    requires rangeBytes > 0
    ensures -MAX_INT64 - 1 <= Ranges(size, rangeBytes) <= MAX_INT64
    ensures 0 <= size && size + rangeBytes - 1 <= MAX_INT64 ==> Ranges(size, rangeBytes) >= 0
  {
    ShareIsInt64(Wrap(size + rangeBytes - 1), rangeBytes);
  }

  lemma ShareIsInt64(v: int, m: int)
    requires m > 0 && -MAX_INT64 - 1 <= v <= MAX_INT64
    ensures -MAX_INT64 - 1 <= TruncDiv(v, m) <= MAX_INT64 && (v >= 0 ==> TruncDiv(v, m) >= 0)
  {
  }

  lemma PlainRotation(ranges: int, hash: nat)
    requires ranges != 0 && -MAX_INT64 - 1 <= ranges <= MAX_INT64
    ensures AsUint64(ranges) > 0 && (ranges > 0 ==> Wrap(hash % AsUint64(ranges)) == hash % ranges)
    ensures -MAX_INT64 - 1 <= Wrap(hash % AsUint64(ranges)) <= MAX_INT64
  {
    WrapFacts(hash % AsUint64(ranges));
    if ranges > 0 {
      WrapFacts(hash % ranges);
    }
  }

  // ----- Which cohorts start inside the object -----

  /** The exact start of a cohort fits the object, and so does any smaller non-negative product. */
  lemma SmallProduct(ranges: nat, cohorts: nat, cohort: nat, v: int)
    requires cohort < cohorts && 0 <= v <= cohort * ranges
    ensures 0 <= TruncDiv(v, cohorts) && (TruncDiv(v, cohorts) == 0 || TruncDiv(v, cohorts) < ranges)
  {
    if ranges > 0 {
      Larger(cohorts - 1, cohort, ranges);
      if v / cohorts >= ranges {
        Larger(v / cohorts, ranges, cohorts);
      }
    }
  }

  lemma WrapFacts(x: nat)
    ensures -MAX_INT64 - 1 <= Wrap(x) <= MAX_INT64 && Wrap(x) <= x && (x <= MAX_INT64 ==> Wrap(x) == x)
    ensures x > MAX_INT64 ==> Wrap(x) <= x - 2 * (MAX_INT64 + 1)
  {
  }

  /** A cohort's computed start is its even share of the ranges exactly when the product fits in 64 bits. */
  lemma CohortIsExact(ranges: nat, cohorts: nat, cohort: nat)
    requires cohort < cohorts <= MAX_INT64
    ensures CohortAt(ranges, cohorts, cohort) == CohortStart(ranges, cohorts, cohort) <==> cohort * ranges <= MAX_INT64
  {
    hide Wrap, TruncDiv;
    var x := cohort * ranges;
    WrapFacts(x);
    SharesApart(Wrap(x), x, cohorts);
  }

  lemma SharesApart(v: int, x: nat, m: nat)
    requires m > 0
    ensures v == x ==> TruncDiv(v, m) == x / m
    ensures v + m <= x && m <= x ==> TruncDiv(v, m) < x / m
  {
    if v + m <= x && m <= x {
      DivApart(if v < 0 then 0 else v, x, m);
      if v < 0 {
        DivApart(0, x, m);
      }
    }
  }

  lemma DivApart(a: nat, b: nat, m: nat)
    requires m > 0 && a + m <= b
    ensures a / m < b / m
  {
    if a / m >= b / m {
      Larger(a / m, b / m, m);
    }
  }

  /** The computed start lies before the object. */
  predicate Leaves(ranges: nat, cohorts: nat, cohort: nat)
    requires cohorts > 0
  {
    CohortAt(ranges, cohorts, cohort) < 0
  }

  /** It does so exactly when the wrapped product is negative by at least the number of cohorts; else it is a range of the object. */
  lemma CohortLeaves(ranges: nat, cohorts: nat, cohort: nat)
    requires cohort < cohorts
    ensures Leaves(ranges, cohorts, cohort) <==> Wrap(cohort * ranges) <= 0 - cohorts
    ensures var at := CohortAt(ranges, cohorts, cohort);
            !Leaves(ranges, cohorts, cohort) ==> at == 0 || 0 < at < ranges
  {
    hide Wrap, TruncDiv;
    var x := cohort * ranges;
    var v := Wrap(x);
    WrapFacts(x);
    if v >= 0 {
      SmallProduct(ranges, cohorts, cohort, v);
    } else {
      NegativeShare(v, cohorts);
    }
  }

  lemma NegativeShare(v: int, m: nat)
    requires m > 0 && v < 0
    ensures TruncDiv(v, m) <= 0 && (TruncDiv(v, m) < 0 <==> v <= 0 - m)
  {
  }

  /** The first cohort whose product reaches 2^63. */
  function FirstOver(ranges: nat): nat
    requires ranges > 0
  {
    (MAX_INT64 + ranges) / ranges
  }

  lemma FirstOverIsFirst(ranges: nat, c: nat)
    requires ranges > 0
    ensures MAX_INT64 < FirstOver(ranges) * ranges <= MAX_INT64 + ranges
    ensures c * ranges > MAX_INT64 ==> FirstOver(ranges) <= c
  {
    var q, r := (MAX_INT64 + ranges) / ranges, (MAX_INT64 + ranges) % ranges;
    assert MAX_INT64 + ranges == q * ranges + r;
    if c < q {
      Larger(q - 1, c, ranges);
      assert (q - 1) * ranges == q * ranges - ranges;
    }
  }

  /** Unless there are astronomically many of both, some cohort leaves the object exactly when the last product exceeds 64 bits. */
  lemma SomeCohortLeaves(ranges: nat, cohorts: nat)
    requires 0 < ranges && 0 < cohorts && ranges + cohorts <= MAX_INT64 + 2
    ensures (exists c: nat :: c < cohorts && Leaves(ranges, cohorts, c)) <==> (cohorts - 1) * ranges > MAX_INT64
  {
    hide Wrap, Leaves;
    if (cohorts - 1) * ranges > MAX_INT64 {
      var c := FirstOver(ranges);
      FirstOverIsFirst(ranges, cohorts - 1);
      CohortLeaves(ranges, cohorts, c);
      WrapOnce(c * ranges);
    } else {
      forall c: nat | c < cohorts ensures !Leaves(ranges, cohorts, c) {
        Larger(cohorts - 1, c, ranges);
        CohortLeaves(ranges, cohorts, c);
        WrapFacts(c * ranges);
      }
    }
  }

  lemma WrapOnce(x: int)
    requires MAX_INT64 < x <= 2 * MAX_INT64 + 1
    ensures Wrap(x) == x - 2 * (MAX_INT64 + 1)
  {
  }

  /**
   * What this means for the read: with at most 2^62 ranges, the rotation picked for a process fits unless there are several
   * ranges and its cohort's start has left the object.
   */
  lemma PickedRotation(o: Options, size: int, at: int, parallel: int, retries: int)
    requires 0 <= size && 0 < o.rangeBytes <= MAX_INT64 && size + o.rangeBytes - 1 <= MAX_INT64 && Starts(o, size, at)
    requires Ranges(size, o.rangeBytes) <= 0x4000_0000_0000_0000
    ensures Rotatable(Config(size, o.rangeBytes, at, parallel, retries)) <==>
            || Ranges(size, o.rangeBytes) <= 1 || !Rotates(o) || o.cohorts <= 1
            || Wrap(Cohort(o) * Ranges(size, o.rangeBytes)) > -o.cohorts
  {
    hide Decimal, DigitStart, Wrap, TruncDiv, Ranges;
    RangesAreInt64(size, o.rangeBytes);
    var ranges: nat := Ranges(size, o.rangeBytes);
    if Rotates(o) && o.cohorts > 1 {
      CohortLeaves(ranges, o.cohorts, Cohort(o));
    } else if Rotates(o) && ranges > 0 {
      assert 0 <= at < ranges;
    }
  }
}

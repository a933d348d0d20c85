/** The layout of autograd context ids and autograd message ids: a 64-bit
    signed integer whose top 16 bits hold the worker id and whose low 48 bits
    hold a per-worker auto-incrementing counter. */
module Ids {

  /** 2^48: the number of distinct counter values, one per low bit pattern. */
  const CounterLimit: int := 0x1_0000_0000_0000

  /** The largest counter value, i.e. the low-48-bit mask. */
  const CounterMask: int := CounterLimit - 1

  /** The largest worker id an `int16_t` field can hold. */
  const MaxWorkerId: int := 0x7FFF

  const MinInt64: int := -0x8000_0000_0000_0000
  const MaxInt64: int := 0x7FFF_FFFF_FFFF_FFFF

  /** The values of a C++ `int64_t`. */
  type Int64 = x: int | MinInt64 <= x <= MaxInt64

  predicate ValidWorker(w: int) {
    0 <= w <= MaxWorkerId
  }

  predicate ValidCounter(c: int) {
    0 <= c < CounterLimit
  }

  /** `id >> 48`: arithmetic shift, which on two's complement is division
      rounding toward minus infinity; Dafny's `/` by a positive constant
      agrees with it on every sign. */
  function WorkerOf(id: int): int {
    id / CounterLimit
  }

  /** `id & 0xFFFF_FFFF_FFFF`: on two's complement this is the non-negative
      remainder modulo 2^48, which is Dafny's `%` by a positive constant. */
  function CounterOf(id: int): int {
    id % CounterLimit
  }

  /** `(worker << 48) | counter`. The two fields never overlap, so the `|` is
      an addition. Unpacking recovers both fields, and the result is a
      non-negative `int64_t`. */
  function Pack(w: int, c: int): (id: Int64)
    requires ValidWorker(w) && ValidCounter(c)
    ensures 0 <= id
    ensures WorkerOf(id) == w && CounterOf(id) == c
  {
    DivModUnique(w * CounterLimit + c, w, c);
    w * CounterLimit + c
  }

  /** The largest id worker `w` can generate: its worker bits with every
      counter bit set. */
  function MaxIdFor(w: int): (m: Int64)
    requires ValidWorker(w)
    ensures WorkerOf(m) == w && CounterOf(m) == CounterMask
    ensures forall c :: ValidCounter(c) ==> Pack(w, c) <= m
  {
    Pack(w, CounterMask)
  }

  /** Division by 2^48 has one quotient and one remainder. */
  lemma DivModUnique(x: int, q: int, r: int)
    requires x == q * CounterLimit + r
    requires 0 <= r < CounterLimit
    ensures x / CounterLimit == q && x % CounterLimit == r
  {
  }

  /** Packing the two fields of any non-negative int64 id gives it back. */
  lemma PackUnpack(id: Int64)
    requires 0 <= id
    ensures ValidWorker(WorkerOf(id)) && ValidCounter(CounterOf(id))
    ensures Pack(WorkerOf(id), CounterOf(id)) == id
  {
  }

  /** Two ids are equal only when their worker and counter fields are. */
  lemma PackInjective(w1: int, c1: int, w2: int, c2: int)
    requires ValidWorker(w1) && ValidCounter(c1)
    requires ValidWorker(w2) && ValidCounter(c2)
    ensures Pack(w1, c1) == Pack(w2, c2) <==> w1 == w2 && c1 == c2
  {
  }

  /** Ids of two different workers never collide, whatever their counters. */
  lemma DistinctWorkersDistinctIds(w1: int, c1: int, w2: int, c2: int)
    requires ValidWorker(w1) && ValidCounter(c1)
    requires ValidWorker(w2) && ValidCounter(c2)
    requires w1 != w2
    ensures Pack(w1, c1) != Pack(w2, c2)
  {
    PackInjective(w1, c1, w2, c2);
  }

  /** Within one worker, a larger counter gives a larger id, and
      incrementing the counter increments the id. */
  lemma PackMonotonic(w: int, c1: int, c2: int)
    requires ValidWorker(w) && ValidCounter(c1) && ValidCounter(c2)
    ensures c1 < c2 <==> Pack(w, c1) < Pack(w, c2)
    ensures c2 == c1 + 1 ==> Pack(w, c2) == Pack(w, c1) + 1
  {
  }

  /** The ids of one worker are exactly the integers between its first and
      its maximum id. */
  lemma IdsOfWorkerAreARange(w: int, id: int)
    requires ValidWorker(w)
    ensures WorkerOf(id) == w <==> Pack(w, 0) <= id <= MaxIdFor(w)
  {
    if Pack(w, 0) <= id <= MaxIdFor(w) {
      DivModUnique(id, w, id - Pack(w, 0));
    }
  }
}

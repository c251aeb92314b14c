/**
  The process-wide request statistics (`dmp_stats`): three request counters
  and three moving averages of the request size, for reads, writes and all
  requests. Every field is a function of the history of requests mapped so
  far; that history is kept as the ghost `Log` and the functions below say how
  each field follows from it.
 */
module Statistics {
  import opened Kernel
  import opened Average

  /** How the map hook classifies a request. */
  datatype Kind = ReadKind | WriteKind | Unsupported

  function KindOf(op: ReqOp): Kind
  {
    match op
    case Read => ReadKind
    case Write => WriteKind
    case Other(_) => Unsupported
  }

  /** One mapped request, as far as the statistics are concerned. */
  datatype Request = Request(op: ReqOp, size: u32)

  /** The number of requests of kind `k` in the history. */
  function Count(log: seq<Request>, k: Kind): nat
    decreases |log|
  {
    if log == [] then 0
    else Count(log[..|log| - 1], k) + (if KindOf(log[|log| - 1].op) == k then 1 else 0)
  }

  /** The sizes of the requests of kind `k` in the history, in order. */
  function Sizes(log: seq<Request>, k: Kind): seq<nat>
    decreases |log|
  {
    if log == [] then []
    else Sizes(log[..|log| - 1], k) + (if KindOf(log[|log| - 1].op) == k then [log[|log| - 1].size as nat] else [])
  }

  /** The sizes of all requests in the history, in order. */
  function AllSizes(log: seq<Request>): seq<nat>
    decreases |log|
  {
    if log == [] then [] else AllSizes(log[..|log| - 1]) + [log[|log| - 1].size as nat]
  }

  /** The value of an `unsigned long long` counter incremented `n` times from zero. */
  function Counter(n: nat): u64
  {
    (n % U64_MOD) as u64
  }

  /** One more increment of a counter is one more wrapping `++`. */
  lemma CounterStep(n: nat)
    ensures Counter(n + 1) == Inc(Counter(n))
  {
  }

  /** Every request in the history is a read, a write or unsupported. */
  lemma {:induction false} CountPartition(log: seq<Request>)
    ensures |log| == Count(log, ReadKind) + Count(log, WriteKind) + Count(log, Unsupported)
  {
    if log != [] {
      CountPartition(log[..|log| - 1]);
    }
  }

  /** The average of a kind received exactly one sample per request of that kind. */
  lemma {:induction false} SizesMatchCount(log: seq<Request>, k: Kind)
    ensures |Sizes(log, k)| == Count(log, k)
  {
    if log != [] {
      SizesMatchCount(log[..|log| - 1], k);
    }
  }

  /** The total average received one sample per request, whatever its kind. */
  lemma {:induction false} AllSizesMatchLength(log: seq<Request>)
    ensures |AllSizes(log)| == |log|
    ensures forall i :: 0 <= i < |log| ==> AllSizes(log)[i] == log[i].size as nat
  {
    if log != [] {
      var init := log[..|log| - 1];
      AllSizesMatchLength(init);
      forall i | 0 <= i < |log| - 1
        ensures AllSizes(log)[i] == log[i].size as nat
      {
        assert log[i] == init[i];
      }
    }
  }

  /** The samples of kind `k` from a history split in two are those of the
      first part followed by those of the second, and a single request gives
      its own size exactly when it is of kind `k`. Together these fix the
      average of each kind: it receives the sizes of that kind's requests,
      in order, and nothing else. */
  lemma {:induction false} SizesSplit(a: seq<Request>, b: seq<Request>, k: Kind)
    ensures Sizes(a + b, k) == Sizes(a, k) + Sizes(b, k)
    ensures |b| == 1 ==> Sizes(b, k) == if KindOf(b[0].op) == k then [b[0].size as nat] else []
    decreases |b|
  {
    if b == [] {
      assert a + b == a;
    } else {
      var ab := a + b;
      var b' := b[..|b| - 1];
      assert ab[..|ab| - 1] == a + b';
      assert ab[|ab| - 1] == b[|b| - 1];
      SizesSplit(a, b', k);
      if |b| == 1 {
        assert b' == [];
      }
    }
  }

  /** Whatever the number of requests, the total counter equals the read and
      write counters plus the unsupported requests, modulo 2^64. */
  lemma CountersModular(log: seq<Request>)
    ensures Counter(|log|) as int
         == (Counter(Count(log, ReadKind)) as int + Counter(Count(log, WriteKind)) as int
             + Count(log, Unsupported)) % U64_MOD
  {
    CountPartition(log);
    var r, w, u := Count(log, ReadKind), Count(log, WriteKind), Count(log, Unsupported);
    assert r == (r / U64_MOD) * U64_MOD + r % U64_MOD;
    assert w == (w / U64_MOD) * U64_MOD + w % U64_MOD;
    ModShift(r % U64_MOD + w % U64_MOD + u, r / U64_MOD + w / U64_MOD);
  }

  lemma ModShift(a: nat, q: nat)
    ensures (a + q * U64_MOD) % U64_MOD == a % U64_MOD
  {
  }

  /** Fewer than 2^64 requests: nothing has wrapped, every request counted in
      the total is a read, a write or a killed request, and so the total is
      at least the reads plus the writes. */
  lemma CountersExact(log: seq<Request>)
    requires |log| < U64_MOD
    ensures Counter(|log|) as int
         == Counter(Count(log, ReadKind)) as int + Counter(Count(log, WriteKind)) as int
            + Count(log, Unsupported)
    ensures Counter(|log|) >= Counter(Count(log, ReadKind)) + Counter(Count(log, WriteKind))
  {
    CountPartition(log);
    CounterUnwrapped(|log|);
    CounterUnwrapped(Count(log, ReadKind));
    CounterUnwrapped(Count(log, WriteKind));
  }

  /** Below 2^64 increments the counter holds the exact count. */
  lemma CounterUnwrapped(n: nat)
    requires n < U64_MOD
    ensures Counter(n) as int == n
  {
  }

  /** dmp_stats. */
  class Stats {
    var readReq: u64
    var writeReq: u64
    var totalReq: u64
    var readAvg: Ewma
    var writeAvg: Ewma
    var totalAvg: Ewma

    /** The requests mapped so far, in order. */
    ghost var Log: seq<Request>

    /** Every field is what the history makes it. */
    ghost predicate Valid()
      reads this
    {
      && readReq == Counter(Count(Log, ReadKind))
      && writeReq == Counter(Count(Log, WriteKind))
      && totalReq == Counter(|Log|)
      && readAvg == Ewma(Sizes(Log, ReadKind))
      && writeAvg == Ewma(Sizes(Log, WriteKind))
      && totalAvg == Ewma(AllSizes(Log))
    }

    /** The zero-initialised record, with its averages in their initial state. */
    constructor ()
      ensures Valid() && Log == []
      ensures readReq == 0 && writeReq == 0 && totalReq == 0
      ensures readAvg == EwmaInit() && writeAvg == EwmaInit() && totalAvg == EwmaInit()
    {
      readReq, writeReq, totalReq := 0, 0, 0;
      readAvg, writeAvg, totalAvg := EwmaInit(), EwmaInit(), EwmaInit();
      Log := [];
    }
  }

  /** From the zero-initialised record, after any sequence of mapped requests:
      the total counter is the read and write counters plus the killed
      requests (modulo 2^64, and exactly while fewer than 2^64 requests have
      been mapped). */
  lemma StatsTotals(s: Stats)
    requires s.Valid()
    ensures s.totalReq as int == (s.readReq as int + s.writeReq as int + Count(s.Log, Unsupported)) % U64_MOD
    ensures |s.Log| < U64_MOD ==>
              s.totalReq as int == s.readReq as int + s.writeReq as int + Count(s.Log, Unsupported)
  {
    CountersModular(s.Log);
    if |s.Log| < U64_MOD {
      CountersExact(s.Log);
    }
  }
}

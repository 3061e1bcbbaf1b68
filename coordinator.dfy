/**
 * The mining coordinator (src/coordinator.rs, and its copy src/impl/coordinator.rs): the running
 * flag, the shared hash and share counters, the split of the nonce space over worker threads and
 * one worker's search loop. Threads are not spawned here: `Start` returns the ranges it would hand
 * to the workers, and a worker's view of the running flag is an input of `MiningThread`.
 */
module Coordinator {
  import opened Fips180
  import opened Errors
  import opened Types
  import opened Config
  import opened Hardware

  /** Counters are Rust u64 atomics; `fetch_add` wraps modulo 2^64. */
  const U64Modulus: nat := 0x1_0000_0000_0000_0000

  /** Hashes are added to the shared counter in batches of this many. */
  const BatchSize: nat := 1000

  /** The width of each thread's share of the nonce space. */
  function NonceRange(threadCount: nat): (r: nat)
    requires 1 <= threadCount <= U32Max
    ensures 1 <= r && threadCount * r <= U32Max
  {
    DivFloor(U32Max, threadCount);
    U32Max / threadCount
  }

  /** The first nonce of thread i; it fits in a u32 for every thread. */
  function StartNonce(threadCount: nat, i: nat): (r: U32)
    requires 1 <= threadCount <= U32Max && i < threadCount
    ensures r + NonceRange(threadCount) <= U32Max
  {
    var range := NonceRange(threadCount);
    MulLess(i, threadCount, range);
    i * range
  }

  /**
   * The end nonce the source gives thread i, as written: u32::MAX for the last thread and one
   * less than the next thread's start for the others. The worker's loop excludes its end.
   */
  function EndNonceAsWritten(threadCount: nat, i: nat): (r: U32)
    requires 1 <= threadCount <= U32Max && i < threadCount
  {
    if i == threadCount - 1 then U32Max
    else StartNonce(threadCount, i) + NonceRange(threadCount) - 1
  }

  /**
   * The end nonce thread i is evidently meant to get: the next thread's start (the bound is
   * exclusive), and u32::MAX for the last thread.
   */
  function EndNonce(threadCount: nat, i: nat): (r: U32)
    requires 1 <= threadCount <= U32Max && i < threadCount
    ensures StartNonce(threadCount, i) < r
    ensures i < threadCount - 1 ==> r == StartNonce(threadCount, i + 1)
  {
    if i == threadCount - 1 then
      LastStartBelowMax(threadCount);
      U32Max
    else StartNonce(threadCount, i) + NonceRange(threadCount)
  }

  /** Whether thread i's worker loop hashes nonce n. */
  predicate Hashes(threadCount: nat, i: nat, n: nat)
    requires 1 <= threadCount <= U32Max && i < threadCount
  {
    StartNonce(threadCount, i) <= n < EndNonce(threadCount, i)
  }

  /** Every nonce below u32::MAX is hashed by some thread ... */
  lemma RangesCover(threadCount: nat, n: nat) returns (i: nat)
    requires 1 <= threadCount <= U32Max && n < U32Max
    ensures i < threadCount && Hashes(threadCount, i, n)
  {
    var range := NonceRange(threadCount);
    var q := n / range;
    DivBounds(n, range);
    if q < threadCount {
      i := q;
      assert StartNonce(threadCount, i) == q * range;
      if i < threadCount - 1 {
        assert EndNonce(threadCount, i) == q * range + range;
      } else {
        assert EndNonce(threadCount, i) == U32Max;
      }
    } else {
      i := threadCount - 1;
      MulMonotone(threadCount - 1, q, range);
      assert StartNonce(threadCount, i) == (threadCount - 1) * range;
      assert EndNonce(threadCount, i) == U32Max;
    }
  }

  /** ... and by one thread only: the ranges are ordered and pairwise disjoint. */
  lemma RangesDisjoint(threadCount: nat, i: nat, j: nat)
    requires 1 <= threadCount <= U32Max && i < j < threadCount
    ensures EndNonce(threadCount, i) <= StartNonce(threadCount, j)
  {
    var range := NonceRange(threadCount);
    MulMonotone(i + 1, j, range);
  }

  /** As written, the ranges are ordered and disjoint too, but the last nonce of each is skipped. */
  lemma RangesAsWrittenSkip(threadCount: nat, i: nat, j: nat)
    requires 1 <= threadCount <= U32Max && i < threadCount - 1 && j < threadCount
    ensures var n := EndNonceAsWritten(threadCount, i);
      n + 1 == StartNonce(threadCount, i + 1)
      && !(StartNonce(threadCount, j) <= n < EndNonceAsWritten(threadCount, j))
  {
    var range := NonceRange(threadCount);
    var n := EndNonceAsWritten(threadCount, i);
    if j <= i {
      MulMonotone(j, i, range);
    } else {
      MulMonotone(i + 1, j, range);
    }
  }

  /** With two threads, nonce 2147483646 falls between the two ranges as written. */
  lemma AsWrittenSkipsNonce()
    ensures EndNonceAsWritten(2, 0) == 2147483646
    ensures forall j | 0 <= j < 2 ::
      !(StartNonce(2, j) <= 2147483646 < EndNonceAsWritten(2, j))
  {
    assert NonceRange(2) == 2147483647;
    assert StartNonce(2, 1) == 2147483647;
  }

  lemma DivFloor(a: nat, d: nat)
    requires d >= 1
    ensures d * (a / d) <= a && (a >= d ==> a / d >= 1)
  {
  }

  lemma DivBounds(n: nat, d: nat)
    requires d >= 1
    ensures (n / d) * d <= n < (n / d) * d + d
  {
  }

  lemma MulMonotone(a: nat, b: nat, c: nat)
    requires a <= b
    ensures a * c <= b * c
  {
  }

  lemma MulLess(i: nat, n: nat, r: nat)
    requires i < n
    ensures i * r + r <= n * r
  {
    MulMonotone(i + 1, n, r);
  }

  lemma LastStartBelowMax(threadCount: nat)
    requires 1 <= threadCount <= U32Max
    ensures StartNonce(threadCount, threadCount - 1) < U32Max
  {
  }

  /** The block-header hash of the source: SHA-256 applied twice. */
  function DoubleHash(data: seq<Byte>): Bytes32
  {
    Hash(Hash(data))
  }

  /**
   * The hash the source's workers compute for a header: double SHA-256 of its 80-byte
   * serialization. MiningThread below takes its hash function as the parameter hashOf; this is
   * the function the source's worker uses in that place.
   */
  function HeaderHash(h: BlockHeader): Bytes32
  {
    DoubleHash(Serialize(h))
  }

  /** Whether the header with nonce n hashes, under hashOf, to a value that meets the target. */
  predicate IsShare(hashOf: BlockHeader -> Bytes32, header: BlockHeader, target: Bytes32, n: U32)
  {
    IsValidHash(target, hashOf(header.(nonce := n)))
  }

  /**
   * Under the source's hash, a nonce gives a share exactly when SHA-256 applied twice to the
   * header's 80 bytes, which end in the nonce little-endian, meets the target.
   */
  lemma HeaderHashShare(header: BlockHeader, target: Bytes32, n: U32)
    ensures var bytes := Serialize(header.(nonce := n));
      bytes[76..80] == LittleEndian(n) &&
      (IsShare(HeaderHash, header, target, n) <==> IsValidHash(target, Hash(Hash(bytes))))
  {
  }

  /** The number of shares among the count nonces from `from` on. */
  function Shares(hashOf: BlockHeader -> Bytes32, header: BlockHeader, target: Bytes32, from: nat, count: nat): (r: nat)
    requires from + count <= U32Max + 1
    ensures r <= count
  {
    if count == 0 then 0
    else
      Shares(hashOf, header, target, from, count - 1)
        + (if IsShare(hashOf, header, target, from + count - 1) then 1 else 0)
  }

  /** When every nonce of the range meets the target, each one is a share ... */
  lemma {:induction false} SharesAllMeet(hashOf: BlockHeader -> Bytes32, header: BlockHeader,
    target: Bytes32, from: nat, count: nat)
    requires from + count <= U32Max + 1
    requires forall n :: from <= n < from + count ==> IsShare(hashOf, header, target, n)
    ensures Shares(hashOf, header, target, from, count) == count
  {
    if count > 0 {
      SharesAllMeet(hashOf, header, target, from, count - 1);
    }
  }

  /** ... and when none does, there is no share. */
  lemma {:induction false} SharesNoneMeet(hashOf: BlockHeader -> Bytes32, header: BlockHeader,
    target: Bytes32, from: nat, count: nat)
    requires from + count <= U32Max + 1
    requires forall n :: from <= n < from + count ==> !IsShare(hashOf, header, target, n)
    ensures Shares(hashOf, header, target, from, count) == 0
  {
    if count > 0 {
      SharesNoneMeet(hashOf, header, target, from, count - 1);
    }
  }

  /**
   * The iterations of a worker loop that starts at nonce and stops at end, or as soon as it sees
   * the running flag cleared; runningAt(n) is what it sees before hashing nonce n.
   */
  function Steps(runningAt: nat -> bool, nonce: nat, end: nat): (r: nat)
    ensures nonce + r <= end || r == 0
    decreases end - nonce
  {
    if runningAt(nonce) && nonce < end then 1 + Steps(runningAt, nonce + 1, end) else 0
  }

  /** While the flag stays set, the loop hashes every nonce of [start, end). */
  lemma {:induction false} StepsWhileRunning(runningAt: nat -> bool, start: nat, end: nat)
    requires start <= end
    requires forall n :: start <= n < end ==> runningAt(n)
    ensures Steps(runningAt, start, end) == end - start
    decreases end - start
  {
    if start < end {
      StepsWhileRunning(runningAt, start + 1, end);
    }
  }

  /** A loop that sees the flag cleared before its first nonce hashes nothing. */
  lemma StepsStopped(runningAt: nat -> bool, start: nat, end: nat)
    requires !runningAt(start)
    ensures Steps(runningAt, start, end) == 0
  {
  }

  /** x reduced modulo 2^64. */
  function Wrap(x: nat): (r: nat)
    ensures r < U64Modulus
    decreases x
  {
    if x < U64Modulus then x else Wrap(x - U64Modulus)
  }

  /** Wrap is the remainder modulo 2^64. */
  lemma {:induction false} WrapIsRemainder(x: nat)
    ensures Wrap(x) == x % U64Modulus
    decreases x
  {
    if x >= U64Modulus {
      WrapIsRemainder(x - U64Modulus);
    }
  }

  /** Reducing early does not change the final remainder. */
  lemma {:induction false} WrapAdd(x: nat, y: nat)
    ensures Wrap(Wrap(x) + y) == Wrap(x + y)
    decreases x
  {
    if x >= U64Modulus {
      WrapAdd(x - U64Modulus, y);
      assert Wrap(x + y) == Wrap(x - U64Modulus + y);
    }
  }

  /** u64 `wrapping_add`, which `fetch_add` performs on an atomic counter. */
  function WrappingAdd(a: nat, b: nat): (r: nat)
    requires a < U64Modulus && b < U64Modulus
    ensures r == Wrap(a + b)
  {
    if a + b < U64Modulus then a + b
    else
      assert Wrap(a + b) == Wrap(a + b - U64Modulus);
      a + b - U64Modulus
  }

  /** The coordinator of one mining session: its flag and the counters its workers share. */
  class MiningCoordinator {
    const config: MiningConfig
    const hardware: HardwareProfile
    var running: bool
    var totalHashes: nat
    var sharesFound: nat
    /** The hashes and shares counted since creation, without wrap-around. */
    ghost var hashesCounted: nat
    ghost var sharesCounted: nat

    /** The u64 counters hold the counts modulo 2^64, and the hardware passed the suitability test. */
    ghost predicate Valid()
      reads this`totalHashes, this`sharesFound, this`hashesCounted, this`sharesCounted
    {
      totalHashes == Wrap(hashesCounted) && sharesFound == Wrap(sharesCounted)
      && IsSuitableForMining(hardware)
    }

    constructor (config: MiningConfig, hardware: HardwareProfile)
      requires IsSuitableForMining(hardware)
      ensures this.config == config && this.hardware == hardware
      ensures !running && totalHashes == 0 && sharesFound == 0 && Valid()
      ensures hashesCounted == 0 && sharesCounted == 0
    {
      this.config := config;
      this.hardware := hardware;
      running := false;
      totalHashes := 0;
      sharesFound := 0;
      hashesCounted, sharesCounted := 0, 0;
    }

    /**
     * A coordinator for the detected hardware, refused when the hardware is not suitable; a new
     * coordinator is stopped and has counted nothing.
     */
    static method New(config: MiningConfig, hardware: HardwareProfile) returns (r: Result<MiningCoordinator>)
      ensures r.Err? <==> !IsSuitableForMining(hardware)
      ensures r.Err? ==> r.error == HardwareDetection("Hardware does not meet minimum requirements for mining")
      ensures r.Ok? ==> fresh(r.value) && r.value.Valid() && !r.value.IsRunning()
      ensures r.Ok? ==> r.value.Stats().totalHashes == 0 && r.value.Stats().sharesFound == 0
      ensures r.Ok? ==> r.value.config == config && r.value.hardware == hardware
    {
      if !IsSuitableForMining(hardware) {
        return Err(HardwareDetection("Hardware does not meet minimum requirements for mining"));
      }
      var c := new MiningCoordinator(config, hardware);
      r := Ok(c);
    }

    /** The number of worker threads: the configured count for the physical cores. */
    function ThreadCount(): (n: nat)
      requires IsSuitableForMining(hardware)
      ensures n >= 1
    {
      EffectiveThreadCount(config, hardware.physicalCores)
    }

    /**
     * Refuses to start twice; otherwise sets the flag and hands thread i the nonces
     * [StartNonce(i), EndNonce(i)) of the job. These are the corrected ranges: the source ends
     * each non-last thread one nonce earlier, at EndNonceAsWritten(i), see RangesAsWrittenSkip.
     */
    method Start(job: MiningJob) returns (r: Result<()>, ranges: seq<(U32, U32)>)
      requires Valid() && ThreadCount() <= U32Max
      modifies this`running
      ensures old(running) ==> r == Err(Coordinator("Mining already running")) && running && ranges == []
      ensures !old(running) ==> r == Ok(()) && running && |ranges| == ThreadCount()
      ensures !old(running) ==> forall i :: 0 <= i < |ranges| ==>
        ranges[i] == (StartNonce(ThreadCount(), i), EndNonce(ThreadCount(), i))
    {
      if running {
        return Err(Coordinator("Mining already running")), [];
      }
      running := true;
      var threadCount := ThreadCount();
      var nonceRange := NonceRange(threadCount);
      ranges := [];
      for threadId := 0 to threadCount
        invariant |ranges| == threadId
        invariant forall i :: 0 <= i < threadId ==>
          ranges[i] == (StartNonce(threadCount, i), EndNonce(threadCount, i))
      {
        var startNonce := threadId * nonceRange;
        assert startNonce == StartNonce(threadCount, threadId);
        var endNonce := if threadId == threadCount - 1 then U32Max else startNonce + nonceRange;
        ranges := ranges + [(startNonce, endNonce)];
      }
      r := Ok(());
    }

    method Stop()
      modifies this`running
      ensures !running && !IsRunning()
    {
      running := false;
    }

    predicate IsRunning()
      reads this`running
    {
      running
    }

    /** The two counters; every other statistic keeps its default. */
    function Stats(): (s: MiningStats)
      reads this`totalHashes, this`sharesFound
      ensures s.totalHashes == totalHashes && s.sharesFound == sharesFound
      ensures s.(totalHashes := 0, sharesFound := 0) == DefaultStats
    {
      DefaultStats.(totalHashes := totalHashes, sharesFound := sharesFound)
    }

    /**
     * One worker: hashes the header with each nonce from startNonce on, counting shares, until
     * it reaches endNonce (excluded) or sees the flag cleared. Hashes are added to the total in
     * batches of 1000 and once more at the end, so the total grows by exactly the number of
     * nonces hashed; the counters wrap like u64 atomics.
     */
    method MiningThread(header: BlockHeader, target: Bytes32, startNonce: U32, endNonce: U32,
      runningAt: nat -> bool, hashOf: BlockHeader -> Bytes32) returns (ghost hashed: nat)
      requires Valid()
      modifies this`totalHashes, this`sharesFound, this`hashesCounted, this`sharesCounted
      ensures Valid()
      ensures hashed == Steps(runningAt, startNonce, endNonce)
      ensures hashesCounted == old(hashesCounted) + hashed
      ensures sharesCounted == old(sharesCounted) + Shares(hashOf, header, target, startNonce, hashed)
    {
      var nonce: nat := startNonce;
      var batchCount: nat := 0;
      while runningAt(nonce) && nonce < endNonce
        invariant startNonce <= nonce <= U32Max && Valid()
        invariant Steps(runningAt, startNonce, endNonce) == nonce - startNonce + Steps(runningAt, nonce, endNonce)
        invariant batchCount < BatchSize
        invariant hashesCounted + batchCount == old(hashesCounted) + nonce - startNonce
        invariant sharesCounted == old(sharesCounted) + Shares(hashOf, header, target, startNonce, nonce - startNonce)
        decreases endNonce - nonce
      {
        batchCount := HashNonce(header, target, nonce, hashOf, batchCount);
        nonce := nonce + 1;
      }
      if batchCount > 0 {
        AddHashes(batchCount);
      }
      hashed := nonce - startNonce;
    }

    /**
     * One nonce of the worker loop: hashes the header with it, counts a share when the hash meets
     * the target, and adds the hash to the batch, flushing a full batch to the total.
     */
    method HashNonce(header: BlockHeader, target: Bytes32, nonce: U32, hashOf: BlockHeader -> Bytes32,
      batchCount: nat) returns (batch: nat)
      requires Valid() && batchCount < BatchSize
      modifies this`totalHashes, this`sharesFound, this`hashesCounted, this`sharesCounted
      ensures Valid() && batch < BatchSize
      ensures hashesCounted + batch == old(hashesCounted) + batchCount + 1
      ensures sharesCounted == old(sharesCounted) + if IsShare(hashOf, header, target, nonce) then 1 else 0
    {
      var hash := hashOf(header.(nonce := nonce));
      if IsValidHash(target, hash) {
        AddShares(1);
      }
      batch := batchCount + 1;
      if batch == BatchSize {
        AddHashes(batch);
        batch := 0;
      }
    }

    /** `fetch_add` on the hash counter: n more hashes are counted, modulo 2^64. */
    method AddHashes(n: nat)
      requires Valid() && n < U64Modulus
      modifies this`totalHashes, this`hashesCounted
      ensures Valid() && hashesCounted == old(hashesCounted) + n
    {
      WrapAdd(hashesCounted, n);
      totalHashes := WrappingAdd(totalHashes, n);
      hashesCounted := hashesCounted + n;
    }

    /** `fetch_add` on the share counter: n more shares are counted, modulo 2^64. */
    method AddShares(n: nat)
      requires Valid() && n < U64Modulus
      modifies this`sharesFound, this`sharesCounted
      ensures Valid() && sharesCounted == old(sharesCounted) + n
    {
      WrapAdd(sharesCounted, n);
      sharesFound := WrappingAdd(sharesFound, n);
      sharesCounted := sharesCounted + n;
    }
  }
}

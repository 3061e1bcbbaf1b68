/**
 * Reward bookkeeping (src/impl/reward_distribution.rs): per-worker share counters, the share
 * history kept for PPLNS, the blocks found and their confirmations, the split of a block's reward
 * among workers, the crediting of rewards and the payouts drawn from them. Instants are plain
 * timestamps passed in by the caller; amounts are whole satoshis.
 */
module RewardDistribution {
  import opened Errors
  import Decimal

  datatype RewardMethod = Pps | Pplns | Prop | Score | Solo
  {
    function Name(): string
    {
      match this
      case Pps => "Pay Per Share"
      case Pplns => "Pay Per Last N Shares"
      case Prop => "Proportional"
      case Score => "Score-Based"
      case Solo => "Solo Mining"
    }
  }

  /** A submitted share; the difficulty is a floating-point number, exact here. */
  datatype Share = Share(
    id: nat,
    workerId: string,
    difficulty: real,
    timestamp: nat,
    accepted: bool,
    blockHeight: nat)

  datatype BlockReward = BlockReward(
    height: nat,
    hash: string,
    rewardSats: nat,
    feesSats: nat,
    foundAt: nat,
    isMature: bool,
    confirmations: nat)
  {
    /** The block subsidy plus the fees. */
    function TotalSats(): (total: nat)
      ensures rewardSats <= total && feesSats <= total
      ensures total == 0 <==> rewardSats == 0 && feesSats == 0
    {
      rewardSats + feesSats
    }
  }

  /** The source's test: a 625,000,000 subsidy and 1,000,000 in fees make 626,000,000. */
  lemma TotalSatsExample(b: BlockReward)
    requires b.rewardSats == 625_000_000 && b.feesSats == 1_000_000
    ensures b.TotalSats() == 626_000_000
  {
  }

  datatype WorkerStats = WorkerStats(
    workerId: string,
    sharesSubmitted: nat,
    sharesAccepted: nat,
    sharesRejected: nat,
    totalDifficulty: real,
    pendingRewardSats: nat,
    paidRewardSats: nat,
    lastShare: Option<nat>,
    activeSince: Option<nat>)

  /** A worker seen for the first time at `now`: nothing counted, nothing owed. */
  function NewWorker(workerId: string, now: nat): (w: WorkerStats)
    ensures w.workerId == workerId && w.activeSince == Some(now) && w.lastShare == None
    ensures w.sharesSubmitted == 0 && w.pendingRewardSats == 0 && w.paidRewardSats == 0
    ensures Balanced(w)
  {
    WorkerStats(workerId, 0, 0, 0, 0.0, 0, 0, None, Some(now))
  }

  /** Every submitted share was either accepted or rejected. */
  predicate Balanced(w: WorkerStats)
  {
    w.sharesSubmitted == w.sharesAccepted + w.sharesRejected
  }

  /**
   * The worker's counters after one more share: one more submitted and one more of exactly one
   * of accepted or rejected; an accepted share adds its difficulty.
   */
  function CountShare(w: WorkerStats, difficulty: real, accepted: bool, now: nat): (r: WorkerStats)
    ensures r.sharesSubmitted == w.sharesSubmitted + 1
    ensures accepted ==> r.sharesAccepted == w.sharesAccepted + 1 && r.sharesRejected == w.sharesRejected
    ensures !accepted ==> r.sharesRejected == w.sharesRejected + 1 && r.sharesAccepted == w.sharesAccepted
    ensures Balanced(w) ==> Balanced(r)
    ensures r.workerId == w.workerId && r.lastShare == Some(now)
    ensures r.pendingRewardSats == w.pendingRewardSats && r.paidRewardSats == w.paidRewardSats
  {
    var counted := w.(sharesSubmitted := w.sharesSubmitted + 1, lastShare := Some(now));
    if accepted then
      counted.(sharesAccepted := w.sharesAccepted + 1, totalDifficulty := w.totalDifficulty + difficulty)
    else
      counted.(sharesRejected := w.sharesRejected + 1)
  }

  /**
   * The workers after a share from workerId as the source writes it: a worker seen for the first
   * time is registered with an empty id instead of its own.
   */
  function CountWorkerShareAsWritten(workers: map<string, WorkerStats>, workerId: string,
    difficulty: real, accepted: bool, now: nat): (r: map<string, WorkerStats>)
    ensures r.Keys == workers.Keys + {workerId}
  {
    var stats := if workerId in workers then workers[workerId] else NewWorker("", now);
    workers[workerId := CountShare(stats, difficulty, accepted, now)]
  }

  /**
   * As written, the first share of an unregistered worker with a non-empty id stores statistics
   * whose id is not the worker's: the statistics read back name no worker.
   */
  lemma AsWrittenLosesWorkerId(workers: map<string, WorkerStats>, workerId: string,
    difficulty: real, accepted: bool, now: nat)
    requires workerId !in workers && workerId != ""
    ensures var r := CountWorkerShareAsWritten(workers, workerId, difficulty, accepted, now);
      r[workerId].workerId == "" && r[workerId].workerId != workerId
  {
  }

  datatype PayoutStatus = Pending | Processing | Completed | Failed(reason: string)

  datatype Payout = Payout(
    id: nat,
    workerId: string,
    amountSats: nat,
    address: string,
    txid: Option<string>,
    status: PayoutStatus,
    createdAt: nat,
    completedAt: Option<nat>)

  /** The fee and the score decay are floating-point numbers, exact here. */
  datatype RewardConfig = RewardConfig(
    rewardMethod: RewardMethod,
    poolFeePercent: real,
    minPayoutSats: nat,
    pplnsWindow: nat,
    maturityConfirmations: nat,
    scoreDecay: real)

  /** PPLNS over the last 100,000 shares, a 1% fee, payouts from 10,000 satoshis. */
  const DefaultRewardConfig := RewardConfig(Pplns, 1.0, 10_000, 100_000, 100, 0.9999)

  /**
   * The share history after a new share was appended: under PPLNS only the newest pplnsWindow
   * shares are kept, the oldest being dropped first; other methods keep everything.
   */
  function Trimmed(config: RewardConfig, s: seq<Share>): (r: seq<Share>)
    ensures |r| <= |s|
    ensures config.rewardMethod == Pplns ==> |r| == if |s| > config.pplnsWindow then config.pplnsWindow else |s|
    ensures config.rewardMethod != Pplns ==> r == s
  {
    if config.rewardMethod == Pplns && |s| > config.pplnsWindow then s[|s| - config.pplnsWindow..] else s
  }

  /** Share ids strictly increase along the history. */
  predicate IdsIncrease(s: seq<Share>)
  {
    forall i, j :: 0 <= i < j < |s| ==> s[i].id < s[j].id
  }

  /** Trimming keeps a suffix: what is dropped are the oldest shares, and the newest stays last. */
  lemma TrimmedSuffix(config: RewardConfig, s: seq<Share>, share: Share)
    ensures var r := Trimmed(config, s + [share]);
      r == (s + [share])[|s| + 1 - |r|..]
      && (config.rewardMethod != Pplns || config.pplnsWindow > 0 ==> r[|r| - 1] == share)
  {
  }

  /**
   * Appending a share with a larger id than any before it and trimming keeps the ids increasing
   * and none above the new one.
   */
  lemma TrimmedIds(config: RewardConfig, s: seq<Share>, share: Share)
    requires IdsIncrease(s) && forall i :: 0 <= i < |s| ==> s[i].id < share.id
    ensures var r := Trimmed(config, s + [share]);
      IdsIncrease(r) && forall i :: 0 <= i < |r| ==> r[i].id <= share.id
  {
    var t := s + [share];
    assert IdsIncrease(t);
  }

  predicate PayoutIdsIncrease(p: seq<Payout>)
  {
    forall i, j :: 0 <= i < j < |p| ==> p[i].id < p[j].id
  }

  /** The elements of s that keep accepts, in their order. */
  function Filter<T(!new)>(s: seq<T>, keep: T -> bool): (r: seq<T>)
    ensures |r| <= |s|
    ensures forall x :: x in r <==> x in s && keep(x)
  {
    if s == [] then []
    else
      var rest := Filter(s[1..], keep);
      assert forall x :: x in s <==> x == s[0] || x in s[1..];
      if keep(s[0]) then [s[0]] + rest else rest
  }

  /** At most the first n elements of s. */
  function Take<T>(s: seq<T>, n: nat): (r: seq<T>)
    ensures |r| == if |s| <= n then |s| else n
    ensures r == s[..|r|]
  {
    if |s| <= n then s else s[..n]
  }

  /** The index of the first element of s that matches, if there is one. */
  function FirstIndex<T(!new)>(s: seq<T>, matches: T -> bool): (r: Option<nat>)
    ensures r.None? <==> forall i :: 0 <= i < |s| ==> !matches(s[i])
    ensures r.Some? ==> r.value < |s| && matches(s[r.value])
    ensures r.Some? ==> forall i :: 0 <= i < r.value ==> !matches(s[i])
  {
    if s == [] then None
    else if matches(s[0]) then Some(0)
    else
      var rest := FirstIndex(s[1..], matches);
      assert forall i :: 1 <= i < |s| ==> s[i] == s[1..][i - 1];
      if rest.None? then None else Some(rest.value + 1)
  }

  /** The position of the first block recorded at a height. */
  function BlockIndex(blocks: seq<BlockReward>, height: nat): Option<nat>
  {
    FirstIndex(blocks, (b: BlockReward) => b.height == height)
  }

  /** The position of the first payout with an id. */
  function PayoutIndex(payouts: seq<Payout>, id: nat): Option<nat>
  {
    FirstIndex(payouts, (p: Payout) => p.id == id)
  }

  /** The worker of the last accepted share, if any share was accepted: the block finder. */
  function LastAcceptedWorker(s: seq<Share>): (r: Option<string>)
    ensures r.None? <==> forall i :: 0 <= i < |s| ==> !s[i].accepted
    ensures r.Some? ==> exists i :: (0 <= i < |s| && s[i].accepted && s[i].workerId == r.value
      && forall j :: i < j < |s| ==> !s[j].accepted)
  {
    if s == [] then None
    else if s[|s| - 1].accepted then Some(s[|s| - 1].workerId)
    else
      var rest := LastAcceptedWorker(s[..|s| - 1]);
      assert forall i :: 0 <= i < |s| - 1 ==> s[i] == s[..|s| - 1][i];
      rest
  }

  /**
   * The pool's cut of a total, in whole satoshis: the percentage of it rounded down, and 0 for a
   * percentage that is not positive (the float-to-integer cast saturates at 0).
   */
  function PoolFee(total: nat, feePercent: real): (fee: nat)
    ensures feePercent <= 100.0 ==> fee <= total
    ensures feePercent <= 0.0 ==> fee == 0
  {
    if feePercent <= 0.0 then 0
    else
      CutAtMost(total as real, feePercent);
      ToSats(total as real * feePercent / 100.0)
  }

  lemma CutAtMost(total: real, percent: real)
    requires 0.0 <= total && 0.0 < percent
    ensures 0.0 <= total * percent / 100.0
    ensures percent <= 100.0 ==> total * percent / 100.0 <= total
  {
    if percent <= 100.0 {
      assert total * percent <= total * 100.0;
    }
  }

  /** What the workers share after the pool's cut. */
  function Distributable(total: nat, feePercent: real): (d: nat)
    requires feePercent <= 100.0
    ensures d <= total && d + PoolFee(total, feePercent) == total
  {
    total - PoolFee(total, feePercent)
  }

  /** A real amount as whole satoshis: rounded down, and 0 when it is not positive. */
  function ToSats(x: real): (n: nat)
    ensures x <= 0.0 ==> n == 0
    ensures 0.0 < x ==> n as real <= x < n as real + 1.0
  {
    if x <= 0.0 then 0 else x.Floor
  }

  function Difficulties(s: seq<Share>): real
  {
    if s == [] then 0.0 else Difficulties(s[..|s| - 1]) + s[|s| - 1].difficulty
  }

  /** One share's part of the distributable amount: its share of the total difficulty. */
  function ShareReward(share: Share, distributable: nat, totalDifficulty: real): nat
  {
    var proportion := if totalDifficulty == 0.0 then 0.0 else share.difficulty / totalDifficulty;
    ToSats(distributable as real * proportion)
  }

  /** A worker's statistics with an amount added to its pending balance; nothing else changes. */
  function Credited(w: WorkerStats, amount: nat): (r: WorkerStats)
    ensures r.pendingRewardSats == w.pendingRewardSats + amount
    ensures r.(pendingRewardSats := w.pendingRewardSats) == w
  {
    w.(pendingRewardSats := w.pendingRewardSats + amount)
  }

  /** The amount owed to a worker in a map of rewards: 0 for a worker not in it. */
  function Owed(rewards: map<string, nat>, workerId: string): nat
  {
    if workerId in rewards then rewards[workerId] else 0
  }

  /**
   * The rewards of the first shares of s: each share's reward is added to its worker's entry,
   * which starts at 0; exactly the workers of those shares have an entry.
   */
  function SplitByDifficulty(s: seq<Share>, distributable: nat, totalDifficulty: real): (r: map<string, nat>)
    ensures forall w :: w in r <==> exists i :: 0 <= i < |s| && s[i].workerId == w
  {
    if s == [] then map[]
    else
      var before := SplitByDifficulty(s[..|s| - 1], distributable, totalDifficulty);
      var last := s[|s| - 1];
      assert forall i :: 0 <= i < |s| - 1 ==> s[..|s| - 1][i] == s[i];
      before[last.workerId := Owed(before, last.workerId) + ShareReward(last, distributable, totalDifficulty)]
  }

  lemma SplitStep(s: seq<Share>, i: nat, distributable: nat, totalDifficulty: real)
    requires i < |s|
    ensures var before := SplitByDifficulty(s[..i], distributable, totalDifficulty);
      SplitByDifficulty(s[..i + 1], distributable, totalDifficulty)
        == before[s[i].workerId := Owed(before, s[i].workerId) + ShareReward(s[i], distributable, totalDifficulty)]
  {
    assert s[..i + 1][..i] == s[..i];
  }

  /** A worker without shares in s gets nothing; one whose only share is last gets its part. */
  lemma SplitAddsShare(s: seq<Share>, share: Share, distributable: nat, totalDifficulty: real)
    ensures Owed(SplitByDifficulty(s + [share], distributable, totalDifficulty), share.workerId)
      == Owed(SplitByDifficulty(s, distributable, totalDifficulty), share.workerId)
         + ShareReward(share, distributable, totalDifficulty)
  {
    assert (s + [share])[..|s|] == s;
  }

  /**
   * The source's test: shares of difficulty 2 and 1 from two workers split 300 satoshis into
   * 200 and 100.
   */
  lemma SplitExample(a: Share, b: Share)
    requires a.workerId != b.workerId && a.difficulty == 2.0 && b.difficulty == 1.0
    ensures Difficulties([a, b]) == 3.0
    ensures SplitByDifficulty([a, b], 300, 3.0) == map[a.workerId := 200, b.workerId := 100]
  {
    assert [a, b][..1] == [a];
    assert [a][..0] == [];
    assert Difficulties([a]) == 2.0;
    assert ShareReward(a, 300, 3.0) == 200 by {
      assert 300 as real * (2.0 / 3.0) == 200.0;
    }
    assert ShareReward(b, 300, 3.0) == 100 by {
      assert 300 as real * (1.0 / 3.0) == 100.0;
    }
  }

  /** The payouts still waiting to be processed, in their order. */
  function PendingOf(payouts: seq<Payout>): (r: seq<Payout>)
    ensures forall p :: p in r <==> p in payouts && p.status == Pending
  {
    Filter(payouts, (p: Payout) => p.status == Pending)
  }

  /** A block after a confirmation update for `height`; other blocks are unchanged. */
  function Confirmed(b: BlockReward, height: nat, confirmations: nat, maturity: nat): (r: BlockReward)
    ensures b.height != height ==> r == b
    ensures b.height == height ==>
      r.confirmations == confirmations && (r.isMature <==> confirmations >= maturity)
    ensures r == b.(confirmations := r.confirmations, isMature := r.isMature)
  {
    if b.height == height then b.(confirmations := confirmations, isMature := confirmations >= maturity)
    else b
  }

  class RewardDistributor {
    const config: RewardConfig
    var workers: map<string, WorkerStats>
    /** The share history, oldest first. */
    var shares: seq<Share>
    var blocks: seq<BlockReward>
    var payouts: seq<Payout>
    var shareCounter: nat
    var payoutCounter: nat
    var currentHeight: nat

    /**
     * Every worker is stored under its own id and its counters balance; under PPLNS the history
     * fits the window; share and payout ids increase and none exceeds its counter.
     */
    predicate Valid()
      reads this`workers, this`shares, this`payouts, this`shareCounter, this`payoutCounter
    {
      WorkersValid() && SharesValid() && PayoutsValid()
    }

    /** Every worker is stored under its own id and its counters balance. */
    predicate WorkersValid()
      reads this`workers
    {
      forall id :: id in workers ==> workers[id].workerId == id && Balanced(workers[id])
    }

    /** Under PPLNS the history fits the window; ids increase and none exceeds the counter. */
    predicate SharesValid()
      reads this`shares, this`shareCounter
    {
      (config.rewardMethod == Pplns ==> |shares| <= config.pplnsWindow)
      && IdsIncrease(shares) && (forall i :: 0 <= i < |shares| ==> shares[i].id <= shareCounter)
    }

    /** Payout ids increase and none exceeds the counter. */
    predicate PayoutsValid()
      reads this`payouts, this`payoutCounter
    {
      PayoutIdsIncrease(payouts) && (forall i :: 0 <= i < |payouts| ==> payouts[i].id <= payoutCounter)
    }

    constructor (config: RewardConfig)
      ensures Valid() && this.config == config
      ensures workers == map[] && shares == [] && blocks == [] && payouts == []
      ensures shareCounter == 0 && payoutCounter == 0 && currentHeight == 0
    {
      this.config := config;
      workers := map[];
      shares := [];
      blocks := [];
      payouts := [];
      shareCounter := 0;
      payoutCounter := 0;
      currentHeight := 0;
    }

    /** Adds a worker seen at `now`; a worker already known keeps its statistics. */
    method RegisterWorker(workerId: string, now: nat) returns (r: Result<()>)
      requires Valid()
      modifies this`workers
      ensures Valid() && r == Ok(())
      ensures workerId in old(workers) ==> workers == old(workers)
      ensures workerId !in old(workers) ==> workers == old(workers)[workerId := NewWorker(workerId, now)]
    {
      if workerId !in workers {
        workers := workers[workerId := NewWorker(workerId, now)];
      }
      r := Ok(());
    }

    /**
     * Records a share at the current height under the next id (1, 2, 3, ...), trims the history
     * under PPLNS, and counts the share for its worker, registering an unknown worker first.
     */
    method RecordShare(workerId: string, difficulty: real, accepted: bool, now: nat) returns (r: Result<nat>)
      requires Valid()
      modifies this`shareCounter, this`shares, this`workers
      ensures Valid()
      ensures shareCounter == old(shareCounter) + 1 && r == Ok(shareCounter)
      ensures shares == Trimmed(config,
        old(shares) + [Share(shareCounter, workerId, difficulty, now, accepted, currentHeight)])
      ensures workers == old(workers)[workerId := CountShare(
        if workerId in old(workers) then old(workers)[workerId] else NewWorker(workerId, now),
        difficulty, accepted, now)]
    {
      var id := AppendShare(workerId, difficulty, accepted, now);
      CountWorkerShare(workerId, difficulty, accepted, now);
      r := Ok(id);
    }

    /** The history part of RecordShare: the next id, appended and trimmed. */
    method AppendShare(workerId: string, difficulty: real, accepted: bool, now: nat) returns (id: nat)
      requires SharesValid()
      modifies this`shareCounter, this`shares
      ensures SharesValid()
      ensures shareCounter == old(shareCounter) + 1 && id == shareCounter
      ensures shares == Trimmed(config,
        old(shares) + [Share(shareCounter, workerId, difficulty, now, accepted, currentHeight)])
    {
      shareCounter := shareCounter + 1;
      var share := Share(shareCounter, workerId, difficulty, now, accepted, currentHeight);
      TrimmedIds(config, shares, share);
      shares := shares + [share];
      if config.rewardMethod == Pplns && |shares| > config.pplnsWindow {
        var excess := |shares| - config.pplnsWindow;
        shares := shares[excess..];
      }
      id := shareCounter;
    }

    /** The worker part of RecordShare: an unknown worker is registered, then the share counted. */
    method CountWorkerShare(workerId: string, difficulty: real, accepted: bool, now: nat)
      requires WorkersValid()
      modifies this`workers
      ensures WorkersValid()
      ensures workers == old(workers)[workerId := CountShare(
        if workerId in old(workers) then old(workers)[workerId] else NewWorker(workerId, now),
        difficulty, accepted, now)]
    {
      var stats := if workerId in workers then workers[workerId] else NewWorker(workerId, now);
      workers := workers[workerId := CountShare(stats, difficulty, accepted, now)];
    }

    method RecordBlock(reward: BlockReward) returns (r: Result<()>)
      modifies this`blocks
      ensures r == Ok(()) && blocks == old(blocks) + [reward]
    {
      blocks := blocks + [reward];
      r := Ok(());
    }

    method SetBlockHeight(height: nat) returns (r: Result<()>)
      modifies this`currentHeight
      ensures r == Ok(()) && currentHeight == height
    {
      currentHeight := height;
      r := Ok(());
    }

    /**
     * Sets the confirmations of every block at `height`, which is mature from the configured
     * number of confirmations on; blocks at other heights are not touched.
     */
    method UpdateConfirmations(height: nat, confirmations: nat) returns (r: Result<()>)
      modifies this`blocks
      ensures r == Ok(()) && |blocks| == |old(blocks)|
      ensures forall i :: 0 <= i < |blocks| ==>
        blocks[i] == Confirmed(old(blocks)[i], height, confirmations, config.maturityConfirmations)
    {
      var i := 0;
      while i < |blocks|
        invariant 0 <= i <= |blocks| == |old(blocks)|
        invariant forall k :: 0 <= k < i ==>
          blocks[k] == Confirmed(old(blocks)[k], height, confirmations, config.maturityConfirmations)
        invariant forall k :: i <= k < |blocks| ==> blocks[k] == old(blocks)[k]
      {
        if blocks[i].height == height {
          blocks := blocks[i := blocks[i].(confirmations := confirmations,
            isMature := confirmations >= config.maturityConfirmations)];
        }
        i := i + 1;
      }
      r := Ok(());
    }

    /**
     * The rewards of the first block recorded at `blockHeight`, after the pool's cut, refused
     * when there is no such block. PPS pays nothing per block; solo mining pays everything to
     * the worker of the last accepted share; PPLNS (the first pplnsWindow accepted shares up to
     * that height) and proportional (the accepted shares at that height) split by difficulty,
     * and pay nothing without such shares. Score-based rewards decay with the age of each share
     * and are passed in as `scoreSplit` of the accepted shares and the distributable amount.
     * The pool's cut is at most 100%: a larger one makes the source's subtraction underflow.
     */
    method CalculateRewards(blockHeight: nat, scoreSplit: (seq<Share>, nat) -> map<string, nat>)
      returns (r: Result<map<string, nat>>)
      requires config.poolFeePercent <= 100.0
      ensures BlockIndex(blocks, blockHeight).None? ==>
        r == Err(Configuration("Block " + Decimal.Decimal(blockHeight) + " not found"))
      ensures r.Ok? ==> exists i :: 0 <= i < |blocks| && blocks[i].height == blockHeight
      ensures r.Ok? && config.rewardMethod == Pps ==> r.value == map[]
      ensures BlockIndex(blocks, blockHeight).Some? ==>
        var d := Distributable(blocks[BlockIndex(blocks, blockHeight).value].TotalSats(), config.poolFeePercent);
        var finder := LastAcceptedWorker(shares);
        r.Ok?
        && (config.rewardMethod == Solo ==> r.value == if finder.None? then map[] else map[finder.value := d])
        && (config.rewardMethod in {Pplns, Prop} ==>
          r.value == SplitByDifficulty(Relevant(blockHeight), d, Difficulties(Relevant(blockHeight))))
      ensures r.Ok? && config.rewardMethod in {Pplns, Prop} ==>
        r.value.Keys == set s | s in Relevant(blockHeight) :: s.workerId
    {
      var found := BlockIndex(blocks, blockHeight);
      if found.None? {
        return Err(Configuration("Block " + Decimal.Decimal(blockHeight) + " not found"));
      }
      var block := blocks[found.value];
      var distributable := Distributable(block.TotalSats(), config.poolFeePercent);
      match config.rewardMethod {
        case Pps =>
          r := Ok(map[]);
        case Solo =>
          var finder := LastAcceptedWorker(shares);
          r := Ok(if finder.None? then map[] else map[finder.value := distributable]);
        case Score =>
          r := Ok(scoreSplit(Filter(shares, (s: Share) => s.accepted), distributable));
        case _ =>
          var relevant := Relevant(blockHeight);
          var rewards := SplitRewards(relevant, distributable);
          SplitKeys(relevant, distributable);
          r := Ok(rewards);
      }
    }

    /** The shares PPLNS or proportional rewards are split over. */
    function Relevant(blockHeight: nat): (r: seq<Share>)
      reads this`shares
      ensures forall s :: s in r ==> s in shares && s.accepted
      ensures config.rewardMethod == Pplns ==>
        |r| <= config.pplnsWindow && forall s :: s in r ==> s.blockHeight <= blockHeight
      ensures config.rewardMethod == Prop ==>
        forall s :: s in r <==> s in shares && s.accepted && s.blockHeight == blockHeight
    {
      if config.rewardMethod == Pplns then
        var eligible := Filter(shares, (s: Share) => s.accepted && s.blockHeight <= blockHeight);
        var taken := Take(eligible, config.pplnsWindow);
        assert forall s :: s in taken ==> s in eligible;
        taken
      else
        Filter(shares, (s: Share) => s.accepted && s.blockHeight == blockHeight)
    }

    /** The total difficulty of the shares. */
    static method SumDifficulties(relevant: seq<Share>) returns (total: real)
      ensures total == Difficulties(relevant)
    {
      total := 0.0;
      var i := 0;
      while i < |relevant|
        invariant 0 <= i <= |relevant| && total == Difficulties(relevant[..i])
      {
        assert relevant[..i + 1][..i] == relevant[..i];
        total := total + relevant[i].difficulty;
        i := i + 1;
      }
      assert relevant[..i] == relevant;
    }

    /** Splits by difficulty: an empty share list pays nobody. */
    static method SplitRewards(relevant: seq<Share>, distributable: nat) returns (rewards: map<string, nat>)
      ensures rewards == SplitByDifficulty(relevant, distributable, Difficulties(relevant))
    {
      if relevant == [] {
        return map[];
      }
      var total := SumDifficulties(relevant);
      rewards := map[];
      var i := 0;
      while i < |relevant|
        invariant 0 <= i <= |relevant|
        invariant rewards == SplitByDifficulty(relevant[..i], distributable, total)
      {
        SplitStep(relevant, i, distributable, total);
        var share := relevant[i];
        rewards := rewards[share.workerId := Owed(rewards, share.workerId) + ShareReward(share, distributable, total)];
        i := i + 1;
      }
      assert relevant[..i] == relevant;
    }

    static lemma SplitKeys(relevant: seq<Share>, distributable: nat)
      ensures SplitByDifficulty(relevant, distributable, Difficulties(relevant)).Keys
        == set s | s in relevant :: s.workerId
    {
      var r := SplitByDifficulty(relevant, distributable, Difficulties(relevant));
      forall w | w in r
        ensures w in set s | s in relevant :: s.workerId
      {
        var i :| 0 <= i < |relevant| && relevant[i].workerId == w;
        assert relevant[i] in relevant;
      }
    }

    /** Adds each reward to its worker's pending balance; unknown workers are ignored. */
    method DistributeRewards(rewards: map<string, nat>) returns (r: Result<()>)
      requires WorkersValid()
      modifies this`workers
      ensures WorkersValid() && r == Ok(())
      ensures workers.Keys == old(workers).Keys
      ensures forall w :: w in workers ==> workers[w] == Credited(old(workers)[w], Owed(rewards, w))
    {
      var remaining := rewards.Keys;
      while remaining != {}
        invariant remaining <= rewards.Keys
        invariant workers.Keys == old(workers).Keys
        invariant forall w :: w in workers ==>
          workers[w] == Credited(old(workers)[w], if w in remaining then 0 else Owed(rewards, w))
        decreases remaining
      {
        var id :| id in remaining;
        if id in workers {
          workers := workers[id := Credited(workers[id], rewards[id])];
        }
        remaining := remaining - {id};
      }
      r := Ok(());
    }

    /**
     * Moves a known worker's whole pending balance into a new pending payout with the next id,
     * once it reaches the minimum; below it nothing changes. An unknown worker is refused.
     */
    method CreatePayout(workerId: string, address: string, now: nat) returns (r: Result<Option<Payout>>)
      requires Valid()
      modifies this`workers, this`payoutCounter, this`payouts
      ensures Valid()
      ensures workerId !in old(workers) ==>
        r == Err(Configuration("Worker not found: " + workerId))
      ensures (workerId !in old(workers) || old(workers)[workerId].pendingRewardSats < config.minPayoutSats) ==>
        workers == old(workers) && payouts == old(payouts) && payoutCounter == old(payoutCounter)
      ensures workerId in old(workers) && old(workers)[workerId].pendingRewardSats < config.minPayoutSats ==>
        r == Ok(None)
      ensures workerId in old(workers) && old(workers)[workerId].pendingRewardSats >= config.minPayoutSats ==>
        var payout := Payout(old(payoutCounter) + 1, workerId, old(workers)[workerId].pendingRewardSats,
          address, None, Pending, now, None);
        r == Ok(Some(payout)) && payouts == old(payouts) + [payout]
        && payoutCounter == old(payoutCounter) + 1
        && workers == old(workers)[workerId := old(workers)[workerId].(pendingRewardSats := 0)]
        && forall p :: p in old(payouts) ==> p.id != payout.id
    {
      if workerId !in workers {
        return Err(Configuration("Worker not found: " + workerId));
      }
      var stats := workers[workerId];
      if stats.pendingRewardSats < config.minPayoutSats {
        return Ok(None);
      }
      payoutCounter := payoutCounter + 1;
      var amount := stats.pendingRewardSats;
      workers := workers[workerId := stats.(pendingRewardSats := 0)];
      var payout := Payout(payoutCounter, workerId, amount, address, None, Pending, now, None);
      payouts := payouts + [payout];
      r := Ok(Some(payout));
    }

    /**
     * Marks the first payout with the id completed with its transaction id and adds its amount
     * to its worker's paid total, when that worker is known; an unknown id is refused.
     */
    method CompletePayout(payoutId: nat, txid: string, now: nat) returns (r: Result<()>)
      requires Valid()
      modifies this`payouts, this`workers
      ensures Valid()
      ensures PayoutIndex(old(payouts), payoutId).None? ==>
        r == Err(Configuration("Payout " + Decimal.Decimal(payoutId) + " not found"))
        && payouts == old(payouts) && workers == old(workers)
      ensures PayoutIndex(old(payouts), payoutId).Some? ==>
        var i := PayoutIndex(old(payouts), payoutId).value;
        var p := old(payouts)[i];
        r == Ok(()) && p.id == payoutId
        && payouts == old(payouts)[i := p.(txid := Some(txid), status := Completed, completedAt := Some(now))]
        && (p.workerId in old(workers) ==> workers == old(workers)[p.workerId :=
          old(workers)[p.workerId].(paidRewardSats := old(workers)[p.workerId].paidRewardSats + p.amountSats)])
        && (p.workerId !in old(workers) ==> workers == old(workers))
    {
      var found := PayoutIndex(payouts, payoutId);
      if found.None? {
        return Err(Configuration("Payout " + Decimal.Decimal(payoutId) + " not found"));
      }
      var i := found.value;
      var payout := payouts[i].(txid := Some(txid), status := Completed, completedAt := Some(now));
      payouts := payouts[i := payout];
      if payout.workerId in workers {
        var stats := workers[payout.workerId];
        workers := workers[payout.workerId := stats.(paidRewardSats := stats.paidRewardSats + payout.amountSats)];
      }
      r := Ok(());
    }

    /** The payouts still pending, in the order they were created. */
    function PendingPayouts(): (r: Result<seq<Payout>>)
      reads this`payouts
      ensures r.Ok? && forall p :: p in r.value <==> p in payouts && p.status == Pending
    {
      Ok(PendingOf(payouts))
    }
  }
}

/**
 * The hardware profile used to size mining (src/impl/hardware.rs): the basic detection from a
 * logical core count and a memory size, the performance tier, the suitability test and the
 * recommended number of threads. The operating-system queries behind the counts are inputs.
 */
module Hardware {
  import opened Errors

  const GiB: nat := 1024 * 1024 * 1024

  /** What the basic detection assumes when it cannot ask the system: 4 cores and 8 GiB. */
  const DefaultCores: nat := 4
  const DefaultMemory: nat := 8 * GiB

  datatype HardwareProfile = HardwareProfile(
    physicalCores: nat,
    logicalCores: nat,
    /** Bytes of memory. */
    availableMemory: nat,
    hasShaExtensions: bool,
    hasAvx2: bool,
    gpuAvailable: bool,
    gpuComputeUnits: Option<nat>,
    /** 1 (lowest) to 5 (highest). */
    performanceTier: nat)

  /**
   * The profile of a machine with the given logical cores and memory: half the logical cores are
   * taken to be physical, both counts are at least one, no CPU extension or GPU is assumed, and
   * the tier is computed from the logical count as detected.
   */
  function DetectBasic(logicalCores: nat, memory: nat): (p: HardwareProfile)
    ensures 1 <= p.physicalCores <= p.logicalCores
    ensures logicalCores >= 1 ==> p.logicalCores == logicalCores
    ensures 2 * p.physicalCores <= p.logicalCores || p.physicalCores == 1
    ensures p.availableMemory == memory && 1 <= p.performanceTier <= 5
    ensures !p.hasShaExtensions && !p.hasAvx2 && !p.gpuAvailable && p.gpuComputeUnits == None
  {
    var physical := logicalCores / 2;
    HardwareProfile(
      if physical < 1 then 1 else physical,
      if logicalCores < 1 then 1 else logicalCores,
      memory, false, false, false, None,
      CalculateTier(logicalCores, memory))
  }

  /** Detection always succeeds, with the fallback counts. */
  function Detect(): (r: Result<HardwareProfile>)
    ensures r.Ok? && IsSuitableForMining(r.value)
  {
    Ok(DetectBasic(DefaultCores, DefaultMemory))
  }

  /**
   * The default profile: the detected one, since detection never fails and the fallback profile
   * of the source is never used.
   */
  function DefaultProfile(): (p: HardwareProfile)
    ensures p.physicalCores == 2 && p.logicalCores == 4 && p.availableMemory == 8 * GiB
  {
    Detect().value
  }

  /** Banded score of the core count. */
  function CoreScore(cores: nat): nat
  {
    if cores <= 2 then 1 else if cores <= 4 then 2 else if cores <= 8 then 3
    else if cores <= 16 then 4 else 5
  }

  /** Banded score of whole GiB of memory. */
  function MemoryScore(memory: nat): nat
  {
    var gb := memory / GiB;
    if gb <= 4 then 1 else if gb <= 8 then 2 else if gb <= 16 then 3 else if gb <= 32 then 4 else 5
  }

  /** The mean of the two scores, rounded down: a tier from 1 to 5. */
  function CalculateTier(cores: nat, memory: nat): (t: nat)
    ensures 1 <= t <= 5
  {
    (CoreScore(cores) + MemoryScore(memory)) / 2
  }

  /** More cores and more memory never give a lower tier. */
  lemma TierMonotone(c1: nat, m1: nat, c2: nat, m2: nat)
    requires c1 <= c2 && m1 <= m2
    ensures CalculateTier(c1, m1) <= CalculateTier(c2, m2)
  {
    WholeGiBMonotone(m1, m2);
  }

  lemma WholeGiBMonotone(a: nat, b: nat)
    requires a <= b
    ensures a / GiB <= b / GiB
  {
  }

  /** The source's test: 16 cores and 32 GiB are at least tier 4. */
  lemma TierExample()
    ensures CalculateTier(16, 32 * GiB) >= 4
  {
    assert (32 * GiB) / GiB == 32;
  }

  /** At least two physical cores and at least 2 GiB of memory. */
  predicate IsSuitableForMining(p: HardwareProfile)
  {
    p.physicalCores >= 2 && p.availableMemory >= 2 * GiB
  }

  /** A detected machine is suitable exactly when it has four logical cores and 2 GiB. */
  lemma DetectedSuitable(logicalCores: nat, memory: nat)
    ensures IsSuitableForMining(DetectBasic(logicalCores, memory))
      <==> logicalCores >= 4 && memory >= 2 * GiB
  {
  }

  /**
   * Threads for a CPU percentage: that share of the physical cores rounded down, at least one,
   * and never more than the physical cores.
   */
  function RecommendedThreads(p: HardwareProfile, maxPercentage: nat): (r: nat)
    requires maxPercentage <= 255
    ensures r <= p.physicalCores
    ensures p.physicalCores >= 1 ==> r >= 1
  {
    var available := p.physicalCores;
    var target := available * maxPercentage / 100;
    var atLeastOne := if target < 1 then 1 else target;
    if atLeastOne < available then atLeastOne else available
  }

  /** Within 1..100 percent the recommendation is the rounded-down share of the physical cores. */
  lemma RecommendedThreadsShare(p: HardwareProfile, maxPercentage: nat)
    requires 1 <= maxPercentage <= 100 && p.physicalCores * maxPercentage >= 100
    ensures var r := RecommendedThreads(p, maxPercentage);
      100 * r <= p.physicalCores * maxPercentage < 100 * (r + 1)
  {
    MulAtMost(p.physicalCores, maxPercentage);
  }

  lemma MulAtMost(a: nat, b: nat)
    requires b <= 100
    ensures a * b <= a * 100
  {
  }

  /** The source's test: 8 physical cores give 4, 2 and 8 threads at 50%, 25% and 100%. */
  lemma RecommendedThreadsExamples(p: HardwareProfile)
    requires p.physicalCores == 8
    ensures RecommendedThreads(p, 50) == 4
    ensures RecommendedThreads(p, 25) == 2
    ensures RecommendedThreads(p, 100) == 8
  {
  }
}

/**
 * The plugin configuration (src/config.rs): its defaults, the builders that return an updated
 * copy, and the number of mining threads it asks for on a machine with a given core count.
 */
module Config {
  import opened Errors

  /** Rust's u8. */
  type U8 = x: nat | x <= 255

  datatype MiningConfig = MiningConfig(
    maxCpuPercentage: U8,
    backgroundPriority: bool,
    /** 0 asks for a count derived from the CPU percentage. */
    threadCount: nat,
    poolUrl: Option<string>,
    workerName: string,
    gpuEnabled: bool,
    /** A floating-point rate; exact here. */
    minHashrate: real,
    autoPauseOnLoad: bool,
    thermalThrottleTemp: Option<U8>)

  /** A conservative quarter of the CPU, thread count derived from it, no pool. */
  const Default := MiningConfig(25, true, 0, None, "essentia_worker", false, 0.0, true, Some(80))

  /** Stores the percentage capped at 100; every other setting is kept. */
  function WithMaxCpuUsage(c: MiningConfig, percentage: U8): (r: MiningConfig)
    ensures r.maxCpuPercentage <= 100 && r.maxCpuPercentage <= percentage
    ensures percentage <= 100 ==> r.maxCpuPercentage == percentage
    ensures r == c.(maxCpuPercentage := r.maxCpuPercentage)
  {
    c.(maxCpuPercentage := if percentage < 100 then percentage else 100)
  }

  function WithBackgroundPriority(c: MiningConfig, enabled: bool): (r: MiningConfig)
    ensures r.backgroundPriority == enabled && r.(backgroundPriority := c.backgroundPriority) == c
  {
    c.(backgroundPriority := enabled)
  }

  /** Stores the count unchanged; every other setting is kept. */
  function WithThreadCount(c: MiningConfig, count: nat): (r: MiningConfig)
    ensures r.threadCount == count && r.(threadCount := c.threadCount) == c
  {
    c.(threadCount := count)
  }

  function WithGpuEnabled(c: MiningConfig, enabled: bool): (r: MiningConfig)
    ensures r.gpuEnabled == enabled && r.(gpuEnabled := c.gpuEnabled) == c
  {
    c.(gpuEnabled := enabled)
  }

  /**
   * The threads to run on availableCores cores: an explicit count, capped at the cores, or else
   * the CPU percentage of the cores rounded down, and at least one.
   */
  function EffectiveThreadCount(c: MiningConfig, availableCores: nat): (r: nat)
    ensures c.threadCount > 0 ==> r <= c.threadCount && r <= availableCores
    ensures c.threadCount > 0 ==> r == c.threadCount || r == availableCores
    ensures c.threadCount == 0 ==> r >= 1
  {
    if c.threadCount > 0 then
      if c.threadCount < availableCores then c.threadCount else availableCores
    else
      var target := availableCores * c.maxCpuPercentage / 100;
      if target < 1 then 1 else target
  }

  /**
   * In automatic mode the count is the largest r with 100 * r <= cores * percentage, unless that
   * is 0, and then 1; it never exceeds the cores when the percentage is at most 100.
   */
  lemma AutoThreadCount(c: MiningConfig, cores: nat)
    requires c.threadCount == 0
    ensures var r := EffectiveThreadCount(c, cores);
      (cores * c.maxCpuPercentage >= 100 ==>
        100 * r <= cores * c.maxCpuPercentage < 100 * (r + 1))
      && (cores * c.maxCpuPercentage < 100 ==> r == 1)
      && (c.maxCpuPercentage <= 100 && cores >= 1 ==> r <= cores)
  {
    var p := c.maxCpuPercentage;
    if p <= 100 {
      MulMonotone(cores, p, 100);
    }
  }

  lemma MulMonotone(a: nat, b: nat, c: nat)
    requires b <= c
    ensures a * b <= a * c
  {
  }

  /** The source's tests: 8 cores at 50% give 4 threads; an explicit 2 of 8 gives 2. */
  lemma EffectiveThreadCountExamples()
    ensures EffectiveThreadCount(WithMaxCpuUsage(Default, 50), 8) == 4
    ensures EffectiveThreadCount(WithThreadCount(Default, 2), 8) == 2
    ensures WithMaxCpuUsage(Default, 75).maxCpuPercentage == 75
  {
  }
}

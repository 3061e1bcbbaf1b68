/**
 * Hash rate monitoring (src/impl/hash_rate_monitor.rs): the monitor turns running hash counts
 * into samples of hashes over elapsed time, keeps a bounded history of them, tracks the peak and
 * the lowest positive rate, raises an alert on a sharp drop below the average, and reports recent
 * samples and a moving average. Instants are nanosecond timestamps passed in by the caller and
 * rates are exact reals.
 */
module HashRateMonitor {
  import opened Errors

  const NanosPerSecond: nat := 1_000_000_000

  /** The largest finite double, which the monitor uses as "no minimum yet". */
  const F64Max: real := 179769313486231570814527423731704356798070567525844996598917476803157260780028538760589558632766878171540458953514382464234321326889464182768467546703537516986049910576551282076245490090389328944075868508455133942304583236903222948165808559332123348274797826204144723168738177180919299881250404026184124858368.0

  /** Hashes done over a duration in nanoseconds, ending at a timestamp. */
  datatype Sample = Sample(timestamp: nat, hashes: nat, duration: nat)

  /** Hashes per second, and 0 over an empty duration. */
  function HashRate(s: Sample): (r: real)
    ensures 0.0 <= r
    ensures s.duration == 0 ==> r == 0.0
    ensures s.duration > 0 ==> r * (s.duration as real / NanosPerSecond as real) == s.hashes as real
  {
    if s.duration == 0 then 0.0 else s.hashes as real / (s.duration as real / NanosPerSecond as real)
  }

  /** The source's test: 1000 hashes in one second are 1000 H/s. */
  lemma HashRateExample(s: Sample)
    requires s.hashes == 1000 && s.duration == NanosPerSecond
    ensures HashRate(s) == 1000.0
  {
  }

  datatype HashRateUnit = HashPerSec | KiloHashPerSec | MegaHashPerSec | GigaHashPerSec | TeraHashPerSec
  {
    /** The factor one of this unit stands for. */
    function Scale(): (f: real)
      ensures 1.0 <= f
    {
      match this
      case HashPerSec => 1.0
      case KiloHashPerSec => 1_000.0
      case MegaHashPerSec => 1_000_000.0
      case GigaHashPerSec => 1_000_000_000.0
      case TeraHashPerSec => 1_000_000_000_000.0
    }

    /** The rate expressed in this unit: scaled back up it is the rate again. */
    function Convert(rate: real): (r: real)
      ensures r * Scale() == rate
      ensures this == HashPerSec ==> r == rate
      ensures 0.0 <= rate ==> 0.0 <= r <= rate
    {
      rate / Scale()
    }

    /** The display suffix: every one ends in "H/s", and only H/s itself has no prefix letter. */
    function Suffix(): (s: string)
      ensures |s| >= 3 && s[|s| - 3..] == "H/s"
      ensures |s| == 3 <==> this == HashPerSec
    {
      match this
      case HashPerSec => "H/s"
      case KiloHashPerSec => "KH/s"
      case MegaHashPerSec => "MH/s"
      case GigaHashPerSec => "GH/s"
      case TeraHashPerSec => "TH/s"
    }
  }

  /** The largest unit the rate reaches one of, from H/s up to TH/s. */
  function AutoSelect(rate: real): (u: HashRateUnit)
    ensures rate >= u.Scale() || u == HashPerSec
    ensures u != TeraHashPerSec ==> rate < u.Scale() * 1000.0
  {
    if rate >= 1_000_000_000_000.0 then TeraHashPerSec
    else if rate >= 1_000_000_000.0 then GigaHashPerSec
    else if rate >= 1_000_000.0 then MegaHashPerSec
    else if rate >= 1_000.0 then KiloHashPerSec
    else HashPerSec
  }

  /** From 1 H/s up to 1000 TH/s, the displayed value lies in [1, 1000). */
  lemma AutoSelectDisplayRange(rate: real)
    requires 1.0 <= rate < 1_000_000_000_000_000.0
    ensures var u := AutoSelect(rate); 1.0 <= u.Convert(rate) < 1000.0
  {
    var u := AutoSelect(rate);
    var k := u.Scale();
    assert k <= rate < k * 1000.0;
    assert rate / k >= 1.0 && rate / k < 1000.0 by {
      assert rate / k * k == rate;
    }
  }

  /** The suffix names the unit: no two units share one. */
  lemma SuffixNamesUnit(u: HashRateUnit, v: HashRateUnit)
    ensures u.Suffix() == v.Suffix() <==> u == v
  {
  }

  /** The source's tests: 500, 5,000 and 5,000,000 H/s are shown in H/s, KH/s and MH/s. */
  lemma AutoSelectExamples()
    ensures AutoSelect(500.0) == HashPerSec
    ensures AutoSelect(5_000.0) == KiloHashPerSec
    ensures AutoSelect(5_000_000.0) == MegaHashPerSec
  {
  }

  datatype MonitorConfig = MonitorConfig(
    /** Nanoseconds. */
    sampleInterval: nat,
    maxSamples: nat,
    movingAverageWindow: nat,
    /** The fraction of the average a drop must exceed to raise an alert. */
    alertThreshold: real,
    minSamplesForStats: nat)

  /** One-second samples for an hour, a one-minute moving average, alerts on a 20% drop. */
  const DefaultMonitorConfig := MonitorConfig(NanosPerSecond, 3600, 60, 0.20, 10)

  datatype AlertType = HashRateDrop | HashRateSpike | TemperatureWarning | HardwareError

  /** An alert; its human-readable message is not modelled. */
  datatype Alert = Alert(timestamp: nat, alertType: AlertType, value: real, threshold: real)

  /** A sample is taken on the first record, or once the interval has elapsed since the last. */
  predicate ShouldSample(lastSampleTime: Option<nat>, now: nat, interval: nat)
  {
    lastSampleTime.None? || Elapsed(lastSampleTime.value, now) >= interval
  }

  /** Time from then to now; 0 if the clock reads earlier (durations saturate). */
  function Elapsed(since: nat, now: nat): nat
  {
    if now >= since then now - since else 0
  }

  /** The newer hash count minus the older one, or 0 when the count went backwards. */
  function SaturatingSub(a: nat, b: nat): (r: nat)
    ensures a >= b ==> r + b == a
    ensures a < b ==> r == 0
  {
    if a >= b then a - b else 0
  }

  /** The newest n elements of s, oldest first. */
  function Newest<T>(s: seq<T>, n: nat): (r: seq<T>)
    ensures |r| == if |s| <= n then |s| else n
  {
    if |s| <= n then s else s[|s| - n..]
  }

  /** Keeping the newest elements keeps a suffix, so the element appended last stays last. */
  lemma NewestSuffix<T>(s: seq<T>, x: T, n: nat)
    requires n > 0
    ensures var r := Newest(s + [x], n);
      r == (s + [x])[|s| + 1 - |r|..] && r[|r| - 1] == x
      && forall y :: y in r ==> y in s || y == x
  {
  }

  lemma DropOldest<T>(s: seq<T>, k: nat)
    requires k < |s|
    ensures s[k..][1..] == s[k + 1..]
  {
  }

  function SumRates(s: seq<Sample>): real
  {
    if s == [] then 0.0 else SumRates(s[..|s| - 1]) + HashRate(s[|s| - 1])
  }

  /** The mean hash rate of the samples. */
  function MeanRate(s: seq<Sample>): real
    requires |s| > 0
  {
    SumRates(s) / |s| as real
  }

  /** Samples that all have the same rate sum to that rate times their number. */
  lemma {:induction false} SumRatesConstant(s: seq<Sample>, rate: real)
    requires forall i :: 0 <= i < |s| ==> HashRate(s[i]) == rate
    ensures SumRates(s) == |s| as real * rate
  {
    if s != [] {
      SumRatesConstant(s[..|s| - 1], rate);
    }
  }

  /** The newest count elements of s, newest first. */
  function NewestFirst<T>(s: seq<T>, count: nat): (r: seq<T>)
    ensures |r| == if count < |s| then count else |s|
    ensures forall i :: 0 <= i < |r| ==> r[i] == s[|s| - 1 - i]
  {
    if count == 0 || s == [] then []
    else [s[|s| - 1]] + NewestFirst(s[..|s| - 1], count - 1)
  }

  class Monitor {
    const config: MonitorConfig
    /** The sample history, oldest first. */
    var samples: seq<Sample>
    var lastSampleTime: Option<nat>
    var lastHashCount: nat
    var totalHashes: nat
    var startTime: Option<nat>
    var peakHashRate: real
    var minHashRate: real
    var alerts: seq<Alert>

    /**
     * The history fits its bound, the peak is at least every sample's rate, and the minimum is
     * at most every positive rate.
     */
    predicate Valid()
      reads this`samples, this`peakHashRate, this`minHashRate
    {
      |samples| <= config.maxSamples && 0.0 <= peakHashRate
      && (forall i :: 0 <= i < |samples| ==> HashRate(samples[i]) <= peakHashRate)
      && (forall i :: 0 <= i < |samples| && HashRate(samples[i]) > 0.0 ==> minHashRate <= HashRate(samples[i]))
    }

    constructor (config: MonitorConfig)
      ensures Valid() && this.config == config
      ensures samples == [] && lastSampleTime == None && lastHashCount == 0 && totalHashes == 0
      ensures startTime == None && peakHashRate == 0.0 && minHashRate == F64Max && alerts == []
    {
      this.config := config;
      samples := [];
      lastSampleTime := None;
      lastHashCount := 0;
      totalHashes := 0;
      startTime := None;
      peakHashRate := 0.0;
      minHashRate := F64Max;
      alerts := [];
    }

    /** Starts the clock: the monitoring and the first sample interval begin now. */
    method Start(now: nat) returns (r: Result<()>)
      modifies this`startTime, this`lastSampleTime
      ensures r == Ok(()) && startTime == Some(now) && lastSampleTime == Some(now)
    {
      startTime := Some(now);
      lastSampleTime := Some(now);
      r := Ok(());
    }

    /**
     * Records the running hash count at `now`. The total is always the count given. When a
     * sample is due it holds the hashes since the last count (0 if the count went backwards)
     * over the time since the last sample (one second for the first); it is added to the
     * history, the extremes and the alerts, and returned. Otherwise nothing else changes.
     */
    method Record(current: nat, now: nat) returns (r: Result<Option<Sample>>)
      requires Valid()
      modifies this`totalHashes, this`lastSampleTime, this`lastHashCount, this`samples,
        this`peakHashRate, this`minHashRate, this`alerts
      ensures Valid() && totalHashes == current
      ensures !ShouldSample(old(lastSampleTime), now, config.sampleInterval) ==>
        r == Ok(None) && lastSampleTime == old(lastSampleTime) && lastHashCount == old(lastHashCount)
        && samples == old(samples) && peakHashRate == old(peakHashRate)
        && minHashRate == old(minHashRate) && alerts == old(alerts)
      ensures ShouldSample(old(lastSampleTime), now, config.sampleInterval) ==>
        var s := Sample(now, SaturatingSub(current, old(lastHashCount)),
          if old(lastSampleTime).None? then NanosPerSecond else Elapsed(old(lastSampleTime).value, now));
        r == Ok(Some(s)) && lastSampleTime == Some(now) && lastHashCount == current
        && samples == Newest(old(samples) + [s], config.maxSamples)
        && peakHashRate == (if HashRate(s) > old(peakHashRate) then HashRate(s) else old(peakHashRate))
        && minHashRate == (if 0.0 < HashRate(s) < old(minHashRate) then HashRate(s) else old(minHashRate))
        && alerts == old(alerts) + DropAlert(s, now)
    {
      totalHashes := current;
      if !ShouldSample(lastSampleTime, now, config.sampleInterval) {
        return Ok(None);
      }
      var hashesDelta := SaturatingSub(current, lastHashCount);
      var timeDelta := if lastSampleTime.None? then NanosPerSecond else Elapsed(lastSampleTime.value, now);
      var sample := Sample(now, hashesDelta, timeDelta);
      lastSampleTime := Some(now);
      lastHashCount := current;
      TakeSample(sample);
      CheckAlerts(sample, now);
      r := Ok(Some(sample));
    }

    /** Adds a sample to the history and then to the extremes; the invariant is kept. */
    method TakeSample(sample: Sample)
      requires Valid()
      modifies this`samples, this`peakHashRate, this`minHashRate
      ensures Valid()
      ensures samples == Newest(old(samples) + [sample], config.maxSamples)
      ensures peakHashRate == if HashRate(sample) > old(peakHashRate) then HashRate(sample) else old(peakHashRate)
      ensures minHashRate ==
        if 0.0 < HashRate(sample) < old(minHashRate) then HashRate(sample) else old(minHashRate)
    {
      ghost var before := samples;
      AddSample(sample);
      UpdateExtremes(HashRate(sample));
      if config.maxSamples > 0 {
        NewestSuffix(before, sample, config.maxSamples);
        forall i | 0 <= i < |samples|
          ensures HashRate(samples[i]) <= peakHashRate
          ensures HashRate(samples[i]) > 0.0 ==> minHashRate <= HashRate(samples[i])
        {
          assert samples[i] in samples;
          if samples[i] != sample {
            var j :| 0 <= j < |before| && before[j] == samples[i];
          }
        }
      }
    }

    /** Appends a sample and drops the oldest ones until the history fits its bound. */
    method AddSample(sample: Sample)
      requires |samples| <= config.maxSamples
      modifies this`samples
      ensures samples == Newest(old(samples) + [sample], config.maxSamples)
      ensures |samples| <= config.maxSamples
    {
      samples := samples + [sample];
      ghost var full := samples;
      ghost var dropped := 0;
      while |samples| > config.maxSamples
        invariant dropped <= |full| && samples == full[dropped..]
        invariant dropped == 0 || |samples| >= config.maxSamples
        decreases |samples|
      {
        DropOldest(full, dropped);
        samples := samples[1..];
        dropped := dropped + 1;
      }
    }

    /**
     * The peak rises to a higher rate; the minimum falls to a lower positive rate. Neither
     * changes otherwise.
     */
    method UpdateExtremes(rate: real)
      modifies this`peakHashRate, this`minHashRate
      ensures peakHashRate == if rate > old(peakHashRate) then rate else old(peakHashRate)
      ensures minHashRate == if 0.0 < rate < old(minHashRate) then rate else old(minHashRate)
    {
      if rate > peakHashRate {
        peakHashRate := rate;
      }
      if rate > 0.0 && rate < minHashRate {
        minHashRate := rate;
      }
    }

    /**
     * With enough samples, a positive rate below the average by more than the alert threshold
     * raises a drop alert at `now`.
     */
    method CheckAlerts(sample: Sample, now: nat)
      modifies this`alerts
      ensures alerts == old(alerts) + DropAlert(sample, now)
    {
      if |samples| >= config.minSamplesForStats {
        var current := HashRate(sample);
        var average := if |samples| == 0 then 0.0 else MeanRate(samples);
        var threshold := average * (1.0 - config.alertThreshold);
        if current < threshold && current > 0.0 {
          assert |samples| >= config.minSamplesForStats;
          assert |DropAlert(sample, now)| == 1;
          assert DropAlert(sample, now)[0].threshold == threshold;
          assert DropAlert(sample, now) == [Alert(now, HashRateDrop, current, threshold)];
          alerts := alerts + [Alert(now, HashRateDrop, current, threshold)];
        } else {
          assert DropAlert(sample, now) == [];
          assert alerts == old(alerts) + [];
        }
      } else {
        assert alerts == old(alerts) + [];
      }
    }

    /** The alert a sample raises against the current history: none, or one drop alert. */
    function DropAlert(sample: Sample, now: nat): (a: seq<Alert>)
      reads this`samples
      ensures |a| <= 1
      ensures |a| == 1 ==>
        a[0].alertType == HashRateDrop && a[0].value == HashRate(sample)
        && 0.0 < a[0].value < a[0].threshold && |samples| >= config.minSamplesForStats
    {
      if |samples| < config.minSamplesForStats then []
      else
        var current := HashRate(sample);
        var average := if |samples| == 0 then 0.0 else MeanRate(samples);
        var threshold := average * (1.0 - config.alertThreshold);
        if current < threshold && current > 0.0 then [Alert(now, HashRateDrop, current, threshold)] else []
    }

    /**
     * The mean rate of the newest samples, up to the configured window, and 0 without samples
     * or with an empty window.
     */
    function MovingAverage(): (r: Result<real>)
      reads this`samples
      ensures r.Ok?
      ensures config.movingAverageWindow == 0 || samples == [] ==> r.value == 0.0
    {
      var window := if config.movingAverageWindow < |samples| then config.movingAverageWindow else |samples|;
      if window == 0 then Ok(0.0)
      else Ok(SumRates(samples[|samples| - window..]) / window as real)
    }

    /** When every sample in the window has the same rate, the moving average is that rate. */
    lemma MovingAverageConstant(rate: real)
      requires config.movingAverageWindow > 0 && samples != []
      requires forall i :: 0 <= i < |samples| ==> HashRate(samples[i]) == rate
      ensures MovingAverage().value == rate
    {
      var window := if config.movingAverageWindow < |samples| then config.movingAverageWindow else |samples|;
      var recent := samples[|samples| - window..];
      SumRatesConstant(recent, rate);
    }

    /** At most count samples, newest first. */
    function RecentSamples(count: nat): (r: Result<seq<Sample>>)
      reads this`samples
      ensures r.Ok? && |r.value| == if count < |samples| then count else |samples|
      ensures forall i :: 0 <= i < |r.value| ==> r.value[i] == samples[|samples| - 1 - i]
    {
      Ok(NewestFirst(samples, count))
    }

    method ClearAlerts() returns (r: Result<()>)
      modifies this`alerts
      ensures r == Ok(()) && alerts == []
    {
      alerts := [];
      r := Ok(());
    }

    /**
     * Empties the history and the alerts and zeroes the total and the peak, with no minimum; the
     * last count and sample time are kept.
     */
    method Reset() returns (r: Result<()>)
      modifies this`samples, this`totalHashes, this`peakHashRate, this`minHashRate, this`alerts
      ensures r == Ok(()) && Valid()
      ensures samples == [] && totalHashes == 0 && peakHashRate == 0.0 && minHashRate == F64Max
      ensures alerts == []
    {
      samples := [];
      totalHashes := 0;
      peakHashRate := 0.0;
      minHashRate := F64Max;
      r := ClearAlerts();
    }
  }
}

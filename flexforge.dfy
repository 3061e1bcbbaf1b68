/**
 * The editor panel of the plugin (src/flexforge.rs): the settings it shows, the key-by-key
 * updates the editor sends back, and the one statistics stream it runs while the panel is
 * viewed. Stream ids come from a 64-bit counter that wraps around.
 */
module FlexForge {
  import Config
  import Decimal
  import opened Errors
  import opened Coordinator

  /** Outcome of an editor call: a value or a message for the user. */
  datatype UiResult<T> = UiOk(value: T) | UiErr(message: string)

  /** The settings the panel exposes. */
  datatype UiConfig = UiConfig(
    miningEnabled: bool,
    poolAddress: string,
    walletAddress: string,
    workerName: string,
    cpuMining: bool,
    gpuMining: bool,
    cpuThreads: Config.U8,
    gpuIntensity: Config.U8,
    tempLimit: Config.U8)

  /** Mining off until opted in, GPU mining at 70% intensity, two CPU threads, 80 degrees. */
  const DefaultUiConfig := UiConfig(false, "", "", "essentia-worker", false, true, 2, 70, 80)

  /** Figures shown on the dashboard; rates and difficulty are floating-point, exact here. */
  datatype DisplayStats = DisplayStats(
    hashrate: real,
    sharesAccepted: nat,
    sharesRejected: nat,
    difficulty: real,
    earningsPerDay: nat,
    gpuTemp: Config.U8,
    cpuUsage: Config.U8)

  const DefaultDisplayStats := DisplayStats(0.0, 0, 0, 0.0, 0, 0, 0)

  /** The settings by key, in the order the panel reports them. */
  datatype ConfigKey =
    | MiningEnabled | PoolAddress | WalletAddress | WorkerName
    | CpuMining | GpuMining | CpuThreads | GpuIntensity | TempLimit
  {
    function Name(): string
    {
      match this
      case MiningEnabled => "mining_enabled"
      case PoolAddress => "pool_address"
      case WalletAddress => "wallet_address"
      case WorkerName => "worker_name"
      case CpuMining => "cpu_mining"
      case GpuMining => "gpu_mining"
      case CpuThreads => "cpu_threads"
      case GpuIntensity => "gpu_intensity"
      case TempLimit => "temp_limit"
    }
  }

  const AllKeys: seq<ConfigKey> :=
    [MiningEnabled, PoolAddress, WalletAddress, WorkerName, CpuMining, GpuMining, CpuThreads,
     GpuIntensity, TempLimit]

  /** The setting a key names, if it names one. */
  function KeyOf(key: string): (k: Option<ConfigKey>)
    ensures k.Some? ==> k.value.Name() == key
  {
    if key == "mining_enabled" then Some(MiningEnabled)
    else if key == "pool_address" then Some(PoolAddress)
    else if key == "wallet_address" then Some(WalletAddress)
    else if key == "worker_name" then Some(WorkerName)
    else if key == "cpu_mining" then Some(CpuMining)
    else if key == "gpu_mining" then Some(GpuMining)
    else if key == "cpu_threads" then Some(CpuThreads)
    else if key == "gpu_intensity" then Some(GpuIntensity)
    else if key == "temp_limit" then Some(TempLimit)
    else None
  }

  /** Every setting is found under its own name, and only the nine names are keys. */
  lemma KeyOfName(k: ConfigKey)
    ensures KeyOf(k.Name()) == Some(k)
  {
  }

  /**
   * A numeric setting: an optional '+' and decimal digits, read as a byte, with values above 255
   * held at 255 as the float-to-byte cast does; anything else is refused.
   */
  function ParseSetting(value: string): (r: Option<Config.U8>)
    ensures r.Some? <==> |Decimal.UnsignedDigits(value)| > 0 && Decimal.AllDigits(Decimal.UnsignedDigits(value))
  {
    var digits := Decimal.UnsignedDigits(value);
    if |digits| > 0 && Decimal.AllDigits(digits) then
      var n := Decimal.Value(digits);
      Some(if n <= 255 then n else 255)
    else None
  }

  /** A byte's decimal text reads back as the byte. */
  lemma ParseSettingDecimal(n: Config.U8)
    ensures ParseSetting(Decimal.Decimal(n)) == Some(n)
  {
    Decimal.ParseDecimal(n, 255);
  }

  /** Rust's rendering of a boolean. */
  function BoolText(b: bool): string
  {
    if b then "true" else "false"
  }

  /**
   * The settings after the editor sets `key` to `value`: a toggle becomes true exactly for the
   * text "true", a text setting takes the value verbatim, a number must parse; an unknown key or
   * a number that does not parse is refused with its message.
   */
  function Changed(c: UiConfig, key: string, value: string): (r: UiResult<UiConfig>)
    ensures KeyOf(key).None? ==> r == UiErr("Unknown configuration key: " + key)
    ensures KeyOf(key).Some? && KeyOf(key).value !in {CpuThreads, GpuIntensity, TempLimit} ==> r.UiOk?
  {
    match KeyOf(key)
    case None => UiErr("Unknown configuration key: " + key)
    case Some(k) =>
      match k
      case MiningEnabled => UiOk(c.(miningEnabled := value == "true"))
      case PoolAddress => UiOk(c.(poolAddress := value))
      case WalletAddress => UiOk(c.(walletAddress := value))
      case WorkerName => UiOk(c.(workerName := value))
      case CpuMining => UiOk(c.(cpuMining := value == "true"))
      case GpuMining => UiOk(c.(gpuMining := value == "true"))
      case CpuThreads =>
        if ParseSetting(value).None? then UiErr("Invalid thread count")
        else UiOk(c.(cpuThreads := ParseSetting(value).value))
      case GpuIntensity =>
        if ParseSetting(value).None? then UiErr("Invalid intensity")
        else UiOk(c.(gpuIntensity := ParseSetting(value).value))
      case TempLimit =>
        if ParseSetting(value).None? then UiErr("Invalid temperature")
        else UiOk(c.(tempLimit := ParseSetting(value).value))
  }

  /** The text the panel reports for a setting. */
  function Render(c: UiConfig, k: ConfigKey): string
  {
    match k
    case MiningEnabled => BoolText(c.miningEnabled)
    case PoolAddress => c.poolAddress
    case WalletAddress => c.walletAddress
    case WorkerName => c.workerName
    case CpuMining => BoolText(c.cpuMining)
    case GpuMining => BoolText(c.gpuMining)
    case CpuThreads => Decimal.Decimal(c.cpuThreads)
    case GpuIntensity => Decimal.Decimal(c.gpuIntensity)
    case TempLimit => Decimal.Decimal(c.tempLimit)
  }

  /** Setting a key to the text the panel reports for it changes nothing. */
  lemma ChangedToRendered(c: UiConfig, k: ConfigKey)
    ensures Changed(c, k.Name(), Render(c, k)) == UiOk(c)
  {
    KeyOfName(k);
    match k
    case CpuThreads => ParseSettingDecimal(c.cpuThreads);
    case GpuIntensity => ParseSettingDecimal(c.gpuIntensity);
    case TempLimit => ParseSettingDecimal(c.tempLimit);
    case _ =>
  }

  /** The current settings as (key, value) texts, one per setting in panel order. */
  function CurrentConfig(c: UiConfig): (pairs: seq<(string, string)>)
    ensures |pairs| == |AllKeys|
    ensures forall i :: 0 <= i < |pairs| ==> pairs[i] == (AllKeys[i].Name(), Render(c, AllKeys[i]))
  {
    seq(|AllKeys|, i requires 0 <= i < |AllKeys| => (AllKeys[i].Name(), Render(c, AllKeys[i])))
  }

  /**
   * The settings after applying the pairs in order, and the first refusal if any: applying
   * stops there, and the pairs before it stay applied.
   */
  function ApplyPairs(c: UiConfig, pairs: seq<(string, string)>): (UiConfig, Option<string>)
    decreases |pairs|
  {
    if pairs == [] then (c, None)
    else
      match Changed(c, pairs[0].0, pairs[0].1)
      case UiErr(message) => (c, Some(message))
      case UiOk(next) => ApplyPairs(next, pairs[1..])
  }

  /** Pairs that each leave the settings as they are leave them as they are together. */
  lemma {:induction false} ApplyUnchanged(c: UiConfig, pairs: seq<(string, string)>)
    requires forall i :: 0 <= i < |pairs| ==> Changed(c, pairs[i].0, pairs[i].1) == UiOk(c)
    ensures ApplyPairs(c, pairs) == (c, None)
  {
    if pairs != [] {
      assert Changed(c, pairs[0].0, pairs[0].1) == UiOk(c);
      ApplyUnchanged(c, pairs[1..]);
    }
  }

  /** Applying the reported settings back changes nothing and is not refused. */
  lemma CurrentConfigRoundTrip(c: UiConfig)
    ensures ApplyPairs(c, CurrentConfig(c)) == (c, None)
  {
    var pairs := CurrentConfig(c);
    forall i | 0 <= i < |pairs|
      ensures Changed(c, pairs[i].0, pairs[i].1) == UiOk(c)
    {
      ChangedToRendered(c, AllKeys[i]);
    }
    ApplyUnchanged(c, pairs);
  }

  class Panel {
    var config: UiConfig
    var streamActive: bool
    var streamId: Option<nat>
    /** The next stream id: a u64. */
    var nextId: nat
    var stats: DisplayStats

    /** A stream is active exactly when it has an id, and the counter is a u64. */
    predicate Valid()
      reads this`streamActive, this`streamId, this`nextId
    {
      streamActive == streamId.Some? && nextId < U64Modulus
    }

    /** The default settings, no stream, and stream ids starting at 1. */
    constructor ()
      ensures Valid() && config == DefaultUiConfig && !streamActive && streamId == None
      ensures nextId == 1 && stats == DefaultDisplayStats
    {
      config := DefaultUiConfig;
      streamActive := false;
      streamId := None;
      nextId := 1;
      stats := DefaultDisplayStats;
    }

    method UpdateStats(newStats: DisplayStats)
      modifies this`stats
      ensures stats == newStats
    {
      stats := newStats;
    }

    /** Hands out the counter's value and advances it, wrapping from 2^64 - 1 to 0. */
    method NextStreamId() returns (id: nat)
      requires Valid()
      modifies this`nextId
      ensures Valid() && id == old(nextId)
      ensures nextId == Wrap(old(nextId) + 1)
      ensures old(nextId) + 1 < U64Modulus ==> nextId == old(nextId) + 1
      ensures old(nextId) + 1 == U64Modulus ==> nextId == 0
    {
      id := nextId;
      nextId := WrappingAdd(nextId, 1);
    }

    /** Under the panel's invariant, streaming exactly while a stream id is held. */
    predicate IsStreaming()
      reads this`streamActive, this`streamId, this`nextId
      ensures Valid() ==> (IsStreaming() <==> streamId.Some?)
    {
      streamActive
    }

    /** Starts a stream under a new id, refused while one is active. */
    method StartStream() returns (r: UiResult<nat>)
      requires Valid()
      modifies this`nextId, this`streamId, this`streamActive
      ensures Valid()
      ensures old(streamActive) ==>
        (r == UiErr("Stream already active") && nextId == old(nextId) && streamId == old(streamId))
      ensures !old(streamActive) ==>
        (r == UiOk(old(nextId)) && streamId == Some(old(nextId)) && nextId == Wrap(old(nextId) + 1))
      ensures streamActive
    {
      if streamActive {
        return UiErr("Stream already active");
      }
      var id := NextStreamId();
      streamId := Some(id);
      streamActive := true;
      r := UiOk(id);
    }

    /** Stops the active stream given its id; refused with no stream or with another id. */
    method StopStream(id: nat) returns (r: UiResult<()>)
      requires Valid()
      modifies this`streamId, this`streamActive
      ensures Valid()
      ensures !old(streamActive) ==> r == UiErr("No active stream")
      ensures old(streamActive) && old(streamId) != Some(id) ==> r == UiErr("Invalid stream ID")
      ensures r.UiErr? ==> streamActive == old(streamActive) && streamId == old(streamId)
      ensures r.UiOk? <==> old(streamActive) && old(streamId) == Some(id)
      ensures r.UiOk? ==> !streamActive && streamId == None
    {
      if !streamActive {
        return UiErr("No active stream");
      }
      if streamId != Some(id) {
        return UiErr("Invalid stream ID");
      }
      streamActive := false;
      streamId := None;
      r := UiOk(());
    }

    /** A frame is drawn only for the active stream's own id. */
    function RenderFrame(id: nat): (drawn: bool)
      reads this`streamActive, this`streamId
      ensures drawn <==> streamActive && streamId == Some(id)
    {
      if !streamActive || streamId != Some(id) then false else true
    }

    /** Viewing the panel starts a stream when mining is on and none is running. */
    method OnPanelActivate()
      requires Valid()
      modifies this`nextId, this`streamId, this`streamActive
      ensures Valid()
      ensures config.miningEnabled || old(streamActive) ==> streamActive
      ensures !config.miningEnabled || old(streamActive) ==>
        streamActive == old(streamActive) && streamId == old(streamId) && nextId == old(nextId)
      ensures config.miningEnabled && !old(streamActive) ==> streamId == Some(old(nextId))
      ensures config.miningEnabled && !old(streamActive) ==> nextId == Wrap(old(nextId) + 1)
    {
      if config.miningEnabled && !streamActive {
        var _ := StartStream();
      }
    }

    /** Leaving the panel stops the running stream. */
    method OnPanelDeactivate()
      requires Valid()
      modifies this`streamId, this`streamActive
      ensures Valid() && !streamActive && streamId == None
    {
      if streamActive && streamId.Some? {
        var _ := StopStream(streamId.value);
      }
    }

    /** The panel is redrawn while a stream runs and mining is on. */
    function OnRefresh(): (redraw: bool)
      reads this`streamActive, this`config
      ensures redraw <==> streamActive && config.miningEnabled
    {
      streamActive && config.miningEnabled
    }

    /** Sets one setting from the editor; a refused change leaves the settings as they were. */
    method OnConfigChanged(key: string, value: string) returns (r: UiResult<()>)
      modifies this`config
      ensures Changed(old(config), key, value).UiOk? ==>
        r == UiOk(()) && config == Changed(old(config), key, value).value
      ensures Changed(old(config), key, value).UiErr? ==>
        r == UiErr(Changed(old(config), key, value).message) && config == old(config)
    {
      var k := KeyOf(key);
      if k.None? {
        return UiErr("Unknown configuration key: " + key);
      }
      match k.value {
        case MiningEnabled => config := config.(miningEnabled := value == "true");
        case PoolAddress => config := config.(poolAddress := value);
        case WalletAddress => config := config.(walletAddress := value);
        case WorkerName => config := config.(workerName := value);
        case CpuMining => config := config.(cpuMining := value == "true");
        case GpuMining => config := config.(gpuMining := value == "true");
        case CpuThreads =>
          var threads := ParseSetting(value);
          if threads.None? {
            return UiErr("Invalid thread count");
          }
          config := config.(cpuThreads := threads.value);
        case GpuIntensity =>
          var intensity := ParseSetting(value);
          if intensity.None? {
            return UiErr("Invalid intensity");
          }
          config := config.(gpuIntensity := intensity.value);
        case TempLimit =>
          var limit := ParseSetting(value);
          if limit.None? {
            return UiErr("Invalid temperature");
          }
          config := config.(tempLimit := limit.value);
      }
      r := UiOk(());
    }

    /** Applies the pairs in order, stopping at the first refusal, which is returned. */
    method ApplyConfig(pairs: seq<(string, string)>) returns (r: UiResult<()>)
      modifies this`config
      ensures config == ApplyPairs(old(config), pairs).0
      ensures ApplyPairs(old(config), pairs).1.None? ==> r == UiOk(())
      ensures ApplyPairs(old(config), pairs).1.Some? ==> r == UiErr(ApplyPairs(old(config), pairs).1.value)
    {
      var i := 0;
      while i < |pairs|
        invariant 0 <= i <= |pairs|
        invariant ApplyPairs(old(config), pairs) == ApplyPairs(config, pairs[i..])
      {
        assert pairs[i..][1..] == pairs[i + 1..];
        var changed := OnConfigChanged(pairs[i].0, pairs[i].1);
        if changed.UiErr? {
          return changed;
        }
        i := i + 1;
      }
      r := UiOk(());
    }

    /** The settings as (key, value) texts; applying them back changes nothing. */
    function GetCurrentConfig(): (pairs: seq<(string, string)>)
      reads this`config
      ensures ApplyPairs(config, pairs) == (config, None)
    {
      CurrentConfigRoundTrip(config);
      CurrentConfig(config)
    }

    method ResetToDefaults()
      modifies this`config
      ensures config == DefaultUiConfig
    {
      config := DefaultUiConfig;
    }
  }

  /**
   * The source's streaming test: with mining on, a started stream draws frames for its id, and
   * after it is stopped it draws none and no stream is active.
   */
  method StreamingExample() returns (before: bool, during: bool, after: bool)
    ensures !before && during && !after
  {
    var panel := new Panel();
    panel.config := panel.config.(miningEnabled := true);
    before := panel.IsStreaming();
    var started := panel.StartStream();
    var id := started.value;
    during := panel.RenderFrame(id);
    var stopped := panel.StopStream(id);
    assert stopped.UiOk?;
    after := panel.RenderFrame(id) || panel.IsStreaming();
  }

  /** The source's settings test: the toggle, a number and an address apply; an unknown key does not. */
  lemma ConfigChangeExamples(c: UiConfig)
    ensures Changed(c, "mining_enabled", "true") == UiOk(c.(miningEnabled := true))
    ensures Changed(c, "gpu_intensity", "85") == UiOk(c.(gpuIntensity := 85))
    ensures Changed(c, "invalid_key", "value").UiErr?
  {
    assert Decimal.AllDigits("85");
    assert Decimal.Value("85") == 85 by {
      assert "85"[..1] == "8";
      assert "8"[..0] == "";
    }
  }
}

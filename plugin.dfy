/**
 * The plugin facade (src/impl/plugin.rs): it validates the configuration, owns at most one pool
 * client and at most one mining coordinator, and creates and drops them over its lifecycle.
 */
module Plugin {
  import opened Errors
  import opened Types
  import opened Config
  import opened Hardware
  import opened Stratum
  import opened Coordinator

  /** A configuration the plugin accepts: a CPU percentage from 1 to 100. */
  predicate ValidCpuPercentage(c: MiningConfig)
  {
    1 <= c.maxCpuPercentage <= 100
  }

  const InvalidCpuPercentage := Configuration("CPU percentage must be between 1 and 100")

  class MiningPlugin {
    var config: MiningConfig
    var coordinator: MiningCoordinator?
    var stratumClient: StratumClient?
    const hardware: HardwareProfile

    constructor (config: MiningConfig, hardware: HardwareProfile)
      requires ValidCpuPercentage(config)
      ensures this.config == config && this.hardware == hardware
      ensures coordinator == null && stratumClient == null
    {
      this.config := config;
      this.hardware := hardware;
      coordinator := null;
      stratumClient := null;
    }

    /**
     * A plugin for the detected hardware, refused with a Configuration error when the CPU
     * percentage is 0 or above 100; a new plugin neither mines nor holds a pool client.
     */
    static method New(config: MiningConfig) returns (r: Result<MiningPlugin>)
      ensures r.Ok? <==> ValidCpuPercentage(config)
      ensures r.Err? ==> r.error == InvalidCpuPercentage
      ensures r.Ok? ==> fresh(r.value) && r.value.config == config
      ensures r.Ok? ==> r.value.hardware == Detect().value && r.value.hardware.logicalCores > 0
      ensures r.Ok? ==> !r.value.IsMining() && r.value.PoolConnectionState() == Disconnected
      ensures r.Ok? ==> r.value.Stats() == DefaultStats
    {
      var hardware := Detect().value;
      if config.maxCpuPercentage == 0 || config.maxCpuPercentage > 100 {
        return Err(InvalidCpuPercentage);
      }
      var plugin := new MiningPlugin(config, hardware);
      r := Ok(plugin);
    }

    /** Replaces the configuration, or refuses an invalid one and keeps the old. */
    method UpdateConfig(newConfig: MiningConfig) returns (r: Result<()>)
      modifies this`config
      ensures r.Ok? <==> ValidCpuPercentage(newConfig)
      ensures r.Ok? ==> config == newConfig
      ensures r.Err? ==> r.error == InvalidCpuPercentage && config == old(config)
    {
      if newConfig.maxCpuPercentage == 0 || newConfig.maxCpuPercentage > 100 {
        return Err(InvalidCpuPercentage);
      }
      config := newConfig;
      r := Ok(());
    }

    /**
     * Connects a new client for the configured pool and worker, replacing any previous client;
     * refused with a Configuration error when no pool address is configured.
     */
    method ConnectToPool() returns (r: Result<()>)
      modifies this`stratumClient
      ensures config.poolUrl.None? ==> r == Err(Configuration("No pool URL configured"))
      ensures config.poolUrl.None? ==> stratumClient == old(stratumClient)
      ensures config.poolUrl.Some? ==> r == Ok(()) && stratumClient != null && fresh(stratumClient)
      ensures config.poolUrl.Some? ==>
        stratumClient.poolUrl == config.poolUrl.value && stratumClient.workerName == config.workerName
      ensures config.poolUrl.Some? ==>
        PoolConnectionState() == Connected(config.poolUrl.value, config.workerName)
    {
      if config.poolUrl.None? {
        return Err(Configuration("No pool URL configured"));
      }
      var client := new StratumClient(config.poolUrl.value, config.workerName);
      var connected := client.Connect();
      if connected.Ok? {
        stratumClient := client;
      }
      r := connected;
    }

    /** Disconnects the client, if any, and drops it. */
    method DisconnectFromPool()
      modifies this`stratumClient, stratumClient
      ensures stratumClient == null && PoolConnectionState() == Disconnected
      ensures old(stratumClient) != null ==> old(stratumClient).state == Disconnected
    {
      if stratumClient != null {
        stratumClient.Disconnect();
      }
      stratumClient := null;
    }

    /** The client's connection state, or Disconnected when there is no client. */
    function PoolConnectionState(): (s: PoolConnection)
      reads this`stratumClient, stratumClient
      ensures stratumClient == null ==> s == Disconnected
      ensures stratumClient != null ==> s == stratumClient.state
      ensures s.Connected? <==> stratumClient != null && stratumClient.IsConnected()
    {
      if stratumClient == null then Disconnected else stratumClient.state
    }

    /**
     * Creates a coordinator for the plugin's configuration and hardware, refused while one
     * exists. When a pool client is held its job is asked for first, and its error (not
     * connected) is passed on; a connected client never has a job, so the new coordinator is
     * not started.
     */
    method StartBackgroundMining() returns (r: Result<()>)
      modifies this`coordinator
      ensures old(coordinator) != null ==>
        r == Err(Coordinator("Mining already active")) && coordinator == old(coordinator)
      ensures old(coordinator) == null ==>
        (r.Ok? <==> IsSuitableForMining(hardware) && (stratumClient == null || stratumClient.IsConnected()))
      ensures old(coordinator) == null && r.Err? ==> coordinator == null
      ensures old(coordinator) == null && !IsSuitableForMining(hardware) ==>
        r == Err(HardwareDetection("Hardware does not meet minimum requirements for mining"))
      ensures (old(coordinator) == null && IsSuitableForMining(hardware) && stratumClient != null &&
               !stratumClient.IsConnected()) ==> r == Err(PoolConnection("Not connected to pool"))
      ensures old(coordinator) == null && r.Ok? ==> coordinator != null && fresh(coordinator)
      ensures old(coordinator) == null && r.Ok? ==>
        coordinator.config == config && coordinator.hardware == hardware
      ensures old(coordinator) == null && r.Ok? ==> !IsMining() && Stats() == DefaultStats
    {
      if coordinator != null {
        return Err(Coordinator("Mining already active"));
      }
      var created := MiningCoordinator.New(config, hardware);
      if created.Err? {
        return Err(created.error);
      }
      if stratumClient != null {
        var job := stratumClient.GetJob();
        if job.Err? {
          return Err(job.error);
        }
      }
      coordinator := created.value;
      r := Ok(());
    }

    /** Clears the coordinator's running flag, if there is one, and drops it. */
    method StopBackgroundMining()
      modifies this`coordinator, coordinator
      ensures coordinator == null && !IsMining() && Stats() == DefaultStats
      ensures old(coordinator) != null ==> !old(coordinator).running
    {
      if coordinator != null {
        coordinator.Stop();
      }
      coordinator := null;
    }

    /** Mining exactly when a coordinator is held and running. */
    predicate IsMining()
      reads this`coordinator, coordinator
      ensures coordinator == null ==> !IsMining()
      ensures coordinator != null ==> (IsMining() <==> coordinator.running)
    {
      coordinator != null && coordinator.IsRunning()
    }

    /** The coordinator's statistics, or the default (all zero) ones without a coordinator. */
    function Stats(): (s: MiningStats)
      reads this`coordinator, coordinator
      ensures coordinator == null ==> s == DefaultStats
      ensures coordinator != null ==>
        s.totalHashes == coordinator.totalHashes && s.sharesFound == coordinator.sharesFound
    {
      if coordinator == null then DefaultStats else coordinator.Stats()
    }

    /** Dropping the plugin stops mining and disconnects from the pool. */
    method Drop()
      modifies this`coordinator, coordinator, this`stratumClient, stratumClient
      ensures coordinator == null && stratumClient == null
      ensures !IsMining() && PoolConnectionState() == Disconnected
    {
      StopBackgroundMining();
      DisconnectFromPool();
    }
  }
}

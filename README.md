# essentia_mining_plugin core, modelled in Dafny

This project models the core of the essentia_mining_plugin Rust crate, a background
Bitcoin-style CPU miner. It covers:

- **Proof-of-work primitives.** A streaming SHA-256 hasher (FIPS 180-4) and double SHA-256. The
  80-byte block header and its serialisation. The compact "bits" target and the hash ≤ target
  test. The checked nonce counter.
- **The mining coordinator.** The running flag and the shared hash and share counters. The split
  of the 32-bit nonce space over worker threads. One worker's search loop with its batched
  counter flushes.
- **Small parsers and state machines.** The Stratum pool URL parser and the client's connection
  states. The configuration builders and the effective thread count. The hardware profile, its
  tier and its suitability test. The plugin facade's lifecycle.
- **The editor panel.** Its settings, the key-by-key updates, and its single statistics stream
  with 64-bit wrapping ids.
- **Three bookkeeping tables.**
  - The multi-pool manager: registry, priorities, failover, health and totals.
  - The reward distributor: workers, the share window, blocks, reward splits and payouts.
  - The hash-rate monitor: the bounded sample window, peak and minimum, drop alerts and the
    moving average.

Every state-changing operation is a method on a class, with the source's fields. A table the
source mutates is a `seq` or `map` field. Each method's `ensures` ties the new state to
functions of the old state. What the source promises about those functions is proved as lemmas.
Pure code is modelled as functions. Errors are `Result` values carrying the source's error
variant and message.

Files, one module per source file:

| file | module | models |
|---|---|---|
| errors.dfy | Errors | `MiningError`, `Result`, `Option` |
| fips180.dfy | Fips180 | the SHA-256 reference functions (padding, schedule, rounds, digest) |
| sha256.dfy | Sha256 | the in-place hasher proved against Fips180 |
| sha256_vectors.dfy | Sha256Vectors, EmptyMessageVector, AbcMessageVector | the two known-answer digests |
| types.dfy | Types | header, target, hash test, nonce, job, statistics, connection state |
| decimal.dfy | Decimal | decimal rendering and parsing of naturals (Rust `to_string`/`parse`) |
| config.dfy | Config | `MiningConfig` and its builders |
| hardware.dfy | Hardware | `MiningHardwareProfile` |
| coordinator.dfy | Coordinator | `MiningCoordinator` (both copies) |
| stratum.dfy | Stratum | `StratumClient`, `parse_stratum_url` |
| plugin.dfy | Plugin | `MiningPlugin` |
| flexforge.dfy | FlexForge | `MiningPluginFlexForge` |
| pool_management.dfy | PoolManagement | `PoolState`, `PoolManager` |
| reward_distribution.dfy | RewardDistribution | `RewardDistributor` |
| hash_rate_monitor.dfy | HashRateMonitor | `HashRateMonitor`, `HashRateUnit` |

Inputs the model takes instead of computing:

- Clocks are `now: nat` parameters, in seconds or nanoseconds as the source uses them.
- Operating-system core and memory counts are inputs of `Hardware.DetectBasic`.
- A worker's view of the shared running flag is a function `runningAt: nat -> bool` of the
  nonce it is at.
- The header hash used by the search loop is a parameter `hashOf`. `Coordinator.HeaderHash`
  defines the double SHA-256 of the serialised header that the source uses in that place, and
  `Coordinator.HeaderHashShare` states the share test with `hashOf` set to it.
- Score-based reward splits are a parameter `scoreSplit`.

## Model

| member | source | states |
|---|---|---|
| Fips180.Schedule | src/sha256.rs:105-124 | the reference message schedule of a block has 64 words (16 big-endian words, then the σ0/σ1 recurrence with wrapping addition); the in-place loop is proved equal to it |
| Fips180.Compress | src/sha256.rs:105-157 | the reference compression of one block yields 8 words (64 rounds with Σ0/Σ1, Ch, Maj and K, then the wrapping add) |
| Fips180.Absorb | src/sha256.rs:52-64 | compressing a whole number of 64-byte blocks in order leaves an 8-word hash value |
| Fips180.AbsorbBlock | src/sha256.rs:52-64 | absorbing one more block is one more compression of the previous hash value |
| Fips180.PadIsBlocks | src/sha256.rs:74-94 | the padded message (0x80, zeros, the 64-bit bit length) is a whole number of 64-byte blocks, adding 9 to 72 bytes |
| Fips180.PadOneBlock | src/sha256.rs:79-94 | with fewer than 56 pending bytes the padding fits in the same block |
| Fips180.PadTwoBlocks | src/sha256.rs:83-94 | with 56 to 63 pending bytes the padding spills into one extra block of zeros and the length |
| Fips180.BigEndian | src/sha256.rs:93 | the big-endian encoding is exactly n bytes long |
| Fips180.Digest | src/sha256.rs:96-101 | the 8 state words serialised big-endian into 32 bytes |
| Fips180.DigestIsWordsBytes | src/sha256.rs:96-101 | the digest is each word's 4 big-endian bytes in word order |
| Fips180.Hash | src/sha256.rs:167-171 | the reference SHA-256 of any message is 32 bytes |
| Sha256.Hasher.constructor | src/sha256.rs:35-37 | a new hasher has absorbed nothing: state H, empty buffer, zero length |
| Sha256.Hasher.Update | src/sha256.rs:40-71 | appends data to the absorbed stream, keeping the invariant: whole blocks compressed into the state, the rest (fewer than 64 bytes) in the buffer, length = bytes absorbed |
| Sha256.Hasher.FillBuffer | src/sha256.rs:44-56 | tops up a partly filled buffer and compresses it once full, without losing or reordering bytes |
| Sha256.Hasher.ProcessBlocks | src/sha256.rs:58-63 | compresses every whole block of the remaining data in order and leaves fewer than 64 bytes |
| Sha256.Hasher.CopyToBuffer | src/sha256.rs:48 | copies bytes into the buffer at an offset and changes nothing else |
| Sha256.Hasher.ProcessBlock | src/sha256.rs:105-157 | compressing a block in place extends the compressed stream by that block |
| Sha256.Hasher.AddToState | src/sha256.rs:148-156 | the state becomes the word-wise wrapping sum of the old state and the working variables |
| Sha256.MessageSchedule | src/sha256.rs:107-124 | the schedule array built by the two loops equals Fips180.Schedule |
| Sha256.CompressionRounds | src/sha256.rs:126-146 | the 64-round loop yields exactly the reference rounds |
| Sha256.Hasher.Finalize | src/sha256.rs:74-102 | the digest is the SHA-256 of every byte absorbed |
| Sha256.Hasher.PadBuffer | src/sha256.rs:76-92 | the marker and zeros (with the extra block when the buffer is past 56) are exactly the padding up to the length field |
| Sha256.Hasher.FlushPadded | src/sha256.rs:83-87 | a buffer past 56 bytes is zero-filled and compressed, leaving an empty zeroed buffer |
| Sha256.Hasher.ZeroBuffer | src/sha256.rs:84-88 | zeroes a range of the buffer and changes nothing else |
| Sha256.Hasher.WriteDigest | src/sha256.rs:96-101 | the output is the big-endian digest of the state |
| Sha256.Sha256 | src/sha256.rs:167-171 | one-shot hashing equals Fips180.Hash |
| Sha256.DoubleSha256 | src/sha256.rs:174-176 | double SHA-256 is SHA-256 of SHA-256 |
| EmptyMessageVector.EmptyMessage | src/sha256.rs:183-191 | SHA-256 of the empty message is e3b0c442…7852b855 |
| AbcMessageVector.AbcMessage | src/sha256.rs:194-202 | SHA-256 of "abc" is ba7816bf…f20015ad |
| Types.LittleEndian | src/types.rs:44-48 | the 4 little-endian bytes of a u32 encode its value |
| Types.Serialize | src/types.rs:41-50 | the header serialises to 80 bytes: version, previous hash, merkle root, time, bits and nonce at their offsets, integers little-endian |
| Types.DeserializeSerialize | src/types.rs:41-50 | serialisation loses nothing: the header is read back from its bytes |
| Types.SerializeInjective | src/types.rs:41-50 | distinct headers serialise differently |
| Types.SerializeNonceOnly | src/types.rs:43-48 | changing the nonce changes only bytes 76..80 |
| Types.FromBits | src/types.rs:62-79 | for an exponent in 3..32 the mantissa bytes sit at 32 - exponent with zeros around them; any other exponent gives the zero target |
| Types.MantissaBytes | src/types.rs:69-75 | the three big-endian bytes of the 24-bit mantissa |
| Types.FromBitsValue | src/types.rs:62-79 | the target's big-endian value is mantissa × 256^(exponent − 3), and 0 outside 3..32 |
| Types.IsValidHashIsNumeric | src/types.rs:82-92 | the byte scan accepts exactly when the hash, read big-endian, is at most the target, equality included |
| Types.ScanIsNumeric | src/types.rs:82-92 | from any equal prefix, the rest of the scan decides hash ≤ target numerically |
| Types.Nonce.constructor | src/types.rs:97 | a nonce holds its initial value |
| Types.Nonce.Increment | src/types.rs:101-104 | below u32::MAX the value increments and is returned; at u32::MAX it is kept and None is returned |
| Decimal.Decimal | src/stratum.rs:142 | the decimal text of n has no leading zero and reads back as n |
| Decimal.ParseUnsigned | src/stratum.rs:139-142 | an accepted number is at most the integer type's maximum |
| Decimal.ParseDecimal | src/stratum.rs:139-142 | a value within range parses back from its decimal text, with or without a leading '+' |
| Decimal.ParseTooLarge | src/stratum.rs:139-142 | a value above the maximum is refused |
| Config.WithMaxCpuUsage | src/config.rs:49-52 | stores min(percentage, 100) and changes nothing else |
| Config.WithBackgroundPriority | src/config.rs:55-58 | stores the flag and changes nothing else |
| Config.WithThreadCount | src/config.rs:61-64 | stores the count unchanged and changes nothing else |
| Config.WithGpuEnabled | src/config.rs:79-82 | stores the flag and changes nothing else |
| Config.EffectiveThreadCount | src/config.rs:85-94 | an explicit count gives min(count, cores); auto mode gives at least 1 |
| Config.AutoThreadCount | src/config.rs:88-93 | auto mode gives floor(cores × percent / 100), or 1 when that is 0, never more than the cores |
| Config.EffectiveThreadCountExamples | src/config.rs:102-123 | 8 cores at 50% give 4; an explicit 2 of 8 gives 2; the builder stores 75 |
| Hardware.DetectBasic | src/impl/hardware.rs:43-69 | at least one physical core, at most half the logical ones unless only one; the logical count and memory as given; no SHA extensions, AVX2 or GPU; tier in 1..5 |
| Hardware.Detect | src/impl/hardware.rs:36-40 | detection with the fallback counts (4 cores, 8 GiB) succeeds and is suitable for mining |
| Hardware.DefaultProfile | src/impl/hardware.rs:140-153 | the default profile is the detected one: 2 physical cores, 4 logical, 8 GiB |
| Hardware.CalculateTier | src/impl/hardware.rs:72-91 | the tier (core score + memory score) / 2 is in 1..5 |
| Hardware.TierMonotone | src/impl/hardware.rs:72-91 | more cores and memory never lower the tier |
| Hardware.TierExample | src/impl/hardware.rs:176-179 | 16 cores and 32 GiB give tier at least 4 |
| Hardware.DetectedSuitable | src/impl/hardware.rs:103-105 | a detected machine is suitable iff it has at least 4 logical cores and 2 GiB |
| Hardware.RecommendedThreads | src/impl/hardware.rs:107-111 | at most the physical cores, and at least 1 when there is a core |
| Hardware.RecommendedThreadsShare | src/impl/hardware.rs:107-111 | the count is floor(physical × percent / 100) when that is at least 1 |
| Hardware.RecommendedThreadsExamples | src/impl/hardware.rs:166-173 | 8 physical cores: 50% gives 4, 25% gives 2, 100% gives 8 |
| Coordinator.NonceRange | src/coordinator.rs:62 | u32::MAX / threads is at least 1 and threads × range fits in a u32 |
| Coordinator.StartNonce | src/coordinator.rs:65 | thread i starts at i × range with no u32 overflow, leaving room for a whole range |
| Coordinator.EndNonce | src/coordinator.rs:66-70 | a thread's exclusive end is the next thread's start; the last thread ends at u32::MAX |
| Coordinator.RangesCover | src/coordinator.rs:64-70 | every nonce below u32::MAX is searched by some thread |
| Coordinator.RangesDisjoint | src/impl/coordinator.rs:97-103 | thread ranges are ordered and pairwise disjoint |
| Coordinator.RangesAsWrittenSkip | src/coordinator.rs:66-70 | with the source's end nonces, the last nonce of each non-last range is searched by no thread |
| Coordinator.AsWrittenSkipsNonce | src/impl/coordinator.rs:99-103 | with 2 threads nonce 2147483646 is never hashed |
| Coordinator.Shares | src/coordinator.rs:127-129 | the number of nonces in a run whose header hash meets the target, at most the run length |
| Coordinator.SharesAllMeet | src/coordinator.rs:127-129 | when every hash meets the target, every nonce counts as a share |
| Coordinator.SharesNoneMeet | src/impl/coordinator.rs:63-66 | when no hash meets the target, no share is counted |
| Coordinator.Steps | src/coordinator.rs:118-140 | the search loop's iterations never run past the end nonce |
| Coordinator.StepsWhileRunning | src/coordinator.rs:118-140 | while running stays true the loop covers exactly [start, end) |
| Coordinator.StepsStopped | src/impl/coordinator.rs:57 | a cleared flag means no nonce is hashed |
| Coordinator.Wrap | src/coordinator.rs:135 | a value reduced below 2^64 |
| Coordinator.WrapIsRemainder | src/coordinator.rs:135 | the reduction is the remainder modulo 2^64 |
| Coordinator.WrapAdd | src/coordinator.rs:135-144 | adding to a wrapped counter equals wrapping the whole sum |
| Coordinator.WrappingAdd | src/coordinator.rs:135 | u64 wrapping addition is the sum modulo 2^64 |
| Coordinator.MiningCoordinator.constructor | src/coordinator.rs:31-47 | a new coordinator is stopped with zero counters |
| Coordinator.MiningCoordinator.New | src/impl/coordinator.rs:30-48 | fails with HardwareDetection exactly for unsuitable hardware; otherwise stopped with zero statistics |
| Coordinator.MiningCoordinator.ThreadCount | src/coordinator.rs:61 | the effective thread count is at least 1 |
| Coordinator.MiningCoordinator.Start | src/coordinator.rs:54-92 | already running: the Coordinator error and nothing changes; otherwise running, one range per thread, thread i getting the corrected range [StartNonce(i), EndNonce(i)) of the first Findings row |
| Coordinator.MiningCoordinator.Stop | src/coordinator.rs:95-102 | stopping clears the flag and is_running reports it |
| Coordinator.MiningCoordinator.Stats | src/coordinator.rs:105-111 | the statistics carry the two counters and default everything else |
| Coordinator.HeaderHashShare | src/coordinator.rs:122-127 | under the source's hash a nonce is a share exactly when SHA-256 twice over the 80 header bytes, ending in the nonce little-endian, meets the target |
| Coordinator.MiningCoordinator.MiningThread | src/coordinator.rs:114-146 | the hash counter grows by exactly the iterations, the share counter by exactly the shares among them |
| Coordinator.MiningCoordinator.HashNonce | src/impl/coordinator.rs:59-73 | one iteration: a share counted iff the hash meets the target; hashes flushed at 1000 |
| Coordinator.MiningCoordinator.AddHashes | src/impl/coordinator.rs:72-81 | a flush adds to the hash counter modulo 2^64 |
| Coordinator.MiningCoordinator.AddShares | src/impl/coordinator.rs:65 | a share adds to the share counter modulo 2^64 |
| Stratum.Split | src/stratum.rs:134 | splitting on a separator yields pieces without it that join back to the input |
| Stratum.SplitWithout | src/stratum.rs:134 | text without the separator splits into itself |
| Stratum.SplitAt | src/stratum.rs:134 | a piece without the separator, then the separator, splits off first |
| Stratum.StripSchemeOf | src/stratum.rs:129-132 | both schemes are stripped from a URL that starts with them |
| Stratum.ParseStratumUrl | src/stratum.rs:127-145 | an unknown scheme gives the prefix error; a parsed host has no ':' |
| Stratum.ParseStratumUrlShape | src/stratum.rs:127-145 | a parsed URL is scheme + host + ':' + port text, and the port text parses to the port |
| Stratum.ParseStratumUrlRoundTrip | src/stratum.rs:127-145 | scheme + host + ':' + decimal port parses back to (host, port) |
| Stratum.ParseStratumUrlWithoutPort | src/stratum.rs:134-137 | a URL without ':' gives the format error |
| Stratum.ParseStratumUrlExample | src/stratum.rs:158-164 | stratum+tcp://pool.example.com:3333 gives (pool.example.com, 3333) |
| Stratum.ParseStratumUrlHttp | src/stratum.rs:167-170 | an http URL gives the prefix error |
| Stratum.StratumClient.constructor | src/stratum.rs:19-27 | a new client is disconnected, with empty extranonce1 and extranonce2 size 4 |
| Stratum.StratumClient.Connect | src/stratum.rs:34-54 | connect succeeds and carries the client's URL and worker; no job is available |
| Stratum.StratumClient.Disconnect | src/stratum.rs:57-59 | any state becomes Disconnected, after which jobs are refused |
| Stratum.StratumClient.IsConnected | src/stratum.rs:67-69 | connected exactly in the Connected state; a connection under way or a failed one is not connected |
| Stratum.StratumClient.GetJob | src/stratum.rs:76-83 | refused iff not connected |
| Stratum.StratumClient.SubmitShare | src/stratum.rs:90-109 | refused iff not connected; otherwise accepted |
| Stratum.ServedIffConnected | src/stratum.rs:76-99 | job requests and share submissions are served exactly while connected, and otherwise refused with "Not connected to pool" |
| Plugin.MiningPlugin.constructor | src/impl/plugin.rs:35 | a new plugin holds no coordinator and no client |
| Plugin.MiningPlugin.New | src/impl/plugin.rs:25-36 | accepted iff the CPU percentage is in 1..100, else InvalidCpuPercentage; a new plugin holds the detected hardware, is not mining, is disconnected and has default statistics |
| Plugin.MiningPlugin.UpdateConfig | src/impl/plugin.rs:55-63 | accepted iff the CPU percentage is in 1..100; a refused update returns InvalidCpuPercentage and keeps the old configuration |
| Plugin.MiningPlugin.ConnectToPool | src/impl/plugin.rs:71-83 | without a pool URL the Configuration error; otherwise a fresh connected client for the URL and worker |
| Plugin.MiningPlugin.DisconnectFromPool | src/impl/plugin.rs:86-91 | the client is disconnected and dropped |
| Plugin.MiningPlugin.PoolConnectionState | src/impl/plugin.rs:95-100 | Disconnected without a client, else the client's state |
| Plugin.MiningPlugin.StartBackgroundMining | src/impl/plugin.rs:107-123 | refused while a coordinator exists; otherwise succeeds iff the hardware is suitable and any client is connected, leaving a stopped coordinator; unsuitable hardware gives the hardware error, and suitable hardware with an unconnected client gives "Not connected to pool" |
| Plugin.MiningPlugin.StopBackgroundMining | src/impl/plugin.rs:126-131 | the coordinator is stopped and dropped; not mining afterwards |
| Plugin.MiningPlugin.Stats | src/impl/plugin.rs:141-143 | default statistics without a coordinator, else its counters |
| Plugin.MiningPlugin.IsMining | src/impl/plugin.rs:135-137 | never mining without a coordinator; with one, mining exactly while it runs |
| Plugin.MiningPlugin.Drop | src/impl/plugin.rs:146-150 | dropping leaves no coordinator and no client |
| FlexForge.KeyOf | src/flexforge.rs:234-276 | a recognised key names the setting whose name it is |
| FlexForge.KeyOfName | src/flexforge.rs:234-276 | each setting is found under its own name |
| FlexForge.ParseSetting | src/flexforge.rs:258-272 | a numeric setting is accepted iff it is digits after an optional '+' |
| FlexForge.ParseSettingDecimal | src/flexforge.rs:258-272 | a byte's decimal text reads back as that byte |
| FlexForge.Changed | src/flexforge.rs:234-277 | an unknown key gives its error; toggle and text keys always apply |
| FlexForge.ChangedToRendered | src/flexforge.rs:234-322 | setting a key to its reported text changes nothing |
| FlexForge.CurrentConfig | src/flexforge.rs:286-322 | the nine (key, value) pairs in panel order |
| FlexForge.ApplyUnchanged | src/flexforge.rs:279-284 | pairs that each change nothing change nothing together |
| FlexForge.CurrentConfigRoundTrip | src/flexforge.rs:279-322 | applying the reported settings back changes nothing and is not refused |
| FlexForge.Panel.constructor | src/flexforge.rs:90-98 | default settings, no stream, ids start at 1 |
| FlexForge.Panel.UpdateStats | src/flexforge.rs:118-120 | the statistics are replaced |
| FlexForge.Panel.NextStreamId | src/flexforge.rs:122-126 | returns the counter and advances it, wrapping from 2^64 − 1 to 0 |
| FlexForge.Panel.StartStream | src/flexforge.rs:338-346 | refused while streaming; otherwise the new id is recorded and the stream is active |
| FlexForge.Panel.IsStreaming | src/flexforge.rs:334-336 | under the panel's invariant, streaming exactly while a stream id is held |
| FlexForge.Panel.StopStream | src/flexforge.rs:348-358 | refused without a stream or for another id, changing nothing; otherwise both fields are cleared |
| FlexForge.Panel.RenderFrame | src/flexforge.rs:365-370 | a frame is drawn iff the stream is active with that id |
| FlexForge.Panel.OnPanelActivate | src/flexforge.rs:160-165 | starts a stream only when mining is on and none is active, under the next id, with the id counter advanced modulo 2^64; otherwise nothing changes |
| FlexForge.Panel.OnPanelDeactivate | src/flexforge.rs:167-173 | no stream is active afterwards |
| FlexForge.Panel.OnRefresh | src/flexforge.rs:175-177 | redraw iff streaming and mining is on |
| FlexForge.Panel.OnConfigChanged | src/flexforge.rs:234-277 | the settings become Changed's result; a refused change leaves them as they were |
| FlexForge.Panel.ApplyConfig | src/flexforge.rs:279-284 | applies the pairs in order and stops at the first refusal, which is returned |
| FlexForge.Panel.GetCurrentConfig | src/flexforge.rs:286-322 | applying the reported pairs back changes nothing |
| FlexForge.Panel.ResetToDefaults | src/flexforge.rs:324-326 | the default settings are restored |
| FlexForge.StreamingExample | src/flexforge.rs:413-425 | no stream before, frames for the started id, none after it is stopped |
| FlexForge.ConfigChangeExamples | src/flexforge.rs:398-411 | the toggle and intensity updates apply; an unknown key is refused |
| PoolManagement.NewPoolState | src/impl/pool_management.rs:95-117 | a new pool is Disconnected with zero counters and acceptance rate 1 |
| PoolManagement.AcceptanceRate | src/impl/pool_management.rs:112-117 | 1 with nothing submitted; otherwise the rate times the submitted count is the accepted count, and it lies in [0, 1] when accepted ≤ submitted |
| PoolManagement.RejectionRate | src/impl/pool_management.rs:121-126 | 0 with nothing submitted; otherwise the rate times the submitted count is the rejected count, and it lies in [0, 1] when rejected ≤ submitted |
| PoolManagement.StaleRate | src/impl/pool_management.rs:130-137 | 0 with nothing submitted; otherwise the rate times the submitted count is the unaccounted count, it lies in [0, 1], and acceptance + rejection + stale = 1. Its requires accepted + rejected ≤ submitted excludes the source's u64 underflow of `shares_submitted - accounted`, which no sequence of recorded results reaches |
| PoolManagement.RatesOfBalanced | src/impl/pool_management.rs:112-136 | with submitted = accepted + rejected, the rates are in [0, 1], sum to 1, and the stale rate is 0 |
| PoolManagement.PoolManager.constructor | src/impl/pool_management.rs:201-208 | an empty registry with no active pool and no history |
| PoolManagement.PoolManager.AddPool | src/impl/pool_management.rs:211-226 | refused iff the registry is full, with the count in the message; otherwise a fresh pool state under its id, never more than the maximum |
| PoolManagement.PoolManager.RemovePool | src/impl/pool_management.rs:229-248 | refused iff unknown; the active pool is cleared exactly when it was the removed one |
| PoolManagement.PoolManager.GetPool | src/impl/pool_management.rs:251-257 | the pool's state iff registered |
| PoolManagement.PoolManager.SetActivePool | src/impl/pool_management.rs:278-296 | refused iff unknown, leaving the active pool; the active pool is always registered |
| PoolManagement.PoolManager.UpdateStatus | src/impl/pool_management.rs:299-310 | refused iff unknown; otherwise only that pool's status changes |
| PoolManagement.PoolManager.RecordShare | src/impl/pool_management.rs:313-331 | refused iff unknown; submitted and exactly one of accepted or rejected grow by one, the share time is set, no other pool changes |
| PoolManagement.PoolManager.SelectBestPool | src/impl/pool_management.rs:334-359 | None iff every pool is Failed or Disabled; otherwise a usable pool of the best priority |
| PoolManagement.PoolManager.Failover | src/impl/pool_management.rs:362-392 | the active pool is marked Failed; a new best pool becomes active and is logged, otherwise nothing else changes |
| PoolManagement.PoolManager.HealthCheck | src/impl/pool_management.rs:404-427 | every pool is listed exactly once, as healthy or as unhealthy |
| PoolManagement.PoolManager.AggregateStats | src/impl/pool_management.rs:430-457 | pool count, connected count and the three share totals over all pools, and the overall acceptance rate |
| PoolManagement.TotalRemove | src/impl/pool_management.rs:435-449 | a pool's counter is one term of the total |
| PoolManagement.TotalAdd | src/impl/pool_management.rs:435-449 | totals of summed counters add up |
| PoolManagement.TotalStep | src/impl/pool_management.rs:435-449 | adding a pool adds its counter to the total |
| PoolManagement.AggregateBalanced | src/impl/pool_management.rs:435-449 | when every pool balances, total submitted = total accepted + total rejected |
| PoolManagement.TwoPools | src/impl/pool_management.rs:525-542 | the test registry of a primary and a backup pool |
| PoolManagement.SelectBestPoolExample | src/impl/pool_management.rs:525-542 | the primary is selected over the backup |
| PoolManagement.FailoverExample | src/impl/pool_management.rs:545-564 | failing the primary over selects the backup |
| RewardDistribution.BlockReward.TotalSats | src/impl/reward_distribution.rs:84-86 | the total is at least the subsidy and at least the fees, and zero only when both are |
| RewardDistribution.TotalSatsExample | src/impl/reward_distribution.rs:696-708 | 625,000,000 reward + 1,000,000 fees = 626,000,000 |
| RewardDistribution.NewWorker | src/impl/reward_distribution.rs:121-126 | a new worker has zero counters and balances, active since now |
| RewardDistribution.CountShare | src/impl/reward_distribution.rs:320-326 | submitted and exactly one of accepted or rejected grow by one, keeping submitted = accepted + rejected |
| RewardDistribution.CountWorkerShareAsWritten | src/impl/reward_distribution.rs:314-327 | as written, a share of an unknown worker registers it |
| RewardDistribution.AsWrittenLosesWorkerId | src/impl/reward_distribution.rs:314-318 | as written, a worker registered this way has the empty id |
| RewardDistribution.Trimmed | src/impl/reward_distribution.rs:302-305 | under PPLNS the history is cut to the window; other methods keep it all |
| RewardDistribution.TrimmedSuffix | src/impl/reward_distribution.rs:302-305 | trimming drops the oldest shares and keeps the new one last |
| RewardDistribution.TrimmedIds | src/impl/reward_distribution.rs:272-305 | share ids in the history stay strictly increasing |
| RewardDistribution.Filter | src/impl/reward_distribution.rs:400-401 | the shares kept are exactly those that pass |
| RewardDistribution.Take | src/impl/reward_distribution.rs:402 | the first n shares |
| RewardDistribution.FirstIndex | src/impl/reward_distribution.rs:366-368 | the first match, or None iff nothing matches |
| RewardDistribution.LastAcceptedWorker | src/impl/reward_distribution.rs:486-491 | the worker of the last accepted share, None iff no share is accepted |
| RewardDistribution.PoolFee | src/impl/reward_distribution.rs:371-372 | the pool's cut is at most the total for a fee of at most 100%, and 0 for no fee |
| RewardDistribution.CutAtMost | src/impl/reward_distribution.rs:372 | a fee of at most 100% of a total is at most the total |
| RewardDistribution.Distributable | src/impl/reward_distribution.rs:371-373 | distributable + fee = total |
| RewardDistribution.ToSats | src/impl/reward_distribution.rs:414 | the u64 cast of a non-negative amount is its floor, 0 for negatives |
| RewardDistribution.Credited | src/impl/reward_distribution.rs:509-510 | only the pending balance changes, by the amount |
| RewardDistribution.SplitByDifficulty | src/impl/reward_distribution.rs:409-417 | the workers paid are exactly the workers of the shares |
| RewardDistribution.SplitStep | src/impl/reward_distribution.rs:411-417 | each share adds its reward to its worker's entry |
| RewardDistribution.SplitAddsShare | src/impl/reward_distribution.rs:411-417 | a later share adds its reward to its worker's total |
| RewardDistribution.SplitExample | src/impl/reward_distribution.rs:409-417 | difficulties 2 and 1 split 300 into 200 and 100 |
| RewardDistribution.PendingOf | src/impl/reward_distribution.rs:613-623 | exactly the pending payouts |
| RewardDistribution.Confirmed | src/impl/reward_distribution.rs:349-354 | only a block at the height changes: its confirmations, and mature iff at least the maturity |
| RewardDistribution.RewardDistributor.constructor | src/impl/reward_distribution.rs:232-243 | empty tables, zero counters and height |
| RewardDistribution.RewardDistributor.RegisterWorker | src/impl/reward_distribution.rs:246-259 | a new worker is added; an existing one is kept as it was |
| RewardDistribution.RewardDistributor.RecordShare | src/impl/reward_distribution.rs:262-331 | ids 1, 2, 3, … each one more than the last; the history is the trimmed history plus the share; the worker's counters count it, and an unknown worker is registered under its own id (the corrected behaviour of the second Findings row) |
| RewardDistribution.RewardDistributor.AppendShare | src/impl/reward_distribution.rs:272-305 | the next id and the trimmed history with the share appended |
| RewardDistribution.RewardDistributor.CountWorkerShare | src/impl/reward_distribution.rs:314-327 | the worker's counters count the share; an unknown worker is registered under its id |
| RewardDistribution.RewardDistributor.RecordBlock | src/impl/reward_distribution.rs:334-341 | the block is appended |
| RewardDistribution.RewardDistributor.SetBlockHeight | src/impl/reward_distribution.rs:655-661 | the height is stored |
| RewardDistribution.RewardDistributor.UpdateConfirmations | src/impl/reward_distribution.rs:344-357 | every block becomes Confirmed of its old value; the list keeps its length |
| RewardDistribution.RewardDistributor.CalculateRewards | src/impl/reward_distribution.rs:360-499 | no block at the height: the not-found error; PPS pays no one; solo pays the whole distributable amount to the last accepted share's worker; PPLNS and proportional split it by difficulty over exactly the workers of the relevant shares |
| RewardDistribution.RewardDistributor.Relevant | src/impl/reward_distribution.rs:396-433 | PPLNS: at most the window of accepted shares up to the height; proportional: exactly the accepted shares at the height |
| RewardDistribution.RewardDistributor.SumDifficulties | src/impl/reward_distribution.rs:408 | the loop sums the difficulties |
| RewardDistribution.RewardDistributor.SplitRewards | src/impl/reward_distribution.rs:411-417 | the loop builds the difficulty split |
| RewardDistribution.RewardDistributor.SplitKeys | src/impl/reward_distribution.rs:411-417 | the workers paid are exactly the workers of the shares |
| RewardDistribution.RewardDistributor.DistributeRewards | src/impl/reward_distribution.rs:502-514 | every registered worker is credited its reward; unknown ids are ignored and no worker is added |
| RewardDistribution.RewardDistributor.CreatePayout | src/impl/reward_distribution.rs:517-565 | unknown worker: error; below the minimum: None and nothing changes; otherwise the whole balance becomes a new Pending payout with a fresh id and the balance is zeroed |
| RewardDistribution.RewardDistributor.CompletePayout | src/impl/reward_distribution.rs:568-592 | unknown id: error and nothing changes; otherwise Completed with its txid and time, and the amount is added to the worker's paid total |
| RewardDistribution.RewardDistributor.PendingPayouts | src/impl/reward_distribution.rs:613-623 | exactly the pending payouts |
| HashRateMonitor.HashRate | src/impl/hash_rate_monitor.rs:28-33 | hashes per second: rate × seconds = hashes, 0 for a zero duration |
| HashRateMonitor.HashRateExample | src/impl/hash_rate_monitor.rs:506-513 | 1000 hashes in one second are 1000 H/s |
| HashRateMonitor.HashRateUnit.Convert | src/impl/hash_rate_monitor.rs:75-83 | the converted rate times the unit's factor is the rate; H/s leaves it unchanged; a non-negative rate shrinks to a non-negative value |
| HashRateMonitor.HashRateUnit.Suffix | src/impl/hash_rate_monitor.rs:87-95 | every suffix ends in "H/s", and only H/s itself has no prefix letter |
| HashRateMonitor.SuffixNamesUnit | src/impl/hash_rate_monitor.rs:87-95 | two units have the same suffix exactly when they are the same unit |
| HashRateMonitor.AutoSelect | src/impl/hash_rate_monitor.rs:99-111 | the largest unit the rate reaches, below 1000 of the next |
| HashRateMonitor.AutoSelectDisplayRange | src/impl/hash_rate_monitor.rs:75-111 | a rate from 1 H/s up to 1000 TH/s displays between 1 and 1000 in its unit |
| HashRateMonitor.AutoSelectExamples | src/impl/hash_rate_monitor.rs:516-520 | 500 → H/s, 5,000 → KH/s, 5,000,000 → MH/s |
| HashRateMonitor.SaturatingSub | src/impl/hash_rate_monitor.rs:229 | the difference, or 0 when the count went backwards |
| HashRateMonitor.Newest | src/impl/hash_rate_monitor.rs:257-270 | the window keeps min(n, length) items |
| HashRateMonitor.NewestSuffix | src/impl/hash_rate_monitor.rs:257-270 | the oldest are dropped first and the new item is last |
| HashRateMonitor.SumRatesConstant | src/impl/hash_rate_monitor.rs:385-387 | equal rates sum to the count times the rate |
| HashRateMonitor.NewestFirst | src/impl/hash_rate_monitor.rs:404-410 | min(count, length) items, item i being the i-th newest |
| HashRateMonitor.Monitor.constructor | src/impl/hash_rate_monitor.rs:167-179 | empty history and alerts, zero peak, the minimum at f64::MAX |
| HashRateMonitor.Monitor.Start | src/impl/hash_rate_monitor.rs:182-194 | start and last sample times are now |
| HashRateMonitor.Monitor.Record | src/impl/hash_rate_monitor.rs:197-255 | the total is set; before the interval nothing else changes; otherwise the sample of the saturating delta is taken, stored in the window, peak and minimum updated and any drop alert raised |
| HashRateMonitor.Monitor.TakeSample | src/impl/hash_rate_monitor.rs:241-245 | stores the sample and updates peak and minimum, keeping the window bound and the extremes valid |
| HashRateMonitor.Monitor.AddSample | src/impl/hash_rate_monitor.rs:257-270 | the window is the newest max_samples of the history plus the sample |
| HashRateMonitor.Monitor.UpdateExtremes | src/impl/hash_rate_monitor.rs:272-292 | the peak never falls; the minimum changes only for a positive rate below it |
| HashRateMonitor.Monitor.CheckAlerts | src/impl/hash_rate_monitor.rs:294-321 | appends DropAlert's alert, if any |
| HashRateMonitor.Monitor.DropAlert | src/impl/hash_rate_monitor.rs:294-321 | at most one alert: a drop alert for a positive rate below the threshold, only with enough samples |
| HashRateMonitor.Monitor.MovingAverage | src/impl/hash_rate_monitor.rs:371-389 | always succeeds, and is 0 without samples or with a zero window |
| HashRateMonitor.Monitor.MovingAverageConstant | src/impl/hash_rate_monitor.rs:376-388 | when the samples share one rate, the moving average is that rate |
| HashRateMonitor.Monitor.RecentSamples | src/impl/hash_rate_monitor.rs:404-410 | min(count, stored) samples, newest first |
| HashRateMonitor.Monitor.ClearAlerts | src/impl/hash_rate_monitor.rs:422-429 | no alerts remain |
| HashRateMonitor.Monitor.Reset | src/impl/hash_rate_monitor.rs:439-471 | empty samples and alerts, zero total and peak, the minimum back at f64::MAX |

## Left out

- Threads and task spawning, atomic memory orderings and the `running` flag's concurrency. One
  worker's loop is modelled sequentially, with the flag as an input function.
- Mutex lock failures and poisoning. Every `lock().map_err(...)` is treated as succeeding.
- Wall-clock time. `Instant::now`, `SystemTime` and elapsed durations are parameters.
- Operating-system queries. `detect_cpu_cores` reads `NUMBER_OF_PROCESSORS` on Windows only. The
  model uses the fallback counts; `Hardware.DetectBasic` takes any counts.
- Floating point. Rates, difficulties and percentages are exact `real`s, and `as u64` / `as usize`
  casts are floors. Rounding, NaN and infinities are not modelled.
- Config.AutoThreadCount and Hardware.RecommendedThreadsShare: the float products in
  src/config.rs:90-91 and src/impl/hardware.rs:109 are modelled as exact integer floors.
- RewardDistribution.RewardDistributor.CalculateRewards: requires a pool fee of at most 100%. A
  larger fee makes the source's `total - fee` underflow.
- RewardDistribution.RewardDistributor.CalculateRewards: score rewards (src/impl/reward_distribution.rs:449-478)
  need the clock and `powf` decay, so they are a parameter `scoreSplit` and the contract says
  nothing about them.
- RewardDistribution.SplitByDifficulty: with a total difficulty of 0 the source divides by 0. The
  NaN cast gives 0, which the model follows; negative difficulties are not considered.
- Coordinator.MiningCoordinator.Start: hands out the corrected ranges of the first Findings row,
  each non-last thread ending at the next thread's start. The source ends them one nonce
  earlier, at `Coordinator.EndNonceAsWritten`, and `Coordinator.RangesAsWrittenSkip` states what
  those ranges miss.
- RewardDistribution.RewardDistributor.RecordShare: registers an unknown worker under its own id,
  the corrected behaviour of the second Findings row. The source stores it with the id "", which
  `RewardDistribution.CountWorkerShareAsWritten` models. So the invariant that each worker's
  stats carry its own id (`WorkersValid`) holds for the model but not for the source.
- Coordinator.MiningCoordinator.Start: requires a thread count of at most u32::MAX. Beyond that,
  the source's `thread_count as u32` truncates.
- Coordinator.RangesCover: nonce u32::MAX itself is never hashed, because the loop bound is
  exclusive. The model keeps that.
- Coordinator.MiningCoordinator.MiningThread: the header hash is the parameter `hashOf`, not
  computed inside the loop.
- Plugin.MiningPlugin.StartBackgroundMining: a connected client never has a job, so
  `coordinator.start` is never reached from the plugin. The plugin's coordinator is created with
  the detected hardware.
- Counters are unbounded naturals where the source uses `u64` and overflow is unreachable in
  practice. This covers share, payout and pool counters, satoshi sums (among them
  `RewardDistribution.BlockReward.TotalSats`) and `total_hashes`. The
  coordinator's counters and the panel's stream ids do wrap modulo 2^64.
- Sha256.Hasher.Update: `total_len` is unbounded. The source's `total_len += data.len()` and
  `total_len * 8` are plain `u64` arithmetic, which panics on overflow in a debug build and wraps
  in a release build. The model reduces the bit length in the padding modulo 2^64, as a release
  build would, and does not model the debug-build panic. Neither is reachable below 2^61 bytes.
- `statistics()` in hash_rate_monitor.rs:324-368 (averages, variance, standard deviation and
  monitoring duration), `effective_hash_rate`, `format_hash_rate` and alert message texts
  are left out; they are display-only floating-point or text formatting.
- `WorkerStats::acceptance_rate`, `total_earnings_btc`, `BlockReward::total_btc` and
  `pool_stats` are floating-point reports. `get_worker_stats`, `all_worker_stats` and `alerts()`
  are reads of the modelled fields.
- `all_pools`, `active_pool_id` and `failover_history` in pool_management.rs are reads of the
  `pools`, `activePool` and `failoverHistory` fields.
- `StratumClient` networking is a placeholder in the source (src/stratum.rs:39-46, 101-106).
  Only its state transitions are modelled, and `state`, `extranonce1` and `extranonce2_size` are
  field reads.
- `with_pool_url` and `with_worker_name` in src/config.rs:67-76 do not compile as written, so they
  are not modelled.
- FlexForge.ParseSetting: Rust parses an `f64` and casts it to `u8`. The model accepts an optional
  '+' and decimal digits, saturating at 255. Fractions, exponents, signs, `inf` and `NaN` are not
  modelled.
- FlexForge `panel_info`, `config_schema`, `panel_id`, `category`, `display_name`, `icon_glyph`,
  `priority` and `target_fps` only build or return constants of foreign `essentia_traits` types.
- `src/impl/crypto.rs` re-exports a hasher from a crate that is not part of this model.
- `src/lib.rs`, the `mod.rs` files and `src/traits/core.rs` are wiring and signatures. The
  `Display` strings of `src/errors.rs` are not modelled.

## Findings

| source | as written | input that shows it | evidently intended | confidence | as-written member | corrected member |
|---|---|---|---|---|---|---|
| src/coordinator.rs:66-70 (same at src/impl/coordinator.rs:99-103) | a non-last thread ends at `start + range - 1`, and the worker loop stops before its end | 2 threads: thread 0 searches [0, 2147483646) and thread 1 starts at 2147483647, so nonce 2147483646 is never hashed | a thread's exclusive end is the next thread's start | not executed | Coordinator.RangesAsWrittenSkip, Coordinator.AsWrittenSkipsNonce | Coordinator.EndNonce, Coordinator.RangesCover, Coordinator.RangesDisjoint |
| src/impl/reward_distribution.rs:314-318 | `record_share` for an unregistered worker inserts `WorkerStats::new("")` | `record_share("w", …)` with no earlier `register_worker("w")` stores stats whose `worker_id` is "" | `WorkerStats::new(worker_id)`, as `register_worker` does | not executed | RewardDistribution.CountWorkerShareAsWritten, RewardDistribution.AsWrittenLosesWorkerId | RewardDistribution.RewardDistributor.CountWorkerShare |

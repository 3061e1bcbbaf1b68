/**
 * The error values of the plugin (src/errors.rs) and the two wrappers every fallible
 * operation of the model returns.
 */
module Errors {
  /** One variant per failure kind; each carries a human-readable message. */
  datatype MiningError =
    | HardwareDetection(msg: string)
    | PoolConnection(msg: string)
    | StratumProtocol(msg: string)
    | ResourceAllocation(msg: string)
    | Coordinator(msg: string)
    | Configuration(msg: string)
    | HashComputation(msg: string)

  /** The result of a fallible operation: a value or a mining error. */
  datatype Result<T> = Ok(value: T) | Err(error: MiningError)

  datatype Option<T> = None | Some(value: T)
}

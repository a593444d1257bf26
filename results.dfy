/** Optional values, results and the exceptions the modelled Python code raises. */
module Results {

  datatype Option<+T> = None | Some(value: T)

  /** Python's truthiness of an optional integer: None and 0 are falsy. */
  predicate Truthy(x: Option<int>) {
    x.Some? && x.value != 0
  }

  /**
   * The reasons the modelled exceptions carry, by name, so that two failures
   * on different paths stay distinguishable; Text gives each one's wording.
   */
  datatype Message =
    | CoordinatorNotSet
    | SimulatorNotSet
    | SimulatorNotInstantiated
    | NoSwitchMethod
    | NoCoordinatorToReset
    | CycleNotImplemented
    | TickNotImplemented
    | GeneratorRaisedStopIteration
    | UnknownGeneratorState
    | NextEventNone
    | CoreCountNotPositive
    | NoIntervalAttribute
    | NotAFloat(key: string)
    | Negative(key: string)
    | NoSpecrunFile(benchmark: string)
    | NoCommand(file: string)
    | EmptyCommand(file: string)

  /**
   * The text of each message as the source raises it (or as Python itself
   * words it); the rendering of the offending value in the interval
   * messages is not modelled, and neither is the class name Python puts in
   * the AttributeError of a processor without `switch`, given here as
   * "processor".
   */
  function Text(m: Message): string {
    match m
    case CoordinatorNotSet =>
      "EventCoordinator is not set. Register this manager with a coordinator before calling simulator.run()."
    case SimulatorNotSet => "EventCoordinator's simulator is not set."
    case SimulatorNotInstantiated => "EventCoordinator's simulator is not instantiated."
    case NoSwitchMethod => "processor has no attribute 'switch'"
    case NoCoordinatorToReset => "'NoneType' object has no attribute 'reset_stats'"
    case CycleNotImplemented => "Cycle scheduling not implemented yet."
    case TickNotImplemented => "Tick scheduling not implemented yet."
    case GeneratorRaisedStopIteration => "generator raised StopIteration"
    case UnknownGeneratorState => "handler generator in a state its manager never leaves it in"
    case NextEventNone => "Next event instruction is None"
    case CoreCountNotPositive => "Number of cores must be a positive integer!"
    case NoIntervalAttribute => "'TakeCheckpointsManager' object has no attribute '_interval'"
    case NotAFloat(key) => key + " must be a float"
    case Negative(key) => key + " cannot be negative"
    case NoSpecrunFile(benchmark) => "Could not find specrun.sh for " + benchmark
    case NoCommand(file) => "Could not find command in " + file
    case EmptyCommand(file) => "Empty command in " + file
  }

  /** The exceptions raised by the modelled code. */
  datatype Error =
    | ValueError(reason: Message)
    | AttributeError(reason: Message)
    | AssertionError(reason: Message)
    | NotImplementedError(reason: Message)
    | FileNotFoundError(reason: Message)
    | IndexError
    | StopIteration
    | RuntimeError(reason: Message)
    | SystemExit(code: int)

  datatype Result<+T> = Ok(value: T) | Err(error: Error)

  /** A result without a value, for operations that either complete or raise. */
  datatype Outcome = Pass | Fail(error: Error)
}

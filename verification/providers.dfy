/**
 * The provider side of the logging facade: the Logger interface that every
 * output backend implements (Init, Write, Destroy), the factories that build
 * providers, and the console provider that the package registers itself.
 *
 * A provider is an object whose observable behaviour is the sequence of
 * calls it has received: that is what a console prints and what any other
 * backend acts on. The outcome of Init and Write is part of the factory:
 * fixed (never an error) for the console provider, given as data for an
 * externally supplied one.
 */
module Providers {
  import opened Wrappers

  /** A Go error value, known by its text. */
  datatype GoError = GoError(text: string)

  /** A wall-clock instant (time.Time); the model only passes it along. */
  datatype Time = Time(unixNanos: int)

  /** One call received by a provider. */
  datatype Call =
    | InitCall(config: string)
    | WriteCall(when: Time, msg: string, level: int)
    | DestroyCall

  /**
   * A provider factory (a non-nil value of Go's `func() Logger`). Console
   * builds the console provider; External stands for any other backend:
   * Init fails with rejects[config] for the configurations it rejects, and
   * every Write fails with writeError when that is present.
   */
  datatype Factory =
    | Console
    | External(id: nat, rejects: map<string, GoError>, writeError: Option<GoError>)

  /** What Init returns for a provider built by f. */
  function InitOutcome(f: Factory, config: string): (r: Option<GoError>)
  {
    match f
    case Console => None
    case External(_, rejects, _) => if config in rejects then Some(rejects[config]) else None
  }

  /** What Write returns for a provider built by f. */
  function WriteOutcome(f: Factory): (r: Option<GoError>)
  {
    match f
    case Console => None
    case External(_, _, writeError) => writeError
  }

  /** The console provider accepts every configuration and every write. */
  lemma ConsoleNeverFails(config: string)
    ensures InitOutcome(Console, config) == None
    ensures WriteOutcome(Console) == None
  {
  }

  /** A provider instance: what a factory returns. */
  class Provider {
    const impl: Factory
    var trace: seq<Call>

    /** Calling the factory: a fresh provider that has received no call. */
    constructor (f: Factory)
      ensures impl == f && trace == []
    {
      impl := f;
      trace := [];
    }

    /** Logger.Init: configure the provider. */
    method Init(config: string) returns (err: Option<GoError>)
      modifies this
      ensures trace == old(trace) + [InitCall(config)]
      ensures err == InitOutcome(impl, config)
    {
      trace := trace + [InitCall(config)];
      err := InitOutcome(impl, config);
    }

    /** Logger.Write: emit one message. */
    method Write(when: Time, msg: string, level: int) returns (err: Option<GoError>)
      modifies this
      ensures trace == old(trace) + [WriteCall(when, msg, level)]
      ensures err == WriteOutcome(impl)
    {
      trace := trace + [WriteCall(when, msg, level)];
      err := WriteOutcome(impl);
    }

    /** Logger.Destroy: release what the provider holds. */
    method Destroy()
      modifies this
      ensures trace == old(trace) + [DestroyCall]
    {
      trace := trace + [DestroyCall];
    }
  }
}

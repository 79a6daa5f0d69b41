/** Job types, tiers and states: the pure vocabulary of internal/jobs. */
module Jobs {
  import opened Prelude

  /** A job type as it arrives in a request; `Other` is any unrecognised string. */
  datatype Type =
    | TelemetryProcessing
    | RemoteCommand
    | FirmwareUpdate
    | HealthCheck
    | AlertGeneration
    | Other(name: string)

  datatype Tier = Realtime | Standard | Bulk

  datatype State = Accepted | Queued | Running | Success | Failed | Retry

  /** Both submit paths create rows with this attempt budget. */
  const MAX_ATTEMPTS: nat := 3

  predicate Valid(t: Type) {
    !t.Other?
  }

  function TierFor(t: Type): Option<Tier> {
    match t
    case RemoteCommand => Some(Realtime)
    case TelemetryProcessing => Some(Standard)
    case HealthCheck => Some(Standard)
    case AlertGeneration => Some(Standard)
    case FirmwareUpdate => Some(Bulk)
    case Other(_) => None
  }

  /** The handler registry holds an entry for exactly these types. */
  predicate HasHandler(t: Type) {
    t in {TelemetryProcessing, RemoteCommand, FirmwareUpdate, HealthCheck, AlertGeneration}
  }

  predicate KeyChar(c: char) {
    'A' <= c <= 'Z' || 'a' <= c <= 'z' || '0' <= c <= '9' || c == '_' || c == '-'
  }

  /** The format the API asks of an idempotency key. */
  predicate ValidKey(key: string) {
    8 <= |key| <= 128 && forall i :: 0 <= i < |key| ==> KeyChar(key[i])
  }

  /** The edges of the declared state machine. */
  predicate Transition(from: State, to: State) {
    match from
    case Accepted => to == Queued || to == Failed
    case Queued => to == Running || to == Failed
    case Running => to == Success || to == Failed || to == Retry
    case Retry => to == Queued || to == Failed
    case Success => false
    case Failed => false
  }

  predicate IsTerminal(s: State) {
    s == Success || s == Failed
  }

  /** A state is terminal exactly when the transition table gives it no successor. */
  lemma TerminalIffNoSuccessor(s: State)
    ensures IsTerminal(s) <==> forall t :: !Transition(s, t)
  {
    assert Transition(Accepted, Queued) && Transition(Queued, Running);
    assert Transition(Running, Success) && Transition(Retry, Queued);
  }

  /**
   The table read backwards: only a QUEUED job starts, only a running one succeeds or is retried, new and retried ones
   are queued, whatever is not terminal can fail, and nothing comes back to ACCEPTED.
   */
  lemma PredecessorsAre(a: State, b: State)
    ensures Transition(a, b) <==>
            match b
            case Accepted => false
            case Queued => a in {Accepted, Retry}
            case Running => a == Queued
            case Success => a == Running
            case Retry => a == Running
            case Failed => a !in {Success, Failed}
  {
  }

  /** A type has a tier, a handler and a place at the API edge together or not at all. */
  lemma RegistryIsTotalOnValid(t: Type)
    ensures Valid(t) <==> TierFor(t).Some?
    ensures Valid(t) <==> HasHandler(t)
  {
  }
}

/**
 * What the three copies of the launch orchestrator share: the calls a run
 * makes, the two services it brings up in order, and the texts that name
 * them on the status lines and in the exceptions.
 */
module LaunchSequence {

  /** The collaborator calls a run makes, in order. */
  datatype Request =
    | IsSetToStartup | AddToStartup
    | CheckService(service: Service) | StartService(service: Service)
    | LaunchClient | GetConfiguration | Delay(milliseconds: nat)

  /** The two services the sequence brings up, in order. */
  datatype Service = Postgres | Fixed

  const SequenceStartMessage := "Starting launch sequence..."
  const ConfiguringMessage := "Configuring startup registration..."
  const LaunchingMessage := "Launching Commerce_Client application..."
  const CompletedMessage := "Launch sequence completed successfully!"
  const FailedPrefix := "Launch sequence failed: "
  /** The exception a refused launch raises. */
  const LaunchRefusedMessage := "Failed to launch Commerce_Client application"
  /** The reason given for a failed start when the probe has no error message. */
  const DefaultReason := "Failed to start"
  /** The prefixes of the registration line and the client line. */
  const StartupLabel := "Startup Registration: "
  const ClientLabel := "Commerce_Client: "

  /** No failure text reads as the completion text: the two differ at "f"/"c". */
  lemma FailureIsNotCompletion(reason: string)
    ensures FailedPrefix + reason != CompletedMessage
  {
    assert (FailedPrefix + reason)[16] == 'f' != CompletedMessage[16];
  }

  function Label(service: Service): string {
    match service
    case Postgres => "PostgreSQL Database: "
    case Fixed => "JMC FIXED Service: "
  }

  function CheckingMessage(service: Service): string {
    match service
    case Postgres => "Checking PostgreSQL service..."
    case Fixed => "Checking JMC FIXED service..."
  }

  function StartingMessage(service: Service): string {
    match service
    case Postgres => "Starting PostgreSQL service..."
    case Fixed => "Starting JMC FIXED service..."
  }

  function FailurePrefix(service: Service): string {
    match service
    case Postgres => "Failed to start PostgreSQL: "
    case Fixed => "Failed to start JMC FIXED service: "
  }

  /** A call made by the first three steps: the startup registration or a service. */
  predicate Preparation(q: Request) {
    q.IsSetToStartup? || q.AddToStartup? || q.CheckService? || q.StartService?
  }

  /**
   * Appending is associative. The orchestrator methods append each step's
   * calls to the log one step at a time, while the sequence functions
   * append the calls of whole stages; this regroups one into the other.
   */
  lemma Associates<T>(a: seq<T>, b: seq<T>, c: seq<T>)
    ensures a + b + c == a + (b + c)
  {
  }
}

/** Shared wrappers and the status vocabulary of internal/domain/status.go. */
module Domain {

  datatype Option<+T> = None | Some(value: T)

  /** An opaque identifier (a UUID). The order on ids stands for the order of their text. */
  type Id = int

  lemma NonEmpty(s: set<Id>)
    requires s != {}
    ensures exists x :: x in s
  {
    assert (forall x :: x !in s) ==> s == {};
  }

  /** Instants are nanoseconds; persisted columns hold milliseconds. */
  type Time = int

  const MILLISECOND: int := 1_000_000
  const SECOND: int := 1000 * MILLISECOND
  const MINUTE: int := 60 * SECOND

  /** time.Time.UnixMilli: truncation towards the past. */
  function Millis(t: Time): int { t / MILLISECOND }

  datatype TransportStatus = Pending | Sending | Enqueued | Failed | Unknown

  datatype DeploymentStatus =
    | NotStarted | Locating | Running | Unrecognized
    | Done | Error | Cancelled | Timeout | Unknown

  datatype Operation = Retry | Redeploy

  datatype Status = Status(transport: TransportStatus, deployment: DeploymentStatus)

  /** The pair every new attempt and every new delivery starts from. */
  const FRESH := Status(Pending, NotStarted)

  predicate Monitored(d: DeploymentStatus) {
    d.Locating? || d.Running? || d.Unrecognized?
  }

  predicate Active(s: Status) {
    s.transport.Pending? || s.transport.Sending? || Monitored(s.deployment)
  }

  function AllowedOperations(s: Status): seq<Operation> {
    if s.transport.Failed? || s.transport == TransportStatus.Unknown then [Retry]
    else if s.deployment.Error? || s.deployment.Cancelled? || s.deployment.Timeout?
            || s.deployment == DeploymentStatus.Unknown then [Redeploy]
    else []
  }

  /** The thirteen pairs an attempt can carry. */
  predicate Expected(s: Status) {
    match s.transport
    case Pending => s.deployment.NotStarted?
    case Sending => s.deployment.NotStarted?
    case Failed => s.deployment.NotStarted?
    case Unknown => s.deployment.Locating? || s.deployment == DeploymentStatus.Unknown
    case Enqueued => !s.deployment.NotStarted?
  }

  /** Outside the active pairs an attempt has either succeeded or offers exactly one operation. */
  lemma SettledPairsOfferOneOperation(s: Status)
    requires Expected(s)
    ensures !Active(s) ==> (s.deployment.Done? <==> |AllowedOperations(s)| == 0)
    ensures |AllowedOperations(s)| <= 1
    ensures Active(s) && s.transport != TransportStatus.Unknown ==> AllowedOperations(s) == []
  {
  }

  const THIRTEEN: seq<Status> := [
    Status(Pending, NotStarted), Status(Sending, NotStarted), Status(Failed, NotStarted),
    Status(TransportStatus.Unknown, Locating), Status(TransportStatus.Unknown, DeploymentStatus.Unknown),
    Status(Enqueued, Locating), Status(Enqueued, Running), Status(Enqueued, Unrecognized), Status(Enqueued, Done),
    Status(Enqueued, Error), Status(Enqueued, Cancelled), Status(Enqueued, Timeout),
    Status(Enqueued, DeploymentStatus.Unknown)]

  /** Exactly 13 of the 45 pairs are expected. */
  lemma ExpectedPairsAreThirteen(s: Status)
    ensures Expected(s) <==> s in THIRTEEN
    ensures |THIRTEEN| == 13
  {
  }

  /** Of the thirteen pairs these six are active, these three offer a retry and these four a redeploy. */
  lemma PairTable(s: Status)
    requires s in THIRTEEN
    ensures Active(s) <==> s in {Status(Pending, NotStarted), Status(Sending, NotStarted), Status(TransportStatus.Unknown, Locating),
                                 Status(Enqueued, Locating), Status(Enqueued, Running), Status(Enqueued, Unrecognized)}
    ensures AllowedOperations(s) == [Retry] <==>
              s in {Status(Failed, NotStarted), Status(TransportStatus.Unknown, Locating), Status(TransportStatus.Unknown, DeploymentStatus.Unknown)}
    ensures AllowedOperations(s) == [Redeploy] <==>
              s in {Status(Enqueued, Error), Status(Enqueued, Cancelled), Status(Enqueued, Timeout), Status(Enqueued, DeploymentStatus.Unknown)}
    ensures AllowedOperations(s) in {[], [Retry], [Redeploy]}
  {
    ExpectedPairsAreThirteen(s);
  }
}

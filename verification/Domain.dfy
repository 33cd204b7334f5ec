// The entities of the payment domain, as values. A reference that may be nil is an
// Option; an identifier that may be empty is a string that may be "".
module Domain {
  datatype Option<+T> = None | Some(value: T)

  type Time = int

  datatype Environment = Test | Live

  datatype CircuitState = Closed | Open | HalfOpen

  datatype Pix = Pix(copyPaste: string, expiresAt: Time)

  // A merchant's connection to one payment provider.
  datatype Connection = Connection(
    id: string,
    workspace: string,
    providerKey: string,
    environment: Environment,
    enabled: bool,
    credentialsValid: bool,
    circuit: CircuitState,
    circuitOpenedAt: Option<Time>,
    priority: int)

  // Rates and latency are exact reals.
  datatype HealthSnapshot = HealthSnapshot(
    sampleCount: nat,
    qrSuccessRate: real,
    errorRate: real,
    timeoutRate: real,
    latencyP95: real,
    healthScore: real,
    observedAt: Time)

  type Health = map<string, HealthSnapshot>

  // The connections of each workspace.
  type Providers = map<string, seq<Connection>>

  // Why a connection is left out of a selection, in the order of the checks.
  datatype Exclusion =
    | NotExcluded
    | ConnectorNotRegistered
    | CapabilityUnsupported
    | AlreadyAttempted
    | Disabled
    | WrongEnvironment
    | InvalidCredentials
    | CircuitOpen

  // One row of the evidence that a routing decision keeps.
  datatype Candidate = Candidate(
    connectionId: string,
    providerKey: string,
    priority: int,
    eligible: bool,
    exclusion: Exclusion,
    score: real,
    evidence: Option<HealthSnapshot>)

  datatype Decision = Decision(
    id: string,
    intentId: string,
    attemptId: string,
    selected: string,
    candidates: seq<Candidate>)

  datatype AttemptStatus =
    | AttemptCreated
    | Requesting
    | Succeeded
    | FailedSafe
    | FailedTerminal
    | Unknown

  datatype Attempt = Attempt(
    id: string,
    intentId: string,
    connectionId: string,
    sequence: nat,
    status: AttemptStatus,
    providerPaymentId: string,
    failureCode: string,
    reconciliation: string,
    pix: Option<Pix>)

  // The statuses that some code path sets; `expired` and `cancelled` are only declared.
  datatype PaymentStatus =
    | Created
    | Routing
    | Reconciling
    | AwaitingPayment
    | Paid
    | Failed

  // The canonical request that is hashed. The hash is taken to be injective, so the
  // record stands for its own hash.
  datatype Fingerprint = Fingerprint(
    workspace: string,
    merchantOrderId: string,
    amount: int,
    currency: string,
    metadata: map<string, string>,
    environment: Environment)

  datatype Request = Request(idempotencyKey: string, content: Fingerprint)

  datatype Intent = Intent(
    id: string,
    workspace: string,
    idempotencyKey: string,
    fingerprint: Fingerprint,
    amount: int,
    status: PaymentStatus,
    active: string,
    presented: string,
    pix: Option<Pix>,
    recovered: bool,
    recoveredAmount: int,
    failureCode: string,
    paidAt: Option<Time>)

  datatype Recovery = Recovery(
    id: string,
    intentId: string,
    failedAttempt: string,
    successfulAttempt: string,
    failureReason: string,
    amount: int,
    createdAt: Time)

  datatype EventKind = PaymentPaid | PaymentRecovered

  datatype EventKey = EventKey(kind: EventKind, intentId: string)

  datatype MerchantEvent = MerchantEvent(
    id: string,
    workspace: string,
    key: EventKey,
    recovered: bool,
    recoveredAmount: int,
    createdAt: Time)

  datatype ProviderEvent = ProviderEvent(
    id: string,
    connectionId: string,
    externalId: string,
    providerPaymentId: string,
    receivedAt: Time,
    processedAt: Option<Time>)

  // What a connector answers to a request to create a Pix charge.
  datatype CreateOutcome =
    | CreateSucceeded(paymentId: string, pix: Option<Pix>, code: string)
    | CreateFailedSafe(paymentId: string, code: string)
    | CreateFailedTerminal(paymentId: string, code: string)
    | CreateUnknown(paymentId: string, code: string)

  // What a connector answers when asked whether a charge exists.
  datatype ReconcileOutcome =
    | NotCreated(code: string)
    | ChargeExists(paymentId: string, pix: Option<Pix>)
    | Terminal(code: string)
    | StillUnknown
}

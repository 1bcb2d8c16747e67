/** The values of src/model.ts: identifiers, deliveries, claims, attempt outcomes and attempt records. */
module Domain {

  datatype Option<+T> = None | Some(value: T) {
    function GetOr(default: T): T {
      match this
      case Some(v) => v
      case None => default
    }
  }

  // Branded identifiers. Only equality matters, so the text is never inspected.
  datatype EventId = EventId(text: string)
  datatype DeliveryId = DeliveryId(text: string)
  datatype WorkerId = WorkerId(text: string)
  datatype DestinationId = DestinationId(text: string)
  datatype IngestionKey = IngestionKey(text: string)
  datatype Fingerprint = Fingerprint(hex: string)

  datatype RelayEvent = RelayEvent(id: EventId, invoiceId: string, amountCents: int)

  datatype Route = Route(destinationId: DestinationId, endpoint: string, configurationVersion: int)

  datatype DeadLetterReason = ProviderProtocolFailure | RetryBudgetExhausted

  datatype DeliveryState =
    | Pending
    | Delivered(status: int)
    | Rejected(status: int)
    | DeadLettered(reason: DeadLetterReason)
    | Terminated

  datatype Delivery = Delivery(id: DeliveryId, eventId: EventId, destinationId: DestinationId, state: DeliveryState)

  /** What fences a mutation: who claimed, and with which generation. */
  datatype Token = Token(ownerId: WorkerId, generation: int)

  datatype Claim = Claim(ownerId: WorkerId, generation: int, leaseExpiresAtMillis: int) {
    function Fence(): Token { Token(ownerId, generation) }
  }

  // ---- Outcomes of one HTTP attempt -------------------------------------------------------

  datatype RetryReason = AmbiguousResponse | RateLimited | ProviderFailure

  datatype Outcome =
    | Delivered(status: int)
    | Rejected(status: int)
    | Retryable(status: int, reason: RetryReason, retryAfterMillis: Option<nat>)
    | ProtocolFailure(status: int)
    | TransportFailure
    | TimedOut
  {
    function Tag(): OutcomeTag {
      match this
      case Delivered(_) => OutcomeTag.Delivered
      case Rejected(_) => OutcomeTag.Rejected
      case Retryable(_, _, _) => OutcomeTag.Retryable
      case ProtocolFailure(_) => OutcomeTag.ProtocolFailure
      case TransportFailure => OutcomeTag.TransportFailure
      case TimedOut => OutcomeTag.TimedOut
    }

    function Status(): Option<int> {
      match this
      case Delivered(status) => Some(status)
      case Rejected(status) => Some(status)
      case Retryable(status, _, _) => Some(status)
      case ProtocolFailure(status) => Some(status)
      case TransportFailure => None
      case TimedOut => None
    }
  }

  datatype OutcomeTag = Delivered | Rejected | Retryable | ProtocolFailure | TransportFailure | TimedOut {
    predicate CarriesStatus() { Delivered? || Rejected? || Retryable? || ProtocolFailure? }

    predicate IsRetryable() { Retryable? || TransportFailure? || TimedOut? }
  }

  datatype Decision = Terminal | RetryScheduled(delayMillis: int) | Exhausted {
    function Tag(): DecisionTag {
      match this
      case Terminal => DecisionTag.Terminal
      case RetryScheduled(_) => DecisionTag.RetryScheduled
      case Exhausted => DecisionTag.Exhausted
    }
  }

  datatype DecisionTag = Terminal | RetryScheduled | Exhausted

  datatype Attempt = Attempt(
    ordinal: int,
    startedAtMillis: int,
    completedAtMillis: int,
    outcome: Outcome,
    decision: Decision)
  {
    /** A record made from the attempt under a claim passes the schema and its filter. */
    predicate Storable() {
      && ordinal > 0
      && startedAtMillis >= 0
      && completedAtMillis >= startedAtMillis
      && (decision.RetryScheduled? ==> decision.delayMillis >= 0)
      && (decision.Terminal? <==> !outcome.Tag().IsRetryable())
    }
  }

  datatype DeliveryResult =
    | Delivered(attempts: seq<Attempt>, status: int)
    | Rejected(attempts: seq<Attempt>, status: int)
    | ProtocolFailure(attempts: seq<Attempt>, status: int)
    | Exhausted(attempts: seq<Attempt>, lastOutcome: Outcome)

  // ---- Durable attempt records ------------------------------------------------------------

  /** Trace correlation: the two identifiers, in their forms, present together or absent together. */
  datatype Trace = Trace(traceId: Option<string>, spanId: Option<string>) {
    predicate Consistent() {
      && (traceId.None? <==> spanId.None?)
      && (traceId.Some? ==> IsHex(traceId.value, 32))
      && (spanId.Some? ==> IsHex(spanId.value, 16))
    }
  }

  /** Exactly `n` lower-case hexadecimal digits, not all of them zero. */
  predicate IsHex(text: string, n: nat) {
    && |text| == n
    && (forall i :: 0 <= i < n ==> '0' <= text[i] <= '9' || 'a' <= text[i] <= 'f')
    && (exists i :: 0 <= i < n && text[i] != '0')
  }

  /** The worker's correlation: the identifiers of its span if both have the right form, and neither otherwise. */
  function Correlate(traceId: string, spanId: string): Trace {
    if IsHex(traceId, 32) && IsHex(spanId, 16) then Trace(Some(traceId), Some(spanId)) else Trace(None, None)
  }

  datatype AttemptRecord = AttemptRecord(
    deliveryId: DeliveryId,
    ordinal: int,
    workerId: WorkerId,
    claimGeneration: int,
    startedAtMillis: int,
    completedAtMillis: int,
    outcome: OutcomeTag,
    decision: DecisionTag,
    status: Option<int>,
    retryDelayMillis: Option<int>,
    trace: Trace)
  {
    function Fence(): Token { Token(workerId, claimGeneration) }

    predicate Closes() { !decision.RetryScheduled? }

    /** The schema's integer bounds together with its cross-field filter. */
    predicate WellFormed() {
      && ordinal > 0
      && claimGeneration > 0
      && startedAtMillis >= 0
      && completedAtMillis >= startedAtMillis
      && trace.Consistent()
      && (outcome.CarriesStatus() <==> status.Some?)
      && (decision.RetryScheduled? <==> retryDelayMillis.Some?)
      && (retryDelayMillis.Some? ==> retryDelayMillis.value >= 0)
      && (decision.Terminal? <==> !outcome.IsRetryable())
    }
  }

  function MakeRecord(deliveryId: DeliveryId, claim: Claim, attempt: Attempt, trace: Trace): AttemptRecord {
    AttemptRecord(
      deliveryId,
      attempt.ordinal,
      claim.ownerId,
      claim.generation,
      attempt.startedAtMillis,
      attempt.completedAtMillis,
      attempt.outcome.Tag(),
      attempt.decision.Tag(),
      attempt.outcome.Status(),
      if attempt.decision.RetryScheduled? then Some(attempt.decision.delayMillis) else None,
      trace)
  }

  // ---- Classification of a response -------------------------------------------------------

  const MAX_SAFE_INTEGER := 9007199254740991

  /** The Retry-After header (section 10.2.3 of RFC 9110) once trimmed and split by form. */
  datatype RetryAfter = Absent | Seconds(n: nat) | Date(timestampMillis: int) | Unreadable

  function RetryAfterMillis(header: RetryAfter, nowMillis: int): Option<nat> {
    match header
    case Absent => None
    case Seconds(n) => if n <= MAX_SAFE_INTEGER / 1000 then Some(n * 1000) else None
    case Date(t) => Some(if t - nowMillis > 0 then t - nowMillis else 0)
    case Unreadable => None
  }

  function ClassifyResponse(status: int, header: RetryAfter, nowMillis: int): Outcome {
    if 200 <= status < 300 then Outcome.Delivered(status)
    else if status == 408 || status == 425 then Outcome.Retryable(status, AmbiguousResponse, None)
    else if status == 429 then Outcome.Retryable(status, RateLimited, RetryAfterMillis(header, nowMillis))
    else if 500 <= status < 600 then Outcome.Retryable(status, ProviderFailure, None)
    else if 300 <= status < 500 then Outcome.Rejected(status)
    else Outcome.ProtocolFailure(status)
  }

  // ---- Intake -----------------------------------------------------------------------------

  datatype ClaimRequest = ClaimRequest(ownerId: WorkerId, leaseDurationMillis: int)

  datatype IntakeRecord = IntakeRecord(
    ingestionKey: IngestionKey,
    fingerprint: Fingerprint,
    event: RelayEvent,
    deliveryId: DeliveryId,
    route: Route,
    acceptedAtMillis: int,
    claim: ClaimRequest)

  datatype IntakeFields = IntakeFields(event: RelayEvent, delivery: Delivery, route: Route, acceptedAtMillis: int)

  datatype ClaimedDelivery = ClaimedDelivery(
    claim: Claim,
    claimLagMillis: int,
    delivery: Delivery,
    event: RelayEvent,
    nextAttemptOrdinal: int,
    route: Option<Route>)
}

/**
 src/adapters/postgres: the tables with their final CHECK constraints, the row codecs, and each SQL
 statement as a guarded update. `now` is the database clock, read once per statement.
 */
module Tables {
  import opened Domain
  import Policy
  import opened Ledger

  datatype StateColumn = Pending | Delivered | Rejected | DeadLettered | Terminated

  datatype DeliveryRow = DeliveryRow(
    eventId: EventId,
    destinationId: DestinationId,
    state: StateColumn,
    status: Option<int>,
    deadLetterReason: Option<DeadLetterReason>,
    nextEligibleAtMs: int,
    destinationUrl: Option<string>,
    configurationVersion: Option<int>,
    claimOwner: Option<WorkerId>,
    claimGeneration: int,
    leaseExpiresAtMs: Option<int>)
  {
    /** What rowToDelivery can decode: state, status and reason fit together. */
    predicate Decodable() {
      match state
      case Pending => status.None? && deadLetterReason.None?
      case Delivered => status.Some? && deadLetterReason.None?
      case Rejected => status.Some? && deadLetterReason.None?
      case DeadLettered => status.None? && deadLetterReason.Some?
      case Terminated => status.None? && deadLetterReason.None?
    }

    /**
     The CHECK constraints of the last migration. A CHECK fails only when it is false, not when it is
     unknown, so `dead_letter_reason IN (...)` lets a missing reason through.
     */
    predicate Checks() {
      && (match state
          case Pending => status.None? && deadLetterReason.None?
          case Terminated => status.None? && deadLetterReason.None?
          case Delivered => status.Some? && deadLetterReason.None?
          case Rejected => status.Some? && deadLetterReason.None?
          case DeadLettered => status.None?)
      && nextEligibleAtMs >= 0
      && claimGeneration >= 0
      && ((claimOwner.None? && leaseExpiresAtMs.None?)
          || (&& claimOwner.Some? && claimGeneration > 0
              && leaseExpiresAtMs.Some? && leaseExpiresAtMs.value >= 0
              && state.Pending?))
      && ((destinationUrl.None? && configurationVersion.None?)
          || (destinationUrl.Some? && configurationVersion.Some? && configurationVersion.value > 0))
    }
  }

  datatype EventRow = EventRow(
    invoiceId: string,
    amountCents: int,
    ingestionKey: Option<IngestionKey>,
    fingerprint: Option<Fingerprint>,
    acceptedAtMs: Option<int>)
  {
    /** The CHECK constraints: an intake is recorded completely or not at all. */
    predicate Checks() {
      && amountCents > 0
      && ((ingestionKey.None? && fingerprint.None? && acceptedAtMs.None?)
          || (&& ingestionKey.Some? && fingerprint.Some? && acceptedAtMs.Some?
              && IsDigest(fingerprint.value) && acceptedAtMs.value >= 0))
    }
  }

  predicate IsDigest(fingerprint: Fingerprint) {
    && |fingerprint.hex| == 64
    && forall i :: 0 <= i < 64 ==> '0' <= fingerprint.hex[i] <= '9' || 'a' <= fingerprint.hex[i] <= 'f'
  }

  datatype AttemptRow = AttemptRow(
    claimOwner: WorkerId,
    claimGeneration: int,
    startedAtMs: int,
    completedAtMs: int,
    outcome: OutcomeTag,
    decision: DecisionTag,
    status: Option<int>,
    retryDelayMs: Option<int>,
    trace: Trace)
  {
    /** The CHECK constraints; a trace identifier is only tested if it is there, alone or not. */
    predicate Checks(ordinal: int) {
      && ordinal > 0 && claimGeneration > 0 && startedAtMs >= 0 && completedAtMs >= startedAtMs
      && (if decision.RetryScheduled? then retryDelayMs.Some? && retryDelayMs.value >= 0 else retryDelayMs.None?)
      && (if outcome.CarriesStatus() then status.Some? else status.None?)
      && (if decision.Terminal? then outcome.Delivered? || outcome.Rejected? || outcome.ProtocolFailure?
          else outcome.Retryable? || outcome.TransportFailure? || outcome.TimedOut?)
      && (trace.traceId.Some? ==> IsHex(trace.traceId.value, 32))
      && (trace.spanId.Some? ==> IsHex(trace.spanId.value, 16))
    }
  }

  /** Attempts are grouped by delivery and keyed by ordinal: together the primary key. */
  datatype Database = Database(
    events: map<EventId, EventRow>,
    deliveries: map<DeliveryId, DeliveryRow>,
    attempts: map<DeliveryId, map<int, AttemptRow>>)
  {
    function AttemptsOf(id: DeliveryId): map<int, AttemptRow> {
      if id in attempts then attempts[id] else map[]
    }
  }

  const EMPTY_DATABASE := Database(map[], map[], map[])

  // ---- Codecs -----------------------------------------------------------------------------

  function StateColumns(state: DeliveryState): (StateColumn, Option<int>, Option<DeadLetterReason>) {
    match state
    case Pending => (StateColumn.Pending, None, None)
    case Delivered(status) => (StateColumn.Delivered, Some(status), None)
    case Rejected(status) => (StateColumn.Rejected, Some(status), None)
    case DeadLettered(reason) => (StateColumn.DeadLettered, None, Some(reason))
    case Terminated => (StateColumn.Terminated, None, None)
  }

  function DecodeState(row: DeliveryRow): DeliveryState
    requires row.Decodable()
  {
    match row.state
    case Pending => DeliveryState.Pending
    case Delivered => DeliveryState.Delivered(row.status.value)
    case Rejected => DeliveryState.Rejected(row.status.value)
    case DeadLettered => DeliveryState.DeadLettered(row.deadLetterReason.value)
    case Terminated => DeliveryState.Terminated
  }

  function DecodeRoute(row: DeliveryRow): Option<Route> {
    if row.destinationUrl.Some? && row.configurationVersion.Some?
    then Some(Route(row.destinationId, row.destinationUrl.value, row.configurationVersion.value))
    else None
  }

  function EncodeAttempt(attempt: AttemptRecord): AttemptRow {
    AttemptRow(
      attempt.workerId, attempt.claimGeneration, attempt.startedAtMillis, attempt.completedAtMillis,
      attempt.outcome, attempt.decision, attempt.status, attempt.retryDelayMillis, attempt.trace)
  }

  function DecodeAttempt(id: DeliveryId, ordinal: int, row: AttemptRow): AttemptRecord {
    AttemptRecord(
      id, ordinal, row.claimOwner, row.claimGeneration, row.startedAtMs, row.completedAtMs,
      row.outcome, row.decision, row.status, row.retryDelayMs, row.trace)
  }

  /** The columns a completion writes; a state no result leads to is written back as Pending. */
  function CompletionColumns(result: DeliveryResult): (StateColumn, Option<int>, Option<DeadLetterReason>) {
    match Policy.StateFromResult(result)
    case Pending => (StateColumn.Pending, None, None)
    case Delivered(status) => (StateColumn.Delivered, Some(status), None)
    case Rejected(status) => (StateColumn.Rejected, Some(status), None)
    case DeadLettered(reason) => (StateColumn.DeadLettered, None, Some(reason))
    case Terminated => (StateColumn.Pending, None, None)
  }

  lemma StateRoundTrip(row: DeliveryRow, state: DeliveryState)
    ensures (row.state, row.status, row.deadLetterReason) == StateColumns(state) <==>
            row.Decodable() && DecodeState(row) == state
  {
  }

  lemma AttemptRoundTrip(attempt: AttemptRecord)
    ensures DecodeAttempt(attempt.deliveryId, attempt.ordinal, EncodeAttempt(attempt)) == attempt
  {
  }

  /** The constraints alone do not make a row decodable: a dead letter may lack its reason. */
  lemma ChecksAdmitUndecodable(row: DeliveryRow)
    requires row.Checks()
    ensures row.Decodable() <==> !(row.state.DeadLettered? && row.deadLetterReason.None?)
  {
  }

  /** Nor do they for attempts: a row may have one trace identifier without the other, which no record may. */
  lemma ChecksAdmitHalfTraces(id: DeliveryId, ordinal: int, row: AttemptRow)
    requires row.Checks(ordinal)
    ensures DecodeAttempt(id, ordinal, row).WellFormed() <==> (row.trace.traceId.Some? <==> row.trace.spanId.Some?)
  {
  }

  /** The columns of an intake: it is kept as a whole or not at all. */
  function IntakeOf(row: EventRow): Option<(IngestionKey, Fingerprint, int)> {
    if row.ingestionKey.Some? && row.fingerprint.Some? && row.acceptedAtMs.Some?
    then Some((row.ingestionKey.value, row.fingerprint.value, row.acceptedAtMs.value))
    else None
  }

  lemma EventChecksAreExact(row: EventRow)
    ensures row.Checks() <==>
            && row.amountCents > 0
            && (match IntakeOf(row)
                case Some((_, fingerprint, at)) => IsDigest(fingerprint) && at >= 0
                case None => row == EventRow(row.invoiceId, row.amountCents, None, None, None))
  {
  }

  /** And a record that passes the schema is a row that passes the constraints. */
  lemma WellFormedAttemptsPass(attempt: AttemptRecord)
    requires attempt.WellFormed()
    ensures EncodeAttempt(attempt).Checks(attempt.ordinal)
  {
  }

  // ---- Guarded updates --------------------------------------------------------------------

  /** `column > now`, which is not true when the column is NULL. */
  predicate Later(column: Option<int>, now: int) { column.Some? && column.value > now }

  predicate ClaimedBy(d: DeliveryRow, fence: Token) {
    && d.state.Pending?
    && d.claimOwner == Some(fence.ownerId)
    && d.claimGeneration == fence.generation
  }

  /** The WHERE clause of the statement behind a targeted operation. */
  predicate Where(d: DeliveryRow, now: int, op: Operation)
    requires op.Targeted()
  {
    match op
    case Renew(_, claim, _) => ClaimedBy(d, claim.Fence()) && Later(d.leaseExpiresAtMs, now)
    case RecordAttempt(attempt) => ClaimedBy(d, attempt.Fence()) && Later(d.leaseExpiresAtMs, now)
    case Complete(_, claim, _) => ClaimedBy(d, claim.Fence()) && Later(d.leaseExpiresAtMs, now)
    case Release(_, claim) => ClaimedBy(d, claim.Fence())
    case Retry(_) => d.state.DeadLettered?
    case Repair(_, route) => d.destinationId == route.destinationId && d.state.DeadLettered?
    case Terminate(_) => d.state.DeadLettered?
  }

  /** Its SET clause. */
  function Set(d: DeliveryRow, now: int, op: Operation): DeliveryRow
    requires op.Targeted()
  {
    match op
    case Renew(_, _, lease) => d.(leaseExpiresAtMs := Some(now + lease))
    case RecordAttempt(a) =>
      var closes := a.decision.Terminal? || a.decision.Exhausted?;
      d.(state :=
           if a.decision.Terminal? && a.outcome.Delivered? then StateColumn.Delivered
           else if a.decision.Terminal? && a.outcome.Rejected? then StateColumn.Rejected
           else if a.decision.Terminal? && a.outcome.ProtocolFailure? then StateColumn.DeadLettered
           else if a.decision.Exhausted? then StateColumn.DeadLettered
           else d.state,
         status := if a.decision.Terminal? && (a.outcome.Delivered? || a.outcome.Rejected?) then a.status else d.status,
         deadLetterReason :=
           if a.decision.Terminal? && a.outcome.ProtocolFailure? then Some(ProviderProtocolFailure)
           else if a.decision.Exhausted? then Some(RetryBudgetExhausted)
           else d.deadLetterReason,
         nextEligibleAtMs :=
           if a.decision.RetryScheduled? && a.retryDelayMillis.Some?
           then a.completedAtMillis + a.retryDelayMillis.value else d.nextEligibleAtMs,
         claimOwner := if closes then None else d.claimOwner,
         leaseExpiresAtMs := if closes then None else d.leaseExpiresAtMs)
    case Complete(_, _, result) =>
      var columns := CompletionColumns(result);
      d.(state := columns.0, status := columns.1, deadLetterReason := columns.2,
         claimOwner := None, leaseExpiresAtMs := None)
    case Release(_, _) => d.(claimOwner := None, leaseExpiresAtMs := None)
    case Retry(_) =>
      d.(state := StateColumn.Pending, status := None, deadLetterReason := None,
         claimOwner := None, leaseExpiresAtMs := None, nextEligibleAtMs := now)
    case Repair(_, route) =>
      d.(state := StateColumn.Pending, status := None, deadLetterReason := None,
         destinationUrl := Some(route.endpoint), configurationVersion := Some(route.configurationVersion),
         claimOwner := None, leaseExpiresAtMs := None, nextEligibleAtMs := now)
    case Terminate(_) =>
      d.(state := StateColumn.Terminated, status := None, deadLetterReason := None,
         claimOwner := None, leaseExpiresAtMs := None)
  }

  /** The statement itself: the rows it returns are at most the one it updated. */
  function Statement(db: Database, now: int, op: Operation): (Database, bool)
    requires op.Targeted()
  {
    if op.Subject() in db.deliveries && Where(db.deliveries[op.Subject()], now, op)
    then (db.(deliveries := db.deliveries[op.Subject() := Set(db.deliveries[op.Subject()], now, op)]), true)
    else (db, false)
  }

  /** The SELECT that precedes every operator statement. */
  function RequireDeadLetter(db: Database, id: DeliveryId): Option<StoreError> {
    if id !in db.deliveries then Some(NotFound)
    else if !db.deliveries[id].state.DeadLettered? then Some(NotDeadLettered)
    else None
  }

  function Targeted(db: Database, now: int, op: Operation): (Database, Reply)
    requires op.Targeted()
  {
    var id := op.Subject();
    if !op.Fenced() then
      var missing := RequireDeadLetter(db, id);
      if missing.Some? then (db, Failed(missing.value))
      else if op.Repair? && db.deliveries[id].destinationId != op.route.destinationId
      then (db, Failed(DestinationMismatch(db.deliveries[id].destinationId, op.route.destinationId)))
      else
        var (after, updated) := Statement(db, now, op);
        (after, if updated then Done else Failed(NotDeadLettered))
    else
      var (after, updated) := Statement(db, now, op);
      if !updated then (db, Failed(ClaimLost(id, op.Fence())))
      else if op.RecordAttempt? then
        // The INSERT shares the statement: a violated key or CHECK undoes the update as well.
        if op.attempt.ordinal in db.AttemptsOf(id) then (db, Failed(DuplicateOrdinal(op.attempt.ordinal)))
        else if !op.attempt.WellFormed() then (db, Failed(StatementFailed))
        else
          (after.(attempts := after.attempts[id := db.AttemptsOf(id)[op.attempt.ordinal := EncodeAttempt(op.attempt)]]),
           Done)
      else if op.Renew? then (after, Returned(after.deliveries[id]))
      else (after, Done)
  }

  /** The claim columns, if the row is claimed. */
  function DecodeClaim(row: DeliveryRow): Option<Claim> {
    if row.claimOwner.Some? && row.leaseExpiresAtMs.Some?
    then Some(Claim(row.claimOwner.value, row.claimGeneration, row.leaseExpiresAtMs.value))
    else None
  }

  /** The answer to a renewal: RETURNING gives the claim columns of the updated row, which are then decoded. */
  function Returned(row: DeliveryRow): Reply {
    match DecodeClaim(row)
    case Some(claim) => Extended(claim)
    case None => Failed(StatementFailed)
  }

  // ---- Claiming ---------------------------------------------------------------------------

  /** The candidates of the claim statement; `ORDER BY .. LIMIT .. SKIP LOCKED` picks among them. */
  predicate Candidate(db: Database, id: DeliveryId, destination: DestinationId, now: int) {
    && id in db.deliveries
    && var d := db.deliveries[id];
       && d.state.Pending?
       && d.destinationId == destination
       && d.nextEligibleAtMs <= now
       && (d.claimOwner.None? || (d.leaseExpiresAtMs.Some? && d.leaseExpiresAtMs.value <= now))
  }

  predicate IsMaximum(s: set<int>, m: int) { m in s && forall o :: o in s ==> o <= m }

  lemma {:induction false} MaximumExists(s: set<int>)
    requires s != {}
    ensures exists m :: IsMaximum(s, m)
  {
    if !exists x :: x in s {
      assert false;
    }
    var x :| x in s;
    var rest := s - {x};
    if rest == {} {
      assert s == {x};
      assert IsMaximum(s, x);
    } else {
      MaximumExists(rest);
      var m :| IsMaximum(rest, m);
      assert s == rest + {x};
      assert IsMaximum(s, if x > m then x else m);
    }
  }

  /** COALESCE(MAX(ordinal) + 1, 1). */
  ghost function NextOrdinalOf(attempts: map<int, AttemptRow>): int {
    if attempts.Keys == {} then 1
    else
      MaximumExists(attempts.Keys);
      var m :| IsMaximum(attempts.Keys, m);
      m + 1
  }

  function ClaimRow(d: DeliveryRow, ownerId: WorkerId, lease: int, now: int): DeliveryRow {
    d.(claimOwner := Some(ownerId), claimGeneration := d.claimGeneration + 1, leaseExpiresAtMs := Some(now + lease))
  }

  ghost function ClaimedDeliveryRow(
    db: Database, now: int, ownerId: WorkerId, lease: int, id: DeliveryId): ClaimedDelivery
    requires id in db.deliveries && db.deliveries[id].eventId in db.events
  {
    var d := db.deliveries[id];
    var event := db.events[d.eventId];
    ClaimedDelivery(
      Claim(ownerId, d.claimGeneration + 1, now + lease),
      now - d.nextEligibleAtMs,
      Delivery(id, d.eventId, d.destinationId, DeliveryState.Pending),
      RelayEvent(d.eventId, event.invoiceId, event.amountCents),
      NextOrdinalOf(db.AttemptsOf(id)),
      DecodeRoute(d))
  }

  // ---- Intake -----------------------------------------------------------------------------

  predicate HasKey(row: EventRow, key: IngestionKey) { row.ingestionKey == Some(key) }

  /** The event inserted with a key; the column is unique. */
  ghost predicate Known(db: Database, key: IngestionKey) {
    exists e :: e in db.events && HasKey(db.events[e], key)
  }

  ghost function KeyedEvent(db: Database, key: IngestionKey): EventId
    requires Known(db, key)
  {
    var e :| e in db.events && HasKey(db.events[e], key);
    e
  }

  ghost predicate Delivers(db: Database, e: EventId, id: DeliveryId) {
    id in db.deliveries && db.deliveries[id].eventId == e
  }

  /** The delivery that a replay reads for a known event: the first in an order of identifiers that is not modelled. */
  ghost function FirstDelivery(db: Database, e: EventId): DeliveryId
    requires exists d :: Delivers(db, e, d)
  {
    var d :| Delivers(db, e, d);
    d
  }

  ghost function AcceptStatement(db: Database, now: int, record: IntakeRecord): (Database, Reply) {
    var id, route := record.deliveryId, record.route;
    if Known(db, record.ingestionKey) then
      var e := KeyedEvent(db, record.ingestionKey);
      if !exists d :: Delivers(db, e, d) then (db, Failed(StatementFailed))
      else
        var d := FirstDelivery(db, e);
        var event, row := db.events[e], db.deliveries[d];
        if DecodeRoute(row).None? then (db, Failed(StatementFailed))
        else if event.fingerprint != Some(record.fingerprint)
        then (db, Failed(IngestionConflict(record.ingestionKey, e)))
        else
          (db, Replayed(IntakeFields(
             RelayEvent(e, event.invoiceId, event.amountCents),
             Delivery(d, e, row.destinationId, DeliveryState.Pending),
             DecodeRoute(row).value,
             event.acceptedAtMs.GetOr(0))))
    else if record.event.id in db.events || id in db.deliveries then (db, Failed(StatementFailed))
    else
      var inserted := DeliveryRow(
        record.event.id, route.destinationId, StateColumn.Pending, None, None, now,
        Some(route.endpoint), Some(route.configurationVersion),
        Some(record.claim.ownerId), 1, Some(now + record.claim.leaseDurationMillis));
      (db.(events := db.events[record.event.id := EventRow(
             record.event.invoiceId, record.event.amountCents, Some(record.ingestionKey),
             Some(record.fingerprint), Some(record.acceptedAtMillis))],
           deliveries := db.deliveries[id := inserted]),
       Accepted(
         IntakeFields(
           record.event, Delivery(id, record.event.id, route.destinationId, DeliveryState.Pending), route,
           record.acceptedAtMillis),
         Claim(record.claim.ownerId, 1, now + record.claim.leaseDurationMillis)))
  }

  function SavePendingStatement(
    db: Database, now: int, event: RelayEvent, id: DeliveryId, destinationId: DestinationId, request: ClaimRequest
  ): (Database, Reply)
  {
    if event.id in db.events || id in db.deliveries then (db, Failed(StatementFailed))
    else
      var inserted := DeliveryRow(
        event.id, destinationId, StateColumn.Pending, None, None, now, None, None,
        Some(request.ownerId), 1, Some(now + request.leaseDurationMillis));
      (db.(events := db.events[event.id := EventRow(event.invoiceId, event.amountCents, None, None, None)],
           deliveries := db.deliveries[id := inserted]),
       Saved(ClaimedDelivery(
         Claim(request.ownerId, 1, now + request.leaseDurationMillis), 0,
         Delivery(id, event.id, destinationId, DeliveryState.Pending), event, 1, None)))
  }

  function SaveStatement(db: Database, now: int, delivery: Delivery): (Database, Reply) {
    if delivery.id in db.deliveries then (db, Done)
    else if delivery.eventId !in db.events then (db, Failed(StatementFailed))
    else
      var columns := StateColumns(delivery.state);
      (db.(deliveries := db.deliveries[delivery.id := DeliveryRow(
             delivery.eventId, delivery.destinationId, columns.0, columns.1, columns.2, now, None, None, None, 0,
             None)]),
       Done)
  }

  /** The SQL repository and intake store. */
  ghost function Execute(db: Database, now: int, op: Operation): (Database, Reply)
    requires Executable(db, op)
  {
    match op
    case Accept(record, _) => AcceptStatement(db, now, record)
    case SavePending(event, id, destinationId, request) =>
      SavePendingStatement(db, now, event, id, destinationId, request)
    case Save(delivery) => SaveStatement(db, now, delivery)
    case ClaimPending(ownerId, destination, limit, lease, chosen) =>
      (db.(deliveries := map id | id in db.deliveries ::
             if id in chosen then ClaimRow(db.deliveries[id], ownerId, lease, now) else db.deliveries[id]),
       Batch(seq(|chosen|, i requires 0 <= i < |chosen| => ClaimedDeliveryRow(db, now, ownerId, lease, chosen[i]))))
    case _ => Targeted(db, now, op)
  }

  // ---- Constraints ------------------------------------------------------------------------

  /** What the request schemas demand of an operation. */
  predicate WellFormedRequest(op: Operation, now: int) {
    && now >= 0
    && match op
       case Accept(record, _) =>
         && record.claim.leaseDurationMillis > 0 && record.route.configurationVersion > 0
         && record.event.amountCents > 0 && record.acceptedAtMillis >= 0 && IsDigest(record.fingerprint)
       case SavePending(event, _, _, request) => request.leaseDurationMillis > 0 && event.amountCents > 0
       case Renew(_, _, lease) => lease > 0
       case ClaimPending(_, _, limit, lease, _) => limit > 0 && lease > 0
       case RecordAttempt(attempt) => attempt.WellFormed()
       case Repair(_, route) => route.configurationVersion > 0
       case _ => true
  }

  /** No update ever violates a CHECK constraint, and none leaves a row that cannot be decoded. */
  lemma UpdatesKeepChecks(d: DeliveryRow, now: int, op: Operation)
    requires d.Checks() && d.Decodable() && op.Targeted() && WellFormedRequest(op, now)
    requires Where(d, now, op)
    ensures Set(d, now, op).Checks() && Set(d, now, op).Decodable()
  {
  }

  /** Every row of every table passes its CHECK constraints and decodes, keys are unique and references resolve. */
  ghost predicate Constrained(db: Database) {
    && (forall id :: id in db.deliveries ==> DeliveryConstrained(db, id))
    && (forall e :: e in db.events ==> db.events[e].Checks())
    && KeysUnique(db)
    && (forall id :: AttemptsConstrained(db, id))
  }

  predicate DeliveryConstrained(db: Database, id: DeliveryId)
    requires id in db.deliveries
  {
    db.deliveries[id].Checks() && db.deliveries[id].Decodable() && db.deliveries[id].eventId in db.events
  }

  ghost predicate KeysUnique(db: Database) {
    forall d, e :: d in db.events && e in db.events && d != e && db.events[d].ingestionKey.Some? ==>
      !HasKey(db.events[e], db.events[d].ingestionKey.value)
  }

  ghost predicate AttemptsConstrained(db: Database, id: DeliveryId) {
    forall o :: o in db.AttemptsOf(id) ==>
      && id in db.deliveries
      && db.AttemptsOf(id)[o].Checks(o)
      && DecodeAttempt(id, o, db.AttemptsOf(id)[o]).WellFormed()
  }

  ghost predicate Executable(db: Database, op: Operation) {
    op.ClaimPending? ==> forall id :: id in op.chosen ==> id in db.deliveries && db.deliveries[id].eventId in db.events
  }

  lemma TargetedKeepsDeliveries(db: Database, now: int, op: Operation, id: DeliveryId)
    requires Constrained(db) && WellFormedRequest(op, now) && op.Targeted()
    requires id in Targeted(db, now, op).0.deliveries
    ensures DeliveryConstrained(Targeted(db, now, op).0, id)
  {
    TargetedWrites(db, now, op, id);
    assert DeliveryConstrained(db, id);
    if id == op.Subject() && Where(db.deliveries[id], now, op) {
      UpdatesKeepChecks(db.deliveries[id], now, op);
    }
  }

  lemma ClaimKeepsDeliveries(db: Database, now: int, op: Operation, id: DeliveryId)
    requires Constrained(db) && WellFormedRequest(op, now) && Executable(db, op) && op.ClaimPending?
    requires id in op.chosen ==> Candidate(db, id, op.destination, now)
    requires id in Execute(db, now, op).0.deliveries
    ensures DeliveryConstrained(Execute(db, now, op).0, id)
  {
    assert DeliveryConstrained(db, id);
    if id in op.chosen {
      ClaimsKeepChecks(db.deliveries[id], op.ownerId, op.lease, now);
    }
  }

  lemma AcceptKeepsDeliveries(db: Database, now: int, record: IntakeRecord, dueAt: int, id: DeliveryId)
    requires WellFormedRequest(Accept(record, dueAt), now)
    requires id in db.deliveries ==> DeliveryConstrained(db, id)
    requires id in AcceptStatement(db, now, record).0.deliveries
    ensures DeliveryConstrained(AcceptStatement(db, now, record).0, id)
  {
    assert id in db.deliveries || id == record.deliveryId;
  }

  lemma InsertsKeepDeliveries(db: Database, now: int, op: Operation, id: DeliveryId)
    requires WellFormedRequest(op, now) && (op.Accept? || op.SavePending? || op.Save?)
    requires id in db.deliveries ==> DeliveryConstrained(db, id)
    requires id in Execute(db, now, op).0.deliveries
    ensures DeliveryConstrained(Execute(db, now, op).0, id)
  {
    match op
    case Accept(record, dueAt) => AcceptKeepsDeliveries(db, now, record, dueAt, id);
    case SavePending(_, deliveryId, _, _) => assert id in db.deliveries || id == deliveryId;
    case Save(delivery) => assert id in db.deliveries || id == delivery.id;
  }

  lemma OthersKeepEvents(db: Database, now: int, op: Operation)
    requires Executable(db, op) && !op.Accept? && !op.SavePending?
    ensures Execute(db, now, op).0.events == db.events
  {
  }

  lemma SavePendingKeepsEvents(
    db: Database, now: int, event: RelayEvent, id: DeliveryId, destinationId: DestinationId, request: ClaimRequest)
    requires (forall e :: e in db.events ==> db.events[e].Checks()) && KeysUnique(db)
    requires WellFormedRequest(SavePending(event, id, destinationId, request), now)
    ensures var after := SavePendingStatement(db, now, event, id, destinationId, request).0;
            (forall e :: e in after.events ==> after.events[e].Checks()) && KeysUnique(after)
  {
  }

  lemma EventsStayConstrained(db: Database, now: int, op: Operation)
    requires Constrained(db) && WellFormedRequest(op, now) && Executable(db, op)
    ensures var after := Execute(db, now, op).0;
            (forall e :: e in after.events ==> after.events[e].Checks()) && KeysUnique(after)
  {
    match op
    case Accept(record, _) => AcceptKeepsEvents(db, now, record);
    case SavePending(event, id, destinationId, request) =>
      SavePendingKeepsEvents(db, now, event, id, destinationId, request);
    case _ => OthersKeepEvents(db, now, op);
  }

  lemma AcceptKeepsEvents(db: Database, now: int, record: IntakeRecord)
    requires (forall e :: e in db.events ==> db.events[e].Checks()) && KeysUnique(db)
    requires WellFormedRequest(Accept(record, now), now)
    ensures var after := AcceptStatement(db, now, record).0;
            (forall e :: e in after.events ==> after.events[e].Checks()) && KeysUnique(after)
  {
    if !Known(db, record.ingestionKey) {
      assert forall e :: e in db.events ==> !HasKey(db.events[e], record.ingestionKey);
    }
  }

  /** Deliveries and attempts are only added to: one attempt for one delivery, by a recording. */
  lemma AttemptsGrow(db: Database, now: int, op: Operation, id: DeliveryId)
    requires Executable(db, op)
    ensures var after := Execute(db, now, op).0;
            && (id in db.deliveries ==> id in after.deliveries)
            && (after.AttemptsOf(id) == db.AttemptsOf(id) ||
                (&& op.RecordAttempt? && op.attempt.deliveryId == id && id in db.deliveries && op.attempt.WellFormed()
                 && after.AttemptsOf(id) == db.AttemptsOf(id)[op.attempt.ordinal := EncodeAttempt(op.attempt)]))
  {
    if op.Targeted() {
      TargetedWrites(db, now, op, id);
    }
  }

  lemma AttemptsStayConstrained(db: Database, now: int, op: Operation, id: DeliveryId)
    requires Constrained(db) && WellFormedRequest(op, now) && Executable(db, op)
    ensures AttemptsConstrained(Execute(db, now, op).0, id)
  {
    AttemptsGrow(db, now, op, id);
    assert AttemptsConstrained(db, id);
    if op.RecordAttempt? && op.attempt.deliveryId == id {
      if op.attempt.WellFormed() {
        WellFormedAttemptsPass(op.attempt);
      }
      AttemptRoundTrip(op.attempt);
    }
  }

  /** Every operation keeps every constraint of every table, so the model needs no path on which one fails an update. */
  lemma ExecuteKeepsConstraints(db: Database, now: int, op: Operation)
    requires Constrained(db) && WellFormedRequest(op, now) && Executable(db, op)
    requires op.ClaimPending? ==> forall id :: id in op.chosen ==> Candidate(db, id, op.destination, now)
    ensures Constrained(Execute(db, now, op).0)
  {
    forall id | id in Execute(db, now, op).0.deliveries
      ensures DeliveryConstrained(Execute(db, now, op).0, id)
    {
      if op.Targeted() {
        TargetedKeepsDeliveries(db, now, op, id);
      } else if op.ClaimPending? {
        ClaimKeepsDeliveries(db, now, op, id);
      } else {
        InsertsKeepDeliveries(db, now, op, id);
      }
    }
    EventsStayConstrained(db, now, op);
    forall id
      ensures AttemptsConstrained(Execute(db, now, op).0, id)
    {
      AttemptsStayConstrained(db, now, op, id);
    }
  }

  lemma TargetedWrites(db: Database, now: int, op: Operation, id: DeliveryId)
    requires op.Targeted()
    ensures id in Targeted(db, now, op).0.deliveries <==> id in db.deliveries
    ensures id in db.deliveries ==>
              || Targeted(db, now, op).0.deliveries[id] == db.deliveries[id]
              || (&& id == op.Subject() && Where(db.deliveries[id], now, op)
                  && Targeted(db, now, op).0.deliveries[id] == Set(db.deliveries[id], now, op))
  {
  }

  lemma ClaimsKeepChecks(d: DeliveryRow, ownerId: WorkerId, lease: int, now: int)
    requires d.Checks() && d.Decodable() && d.state.Pending? && lease > 0 && now >= 0
    ensures ClaimRow(d, ownerId, lease, now).Checks() && ClaimRow(d, ownerId, lease, now).Decodable()
  {
  }
}

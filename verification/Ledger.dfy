/**
 The durable delivery protocol, one delivery at a time.

 A `Row` is everything the store keeps about one delivery, a `Change` is what one operation does to
 it, and a `Ledger` holds the rows with the events and the intake decisions. Both adapters are
 related to this module: the in-memory maps are equal to it (MemoryPersistence), the SQL tables
 simulate it (Tables, Simulation). `ClaimPending` carries the deliveries that were chosen, because the adapters
 choose in different orders.
 */
module Ledger {
  import opened Domain
  import Policy

  datatype Row = Row(
    delivery: Delivery,
    claim: Option<Claim>,
    generation: int,
    route: Option<Route>,
    attempts: seq<AttemptRecord>,
    nextEligibleAt: int)
  {
    predicate Pending() { delivery.state.Pending? }

    predicate Holds(fence: Token) { claim.Some? && claim.value.Fence() == fence }

    predicate Owns(fence: Token, now: int) { Holds(fence) && claim.value.leaseExpiresAtMillis > now }

    predicate Claimable(now: int) {
      && Pending()
      && nextEligibleAt <= now
      && (claim.Some? ==> claim.value.leaseExpiresAtMillis <= now)
    }

    predicate HasOrdinal(ordinal: int) {
      exists i :: 0 <= i < |attempts| && attempts[i].ordinal == ordinal
    }

    /** Claims exist only on Pending deliveries and always carry the current generation. */
    predicate Valid() {
      && generation >= 0
      && (claim.Some? ==> Pending() && claim.value.generation == generation && generation >= 1)
    }

    /** What no operation undoes: identity, generation, having a route, history. */
    predicate Precedes(later: Row) {
      && delivery.id == later.delivery.id
      && delivery.eventId == later.delivery.eventId
      && delivery.destinationId == later.delivery.destinationId
      && generation <= later.generation
      && (route.Some? ==> later.route.Some?)
      && attempts <= later.attempts
    }

    function Became(state: DeliveryState): Row {
      this.(delivery := delivery.(state := state))
    }
  }

  datatype Change =
    | Claimed(owner: WorkerId, at: int, lease: int)
    | Renewed(fence: Token, at: int, lease: int)
    | Recorded(at: int, attempt: AttemptRecord)
    | Completed(fence: Token, at: int, result: DeliveryResult)
    | Released(fence: Token)
    | Retried(at: int)
    | Repaired(at: int, route: Route)
    | Ended

  predicate Enabled(row: Row, change: Change) {
    match change
    case Claimed(_, at, _) => row.Claimable(at)
    case Renewed(fence, at, _) => row.Owns(fence, at)
    case Recorded(at, attempt) =>
      && row.Pending()
      && row.Owns(attempt.Fence(), at)
      && !row.HasOrdinal(attempt.ordinal)
      && (attempt.Closes() ==> Policy.TerminalState(attempt).Some?)
    case Completed(fence, at, _) => row.Pending() && row.Owns(fence, at)
    case Released(fence) => row.Pending() && row.Holds(fence)
    case Retried(_) => row.delivery.state.DeadLettered?
    case Repaired(_, route) =>
      row.delivery.state.DeadLettered? && row.delivery.destinationId == route.destinationId
    case Ended => row.delivery.state.DeadLettered?
  }

  function After(row: Row, change: Change): Row {
    match change
    case Claimed(owner, at, lease) =>
      row.(generation := row.generation + 1, claim := Some(Claim(owner, row.generation + 1, at + lease)))
    case Renewed(fence, at, lease) =>
      row.(claim := Some(Claim(fence.ownerId, fence.generation, at + lease)))
    case Recorded(_, attempt) =>
      var logged := row.(attempts := row.attempts + [attempt]);
      if attempt.Closes() then
        logged.Became(Policy.TerminalState(attempt).GetOr(row.delivery.state)).(claim := None)
      else
        logged.(nextEligibleAt := attempt.completedAtMillis + attempt.retryDelayMillis.GetOr(0))
    case Completed(_, _, result) => row.Became(Policy.StateFromResult(result)).(claim := None)
    case Released(_) => row.(claim := None)
    case Retried(at) => row.Became(Pending).(claim := None, nextEligibleAt := at)
    case Repaired(at, route) => row.Became(Pending).(claim := None, nextEligibleAt := at, route := Some(route))
    case Ended => row.Became(Terminated).(claim := None)
  }

  function NextOrdinal(history: seq<AttemptRecord>): int {
    if |history| == 0 then 1
    else
      var before := NextOrdinal(history[..|history| - 1]);
      var last := history[|history| - 1].ordinal;
      if last + 1 > before then last + 1 else before
  }

  // ---- The whole store --------------------------------------------------------------------

  datatype Intake = Intake(fingerprint: Fingerprint, decision: IntakeFields)

  datatype Ledger = Ledger(
    rows: map<DeliveryId, Row>,
    order: seq<DeliveryId>,
    events: map<EventId, RelayEvent>,
    intakes: map<IngestionKey, Intake>)
  {
    predicate Eligible(id: DeliveryId, destination: DestinationId, now: int) {
      && id in rows
      && rows[id].Claimable(now)
      && rows[id].delivery.destinationId == destination
      && rows[id].delivery.eventId in events
    }

    function With(id: DeliveryId, row: Row): Ledger {
      this.(rows := rows[id := row])
    }

    function Insert(id: DeliveryId, row: Row): Ledger {
      this.(rows := rows[id := row], order := if id in rows then order else order + [id])
    }
  }

  datatype Operation =
    | Accept(record: IntakeRecord, dueAt: int)
    | SavePending(event: RelayEvent, deliveryId: DeliveryId, destinationId: DestinationId, request: ClaimRequest)
    | Save(delivery: Delivery)
    | ClaimPending(ownerId: WorkerId, destination: DestinationId, limit: int, lease: int, chosen: seq<DeliveryId>)
    | Renew(id: DeliveryId, claim: Claim, lease: int)
    | RecordAttempt(attempt: AttemptRecord)
    | Complete(id: DeliveryId, claim: Claim, result: DeliveryResult)
    | Release(id: DeliveryId, claim: Claim)
    | Retry(id: DeliveryId)
    | Repair(id: DeliveryId, route: Route)
    | Terminate(id: DeliveryId)
  {
    /** Operations on one delivery that is expected to exist. */
    predicate Targeted() { !Accept? && !SavePending? && !Save? && !ClaimPending? }

    /** Operations that present a token. */
    predicate Fenced() { Renew? || RecordAttempt? || Complete? || Release? }

    function Subject(): DeliveryId
      requires Targeted()
    {
      if RecordAttempt? then attempt.deliveryId else id
    }

    function Fence(): Token
      requires Fenced()
    {
      if RecordAttempt? then attempt.Fence() else claim.Fence()
    }

    function Change(now: int): Change
      requires Targeted()
    {
      match this
      case Renew(_, claim, lease) => Renewed(claim.Fence(), now, lease)
      case RecordAttempt(attempt) => Recorded(now, attempt)
      case Complete(_, claim, result) => Completed(claim.Fence(), now, result)
      case Release(_, claim) => Released(claim.Fence())
      case Retry(_) => Retried(now)
      case Repair(_, route) => Repaired(now, route)
      case Terminate(_) => Ended
    }

    function Grant(now: int): Reply {
      match this
      case Renew(_, claim, lease) => Extended(claim.(leaseExpiresAtMillis := now + lease))
      case _ => Done
    }
  }

  datatype StoreError =
    | ClaimLost(deliveryId: DeliveryId, fence: Token)
    | DuplicateOrdinal(ordinal: int)
    | NoTerminalState
    | NotFound
    | NotDeadLettered
    | DestinationMismatch(actual: DestinationId, requested: DestinationId)
    | IngestionConflict(key: IngestionKey, existing: EventId)
    | StatementFailed  // the database refused the statement or returned a row that cannot be decoded

  datatype Reply =
    | Done
    | Extended(claim: Claim)
    | Batch(batch: seq<ClaimedDelivery>)
    | Saved(claimed: ClaimedDelivery)
    | Accepted(decision: IntakeFields, claim: Claim)
    | Replayed(decision: IntakeFields)
    | Failed(error: StoreError)

  /** Why a targeted operation is refused, checked in the order the source checks it. */
  function Refusal(l: Ledger, now: int, op: Operation): Option<StoreError>
    requires op.Targeted()
  {
    var id := op.Subject();
    if op.Renew? then
      if id in l.rows && l.rows[id].Owns(op.Fence(), now) then None else Some(ClaimLost(id, op.Fence()))
    else if op.Fenced() then
      if !(id in l.rows && l.rows[id].Pending() &&
           (if op.Release? then l.rows[id].Holds(op.Fence()) else l.rows[id].Owns(op.Fence(), now)))
      then Some(ClaimLost(id, op.Fence()))
      else if op.RecordAttempt? && l.rows[id].HasOrdinal(op.attempt.ordinal)
      then Some(DuplicateOrdinal(op.attempt.ordinal))
      else if op.RecordAttempt? && op.attempt.Closes() && Policy.TerminalState(op.attempt).None?
      then Some(NoTerminalState)
      else None
    else if id !in l.rows then Some(NotFound)
    else if !l.rows[id].delivery.state.DeadLettered? then Some(NotDeadLettered)
    else if op.Repair? && l.rows[id].delivery.destinationId != op.route.destinationId
    then Some(DestinationMismatch(l.rows[id].delivery.destinationId, op.route.destinationId))
    else None
  }

  /** What the caller of ClaimPending may rely on: distinct, eligible, and no more than asked for. */
  predicate Offered(l: Ledger, now: int, op: Operation) {
    op.ClaimPending? ==>
      && Distinct(op.chosen)
      && |op.chosen| <= (if op.limit > 0 then op.limit else 0)
      && (forall id :: id in op.chosen ==> l.Eligible(id, op.destination, now))
  }

  predicate Distinct<T(==)>(s: seq<T>) {
    forall i, j :: 0 <= i < j < |s| ==> s[i] != s[j]
  }

  function ClaimedEntry(l: Ledger, now: int, ownerId: WorkerId, lease: int, id: DeliveryId): ClaimedDelivery
    requires id in l.rows && l.rows[id].delivery.eventId in l.events
  {
    var row := l.rows[id];
    ClaimedDelivery(
      Claim(ownerId, row.generation + 1, now + lease),
      if now - row.nextEligibleAt > 0 then now - row.nextEligibleAt else 0,
      row.delivery,
      l.events[row.delivery.eventId],
      NextOrdinal(row.attempts),
      row.route)
  }

  function ClaimedEntries(
    l: Ledger, now: int, ownerId: WorkerId, lease: int, chosen: seq<DeliveryId>): seq<ClaimedDelivery>
    requires forall id :: id in chosen ==> id in l.rows && l.rows[id].delivery.eventId in l.events
  {
    seq(|chosen|, i requires 0 <= i < |chosen| => ClaimedEntry(l, now, ownerId, lease, chosen[i]))
  }

  function Claiming(l: Ledger, now: int, ownerId: WorkerId, lease: int, chosen: seq<DeliveryId>): Ledger {
    l.(rows := map id | id in l.rows ::
         if id in chosen then After(l.rows[id], Claimed(ownerId, now, lease)) else l.rows[id])
  }

  function Apply(l: Ledger, now: int, op: Operation): (Ledger, Reply)
    requires Offered(l, now, op)
  {
    match op
    case Accept(record, dueAt) => ApplyAccept(l, now, record, dueAt)
    case SavePending(event, id, destinationId, request) =>
      var delivery := Delivery(id, event.id, destinationId, Pending);
      var claim := Claim(request.ownerId, 1, now + request.leaseDurationMillis);
      var row := if id in l.rows
        then Row(delivery, Some(claim), 1, l.rows[id].route, l.rows[id].attempts, now)
        else Row(delivery, Some(claim), 1, None, [], now);
      (l.Insert(id, row).(events := l.events[event.id := event]),
       Saved(ClaimedDelivery(claim, 0, delivery, event, 1, None)))
    case Save(delivery) =>
      if delivery.id in l.rows then (l, Done)
      else (l.Insert(delivery.id, Row(delivery, None, 0, None, [], now)), Done)
    case ClaimPending(ownerId, destination, limit, lease, chosen) =>
      (Claiming(l, now, ownerId, lease, chosen), Batch(ClaimedEntries(l, now, ownerId, lease, chosen)))
    case _ => ApplyTargeted(l, now, op)
  }

  function ApplyTargeted(l: Ledger, now: int, op: Operation): (Ledger, Reply)
    requires op.Targeted()
  {
    var id := op.Subject();
    var refusal := Refusal(l, now, op);
    if refusal.Some? then (l, Failed(refusal.value))
    else (l.With(id, After(l.rows[id], op.Change(now))), op.Grant(now))
  }

  /**
   `dueAt` is what the adapters choose differently: the caller's acceptance time in memory, the database clock
   in SQL.
   */
  function ApplyAccept(l: Ledger, now: int, record: IntakeRecord, dueAt: int): (Ledger, Reply) {
    if record.ingestionKey in l.intakes then
      var existing := l.intakes[record.ingestionKey];
      if existing.fingerprint != record.fingerprint
      then (l, Failed(IngestionConflict(record.ingestionKey, existing.decision.event.id)))
      else (l, Replayed(existing.decision))
    else
      var id := record.deliveryId;
      var delivery := Delivery(id, record.event.id, record.route.destinationId, Pending);
      var decision := FirstDecision(record);
      var claim := Claim(record.claim.ownerId, 1, now + record.claim.leaseDurationMillis);
      var prior := if id in l.rows then l.rows[id].attempts else [];
      var row := Row(delivery, Some(claim), 1, Some(record.route), prior, dueAt);
      (l.Insert(id, row).(
         events := l.events[record.event.id := record.event],
         intakes := l.intakes[record.ingestionKey := Intake(record.fingerprint, decision)]),
       Accepted(decision, claim))
  }

  // ---- Invariant --------------------------------------------------------------------------

  ghost predicate Valid(l: Ledger) { OrderValid(l) && RowsValid(l) && IntakesValid(l) }

  /** The insertion order of the records map. */
  ghost predicate OrderValid(l: Ledger) {
    Distinct(l.order) && forall id :: id in l.rows <==> id in l.order
  }

  ghost predicate RowsValid(l: Ledger) {
    forall id :: id in l.rows ==>
      && l.rows[id].Valid()
      && l.rows[id].delivery.id == id
      && l.rows[id].delivery.eventId in l.events
  }

  ghost predicate IntakesValid(l: Ledger) {
    && (forall key :: key in l.intakes ==> Remembers(l, l.intakes[key].decision))
    && OneDeliveryPerKey(l)
  }

  /** An intake decision still names the event and the delivery it created, which has a route. */
  ghost predicate Remembers(l: Ledger, decision: IntakeFields) {
    && decision.event.id in l.events
    && l.events[decision.event.id] == decision.event
    && decision.delivery.id in l.rows
    && l.rows[decision.delivery.id].delivery.eventId == decision.event.id
    && l.rows[decision.delivery.id].delivery.destinationId == decision.delivery.destinationId
    && l.rows[decision.delivery.id].route.Some?
  }

  ghost predicate OneDeliveryPerKey(l: Ledger) {
    forall j, k :: j in l.intakes && k in l.intakes && j != k ==>
      && l.intakes[j].decision.delivery.id != l.intakes[k].decision.delivery.id
      && l.intakes[j].decision.event.id != l.intakes[k].decision.event.id
  }

  const EMPTY := Ledger(map[], [], map[], map[])

  /** What the services promise the store: fresh identifiers, well-formed records, stored events. */
  ghost predicate Lawful(l: Ledger, now: int, op: Operation) {
    && Offered(l, now, op)
    && match op
       case Accept(record, _) =>
         record.ingestionKey !in l.intakes ==> record.deliveryId !in l.rows && record.event.id !in l.events
       case SavePending(event, id, _, _) => id !in l.rows && event.id !in l.events
       case Save(delivery) => delivery.id !in l.rows ==> delivery.eventId in l.events
       case RecordAttempt(attempt) => attempt.WellFormed()
       case _ => true
  }

  lemma AcceptedExactlyWhenEnabled(l: Ledger, now: int, op: Operation)
    requires op.Targeted()
    ensures Refusal(l, now, op).None? <==> op.Subject() in l.rows && Enabled(l.rows[op.Subject()], op.Change(now))
    ensures op.RecordAttempt? && op.attempt.WellFormed() ==> Refusal(l, now, op) != Some(NoTerminalState)
  {
  }

  lemma Granted(l: Ledger, now: int, op: Operation)
    requires op.Targeted() && Refusal(l, now, op).None?
    ensures Apply(l, now, op) == (l.With(op.Subject(), After(l.rows[op.Subject()], op.Change(now))), op.Grant(now))
  {
  }

  lemma Refused(l: Ledger, now: int, op: Operation, error: StoreError)
    requires op.Targeted() && Refusal(l, now, op) == Some(error)
    ensures Apply(l, now, op) == (l, Failed(error))
  {
  }

  lemma ChangeKeepsRowValid(row: Row, change: Change)
    requires row.Valid() && Enabled(row, change)
    ensures After(row, change).Valid()
  {
  }

  lemma ChangeKeepsIdentity(row: Row, change: Change)
    ensures row.Precedes(After(row, change))
    ensures After(row, change).attempts == if change.Recorded? then row.attempts + [change.attempt] else row.attempts
  {
  }

  /** What an operation did to one delivery. */
  function Effect(l: Ledger, now: int, op: Operation, id: DeliveryId): Option<Change>
    requires Offered(l, now, op) && id in l.rows
  {
    if op.ClaimPending? then
      if id in op.chosen then Some(Claimed(op.ownerId, now, op.lease)) else None
    else if op.Targeted() && op.Subject() == id && Refusal(l, now, op).None? then Some(op.Change(now))
    else None
  }

  /** Existing rows move only by enabled changes, and only as `Effect` says. */
  lemma StepsAreChanges(l: Ledger, now: int, op: Operation, id: DeliveryId)
    requires Lawful(l, now, op) && id in l.rows
    ensures id in Apply(l, now, op).0.rows
    ensures match Effect(l, now, op, id)
            case None => Apply(l, now, op).0.rows[id] == l.rows[id]
            case Some(change) =>
              Enabled(l.rows[id], change) && Apply(l, now, op).0.rows[id] == After(l.rows[id], change)
  {
    if op.Targeted() {
      AcceptedExactlyWhenEnabled(l, now, op);
    }
  }

  lemma IdentityIsFixed(l: Ledger, now: int, op: Operation, id: DeliveryId)
    requires Lawful(l, now, op) && id in l.rows
    ensures id in Apply(l, now, op).0.rows
    ensures l.rows[id].Precedes(Apply(l, now, op).0.rows[id])
    ensures l.rows[id].Valid() ==> Apply(l, now, op).0.rows[id].Valid()
  {
    StepsAreChanges(l, now, op, id);
    var effect := Effect(l, now, op, id);
    if effect.Some? && l.rows[id].Valid() {
      ChangeKeepsRowValid(l.rows[id], effect.value);
    }
  }

  lemma EventsAreKept(l: Ledger, now: int, op: Operation, id: EventId)
    requires Lawful(l, now, op) && id in l.events
    ensures id in Apply(l, now, op).0.events && Apply(l, now, op).0.events[id] == l.events[id]
  {
  }

  lemma IntakesAreKept(l: Ledger, now: int, op: Operation, key: IngestionKey)
    requires Lawful(l, now, op) && key in l.intakes
    ensures key in Apply(l, now, op).0.intakes && Apply(l, now, op).0.intakes[key] == l.intakes[key]
  {
  }

  lemma ApplyKeepsOrder(l: Ledger, now: int, op: Operation)
    requires OrderValid(l) && Lawful(l, now, op)
    ensures OrderValid(Apply(l, now, op).0)
  {
  }

  lemma ApplyKeepsRows(l: Ledger, now: int, op: Operation)
    requires RowsValid(l) && Lawful(l, now, op)
    ensures RowsValid(Apply(l, now, op).0)
  {
    var after := Apply(l, now, op).0;
    forall id | id in after.rows
      ensures after.rows[id].Valid() && after.rows[id].delivery.id == id
              && after.rows[id].delivery.eventId in after.events
    {
      if id in l.rows {
        IdentityIsFixed(l, now, op, id);
        EventsAreKept(l, now, op, l.rows[id].delivery.eventId);
      }
    }
  }

  lemma StillRemembers(l: Ledger, now: int, op: Operation, decision: IntakeFields)
    requires Remembers(l, decision) && Lawful(l, now, op)
    ensures Remembers(Apply(l, now, op).0, decision)
  {
    EventsAreKept(l, now, op, decision.event.id);
    IdentityIsFixed(l, now, op, decision.delivery.id);
  }

  /** Only a first acceptance adds an intake decision. */
  lemma IntakesAfter(l: Ledger, now: int, op: Operation)
    requires Offered(l, now, op)
    ensures Apply(l, now, op).0.intakes ==
            if op.Accept? && op.record.ingestionKey !in l.intakes
            then l.intakes[op.record.ingestionKey := Intake(op.record.fingerprint, FirstDecision(op.record))]
            else l.intakes
  {
  }

  function FirstDecision(record: IntakeRecord): IntakeFields {
    IntakeFields(
      record.event,
      Delivery(record.deliveryId, record.event.id, record.route.destinationId, Pending),
      record.route,
      record.acceptedAtMillis)
  }

  lemma FirstDecisionIsRemembered(l: Ledger, now: int, record: IntakeRecord, dueAt: int)
    requires record.ingestionKey !in l.intakes
    ensures Remembers(ApplyAccept(l, now, record, dueAt).0, FirstDecision(record))
  {
  }

  lemma ApplyKeepsDecisions(l: Ledger, now: int, op: Operation, key: IngestionKey)
    requires IntakesValid(l) && Lawful(l, now, op) && key in Apply(l, now, op).0.intakes
    ensures Remembers(Apply(l, now, op).0, Apply(l, now, op).0.intakes[key].decision)
  {
    IntakesAfter(l, now, op);
    if key in l.intakes {
      StillRemembers(l, now, op, l.intakes[key].decision);
    } else {
      FirstDecisionIsRemembered(l, now, op.record, op.dueAt);
    }
  }

  lemma ApplyKeepsOneDeliveryPerKey(l: Ledger, now: int, op: Operation)
    requires IntakesValid(l) && Lawful(l, now, op)
    ensures OneDeliveryPerKey(Apply(l, now, op).0)
  {
    IntakesAfter(l, now, op);
  }

  lemma ApplyKeepsIntakes(l: Ledger, now: int, op: Operation)
    requires IntakesValid(l) && Lawful(l, now, op)
    ensures IntakesValid(Apply(l, now, op).0)
  {
    ApplyKeepsOneDeliveryPerKey(l, now, op);
    forall key | key in Apply(l, now, op).0.intakes
      ensures Remembers(Apply(l, now, op).0, Apply(l, now, op).0.intakes[key].decision)
    {
      ApplyKeepsDecisions(l, now, op, key);
    }
  }

  /** A delivery enters the store without history, claimed at most by the caller of the intake. */
  lemma NewRows(l: Ledger, now: int, op: Operation, id: DeliveryId)
    requires Lawful(l, now, op) && id !in l.rows && id in Apply(l, now, op).0.rows
    ensures op.Save? || op.SavePending? || op.Accept?
    ensures op.Save? ==>
            id == op.delivery.id && Apply(l, now, op).0.rows[id] == Row(op.delivery, None, 0, None, [], now)
    ensures op.SavePending? ==>
              && id == op.deliveryId
              && Apply(l, now, op).0.rows[id] ==
                 Row(Delivery(id, op.event.id, op.destinationId, Pending),
                     Some(Claim(op.request.ownerId, 1, now + op.request.leaseDurationMillis)), 1, None, [], now)
    ensures op.Accept? ==>
              && id == op.record.deliveryId && op.record.ingestionKey !in l.intakes
              && Apply(l, now, op).0.rows[id] ==
                 Row(FirstDecision(op.record).delivery,
                     Some(Claim(op.record.claim.ownerId, 1, now + op.record.claim.leaseDurationMillis)),
                     1, Some(op.record.route), [], op.dueAt)
  {
  }

  lemma ApplyKeepsValid(l: Ledger, now: int, op: Operation)
    requires Valid(l) && Lawful(l, now, op)
    ensures Valid(Apply(l, now, op).0)
  {
    ApplyKeepsOrder(l, now, op);
    ApplyKeepsRows(l, now, op);
    ApplyKeepsIntakes(l, now, op);
  }
}

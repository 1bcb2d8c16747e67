/**
 The SQL adapter and the ledger simulate each other, statement by statement: the tables hold exactly
 what the ledger holds. An acceptance takes effect in the tables at the database clock, so the runs
 compared here are those whose new deliveries are due at the clock reading of their acceptance. What
 the memory adapter does instead, and what follows from it, is the subject of `Clocks`.
 */
module Simulation {
  import opened Domain
  import opened Ledger
  import opened Runs
  import opened Tables
  import Recovery

  // ---- The relation -----------------------------------------------------------------------

  predicate RowRelated(row: Row, d: DeliveryRow) {
    && row.delivery.eventId == d.eventId
    && row.delivery.destinationId == d.destinationId
    && (d.state, d.status, d.deadLetterReason) == StateColumns(row.delivery.state)
    && row.generation == d.claimGeneration
    && d.claimOwner == (if row.claim.Some? then Some(row.claim.value.ownerId) else None)
    && d.leaseExpiresAtMs == (if row.claim.Some? then Some(row.claim.value.leaseExpiresAtMillis) else None)
    && row.route == DecodeRoute(d)
    && row.nextEligibleAt == d.nextEligibleAtMs
  }

  /**
   What the CHECK constraints say of a row that keeps a delivery: exactly the row invariant of the ledger, times
   from the epoch on, a version above 0, and a route that is there as a whole or not at all.
   */
  lemma ChecksAreTheInvariant(row: Row, d: DeliveryRow)
    requires RowRelated(row, d) && row.claim == DecodeClaim(d)
    ensures d.Checks() <==>
            && row.Valid() && row.nextEligibleAt >= 0
            && (row.claim.Some? ==> row.claim.value.leaseExpiresAtMillis >= 0)
            && (row.route.Some? ==> row.route.value.configurationVersion > 0)
            && (d.destinationUrl.Some? <==> d.configurationVersion.Some?)
  {
  }

  /** The table holds each recorded attempt under its ordinal, and nothing else. */
  ghost predicate HistoryRelated(history: seq<AttemptRecord>, table: map<int, AttemptRow>) {
    && (forall i :: 0 <= i < |history| ==>
          && history[i].ordinal > 0
          && history[i].ordinal in table
          && table[history[i].ordinal] == EncodeAttempt(history[i]))
    && (forall o :: o in table ==> exists i :: 0 <= i < |history| && history[i].ordinal == o)
  }

  ghost predicate DeliveryRelated(l: Ledger, db: Database, id: DeliveryId) {
    if id in l.rows then
      && id in db.deliveries
      && RowRelated(l.rows[id], db.deliveries[id])
      && HistoryRelated(l.rows[id].attempts, db.AttemptsOf(id))
    else
      id !in db.deliveries && db.AttemptsOf(id) == map[]
  }

  predicate EventRelated(l: Ledger, db: Database, e: EventId) {
    && (e in l.events <==> e in db.events)
    && (e in l.events ==>
          && l.events[e] == RelayEvent(e, db.events[e].invoiceId, db.events[e].amountCents)
          && (db.events[e].ingestionKey.Some? ==>
                && db.events[e].ingestionKey.value in l.intakes
                && l.intakes[db.events[e].ingestionKey.value].decision.event.id == e))
  }

  /** A key of the ledger is a key of the events table, with the delivery that was accepted for it. */
  ghost predicate KeyRelated(l: Ledger, db: Database, key: IngestionKey) {
    key in l.intakes ==>
      var intake := l.intakes[key];
      var e := intake.decision.event.id;
      && e in db.events
      && db.events[e].ingestionKey == Some(key)
      && db.events[e].fingerprint == Some(intake.fingerprint)
      && db.events[e].acceptedAtMs == Some(intake.decision.acceptedAtMillis)
      && intake.decision.delivery.state.Pending?
      && intake.decision.delivery.eventId == e
      && Delivers(db, e, intake.decision.delivery.id)
  }

  ghost predicate Related(l: Ledger, db: Database) {
    && (forall id :: DeliveryRelated(l, db, id))
    && (forall e :: EventRelated(l, db, e))
    && (forall key :: KeyRelated(l, db, key))
  }

  // ---- One row ----------------------------------------------------------------------------

  /** The guards differ in their text and agree because claims exist only on Pending deliveries. */
  lemma GuardsAgree(row: Row, d: DeliveryRow, now: int, op: Operation)
    requires row.Valid() && RowRelated(row, d) && op.Targeted()
    ensures match op
            case Renew(_, claim, _) => Where(d, now, op) <==> row.Owns(claim.Fence(), now)
            case RecordAttempt(a) => Where(d, now, op) <==> row.Pending() && row.Owns(a.Fence(), now)
            case Complete(_, claim, _) => Where(d, now, op) <==> row.Pending() && row.Owns(claim.Fence(), now)
            case Release(_, claim) => Where(d, now, op) <==> row.Pending() && row.Holds(claim.Fence())
            case Repair(_, route) =>
              Where(d, now, op) <==>
              row.delivery.state.DeadLettered? && row.delivery.destinationId == route.destinationId
            case _ => Where(d, now, op) <==> row.delivery.state.DeadLettered?
  {
  }

  /** The renewal guards really do differ: on a claim left on a settled row, only the memory adapter renews. */
  lemma RenewGuardsNeedTheInvariant(row: Row, d: DeliveryRow, now: int, op: Operation)
    requires op.Renew? && RowRelated(row, d)
    requires row.claim.Some? ==> row.claim.value.generation == row.generation
    ensures (Where(d, now, op) <==> row.Owns(op.claim.Fence(), now)) <==>
            (row.Owns(op.claim.Fence(), now) ==> row.Pending())
  {
  }

  lemma UpdatesAgree(row: Row, d: DeliveryRow, now: int, op: Operation)
    requires row.Valid() && RowRelated(row, d) && op.Targeted()
    requires Enabled(row, op.Change(now))
    requires op.RecordAttempt? ==> op.attempt.WellFormed()
    ensures RowRelated(After(row, op.Change(now)), Set(d, now, op))
  {
  }

  lemma RecordingAgrees(history: seq<AttemptRecord>, table: map<int, AttemptRow>, attempt: AttemptRecord)
    requires HistoryRelated(history, table) && attempt.ordinal > 0
    ensures attempt.ordinal in table <==> exists i :: 0 <= i < |history| && history[i].ordinal == attempt.ordinal
    ensures attempt.ordinal !in table ==>
              HistoryRelated(history + [attempt], table[attempt.ordinal := EncodeAttempt(attempt)])
  {
    var after, grown := table[attempt.ordinal := EncodeAttempt(attempt)], history + [attempt];
    forall o | o in after
      ensures exists i :: 0 <= i < |grown| && grown[i].ordinal == o
    {
      if o == attempt.ordinal {
        assert grown[|history|].ordinal == o;
      } else {
        var i :| 0 <= i < |history| && history[i].ordinal == o;
        assert grown[i].ordinal == o;
      }
    }
  }

  lemma {:induction false} NextOrdinalBounds(history: seq<AttemptRecord>)
    ensures NextOrdinal(history) >= 1
    ensures forall i :: 0 <= i < |history| ==> history[i].ordinal < NextOrdinal(history)
    ensures NextOrdinal(history) > 1 ==>
            exists i :: 0 <= i < |history| && history[i].ordinal == NextOrdinal(history) - 1
  {
    if |history| == 0 {
    } else {
      var before := history[..|history| - 1];
      NextOrdinalBounds(before);
      if NextOrdinal(history) == NextOrdinal(before) && NextOrdinal(before) > 1 {
        var i :| 0 <= i < |before| && before[i].ordinal == NextOrdinal(before) - 1;
        assert history[i].ordinal == NextOrdinal(history) - 1;
      }
    }
  }

  /** The two ways of finding the next ordinal agree. */
  lemma NextOrdinalsAgree(history: seq<AttemptRecord>, table: map<int, AttemptRow>)
    requires HistoryRelated(history, table)
    ensures NextOrdinalOf(table) == NextOrdinal(history)
  {
    NextOrdinalBounds(history);
    if |history| > 0 {
      assert history[0].ordinal in table.Keys;
      var top := NextOrdinalOf(table) - 1;
      assert IsMaximum(table.Keys, top) by {
        MaximumExists(table.Keys);
      }
      var i :| 0 <= i < |history| && history[i].ordinal == top;
      var j :| 0 <= j < |history| && history[j].ordinal == NextOrdinal(history) - 1;
      assert history[j].ordinal in table.Keys;
    } else {
      assert forall o :: o !in table;
      assert table.Keys == {};
    }
  }

  // ---- Replies ----------------------------------------------------------------------------

  /** What the tables report of a decision: its fields, with the route that the delivery has now. */
  function Rerouted(l: Ledger, decision: IntakeFields): IntakeFields {
    var id := decision.delivery.id;
    if id in l.rows && l.rows[id].route.Some? then decision.(route := l.rows[id].route.value) else decision
  }

  /**
   The same reply, except that a replay from the tables reports the current route, and the one from memory the
   first.
   */
  predicate SameReply(l: Ledger, a: Reply, b: Reply) {
    match a
    case Replayed(decision) => b == Replayed(Rerouted(l, decision))
    case _ => a == b
  }

  // ---- One step ---------------------------------------------------------------------------

  lemma CandidatesAreEligible(l: Ledger, db: Database, now: int, id: DeliveryId, destination: DestinationId)
    requires Valid(l) && Related(l, db)
    ensures Candidate(db, id, destination, now) <==> l.Eligible(id, destination, now)
    ensures id in db.deliveries ==> db.deliveries[id].eventId in db.events
  {
    assert DeliveryRelated(l, db, id);
    if id in l.rows {
      assert EventRelated(l, db, l.rows[id].delivery.eventId);
    }
  }

  /** The candidates of a claim statement are the eligible deliveries: one that takes as many as it may is greedy. */
  lemma CandidatesAreTheEligibleSet(l: Ledger, db: Database, now: int, destination: DestinationId)
    requires Valid(l) && Related(l, db)
    ensures Recovery.EligibleSet(l, destination, now) ==
            set id | id in db.deliveries && Candidate(db, id, destination, now)
  {
    forall id
      ensures id in Recovery.EligibleSet(l, destination, now) <==>
              id in db.deliveries && Candidate(db, id, destination, now)
    {
      CandidatesAreEligible(l, db, now, id, destination);
    }
  }

  /** When events, keys and the events of deliveries stay, only the deliveries are left to check. */
  lemma RelatedByDeliveries(l: Ledger, db: Database, l': Ledger, db': Database)
    requires Related(l, db)
    requires l'.events == l.events && l'.intakes == l.intakes && db'.events == db.events
    requires forall e, id :: Delivers(db', e, id) <==> Delivers(db, e, id)
    requires forall id :: DeliveryRelated(l', db', id)
    ensures Related(l', db')
  {
    forall e
      ensures EventRelated(l', db', e)
    {
      assert EventRelated(l, db, e);
    }
    forall key
      ensures KeyRelated(l', db', key)
    {
      assert KeyRelated(l, db, key);
    }
  }

  lemma RelatedOffOne(l: Ledger, db: Database, l': Ledger, db': Database, id: DeliveryId)
    requires Related(l, db)
    requires id in l.rows && id in l'.rows && l'.rows == l.rows[id := l'.rows[id]]
    requires l'.events == l.events && l'.intakes == l.intakes && db'.events == db.events
    requires id in db.deliveries && id in db'.deliveries && db'.deliveries == db.deliveries[id := db'.deliveries[id]]
    requires db'.deliveries[id].eventId == db.deliveries[id].eventId
    requires forall x :: x != id ==> db'.AttemptsOf(x) == db.AttemptsOf(x)
    requires DeliveryRelated(l', db', id)
    ensures Related(l', db')
  {
    forall x
      ensures DeliveryRelated(l', db', x)
    {
      assert DeliveryRelated(l, db, x);
    }
    RelatedByDeliveries(l, db, l', db');
  }

  /** The tables after an update that took effect. */
  function Updated(db: Database, now: int, op: Operation): Database
    requires op.Targeted() && op.Subject() in db.deliveries
  {
    var id := op.Subject();
    var written := db.(deliveries := db.deliveries[id := Set(db.deliveries[id], now, op)]);
    if op.RecordAttempt?
    then written.(attempts := db.attempts[id := db.AttemptsOf(id)[op.attempt.ordinal := EncodeAttempt(op.attempt)]])
    else written
  }

  lemma RefusalsAgree(l: Ledger, db: Database, now: int, op: Operation)
    requires Valid(l) && op.Targeted() && DeliveryRelated(l, db, op.Subject())
    requires op.RecordAttempt? ==> op.attempt.WellFormed()
    ensures match Refusal(l, now, op)
            case Some(error) => Targeted(db, now, op) == (db, Failed(error))
            case None =>
              && op.Subject() in l.rows && op.Subject() in db.deliveries
              && Targeted(db, now, op) == (Updated(db, now, op), op.Grant(now))
  {
    var id := op.Subject();
    if id in l.rows {
      GuardsAgree(l.rows[id], db.deliveries[id], now, op);
      if op.RecordAttempt? {
        RecordingAgrees(l.rows[id].attempts, db.AttemptsOf(id), op.attempt);
        AcceptedExactlyWhenEnabled(l, now, op);
      }
    }
  }

  lemma GrantedRowsAgree(l: Ledger, db: Database, now: int, op: Operation)
    requires Valid(l) && Related(l, db) && op.Targeted()
    requires op.RecordAttempt? ==> op.attempt.WellFormed()
    requires op.Subject() in l.rows && op.Subject() in db.deliveries && Enabled(l.rows[op.Subject()], op.Change(now))
    ensures DeliveryRelated(
              l.With(op.Subject(), After(l.rows[op.Subject()], op.Change(now))), Updated(db, now, op), op.Subject())
  {
    var id := op.Subject();
    assert DeliveryRelated(l, db, id);
    UpdatesAgree(l.rows[id], db.deliveries[id], now, op);
    if op.RecordAttempt? {
      RecordingAgrees(l.rows[id].attempts, db.AttemptsOf(id), op.attempt);
    }
    ChangeKeepsIdentity(l.rows[id], op.Change(now));
  }

  lemma GrantsAgree(l: Ledger, db: Database, now: int, op: Operation)
    requires Valid(l) && Related(l, db) && op.Targeted()
    requires op.RecordAttempt? ==> op.attempt.WellFormed()
    requires op.Subject() in l.rows && op.Subject() in db.deliveries && Enabled(l.rows[op.Subject()], op.Change(now))
    ensures Related(l.With(op.Subject(), After(l.rows[op.Subject()], op.Change(now))), Updated(db, now, op))
  {
    var id := op.Subject();
    GrantedRowsAgree(l, db, now, op);
    ChangeKeepsIdentity(l.rows[id], op.Change(now));
    RelatedOffOne(l, db, l.With(id, After(l.rows[id], op.Change(now))), Updated(db, now, op), id);
  }

  lemma TargetedSimulates(l: Ledger, db: Database, now: int, op: Operation)
    requires Valid(l) && Related(l, db) && op.Targeted()
    requires op.RecordAttempt? ==> op.attempt.WellFormed()
    ensures Related(ApplyTargeted(l, now, op).0, Targeted(db, now, op).0)
    ensures ApplyTargeted(l, now, op).1 == Targeted(db, now, op).1
  {
    assert DeliveryRelated(l, db, op.Subject());
    RefusalsAgree(l, db, now, op);
    AcceptedExactlyWhenEnabled(l, now, op);
    if Refusal(l, now, op).None? {
      GrantsAgree(l, db, now, op);
    }
  }

  lemma ClaimSimulates(
    l: Ledger, db: Database, now: int, ownerId: WorkerId, destination: DestinationId, limit: int, lease: int,
    chosen: seq<DeliveryId>)
    requires Valid(l) && Related(l, db)
    requires Offered(l, now, ClaimPending(ownerId, destination, limit, lease, chosen))
    ensures forall id :: id in chosen ==> id in db.deliveries && db.deliveries[id].eventId in db.events
    ensures var op := ClaimPending(ownerId, destination, limit, lease, chosen);
            && Related(Apply(l, now, op).0, Execute(db, now, op).0)
            && Apply(l, now, op).1 == Execute(db, now, op).1
  {
    var op := ClaimPending(ownerId, destination, limit, lease, chosen);
    forall id | id in chosen
      ensures id in db.deliveries && db.deliveries[id].eventId in db.events
      ensures ClaimedEntry(l, now, ownerId, lease, id) == ClaimedDeliveryRow(db, now, ownerId, lease, id)
    {
      ClaimedEntriesAgree(l, db, now, ownerId, lease, id);
    }
    var l', db' := Apply(l, now, op).0, Execute(db, now, op).0;
    forall id
      ensures DeliveryRelated(l', db', id)
    {
      assert DeliveryRelated(l, db, id);
      if id in chosen {
        ClaimedRowsAgree(l.rows[id], db.deliveries[id], now, ownerId, lease);
      }
    }
    RelatedByDeliveries(l, db, l', db');
  }

  lemma ClaimedRowsAgree(row: Row, d: DeliveryRow, now: int, ownerId: WorkerId, lease: int)
    requires RowRelated(row, d)
    ensures RowRelated(After(row, Claimed(ownerId, now, lease)), ClaimRow(d, ownerId, lease, now))
    ensures After(row, Claimed(ownerId, now, lease)).attempts == row.attempts
  {
  }

  lemma ClaimedEntriesAgree(l: Ledger, db: Database, now: int, ownerId: WorkerId, lease: int, id: DeliveryId)
    requires Valid(l) && Related(l, db) && id in l.rows && l.rows[id].Claimable(now)
    ensures id in db.deliveries && db.deliveries[id].eventId in db.events
    ensures ClaimedEntry(l, now, ownerId, lease, id) == ClaimedDeliveryRow(db, now, ownerId, lease, id)
  {
    assert DeliveryRelated(l, db, id);
    assert EventRelated(l, db, l.rows[id].delivery.eventId);
    NextOrdinalsAgree(l.rows[id].attempts, db.AttemptsOf(id));
  }

  // ---- Intake -----------------------------------------------------------------------------

  /** A key names the same acceptance on both sides. */
  lemma KeysAgree(l: Ledger, db: Database, key: IngestionKey)
    requires Related(l, db)
    ensures Known(db, key) <==> key in l.intakes
    ensures Known(db, key) ==> KeyedEvent(db, key) == l.intakes[key].decision.event.id
  {
    assert KeyRelated(l, db, key);
    if key in l.intakes {
      assert HasKey(db.events[l.intakes[key].decision.event.id], key);
    }
    if Known(db, key) {
      assert EventRelated(l, db, KeyedEvent(db, key));
    }
  }

  /** The key's event has no delivery but the one accepted for it. */
  ghost predicate Undivided(l: Ledger, key: IngestionKey) {
    key in l.intakes ==>
      forall id :: id in l.rows && l.rows[id].delivery.eventId == l.intakes[key].decision.event.id ==>
        id == l.intakes[key].decision.delivery.id
  }

  lemma ReplayReads(l: Ledger, db: Database, key: IngestionKey)
    requires Valid(l) && Related(l, db) && key in l.intakes
    ensures var decision := l.intakes[key].decision;
            && Known(db, key) && KeyedEvent(db, key) == decision.event.id
            && (exists d :: Delivers(db, decision.event.id, d))
            && FirstDelivery(db, decision.event.id) in l.rows
            && (Undivided(l, key) ==> FirstDelivery(db, decision.event.id) == decision.delivery.id)
            && RowRelated(
                 l.rows[FirstDelivery(db, decision.event.id)], db.deliveries[FirstDelivery(db, decision.event.id)])
  {
    var decision := l.intakes[key].decision;
    KeysAgree(l, db, key);
    assert KeyRelated(l, db, key);
    assert Delivers(db, decision.event.id, decision.delivery.id);
    assert DeliveryRelated(l, db, FirstDelivery(db, decision.event.id));
  }

  /**
   A known key changes neither store, and for an event with one delivery the answers are the same but for
   the route of a replay, which the tables report as it is now.
   */
  lemma ReplayAgrees(l: Ledger, db: Database, now: int, record: IntakeRecord, dueAt: int)
    requires Valid(l) && Related(l, db) && record.ingestionKey in l.intakes
    ensures ApplyAccept(l, now, record, dueAt).0 == l && AcceptStatement(db, now, record).0 == db
    ensures Undivided(l, record.ingestionKey) ==>
              SameReply(l, ApplyAccept(l, now, record, dueAt).1, AcceptStatement(db, now, record).1)
  {
    var key := record.ingestionKey;
    ReplayReads(l, db, key);
    assert KeyRelated(l, db, key);
    var decision := l.intakes[key].decision;
    assert Remembers(l, decision);
    assert EventRelated(l, db, decision.event.id);
  }

  /**
   Exactly when the full answers to a known key agree, on any store: a conflict, when the delivery that the
   tables read has a route; a replay, when that delivery is the accepted one and still has its first route.
   */
  lemma ReplaysAgreeExactly(l: Ledger, db: Database, now: int, record: IntakeRecord, dueAt: int)
    requires Valid(l) && Related(l, db) && record.ingestionKey in l.intakes
    ensures exists d :: Delivers(db, l.intakes[record.ingestionKey].decision.event.id, d)
    ensures var intake := l.intakes[record.ingestionKey];
            var read := FirstDelivery(db, intake.decision.event.id);
            && read in l.rows
            && (ApplyAccept(l, now, record, dueAt).1 == AcceptStatement(db, now, record).1 <==>
                if intake.fingerprint != record.fingerprint then l.rows[read].route.Some?
                else read == intake.decision.delivery.id && l.rows[read].route == Some(intake.decision.route))
  {
    var key := record.ingestionKey;
    ReplayReads(l, db, key);
    assert KeyRelated(l, db, key);
    var decision := l.intakes[key].decision;
    assert Remembers(l, decision);
    assert EventRelated(l, db, decision.event.id);
  }

  /**
   For an event with one delivery that leaves the route: replies to its key are equal if and only if it was
   never repaired to another.
   */
  lemma ReplaysAgreeOnTheRoute(l: Ledger, db: Database, now: int, record: IntakeRecord, dueAt: int)
    requires Valid(l) && Related(l, db) && record.ingestionKey in l.intakes && Undivided(l, record.ingestionKey)
    requires l.intakes[record.ingestionKey].fingerprint == record.fingerprint
    ensures var decision := l.intakes[record.ingestionKey].decision;
            && decision.delivery.id in l.rows
            && (ApplyAccept(l, now, record, dueAt).1 == AcceptStatement(db, now, record).1 <==>
                l.rows[decision.delivery.id].route == Some(decision.route))
  {
    ReplayReads(l, db, record.ingestionKey);
    ReplaysAgreeExactly(l, db, now, record, dueAt);
  }

  /** After a repair to another route, the adapters answer a replay differently. */
  lemma RepairedReplaysDiffer(l: Ledger, db: Database, now: int, record: IntakeRecord, dueAt: int, route: Route)
    requires Valid(l) && Related(l, db) && record.ingestionKey in l.intakes && Undivided(l, record.ingestionKey)
    requires var intake := l.intakes[record.ingestionKey];
             && intake.fingerprint == record.fingerprint && route != intake.decision.route
             && intake.decision.delivery.id in l.rows
             && Enabled(l.rows[intake.decision.delivery.id], Repaired(now, route))
    ensures var repair := Repair(l.intakes[record.ingestionKey].decision.delivery.id, route);
            ApplyAccept(Apply(l, now, repair).0, now, record, dueAt).1 !=
            AcceptStatement(Execute(db, now, repair).0, now, record).1
  {
    var id := l.intakes[record.ingestionKey].decision.delivery.id;
    var repair := Repair(id, route);
    TargetedSimulates(l, db, now, repair);
    ApplyKeepsValid(l, now, repair);
    AcceptedExactlyWhenEnabled(l, now, repair);
    Granted(l, now, repair);
    ReplaysAgreeOnTheRoute(Apply(l, now, repair).0, Execute(db, now, repair).0, now, record, dueAt);
  }

  /** A delivery that enters with a fresh event on both sides. */
  lemma RelatedWithOneMore(l: Ledger, db: Database, l': Ledger, db': Database, id: DeliveryId, e: EventId)
    requires Valid(l) && Related(l, db) && id !in l.rows && e !in l.events
    requires id in l'.rows && l'.rows == l.rows[id := l'.rows[id]]
    requires e in l'.events && l'.events == l.events[e := l'.events[e]]
    requires id in db'.deliveries && db'.deliveries == db.deliveries[id := db'.deliveries[id]]
    requires e in db'.events && db'.events == db.events[e := db'.events[e]]
    requires db'.attempts == db.attempts && db'.deliveries[id].eventId == e
    requires DeliveryRelated(l', db', id) && EventRelated(l', db', e)
    requires db'.events[e].ingestionKey.Some? ==> KeyRelated(l', db', db'.events[e].ingestionKey.value)
    requires match db'.events[e].ingestionKey
             case None => l'.intakes == l.intakes
             case Some(key) => key !in l.intakes && key in l'.intakes && l'.intakes == l.intakes[key := l'.intakes[key]]
    ensures Related(l', db')
  {
    forall x
      ensures DeliveryRelated(l', db', x)
    {
      assert DeliveryRelated(l, db, x);
    }
    forall x
      ensures EventRelated(l', db', x)
    {
      assert EventRelated(l, db, x);
    }
    forall key
      ensures KeyRelated(l', db', key)
    {
      assert KeyRelated(l, db, key);
      if key in l.intakes {
        assert EventRelated(l, db, l.intakes[key].decision.event.id);
      }
    }
  }

  /** A first acceptance creates the same delivery on both sides, due at the database clock. */
  lemma AcceptanceAgrees(l: Ledger, db: Database, now: int, record: IntakeRecord)
    requires Valid(l) && Related(l, db) && record.ingestionKey !in l.intakes
    requires record.deliveryId !in l.rows && record.event.id !in l.events
    ensures Related(ApplyAccept(l, now, record, now).0, AcceptStatement(db, now, record).0)
    ensures ApplyAccept(l, now, record, now).1 == AcceptStatement(db, now, record).1
  {
    var id, e, key := record.deliveryId, record.event.id, record.ingestionKey;
    KeysAgree(l, db, key);
    assert EventRelated(l, db, e);
    assert DeliveryRelated(l, db, id);
    var l', db' := ApplyAccept(l, now, record, now).0, AcceptStatement(db, now, record).0;
    assert DeliveryRelated(l', db', id);
    assert EventRelated(l', db', e);
    assert KeyRelated(l', db', key);
    RelatedWithOneMore(l, db, l', db', id, e);
  }

  /** With any other due time, such as the caller's acceptance time, the tables hold something else. */
  lemma AcceptanceDueTimes(l: Ledger, db: Database, now: int, record: IntakeRecord, dueAt: int)
    requires Valid(l) && Related(l, db) && record.ingestionKey !in l.intakes
    requires record.deliveryId !in l.rows && record.event.id !in l.events
    ensures Related(ApplyAccept(l, now, record, dueAt).0, AcceptStatement(db, now, record).0) <==> dueAt == now
    ensures ApplyAccept(l, now, record, dueAt).1 == AcceptStatement(db, now, record).1
  {
    var l', db' := ApplyAccept(l, now, record, dueAt).0, AcceptStatement(db, now, record).0;
    AcceptanceAgrees(l, db, now, record);
    assert DeliveryRelated(ApplyAccept(l, now, record, now).0, db', record.deliveryId);
    if Related(l', db') {
      assert DeliveryRelated(l', db', record.deliveryId);
    }
  }

  lemma SavePendingAgrees(
    l: Ledger, db: Database, now: int, event: RelayEvent, id: DeliveryId, destinationId: DestinationId,
    request: ClaimRequest)
    requires Valid(l) && Related(l, db) && id !in l.rows && event.id !in l.events
    ensures var op := SavePending(event, id, destinationId, request);
            && Related(Apply(l, now, op).0, SavePendingStatement(db, now, event, id, destinationId, request).0)
            && Apply(l, now, op).1 == SavePendingStatement(db, now, event, id, destinationId, request).1
  {
    var l' := Apply(l, now, SavePending(event, id, destinationId, request)).0;
    var db' := SavePendingStatement(db, now, event, id, destinationId, request).0;
    assert EventRelated(l, db, event.id);
    assert DeliveryRelated(l, db, id);
    assert DeliveryRelated(l', db', id);
    assert EventRelated(l', db', event.id);
    RelatedWithOneMore(l, db, l', db', id, event.id);
  }

  /** Saving a delivery for a stored event. */
  lemma SaveAgrees(l: Ledger, db: Database, now: int, delivery: Delivery)
    requires Valid(l) && Related(l, db)
    requires delivery.id !in l.rows ==> delivery.eventId in db.events
    ensures Related(Apply(l, now, Save(delivery)).0, SaveStatement(db, now, delivery).0)
    ensures Apply(l, now, Save(delivery)).1 == SaveStatement(db, now, delivery).1
  {
    var id := delivery.id;
    assert DeliveryRelated(l, db, id);
    if id !in l.rows {
      var l', db' := Apply(l, now, Save(delivery)).0, SaveStatement(db, now, delivery).0;
      forall x
        ensures DeliveryRelated(l', db', x)
      {
        assert DeliveryRelated(l, db, x);
      }
      forall e
        ensures EventRelated(l', db', e)
      {
        assert EventRelated(l, db, e);
      }
      forall key
        ensures KeyRelated(l', db', key)
      {
        assert KeyRelated(l, db, key);
      }
    }
  }

  // ---- Whole runs -------------------------------------------------------------------------

  /**
   What the services promise, said about the tables, and that these take the due time of an acceptance from
   their clock.
   */
  ghost predicate Permitted(db: Database, now: int, op: Operation) {
    match op
    case Accept(record, dueAt) =>
      !Known(db, record.ingestionKey) ==>
        && record.deliveryId !in db.deliveries
        && record.event.id !in db.events
        && dueAt == now
    case SavePending(event, id, _, _) => id !in db.deliveries && event.id !in db.events
    case Save(delivery) =>
      delivery.id !in db.deliveries ==> delivery.eventId in db.events
    case ClaimPending(_, destination, limit, _, chosen) =>
      && Distinct(chosen)
      && |chosen| <= (if limit > 0 then limit else 0)
      && (forall id :: id in chosen ==> Candidate(db, id, destination, now) && db.deliveries[id].eventId in db.events)
    case RecordAttempt(attempt) => attempt.WellFormed()
    case _ => true
  }

  lemma PermittedIsLawful(l: Ledger, db: Database, now: int, op: Operation)
    requires Valid(l) && Related(l, db) && Permitted(db, now, op)
    ensures Lawful(l, now, op)
  {
    match op
    case Accept(record, _) =>
      KeysAgree(l, db, record.ingestionKey);
      assert DeliveryRelated(l, db, record.deliveryId);
      assert EventRelated(l, db, record.event.id);
    case SavePending(event, id, _, _) =>
      assert DeliveryRelated(l, db, id);
      assert EventRelated(l, db, event.id);
    case Save(delivery) =>
      assert DeliveryRelated(l, db, delivery.id);
      assert EventRelated(l, db, delivery.eventId);
    case ClaimPending(_, destination, _, _, chosen) =>
      forall id | id in chosen
        ensures l.Eligible(id, destination, now)
      {
        CandidatesAreEligible(l, db, now, id, destination);
      }
    case _ =>
  }

  lemma StepSimulates(l: Ledger, db: Database, now: int, op: Operation)
    requires Valid(l) && Related(l, db) && Permitted(db, now, op)
    ensures Lawful(l, now, op)
    ensures Related(Apply(l, now, op).0, Execute(db, now, op).0)
    ensures (op.Accept? ==> Undivided(l, op.record.ingestionKey)) ==>
            SameReply(l, Apply(l, now, op).1, Execute(db, now, op).1)
  {
    PermittedIsLawful(l, db, now, op);
    match op
    case Accept(record, dueAt) =>
      KeysAgree(l, db, record.ingestionKey);
      if record.ingestionKey in l.intakes {
        ReplayAgrees(l, db, now, record, dueAt);
      } else {
        AcceptanceAgrees(l, db, now, record);
      }
    case SavePending(event, id, destinationId, request) =>
      SavePendingAgrees(l, db, now, event, id, destinationId, request);
    case Save(delivery) =>
      assert DeliveryRelated(l, db, delivery.id);
      SaveAgrees(l, db, now, delivery);
    case ClaimPending(ownerId, destination, limit, lease, chosen) =>
      ClaimSimulates(l, db, now, ownerId, destination, limit, lease, chosen);
    case _ =>
      TargetedSimulates(l, db, now, op);
  }

  ghost predicate SqlLegal(run: Run)
    decreases run, 0
  {
    match run
    case Begin(_) => true
    case Then(before, at, op) => SqlLegal(before) && Permitted(SqlFinal(before), at, op)
  }

  /** The tables after a run that began with empty ones. */
  ghost function SqlFinal(run: Run): Database
    requires SqlLegal(run)
    decreases run, 1
  {
    match run
    case Begin(_) => EMPTY_DATABASE
    case Then(before, at, op) => Execute(SqlFinal(before), at, op).0
  }

  /**
   Every run of the SQL adapter is a run of the ledger with the same replies: whatever is proved of
   ledger runs holds of the tables.
   */
  lemma {:induction false} SqlRunsAreLedgerRuns(run: Run)
    requires SqlLegal(run) && Start(run) == EMPTY
    ensures Legal(run)
    ensures Related(Final(run), SqlFinal(run))
    ensures run.Then? && (run.op.Accept? ==> Undivided(Final(run.before), run.op.record.ingestionKey)) ==>
              SameReply(Final(run.before), LastReply(run), Execute(SqlFinal(run.before), run.at, run.op).1)
  {
    if run.Begin? {
    } else {
      SqlRunsAreLedgerRuns(run.before);
      FinalIsValid(run.before);
      StepSimulates(Final(run.before), SqlFinal(run.before), run.at, run.op);
    }
  }

  lemma LawfulIsPermitted(l: Ledger, db: Database, now: int, op: Operation)
    requires Valid(l) && Related(l, db) && Lawful(l, now, op)
    requires op.Accept? ==> op.dueAt == now
    ensures Permitted(db, now, op)
  {
    match op
    case Accept(record, _) =>
      KeysAgree(l, db, record.ingestionKey);
      assert DeliveryRelated(l, db, record.deliveryId);
      assert EventRelated(l, db, record.event.id);
    case SavePending(event, id, _, _) =>
      assert DeliveryRelated(l, db, id);
      assert EventRelated(l, db, event.id);
    case Save(delivery) =>
      assert DeliveryRelated(l, db, delivery.id);
      assert EventRelated(l, db, delivery.eventId);
    case ClaimPending(_, destination, _, _, chosen) =>
      forall id | id in chosen
        ensures Candidate(db, id, destination, now) && db.deliveries[id].eventId in db.events
      {
        CandidatesAreEligible(l, db, now, id, destination);
      }
    case _ =>
  }

  /** Every delivery accepted in the run is due at the clock reading of its acceptance, as the tables have it. */
  predicate DueOnAcceptance(run: Run) {
    run.Then? ==> DueOnAcceptance(run.before) && (run.op.Accept? ==> run.op.dueAt == run.at)
  }

  /** And every such run of the ledger is a run of the SQL adapter, with the same replies. */
  lemma {:induction false} LedgerRunsAreSqlRuns(run: Run)
    requires Legal(run) && Start(run) == EMPTY && DueOnAcceptance(run)
    ensures SqlLegal(run)
    ensures Related(Final(run), SqlFinal(run))
    ensures run.Then? && (run.op.Accept? ==> Undivided(Final(run.before), run.op.record.ingestionKey)) ==>
              SameReply(Final(run.before), LastReply(run), Execute(SqlFinal(run.before), run.at, run.op).1)
  {
    if run.Begin? {
    } else {
      LedgerRunsAreSqlRuns(run.before);
      FinalIsValid(run.before);
      LawfulIsPermitted(Final(run.before), SqlFinal(run.before), run.at, run.op);
      StepSimulates(Final(run.before), SqlFinal(run.before), run.at, run.op);
    }
  }

  ghost predicate NeverSaves(run: Run) { run.Then? ==> !run.op.Save? && NeverSaves(run.before) }

  /** Only a plain save gives an event a second delivery, and no service makes one: otherwise every key is undivided. */
  lemma {:induction false} EventsAreUndivided(run: Run, i: DeliveryId, j: DeliveryId)
    requires Legal(run) && Start(run) == EMPTY && NeverSaves(run)
    requires i in Final(run).rows && j in Final(run).rows
    requires Final(run).rows[i].delivery.eventId == Final(run).rows[j].delivery.eventId
    ensures i == j
  {
    match run
    case Begin(_) =>
    case Then(before, at, op) =>
      FinalIsValid(before);
      if i in Final(before).rows {
        IdentityIsFixed(Final(before), at, op, i);
      } else {
        NewRows(Final(before), at, op, i);
      }
      if j in Final(before).rows {
        IdentityIsFixed(Final(before), at, op, j);
      } else {
        NewRows(Final(before), at, op, j);
      }
      if i in Final(before).rows && j in Final(before).rows {
        EventsAreUndivided(before, i, j);
      }
  }

  /** So on the runs that the services make, the tables and the ledger give the same reply to every call. */
  lemma AdaptersReplyAlike(run: Run)
    requires SqlLegal(run) && Start(run) == EMPTY && NeverSaves(run) && run.Then?
    ensures Legal(run)
    ensures SameReply(Final(run.before), LastReply(run), Execute(SqlFinal(run.before), run.at, run.op).1)
  {
    SqlRunsAreLedgerRuns(run);
    if run.op.Accept? {
      var l := Final(run.before);
      FinalIsValid(run.before);
      if run.op.record.ingestionKey in l.intakes {
        var decision := l.intakes[run.op.record.ingestionKey].decision;
        assert Remembers(l, decision);
        forall id | id in l.rows && l.rows[id].delivery.eventId == decision.event.id
          ensures id == decision.delivery.id
        {
          EventsAreUndivided(run.before, id, decision.delivery.id);
        }
      }
    }
  }

  // ---- A run on which the replies differ --------------------------------------------------

  const KEY := IngestionKey("invoice-1")
  const DELIVERY := DeliveryId("dlv-1")
  const FIRST_ROUTE := Route(DestinationId("dst-1"), "https://first.example/", 1)
  const SECOND_ROUTE := Route(DestinationId("dst-1"), "https://second.example/", 2)
  const RECORD := IntakeRecord(
    KEY, Fingerprint("00"), RelayEvent(EventId("evt-1"), "inv-1", 100), DELIVERY, FIRST_ROUTE, 0,
    ClaimRequest(WorkerId("wrk-1"), 1000))
  const REFUSED := AttemptRecord(
    DELIVERY, 1, WorkerId("wrk-1"), 1, 0, 0, OutcomeTag.ProtocolFailure, DecisionTag.Terminal, Some(600), None,
    Trace(None, None))

  /** Accepted, dead-lettered by its first attempt, and repaired to another endpoint. */
  const REPAIRED :=
    Then(Then(Then(Begin(EMPTY), 0, Accept(RECORD, 0)), 0, RecordAttempt(REFUSED)), 0, Repair(DELIVERY, SECOND_ROUTE))

  lemma AcceptedRun()
    ensures var run := REPAIRED.before.before;
            && Legal(run)
            && KEY in Final(run).intakes && Final(run).intakes[KEY] == Intake(RECORD.fingerprint, FirstDecision(RECORD))
            && Final(run).rows.Keys == {DELIVERY}
            && Final(run).rows[DELIVERY].Owns(REFUSED.Fence(), 0) && Final(run).rows[DELIVERY].attempts == []
            && Final(run).rows[DELIVERY].delivery == FirstDecision(RECORD).delivery
  {
    assert Legal(Begin(EMPTY));
  }

  lemma DeadLetteredRun()
    ensures var run := REPAIRED.before;
            && Legal(run) && NeverSaves(run)
            && KEY in Final(run).intakes && Final(run).intakes[KEY] == Intake(RECORD.fingerprint, FirstDecision(RECORD))
            && Final(run).rows.Keys == {DELIVERY}
            && Enabled(Final(run).rows[DELIVERY], Repaired(0, SECOND_ROUTE))
  {
    var accepted := REPAIRED.before.before;
    AcceptedRun();
    assert REFUSED.WellFormed() && Legal(REPAIRED.before);
    AcceptedExactlyWhenEnabled(Final(accepted), 0, RecordAttempt(REFUSED));
    Granted(Final(accepted), 0, RecordAttempt(REFUSED));
  }

  lemma RepairedRun()
    ensures Legal(REPAIRED.before) && SqlLegal(REPAIRED.before) && Legal(REPAIRED) && SqlLegal(REPAIRED)
    ensures Related(Final(REPAIRED.before), SqlFinal(REPAIRED.before))
  {
    DeadLetteredRun();
    LedgerRunsAreSqlRuns(REPAIRED.before);
    LedgerRunsAreSqlRuns(REPAIRED);
  }

  /**
   After it, the next call with the same key is answered with the second route by the tables and with the first
   from memory.
   */
  lemma ReplaysDifferAfterRepair()
    ensures Legal(REPAIRED) && SqlLegal(REPAIRED)
    ensures ApplyAccept(Final(REPAIRED), 0, RECORD, 0).1 != AcceptStatement(SqlFinal(REPAIRED), 0, RECORD).1
  {
    var run := REPAIRED.before;
    DeadLetteredRun();
    RepairedRun();
    FinalIsValid(run);
    RepairedReplaysDiffer(Final(run), SqlFinal(run), 0, RECORD, 0, SECOND_ROUTE);
  }
}

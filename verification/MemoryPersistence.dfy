/**
 src/adapters/memoryPersistence.ts: the in-memory store as eight mutable maps.

 The ghost field `contents` says what the maps hold as a ledger, and `Valid` ties it to them, delivery by
 delivery. Every method changes `contents` by exactly the corresponding operation of the Ledger module, so
 everything proved there about runs holds of this adapter. `now` is the reading of the clock service.
 */
module MemoryPersistence {
  import opened Domain
  import opened Ledger
  import opened Recovery
  import Policy

  class Store {
    var events: map<EventId, RelayEvent>
    var records: map<DeliveryId, Delivery>
    var order: seq<DeliveryId>  // the insertion order in which a JavaScript Map is iterated
    var claims: map<DeliveryId, Claim>
    var generations: map<DeliveryId, int>
    var routes: map<DeliveryId, Route>
    var attempts: map<DeliveryId, seq<AttemptRecord>>
    var nextEligibleAt: map<DeliveryId, int>
    var intakes: map<IngestionKey, Intake>
    ghost var contents: Ledger

    ghost predicate Valid()
      reads this
    {
      && contents.order == order && contents.events == events && contents.intakes == intakes
      && OrderValid(contents)
      && (forall id :: Represented(id))
    }

    /** The delivery maps hold exactly what the ledger says about one delivery. */
    ghost predicate Represented(id: DeliveryId)
      reads this
    {
      if id in contents.rows then Stores(id, contents.rows[id])
      else
        && id !in records && id !in generations && id !in nextEligibleAt
        && id !in claims && id !in routes && id !in attempts
    }

    ghost predicate Stores(id: DeliveryId, row: Row)
      reads this
    {
      && id in records && row.delivery == records[id]
      && id in generations && row.generation == generations[id]
      && id in nextEligibleAt && row.nextEligibleAt == nextEligibleAt[id]
      && row.claim == (if id in claims then Some(claims[id]) else None)
      && row.route == (if id in routes then Some(routes[id]) else None)
      && row.attempts == (if id in attempts then attempts[id] else [])
    }

    /** After the maps have been changed for one delivery: the ledger they now hold. */
    ghost method Commit(id: DeliveryId, next: Ledger)
      requires id in next.rows && Stores(id, next.rows[id])
      requires forall x :: x != id ==> Represented(x)
      requires next.rows == contents.rows[id := next.rows[id]]
      requires next.order == order && next.events == events && next.intakes == intakes && OrderValid(next)
      modifies this`contents
      ensures Valid() && contents == next
    {
      contents := next;
      forall x
        ensures Represented(x)
      {
        assert x != id ==> old(Represented(x));
      }
    }

    constructor ()
      ensures Valid() && contents == EMPTY
    {
      events, records, order, claims := map[], map[], [], map[];
      generations, routes, attempts := map[], map[], map[];
      nextEligibleAt, intakes := map[], map[];
      contents := EMPTY;
    }

    predicate Owns(id: DeliveryId, expected: Claim, now: Option<int>)
      reads this
    {
      && id in claims
      && claims[id].ownerId == expected.ownerId
      && claims[id].generation == expected.generation
      && (now.Some? ==> claims[id].leaseExpiresAtMillis > now.value)
    }

    method Put(delivery: Delivery)
      modifies this`records, this`order
      ensures records == old(records)[delivery.id := delivery]
      ensures order == if delivery.id in old(records) then old(order) else old(order) + [delivery.id]
    {
      if delivery.id !in records {
        order := order + [delivery.id];
      }
      records := records[delivery.id := delivery];
    }

    method Save(delivery: Delivery, now: int) returns (reply: Reply)
      requires Valid()
      modifies this
      ensures Valid() && (contents, reply) == Apply(old(contents), now, Operation.Save(delivery))
    {
      assert Represented(delivery.id);
      if delivery.id !in records {
        Put(delivery);
        generations := generations[delivery.id := 0];
        nextEligibleAt := nextEligibleAt[delivery.id := now];
        forall x | x != delivery.id ensures Represented(x) { assert old(Represented(x)); }
        Commit(delivery.id, contents.Insert(delivery.id, Row(delivery, None, 0, None, [], now)));
      }
      reply := Done;
    }

    method RecordAttempt(attempt: AttemptRecord, now: int) returns (reply: Reply)
      requires Valid()
      modifies this
      ensures Valid() && (contents, reply) == Apply(old(contents), now, Operation.RecordAttempt(attempt))
    {
      ghost var op := Operation.RecordAttempt(attempt);
      var id := attempt.deliveryId;
      assert Represented(id);
      var claim := Claim(attempt.workerId, attempt.claimGeneration, 0);
      if id !in records || !records[id].state.Pending? || !Owns(id, claim, Some(now)) {
        Refused(contents, now, op, ClaimLost(id, claim.Fence()));
        return Failed(ClaimLost(id, claim.Fence()));
      }
      var history := if id in attempts then attempts[id] else [];
      if exists i :: 0 <= i < |history| && history[i].ordinal == attempt.ordinal {
        Refused(contents, now, op, DuplicateOrdinal(attempt.ordinal));
        return Failed(DuplicateOrdinal(attempt.ordinal));
      }
      if attempt.decision.RetryScheduled? {
        Granted(contents, now, op);
        Reschedule(attempt, history, now);
        return Done;
      }
      var terminal := Policy.TerminalState(attempt);
      if terminal.None? {
        Refused(contents, now, op, NoTerminalState);
        return Failed(NoTerminalState);
      }
      Granted(contents, now, op);
      Conclude(attempt, history, terminal.value, now);
      reply := Done;
    }

    /** The branch of RecordAttempt for a scheduled retry. */
    method Reschedule(attempt: AttemptRecord, history: seq<AttemptRecord>, now: int)
      requires Valid() && attempt.deliveryId in contents.rows && attempt.decision.RetryScheduled?
      requires history == contents.rows[attempt.deliveryId].attempts
      modifies this
      ensures Valid()
      ensures contents == old(contents).With(attempt.deliveryId,
                            After(old(contents).rows[attempt.deliveryId], Recorded(now, attempt)))
    {
      var id := attempt.deliveryId;
      assert Represented(id);
      attempts := attempts[id := history + [attempt]];
      nextEligibleAt := nextEligibleAt[id := attempt.completedAtMillis + attempt.retryDelayMillis.GetOr(0)];
      forall x | x != id ensures Represented(x) { assert old(Represented(x)); }
      Commit(id, contents.With(id, After(contents.rows[id], Recorded(now, attempt))));
    }

    /** The branch of RecordAttempt for a last attempt: history, state and claim change together. */
    method Conclude(attempt: AttemptRecord, history: seq<AttemptRecord>, terminal: DeliveryState, now: int)
      requires Valid() && attempt.deliveryId in contents.rows && attempt.Closes()
      requires history == contents.rows[attempt.deliveryId].attempts && Policy.TerminalState(attempt) == Some(terminal)
      modifies this
      ensures Valid()
      ensures contents == old(contents).With(attempt.deliveryId,
                            After(old(contents).rows[attempt.deliveryId], Recorded(now, attempt)))
    {
      var id := attempt.deliveryId;
      assert Represented(id);
      attempts := attempts[id := history + [attempt]];
      records := records[id := records[id].(state := terminal)];
      claims := claims - {id};
      forall x | x != id ensures Represented(x) { assert old(Represented(x)); }
      Commit(id, contents.With(id, After(contents.rows[id], Recorded(now, attempt))));
    }

    method RetryDeadLetter(id: DeliveryId, now: int) returns (reply: Reply)
      requires Valid()
      modifies this
      ensures Valid() && (contents, reply) == Apply(old(contents), now, Retry(id))
    {
      assert Represented(id);
      if id !in records {
        return Failed(NotFound);
      }
      if !records[id].state.DeadLettered? {
        return Failed(NotDeadLettered);
      }
      Granted(contents, now, Retry(id));
      records := records[id := records[id].(state := Pending)];
      claims := claims - {id};
      nextEligibleAt := nextEligibleAt[id := now];
      forall x | x != id ensures Represented(x) { assert old(Represented(x)); }
      Commit(id, contents.With(id, After(contents.rows[id], Retried(now))));
      reply := Done;
    }

    method RepairDeadLetter(id: DeliveryId, route: Route, now: int) returns (reply: Reply)
      requires Valid()
      modifies this
      ensures Valid() && (contents, reply) == Apply(old(contents), now, Repair(id, route))
    {
      assert Represented(id);
      if id !in records {
        Refused(contents, now, Repair(id, route), NotFound);
        return Failed(NotFound);
      }
      if !records[id].state.DeadLettered? {
        Refused(contents, now, Repair(id, route), NotDeadLettered);
        return Failed(NotDeadLettered);
      }
      if records[id].destinationId != route.destinationId {
        return Failed(DestinationMismatch(records[id].destinationId, route.destinationId));
      }
      Granted(contents, now, Repair(id, route));
      records := records[id := records[id].(state := Pending)];
      routes := routes[id := route];
      claims := claims - {id};
      nextEligibleAt := nextEligibleAt[id := now];
      forall x | x != id ensures Represented(x) { assert old(Represented(x)); }
      Commit(id, contents.With(id, After(contents.rows[id], Repaired(now, route))));
      reply := Done;
    }

    method TerminateDeadLetter(id: DeliveryId, now: int) returns (reply: Reply)
      requires Valid()
      modifies this
      ensures Valid() && (contents, reply) == Apply(old(contents), now, Terminate(id))
    {
      assert Represented(id);
      if id !in records {
        return Failed(NotFound);
      }
      if !records[id].state.DeadLettered? {
        return Failed(NotDeadLettered);
      }
      records := records[id := records[id].(state := Terminated)];
      claims := claims - {id};
      forall x | x != id ensures Represented(x) { assert old(Represented(x)); }
      Commit(id, contents.With(id, After(contents.rows[id], Ended)));
      reply := Done;
    }

    method RenewClaim(id: DeliveryId, claim: Claim, lease: int, now: int) returns (reply: Reply)
      requires Valid()
      modifies this
      ensures Valid() && (contents, reply) == Apply(old(contents), now, Renew(id, claim, lease))
      ensures reply.Extended? ==> id in claims && reply.claim == claims[id]
    {
      assert Represented(id);
      if !Owns(id, claim, Some(now)) {
        return Failed(ClaimLost(id, claim.Fence()));
      }
      var renewed := claim.(leaseExpiresAtMillis := now + lease);
      claims := claims[id := renewed];
      forall x | x != id ensures Represented(x) { assert old(Represented(x)); }
      Commit(id, contents.With(id, After(contents.rows[id], Renewed(claim.Fence(), now, lease))));
      reply := Extended(renewed);
    }

    method CompleteClaim(id: DeliveryId, claim: Claim, result: DeliveryResult, now: int) returns (reply: Reply)
      requires Valid()
      modifies this
      ensures Valid() && (contents, reply) == Apply(old(contents), now, Complete(id, claim, result))
    {
      assert Represented(id);
      if id !in records || !records[id].state.Pending? || !Owns(id, claim, Some(now)) {
        return Failed(ClaimLost(id, claim.Fence()));
      }
      Granted(contents, now, Complete(id, claim, result));
      records := records[id := records[id].(state := Policy.StateFromResult(result))];
      claims := claims - {id};
      forall x | x != id ensures Represented(x) { assert old(Represented(x)); }
      Commit(id, contents.With(id, After(contents.rows[id], Completed(claim.Fence(), now, result))));
      reply := Done;
    }

    method ReleaseClaim(id: DeliveryId, claim: Claim, now: int) returns (reply: Reply)
      requires Valid()
      modifies this
      ensures Valid() && (contents, reply) == Apply(old(contents), now, Release(id, claim))
    {
      assert Represented(id);
      if id !in records || !records[id].state.Pending? || !Owns(id, claim, None) {
        return Failed(ClaimLost(id, claim.Fence()));
      }
      claims := claims - {id};
      forall x | x != id ensures Represented(x) { assert old(Represented(x)); }
      Commit(id, contents.With(id, After(contents.rows[id], Released(claim.Fence()))));
      reply := Done;
    }

    method Accept(record: IntakeRecord, now: int) returns (reply: Reply)
      requires Valid()
      modifies this
      ensures Valid()
              && (contents, reply) == Apply(old(contents), now, Operation.Accept(record, record.acceptedAtMillis))
    {
      if record.ingestionKey in intakes {
        var existing := intakes[record.ingestionKey];
        if existing.fingerprint != record.fingerprint {
          return Failed(IngestionConflict(record.ingestionKey, existing.decision.event.id));
        }
        return Replayed(existing.decision);
      }
      reply := AcceptFirst(record, now);
    }

    /** The branch of Accept for a new key. */
    method AcceptFirst(record: IntakeRecord, now: int) returns (reply: Reply)
      requires Valid() && record.ingestionKey !in intakes
      modifies this
      ensures Valid()
      ensures (contents, reply) == ApplyAccept(old(contents), now, record, record.acceptedAtMillis)
    {
      assert Represented(record.deliveryId);
      var delivery := Delivery(record.deliveryId, record.event.id, record.route.destinationId, Pending);
      var decision := IntakeFields(record.event, delivery, record.route, record.acceptedAtMillis);
      var claim := Claim(record.claim.ownerId, 1, now + record.claim.leaseDurationMillis);
      events := events[record.event.id := record.event];
      Put(delivery);
      routes := routes[delivery.id := record.route];
      generations := generations[delivery.id := 1];
      claims := claims[delivery.id := claim];
      nextEligibleAt := nextEligibleAt[delivery.id := record.acceptedAtMillis];
      intakes := intakes[record.ingestionKey := Intake(record.fingerprint, decision)];
      forall x | x != delivery.id ensures Represented(x) { assert old(Represented(x)); }
      Commit(record.deliveryId, ApplyAccept(contents, now, record, record.acceptedAtMillis).0);
      reply := Accepted(decision, claim);
    }

    method SavePending(event: RelayEvent, id: DeliveryId, destinationId: DestinationId, request: ClaimRequest, now: int)
      returns (reply: Reply)
      requires Valid()
      modifies this
      ensures Valid() && (contents, reply) ==
                         Apply(old(contents), now, Operation.SavePending(event, id, destinationId, request))
    {
      assert Represented(id);
      var delivery := Delivery(id, event.id, destinationId, Pending);
      events := events[event.id := event];
      Put(delivery);
      nextEligibleAt := nextEligibleAt[delivery.id := now];
      var claim := Claim(request.ownerId, 1, now + request.leaseDurationMillis);
      generations := generations[delivery.id := 1];
      claims := claims[delivery.id := claim];
      forall x | x != delivery.id ensures Represented(x) { assert old(Represented(x)); }
      Commit(id, Apply(contents, now, Operation.SavePending(event, id, destinationId, request)).0);
      reply := Saved(ClaimedDelivery(claim, 0, delivery, event, 1, None));
    }

    /** The tests of the claim loop on one delivery, apart from the limit. */
    predicate Free(id: DeliveryId, destinationId: DestinationId, now: int)
      requires Valid() && id in contents.rows
      reads this
      ensures Free(id, destinationId, now) <==> contents.Eligible(id, destinationId, now)
    {
      assert Represented(id);
      && records[id].state.Pending?
      && records[id].destinationId == destinationId
      && nextEligibleAt[id] <= now
      && (id in claims ==> claims[id].leaseExpiresAtMillis <= now)
      && records[id].eventId in events
    }

    /** One iteration of the claim loop that passed every test: the next generation, a new lease. */
    method Take(id: DeliveryId, ownerId: WorkerId, lease: int, now: int) returns (entry: ClaimedDelivery)
      requires Valid() && id in contents.rows && contents.rows[id].delivery.eventId in contents.events
      modifies this`claims, this`generations, this`contents
      ensures Valid() && contents == old(contents).With(id, After(old(contents).rows[id], Claimed(ownerId, now, lease)))
      ensures entry == ClaimedEntry(old(contents), now, ownerId, lease, id)
    {
      assert Represented(id);
      var generation := generations[id] + 1;
      var claim := Claim(ownerId, generation, now + lease);
      generations := generations[id := generation];
      claims := claims[id := claim];
      var eligibleAt := nextEligibleAt[id];
      var history := if id in attempts then attempts[id] else [];
      var route := if id in routes then Some(routes[id]) else None;
      entry := ClaimedDelivery(
        claim, if now - eligibleAt > 0 then now - eligibleAt else 0,
        records[id], events[records[id].eventId], NextOrdinal(history), route);
      forall x | x != id ensures Represented(x) { assert old(Represented(x)); }
      Commit(id, contents.With(id, After(contents.rows[id], Claimed(ownerId, now, lease))));
    }

    /** One pass over the records in insertion order, claiming in place until the limit is reached. */
    method ClaimPending(ownerId: WorkerId, destinationId: DestinationId, limit: int, lease: int, now: int)
      returns (claimed: seq<ClaimedDelivery>)
      requires Valid()
      modifies this`claims, this`generations, this`contents
      ensures Valid()
      // Together these are Apply's case for ClaimPending with the memory adapter's own choice.
      ensures var chosen := Selected(old(contents), destinationId, limit, now);
              && Offered(old(contents), now, Operation.ClaimPending(ownerId, destinationId, limit, lease, chosen))
              && contents == Claiming(old(contents), now, ownerId, lease, chosen)
              && claimed == ClaimedEntries(old(contents), now, ownerId, lease, chosen)
    {
      ghost var before := contents;
      SelectionIsOffered(before, ownerId, destinationId, limit, lease, now);
      claimed := [];
      ghost var chosen: seq<DeliveryId> := [];
      assert contents.rows == Claiming(before, now, ownerId, lease, chosen).rows;
      for i := 0 to |order|
        invariant Valid() && contents.order == before.order && contents.events == before.events
        invariant chosen == First(Waiting(before, order[..i], destinationId, now), limit)
        invariant Claimants(before, chosen)
        invariant contents == Claiming(before, now, ownerId, lease, chosen)
        invariant claimed == ClaimedEntries(before, now, ownerId, lease, chosen)
      {
        var id := order[i];
        SelectionStep(before, i, destinationId, limit, now);
        assert contents.rows[id] == before.rows[id];
        if |claimed| < limit && Free(id, destinationId, now) {
          ClaimingOneMore(before, contents, now, ownerId, lease, chosen, id);
          var entry := Take(id, ownerId, lease, now);
          claimed, chosen := claimed + [entry], chosen + [id];
        }
      }
      assert order[..|order|] == order;
    }
  }

  /** How the selection grows with one more record scanned. */
  lemma SelectionStep(l: Ledger, i: nat, destination: DestinationId, limit: int, now: int)
    requires OrderValid(l) && i < |l.order|
    ensures var chosen := First(Waiting(l, l.order[..i], destination, now), limit);
            && l.order[i] !in chosen
            && First(Waiting(l, l.order[..i + 1], destination, now), limit) ==
               if |chosen| < limit && l.Eligible(l.order[i], destination, now) then chosen + [l.order[i]] else chosen
  {
    WaitingAreEligible(l, l.order[..i], destination, now);
    assert l.order[i] !in l.order[..i];
    assert l.order[..i + 1][..i] == l.order[..i];
  }

  ghost predicate Claimants(l: Ledger, chosen: seq<DeliveryId>) {
    forall id :: id in chosen ==> id in l.rows && l.rows[id].delivery.eventId in l.events
  }

  /** Claiming one more delivery rewrites one more row and hands out one more entry. */
  lemma ClaimingOneMore(
    l: Ledger, current: Ledger, now: int, ownerId: WorkerId, lease: int, chosen: seq<DeliveryId>, id: DeliveryId)
    requires Claimants(l, chosen) && Claimants(l, [id]) && id !in chosen
    requires current == Claiming(l, now, ownerId, lease, chosen)
    ensures Claimants(l, chosen + [id])
    ensures current.rows[id] == l.rows[id]
    ensures Claiming(l, now, ownerId, lease, chosen + [id]) ==
            current.With(id, After(current.rows[id], Claimed(ownerId, now, lease)))
    ensures ClaimedEntries(l, now, ownerId, lease, chosen + [id]) ==
            ClaimedEntries(l, now, ownerId, lease, chosen) + [ClaimedEntry(current, now, ownerId, lease, id)]
  {
    assert Claiming(l, now, ownerId, lease, chosen + [id]).rows ==
           current.rows[id := After(l.rows[id], Claimed(ownerId, now, lease))];
  }
}

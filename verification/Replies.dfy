/**
 What the store hands out is what it holds: the claim, route, history and event in a reply are those of the row
 after the call. Said of every run, and of the tables as their rows are decoded. And what it holds it handed out:
 every claim has its bearer.
 */
module Replies {
  import opened Domain
  import opened Ledger
  import opened Runs
  import opened Stories
  import opened Tables
  import DeliveryWorker
  import Fleet
  import History
  import Simulation
  import Supervisor

  /** The claimed delivery is the row, with the claim it now has. */
  ghost predicate Holds(l: Ledger, claimed: ClaimedDelivery) {
    var id := claimed.delivery.id;
    && id in l.rows
    && l.rows[id].delivery == claimed.delivery
    && l.rows[id].claim == Some(claimed.claim)
    && l.rows[id].route == claimed.route
    && claimed.nextAttemptOrdinal == NextOrdinal(l.rows[id].attempts)
    && claimed.delivery.eventId in l.events && l.events[claimed.delivery.eventId] == claimed.event
  }

  /** Who asked for the claim that a call gives, and for how long. */
  function Asked(op: Operation): Option<ClaimRequest> {
    match op
    case Accept(record, _) => Some(record.claim)
    case SavePending(_, _, _, request) => Some(request)
    case ClaimPending(ownerId, _, _, lease, _) => Some(ClaimRequest(ownerId, lease))
    case _ => None
  }

  lemma BatchesAreHeld(l: Ledger, now: int, op: Operation, claimed: ClaimedDelivery)
    requires Valid(l) && Lawful(l, now, op) && op.ClaimPending? && claimed in Fleet.HandedBy(Apply(l, now, op).1)
    ensures Holds(Apply(l, now, op).0, claimed)
    ensures claimed.claim.ownerId == op.ownerId && claimed.claim.leaseExpiresAtMillis == now + op.lease
    ensures claimed.claimLagMillis == now - Apply(l, now, op).0.rows[claimed.delivery.id].nextEligibleAt >= 0
  {
    Fleet.HandedIsChosen(l, now, op, claimed);
    StepsAreChanges(l, now, op, claimed.delivery.id);
  }

  lemma IntakesAreHeld(l: Ledger, now: int, op: Operation, claimed: ClaimedDelivery)
    requires Valid(l) && Lawful(l, now, op) && !op.ClaimPending? && claimed in Fleet.HandedBy(Apply(l, now, op).1)
    ensures Asked(op).Some? && Holds(Apply(l, now, op).0, claimed)
    ensures claimed.claim == Claim(Asked(op).value.ownerId, 1, now + Asked(op).value.leaseDurationMillis)
    ensures claimed.claimLagMillis == 0
  {
  }

  /** Every claimed delivery that a call hands out is in the store as it was handed out, claimed as was asked. */
  lemma HandedClaimsAreHeld(run: Run, claimed: ClaimedDelivery)
    requires Legal(run) && run.Then? && claimed in Fleet.HandedBy(LastReply(run))
    ensures Holds(Final(run), claimed) && Asked(run.op).Some?
    ensures claimed.claim.ownerId == Asked(run.op).value.ownerId
    ensures claimed.claim.leaseExpiresAtMillis == run.at + Asked(run.op).value.leaseDurationMillis
    ensures claimed.claimLagMillis ==
            if run.op.ClaimPending? then run.at - Final(run).rows[claimed.delivery.id].nextEligibleAt else 0
  {
    FinalIsValid(run.before);
    if run.op.ClaimPending? {
      BatchesAreHeld(Final(run.before), run.at, run.op, claimed);
    } else {
      IntakesAreHeld(Final(run.before), run.at, run.op, claimed);
    }
  }

  /** The claim in the answer to a renewal is the claim of the row, with the caller's token and the lease asked for. */
  lemma RenewedClaimsAreHeld(run: Run)
    requires Legal(run) && run.Then? && LastReply(run).Extended?
    ensures run.op.Renew? && run.op.id in Final(run).rows
    ensures Final(run).rows[run.op.id].claim == Some(LastReply(run).claim)
    ensures LastReply(run).claim.Fence() == run.op.claim.Fence()
    ensures LastReply(run).claim.leaseExpiresAtMillis == run.at + run.op.lease
  {
    var l := Final(run.before);
    AcceptedExactlyWhenEnabled(l, run.at, run.op);
    Granted(l, run.at, run.op);
  }

  /** Of claims, the tables hand out exactly what the ledger does. */
  lemma TablesHandOutAlike(run: Run)
    requires Simulation.SqlLegal(run) && Start(run) == EMPTY && run.Then?
    ensures Legal(run)
    ensures var reply := Execute(Simulation.SqlFinal(run.before), run.at, run.op).1;
            && Fleet.HandedBy(reply) == Fleet.HandedBy(LastReply(run))
            && (reply.Extended? ==> reply == LastReply(run))
  {
    Simulation.SqlRunsAreLedgerRuns(run);
    Simulation.SqlRunsAreLedgerRuns(run.before);
    if run.op.Accept? {
      Simulation.KeysAgree(Final(run.before), Simulation.SqlFinal(run.before), run.op.record.ingestionKey);
    }
  }

  lemma ClaimColumnsDecode(row: Row, d: DeliveryRow)
    requires Simulation.RowRelated(row, d) && row.Valid()
    ensures DecodeClaim(d) == row.claim && DecodeRoute(d) == row.route
  {
  }

  /** The claim columns of a table row after a run are the claim in the ledger. */
  lemma TablesHoldAlike(run: Run, id: DeliveryId)
    requires Simulation.SqlLegal(run) && Start(run) == EMPTY && Legal(run) && id in Final(run).rows
    ensures id in Simulation.SqlFinal(run).deliveries
    ensures DecodeClaim(Simulation.SqlFinal(run).deliveries[id]) == Final(run).rows[id].claim
    ensures DecodeRoute(Simulation.SqlFinal(run).deliveries[id]) == Final(run).rows[id].route
  {
    Simulation.SqlRunsAreLedgerRuns(run);
    FinalIsValid(run);
    assert Simulation.DeliveryRelated(Final(run), Simulation.SqlFinal(run), id);
    ClaimColumnsDecode(Final(run).rows[id], Simulation.SqlFinal(run).deliveries[id]);
  }

  /** The tables: whatever claim is in a reply is what the claim columns of the row decode to, and so is the route. */
  lemma TableRepliesAreHeld(run: Run, claimed: ClaimedDelivery)
    requires Simulation.SqlLegal(run) && Start(run) == EMPTY && run.Then?
    ensures var reply := Execute(Simulation.SqlFinal(run.before), run.at, run.op).1;
            var rows := Simulation.SqlFinal(run).deliveries;
            && (reply.Extended? ==>
                  run.op.Renew? && run.op.id in rows && DecodeClaim(rows[run.op.id]) == Some(reply.claim))
            && (claimed in Fleet.HandedBy(reply) ==>
                  && claimed.delivery.id in rows
                  && DecodeClaim(rows[claimed.delivery.id]) == Some(claimed.claim)
                  && DecodeRoute(rows[claimed.delivery.id]) == claimed.route)
  {
    TablesHandOutAlike(run);
    if LastReply(run).Extended? {
      RenewedClaimsAreHeld(run);
      TablesHoldAlike(run, run.op.id);
    }
    if claimed in Fleet.HandedBy(LastReply(run)) {
      HandedClaimsAreHeld(run, claimed);
      TablesHoldAlike(run, claimed.delivery.id);
    }
  }

  /** A worker whose renewal succeeds holds from then on the claim that the store holds; otherwise it keeps its own. */
  lemma WorkersHoldWhatTheyHeard(run: Run, worker: DeliveryWorker.Worker, turn: DeliveryWorker.Turn)
    requires Legal(run) && DeliveryWorker.Ready(run, worker, turn) && (turn.FirstRenewal? || turn.Beat?)
    ensures var (after, next) := DeliveryWorker.Taken(run, worker, turn);
            && Legal(after)
            && if DeliveryWorker.Called(run, turn.now, Renew(worker.id, worker.claim, turn.lease), turn.wire).1
               then worker.id in Final(after).rows && Final(after).rows[worker.id].claim == Some(next.claim)
               else next.claim == worker.claim
  {
    var op := Renew(worker.id, worker.claim, turn.lease);
    if DeliveryWorker.Called(run, turn.now, op, turn.wire).1 {
      RenewedClaimsAreHeld(Then(run, turn.now, op));
    }
  }

  // ---- Bearers ----------------------------------------------------------------------------

  /** The claimed delivery was handed out with this claim. */
  predicate Hands(reply: Reply, id: DeliveryId, claim: Claim) {
    exists claimed :: claimed in Fleet.HandedBy(reply) && claimed.delivery.id == id && claimed.claim == claim
  }

  lemma ChosenAreHandedOut(l: Ledger, now: int, op: Operation, id: DeliveryId)
    requires Valid(l) && Lawful(l, now, op) && op.ClaimPending? && id in op.chosen
    ensures Hands(Apply(l, now, op).1, id, ClaimedEntry(l, now, op.ownerId, op.lease, id).claim)
  {
    var i :| 0 <= i < |op.chosen| && op.chosen[i] == id;
    var entry := ClaimedEntries(l, now, op.ownerId, op.lease, op.chosen)[i];
    assert entry == ClaimedEntry(l, now, op.ownerId, op.lease, id);
    assert entry in Fleet.HandedBy(Apply(l, now, op).1);
  }

  lemma EnteringClaimsAreHandedOut(l: Ledger, now: int, op: Operation, id: DeliveryId)
    requires Valid(l) && Lawful(l, now, op) && id !in l.rows
    requires id in Apply(l, now, op).0.rows && Apply(l, now, op).0.rows[id].claim.Some?
    ensures Hands(Apply(l, now, op).1, id, Apply(l, now, op).0.rows[id].claim.value)
  {
    NewRows(l, now, op, id);
    var (after, reply) := Apply(l, now, op);
    var handed :=
      if reply.Saved? then reply.claimed
      else
        ClaimedDelivery(reply.claim, 0, reply.decision.delivery, reply.decision.event, 1, Some(reply.decision.route));
    assert handed in Fleet.HandedBy(reply) && handed.delivery.id == id && handed.claim == after.rows[id].claim.value;
  }

  /** A claim that a call leaves in the store bears the token that was there before, or is handed out in the reply. */
  lemma NewClaimsAreHandedOut(l: Ledger, now: int, op: Operation, id: DeliveryId)
    requires Valid(l) && Lawful(l, now, op)
    requires id in Apply(l, now, op).0.rows && Apply(l, now, op).0.rows[id].claim.Some?
    ensures var claim := Apply(l, now, op).0.rows[id].claim.value;
            || (id in l.rows && l.rows[id].claim.Some? && l.rows[id].claim.value.Fence() == claim.Fence())
            || Hands(Apply(l, now, op).1, id, claim)
  {
    if id in l.rows {
      StepsAreChanges(l, now, op, id);
      if op.ClaimPending? && id in op.chosen {
        ChosenAreHandedOut(l, now, op, id);
      }
    } else {
      EnteringClaimsAreHandedOut(l, now, op, id);
    }
  }

  /** A worker bears the token, or it was handed out and nobody has taken it up yet. */
  ghost predicate Borne(
    handed: set<ClaimedDelivery>, workers: map<nat, DeliveryWorker.Worker>, bearer: Fleet.Bearer)
  {
    || (exists claimed :: claimed in handed && Fleet.Grantee(claimed) == bearer)
    || (exists k :: k in workers && Fleet.Holder(workers[k]) == bearer)
  }

  /** Whoever the store says has claimed the delivery is there. */
  ghost predicate ClaimIsBorne(
    l: Ledger, handed: set<ClaimedDelivery>, workers: map<nat, DeliveryWorker.Worker>, id: DeliveryId)
  {
    id in l.rows && l.rows[id].claim.Some? ==>
      Borne(handed, workers, Fleet.Bearer(id, l.rows[id].claim.value.Fence()))
  }

  lemma StepKeepsBorne(
    l: Ledger, now: int, op: Operation, handed: set<ClaimedDelivery>, workers: map<nat, DeliveryWorker.Worker>,
    id: DeliveryId)
    requires Valid(l) && Lawful(l, now, op) && ClaimIsBorne(l, handed, workers, id)
    ensures ClaimIsBorne(Apply(l, now, op).0, handed + Fleet.HandedBy(Apply(l, now, op).1), workers, id)
  {
    var (after, reply) := Apply(l, now, op);
    if id in after.rows && after.rows[id].claim.Some? {
      NewClaimsAreHandedOut(l, now, op, id);
      var claim := after.rows[id].claim.value;
      if Hands(reply, id, claim) {
        var claimed :| claimed in Fleet.HandedBy(reply) && claimed.delivery.id == id && claimed.claim == claim;
        assert claimed in handed + Fleet.HandedBy(reply) && Fleet.Grantee(claimed) == Fleet.Bearer(id, claim.Fence());
      } else {
        BorneByMore(handed, Fleet.HandedBy(reply), workers, Fleet.Bearer(id, claim.Fence()));
      }
    }
  }

  lemma BorneByMore(
    handed: set<ClaimedDelivery>, more: set<ClaimedDelivery>, workers: map<nat, DeliveryWorker.Worker>,
    bearer: Fleet.Bearer)
    requires Borne(handed, workers, bearer)
    ensures Borne(handed + more, workers, bearer)
  {
    if claimed :| claimed in handed && Fleet.Grantee(claimed) == bearer {
      assert claimed in handed + more;
    }
  }

  lemma BorneAfterTurn(
    handed: set<ClaimedDelivery>, workers: map<nat, DeliveryWorker.Worker>, k: nat, next: DeliveryWorker.Worker,
    bearer: Fleet.Bearer)
    requires Borne(handed, workers, bearer) && k in workers && Fleet.Holder(next) == Fleet.Holder(workers[k])
    ensures Borne(handed, workers[k := next], bearer)
  {
    if j :| j in workers && Fleet.Holder(workers[j]) == bearer {
      assert Fleet.Holder(workers[k := next][j]) == bearer;
    }
  }

  lemma BorneAfterBeginning(
    handed: set<ClaimedDelivery>, workers: map<nat, DeliveryWorker.Worker>, k: nat, claimed: ClaimedDelivery,
    script: DeliveryWorker.Script, bearer: Fleet.Bearer)
    requires Borne(handed, workers, bearer) && k !in workers
    ensures Borne(handed - {claimed}, workers[k := Fleet.Hired(claimed, script)], bearer)
  {
    var after := workers[k := Fleet.Hired(claimed, script)];
    if j :| j in workers && Fleet.Holder(workers[j]) == bearer {
      assert Fleet.Holder(after[j]) == bearer;
    } else {
      var other :| other in handed && Fleet.Grantee(other) == bearer;
      assert other == claimed ==> Fleet.Holder(after[k]) == bearer;
      assert other != claimed ==> other in handed - {claimed};
    }
  }

  lemma WorkersAreHandedNothing(l: Ledger, now: int, op: Operation)
    requires Lawful(l, now, op) && (op.Renew? || op.RecordAttempt? || op.Release?)
    ensures Fleet.HandedBy(Apply(l, now, op).1) == {}
  {
  }

  lemma TurnKeepsBorne(
    run: Run, handed: set<ClaimedDelivery>, workers: map<nat, DeliveryWorker.Worker>, k: nat,
    turn: DeliveryWorker.Turn, id: DeliveryId)
    requires Legal(run) && k in workers && DeliveryWorker.Ready(run, workers[k], turn)
    requires ClaimIsBorne(Final(run), handed, workers, id)
    ensures var (after, next) := DeliveryWorker.Taken(run, workers[k], turn);
            Legal(after) && ClaimIsBorne(Final(after), handed, workers[k := next], id)
  {
    var (after, next) := DeliveryWorker.Taken(run, workers[k], turn);
    Fleet.TurnIsAStep(run, workers[k], turn);
    FinalIsValid(run);
    if after != run {
      var op := DeliveryWorker.Call(workers[k], turn).value;
      WorkersAreHandedNothing(Final(run), turn.At(), op);
      StepKeepsBorne(Final(run), turn.At(), op, handed, workers, id);
      assert handed + {} == handed;
    }
    if id in Final(after).rows && Final(after).rows[id].claim.Some? {
      BorneAfterTurn(handed, workers, k, next, Fleet.Bearer(id, Final(after).rows[id].claim.value.Fence()));
    }
  }

  /**
   In every story each claim in the store is borne by a worker, or by a claimed delivery that was handed out and
   still waits for one. No claim is lost on its way.
   */
  lemma {:induction false} EveryClaimHasABearer(story: Story<Fleet.World, Fleet.Move>, id: DeliveryId)
    requires Fleet.Told(story)
    ensures Legal(Fleet.Now(story).run)
    ensures ClaimIsBorne(Final(Fleet.Now(story).run), Fleet.Now(story).handed, Fleet.Now(story).workers, id)
  {
    Fleet.StoriesAreOrderly(story);
    match story
    case Opening(_) =>
    case Followed(before, move) =>
      EveryClaimHasABearer(before, id);
      var w := Fleet.Now(before);
      match move
      case Others(now, op) =>
        FinalIsValid(w.run);
        StepKeepsBorne(Final(w.run), now, op, w.handed, w.workers, id);
      case Begin(k, claimed, script) =>
        if id in Final(w.run).rows && Final(w.run).rows[id].claim.Some? {
          var bearer := Fleet.Bearer(id, Final(w.run).rows[id].claim.value.Fence());
          BorneAfterBeginning(w.handed, w.workers, k, claimed, script, bearer);
        }
      case By(k, turn) => TurnKeepsBorne(w.run, w.handed, w.workers, k, turn, id);
  }

  // ---- Routes -----------------------------------------------------------------------------

  /** A route leads to the destination of its delivery. */
  predicate Led(row: Row) { row.route.Some? ==> row.route.value.destinationId == row.delivery.destinationId }

  lemma {:induction false} RoutesLeadToTheDestination(run: Run, id: DeliveryId)
    requires Legal(run) && Start(run) == EMPTY && id in Final(run).rows
    ensures Led(Final(run).rows[id])
  {
    match run
    case Begin(_) =>
    case Then(before, at, op) =>
      if id in Final(before).rows {
        RoutesLeadToTheDestination(before, id);
        FinalIsValid(before);
        StepsAreChanges(Final(before), at, op, id);
      } else {
        NewRows(Final(before), at, op, id);
      }
  }

  /** So a claimed delivery is sent where it belongs: the configured destination is only for those without a route. */
  lemma ClaimsGoToTheirDestination(run: Run, claimed: ClaimedDelivery, configured: DestinationId)
    requires Legal(run) && Start(run) == EMPTY && run.Then? && claimed in Fleet.HandedBy(LastReply(run))
    ensures Supervisor.DestinationFor(claimed, configured) ==
            if claimed.route.Some? then claimed.delivery.destinationId else configured
  {
    HandedClaimsAreHeld(run, claimed);
    RoutesLeadToTheDestination(run, claimed.delivery.id);
  }
}

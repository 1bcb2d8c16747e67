/**
 Two clocks at acceptance. The memory adapter stores the caller's acceptance time as the due time of a new
 delivery, the SQL adapter its database clock. Nothing orders the two: the caller is another machine. What
 the adapters do with the same calls is the same, up to the reported lag, exactly as long as no acceptance
 time is ahead of the clock of the store; behind it they differ until that time has come.
 */
module Clocks {
  import opened Domain
  import opened Ledger
  import opened Runs
  import opened Tables
  import Leases
  import Simulation

  // ---- Stores that differ in past due times only ------------------------------------------

  /** Equal rows, except that both may be due already since different times. */
  predicate RowAlike(a: Row, b: Row, now: int) {
    && a == b.(nextEligibleAt := a.nextEligibleAt)
    && (a.nextEligibleAt == b.nextEligibleAt || (a.nextEligibleAt <= now && b.nextEligibleAt <= now))
  }

  ghost predicate Alike(a: Ledger, b: Ledger, now: int) {
    && a.order == b.order && a.events == b.events && a.intakes == b.intakes
    && forall id :: (id in a.rows <==> id in b.rows) && (id in a.rows ==> RowAlike(a.rows[id], b.rows[id], now))
  }

  lemma TimePasses(a: Ledger, b: Ledger, now: int, later: int)
    requires Alike(a, b, now) && now <= later
    ensures Alike(a, b, later)
  {
  }

  /** The same claimed delivery, whatever the reported lag. */
  predicate SameClaimed(a: ClaimedDelivery, b: ClaimedDelivery) {
    a.(claimLagMillis := 0) == b.(claimLagMillis := 0)
  }

  predicate SameButLag(a: Reply, b: Reply) {
    if a.Batch? then
      b.Batch? && |a.batch| == |b.batch| && forall i :: 0 <= i < |a.batch| ==> SameClaimed(a.batch[i], b.batch[i])
    else a == b
  }

  /** The same call, whatever due time the store gives to an acceptance. */
  predicate SameCall(op: Operation, other: Operation) {
    op == other || (op.Accept? && other.Accept? && op.record == other.record)
  }

  /** A call that creates a delivery does so on either side with a due time that is not ahead of the clock. */
  predicate NotAhead(l: Ledger, now: int, op: Operation, other: Operation) {
    op.Accept? && other.Accept? && op.record.ingestionKey !in l.intakes ==> op.dueAt <= now && other.dueAt <= now
  }

  /** A change asks for nothing that alike rows differ in, and leaves them alike. */
  lemma ChangesStayAlike(a: Row, b: Row, now: int, op: Operation)
    requires RowAlike(a, b, now) && op.Targeted()
    ensures Enabled(a, op.Change(now)) <==> Enabled(b, op.Change(now))
    ensures RowAlike(After(a, op.Change(now)), After(b, op.Change(now)), now)
  {
    assert a.attempts == b.attempts && a.claim == b.claim && a.delivery == b.delivery;
  }

  lemma RefusalsAlike(a: Ledger, b: Ledger, now: int, op: Operation)
    requires Alike(a, b, now) && op.Targeted()
    ensures Refusal(a, now, op) == Refusal(b, now, op)
  {
    var id := op.Subject();
    assert id in a.rows ==> RowAlike(a.rows[id], b.rows[id], now);
  }

  lemma TargetedStaysAlike(a: Ledger, b: Ledger, now: int, op: Operation)
    requires Alike(a, b, now) && op.Targeted()
    ensures Alike(Apply(a, now, op).0, Apply(b, now, op).0, now)
    ensures Apply(a, now, op).1 == Apply(b, now, op).1
  {
    var id := op.Subject();
    var refusal := Refusal(a, now, op);
    RefusalsAlike(a, b, now, op);
    if refusal.Some? {
      Refused(a, now, op, refusal.value);
      Refused(b, now, op, refusal.value);
    } else {
      Granted(a, now, op);
      Granted(b, now, op);
      AcceptedExactlyWhenEnabled(a, now, op);
      ChangesStayAlike(a.rows[id], b.rows[id], now, op);
    }
  }

  lemma EligibilityIsAlike(a: Ledger, b: Ledger, now: int, id: DeliveryId, destination: DestinationId)
    requires Alike(a, b, now)
    ensures a.Eligible(id, destination, now) <==> b.Eligible(id, destination, now)
  {
    assert id in a.rows ==> RowAlike(a.rows[id], b.rows[id], now);
  }

  lemma EntriesAreAlike(a: Ledger, b: Ledger, now: int, ownerId: WorkerId, lease: int, id: DeliveryId)
    requires Alike(a, b, now) && id in a.rows && a.rows[id].delivery.eventId in a.events
    ensures id in b.rows && b.rows[id].delivery.eventId in b.events
    ensures SameClaimed(ClaimedEntry(a, now, ownerId, lease, id), ClaimedEntry(b, now, ownerId, lease, id))
    ensures RowAlike(
              After(a.rows[id], Claimed(ownerId, now, lease)), After(b.rows[id], Claimed(ownerId, now, lease)), now)
  {
    assert RowAlike(a.rows[id], b.rows[id], now);
  }

  lemma ClaimsStayAlike(a: Ledger, b: Ledger, now: int, op: Operation)
    requires Alike(a, b, now) && op.ClaimPending? && Offered(a, now, op)
    ensures Offered(b, now, op)
    ensures Alike(Apply(a, now, op).0, Apply(b, now, op).0, now)
    ensures SameButLag(Apply(a, now, op).1, Apply(b, now, op).1)
  {
    forall id | id in op.chosen
      ensures b.Eligible(id, op.destination, now)
      ensures a.Eligible(id, op.destination, now) && b.rows[id].delivery.eventId in b.events
      ensures SameClaimed(
                ClaimedEntry(a, now, op.ownerId, op.lease, id), ClaimedEntry(b, now, op.ownerId, op.lease, id))
      ensures RowAlike(
                After(a.rows[id], Claimed(op.ownerId, now, op.lease)),
                After(b.rows[id], Claimed(op.ownerId, now, op.lease)), now)
    {
      EligibilityIsAlike(a, b, now, id, op.destination);
      EntriesAreAlike(a, b, now, op.ownerId, op.lease, id);
    }
  }

  lemma InsertsStayAlike(a: Ledger, b: Ledger, now: int, op: Operation, other: Operation)
    requires Alike(a, b, now) && Lawful(a, now, op) && (op.Accept? || op.SavePending? || op.Save?)
    requires SameCall(op, other) && NotAhead(a, now, op, other)
    ensures Lawful(b, now, other)
    ensures Alike(Apply(a, now, op).0, Apply(b, now, other).0, now)
    ensures Apply(a, now, op).1 == Apply(b, now, other).1
  {
  }

  /** The same lawful call keeps two stores alike, if it is not an acceptance ahead of the clock. */
  lemma StepStaysAlike(a: Ledger, b: Ledger, now: int, op: Operation, other: Operation)
    requires Alike(a, b, now) && Lawful(a, now, op)
    requires SameCall(op, other) && NotAhead(a, now, op, other)
    ensures Lawful(b, now, other)
    ensures Alike(Apply(a, now, op).0, Apply(b, now, other).0, now)
    ensures SameButLag(Apply(a, now, op).1, Apply(b, now, other).1)
  {
    if op.Targeted() {
      TargetedStaysAlike(a, b, now, op);
    } else if op.ClaimPending? {
      ClaimsStayAlike(a, b, now, op);
    } else {
      InsertsStayAlike(a, b, now, op, other);
    }
  }

  /** The lags in two batches are equal exactly when the due times are. */
  lemma LagsAgree(
    a: Ledger, b: Ledger, now: int, ownerId: WorkerId, lease: int, id: DeliveryId, destination: DestinationId)
    requires Valid(a) && Alike(a, b, now) && a.Eligible(id, destination, now)
    ensures id in b.rows && b.rows[id].delivery.eventId in b.events
    ensures ClaimedEntry(a, now, ownerId, lease, id) == ClaimedEntry(b, now, ownerId, lease, id) <==>
            a.rows[id].nextEligibleAt == b.rows[id].nextEligibleAt
  {
    EligibilityIsAlike(a, b, now, id, destination);
  }

  // ---- Exactly when an acceptance keeps them alike ----------------------------------------

  /** A first acceptance in memory and in the tables leaves the stores alike if and only if its time is not ahead. */
  lemma AlikeExactlyWhenNotAhead(a: Ledger, b: Ledger, now: int, record: IntakeRecord)
    requires Alike(a, b, now) && record.ingestionKey !in a.intakes
    ensures Alike(ApplyAccept(a, now, record, record.acceptedAtMillis).0, ApplyAccept(b, now, record, now).0, now)
            <==> record.acceptedAtMillis <= now
    ensures ApplyAccept(a, now, record, record.acceptedAtMillis).1 == ApplyAccept(b, now, record, now).1
  {
    var id := record.deliveryId;
    var a', b' := ApplyAccept(a, now, record, record.acceptedAtMillis).0, ApplyAccept(b, now, record, now).0;
    assert id in a'.rows && id in b'.rows;
    assert RowAlike(a'.rows[id], b'.rows[id], now) <==> record.acceptedAtMillis <= now;
  }

  /**
   What the difference is: once the first lease has run out, the tables offer the delivery to claims at once,
   memory not before its acceptance time. The adapters disagree exactly between the two.
   */
  lemma AheadIsHidden(l: Ledger, now: int, record: IntakeRecord, later: int)
    requires record.ingestionKey !in l.intakes && now <= later
    ensures var memory := ApplyAccept(l, now, record, record.acceptedAtMillis).0;
            var tables := ApplyAccept(l, now, record, now).0;
            var (id, destination) := (record.deliveryId, record.route.destinationId);
            var expiry := now + record.claim.leaseDurationMillis;
            && (tables.Eligible(id, destination, later) <==> expiry <= later)
            && (memory.Eligible(id, destination, later) <==> expiry <= later && record.acceptedAtMillis <= later)
            && (tables.Eligible(id, destination, later) != memory.Eligible(id, destination, later) <==>
                expiry <= later < record.acceptedAtMillis)
  {
  }

  /**
   And memory keeps hiding it, whatever else happens, until the time has come or the delivery is reopened or
   retried.
   */
  lemma HiddenUntilDue(run: Run, accepted: Run)
    requires Legal(run) && run.Then? && Extends(run.before, accepted) && Legal(accepted)
    requires accepted.Then? && accepted.op.Accept? && LastReply(accepted).Accepted?
    requires Leases.Quiet(run.before, accepted, accepted.op.record.deliveryId)
    requires run.op.ClaimPending? && accepted.op.record.deliveryId in run.op.chosen
    ensures run.at >= accepted.op.dueAt
  {
    Leases.DueTimeIsKept(run.before, accepted, accepted.op.record.deliveryId);
    assert Final(run.before).Eligible(accepted.op.record.deliveryId, run.op.destination, run.at);
  }

  // ---- Whole runs -------------------------------------------------------------------------

  /** The calls of the run as the tables take them: new deliveries are due at the clock reading. */
  function InTables(run: Run): Run {
    match run
    case Begin(_) => run
    case Then(before, at, op) => Then(InTables(before), at, if op.Accept? then op.(dueAt := at) else op)
  }

  /** And as memory takes them: new deliveries are due at their acceptance time. */
  function InMemory(run: Run): Run {
    match run
    case Begin(_) => run
    case Then(before, at, op) =>
      Then(InMemory(before), at, if op.Accept? then op.(dueAt := op.record.acceptedAtMillis) else op)
  }

  /** No new delivery was accepted with a time ahead of the store's clock. */
  ghost predicate Prompt(run: Run)
    requires Legal(run)
  {
    run.Then? ==> Prompt(run.before) && PromptStep(Final(run.before), run.at, run.op)
  }

  predicate PromptStep(l: Ledger, at: int, op: Operation) {
    op.Accept? && op.record.ingestionKey !in l.intakes ==> op.record.acceptedAtMillis <= at
  }

  /** Two runs of the same calls at the same times, neither ahead of the clock. */
  ghost predicate Twins(run: Run, other: Run)
    requires Legal(run)
  {
    match run
    case Begin(start) => other == Begin(start)
    case Then(before, at, op) =>
      && other.Then? && Twins(before, other.before) && other.at == at
      && SameCall(op, other.op) && NotAhead(Final(before), at, op, other.op)
  }

  lemma {:induction false} TwinsStayAlike(run: Run, other: Run, now: int)
    requires Legal(run) && Twins(run, other) && Chronological(run, now)
    ensures Legal(other) && Start(other) == Start(run)
    ensures Alike(Final(run), Final(other), now)
    ensures run.Then? ==> SameButLag(LastReply(run), LastReply(other))
  {
    if run.Begin? {
    } else {
      TwinsStayAlike(run.before, other.before, run.at);
      StepStaysAlike(Final(run.before), Final(other.before), run.at, run.op, other.op);
      TimePasses(Final(run), Final(other), run.at, now);
    }
  }

  /** A run of memory without acceptances ahead of the clock is a twin of its image in the tables. */
  lemma {:induction false} MemoryRunsHaveTwins(run: Run)
    requires Legal(run) && InMemory(run) == run && Prompt(run)
    ensures Twins(run, InTables(run)) && Simulation.DueOnAcceptance(InTables(run))
    ensures Simulation.NeverSaves(run) ==> Simulation.NeverSaves(InTables(run))
  {
    if run.Begin? {
    } else {
      MemoryRunsHaveTwins(run.before);
    }
  }

  /** And the other way round. */
  lemma {:induction false} SqlRunsHaveTwins(run: Run)
    requires Legal(run) && InTables(run) == run && Prompt(run)
    ensures Twins(run, InMemory(run))
  {
    if run.Begin? {
    } else {
      SqlRunsHaveTwins(run.before);
    }
  }

  /**
   Right after each step, memory and tables are alike if and only if no acceptance was ahead: the first one
   parts them.
   */
  lemma FirstAheadParts(run: Run)
    requires Legal(run) && run.Then? && InMemory(run) == run && Prompt(run.before) && Chronological(run, run.at)
    ensures Legal(InTables(run))
    ensures Alike(Final(run), Final(InTables(run)), run.at) <==> Prompt(run)
  {
    MemoryRunsHaveTwins(run.before);
    TwinsStayAlike(run.before, InTables(run.before), run.at);
    var a, b := Final(run.before), Final(InTables(run.before));
    if Prompt(run) {
      StepStaysAlike(a, b, run.at, run.op, InTables(run).op);
    } else {
      AlikeExactlyWhenNotAhead(a, b, run.at, run.op.record);
    }
  }

  /** Replies compared: lags may differ, and a replay from the tables reports the current route. */
  predicate RepliesMatch(l: Ledger, memory: Reply, tables: Reply) {
    match memory
    case Batch(_) => SameButLag(memory, tables)
    case Replayed(decision) => tables == Replayed(Simulation.Rerouted(l, decision))
    case _ => memory == tables
  }

  /**
   Every run of the memory adapter without acceptances ahead of the clock can be made on the tables, call for
   call, with matching stores and replies.
   */
  lemma MemoryRunsAreSqlRuns(run: Run, now: int)
    requires Legal(run) && Start(run) == EMPTY && InMemory(run) == run && Prompt(run) && Chronological(run, now)
    ensures Legal(InTables(run)) && Simulation.SqlLegal(InTables(run))
    ensures Alike(Final(run), Final(InTables(run)), now)
    ensures Simulation.Related(Final(InTables(run)), Simulation.SqlFinal(InTables(run)))
    ensures run.Then? && Simulation.NeverSaves(run) ==>
              RepliesMatch(
                Final(run.before), LastReply(run),
                Execute(Simulation.SqlFinal(InTables(run).before), run.at, InTables(run).op).1)
  {
    MemoryRunsHaveTwins(run);
    TwinsStayAlike(run, InTables(run), now);
    Simulation.LedgerRunsAreSqlRuns(InTables(run));
    if run.Then? && Simulation.NeverSaves(run) {
      TwinsStayAlike(run.before, InTables(run.before), run.at);
      Simulation.AdaptersReplyAlike(InTables(run));
      ReroutedAlike(Final(run.before), Final(InTables(run.before)), run.at, LastReply(run));
    }
  }

  /** And every such run of the tables can be made in memory. */
  lemma SqlRunsAreMemoryRuns(run: Run, now: int)
    requires Simulation.SqlLegal(run) && Start(run) == EMPTY && Chronological(run, now)
    ensures Legal(run)
    ensures InTables(run) == run && Prompt(run) ==>
              && Legal(InMemory(run))
              && Alike(Final(run), Final(InMemory(run)), now)
              && Simulation.Related(Final(run), Simulation.SqlFinal(run))
              && (run.Then? ==> SameButLag(LastReply(run), LastReply(InMemory(run))))
  {
    Simulation.SqlRunsAreLedgerRuns(run);
    if InTables(run) == run && Prompt(run) {
      SqlRunsHaveTwins(run);
      TwinsStayAlike(run, InMemory(run), now);
    }
  }

  lemma ReroutedAlike(a: Ledger, b: Ledger, now: int, reply: Reply)
    requires Alike(a, b, now)
    ensures reply.Replayed? ==> Simulation.Rerouted(a, reply.decision) == Simulation.Rerouted(b, reply.decision)
  {
  }

  // ---- An acceptance ahead of the clock ---------------------------------------------------

  const AHEAD := Simulation.RECORD.(acceptedAtMillis := 2000)
  const RECLAIM := ClaimPending(WorkerId("wrk-2"), DestinationId("dst-1"), 1, 1000, [Simulation.DELIVERY])

  lemma FirstStepIsLegal(dueAt: int)
    ensures Legal(Then(Begin(EMPTY), 0, Accept(AHEAD, dueAt)))
    ensures Final(Then(Begin(EMPTY), 0, Accept(AHEAD, dueAt))) == ApplyAccept(EMPTY, 0, AHEAD, dueAt).0
  {
    assert Legal(Begin(EMPTY));
  }

  lemma ReclaimIsLegal(dueAt: int)
    requires dueAt <= 1000
    ensures Legal(Then(Then(Begin(EMPTY), 0, Accept(AHEAD, dueAt)), 1000, RECLAIM))
  {
    FirstStepIsLegal(dueAt);
    assert ApplyAccept(EMPTY, 0, AHEAD, dueAt).0.Eligible(Simulation.DELIVERY, RECLAIM.destination, 1000);
  }

  /**
   Accepted at 0 with time 2000 and a lease of 1000: at 1000 the tables give it to another worker, memory does
   not.
   */
  lemma ReclaimsDiffer()
    ensures Legal(Then(Begin(EMPTY), 0, Accept(AHEAD, AHEAD.acceptedAtMillis)))
    ensures !Offered(Final(Then(Begin(EMPTY), 0, Accept(AHEAD, AHEAD.acceptedAtMillis))), 1000, RECLAIM)
    ensures Simulation.SqlLegal(Then(Then(Begin(EMPTY), 0, Accept(AHEAD, 0)), 1000, RECLAIM))
  {
    FirstStepIsLegal(2000);
    AheadIsHidden(EMPTY, 0, AHEAD, 1000);
    assert RECLAIM.chosen[0] == Simulation.DELIVERY;
    ReclaimIsLegal(0);
    Simulation.LedgerRunsAreSqlRuns(Then(Then(Begin(EMPTY), 0, Accept(AHEAD, 0)), 1000, RECLAIM));
  }
}

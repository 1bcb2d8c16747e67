/** What the durable attempt history says: ordinals without gaps, states as folds, settled deliveries. */
module History {
  import opened Domain
  import opened Ledger
  import opened Runs
  import Policy

  // ---- Ordinals ---------------------------------------------------------------------------

  /** Attempts are numbered 1, 2, .., n in the order they were recorded. */
  predicate Numbered(attempts: seq<AttemptRecord>) {
    forall i :: 0 <= i < |attempts| ==> attempts[i].ordinal == i + 1
  }

  /** Later attempts were made under later or equal claims, none above the current generation. */
  predicate Ordered(row: Row) {
    && (forall i, j :: 0 <= i < j < |row.attempts| ==>
          row.attempts[i].claimGeneration <= row.attempts[j].claimGeneration)
    && (forall i :: 0 <= i < |row.attempts| ==> row.attempts[i].claimGeneration <= row.generation)
  }

  lemma {:induction false} NextAfterNumbered(attempts: seq<AttemptRecord>)
    requires Numbered(attempts)
    ensures NextOrdinal(attempts) == |attempts| + 1
  {
    if |attempts| == 0 {
    } else {
      NextAfterNumbered(attempts[..|attempts| - 1]);
    }
  }

  /** The first ordinal given to whoever obtained `fence` on `id` by this step, if the step issued it. */
  function Issued(l: Ledger, now: int, op: Operation, id: DeliveryId, fence: Token): Option<int>
    requires Offered(l, now, op)
  {
    match op
    case Accept(record, _) =>
      if record.ingestionKey !in l.intakes && record.deliveryId == id && fence == Token(record.claim.ownerId, 1)
      then Some(1) else None
    case SavePending(_, deliveryId, _, request) =>
      if deliveryId == id && fence == Token(request.ownerId, 1) then Some(1) else None
    case ClaimPending(ownerId, _, _, _, chosen) =>
      if id in chosen && fence == ClaimedEntry(l, now, ownerId, op.lease, id).claim.Fence()
      then Some(ClaimedEntry(l, now, ownerId, op.lease, id).nextAttemptOrdinal) else None
    case _ => None
  }

  /**
   The next ordinal of a session after a step: where it starts when its token is issued, one more for each
   recording.
   */
  function Counted(l: Ledger, now: int, op: Operation, id: DeliveryId, fence: Token, was: Option<int>): Option<int>
    requires Offered(l, now, op)
  {
    var issued := Issued(l, now, op, id, fence);
    if issued.Some? then issued
    else if op.RecordAttempt? && op.attempt.deliveryId == id && op.attempt.Fence() == fence
            && Apply(l, now, op).1 == Done && was.Some?
    then Some(was.value + 1)
    else was
  }

  /** The next ordinal of the session holding `fence`: its first ordinal plus what it has recorded. */
  ghost function Session(run: Run, id: DeliveryId, fence: Token): Option<int>
    requires Legal(run)
  {
    match run
    case Begin(_) => None
    case Then(before, at, op) => Counted(Final(before), at, op, id, fence, Session(before, id, fence))
  }

  /** Workers number their attempts from the ordinal their claim came with; nothing else is assumed of anyone. */
  ghost predicate Disciplined(run: Run)
    requires Legal(run)
  {
    run.Then? ==>
      && Disciplined(run.before)
      && (run.op.RecordAttempt? ==>
            Session(run.before, run.op.attempt.deliveryId, run.op.attempt.Fence()) == Some(run.op.attempt.ordinal))
  }

  ghost predicate InStep(run: Run, id: DeliveryId)
    requires Legal(run) && id in Final(run).rows
  {
    var row := Final(run).rows[id];
    && Numbered(row.attempts)
    && Ordered(row)
    && (row.claim.Some? ==> Session(run, id, row.claim.value.Fence()) == Some(|row.attempts| + 1))
  }

  lemma NewDeliveryInStep(run: Run, id: DeliveryId)
    requires Legal(run) && run.Then? && id !in Final(run.before).rows && id in Final(run).rows
    ensures InStep(run, id)
  {
    NewRows(Final(run.before), run.at, run.op, id);
  }

  lemma ChangeKeepsNumbering(row: Row, change: Change)
    requires row.Valid() && Enabled(row, change) && Numbered(row.attempts) && Ordered(row)
    requires change.Recorded? ==> change.attempt.ordinal == |row.attempts| + 1
    ensures Numbered(After(row, change).attempts) && Ordered(After(row, change))
  {
  }

  /** How one step moves the counter of the session that holds the claim afterwards. */
  lemma CountedIsKept(l: Ledger, now: int, op: Operation, id: DeliveryId, fence: Token, was: Option<int>)
    requires Valid(l) && Lawful(l, now, op) && id in l.rows && Numbered(l.rows[id].attempts)
    requires l.rows[id].Holds(fence) ==> was == Some(|l.rows[id].attempts| + 1)
    requires id in Apply(l, now, op).0.rows && Apply(l, now, op).0.rows[id].Holds(fence)
    ensures Counted(l, now, op, id, fence, was) == Some(|Apply(l, now, op).0.rows[id].attempts| + 1)
  {
    StepsAreChanges(l, now, op, id);
    NextAfterNumbered(l.rows[id].attempts);
    if op.Targeted() && op.Subject() == id {
      AcceptedExactlyWhenEnabled(l, now, op);
      if Refusal(l, now, op).None? {
        Granted(l, now, op);
      } else {
        Refused(l, now, op, Refusal(l, now, op).value);
      }
    }
  }

  lemma NumberingIsKept(run: Run, id: DeliveryId)
    requires Legal(run) && run.Then? && Disciplined(run)
    requires id in Final(run.before).rows && InStep(run.before, id)
    ensures id in Final(run).rows && Numbered(Final(run).rows[id].attempts) && Ordered(Final(run).rows[id])
  {
    var l := Final(run.before);
    FinalIsValid(run.before);
    StepsAreChanges(l, run.at, run.op, id);
    var effect := Effect(l, run.at, run.op, id);
    if effect.Some? {
      ChangeKeepsNumbering(l.rows[id], effect.value);
    }
  }

  lemma KnownDeliveryInStep(run: Run, id: DeliveryId)
    requires Legal(run) && run.Then? && Disciplined(run)
    requires id in Final(run.before).rows && InStep(run.before, id)
    ensures id in Final(run).rows && InStep(run, id)
  {
    NumberingIsKept(run, id);
    if Final(run).rows[id].claim.Some? {
      SessionIsKept(run, id, Final(run).rows[id].claim.value.Fence());
    }
  }

  /** The holder after a step, old or new, has the counter of the history after it. */
  lemma SessionIsKept(run: Run, id: DeliveryId, fence: Token)
    requires Legal(run) && run.Then?
    requires id in Final(run.before).rows && InStep(run.before, id)
    requires id in Final(run).rows && Final(run).rows[id].Holds(fence)
    ensures Session(run, id, fence) == Some(|Final(run).rows[id].attempts| + 1)
  {
    var l, was := Final(run.before), Session(run.before, id, fence);
    FinalIsValid(run.before);
    CountedIsKept(l, run.at, run.op, id, fence, was);
    assert Session(run, id, fence) == Counted(l, run.at, run.op, id, fence, was);
  }

  /**
   Over any run from an empty store, with any crashes, reclaims, renewals and operator actions, the
   ordinals of every delivery are exactly 1..n and claim generations never decrease along them.
   */
  lemma {:induction false} OrdinalsAreExact(run: Run, id: DeliveryId)
    requires Legal(run) && Disciplined(run) && Start(run) == EMPTY
    requires id in Final(run).rows
    ensures InStep(run, id)
  {
    if run.Begin? {
      assert false;
    } else if id in Final(run.before).rows {
      OrdinalsAreExact(run.before, id);
      KnownDeliveryInStep(run, id);
    } else {
      NewDeliveryInStep(run, id);
    }
  }

  /** So a worker never meets the duplicate-ordinal error. */
  lemma DuplicateOrdinalIsUnreachable(run: Run)
    requires Legal(run) && run.Then? && Disciplined(run) && Start(run) == EMPTY
    ensures !(LastReply(run).Failed? && LastReply(run).error.DuplicateOrdinal?)
    ensures !(LastReply(run).Failed? && LastReply(run).error.NoTerminalState?)
  {
    if run.op.Targeted() && run.op.Subject() in Final(run.before).rows {
      OrdinalsAreExact(run.before, run.op.Subject());
      AcceptedExactlyWhenEnabled(Final(run.before), run.at, run.op);
    }
  }

  // ---- State as a fold of the log ---------------------------------------------------------

  /** The state a log leads to, read from its last decisive entry alone. */
  function StateOf(initial: DeliveryState, log: seq<Change>): DeliveryState {
    if |log| == 0 then initial
    else
      match log[|log| - 1]
      case Recorded(_, attempt) =>
        if attempt.decision.Exhausted? then DeadLettered(RetryBudgetExhausted)
        else if attempt.decision.RetryScheduled? then Pending
        else if attempt.outcome.ProtocolFailure? then DeadLettered(ProviderProtocolFailure)
        else if attempt.outcome.Delivered? then DeliveryState.Delivered(attempt.status.GetOr(0))
        else DeliveryState.Rejected(attempt.status.GetOr(0))
      case Completed(_, _, result) => Policy.StateFromResult(result)
      case Retried(_) => Pending
      case Repaired(_, _) => Pending
      case Ended => Terminated
      case _ => StateOf(initial, log[..|log| - 1])
  }

  function Closings(log: seq<Change>): nat {
    if |log| == 0 then 0
    else
      var last := log[|log| - 1];
      Closings(log[..|log| - 1]) + if last.Completed? || (last.Recorded? && last.attempt.Closes()) then 1 else 0
  }

  function Reopenings(log: seq<Change>): nat {
    if |log| == 0 then 0
    else
      var last := log[|log| - 1];
      Reopenings(log[..|log| - 1]) + if last.Retried? || last.Repaired? then 1 else 0
  }

  /** The attempts a log recorded, in order. */
  function RecordedIn(log: seq<Change>): seq<AttemptRecord> {
    if |log| == 0 then []
    else
      var last := log[|log| - 1];
      RecordedIn(log[..|log| - 1]) + if last.Recorded? then [last.attempt] else []
  }

  lemma {:induction false} FoldFacts(origin: Row, log: seq<Change>)
    requires origin.Valid() && Possible(origin, log)
    ensures Fold(origin, log).Valid()
    ensures Fold(origin, log).delivery.state == StateOf(origin.delivery.state, log)
    ensures Fold(origin, log).attempts == origin.attempts + RecordedIn(log)
  {
    if |log| == 0 {
    } else {
      FoldFacts(origin, log[..|log| - 1]);
      ChangeKeepsRowValid(Fold(origin, log[..|log| - 1]), log[|log| - 1]);
    }
  }

  /** Closing entries outnumber reopenings by one exactly when the delivery is not Pending. */
  lemma {:induction false} CountLaw(origin: Row, log: seq<Change>)
    requires origin.Valid() && origin.Pending() && Possible(origin, log)
    ensures Closings(log) - Reopenings(log) == if Fold(origin, log).Pending() then 0 else 1
  {
    if |log| == 0 {
    } else {
      CountLaw(origin, log[..|log| - 1]);
      FoldFacts(origin, log[..|log| - 1]);
    }
  }

  /** The three facts above for any delivery of any run that entered the store Pending. */
  lemma HistoryExplainsState(run: Run, id: DeliveryId)
    requires Legal(run) && id in Final(run).rows
    ensures Final(run).rows[id].delivery.state == StateOf(Origin(run, id).delivery.state, Log(run, id))
    ensures Final(run).rows[id].attempts == Origin(run, id).attempts + RecordedIn(Log(run, id))
    ensures Origin(run, id).Pending() ==>
              Closings(Log(run, id)) - Reopenings(Log(run, id)) == if Final(run).rows[id].Pending() then 0 else 1
  {
    OriginIsValid(run, id);
    DeliveryIsFoldOfItsLog(run, id);
    FoldFacts(Origin(run, id), Log(run, id));
    if Origin(run, id).Pending() {
      CountLaw(Origin(run, id), Log(run, id));
    }
  }

  lemma {:induction false} OriginIsValid(run: Run, id: DeliveryId)
    requires Legal(run) && id in Final(run).rows
    ensures Origin(run, id).Valid()
  {
    if run.Then? && id in Final(run.before).rows {
      OriginIsValid(run.before, id);
    } else {
      FinalIsValid(run);
    }
  }

  predicate ByOperator(change: Change) { change.Retried? || change.Repaired? || change.Ended? }

  lemma {:induction false} PrefixIsPossible(origin: Row, log: seq<Change>, k: nat)
    requires Possible(origin, log) && k <= |log|
    ensures Possible(origin, log[..k])
    ensures k < |log| ==> Enabled(Fold(origin, log[..k]), log[k])
  {
    if k == |log| {
      assert log[..k] == log;
    } else {
      PrefixIsPossible(origin, log[..|log| - 1], k);
      assert log[..|log| - 1][..k] == log[..k];
    }
  }

  /** A closing attempt decides the state, and nothing follows it in the log until an operator acts. */
  lemma ClosingEntryDecides(run: Run, id: DeliveryId, p: nat)
    requires Legal(run) && id in Final(run).rows && p < |Log(run, id)|
    requires Log(run, id)[p].Recorded? && Log(run, id)[p].attempt.Closes()
    requires forall q :: p < q < |Log(run, id)| ==> !ByOperator(Log(run, id)[q])
    ensures |Log(run, id)| == p + 1
    ensures Policy.TerminalState(Log(run, id)[p].attempt) == Some(Final(run).rows[id].delivery.state)
    ensures Final(run).rows[id].claim == None
  {
    OriginIsValid(run, id);
    DeliveryIsFoldOfItsLog(run, id);
    LogClosesAt(Origin(run, id), Log(run, id), p);
  }

  lemma LogClosesAt(origin: Row, log: seq<Change>, p: nat)
    requires Possible(origin, log) && p < |log| && log[p].Recorded? && log[p].attempt.Closes()
    requires forall q :: p < q < |log| ==> !ByOperator(log[q])
    ensures |log| == p + 1
    ensures Policy.TerminalState(log[p].attempt) == Some(Fold(origin, log).delivery.state)
    ensures Fold(origin, log).claim == None
  {
    PrefixIsPossible(origin, log, p);
    PrefixIsPossible(origin, log, p + 1);
    assert log[..p + 1][..p] == log[..p];
    if p + 1 < |log| {
      assert false;
    } else {
      assert log[..p + 1] == log;
    }
  }

  // ---- Absorbing states -------------------------------------------------------------------

  predicate Settled(row: Row) {
    row.delivery.state.Delivered? || row.delivery.state.Rejected? || row.delivery.state.Terminated?
  }

  /** A delivered, rejected or terminated delivery is frozen: no part of its row ever changes again. */
  lemma {:induction false} SettledIsFrozen(run: Run, prefix: Run, id: DeliveryId)
    requires Legal(run) && Extends(run, prefix) && Legal(prefix)
    requires id in Final(prefix).rows && Settled(Final(prefix).rows[id])
    ensures id in Final(run).rows && Final(run).rows[id] == Final(prefix).rows[id]
  {
    if run == prefix {
    } else {
      SettledIsFrozen(run.before, prefix, id);
      FinalIsValid(run.before);
      StepsAreChanges(Final(run.before), run.at, run.op, id);
    }
  }

  /** Only an operator moves a dead letter, and only to Pending or Terminated. */
  lemma DeadLettersWaitForOperators(l: Ledger, now: int, op: Operation, id: DeliveryId)
    requires Valid(l) && Lawful(l, now, op) && id in l.rows && l.rows[id].delivery.state.DeadLettered?
    ensures var after := Apply(l, now, op).0;
            && id in after.rows
            && (after.rows[id] != l.rows[id] ==>
                  && (op.Retry? || op.Repair? || op.Terminate?) && op.id == id
                  && after.rows[id].delivery.state == (if op.Terminate? then Terminated else Pending)
                  && after.rows[id].attempts == l.rows[id].attempts)
  {
    StepsAreChanges(l, now, op, id);
  }
}

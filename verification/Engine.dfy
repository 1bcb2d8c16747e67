/**
 src/deliveryEngine.ts: the retry loop of one delivery, its schedule and its result.

 A `Round` is everything one turn of the loop reads from outside: the answer of the destination, the
 clock (nanoseconds, nondecreasing; milliseconds are its floor), the backoff and the random fraction,
 and whether the attempt could be recorded. Backoff is any delay up to the configured maximum.
 */
module Engine {
  import opened Domain
  import opened Ledger
  import opened Runs
  import History
  import Policy

  const NANOS_PER_MILLI := 1_000_000

  datatype Resilience = Resilience(maxAttempts: int, maxElapsedNanos: nat, maxDelayNanos: nat)

  datatype Answer =
    | Answered(status: int, retryAfter: RetryAfter)
    | Unreachable      // the transport failed
    | Unanswered       // the attempt timeout passed

  datatype Round = Round(
    begun: nat,        // the loop starts the attempt, before capacity is granted
    sent: nat,         // the observation starts
    answer: Answer,
    classified: nat,   // the response is classified
    completed: nat,    // the observation ends
    backoff: nat,      // the raw delay of the schedule, in nanoseconds
    fraction: real,    // the random draw
    clampRead: nat,    // the clock when the delay is clamped to the window
    guardRead: nat,    // the clock when the schedule decides
    recorded: bool)    // whether onAttempt succeeded
  {
    function Observed(): Outcome {
      match answer
      case Answered(status, header) => ClassifyResponse(status, header, classified / NANOS_PER_MILLI)
      case Unreachable => Outcome.TransportFailure
      case Unanswered => Outcome.TimedOut
    }

    predicate Chronological() {
      begun <= sent <= classified <= completed <= clampRead <= guardRead
    }
  }

  /** What the clock, the schedule and the random service promise. */
  ghost predicate Plausible(r: Resilience, rounds: nat -> Round) {
    forall i :: rounds(i).Chronological() && rounds(i).backoff <= r.maxDelayNanos && 0.0 <= rounds(i).fraction < 1.0
  }

  // ---- The schedule -----------------------------------------------------------------------

  function Max(a: int, b: int): int { if a > b then a else b }

  function Min(a: int, b: int): int { if a < b then a else b }

  /** Full jitter, in whole milliseconds. */
  function Jittered(backoff: nat, fraction: real): int {
    (backoff as real / 1_000_000.0 * fraction).Floor
  }

  function RequestedMillis(outcome: Outcome): nat {
    if outcome.Retryable? then outcome.retryAfterMillis.GetOr(0) else 0
  }

  /** The delay before it is clamped: jitter, but never less than the destination asked for. */
  function WantedNanos(round: Round): int {
    Max(Jittered(round.backoff, round.fraction), RequestedMillis(round.Observed())) * NANOS_PER_MILLI
  }

  /** The schedule's step after `retries` retries: the delay, or None when it is done. */
  function NextDelay(r: Resilience, deadline: int, retries: nat, round: Round): Option<int> {
    var clamped := Min(WantedNanos(round), Max(0, deadline - round.clampRead));
    if retries < r.maxAttempts - 1 && round.guardRead + clamped < deadline then Some(clamped) else None
  }

  // ---- The loop ---------------------------------------------------------------------------

  predicate IsRetryable(outcome: Outcome) {
    match outcome
    case Delivered(_) => false
    case Rejected(_) => false
    case ProtocolFailure(_) => false
    case Retryable(_, _, _) => true
    case TransportFailure => true
    case TimedOut => true
  }

  function TerminalResult(outcome: Outcome, attempts: seq<Attempt>): DeliveryResult {
    match outcome
    case Delivered(status) => DeliveryResult.Delivered(attempts, status)
    case Rejected(status) => DeliveryResult.Rejected(attempts, status)
    case ProtocolFailure(status) => DeliveryResult.ProtocolFailure(attempts, status)
    case _ => DeliveryResult.Exhausted(attempts, outcome)
  }

  function Decide(r: Resilience, deadline: int, retries: nat, round: Round): Decision {
    if !IsRetryable(round.Observed()) then Decision.Terminal
    else
      match NextDelay(r, deadline, retries, round)
      case None => Decision.Exhausted
      case Some(delay) => Decision.RetryScheduled(delay / NANOS_PER_MILLI)
  }

  function AttemptOf(r: Resilience, deadline: int, firstOrdinal: int, i: nat, round: Round): Attempt {
    Attempt(
      firstOrdinal + i,
      round.sent / NANOS_PER_MILLI,
      round.completed / NANOS_PER_MILLI,
      round.Observed(),
      Decide(r, deadline, i, round))
  }

  /** The attempts of rounds 0 .. n-1. */
  function Attempts(r: Resilience, deadline: int, firstOrdinal: int, rounds: nat -> Round, n: nat): seq<Attempt> {
    seq(n, (i: nat) => AttemptOf(r, deadline, firstOrdinal, i, rounds(i)))
  }

  /** The loop goes on after round i. */
  predicate GoesOn(r: Resilience, deadline: int, rounds: nat -> Round, i: nat) {
    Decide(r, deadline, i, rounds(i)).RetryScheduled? && rounds(i).recorded
  }

  datatype Finish = Returned(result: DeliveryResult) | RecordingFailed(history: seq<Attempt>) {
    function Attempts(): seq<Attempt> { if Returned? then result.attempts else history }
  }

  /**
   The loop terminates within `maxAttempts` rounds. Its history is the attempts of rounds 0 .. last,
   where `last` is the first round the loop does not go on after, and its result comes from that round.
   */
  method RunDeliveryWithRetry(r: Resilience, start: nat, rounds: nat -> Round, firstOrdinal: int)
    returns (finish: Finish)
    requires r.maxAttempts >= 1
    ensures 1 <= |finish.Attempts()| <= r.maxAttempts
    ensures var deadline := start + r.maxElapsedNanos;
            var last := |finish.Attempts()| - 1;
            var attempts := Attempts(r, deadline, firstOrdinal, rounds, last + 1);
            && (forall i: nat :: i < last ==> GoesOn(r, deadline, rounds, i))
            && !GoesOn(r, deadline, rounds, last)
            && finish ==
               (if rounds(last).recorded
                then Returned(TerminalResult(rounds(last).Observed(), attempts))
                else RecordingFailed(attempts))
  {
    var deadline := start + r.maxElapsedNanos;
    var nextOrdinal := firstOrdinal - 1;
    var history: seq<Attempt> := [];
    var retries := 0;
    while true
      invariant 0 <= retries < r.maxAttempts
      invariant nextOrdinal == firstOrdinal - 1 + retries
      invariant history == Attempts(r, deadline, firstOrdinal, rounds, retries)
      invariant forall i: nat :: i < retries ==> GoesOn(r, deadline, rounds, i)
      decreases r.maxAttempts - retries
    {
      nextOrdinal := nextOrdinal + 1;
      var round := rounds(retries);
      var started, completed, outcome :=
        round.sent / NANOS_PER_MILLI, round.completed / NANOS_PER_MILLI, round.Observed();
      if !IsRetryable(outcome) {
        history := history + [Attempt(nextOrdinal, started, completed, outcome, Decision.Terminal)];
        assert history == Attempts(r, deadline, firstOrdinal, rounds, retries + 1);
        return (if round.recorded then Returned(TerminalResult(outcome, history)) else RecordingFailed(history));
      }
      var delay := NextDelay(r, deadline, retries, round);
      if delay.None? {
        history := history + [Attempt(nextOrdinal, started, completed, outcome, Decision.Exhausted)];
        assert history == Attempts(r, deadline, firstOrdinal, rounds, retries + 1);
        return (
          if round.recorded then Returned(DeliveryResult.Exhausted(history, outcome)) else RecordingFailed(history));
      }
      history := history +
        [Attempt(nextOrdinal, started, completed, outcome, Decision.RetryScheduled(delay.value / NANOS_PER_MILLI))];
      assert history == Attempts(r, deadline, firstOrdinal, rounds, retries + 1);
      if !round.recorded {
        return RecordingFailed(history);
      }
      retries := retries + 1;
    }
  }

  /**
   The history of a loop that stopped after round `last` with everything recorded: consecutive ordinals,
   a scheduled retry after every attempt but the last, and a last attempt that is Terminal exactly if
   its outcome is not retryable, and that alone decides the result.
   */
  lemma HistoryShape(
    r: Resilience, deadline: int, rounds: nat -> Round, firstOrdinal: int, last: nat, result: DeliveryResult)
    requires (forall i: nat :: i < last ==> GoesOn(r, deadline, rounds, i)) && !GoesOn(r, deadline, rounds, last)
    requires rounds(last).recorded
    requires result == TerminalResult(rounds(last).Observed(), Attempts(r, deadline, firstOrdinal, rounds, last + 1))
    ensures |result.attempts| == last + 1
    ensures forall i :: 0 <= i <= last ==> result.attempts[i].ordinal == firstOrdinal + i
    ensures forall i :: 0 <= i < last ==>
              IsRetryable(result.attempts[i].outcome) && result.attempts[i].decision.RetryScheduled?
    ensures var final := result.attempts[last];
            && (if IsRetryable(final.outcome) then final.decision.Exhausted? else final.decision.Terminal?)
            && (result.Exhausted? <==> IsRetryable(final.outcome))
            && (result.Exhausted? ==> result.lastOutcome == final.outcome)
            && (result.Delivered? ==> final.outcome == Outcome.Delivered(result.status))
            && (result.Rejected? ==> final.outcome == Outcome.Rejected(result.status))
            && (result.ProtocolFailure? ==> final.outcome == Outcome.ProtocolFailure(result.status))
  {
    forall i | 0 <= i <= last
      ensures result.attempts[i] == AttemptOf(r, deadline, firstOrdinal, i, rounds(i))
    {
    }
    forall i | 0 <= i < last
      ensures IsRetryable(result.attempts[i].outcome) && result.attempts[i].decision.RetryScheduled?
    {
      assert GoesOn(r, deadline, rounds, i);
    }
  }

  // ---- Retry arithmetic -------------------------------------------------------------------

  lemma NonNegativeProduct(x: real, y: real)
    requires x >= 0.0 && y >= 0.0
    ensures x * y >= 0.0
  {
  }

  /** The jitter is the number of whole milliseconds in the drawn part of the backoff, no more and no less. */
  lemma JitterIsBounded(backoff: nat, fraction: real)
    requires 0.0 <= fraction < 1.0
    ensures 0 <= Jittered(backoff, fraction)
    ensures Jittered(backoff, fraction) * NANOS_PER_MILLI <= backoff
    ensures Jittered(backoff, fraction) as real * 1_000_000.0 <= backoff as real * fraction
    ensures backoff as real * fraction < (Jittered(backoff, fraction) + 1) as real * 1_000_000.0
  {
    var whole := backoff as real / 1_000_000.0;
    var drawn := whole * fraction;
    var kept := 1.0 - fraction;
    NonNegativeProduct(whole, fraction);
    NonNegativeProduct(whole, kept);
    assert whole * kept == whole - drawn;
    assert 0.0 <= drawn <= whole;
    assert Jittered(backoff, fraction) == drawn.Floor;
    assert drawn.Floor as real <= whole;
    assert drawn.Floor as real * 1_000_000.0 <= backoff as real;
    assert drawn * 1_000_000.0 == backoff as real * fraction;
  }

  /**
   The clamp never changes what is scheduled: a retry is scheduled exactly when one is left and the
   unclamped delay ends inside the window, and then the delay is the unclamped one.
   */
  lemma ClampNeverSchedules(r: Resilience, deadline: int, retries: nat, round: Round)
    requires round.Chronological() && 0.0 <= round.fraction < 1.0
    ensures NextDelay(r, deadline, retries, round) ==
            if retries < r.maxAttempts - 1 && round.guardRead + WantedNanos(round) < deadline
            then Some(WantedNanos(round)) else None
  {
    JitterIsBounded(round.backoff, round.fraction);
  }

  // ---- What the answers ask for -----------------------------------------------------------

  /** The time, in milliseconds, at which the destination wants to be asked again, if it said so. */
  function AskedFor(round: Round): Option<int> {
    if !round.answer.Answered? || round.answer.status != 429 then None
    else
      match round.answer.retryAfter
      case Seconds(n) =>
        if n * 1000 <= 0x1F_FFFF_FFFF_FFFF then Some(round.classified / NANOS_PER_MILLI + n * 1000) else None
      case Date(timestamp) => Some(timestamp)
      case _ => None
  }

  /** How long that is after the classification of the answer: not at all if it has passed, or was not said. */
  function Wait(round: Round): nat {
    match AskedFor(round)
    case Some(time) =>
      if time > round.classified / NANOS_PER_MILLI then time - round.classified / NANOS_PER_MILLI else 0
    case None => 0
  }

  /** The delay that an answer requests is exactly this wait. */
  lemma RequestedIsAskedFor(round: Round)
    ensures RequestedMillis(round.Observed()) == Wait(round)
  {
  }

  /** The answers after which another attempt may help: none at all, three statuses, and those of a failing server. */
  predicate TriedAgain(answer: Answer) {
    match answer
    case Answered(status, _) => status in {408, 425, 429} || 500 <= status <= 599
    case _ => true
  }

  /** In whole milliseconds, the longer of the drawn backoff and the wait asked for. */
  function DelayMillis(round: Round): int {
    var drawn := Jittered(round.backoff, round.fraction);
    if drawn > Wait(round) then drawn else Wait(round)
  }

  /** When a retry follows a round: its answer allows one, one is left, and it begins inside the window. */
  predicate Retries(r: Resilience, deadline: int, i: nat, round: Round) {
    && TriedAgain(round.answer)
    && i + 1 < r.maxAttempts
    && round.guardRead + DelayMillis(round) * NANOS_PER_MILLI < deadline
  }

  lemma RetryableIsTriedAgain(round: Round)
    ensures IsRetryable(round.Observed()) <==> TriedAgain(round.answer)
  {
  }

  lemma WantedIsTheDelay(round: Round)
    ensures WantedNanos(round) == DelayMillis(round) * NANOS_PER_MILLI
  {
    RequestedIsAskedFor(round);
  }

  /** The decision after a round, from its answer, its clock and its draw alone. */
  lemma DecisionIsExact(r: Resilience, deadline: int, i: nat, round: Round)
    requires round.Chronological() && 0.0 <= round.fraction < 1.0
    ensures Decide(r, deadline, i, round) ==
            if Retries(r, deadline, i, round) then Decision.RetryScheduled(DelayMillis(round))
            else if TriedAgain(round.answer) then Decision.Exhausted
            else Decision.Terminal
  {
    ClampNeverSchedules(r, deadline, i, round);
    RetryableIsTriedAgain(round);
    WantedIsTheDelay(round);
  }

  /** Every scheduled delay is exactly the longer of jitter and wait: at most the longer of the maximum and the wait. */
  lemma ScheduledDelay(r: Resilience, deadline: int, retries: nat, round: Round)
    requires round.Chronological() && 0.0 <= round.fraction < 1.0 && round.backoff <= r.maxDelayNanos
    requires Decide(r, deadline, retries, round).RetryScheduled?
    ensures var delay := Decide(r, deadline, retries, round).delayMillis;
            && NextDelay(r, deadline, retries, round) == Some(delay * NANOS_PER_MILLI)
            && delay == DelayMillis(round) >= Wait(round)
            && (delay * NANOS_PER_MILLI <= r.maxDelayNanos || delay == Wait(round))
            && round.guardRead + delay * NANOS_PER_MILLI < deadline
            && retries + 1 < r.maxAttempts
  {
    ClampNeverSchedules(r, deadline, retries, round);
    JitterIsBounded(round.backoff, round.fraction);
    DecisionIsExact(r, deadline, retries, round);
    WantedIsTheDelay(round);
  }

  /** The loop sleeps at least the delay before the next attempt starts. */
  ghost predicate Sleeps(r: Resilience, deadline: int, rounds: nat -> Round, last: nat) {
    forall i: nat {:trigger rounds(i)} :: i < last ==>
      match NextDelay(r, deadline, i, rounds(i))
      case Some(delay) => rounds(i).guardRead + delay <= rounds(i + 1).begun
      case None => true
  }

  /** No attempt starts before the previous one's completion plus its recorded delay, in the recorded milliseconds. */
  lemma NoEarlyNextAttempt(r: Resilience, deadline: int, rounds: nat -> Round, firstOrdinal: int, last: nat, i: nat)
    requires Plausible(r, rounds) && Sleeps(r, deadline, rounds, last) && i < last
    requires GoesOn(r, deadline, rounds, i)
    ensures var attempts := Attempts(r, deadline, firstOrdinal, rounds, last + 1);
            && attempts[i].decision.RetryScheduled?
            && attempts[i].completedAtMillis + attempts[i].decision.delayMillis <= attempts[i + 1].startedAtMillis
  {
    DelayIsSlept(r, deadline, rounds, last, i);
    FloorsAdd(rounds(i).completed, Decide(r, deadline, i, rounds(i)).delayMillis, rounds(i + 1).sent);
  }

  /** The delay after a round lies between its classification and the start of the next attempt. */
  lemma DelayIsSlept(r: Resilience, deadline: int, rounds: nat -> Round, last: nat, i: nat)
    requires Plausible(r, rounds) && Sleeps(r, deadline, rounds, last) && i < last && GoesOn(r, deadline, rounds, i)
    ensures Decide(r, deadline, i, rounds(i)).delayMillis >= 0
    ensures rounds(i).completed + Decide(r, deadline, i, rounds(i)).delayMillis * NANOS_PER_MILLI <= rounds(i + 1).sent
  {
    ScheduledDelay(r, deadline, i, rounds(i));
    assert rounds(i).Chronological() && rounds(i + 1).Chronological();
  }

  /**
   Retry-After is honoured, in both forms: when a 429 asks to wait until some time, the next attempt starts
   no earlier, or there is none because the window closes first. No other answer delays a retry, and none
   delays it longer than the destination asked or the maximum allows.
   */
  lemma RetryAfterIsHonoured(r: Resilience, deadline: int, rounds: nat -> Round, firstOrdinal: int, last: nat, i: nat)
    requires Plausible(r, rounds) && Sleeps(r, deadline, rounds, last) && i < last
    requires GoesOn(r, deadline, rounds, i)
    ensures AskedFor(rounds(i)).Some? ==>
              AskedFor(rounds(i)).value <= Attempts(r, deadline, firstOrdinal, rounds, last + 1)[i + 1].startedAtMillis
    ensures var delay := Decide(r, deadline, i, rounds(i)).delayMillis;
            || delay * NANOS_PER_MILLI <= r.maxDelayNanos
            || (AskedFor(rounds(i)).Some?
                && delay == AskedFor(rounds(i)).value - rounds(i).classified / NANOS_PER_MILLI)
  {
    var round := rounds(i);
    ScheduledDelay(r, deadline, i, round);
    DelayIsSlept(r, deadline, rounds, last, i);
    assert round.Chronological();
    FloorsAdd(round.classified, Decide(r, deadline, i, round).delayMillis, rounds(i + 1).sent);
  }

  /** Which statuses are final and which are tried again; every outcome of an answer keeps its status. */
  lemma StatusesAreDivided(status: int, header: RetryAfter, nowMillis: int)
    ensures var outcome := ClassifyResponse(status, header, nowMillis);
            && (outcome.Delivered? <==> 200 <= status <= 299)
            && (IsRetryable(outcome) <==> status in {408, 425, 429} || 500 <= status <= 599)
            && (outcome.Rejected? <==> 300 <= status <= 499 && status !in {408, 425, 429})
            && (outcome.ProtocolFailure? <==> status < 200 || 600 <= status)
            && outcome.Status() == Some(status)
            && (outcome.Retryable? ==>
                  outcome.reason ==
                  if status == 429 then RateLimited else if status < 500 then AmbiguousResponse else ProviderFailure)
            && (RequestedMillis(outcome) > 0 ==> status == 429)
  {
  }

  lemma FloorsAdd(a: nat, millis: nat, b: nat)
    requires a + millis * NANOS_PER_MILLI <= b
    ensures a / NANOS_PER_MILLI + millis <= b / NANOS_PER_MILLI
  {
  }

  // ---- Agreement with the durable records -------------------------------------------------

  lemma AttemptsAreStorable(r: Resilience, deadline: int, rounds: nat -> Round, firstOrdinal: int, i: nat)
    requires Plausible(r, rounds) && firstOrdinal >= 1
    ensures AttemptOf(r, deadline, firstOrdinal, i, rounds(i)).Storable()
  {
    if Decide(r, deadline, i, rounds(i)).RetryScheduled? {
      ScheduledDelay(r, deadline, i, rounds(i));
    }
  }

  /** Every attempt the engine makes passes the record schema and its filter. */
  lemma AttemptsAreWellFormed(
    r: Resilience, deadline: int, rounds: nat -> Round, firstOrdinal: int, i: nat, id: DeliveryId, claim: Claim,
    trace: Trace)
    requires Plausible(r, rounds) && firstOrdinal >= 1 && claim.generation >= 1 && trace.Consistent()
    ensures MakeRecord(id, claim, AttemptOf(r, deadline, firstOrdinal, i, rounds(i)), trace).WellFormed()
  {
    AttemptsAreStorable(r, deadline, rounds, firstOrdinal, i);
  }

  /** How the answer to an attempt is called in its record. */
  function OutcomeOf(answer: Answer): OutcomeTag {
    match answer
    case Answered(status, _) =>
      if 200 <= status <= 299 then OutcomeTag.Delivered
      else if TriedAgain(answer) then OutcomeTag.Retryable
      else if 300 <= status <= 499 then OutcomeTag.Rejected
      else OutcomeTag.ProtocolFailure
    case Unreachable => OutcomeTag.TransportFailure
    case Unanswered => OutcomeTag.TimedOut
  }

  /**
   What a durable record says of a round of a loop: which attempt it was, under which claim, when it was sent and
   completed on the loop's clock, what came back, and whether and after how long it is tried again.
   */
  predicate Tells(
    record: AttemptRecord, r: Resilience, deadline: int, firstOrdinal: int, i: nat, round: Round, id: DeliveryId,
    fence: Token, trace: Trace)
  {
    && record.deliveryId == id && record.ordinal == firstOrdinal + i
    && record.workerId == fence.ownerId && record.claimGeneration == fence.generation && record.trace == trace
    && record.startedAtMillis == round.sent / NANOS_PER_MILLI
    && record.completedAtMillis == round.completed / NANOS_PER_MILLI
    && record.outcome == OutcomeOf(round.answer)
    && record.status == (if round.answer.Answered? then Some(round.answer.status) else None)
    && record.decision ==
       (if Retries(r, deadline, i, round) then DecisionTag.RetryScheduled
        else if TriedAgain(round.answer) then DecisionTag.Exhausted else DecisionTag.Terminal)
    && record.retryDelayMillis == (if Retries(r, deadline, i, round) then Some(DelayMillis(round)) else None)
  }

  lemma OutcomeIsOfTheAnswer(round: Round)
    ensures round.Observed().Tag() == OutcomeOf(round.answer)
    ensures round.Observed().Status() == if round.answer.Answered? then Some(round.answer.status) else None
  {
  }

  /** Of every attempt the record tells its round. */
  lemma RecordsTellTheirRounds(
    r: Resilience, deadline: int, firstOrdinal: int, i: nat, round: Round, id: DeliveryId, claim: Claim, trace: Trace)
    requires round.Chronological() && 0.0 <= round.fraction < 1.0
    ensures Tells(
              MakeRecord(id, claim, AttemptOf(r, deadline, firstOrdinal, i, round), trace),
              r, deadline, firstOrdinal, i, round, id, claim.Fence(), trace)
  {
    DecisionIsExact(r, deadline, i, round);
    OutcomeIsOfTheAnswer(round);
  }

  /** Where a delivery ends after an answer that is not tried again any more. */
  function FinalState(answer: Answer): DeliveryState {
    match OutcomeOf(answer)
    case Delivered => DeliveryState.Delivered(answer.status)
    case Rejected => DeliveryState.Rejected(answer.status)
    case ProtocolFailure => DeadLettered(ProviderProtocolFailure)
    case _ => DeadLettered(RetryBudgetExhausted)
  }

  /** The state of the engine's result is that of the record of its last attempt, and follows from the last answer. */
  lemma ResultAndRecordAgree(
    r: Resilience, deadline: int, rounds: nat -> Round, firstOrdinal: int, last: nat, id: DeliveryId, claim: Claim,
    trace: Trace)
    requires !GoesOn(r, deadline, rounds, last) && rounds(last).recorded
    ensures var attempts := Attempts(r, deadline, firstOrdinal, rounds, last + 1);
            Policy.TerminalState(MakeRecord(id, claim, attempts[last], trace)) ==
            Some(Policy.StateFromResult(TerminalResult(rounds(last).Observed(), attempts)))
    ensures Policy.StateFromResult(
              TerminalResult(rounds(last).Observed(), Attempts(r, deadline, firstOrdinal, rounds, last + 1))) ==
            FinalState(rounds(last).answer)
  {
    OutcomeIsOfTheAnswer(rounds(last));
  }

  /** The durable records of the first n attempts. */
  function Records(
    r: Resilience, deadline: int, rounds: nat -> Round, firstOrdinal: int, n: nat,
    id: DeliveryId, claim: Claim, trace: Trace): seq<AttemptRecord>
  {
    seq(n, (i: nat) => MakeRecord(id, claim, AttemptOf(r, deadline, firstOrdinal, i, rounds(i)), trace))
  }

  /** The delivery as a worker receives it: claimed, with ordinals below the first it will use. */
  predicate ReadyFor(row: Row, claim: Claim, firstOrdinal: int) {
    && row.Pending()
    && row.claim == Some(claim)
    && (forall i :: 0 <= i < |row.attempts| ==> row.attempts[i].ordinal < firstOrdinal)
  }

  /** A recording under a running lease, with the next ordinal, is accepted. */
  lemma RecordingIsEnabled(row: Row, claim: Claim, attempt: AttemptRecord, at: int)
    requires ReadyFor(row, claim, attempt.ordinal) && attempt.Fence() == claim.Fence()
    requires claim.leaseExpiresAtMillis > at
    requires attempt.Closes() ==> Policy.TerminalState(attempt).Some?
    ensures Enabled(row, Recorded(at, attempt))
    ensures !attempt.Closes() ==> ReadyFor(After(row, Recorded(at, attempt)), claim, attempt.ordinal + 1)
  {
  }

  lemma OneMoreRecord(
    r: Resilience, deadline: int, rounds: nat -> Round, firstOrdinal: int, n: nat, id: DeliveryId, claim: Claim,
    trace: Trace)
    ensures Records(r, deadline, rounds, firstOrdinal, n + 1, id, claim, trace) ==
            Records(r, deadline, rounds, firstOrdinal, n, id, claim, trace) +
            [MakeRecord(id, claim, AttemptOf(r, deadline, firstOrdinal, n, rounds(n)), trace)]
  {
  }

  /** Everything in the log was done by the holder of the claim: recordings and renewals, in any order. */
  predicate HoldersLog(log: seq<Change>) {
    forall i :: 0 <= i < |log| ==> log[i].Recorded? || log[i].Renewed?
  }

  /** When the claim expires after a holder's log, if it expired at `expiry` before. */
  function ExpiryAfter(log: seq<Change>, expiry: int): int {
    if |log| == 0 then expiry
    else
      var last := log[|log| - 1];
      if last.Renewed? then last.at + last.lease else ExpiryAfter(log[..|log| - 1], expiry)
  }

  /** A holder's log in which every step comes before the claim expires, as renewed by then. */
  predicate Timely(log: seq<Change>, fence: Token, expiry: int) {
    |log| > 0 ==>
      var before := log[..|log| - 1];
      var last := log[|log| - 1];
      && Timely(before, fence, expiry)
      && (match last
          case Recorded(at, _) => at < ExpiryAfter(before, expiry)
          case Renewed(bearer, at, _) => bearer == fence && at < ExpiryAfter(before, expiry)
          case _ => false)
  }

  /** A renewal under a running lease is accepted and only moves the expiry. */
  lemma RenewalIsEnabled(row: Row, claim: Claim, ordinal: int, at: int, lease: int)
    requires ReadyFor(row, claim, ordinal) && at < claim.leaseExpiresAtMillis
    ensures Enabled(row, Renewed(claim.Fence(), at, lease))
    ensures ReadyFor(After(row, Renewed(claim.Fence(), at, lease)), claim.(leaseExpiresAtMillis := at + lease), ordinal)
  {
  }

  /** While the engine goes on, every step of a timely log is accepted. */
  lemma {:induction false} TimelyLogIsPossible(
    r: Resilience, deadline: int, rounds: nat -> Round, firstOrdinal: int, n: nat,
    row: Row, claim: Claim, trace: Trace, log: seq<Change>)
    requires ReadyFor(row, claim, firstOrdinal) && Timely(log, claim.Fence(), claim.leaseExpiresAtMillis)
    requires History.RecordedIn(log) == Records(r, deadline, rounds, firstOrdinal, n, row.delivery.id, claim, trace)
    requires forall i: nat :: i < n ==> GoesOn(r, deadline, rounds, i)
    ensures Possible(row, log) && HoldersLog(log)
    ensures ReadyFor(
              Fold(row, log), claim.(leaseExpiresAtMillis := ExpiryAfter(log, claim.leaseExpiresAtMillis)),
              firstOrdinal + n)
  {
    if |log| == 0 {
      assert n == 0;
    } else {
      var before, last := log[..|log| - 1], log[|log| - 1];
      var running := claim.(leaseExpiresAtMillis := ExpiryAfter(before, claim.leaseExpiresAtMillis));
      if last.Renewed? {
        TimelyLogIsPossible(r, deadline, rounds, firstOrdinal, n, row, claim, trace, before);
        RenewalIsEnabled(Fold(row, before), running, firstOrdinal + n, last.at, last.lease);
      } else {
        assert n > 0;
        assert GoesOn(r, deadline, rounds, n - 1);
        OneMoreRecord(r, deadline, rounds, firstOrdinal, n - 1, row.delivery.id, claim, trace);
        LastRecorded(log, Records(r, deadline, rounds, firstOrdinal, n - 1, row.delivery.id, claim, trace),
          MakeRecord(row.delivery.id, claim, AttemptOf(r, deadline, firstOrdinal, n - 1, rounds(n - 1)), trace));
        TimelyLogIsPossible(r, deadline, rounds, firstOrdinal, n - 1, row, claim, trace, before);
        RecordingIsEnabled(Fold(row, before), running, last.attempt, last.at);
      }
    }
  }

  lemma LastRecorded(log: seq<Change>, records: seq<AttemptRecord>, record: AttemptRecord)
    requires |log| > 0 && log[|log| - 1].Recorded? && History.RecordedIn(log) == records + [record]
    ensures log[|log| - 1].attempt == record && History.RecordedIn(log[..|log| - 1]) == records
  {
    assert History.RecordedIn(log)[|records|] == record;
    assert History.RecordedIn(log)[..|records|] == records;
    assert History.RecordedIn(log)[..|History.RecordedIn(log)| - 1] == History.RecordedIn(log[..|log| - 1]);
  }

  lemma FinalRecordDecides(
    r: Resilience, deadline: int, rounds: nat -> Round, firstOrdinal: int, last: nat, id: DeliveryId, claim: Claim,
    trace: Trace)
    requires !GoesOn(r, deadline, rounds, last) && rounds(last).recorded
    ensures var record := MakeRecord(id, claim, AttemptOf(r, deadline, firstOrdinal, last, rounds(last)), trace);
            && record.Closes() && Policy.TerminalState(record).Some?
            && record.ordinal == firstOrdinal + last && record.Fence() == claim.Fence()
  {
  }

  /** The last record of a timely log, which closes the delivery, is accepted after the others. */
  lemma ClosingStepIsPossible(row: Row, claim: Claim, log: seq<Change>, record: AttemptRecord)
    requires |log| > 0 && log[|log| - 1].Recorded? && log[|log| - 1].attempt == record
    requires Possible(row, log[..|log| - 1]) && HoldersLog(log[..|log| - 1])
    requires ReadyFor(Fold(row, log[..|log| - 1]), claim, record.ordinal) && record.Fence() == claim.Fence()
    requires record.Closes() && Policy.TerminalState(record).Some? && log[|log| - 1].at < claim.leaseExpiresAtMillis
    ensures Possible(row, log) && HoldersLog(log)
  {
    RecordingIsEnabled(Fold(row, log[..|log| - 1]), claim, record, log[|log| - 1].at);
  }

  lemma TimelyRunIsPossible(
    r: Resilience, deadline: int, rounds: nat -> Round, firstOrdinal: int, last: nat,
    row: Row, claim: Claim, trace: Trace, log: seq<Change>)
    requires ReadyFor(row, claim, firstOrdinal) && Timely(log, claim.Fence(), claim.leaseExpiresAtMillis)
    requires |log| > 0 && log[|log| - 1].Recorded?
    requires History.RecordedIn(log) ==
             Records(r, deadline, rounds, firstOrdinal, last + 1, row.delivery.id, claim, trace)
    requires forall i: nat :: i < last ==> GoesOn(r, deadline, rounds, i)
    requires !GoesOn(r, deadline, rounds, last) && rounds(last).recorded
    ensures Possible(row, log) && HoldersLog(log)
  {
    var before := log[..|log| - 1];
    var record := MakeRecord(row.delivery.id, claim, AttemptOf(r, deadline, firstOrdinal, last, rounds(last)), trace);
    OneMoreRecord(r, deadline, rounds, firstOrdinal, last, row.delivery.id, claim, trace);
    LastRecorded(log, Records(r, deadline, rounds, firstOrdinal, last, row.delivery.id, claim, trace), record);
    TimelyLogIsPossible(r, deadline, rounds, firstOrdinal, last, row, claim, trace, before);
    FinalRecordDecides(r, deadline, rounds, firstOrdinal, last, row.delivery.id, claim, trace);
    ClosingStepIsPossible(
      row, claim.(leaseExpiresAtMillis := ExpiryAfter(before, claim.leaseExpiresAtMillis)), log, record);
  }

  /**
   From engine to store: if renewals always come in time, however many there are and whenever they come,
   each of the engine's attempts is accepted, and the delivery ends in the state of the engine's result,
   with its claim cleared and exactly these attempts added.
   */
  lemma EngineRunCommits(
    r: Resilience, deadline: int, rounds: nat -> Round, firstOrdinal: int, last: nat,
    row: Row, claim: Claim, trace: Trace, log: seq<Change>)
    requires row.Valid() && ReadyFor(row, claim, firstOrdinal) && Timely(log, claim.Fence(), claim.leaseExpiresAtMillis)
    requires |log| > 0 && log[|log| - 1].Recorded?
    requires History.RecordedIn(log) ==
             Records(r, deadline, rounds, firstOrdinal, last + 1, row.delivery.id, claim, trace)
    requires forall i: nat :: i < last ==> GoesOn(r, deadline, rounds, i)
    requires !GoesOn(r, deadline, rounds, last) && rounds(last).recorded
    ensures var attempts := Attempts(r, deadline, firstOrdinal, rounds, last + 1);
            && Possible(row, log)
            && Fold(row, log).delivery.state == FinalState(rounds(last).answer) ==
               Policy.StateFromResult(TerminalResult(rounds(last).Observed(), attempts))
            && Fold(row, log).claim == None
            && Fold(row, log).attempts ==
               row.attempts + Records(r, deadline, rounds, firstOrdinal, last + 1, row.delivery.id, claim, trace)
  {
    TimelyRunIsPossible(r, deadline, rounds, firstOrdinal, last, row, claim, trace, log);
    RenewedRunCommits(r, deadline, rounds, firstOrdinal, last, row, claim, trace, log);
  }

  lemma {:induction false} LastRecordDecides(initial: DeliveryState, log: seq<Change>)
    requires HoldersLog(log) && |History.RecordedIn(log)| > 0
    ensures var records := History.RecordedIn(log);
            var final := records[|records| - 1];
            Policy.TerminalState(final).Some? ==> History.StateOf(initial, log) == Policy.TerminalState(final).value
  {
    if log[|log| - 1].Recorded? {
    } else {
      LastRecordDecides(initial, log[..|log| - 1]);
    }
  }

  /**
   Without any assumption on the lease: however many renewals come in between, once the store
   has accepted all attempts of an engine run, the delivery is in the state of the engine's result.
   */
  lemma RenewedRunCommits(
    r: Resilience, deadline: int, rounds: nat -> Round, firstOrdinal: int, last: nat,
    row: Row, claim: Claim, trace: Trace, log: seq<Change>)
    requires row.Valid() && Possible(row, log) && HoldersLog(log)
    requires History.RecordedIn(log) ==
             Records(r, deadline, rounds, firstOrdinal, last + 1, row.delivery.id, claim, trace)
    requires !GoesOn(r, deadline, rounds, last) && rounds(last).recorded
    ensures var attempts := Attempts(r, deadline, firstOrdinal, rounds, last + 1);
            && Fold(row, log).delivery.state == FinalState(rounds(last).answer) ==
               Policy.StateFromResult(TerminalResult(rounds(last).Observed(), attempts))
            && Fold(row, log).claim == None
            && Fold(row, log).attempts ==
               row.attempts + Records(r, deadline, rounds, firstOrdinal, last + 1, row.delivery.id, claim, trace)
  {
    History.FoldFacts(row, log);
    LastRecordDecides(row.delivery.state, log);
    ResultAndRecordAgree(r, deadline, rounds, firstOrdinal, last, row.delivery.id, claim, trace);
  }
}

/**
 src/deliveryWorker.ts: claimed deliveries from the first renewal to the exit, any number of workers on
 one shared store.

 Each worker runs its engine on a script, which is what its clock, schedule and destination will do.
 Execution, renewal loop and cancellation race; each is a turn that may happen whenever it is ready,
 interleaved with the turns of all other workers and any other calls of the store. A store call may also
 lose its request or its reply, or take effect only after the race was decided. A crash is a worker that
 takes no more turns.
 */
module DeliveryWorker {
  import opened Domain
  import opened Ledger
  import opened Runs
  import opened Fencing
  import opened History
  import Engine

  /**
   What the engine of one worker will do, round by round: the attempt it makes if it comes to that round,
   with its decision, and what it will hear of recording it. `Plays` says which engine runs these are.
   */
  datatype Script = Script(
    attempts: nat -> Attempt,
    recorded: nat -> bool,
    firstOrdinal: int,
    trace: Trace)
  {
    ghost predicate Sane() {
      && firstOrdinal >= 1 && trace.Consistent()
      && (forall i: nat :: attempts(i).ordinal == firstOrdinal + i && attempts(i).Storable())
    }

    predicate GoesOn(i: nat) { attempts(i).decision.RetryScheduled? && recorded(i) }

    predicate RunsUpTo(n: nat) {
      n == 0 || (RunsUpTo(n - 1) && GoesOn(n - 1))
    }

    /** The script is what the retry engine does with these answers, clock readings, backoffs and random fractions. */
    ghost predicate Plays(r: Engine.Resilience, deadline: int, rounds: nat -> Engine.Round) {
      forall i: nat ::
        && attempts(i) == Engine.AttemptOf(r, deadline, firstOrdinal, i, rounds(i))
        && recorded(i) == rounds(i).recorded
    }
  }

  /** The identifiers of a span are recorded exactly if both have the right form. */
  lemma CorrelationIsExact(traceId: string, spanId: string)
    ensures var trace := Correlate(traceId, spanId);
            && trace.Consistent()
            && (trace.traceId.Some? || trace.spanId.Some? ==> trace == Trace(Some(traceId), Some(spanId)))
            && (trace.traceId.Some? <==> Trace(Some(traceId), Some(spanId)).Consistent())
  {
  }

  /** Every plausible engine run, under any span, is a script that a worker may play. */
  lemma EngineScripts(
    r: Engine.Resilience, deadline: int, rounds: nat -> Engine.Round, firstOrdinal: int, traceId: string,
    spanId: string)
    returns (script: Script)
    requires Engine.Plausible(r, rounds) && firstOrdinal >= 1
    ensures script.Sane() && script.Plays(r, deadline, rounds)
    ensures script.firstOrdinal == firstOrdinal && script.trace == Correlate(traceId, spanId)
  {
    script := Script(
      (i: nat) => Engine.AttemptOf(r, deadline, firstOrdinal, i, rounds(i)), (i: nat) => rounds(i).recorded,
      firstOrdinal, Correlate(traceId, spanId));
    forall i: nat
      ensures script.attempts(i).ordinal == firstOrdinal + i && script.attempts(i).Storable()
    {
      Engine.AttemptsAreStorable(r, deadline, rounds, firstOrdinal, i);
    }
  }

  datatype Execution =
    | Sending(round: nat)            // this attempt is next, or under way
    | Concluded(last: nat, entry: nat)  // the last attempt is recorded, as this entry of the delivery's log
    | Broken(recorded: nat)          // a recording failed, or seemed to; so many are in the store

  datatype Exit = Succeeded | Released | Unreleased

  datatype Phase = Entering | Racing | Releasing | Finished(exit: Exit)

  datatype Worker = Worker(
    id: DeliveryId,
    claim: Claim,                    // the claim reference, overwritten by renewals
    script: Script,
    phase: Phase,
    execution: Execution,
    renewalFailed: bool,
    cancelled: bool)
  {
    function Fence(): Token { claim.Fence() }

    function Record(i: nat): AttemptRecord { MakeRecord(id, claim, script.attempts(i), script.trace) }

    function Records(n: nat): seq<AttemptRecord> {
      seq(n, (i: nat) => MakeRecord(id, claim.(leaseExpiresAtMillis := 0), script.attempts(i), script.trace))
    }

    function Count(): nat {
      match execution
      case Sending(round) => round
      case Concluded(last, _) => last + 1
      case Broken(recorded) => recorded
    }
  }

  datatype Wire = Answered | RequestLost | ReplyLost

  datatype Racer = Execution | Renewal | Cancellation

  datatype Turn =
    | FirstRenewal(now: int, lease: int, wire: Wire)
    | Attempted(now: int, wire: Wire)
    | Beat(now: int, lease: int, wire: Wire)
    | Cancel
    | Settle(winner: Racer)
    | GiveUp(now: int, wire: Wire)
  {
    /** The clock of the store when the turn calls it. */
    function At(): int { if Cancel? || Settle? then 0 else now }
  }

  /** A call that was under way when the race was decided, or later still, may yet reach the store, unanswered. */
  predicate Late(worker: Worker, wire: Wire) {
    (worker.phase.Releasing? || worker.phase.Finished?) && wire.ReplyLost?
  }

  /** A store call by a worker: the run after it, and whether the worker learns that it succeeded. */
  ghost function Called(run: Run, now: int, op: Operation, wire: Wire): (r: (Run, bool))
    requires Legal(run) && Lawful(Final(run), now, op)
    ensures Legal(r.0)
  {
    if wire.RequestLost? then (run, false)
    else (Then(run, now, op), wire.Answered? && !Apply(Final(run), now, op).1.Failed?)
  }

  /** What the worker hears of a store call, if it hears anything. */
  ghost function Heard(run: Run, now: int, op: Operation, wire: Wire): Option<Reply>
    requires Legal(run) && Lawful(Final(run), now, op)
  {
    if wire.Answered? then Some(Apply(Final(run), now, op).1) else None
  }

  /** A renewal as the worker hears of it: the claim in the reply, which overwrites its own. */
  ghost function RenewedClaim(run: Run, now: int, id: DeliveryId, claim: Claim, lease: int, wire: Wire): Option<Claim>
    requires Legal(run)
  {
    match Heard(run, now, Renew(id, claim, lease), wire)
    case Some(Extended(renewed)) => Some(renewed)
    case _ => None
  }

  /** The store call of a turn. */
  function Call(worker: Worker, turn: Turn): Option<Operation> {
    match turn
    case FirstRenewal(_, lease, _) => Some(Renew(worker.id, worker.claim, lease))
    case Attempted(_, _) =>
      if worker.execution.Sending? then Some(RecordAttempt(worker.Record(worker.execution.round))) else None
    case Beat(_, lease, _) => Some(Renew(worker.id, worker.claim, lease))
    case GiveUp(_, _) => Some(Release(worker.id, worker.claim))
    case _ => None
  }

  /** A turn may be taken when the code is there. The script of the engine says what the recording will answer. */
  ghost predicate Ready(run: Run, worker: Worker, turn: Turn)
    requires Legal(run)
  {
    match turn
    case FirstRenewal(_, _, _) => worker.phase.Entering?
    case Attempted(now, wire) =>
      && (worker.phase.Racing? || Late(worker, wire))
      && worker.execution.Sending?
      && var record := worker.Record(worker.execution.round);
         && record.WellFormed()
         && worker.script.recorded(worker.execution.round) == Called(run, now, RecordAttempt(record), wire).1
    case Beat(_, _, wire) => (worker.phase.Racing? || Late(worker, wire)) && !worker.renewalFailed
    case Cancel => true
    case Settle(winner) =>
      && worker.phase.Racing?
      && (match winner
          case Execution => !worker.execution.Sending?
          case Renewal => worker.renewalFailed
          case Cancellation => worker.cancelled)
    case GiveUp(_, _) => worker.phase.Releasing?
  }

  /** The worker after its attempt was accepted, whether or not it learns of it. */
  function Accepted(worker: Worker, answered: bool, entry: nat): Worker
    requires worker.execution.Sending?
  {
    var round := worker.execution.round;
    worker.(execution :=
      if !answered then Broken(round + 1)
      else if worker.script.attempts(round).decision.RetryScheduled? then Sending(round + 1)
      else Concluded(round, entry))
  }

  ghost function Taken(run: Run, worker: Worker, turn: Turn): (Run, Worker)
    requires Legal(run) && Ready(run, worker, turn)
  {
    match turn
    case FirstRenewal(now, lease, wire) =>
      (Called(run, now, Renew(worker.id, worker.claim, lease), wire).0,
       match RenewedClaim(run, now, worker.id, worker.claim, lease, wire)
       case Some(renewed) => worker.(phase := Racing, claim := renewed)
       case None => worker.(phase := Releasing))
    case Attempted(now, wire) =>
      var round := worker.execution.round;
      var op := RecordAttempt(worker.Record(round));
      var (after, ok) := Called(run, now, op, wire);
      var took := !wire.RequestLost? && !Apply(Final(run), now, op).1.Failed?;
      (after,
       if took then Accepted(worker, ok, if worker.id in Final(run).rows then |Log(run, worker.id)| else 0)
       else worker.(execution := Broken(round)))
    case Beat(now, lease, wire) =>
      (Called(run, now, Renew(worker.id, worker.claim, lease), wire).0,
       match RenewedClaim(run, now, worker.id, worker.claim, lease, wire)
       case Some(renewed) => worker.(claim := renewed)
       case None => worker.(renewalFailed := true))
    case Cancel => (run, worker.(cancelled := true))
    case Settle(winner) =>
      (run, worker.(phase :=
         if winner.Execution? && worker.execution.Concluded? then Finished(Succeeded) else Releasing))
    case GiveUp(now, wire) =>
      (Called(run, now, Release(worker.id, worker.claim), wire).0,
       worker.(phase := Finished(if wire.Answered? then Exit.Released else Unreleased)))
  }

  /** A claim in a reply bears the token that was presented, and one is heard of exactly if the call succeeded. */
  lemma RenewalKeepsToken(run: Run, now: int, id: DeliveryId, claim: Claim, lease: int, wire: Wire)
    requires Legal(run)
    ensures var renewed := RenewedClaim(run, now, id, claim, lease, wire);
            && (renewed.Some? <==> Called(run, now, Renew(id, claim, lease), wire).1)
            && (renewed.Some? ==> renewed.value.Fence() == claim.Fence())
  {
  }

  /**
   A call that the worker made before it left the race may reach the store whenever it likes, and is applied then,
   unheard: the attempt that was under way, and a heartbeat.
   */
  lemma LateCallsAreApplied(run: Run, worker: Worker, now: int, lease: int)
    requires Legal(run) && (worker.phase.Releasing? || worker.phase.Finished?)
    ensures var turn := Attempted(now, ReplyLost);
            worker.execution.Sending? && worker.Record(worker.execution.round).WellFormed()
            && !worker.script.recorded(worker.execution.round) ==>
              && Ready(run, worker, turn)
              && Taken(run, worker, turn).0 == Then(run, now, RecordAttempt(worker.Record(worker.execution.round)))
    ensures var turn := Beat(now, lease, ReplyLost);
            !worker.renewalFailed ==>
              && Ready(run, worker, turn)
              && Taken(run, worker, turn).0 == Then(run, now, Renew(worker.id, worker.claim, lease))
  {
  }

  // ---- One token among many ---------------------------------------------------------------

  ghost predicate Standing(run: Run, id: DeliveryId, fence: Token)
    requires Legal(run)
  {
    id in Final(run).rows && (Final(run).rows[id].Holds(fence) || Stale(Final(run).rows[id], fence))
  }

  /** The attempts that were recorded with this token. */
  function Own(attempts: seq<AttemptRecord>, fence: Token): seq<AttemptRecord> {
    if |attempts| == 0 then []
    else
      var last := attempts[|attempts| - 1];
      Own(attempts[..|attempts| - 1], fence) + if last.Fence() == fence then [last] else []
  }

  lemma OwnAfter(attempts: seq<AttemptRecord>, attempt: AttemptRecord, fence: Token)
    ensures Own(attempts + [attempt], fence) ==
            Own(attempts, fence) + if attempt.Fence() == fence then [attempt] else []
  {
    assert (attempts + [attempt])[..|attempts + [attempt]| - 1] == attempts;
  }

  /** All that matters of the store to the bearer of one token. */
  datatype Facts = Facts(
    standing: bool,               // current or stale: never a token of the future
    stale: bool,
    own: seq<AttemptRecord>,      // the attempts recorded with the token
    session: Option<int>,         // the ordinal it is to use next
    log: seq<Change>)             // what happened to the delivery
  {
    /** What steps of others leave of the facts. */
    ghost predicate Continues(earlier: Facts) {
      standing && (earlier.stale ==> stale) && own == earlier.own && session == earlier.session && earlier.log <= log
    }

    /** What an accepted recording adds to them. */
    ghost predicate Adds(earlier: Facts, attempt: AttemptRecord) {
      && standing && (earlier.stale || attempt.Closes() ==> stale)
      && own == earlier.own + [attempt]
      && (earlier.session.Some? ==> session == Some(earlier.session.value + 1))
      && earlier.log < log && Landed(attempt, |earlier.log|)
    }

    /** The log has the recording of this attempt as entry `p`. */
    predicate Landed(attempt: AttemptRecord, p: nat) {
      p < |log| && log[p].Recorded? && log[p].attempt == attempt
    }
  }

  ghost function Seen(run: Run, id: DeliveryId, fence: Token): Facts
    requires Legal(run)
  {
    var known := id in Final(run).rows;
    Facts(
      Standing(run, id, fence),
      StaleIn(Final(run), id, fence),
      if known then Own(Final(run).rows[id].attempts, fence) else [],
      Session(run, id, fence),
      if known then Log(run, id) else [])
  }

  predicate RecordsWith(op: Operation, id: DeliveryId, fence: Token) {
    op.RecordAttempt? && op.attempt.deliveryId == id && op.attempt.Fence() == fence
  }

  lemma ChangeByOthers(row: Row, change: Change, fence: Token)
    requires row.Valid() && Enabled(row, change) && (row.Holds(fence) || Stale(row, fence))
    requires change.Recorded? ==> change.attempt.Fence() != fence
    ensures After(row, change).Holds(fence) || Stale(After(row, change), fence)
    ensures Stale(row, fence) ==> Stale(After(row, change), fence)
    ensures Own(After(row, change).attempts, fence) == Own(row.attempts, fence)
  {
    if change.Recorded? {
      OwnAfter(row.attempts, change.attempt, fence);
    }
  }

  lemma ChangeByBearer(row: Row, at: int, attempt: AttemptRecord)
    requires row.Valid() && Enabled(row, Recorded(at, attempt))
    ensures var after := After(row, Recorded(at, attempt));
            && Own(after.attempts, attempt.Fence()) == Own(row.attempts, attempt.Fence()) + [attempt]
            && !Stale(row, attempt.Fence())
            && if attempt.Closes() then Stale(after, attempt.Fence()) else after.Holds(attempt.Fence())
  {
    OwnAfter(row.attempts, attempt, attempt.Fence());
  }

  /** Steps that do not record with a token leave its facts to the rules of the store. */
  lemma StoreStep(run: Run, now: int, op: Operation, id: DeliveryId, fence: Token)
    requires Legal(run) && Lawful(Final(run), now, op) && Standing(run, id, fence)
    requires !RecordsWith(op, id, fence)
    ensures Legal(Then(run, now, op)) && Seen(Then(run, now, op), id, fence).Continues(Seen(run, id, fence))
  {
    var l := Final(run);
    FinalIsValid(run);
    StepsAreChanges(l, now, op, id);
    var effect := Effect(l, now, op, id);
    if effect.Some? {
      ChangeByOthers(l.rows[id], effect.value, fence);
    }
  }

  /** A recording is accepted only while its token is current; it is logged, and a last attempt gives the claim up. */
  lemma AcceptedRecording(run: Run, now: int, attempt: AttemptRecord, facts: Facts, later: Facts)
    requires Legal(run) && Lawful(Final(run), now, RecordAttempt(attempt))
    requires Refusal(Final(run), now, RecordAttempt(attempt)).None?
    requires facts == Seen(run, attempt.deliveryId, attempt.Fence())
    requires Legal(Then(run, now, RecordAttempt(attempt)))
    requires later == Seen(Then(run, now, RecordAttempt(attempt)), attempt.deliveryId, attempt.Fence())
    ensures !LastReply(Then(run, now, RecordAttempt(attempt))).Failed?
    ensures later.Adds(facts, attempt)
  {
    RecordingIsLogged(run, now, attempt);
    RecordingShows(run, now, attempt, facts, later);
    SessionAfterRecording(run, now, attempt);
    RecordingAdds(facts, later, now, attempt);
  }

  lemma RecordingShows(run: Run, now: int, attempt: AttemptRecord, facts: Facts, later: Facts)
    requires Legal(run) && Lawful(Final(run), now, RecordAttempt(attempt))
    requires Refusal(Final(run), now, RecordAttempt(attempt)).None?
    requires facts == Seen(run, attempt.deliveryId, attempt.Fence())
    requires Legal(Then(run, now, RecordAttempt(attempt)))
    requires later == Seen(Then(run, now, RecordAttempt(attempt)), attempt.deliveryId, attempt.Fence())
    ensures later.standing && !facts.stale && (attempt.Closes() ==> later.stale)
    ensures later.own == facts.own + [attempt]
    ensures later.log == facts.log + [Recorded(now, attempt)]
  {
    RecordingIsLogged(run, now, attempt);
    ChangeByBearer(Final(run).rows[attempt.deliveryId], now, attempt);
  }

  lemma RecordingAdds(facts: Facts, later: Facts, now: int, attempt: AttemptRecord)
    requires later.standing && !facts.stale && (attempt.Closes() ==> later.stale)
    requires later.own == facts.own + [attempt] && later.log == facts.log + [Recorded(now, attempt)]
    requires facts.session.Some? ==> later.session == Some(facts.session.value + 1)
    ensures later.Adds(facts, attempt)
  {
  }

  lemma RecordingIsLogged(run: Run, now: int, attempt: AttemptRecord)
    requires Legal(run) && Lawful(Final(run), now, RecordAttempt(attempt))
    requires Refusal(Final(run), now, RecordAttempt(attempt)).None?
    ensures attempt.deliveryId in Final(run).rows && Final(run).rows[attempt.deliveryId].Valid()
    ensures var id := attempt.deliveryId;
            var after := Then(run, now, RecordAttempt(attempt));
            && Enabled(Final(run).rows[id], Recorded(now, attempt)) && !LastReply(after).Failed?
            && id in Final(after).rows && Final(after).rows[id] == After(Final(run).rows[id], Recorded(now, attempt))
            && Log(after, id) == Log(run, id) + [Recorded(now, attempt)]
  {
    FinalIsValid(run);
    AcceptedExactlyWhenEnabled(Final(run), now, RecordAttempt(attempt));
    Granted(Final(run), now, RecordAttempt(attempt));
  }

  lemma RecordingIsCounted(l: Ledger, now: int, attempt: AttemptRecord, was: Option<int>)
    requires Refusal(l, now, RecordAttempt(attempt)).None? && was.Some?
    ensures Counted(l, now, RecordAttempt(attempt), attempt.deliveryId, attempt.Fence(), was) == Some(was.value + 1)
  {
    Granted(l, now, RecordAttempt(attempt));
  }

  lemma SessionAfterRecording(run: Run, now: int, attempt: AttemptRecord)
    requires Legal(run) && Legal(Then(run, now, RecordAttempt(attempt)))
    requires Refusal(Final(run), now, RecordAttempt(attempt)).None?
    ensures var was := Session(run, attempt.deliveryId, attempt.Fence());
            was.Some? ==>
              Session(Then(run, now, RecordAttempt(attempt)), attempt.deliveryId, attempt.Fence()) ==
              Some(was.value + 1)
  {
    var was := Session(run, attempt.deliveryId, attempt.Fence());
    if was.Some? {
      RecordingIsCounted(Final(run), now, attempt, was);
    }
  }

  lemma RefusedRecording(run: Run, now: int, attempt: AttemptRecord)
    requires Legal(run) && Lawful(Final(run), now, RecordAttempt(attempt))
    requires Standing(run, attempt.deliveryId, attempt.Fence())
    requires Refusal(Final(run), now, RecordAttempt(attempt)).Some?
    ensures Legal(Then(run, now, RecordAttempt(attempt)))
    ensures LastReply(Then(run, now, RecordAttempt(attempt))).Failed?
    ensures Seen(Then(run, now, RecordAttempt(attempt)), attempt.deliveryId, attempt.Fence()).Continues(
              Seen(run, attempt.deliveryId, attempt.Fence()))
  {
    var l := Final(run);
    var op := RecordAttempt(attempt);
    Refused(l, now, op, Refusal(l, now, op).value);
  }

  // ---- What one worker keeps --------------------------------------------------------------

  ghost predicate Sound(run: Run, worker: Worker)
    requires Legal(run)
  {
    Fits(worker, Seen(run, worker.id, worker.Fence()))
  }

  ghost predicate Fits(worker: Worker, facts: Facts) {
    && facts.standing
    && worker.script.Sane() && worker.claim.generation >= 1
    && facts.own == worker.Records(worker.Count())
    && Progress(worker, facts)
    && (worker.phase == Finished(Succeeded) ==> worker.execution.Concluded?)
    && (worker.phase == Finished(Exit.Released) ==> facts.stale)
  }

  /** How far the engine has come on its script, and what the store knows of it. */
  predicate Progress(worker: Worker, facts: Facts) {
    match worker.execution
    case Sending(round) =>
      && worker.script.RunsUpTo(round)
      && facts.session == Some(worker.script.firstOrdinal + round)
    case Concluded(last, entry) =>
      && worker.script.RunsUpTo(last)
      && !worker.script.GoesOn(last) && worker.script.recorded(last)
      && facts.stale && facts.Landed(worker.Record(last), entry)
    case Broken(_) => true
  }

  lemma FitsAfterOthers(worker: Worker, facts: Facts, later: Facts)
    requires Fits(worker, facts) && later.Continues(facts)
    ensures Fits(worker, later)
  {
  }

  /**
   A worker's standing depends on its token and its engine, not on how far its lease reaches or where its fiber
   is.
   */
  lemma FitsLikewise(worker: Worker, next: Worker, facts: Facts)
    requires Fits(worker, facts)
    requires next.id == worker.id && next.Fence() == worker.Fence()
    requires next.script == worker.script && next.execution == worker.execution
    requires next.phase == Finished(Succeeded) ==> next.execution.Concluded?
    requires next.phase == Finished(Exit.Released) ==> facts.stale
    ensures Fits(next, facts)
  {
  }

  lemma FitsBroken(worker: Worker, facts: Facts)
    requires Fits(worker, facts) && worker.execution.Sending?
    ensures Fits(worker.(execution := Broken(worker.execution.round)), facts)
  {
  }

  /** The worker does not notice a step of anybody else. */
  lemma BystanderStaysSound(run: Run, now: int, op: Operation, worker: Worker)
    requires Legal(run) && Lawful(Final(run), now, op) && Sound(run, worker)
    requires !RecordsWith(op, worker.id, worker.Fence())
    ensures Legal(Then(run, now, op)) && Sound(Then(run, now, op), worker)
  {
    StoreStep(run, now, op, worker.id, worker.Fence());
    FitsAfterOthers(worker, Seen(run, worker.id, worker.Fence()), Seen(Then(run, now, op), worker.id, worker.Fence()));
  }

  /** The guard of a recording is always met: what the engine makes fits the schema of the store. */
  lemma RecordsAreWellFormed(worker: Worker, i: nat)
    requires worker.script.Sane() && worker.claim.generation >= 1
    ensures worker.Record(i).WellFormed() && worker.Record(i).ordinal == worker.script.firstOrdinal + i
  {
  }

  lemma OneMoreOwn(worker: Worker, n: nat)
    ensures worker.Records(n + 1) == worker.Records(n) + [worker.Record(n)]
  {
  }

  lemma ReleaseUnseats(l: Ledger, now: int, id: DeliveryId, claim: Claim)
    requires id in l.rows && l.rows[id].Valid()
    requires l.rows[id].Holds(claim.Fence()) || Stale(l.rows[id], claim.Fence())
    ensures StaleIn(Apply(l, now, Release(id, claim)).0, id, claim.Fence())
  {
    if l.rows[id].Holds(claim.Fence()) {
      Granted(l, now, Release(id, claim));
    } else {
      StaleIsInert(l, now, Release(id, claim));
    }
  }

  /** After an answered release the token is not current, whether it succeeded or reported a lost claim. */
  lemma OwnRelease(run: Run, now: int, id: DeliveryId, claim: Claim)
    requires Legal(run) && Standing(run, id, claim.Fence())
    ensures StaleIn(Final(Then(run, now, Release(id, claim))), id, claim.Fence())
  {
    FinalIsValid(run);
    ReleaseUnseats(Final(run), now, id, claim);
  }

  lemma FirstRenewalKeepsSound(run: Run, worker: Worker, turn: Turn)
    requires Legal(run) && Sound(run, worker) && Ready(run, worker, turn) && turn.FirstRenewal?
    ensures Legal(Taken(run, worker, turn).0)
    ensures Sound(Taken(run, worker, turn).0, Taken(run, worker, turn).1)
  {
    var (after, next) := Taken(run, worker, turn);
    if !turn.wire.RequestLost? {
      BystanderStaysSound(run, turn.now, Renew(worker.id, worker.claim, turn.lease), worker);
    }
    FitsLikewise(worker, next, Seen(after, worker.id, worker.Fence()));
  }

  lemma BeatKeepsSound(run: Run, worker: Worker, turn: Turn)
    requires Legal(run) && Sound(run, worker) && Ready(run, worker, turn) && turn.Beat?
    ensures Legal(Taken(run, worker, turn).0)
    ensures Sound(Taken(run, worker, turn).0, Taken(run, worker, turn).1)
  {
    var (after, next) := Taken(run, worker, turn);
    if !turn.wire.RequestLost? {
      BystanderStaysSound(run, turn.now, Renew(worker.id, worker.claim, turn.lease), worker);
    }
    FitsLikewise(worker, next, Seen(after, worker.id, worker.Fence()));
  }

  lemma GivingUpKeepsSound(run: Run, worker: Worker, turn: Turn)
    requires Legal(run) && Sound(run, worker) && Ready(run, worker, turn) && turn.GiveUp?
    ensures Legal(Taken(run, worker, turn).0)
    ensures Sound(Taken(run, worker, turn).0, Taken(run, worker, turn).1)
  {
    var (after, next) := Taken(run, worker, turn);
    if !turn.wire.RequestLost? {
      BystanderStaysSound(run, turn.now, Release(worker.id, worker.claim), worker);
      OwnRelease(run, turn.now, worker.id, worker.claim);
    }
    FitsLikewise(worker, next, Seen(after, worker.id, worker.Fence()));
  }

  lemma {:induction false} RunsThroughEach(script: Script, n: nat, i: nat)
    requires script.RunsUpTo(n) && i < n
    ensures script.GoesOn(i)
  {
    if i == n - 1 {
    } else {
      RunsThroughEach(script, n - 1, i);
    }
  }

  lemma DecisionGoesOn(worker: Worker, round: nat)
    ensures worker.script.GoesOn(round) <==>
            worker.script.attempts(round).decision.RetryScheduled? && worker.script.recorded(round)
    ensures worker.Record(round).Closes() <==> !worker.script.attempts(round).decision.RetryScheduled?
  {
  }

  lemma FitsAccepted(worker: Worker, facts: Facts, later: Facts, answered: bool)
    requires Fits(worker, facts) && worker.execution.Sending? && worker.phase != Finished(Succeeded)
    requires worker.script.recorded(worker.execution.round) == answered
    requires later.Adds(facts, worker.Record(worker.execution.round))
    ensures Fits(Accepted(worker, answered, |facts.log|), later)
  {
    OneMoreOwn(worker, worker.execution.round);
    DecisionGoesOn(worker, worker.execution.round);
  }

  lemma AttemptKeepsSound(run: Run, worker: Worker, turn: Turn)
    requires Legal(run) && Sound(run, worker) && Ready(run, worker, turn) && turn.Attempted?
    ensures Legal(Taken(run, worker, turn).0)
    ensures Sound(Taken(run, worker, turn).0, Taken(run, worker, turn).1)
  {
    var facts := Seen(run, worker.id, worker.Fence());
    if turn.wire.RequestLost? {
      FitsBroken(worker, facts);
    } else {
      var record := worker.Record(worker.execution.round);
      var later := Seen(Then(run, turn.now, RecordAttempt(record)), worker.id, worker.Fence());
      if Refusal(Final(run), turn.now, RecordAttempt(record)).Some? {
        RefusedRecording(run, turn.now, record);
        FitsAfterOthers(worker, facts, later);
        FitsBroken(worker, later);
      } else {
        AcceptedRecording(run, turn.now, record, facts, later);
        FitsAccepted(worker, facts, later, turn.wire.Answered?);
      }
    }
  }

  lemma TurnKeepsSound(run: Run, worker: Worker, turn: Turn)
    requires Legal(run) && Sound(run, worker) && Ready(run, worker, turn)
    ensures Legal(Taken(run, worker, turn).0)
    ensures Sound(Taken(run, worker, turn).0, Taken(run, worker, turn).1)
  {
    match turn
    case FirstRenewal(_, _, _) => FirstRenewalKeepsSound(run, worker, turn);
    case Attempted(_, _) => AttemptKeepsSound(run, worker, turn);
    case Beat(_, _, _) => BeatKeepsSound(run, worker, turn);
    case Cancel => FitsLikewise(worker, Taken(run, worker, turn).1, Seen(run, worker.id, worker.Fence()));
    case Settle(_) => FitsLikewise(worker, Taken(run, worker, turn).1, Seen(run, worker.id, worker.Fence()));
    case GiveUp(_, _) => GivingUpKeepsSound(run, worker, turn);
  }
}

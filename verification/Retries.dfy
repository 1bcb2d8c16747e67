/**
 No early retry, from the engine's decision to the next claim: the delay that the retry schedule of
 src/deliveryEngine.ts decides is kept by every worker of every process, restarted or not, in the clock and the
 delay of the engine and in no field of the record that carries them.
 */
module Retries {
  import opened Domain
  import opened Ledger
  import opened Runs
  import opened Stories
  import opened DeliveryWorker
  import Engine
  import Fleet
  import Leases

  /** A delivery that was settled stays so while nothing is recorded and no operator acts on it. */
  lemma {:induction false} SettledStaysQuiet(run: Run, prefix: Run, id: DeliveryId)
    requires Legal(run) && Extends(run, prefix) && Legal(prefix) && id in Final(prefix).rows
    requires Leases.Quiet(run, prefix, id) && !Final(prefix).rows[id].Pending()
    ensures id in Final(run).rows && !Final(run).rows[id].Pending()
  {
    if run == prefix {
    } else {
      SettledStaysQuiet(run.before, prefix, id);
      FinalIsValid(run.before);
      StepsAreChanges(Final(run.before), run.at, run.op, id);
    }
  }

  /** What an accepted recording leaves: a settled delivery, or one that is due after the delay of the schedule. */
  lemma RecordedIsDueAfterDelay(
    recorded: Run, r: Engine.Resilience, deadline: int, firstOrdinal: int, i: nat, round: Engine.Round, id: DeliveryId,
    claim: Claim, trace: Trace, delay: int)
    requires Legal(recorded) && recorded.Then? && LastReply(recorded) == Done
    requires recorded.op == RecordAttempt(
               MakeRecord(id, claim, Engine.AttemptOf(r, deadline, firstOrdinal, i, round), trace))
    requires round.Chronological() && 0.0 <= round.fraction < 1.0
    requires Engine.NextDelay(r, deadline, i, round) == Some(delay)
    ensures id in Final(recorded).rows
    ensures Final(recorded).rows[id].Pending() ==>
              Final(recorded).rows[id].nextEligibleAt ==
              round.completed / Engine.NANOS_PER_MILLI + delay / Engine.NANOS_PER_MILLI
  {
    var record := MakeRecord(id, claim, Engine.AttemptOf(r, deadline, firstOrdinal, i, round), trace);
    var l := Final(recorded.before);
    AcceptedExactlyWhenEnabled(l, recorded.at, recorded.op);
    Granted(l, recorded.at, recorded.op);
    DelayIsInTheRecord(r, deadline, firstOrdinal, i, round, id, claim, trace, delay);
    RecordMovesDueTime(l.rows[id], recorded.at, record);
  }

  /** Of the schedule and the record: where the record does not close the delivery, it carries the schedule's delay. */
  lemma DelayIsInTheRecord(
    r: Engine.Resilience, deadline: int, firstOrdinal: int, i: nat, round: Engine.Round, id: DeliveryId, claim: Claim,
    trace: Trace, delay: int)
    requires round.Chronological() && 0.0 <= round.fraction < 1.0
    requires Engine.NextDelay(r, deadline, i, round) == Some(delay)
    ensures var record := MakeRecord(id, claim, Engine.AttemptOf(r, deadline, firstOrdinal, i, round), trace);
            !record.Closes() ==>
              && record.completedAtMillis == round.completed / Engine.NANOS_PER_MILLI
              && record.retryDelayMillis == Some(delay / Engine.NANOS_PER_MILLI)
  {
    Engine.RecordsTellTheirRounds(r, deadline, firstOrdinal, i, round, id, claim, trace);
    Engine.ClampNeverSchedules(r, deadline, i, round);
    Engine.WantedIsTheDelay(round);
  }

  lemma RecordMovesDueTime(row: Row, at: int, record: AttemptRecord)
    requires Enabled(row, Recorded(at, record))
    ensures record.Closes() ==> !After(row, Recorded(at, record)).Pending()
    ensures !record.Closes() && record.retryDelayMillis.Some? ==>
              After(row, Recorded(at, record)).nextEligibleAt ==
              record.completedAtMillis + record.retryDelayMillis.value
  {
  }

  /**
   After the store has accepted what the engine made of a round, and the schedule gave it a delay, no claim of the
   delivery by anyone comes before the completion of that round plus the delay, unless an operator acts or another
   attempt is recorded first.
   */
  lemma NoEarlyClaim(
    run: Run, recorded: Run, r: Engine.Resilience, deadline: int, firstOrdinal: int, i: nat, round: Engine.Round,
    id: DeliveryId, claim: Claim, trace: Trace, delay: int)
    requires Legal(run) && run.Then? && Extends(run.before, recorded) && Legal(recorded)
    requires recorded.Then? && LastReply(recorded) == Done
    requires recorded.op == RecordAttempt(
               MakeRecord(id, claim, Engine.AttemptOf(r, deadline, firstOrdinal, i, round), trace))
    requires round.Chronological() && 0.0 <= round.fraction < 1.0
    requires Engine.NextDelay(r, deadline, i, round) == Some(delay)
    requires Leases.Quiet(run.before, recorded, id)
    requires run.op.ClaimPending? && id in run.op.chosen
    ensures run.at >= round.completed / Engine.NANOS_PER_MILLI + delay / Engine.NANOS_PER_MILLI
  {
    RecordedIsDueAfterDelay(recorded, r, deadline, firstOrdinal, i, round, id, claim, trace, delay);
    assert Final(run.before).Eligible(id, run.op.destination, run.at);
    if Final(recorded).rows[id].Pending() {
      Leases.DueTimeIsKept(run.before, recorded, id);
    } else {
      SettledStaysQuiet(run.before, recorded, id);
    }
  }

  /**
   The same for the workers of every process: once an attempt of a worker that plays an engine was accepted,
   whether the worker hears of it, goes on, crashes or is superseded, nobody claims the delivery too early.
   */
  lemma WorkersNeverRetryEarly(
    story: Story<Fleet.World, Fleet.Move>, run: Run, r: Engine.Resilience, deadline: int, rounds: nat -> Engine.Round,
    delay: int)
    requires Fleet.Told(story) && story.Followed? && story.move.By? && story.move.turn.Attempted?
    requires var w := Fleet.Now(story.before);
             var worker := w.workers[story.move.worker];
             && worker.script.Plays(r, deadline, rounds) && Engine.Plausible(r, rounds)
             && Engine.NextDelay(r, deadline, worker.execution.round, rounds(worker.execution.round)) == Some(delay)
             && Legal(Fleet.Now(story).run) && Fleet.Now(story).run != w.run && LastReply(Fleet.Now(story).run) == Done
    requires Legal(run) && run.Then? && Extends(run.before, Fleet.Now(story).run)
    requires var id := Fleet.Now(story.before).workers[story.move.worker].id;
             && Leases.Quiet(run.before, Fleet.Now(story).run, id)
             && run.op.ClaimPending? && id in run.op.chosen
    ensures var worker := Fleet.Now(story.before).workers[story.move.worker];
            run.at >= rounds(worker.execution.round).completed / Engine.NANOS_PER_MILLI + delay / Engine.NANOS_PER_MILLI
  {
    var w := Fleet.Now(story.before);
    var worker := w.workers[story.move.worker];
    var i := worker.execution.round;
    Fleet.TurnIsAStep(w.run, worker, story.move.turn);
    assert rounds(i).Chronological();
    assert worker.script.attempts(i) == Engine.AttemptOf(r, deadline, worker.script.firstOrdinal, i, rounds(i));
    NoEarlyClaim(
      run, Fleet.Now(story).run, r, deadline, worker.script.firstOrdinal, i, rounds(i), worker.id, worker.claim,
      worker.script.trace, delay);
  }
}

/**
 How workers leave, read off their stories: which turns were taken, what the network did to them and what the
 store answered. A job is told of success exactly when its last attempt was accepted and answered and its race was
 settled by the engine, and every failure has its cause in the story.
 */
module Exits {
  import opened Domain
  import opened Ledger
  import opened Runs
  import opened Stories
  import opened DeliveryWorker
  import Deliveries
  import Fleet
  import Supervisor

  // ---- What happened to a worker ----------------------------------------------------------

  datatype Event =
    | Refreshed                  // the first renewal succeeded
    | NotRefreshed               // it failed, or was not answered
    | LastRecorded               // an attempt that closes the delivery was accepted and answered
    | NotRecorded                // an attempt was refused, or its recording not answered
    | BeatMissed                 // a heartbeat was refused or not answered
    | AskedToStop
    | WonBy(racer: Racer)        // the race was settled
    | GivenUp(answered: bool)    // the claim was released, or should have been

  function WireOf(turn: Turn): Option<Wire> {
    match turn
    case FirstRenewal(_, _, wire) => Some(wire)
    case Attempted(_, wire) => Some(wire)
    case Beat(_, _, wire) => Some(wire)
    case GiveUp(_, wire) => Some(wire)
    case _ => None
  }

  /** The turn called the store, the call was answered, and the answer was no error. */
  ghost predicate Succeeds(turn: Turn, before: Run, after: Run)
    requires Legal(after)
  {
    WireOf(turn) == Some(Answered) && after.Then? && after.before == before && !LastReply(after).Failed?
  }

  /** What a turn was, given the store before and after it. */
  ghost function EventOf(turn: Turn, before: Run, after: Run): Option<Event>
    requires Legal(after)
  {
    match turn
    case FirstRenewal(_, _, _) => Some(if Succeeds(turn, before, after) then Refreshed else NotRefreshed)
    case Attempted(_, _) =>
      if !Succeeds(turn, before, after) then Some(NotRecorded)
      else if after.op.RecordAttempt? && after.op.attempt.Closes() then Some(LastRecorded)
      else None
    case Beat(_, _, _) => if Succeeds(turn, before, after) then None else Some(BeatMissed)
    case Cancel => Some(AskedToStop)
    case Settle(winner) => Some(WonBy(winner))
    case GiveUp(_, wire) => Some(GivenUp(wire.Answered?))
  }

  /** Everything that happened to this worker so far. */
  ghost function Events(story: Story<Fleet.World, Fleet.Move>, k: nat): set<Event>
    requires Fleet.Told(story)
  {
    match story
    case Opening(_) => {}
    case Followed(before, By(j, turn)) =>
      Fleet.StoriesAreOrderly(story);
      var event := if j == k then EventOf(turn, Fleet.Now(before).run, Fleet.Now(story).run) else None;
      Events(before, k) + (if event.Some? then {event.value} else {})
    case Followed(before, _) => Events(before, k)
  }

  // ---- Where a worker is, from what happened to it ----------------------------------------

  /** Its engine won the race with everything recorded. */
  predicate Won(events: set<Event>) { WonBy(Racer.Execution) in events && LastRecorded in events }

  /** It lost: by its first renewal, a missed heartbeat, a request to stop, or an engine that could not record. */
  predicate Lost(events: set<Event>) {
    || NotRefreshed in events
    || WonBy(Renewal) in events
    || WonBy(Cancellation) in events
    || (WonBy(Racer.Execution) in events && NotRecorded in events)
  }

  predicate Explained(worker: Worker, events: set<Event>) {
    && (worker.execution.Concluded? <==> LastRecorded in events)
    && (worker.execution.Broken? <==> NotRecorded in events)
    && (worker.renewalFailed <==> BeatMissed in events)
    && (worker.cancelled <==> AskedToStop in events)
    && (WonBy(Renewal) in events ==> BeatMissed in events)
    && (WonBy(Cancellation) in events ==> AskedToStop in events)
    && Placed(worker.phase, events)
  }

  predicate Placed(phase: Phase, events: set<Event>) {
    match phase
    case Entering => events <= {AskedToStop}
    case Racing => !Won(events) && !Lost(events) && Unsettled(events) && Refreshed in events
    case Releasing => Lost(events) && !Won(events) && GivenUp(true) !in events && GivenUp(false) !in events
    case Finished(exit) =>
      match exit
      case Succeeded => Won(events) && !Lost(events) && GivenUp(true) !in events && GivenUp(false) !in events
      case Released => Lost(events) && !Won(events) && GivenUp(true) in events && GivenUp(false) !in events
      case Unreleased => Lost(events) && !Won(events) && GivenUp(false) in events && GivenUp(true) !in events
  }

  predicate Unsettled(events: set<Event>) {
    && (forall racer: Racer :: WonBy(racer) !in events)
    && GivenUp(true) !in events && GivenUp(false) !in events
  }

  /** A renewal as the worker takes it is a renewal as the story shows it. */
  lemma RenewalsShow(run: Run, worker: Worker, turn: Turn)
    requires Legal(run) && Ready(run, worker, turn) && (turn.FirstRenewal? || turn.Beat?)
    ensures Legal(Taken(run, worker, turn).0)
    ensures Succeeds(turn, run, Taken(run, worker, turn).0) <==>
            RenewedClaim(run, turn.now, worker.id, worker.claim, turn.lease, turn.wire).Some?
  {
    RenewalKeepsToken(run, turn.now, worker.id, worker.claim, turn.lease, turn.wire);
  }

  /** And so is an attempt. */
  lemma AttemptsShow(run: Run, worker: Worker, turn: Turn)
    requires Legal(run) && Ready(run, worker, turn) && turn.Attempted?
    ensures var (after, next) := Taken(run, worker, turn);
            && Legal(after)
            && (next.execution.Broken? <==> !Succeeds(turn, run, after))
            && (next.execution.Concluded? <==> EventOf(turn, run, after) == Some(LastRecorded))
            && next == worker.(execution := next.execution)
  {
    DecisionGoesOn(worker, worker.execution.round);
  }

  lemma TurnsExplain(run: Run, worker: Worker, turn: Turn, events: set<Event>)
    requires Legal(run) && Ready(run, worker, turn) && Explained(worker, events)
    ensures Legal(Taken(run, worker, turn).0)
    ensures var event := EventOf(turn, run, Taken(run, worker, turn).0);
            Explained(Taken(run, worker, turn).1, events + if event.Some? then {event.value} else {})
  {
    if turn.FirstRenewal? || turn.Beat? {
      RenewalsShow(run, worker, turn);
    } else if turn.Attempted? {
      AttemptsShow(run, worker, turn);
    }
  }

  /** In every story the events explain where each worker is: each branch of its life has its condition, both ways. */
  lemma {:induction false} StoriesExplain(story: Story<Fleet.World, Fleet.Move>, k: nat)
    requires Fleet.Told(story)
    ensures k !in Fleet.Now(story).workers ==> Events(story, k) == {}
    ensures k in Fleet.Now(story).workers ==> Explained(Fleet.Now(story).workers[k], Events(story, k))
  {
    match story
    case Opening(_) =>
    case Followed(before, move) =>
      StoriesExplain(before, k);
      if move.By? && move.worker == k {
        var w := Fleet.Now(before);
        TurnsExplain(w.run, w.workers[k], move.turn, Events(before, k));
      }
  }

  lemma PlacesAreExact(phase: Phase, events: set<Event>)
    requires Placed(phase, events)
    ensures phase == Finished(Succeeded) <==> Won(events)
    ensures phase.Releasing? || phase == Finished(Exit.Released) || phase == Finished(Unreleased) <==> Lost(events)
    ensures phase == Finished(Exit.Released) <==> GivenUp(true) in events
    ensures phase == Finished(Unreleased) <==> GivenUp(false) in events
  {
  }

  /** A worker reports success exactly when it won, and has left or is leaving otherwise exactly when it lost. */
  lemma ExitsAreExact(story: Story<Fleet.World, Fleet.Move>, k: nat)
    requires Fleet.Told(story) && k in Fleet.Now(story).workers
    ensures var (phase, events) := (Fleet.Now(story).workers[k].phase, Events(story, k));
            && (phase == Finished(Succeeded) <==> Won(events))
            && (phase.Releasing? || phase == Finished(Exit.Released) || phase == Finished(Unreleased) <==> Lost(events))
            && (phase == Finished(Exit.Released) <==> GivenUp(true) in events)
            && (phase == Finished(Unreleased) <==> GivenUp(false) in events)
            && (WonBy(Renewal) in events ==> BeatMissed in events)
            && (WonBy(Cancellation) in events ==> AskedToStop in events)
  {
    StoriesExplain(story, k);
    PlacesAreExact(Fleet.Now(story).workers[k].phase, Events(story, k));
  }

  lemma ExitsTold(phase: Phase, events: set<Event>)
    requires Placed(phase, events) && phase.Finished?
    ensures Deliveries.ExitOf(phase.exit) == Supervisor.Success <==> Won(events)
    ensures Deliveries.ExitOf(phase.exit) == Supervisor.Failure <==> Lost(events)
  {
  }

  lemma ExitsAreToldExactly(story: Story<Fleet.World, Fleet.Move>, k: nat)
    requires Fleet.Told(story) && k in Fleet.Now(story).workers && Fleet.Now(story).workers[k].phase.Finished?
    ensures var told := Deliveries.ExitOf(Fleet.Now(story).workers[k].phase.exit);
            && (told == Supervisor.Success <==> Won(Events(story, k)))
            && (told == Supervisor.Failure <==> Lost(Events(story, k)))
  {
    StoriesExplain(story, k);
    ExitsTold(Fleet.Now(story).workers[k].phase, Events(story, k));
  }

  /**
   What the caller is told of a job: success if and only if the attempt that closed the delivery was accepted and
   answered, and the race then went to the engine; failure if and only if the claim could not be renewed at first,
   or the race went to a missed heartbeat or a request to stop, or to an engine that could not record.
   */
  lemma ResultsAreExact(limits: Deliveries.Limits, story: Story<Deliveries.World, Deliveries.Move>, job: Supervisor.Job)
    requires Deliveries.Told(limits, story) && job in Deliveries.Now(limits, story).line.results
    ensures job in Deliveries.Now(limits, story).fibers && Fleet.Told(Deliveries.FleetStory(limits, story))
    ensures var events := Events(Deliveries.FleetStory(limits, story), Deliveries.Now(limits, story).fibers[job]);
            && (Deliveries.Now(limits, story).line.results[job] == Supervisor.Success <==> Won(events))
            && (Deliveries.Now(limits, story).line.results[job] == Supervisor.Failure <==> Lost(events))
  {
    Deliveries.ResultIsTheExit(limits, story, job);
    ExitsAreToldExactly(Deliveries.FleetStory(limits, story), Deliveries.Now(limits, story).fibers[job]);
  }
}

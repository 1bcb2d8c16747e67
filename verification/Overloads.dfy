/**
 Admission, dispatch and the store side by side: src/deliveryAdmission.ts exports its overload report as
 `reject`, and src/deliverySupervisor.ts calls it for offers that its full queue dropped, once their claims
 are released, without asking admission.
 */
module Overloads {
  import opened Domain
  import opened Ledger
  import opened Runs
  import opened Stories
  import Admission
  import Supervisor

  datatype Limits = Limits(admission: Admission.Limits, capacity: nat)

  datatype World = World(gate: Admission.State, line: Supervisor.State, run: Run)

  datatype Move =
    | Admit(step: Admission.Move)          // a step of a caller of `admit`
    | Dispatch(turn: Supervisor.Move)      // a step of the queue, the dispatcher or a fiber
    | Return(job: Supervisor.Job, now: int, name: Admission.TicketId, destination: DestinationId)  // of a dropped offer
    | Elsewhere(now: int, op: Operation)   // any other call of the store

  ghost predicate Enabled(limits: Limits, w: World, move: Move)
    requires Legal(w.run)
  {
    match move
    case Admit(step) => !step.Drop? && Admission.Enabled(limits.admission, w.gate, step)
    case Dispatch(step) => !step.GiveBack? && Supervisor.Enabled(w.line, step)
    case Return(job, _, name, destination) =>
      job in w.line.dropping && Admission.Enabled(limits.admission, w.gate, Admission.Drop(name, destination))
    case Elsewhere(now, op) => Lawful(Final(w.run), now, op)
  }

  ghost function Next(limits: Limits, w: World, move: Move): (next: World)
    requires Legal(w.run) && Enabled(limits, w, move)
    ensures Legal(next.run)
  {
    match move
    case Admit(step) => w.(gate := Admission.Next(limits.admission, w.gate, step))
    case Dispatch(step) => w.(line := Supervisor.Next(limits.capacity, w.line, step))
    case Return(job, now, name, destination) =>
      var after := Then(w.run, now, Release(job.deliveryId, job.claim));
      var released := !LastReply(after).Failed?;
      World(
        if released then Admission.Next(limits.admission, w.gate, Admission.Drop(name, destination)) else w.gate,
        Supervisor.Next(limits.capacity, w.line, Supervisor.GiveBack(job, released)),
        after)
    case Elsewhere(now, op) => w.(run := Then(w.run, now, op))
  }

  function Fresh(limits: Limits): World {
    World(Admission.Fresh(limits.admission), Supervisor.Idle(limits.capacity), Begin(EMPTY))
  }

  ghost predicate Told(limits: Limits, story: Story<World, Move>)
    decreases story, 0
  {
    match story
    case Opening(w) => w == Fresh(limits)
    case Followed(before, move) => Told(limits, before) && Enabled(limits, Now(limits, before), move)
  }

  ghost function Now(limits: Limits, story: Story<World, Move>): (w: World)
    requires Told(limits, story)
    ensures Legal(w.run)
    decreases story, 1
  {
    match story
    case Opening(w) =>
      assert Legal(Begin(EMPTY));
      w
    case Followed(before, move) => Next(limits, Now(limits, before), move)
  }

  // ---- Each part lives its own story ------------------------------------------------------

  /** The last move released a dropped offer's claim, and so reported it. */
  ghost predicate Reports(limits: Limits, story: Story<World, Move>)
    requires Told(limits, story)
  {
    story.Followed? && story.move.Return? && !LastReply(Now(limits, story).run).Failed?
  }

  ghost function GateStory(limits: Limits, story: Story<World, Move>): Story<Admission.State, Admission.Move>
    requires Told(limits, story)
  {
    match story
    case Opening(w) => Opening(w.gate)
    case Followed(before, Admit(step)) => Followed(GateStory(limits, before), step)
    case Followed(before, Return(_, _, name, destination)) =>
      if Reports(limits, story)
      then Followed(GateStory(limits, before), Admission.Drop(name, destination)) else GateStory(limits, before)
    case Followed(before, _) => GateStory(limits, before)
  }

  ghost function LineStory(limits: Limits, story: Story<World, Move>): Story<Supervisor.State, Supervisor.Move>
    requires Told(limits, story)
  {
    match story
    case Opening(w) => Opening(w.line)
    case Followed(before, Dispatch(step)) => Followed(LineStory(limits, before), step)
    case Followed(before, Return(job, _, _, _)) =>
      Followed(LineStory(limits, before), Supervisor.GiveBack(job, Reports(limits, story)))
    case Followed(before, _) => LineStory(limits, before)
  }

  lemma {:induction false} PartsAreTold(limits: Limits, story: Story<World, Move>)
    requires Told(limits, story)
    ensures Admission.Told(limits.admission, GateStory(limits, story))
    ensures Admission.Now(limits.admission, GateStory(limits, story)) == Now(limits, story).gate
    ensures Supervisor.Told(limits.capacity, LineStory(limits, story))
    ensures Supervisor.Now(limits.capacity, LineStory(limits, story)) == Now(limits, story).line
  {
    match story
    case Opening(_) =>
    case Followed(before, _) => PartsAreTold(limits, before);
  }

  // ---- What the counter counts ------------------------------------------------------------

  ghost function Reported(limits: Limits, story: Story<World, Move>): nat
    requires Told(limits, story)
  {
    match story
    case Opening(_) => 0
    case Followed(before, _) => Reported(limits, before) + if Reports(limits, story) then 1 else 0
  }

  lemma {:induction false} ReportsAreDrops(limits: Limits, story: Story<World, Move>)
    requires Told(limits, story)
    ensures Admission.Drops(GateStory(limits, story)) == Reported(limits, story)
  {
    match story
    case Opening(_) =>
    case Followed(before, _) => ReportsAreDrops(limits, before);
  }

  /** The one counter counts both: the callers `admit` turned away and the dropped offers that gave their claim back. */
  lemma RejectedCountsBoth(limits: Limits, story: Story<World, Move>)
    requires Told(limits, story)
    ensures var gate := Now(limits, story).gate;
            gate.rejected + Admission.Size(gate.tickets, Admission.BeingRefused) ==
            Admission.TurnedAway(GateStory(limits, story)) + Reported(limits, story)
  {
    PartsAreTold(limits, story);
    Admission.RejectionsAreCounted(limits.admission, GateStory(limits, story));
    ReportsAreDrops(limits, story);
  }

  // ---- Exactly when an offer is reported --------------------------------------------------

  /** The offer of this job found the queue full. */
  ghost predicate FoundFull(limits: Limits, story: Story<World, Move>, job: Supervisor.Job)
    requires Told(limits, story)
  {
    story.Followed? &&
    (FoundFull(limits, story.before, job) ||
     (&& story.move == Dispatch(Supervisor.Offer(job.deliveryId, job.claim))
      && job.serial == Now(limits, story.before).line.offered
      && |Now(limits, story.before).line.queue| == limits.capacity))
  }

  /** When its claim was to be given back, it was still current. */
  ghost predicate FoundCurrent(limits: Limits, story: Story<World, Move>, job: Supervisor.Job)
    requires Told(limits, story)
  {
    story.Followed? &&
    (FoundCurrent(limits, story.before, job) ||
     (story.move.Return? && story.move.job == job && Supervisor.StillCurrent(Now(limits, story.before).run, job)))
  }

  /** The job was reported as a rejection by the global admission limit. */
  ghost predicate WasReported(limits: Limits, story: Story<World, Move>, job: Supervisor.Job)
    requires Told(limits, story)
  {
    story.Followed? &&
    (WasReported(limits, story.before, job) || (Reports(limits, story) && story.move.job == job))
  }

  /** The line of the joint machine moves as its dispatch moves and returns say. */
  lemma LineAfter(limits: Limits, w: World, move: Move, job: Supervisor.Job)
    requires Legal(w.run) && Enabled(limits, w, move) && |w.line.queue| <= limits.capacity
    ensures Supervisor.WasDropped(Next(limits, w, move).line, job) <==>
            || Supervisor.WasDropped(w.line, job)
            || (&& move == Dispatch(Supervisor.Offer(job.deliveryId, job.claim))
                && job.serial == w.line.offered && |w.line.queue| == limits.capacity)
  {
    match move
    case Dispatch(turn) => Supervisor.OnlyFullQueuesDrop(limits.capacity, w.line, turn, job);
    case _ =>
  }

  /** Refused jobs are those whose offers found the queue full. */
  lemma {:induction false} RefusedFoundFull(limits: Limits, story: Story<World, Move>, job: Supervisor.Job)
    requires Told(limits, story)
    ensures Supervisor.WasDropped(Now(limits, story).line, job) <==> FoundFull(limits, story, job)
  {
    match story
    case Opening(_) =>
    case Followed(before, move) =>
      RefusedFoundFull(limits, before, job);
      PartsAreTold(limits, before);
      Supervisor.StoriesAreSound(limits.capacity, LineStory(limits, before));
      LineAfter(limits, Now(limits, before), move, job);
  }

  lemma {:induction false} ReportedFoundBoth(limits: Limits, story: Story<World, Move>, job: Supervisor.Job)
    requires Told(limits, story)
    ensures WasReported(limits, story, job) <==> FoundCurrent(limits, story, job)
    ensures FoundCurrent(limits, story, job) ==> FoundFull(limits, story, job)
  {
    match story
    case Opening(_) =>
    case Followed(before, move) =>
      ReportedFoundBoth(limits, before, job);
      RefusedFoundFull(limits, before, job);
      if move.Return? {
        Supervisor.ReleaseSucceedsExactlyWhenCurrent(Now(limits, before).run, move.now, move.job);
      }
  }

  /**
   An offer ends in a report that the global admission limit is exceeded if and only if it found the queue
   full and its claim still current when it was given back, whatever permits are held then.
   */
  lemma ReportsFollowTheQueue(limits: Limits, story: Story<World, Move>, job: Supervisor.Job)
    requires Told(limits, story)
    ensures WasReported(limits, story, job) <==> FoundFull(limits, story, job) && FoundCurrent(limits, story, job)
  {
    ReportedFoundBoth(limits, story, job);
  }

  /** And only the counter moves: the report is true of the permits exactly when none of them is free. */
  lemma ReportIsTrueExactlyWhenNoneIsFree(limits: Limits, story: Story<World, Move>)
    requires limits.admission.Valid() && Told(limits, story) && Reports(limits, story)
    ensures var gate := Now(limits, story.before).gate;
            && Now(limits, story).gate == gate.(rejected := gate.rejected + 1)
            && (Admission.AllHeld(limits.admission, gate, Admission.GlobalAdmission, story.move.destination) <==>
                gate.globalFree == 0)
  {
    PartsAreTold(limits, story.before);
    Admission.StoriesAreSound(limits.admission, GateStory(limits, story.before));
    Admission.DropsTellTheTruth(
      limits.admission, Now(limits, story.before).gate, Admission.Drop(story.move.name, story.move.destination));
  }

  // ---- The two limits are independent -----------------------------------------------------

  /** An acceptance, and `n` offers of its claim. */
  function Flood(limits: Limits, record: IntakeRecord, n: nat): Story<World, Move> {
    if n == 0 then Followed(Opening(Fresh(limits)), Elsewhere(0, Accept(record, 0)))
    else Followed(Flood(limits, record, n - 1), Dispatch(Supervisor.Offer(record.deliveryId, FirstClaim(record))))
  }

  function FirstClaim(record: IntakeRecord): Claim {
    Claim(record.claim.ownerId, 1, record.claim.leaseDurationMillis)
  }

  /** Accepted, and after `n` offers the queue is full or holds them all; one more than it holds is dropped. */
  ghost predicate Flooded(limits: Limits, story: Story<World, Move>, record: IntakeRecord, n: nat) {
    && Told(limits, story)
    && var w := Now(limits, story);
       && Final(w.run) == ApplyAccept(EMPTY, 0, record, 0).0
       && w.gate == Admission.Fresh(limits.admission) && w.line.offered == n
       && |w.line.queue| == (if n <= limits.capacity then n else limits.capacity)
       && (n > limits.capacity ==>
             Supervisor.Job(limits.capacity, record.deliveryId, FirstClaim(record)) in w.line.dropping)
  }

  lemma OneMoreOffer(limits: Limits, before: Story<World, Move>, record: IntakeRecord, n: nat)
    requires Flooded(limits, before, record, n) && n <= limits.capacity
    ensures Flooded(
              limits, Followed(before, Dispatch(Supervisor.Offer(record.deliveryId, FirstClaim(record)))), record,
              n + 1)
  {
  }

  lemma FirstAcceptanceFloods(limits: Limits, record: IntakeRecord)
    ensures Flooded(limits, Flood(limits, record, 0), record, 0)
  {
    assert Legal(Begin(EMPTY));
    assert Told(limits, Flood(limits, record, 0).before);
  }

  lemma {:induction false} FloodFillsTheQueue(limits: Limits, record: IntakeRecord, n: nat)
    requires n <= limits.capacity + 1
    ensures Flooded(limits, Flood(limits, record, n), record, n)
  {
    if n == 0 {
      FirstAcceptanceFloods(limits, record);
    } else {
      FloodFillsTheQueue(limits, record, n - 1);
      OneMoreOffer(limits, Flood(limits, record, n - 1), record, n - 1);
    }
  }

  /** Then the claim of the last offer is given back. */
  function Overflow(
    limits: Limits, record: IntakeRecord, name: Admission.TicketId, d: DestinationId): Story<World, Move> {
    Followed(
      Flood(limits, record, limits.capacity + 1),
      Return(Supervisor.Job(limits.capacity, record.deliveryId, FirstClaim(record)), 0, name, d))
  }

  lemma FirstClaimIsCurrent(record: IntakeRecord, run: Run, job: Supervisor.Job)
    requires Legal(run) && Final(run) == ApplyAccept(EMPTY, 0, record, 0).0
    requires job.deliveryId == record.deliveryId && job.claim == FirstClaim(record)
    ensures Supervisor.StillCurrent(run, job)
  {
  }

  lemma CurrentReturnsReport(limits: Limits, before: Story<World, Move>, move: Move)
    requires Told(limits, before) && move.Return? && Enabled(limits, Now(limits, before), move)
    requires Supervisor.StillCurrent(Now(limits, before).run, move.job)
    ensures Told(limits, Followed(before, move)) && Reports(limits, Followed(before, move))
  {
    Supervisor.ReleaseSucceedsExactlyWhenCurrent(Now(limits, before).run, move.now, move.job);
  }

  lemma DroppedOfferIsReported(
    limits: Limits, record: IntakeRecord, before: Story<World, Move>, job: Supervisor.Job, name: Admission.TicketId,
    d: DestinationId)
    requires Told(limits, before) && Now(limits, before).gate == Admission.Fresh(limits.admission)
    requires Final(Now(limits, before).run) == ApplyAccept(EMPTY, 0, record, 0).0
    requires job in Now(limits, before).line.dropping
    requires job.deliveryId == record.deliveryId && job.claim == FirstClaim(record)
    ensures Told(limits, Followed(before, Return(job, 0, name, d)))
    ensures Reports(limits, Followed(before, Return(job, 0, name, d)))
  {
    FirstClaimIsCurrent(record, Now(limits, before).run, job);
    CurrentReturnsReport(limits, before, Return(job, 0, name, d));
  }

  lemma OverflowIsReported(limits: Limits, record: IntakeRecord, name: Admission.TicketId, d: DestinationId)
    ensures Told(limits, Overflow(limits, record, name, d)) && Reports(limits, Overflow(limits, record, name, d))
    ensures Now(limits, Overflow(limits, record, name, d).before).gate == Admission.Fresh(limits.admission)
  {
    FloodFillsTheQueue(limits, record, limits.capacity + 1);
    DroppedOfferIsReported(
      limits, record, Flood(limits, record, limits.capacity + 1),
      Supervisor.Job(limits.capacity, record.deliveryId, FirstClaim(record)), name, d);
  }

  /**
   So a rejection may name the global admission limit while every one of its permits is free: after one offer
   more than the queue holds, that one is reported, and not one permit is held, whatever the limits are.
   */
  lemma FullQueueWithFreePermits(limits: Limits, record: IntakeRecord, name: Admission.TicketId, d: DestinationId)
    requires limits.admission.Valid()
    ensures var story := Overflow(limits, record, name, d);
            && Told(limits, story) && Reports(limits, story)
            && Now(limits, story).gate.globalFree == limits.admission.global
            && !Admission.AllHeld(limits.admission, Now(limits, story.before).gate, Admission.GlobalAdmission, d)
  {
    OverflowIsReported(limits, record, name, d);
    ReportIsTrueExactlyWhenNoneIsFree(limits, Overflow(limits, record, name, d));
  }
}

/**
 Store, queue, dispatcher and workers together: src/deliverySupervisor.ts takes claims that the store handed
 out, offers each to its queue once, and gives each one that it started to a worker of src/deliveryWorker.ts.
 Everything that `Supervisor` leaves to the fibers and everything that `Fleet` assumes of whoever starts
 workers is here a move of one machine. Other processes, with workers of their own, act in between.
 */
module Deliveries {
  import opened Domain
  import opened Ledger
  import opened Runs
  import opened Fencing
  import opened Stories
  import opened DeliveryWorker
  import Engine
  import History
  import Fleet
  import Supervisor

  /** `budget` is the number of attempts that an engine may make. */
  datatype Limits = Limits(capacity: nat, budget: nat)

  datatype World = World(
    fleet: Fleet.World,
    line: Supervisor.State,
    entries: map<Supervisor.Job, ClaimedDelivery>,  // what was offered as which job
    fibers: map<Supervisor.Job, nat>,               // the workers of the jobs that were started
    unanswered: set<Supervisor.Job>)                // refused jobs whose release got no answer

  datatype Move =
    | Elsewhere(move: Fleet.Move)                   // any other call of the store, or a worker of another process
    | Offer(claimed: ClaimedDelivery)
    | Line(turn: Supervisor.Move)
    | Start(worker: nat, script: Script)
    | Work(job: Supervisor.Job, step: Turn)
    | Report(job: Supervisor.Job)
    | GiveBack(job: Supervisor.Job, now: int, wire: Wire)

  /** The claimed delivery was offered here. */
  ghost predicate IsOffered(w: World, claimed: ClaimedDelivery) {
    exists job :: job in w.entries && w.entries[job] == claimed
  }

  /** The worker runs a job of this process. */
  ghost predicate Mine(w: World, worker: nat) {
    exists job :: job in w.fibers && w.fibers[job] == worker
  }

  /** The engine behind the script stops within its budget. */
  ghost predicate Within(script: Script, budget: nat) {
    forall i: nat :: script.GoesOn(i) ==> i + 1 < budget
  }

  function ExitOf(exit: Exit): Supervisor.Exit {
    if exit.Succeeded? then Supervisor.Success else Supervisor.Failure
  }

  ghost predicate Allowed(limits: Limits, w: World, move: Move)
    requires Legal(w.fleet.run)
  {
    match move
    case Elsewhere(other) =>
      && Fleet.Allowed(w.fleet, other)
      && (other.Begin? ==> !IsOffered(w, other.claimed))
      && (other.By? ==> !Mine(w, other.worker))
    case Offer(claimed) => claimed in w.fleet.handed && !IsOffered(w, claimed)
    case Line(turn) => (turn.Pull? || turn.Take? || turn.Permit? || turn.Finish?) && Supervisor.Enabled(w.line, turn)
    case Start(worker, script) =>
      && Supervisor.Enabled(w.line, Supervisor.Start) && Within(script, limits.budget)
      && w.line.held.value in w.entries
      && Fleet.Allowed(w.fleet, Fleet.Begin(worker, w.entries[w.line.held.value], script))
    case Work(job, turn) => job in w.fibers && Fleet.Allowed(w.fleet, Fleet.By(w.fibers[job], turn))
    case Report(job) =>
      && job in w.line.running && job !in w.line.results
      && job in w.fibers && w.fibers[job] in w.fleet.workers && w.fleet.workers[w.fibers[job]].phase.Finished?
    case GiveBack(job, _, _) => job in w.line.dropping
  }

  /** The release of a refused job, as the store sees it. */
  function ReleaseOf(job: Supervisor.Job, now: int): Fleet.Move {
    Fleet.Others(now, Release(job.deliveryId, job.claim))
  }

  ghost function Next(limits: Limits, w: World, move: Move): World
    requires Legal(w.fleet.run) && Allowed(limits, w, move)
  {
    match move
    case Elsewhere(other) => w.(fleet := Fleet.Next(w.fleet, other))
    case Offer(claimed) =>
      var job := Supervisor.Job(w.line.offered, claimed.delivery.id, claimed.claim);
      w.(line := Supervisor.Next(limits.capacity, w.line, Supervisor.Offer(claimed.delivery.id, claimed.claim)),
         entries := w.entries[job := claimed])
    case Line(turn) => w.(line := Supervisor.Next(limits.capacity, w.line, turn))
    case Start(worker, script) =>
      var job := w.line.held.value;
      w.(fleet := Fleet.Next(w.fleet, Fleet.Begin(worker, w.entries[job], script)),
         line := Supervisor.Next(limits.capacity, w.line, Supervisor.Start),
         fibers := w.fibers[job := worker])
    case Work(job, turn) => w.(fleet := Fleet.Next(w.fleet, Fleet.By(w.fibers[job], turn)))
    case Report(job) =>
      w.(line := Supervisor.Next(limits.capacity, w.line,
           Supervisor.Settle(job, ExitOf(w.fleet.workers[w.fibers[job]].phase.exit))))
    case GiveBack(job, now, wire) =>
      w.(fleet := if wire.RequestLost? then w.fleet else Fleet.Next(w.fleet, ReleaseOf(job, now)),
         line := Supervisor.Next(limits.capacity, w.line, Supervisor.GiveBack(job, wire.Answered?)),
         unanswered := if wire.Answered? then w.unanswered else w.unanswered + {job})
  }

  // ---- What every move keeps --------------------------------------------------------------

  /** Each job is one claimed delivery of its own. */
  ghost predicate Entered(line: Supervisor.State, entries: map<Supervisor.Job, ClaimedDelivery>) {
    && (forall job :: job in entries <==> Supervisor.Known(line, job))
    && (forall job :: job in entries ==> entries[job].delivery.id == job.deliveryId && entries[job].claim == job.claim)
    && (forall i, j :: i in entries && j in entries && i != j ==> entries[i] != entries[j])
  }

  /** What was not started is still to be taken up: nobody else begins it. */
  ghost predicate InHand(
    line: Supervisor.State, entries: map<Supervisor.Job, ClaimedDelivery>, handed: set<ClaimedDelivery>) {
    forall job :: job in entries && job !in line.started ==> entries[job] in handed
  }

  /** A started job has a worker of its own, with its claim. */
  ghost predicate Staffed(line: Supervisor.State, fibers: map<Supervisor.Job, nat>, workers: map<nat, Worker>) {
    && (forall job :: job in fibers <==> job in line.started)
    && (forall job :: job in fibers ==> Works(workers, fibers[job], job))
    && (forall i, j :: i in fibers && j in fibers && i != j ==> fibers[i] != fibers[j])
  }

  predicate Works(workers: map<nat, Worker>, k: nat, job: Supervisor.Job) {
    k in workers && workers[k].id == job.deliveryId && workers[k].Fence() == job.claim.Fence()
  }

  /** The result of a job is the exit of its worker. */
  ghost predicate Reported(line: Supervisor.State, fibers: map<Supervisor.Job, nat>, workers: map<nat, Worker>) {
    forall job :: job in line.results ==>
      && job in fibers && fibers[job] in workers && workers[fibers[job]].phase.Finished?
      && line.results[job] == ExitOf(workers[fibers[job]].phase.exit)
  }

  /** A refused job whose release was answered has given its claim back. */
  ghost predicate GivenBack(run: Run, line: Supervisor.State, unanswered: set<Supervisor.Job>)
    requires Legal(run)
  {
    forall job :: job in line.dropped && job !in unanswered ==> StaleIn(Final(run), job.deliveryId, job.claim.Fence())
  }

  /** The books of the process: all of the above but what is in the store. */
  ghost predicate Kept(
    line: Supervisor.State, entries: map<Supervisor.Job, ClaimedDelivery>, handed: set<ClaimedDelivery>,
    fibers: map<Supervisor.Job, nat>, workers: map<nat, Worker>)
  {
    && Entered(line, entries) && InHand(line, entries, handed)
    && Staffed(line, fibers, workers) && Reported(line, fibers, workers)
  }

  ghost predicate Orderly(limits: Limits, w: World) {
    && Fleet.Orderly(w.fleet) && Supervisor.Sound(limits.capacity, w.line)
    && Kept(w.line, w.entries, w.fleet.handed, w.fibers, w.fleet.workers)
    && GivenBack(w.fleet.run, w.line, w.unanswered)
  }

  // ---- Moves of the fleet -----------------------------------------------------------------

  /** A worker keeps its token, and once it has left it does not come back. */
  lemma TurnKeepsBearer(run: Run, worker: Worker, turn: Turn)
    requires Legal(run) && Ready(run, worker, turn)
    ensures var next := Taken(run, worker, turn).1;
            && next.id == worker.id && next.Fence() == worker.Fence()
            && (worker.phase.Finished? ==> next.phase == worker.phase)
  {
  }

  /** A move of the fleet only adds to the run. */
  lemma FleetExtends(w: Fleet.World, move: Fleet.Move)
    requires Legal(w.run) && Fleet.Allowed(w, move)
    ensures Extends(Fleet.Next(w, move).run, w.run)
  {
    if move.By? {
      Fleet.TurnIsAStep(w.run, w.workers[move.worker], move.turn);
    }
  }

  /** What a move of the fleet leaves of a worker that is there. */
  lemma FleetKeepsWorker(w: Fleet.World, move: Fleet.Move, k: nat)
    requires Legal(w.run) && Fleet.Allowed(w, move) && k in w.workers
    ensures var next := Fleet.Next(w, move);
            && k in next.workers
            && next.workers[k].id == w.workers[k].id && next.workers[k].Fence() == w.workers[k].Fence()
            && (w.workers[k].phase.Finished? ==> next.workers[k].phase == w.workers[k].phase)
  {
    if move.By? && move.worker == k {
      TurnKeepsBearer(w.run, w.workers[k], move.turn);
    }
  }

  lemma FleetKeepsBooks(
    w: Fleet.World, move: Fleet.Move, line: Supervisor.State, entries: map<Supervisor.Job, ClaimedDelivery>,
    fibers: map<Supervisor.Job, nat>)
    requires Legal(w.run) && Fleet.Allowed(w, move) && Kept(line, entries, w.handed, fibers, w.workers)
    requires move.Begin? ==> forall job :: job in entries ==> entries[job] != move.claimed
    ensures Kept(line, entries, Fleet.Next(w, move).handed, fibers, Fleet.Next(w, move).workers)
  {
    var next := Fleet.Next(w, move);
    forall job | job in fibers
      ensures Works(next.workers, fibers[job], job)
      ensures w.workers[fibers[job]].phase.Finished? ==> next.workers[fibers[job]].phase == w.workers[fibers[job]].phase
    {
      assert Works(w.workers, fibers[job], job);
      FleetKeepsWorker(w, move, fibers[job]);
    }
  }

  lemma FleetKeepsGivenBack(w: Fleet.World, move: Fleet.Move, line: Supervisor.State, unanswered: set<Supervisor.Job>)
    requires Fleet.Orderly(w) && Fleet.Allowed(w, move) && Legal(Fleet.Next(w, move).run)
    requires GivenBack(w.run, line, unanswered)
    ensures GivenBack(Fleet.Next(w, move).run, line, unanswered)
  {
    FleetExtends(w, move);
    forall job | job in line.dropped && job !in unanswered
      ensures StaleIn(Final(Fleet.Next(w, move).run), job.deliveryId, job.claim.Fence())
    {
      StaleForever(Fleet.Next(w, move).run, w.run, job.deliveryId, job.claim.Fence());
    }
  }

  /** A move of the fleet that starts nothing of ours. */
  lemma FleetKeepsOrderly(limits: Limits, w: World, other: Fleet.Move, next: Fleet.World)
    requires Orderly(limits, w) && Fleet.Allowed(w.fleet, other) && (other.Begin? ==> !IsOffered(w, other.claimed))
    requires next == Fleet.Next(w.fleet, other)
    ensures Orderly(limits, w.(fleet := next))
  {
    Fleet.MovesKeepOrderly(w.fleet, other);
    FleetKeepsBooks(w.fleet, other, w.line, w.entries, w.fibers);
    FleetKeepsGivenBack(w.fleet, other, w.line, w.unanswered);
  }

  // ---- Moves of the line ------------------------------------------------------------------

  /** One more job in the books, which was in hand before and is not started yet. */
  lemma OneMoreEntry(
    line: Supervisor.State, after: Supervisor.State, entries: map<Supervisor.Job, ClaimedDelivery>,
    handed: set<ClaimedDelivery>, job: Supervisor.Job, claimed: ClaimedDelivery)
    requires Entered(line, entries) && InHand(line, entries, handed) && after.started == line.started
    requires claimed in handed && forall j :: j in entries ==> entries[j] != claimed
    requires job.deliveryId == claimed.delivery.id && job.claim == claimed.claim && !Supervisor.Known(line, job)
    requires forall j :: Supervisor.Known(after, j) <==> Supervisor.Known(line, j) || j == job
    ensures Entered(after, entries[job := claimed]) && InHand(after, entries[job := claimed], handed)
  {
  }

  lemma OfferKeepsBooks(
    capacity: nat, line: Supervisor.State, entries: map<Supervisor.Job, ClaimedDelivery>, handed: set<ClaimedDelivery>,
    fibers: map<Supervisor.Job, nat>, workers: map<nat, Worker>, claimed: ClaimedDelivery)
    requires Supervisor.Sound(capacity, line) && Kept(line, entries, handed, fibers, workers)
    requires claimed in handed && forall job :: job in entries ==> entries[job] != claimed
    ensures Kept(
              Supervisor.Next(capacity, line, Supervisor.Offer(claimed.delivery.id, claimed.claim)),
              entries[Supervisor.Job(line.offered, claimed.delivery.id, claimed.claim) := claimed],
              handed, fibers, workers)
  {
    var turn := Supervisor.Offer(claimed.delivery.id, claimed.claim);
    var offered := Supervisor.Job(line.offered, claimed.delivery.id, claimed.claim);
    var after := Supervisor.Next(capacity, line, turn);
    Supervisor.DropsExactlyWhenFull(capacity, line, claimed.delivery.id, claimed.claim);
    forall job
      ensures Supervisor.Known(after, job) <==> Supervisor.Known(line, job) || job == offered
    {
      Supervisor.MoveOnJob(capacity, line, turn, job);
    }
    OneMoreEntry(line, after, entries, handed, offered, claimed);
    assert after.started == line.started && after.results == line.results;
  }

  /** A turn of queue, dispatcher or fiber that neither offers nor starts nor settles. */
  lemma TurnKeepsBooks(
    capacity: nat, line: Supervisor.State, turn: Supervisor.Move, entries: map<Supervisor.Job, ClaimedDelivery>,
    handed: set<ClaimedDelivery>, fibers: map<Supervisor.Job, nat>, workers: map<nat, Worker>)
    requires Supervisor.Enabled(line, turn) && Kept(line, entries, handed, fibers, workers)
    requires !turn.Offer? && !turn.Start?
    requires turn.Settle? ==>
               && turn.job in fibers && fibers[turn.job] in workers && workers[fibers[turn.job]].phase.Finished?
               && turn.exit == ExitOf(workers[fibers[turn.job]].phase.exit)
    ensures Kept(Supervisor.Next(capacity, line, turn), entries, handed, fibers, workers)
  {
    forall job: Supervisor.Job
      ensures var after := Supervisor.Next(capacity, line, turn);
              && (Supervisor.Known(after, job) <==> Supervisor.Known(line, job))
              && (job in after.started <==> job in line.started)
              && (job in after.results <==> job in line.results || (turn.Settle? && turn.job == job))
              && (job in line.results && !(turn.Settle? && turn.job == job) ==> after.results[job] == line.results[job])
    {
      Supervisor.MoveOnJob(capacity, line, turn, job);
    }
  }

  lemma TurnKeepsOrderly(limits: Limits, w: World, turn: Supervisor.Move)
    requires Orderly(limits, w) && Supervisor.Enabled(w.line, turn)
    requires !turn.Offer? && !turn.Start? && !turn.GiveBack?
    requires turn.Settle? ==>
               && turn.job in w.fibers && w.fibers[turn.job] in w.fleet.workers
               && w.fleet.workers[w.fibers[turn.job]].phase.Finished?
               && turn.exit == ExitOf(w.fleet.workers[w.fibers[turn.job]].phase.exit)
    ensures Orderly(limits, w.(line := Supervisor.Next(limits.capacity, w.line, turn)))
  {
    Supervisor.MovesKeepSound(limits.capacity, w.line, turn);
    TurnKeepsBooks(limits.capacity, w.line, turn, w.entries, w.fleet.handed, w.fibers, w.fleet.workers);
    KeepsGivenBack(limits.capacity, w.fleet.run, w.line, turn, w.unanswered);
  }

  lemma KeepsGivenBack(
    capacity: nat, run: Run, line: Supervisor.State, turn: Supervisor.Move, unanswered: set<Supervisor.Job>)
    requires Legal(run) && Supervisor.Enabled(line, turn) && GivenBack(run, line, unanswered)
    requires turn.GiveBack? && turn.job !in unanswered ==>
             StaleIn(Final(run), turn.job.deliveryId, turn.job.claim.Fence())
    ensures GivenBack(run, Supervisor.Next(capacity, line, turn), unanswered)
  {
    forall job | job in Supervisor.Next(capacity, line, turn).dropped && job !in unanswered
      ensures StaleIn(Final(run), job.deliveryId, job.claim.Fence())
    {
      Supervisor.MoveOnJob(capacity, line, turn, job);
    }
  }

  lemma OfferKeepsOrderly(limits: Limits, w: World, claimed: ClaimedDelivery)
    requires Orderly(limits, w) && Allowed(limits, w, Offer(claimed))
    ensures Orderly(limits, Next(limits, w, Offer(claimed)))
  {
    var turn := Supervisor.Offer(claimed.delivery.id, claimed.claim);
    Supervisor.MovesKeepSound(limits.capacity, w.line, turn);
    OfferKeepsBooks(limits.capacity, w.line, w.entries, w.fleet.handed, w.fibers, w.fleet.workers, claimed);
    KeepsGivenBack(limits.capacity, w.fleet.run, w.line, turn, w.unanswered);
  }

  /** The start of a worker for a job in line is never refused: its claim is in hand, and nobody else has begun it. */
  lemma StartIsNeverRefused(limits: Limits, w: World, worker: nat, script: Script)
    requires Orderly(limits, w) && Supervisor.Enabled(w.line, Supervisor.Start)
    requires worker !in w.fleet.workers && script.Sane() && Within(script, limits.budget)
    ensures var job := w.line.held.value;
            && job in w.entries && job !in w.line.started && job !in w.fibers
            && (script.firstOrdinal == w.entries[job].nextAttemptOrdinal ==> Allowed(limits, w, Start(worker, script)))
  {
    Supervisor.HeldIsNotStarted(w.line);
    assert w.line.held.value == w.line.accepted[|w.line.started|];
    assert Supervisor.Known(w.line, w.line.held.value);
  }

  lemma StartKeepsBooks(
    capacity: nat, line: Supervisor.State, entries: map<Supervisor.Job, ClaimedDelivery>, handed: set<ClaimedDelivery>,
    fibers: map<Supervisor.Job, nat>, workers: map<nat, Worker>, k: nat, worker: Worker)
    requires Supervisor.Enabled(line, Supervisor.Start) && Kept(line, entries, handed, fibers, workers)
    requires k !in workers && line.held.value !in line.started && line.held.value in entries
    requires worker.id == line.held.value.deliveryId && worker.Fence() == line.held.value.claim.Fence()
    ensures Kept(
              Supervisor.Next(capacity, line, Supervisor.Start), entries, handed - {entries[line.held.value]},
              fibers[line.held.value := k], workers[k := worker])
  {
    var after := Supervisor.Next(capacity, line, Supervisor.Start);
    forall job: Supervisor.Job
      ensures Supervisor.Known(after, job) <==> Supervisor.Known(line, job)
      ensures job in after.started <==> job in line.started || job == line.held.value
      ensures after.results == line.results
      ensures job in fibers ==> fibers[job] != k && Works(workers[k := worker], fibers[job], job)
    {
      Supervisor.MoveOnJob(capacity, line, Supervisor.Start, job);
      assert job in fibers ==> Works(workers, fibers[job], job);
    }
  }

  lemma StartKeepsOrderly(limits: Limits, w: World, worker: nat, script: Script)
    requires Orderly(limits, w) && Allowed(limits, w, Start(worker, script))
    ensures Orderly(limits, Next(limits, w, Start(worker, script)))
  {
    var job := w.line.held.value;
    var begin := Fleet.Begin(worker, w.entries[job], script);
    StartIsNeverRefused(limits, w, worker, script);
    Fleet.MovesKeepOrderly(w.fleet, begin);
    Supervisor.MovesKeepSound(limits.capacity, w.line, Supervisor.Start);
    StartKeepsBooks(
      limits.capacity, w.line, w.entries, w.fleet.handed, w.fibers, w.fleet.workers, worker,
      Fleet.Hired(w.entries[job], script));
    KeepsGivenBack(limits.capacity, w.fleet.run, w.line, Supervisor.Start, w.unanswered);
  }

  // ---- Giving claims back -----------------------------------------------------------------

  /** The claim of a job that was not started is current or stale, and nothing was recorded with it. */
  lemma UnstartedStands(limits: Limits, w: World, job: Supervisor.Job)
    requires Orderly(limits, w) && job in w.entries && job !in w.line.started
    ensures Standing(w.fleet.run, job.deliveryId, job.claim.Fence())
  {
    assert Fleet.Fresh(w.fleet.run, w.entries[job]);
  }

  /** A started job was accepted, so it was not refused. */
  lemma RefusedIsNotStarted(capacity: nat, line: Supervisor.State, job: Supervisor.Job)
    requires Supervisor.Sound(capacity, line) && Supervisor.WasDropped(line, job)
    ensures job !in line.started
  {
  }

  lemma GivingBackKeepsOrderly(
    limits: Limits, w: World, job: Supervisor.Job, released: bool, unanswered: set<Supervisor.Job>)
    requires Orderly(limits, w) && job in w.line.dropping && w.unanswered <= unanswered
    requires job in unanswered || StaleIn(Final(w.fleet.run), job.deliveryId, job.claim.Fence())
    ensures Orderly(
              limits,
              w.(line := Supervisor.Next(limits.capacity, w.line, Supervisor.GiveBack(job, released)),
                 unanswered := unanswered))
  {
    var turn := Supervisor.GiveBack(job, released);
    Supervisor.MovesKeepSound(limits.capacity, w.line, turn);
    TurnKeepsBooks(limits.capacity, w.line, turn, w.entries, w.fleet.handed, w.fibers, w.fleet.workers);
    KeepsGivenBack(limits.capacity, w.fleet.run, w.line, turn, unanswered);
  }

  /** The fleet after the release of a refused job reached the store. */
  ghost function AfterRelease(w: World, job: Supervisor.Job, now: int): (fleet: Fleet.World)
    requires Legal(w.fleet.run)
    ensures fleet.run == Then(w.fleet.run, now, Release(job.deliveryId, job.claim)) && Legal(fleet.run)
  {
    Fleet.Next(w.fleet, ReleaseOf(job, now))
  }

  lemma ReleaseKeepsOrderly(limits: Limits, w: World, job: Supervisor.Job, now: int)
    requires Orderly(limits, w) && job in w.line.dropping
    ensures Orderly(limits, w.(fleet := AfterRelease(w, job, now)))
  {
    FleetKeepsOrderly(limits, w, ReleaseOf(job, now), AfterRelease(w, job, now));
  }

  lemma ReleaseFrees(limits: Limits, w: World, job: Supervisor.Job, now: int)
    requires Orderly(limits, w) && job in w.line.dropping
    ensures StaleIn(Final(AfterRelease(w, job, now).run), job.deliveryId, job.claim.Fence())
  {
    RefusedIsNotStarted(limits.capacity, w.line, job);
    UnstartedStands(limits, w, job);
    OwnRelease(w.fleet.run, now, job.deliveryId, job.claim);
  }

  lemma AnsweredReturnKeepsOrderly(
    limits: Limits, w: World, job: Supervisor.Job, now: int, released: bool, unanswered: set<Supervisor.Job>,
    next: World)
    requires Orderly(limits, w) && job in w.line.dropping && w.unanswered <= unanswered
    requires next.fleet == AfterRelease(w, job, now) && next.unanswered == unanswered
    requires next.line == Supervisor.Next(limits.capacity, w.line, Supervisor.GiveBack(job, released))
    requires next.entries == w.entries && next.fibers == w.fibers
    ensures Orderly(limits, next)
  {
    var between := w.(fleet := next.fleet);
    ReleaseKeepsOrderly(limits, w, job, now);
    ReleaseFrees(limits, w, job, now);
    GivingBackKeepsOrderly(limits, between, job, released, unanswered);
    assert next == between.(line := next.line, unanswered := unanswered);
  }

  lemma ReturnKeepsOrderly(limits: Limits, w: World, job: Supervisor.Job, now: int, wire: Wire)
    requires Orderly(limits, w) && Allowed(limits, w, GiveBack(job, now, wire))
    ensures Orderly(limits, Next(limits, w, GiveBack(job, now, wire)))
  {
    var unanswered := if wire.Answered? then w.unanswered else w.unanswered + {job};
    if wire.RequestLost? {
      GivingBackKeepsOrderly(limits, w, job, false, unanswered);
    } else {
      AnsweredReturnKeepsOrderly(
        limits, w, job, now, wire.Answered?, unanswered, Next(limits, w, GiveBack(job, now, wire)));
    }
  }

  lemma MovesKeepOrderly(limits: Limits, w: World, move: Move)
    requires Orderly(limits, w) && Allowed(limits, w, move)
    ensures Orderly(limits, Next(limits, w, move))
  {
    match move
    case Elsewhere(other) => FleetKeepsOrderly(limits, w, other, Fleet.Next(w.fleet, other));
    case Offer(claimed) => OfferKeepsOrderly(limits, w, claimed);
    case Line(turn) => TurnKeepsOrderly(limits, w, turn);
    case Start(worker, script) => StartKeepsOrderly(limits, w, worker, script);
    case Work(job, step) =>
      FleetKeepsOrderly(limits, w, Fleet.By(w.fibers[job], step), Next(limits, w, move).fleet);
    case Report(job) =>
      TurnKeepsOrderly(limits, w, Supervisor.Settle(job, ExitOf(w.fleet.workers[w.fibers[job]].phase.exit)));
    case GiveBack(job, now, wire) => ReturnKeepsOrderly(limits, w, job, now, wire);
  }

  // ---- Stories, and the stories of the parts ----------------------------------------------

  function Fresh(limits: Limits): World {
    World(Fleet.World(Begin(EMPTY), {}, map[]), Supervisor.Idle(limits.capacity), map[], map[], {})
  }

  ghost predicate Told(limits: Limits, story: Story<World, Move>)
    decreases story, 0
  {
    match story
    case Opening(w) => w == Fresh(limits)
    case Followed(before, move) =>
      Told(limits, before) && Legal(Now(limits, before).fleet.run) && Allowed(limits, Now(limits, before), move)
  }

  ghost function Now(limits: Limits, story: Story<World, Move>): World
    requires Told(limits, story)
    decreases story, 1
  {
    match story
    case Opening(w) => w
    case Followed(before, move) => Next(limits, Now(limits, before), move)
  }

  lemma FreshIsOrderly(limits: Limits)
    ensures Orderly(limits, Fresh(limits))
  {
    assert Fleet.Told(Opening(Fresh(limits).fleet));
    Fleet.StoriesAreOrderly(Opening(Fresh(limits).fleet));
    assert Supervisor.Told(limits.capacity, Opening(Fresh(limits).line));
    Supervisor.StoriesAreSound(limits.capacity, Opening(Fresh(limits).line));
  }

  /** In every interleaving, each job is one claim, taken up at most once, by one worker, whose exit is its result. */
  lemma {:induction false} StoriesAreOrderly(limits: Limits, story: Story<World, Move>)
    requires Told(limits, story)
    ensures Orderly(limits, Now(limits, story))
  {
    match story
    case Opening(_) => FreshIsOrderly(limits);
    case Followed(before, move) =>
      StoriesAreOrderly(limits, before);
      MovesKeepOrderly(limits, Now(limits, before), move);
  }

  /** The move of the fleet that a move is, if any. */
  function FleetMove(w: World, move: Move): Option<Fleet.Move> {
    match move
    case Elsewhere(other) => Some(other)
    case Start(worker, script) =>
      if w.line.held.Some? && w.line.held.value in w.entries
      then Some(Fleet.Begin(worker, w.entries[w.line.held.value], script)) else None
    case Work(job, step) => if job in w.fibers then Some(Fleet.By(w.fibers[job], step)) else None
    case GiveBack(job, now, wire) => if wire.RequestLost? then None else Some(ReleaseOf(job, now))
    case _ => None
  }

  /** And of the line. */
  function LineMove(w: World, move: Move): Option<Supervisor.Move> {
    match move
    case Offer(claimed) => Some(Supervisor.Offer(claimed.delivery.id, claimed.claim))
    case Line(turn) => Some(turn)
    case Start(_, _) => Some(Supervisor.Start)
    case Report(job) =>
      if job in w.fibers && w.fibers[job] in w.fleet.workers && w.fleet.workers[w.fibers[job]].phase.Finished?
      then Some(Supervisor.Settle(job, ExitOf(w.fleet.workers[w.fibers[job]].phase.exit))) else None
    case GiveBack(job, _, wire) => Some(Supervisor.GiveBack(job, wire.Answered?))
    case _ => None
  }

  ghost function FleetStory(limits: Limits, story: Story<World, Move>): Story<Fleet.World, Fleet.Move>
    requires Told(limits, story)
  {
    match story
    case Opening(w) => Opening(w.fleet)
    case Followed(before, move) =>
      match FleetMove(Now(limits, before), move)
      case Some(other) => Followed(FleetStory(limits, before), other)
      case None => FleetStory(limits, before)
  }

  ghost function LineStory(limits: Limits, story: Story<World, Move>): Story<Supervisor.State, Supervisor.Move>
    requires Told(limits, story)
  {
    match story
    case Opening(w) => Opening(w.line)
    case Followed(before, move) =>
      match LineMove(Now(limits, before), move)
      case Some(turn) => Followed(LineStory(limits, before), turn)
      case None => LineStory(limits, before)
  }

  /** A move is a move of the fleet, or of the line, or of both. */
  lemma MovesOfTheParts(limits: Limits, w: World, move: Move)
    requires Legal(w.fleet.run) && Allowed(limits, w, move)
    ensures match FleetMove(w, move)
            case Some(other) =>
              Fleet.Allowed(w.fleet, other) && Next(limits, w, move).fleet == Fleet.Next(w.fleet, other)
            case None => Next(limits, w, move).fleet == w.fleet
    ensures match LineMove(w, move)
            case Some(turn) =>
              && Supervisor.Enabled(w.line, turn)
              && Next(limits, w, move).line == Supervisor.Next(limits.capacity, w.line, turn)
            case None => Next(limits, w, move).line == w.line
  {
  }

  /** So all that is proved of the stories of fleets and of queues holds of the two together. */
  lemma {:induction false} PartsAreTold(limits: Limits, story: Story<World, Move>)
    requires Told(limits, story)
    ensures Fleet.Told(FleetStory(limits, story))
    ensures Fleet.Now(FleetStory(limits, story)) == Now(limits, story).fleet
    ensures Supervisor.Told(limits.capacity, LineStory(limits, story))
    ensures Supervisor.Now(limits.capacity, LineStory(limits, story)) == Now(limits, story).line
  {
    match story
    case Opening(_) =>
    case Followed(before, move) =>
      PartsAreTold(limits, before);
      MovesOfTheParts(limits, Now(limits, before), move);
  }

  // ---- How many turns a worker takes ------------------------------------------------------

  function Rank(phase: Phase): nat {
    match phase
    case Entering => 3
    case Racing => 2
    case Releasing => 1
    case Finished(_) => 0
  }

  function AttemptsLeft(execution: Execution, budget: nat): int {
    if execution.Sending? then budget - execution.round else 0
  }

  /** The turns a worker can still take, apart from heartbeats that succeed and cancellations. */
  function TurnsLeft(worker: Worker, budget: nat): int {
    Rank(worker.phase) + AttemptsLeft(worker.execution, budget) + if worker.renewalFailed then 0 else 1
  }

  /** A heartbeat that succeeds, or a request to stop: neither brings the worker further. */
  ghost predicate Idles(run: Run, worker: Worker, turn: Turn)
    requires Legal(run)
  {
    turn.Cancel? || (turn.Beat? && Called(run, turn.now, Renew(worker.id, worker.claim, turn.lease), turn.wire).1)
  }

  /** The engine has not used up its attempts. */
  ghost predicate Affordable(worker: Worker, budget: nat) {
    Within(worker.script, budget) && (worker.execution.Sending? ==> worker.execution.round < budget)
  }

  /** Every other turn brings it closer to its exit, lost and late calls included. */
  lemma TurnsAreUsedUp(run: Run, worker: Worker, turn: Turn, budget: nat)
    requires Legal(run) && Ready(run, worker, turn) && Affordable(worker, budget)
    ensures var next := Taken(run, worker, turn).1;
            && Affordable(next, budget) && TurnsLeft(next, budget) >= 0
            && TurnsLeft(next, budget) <= TurnsLeft(worker, budget) - (if Idles(run, worker, turn) then 0 else 1)
  {
    if turn.Attempted? {
      DecisionGoesOn(worker, worker.execution.round);
    }
  }

  /** How many turns, other than idle ones, the worker took in the story. */
  ghost function Turns(story: Story<Fleet.World, Fleet.Move>, k: nat): nat
    requires Fleet.Told(story)
  {
    match story
    case Opening(_) => 0
    case Followed(before, move) =>
      Turns(before, k) +
      if move.By? && move.worker == k && !Idles(Fleet.Now(before).run, Fleet.Now(before).workers[k], move.turn)
      then 1 else 0
  }

  /** The scripts of workers do not change, so a worker within budget stays within it, and uses up what it has. */
  lemma {:induction false} TurnsAreBounded(story: Story<Fleet.World, Fleet.Move>, k: nat, budget: nat)
    requires Fleet.Told(story) && budget >= 1
    ensures k !in Fleet.Now(story).workers ==> Turns(story, k) == 0
    ensures k in Fleet.Now(story).workers && Within(Fleet.Now(story).workers[k].script, budget) ==>
              && Affordable(Fleet.Now(story).workers[k], budget)
              && TurnsLeft(Fleet.Now(story).workers[k], budget) >= 0
              && Turns(story, k) + TurnsLeft(Fleet.Now(story).workers[k], budget) <= budget + 4
  {
    match story
    case Opening(_) =>
    case Followed(before, move) =>
      TurnsAreBounded(before, k, budget);
      if move.By? && move.worker == k {
        var w := Fleet.Now(before);
        ScriptStays(w.run, w.workers[k], move.turn);
        if Within(w.workers[k].script, budget) {
          TurnsAreUsedUp(w.run, w.workers[k], move.turn, budget);
        }
      }
  }

  lemma ScriptStays(run: Run, worker: Worker, turn: Turn)
    requires Legal(run) && Ready(run, worker, turn)
    ensures Taken(run, worker, turn).1.script == worker.script
  {
  }

  /** The scripts that engines play are within the budget that `maxAttempts` sets. */
  lemma EnginesStayWithin(
    r: Engine.Resilience, deadline: int, rounds: nat -> Engine.Round, script: Script)
    requires r.maxAttempts >= 1 && Engine.Plausible(r, rounds) && script.Plays(r, deadline, rounds)
    ensures Within(script, r.maxAttempts)
  {
    forall i: nat | script.GoesOn(i)
      ensures i + 1 < r.maxAttempts
    {
      assert script.attempts(i) == Engine.AttemptOf(r, deadline, script.firstOrdinal, i, rounds(i));
      Engine.ScheduledDelay(r, deadline, i, rounds(i));
    }
  }

  // ---- Nothing is stranded ----------------------------------------------------------------

  /**
   A turn that nobody has to wait for: a request to stop, a heartbeat that succeeds, and whatever depends on
   the network losing a call. An attempt is none of these, because its script says what it will be told.
   */
  ghost predicate Optional(run: Run, worker: Worker, turn: Turn)
    requires Legal(run)
  {
    match turn
    case Cancel => true
    case Beat(_, _, wire) => !wire.Answered? || Idles(run, worker, turn)
    case Attempted(_, _) => !worker.phase.Racing?
    case FirstRenewal(_, _, wire) => !wire.Answered?
    case GiveUp(_, wire) => !wire.Answered?
    case Settle(_) => false
  }

  /** New offers, calls and workers of others, and optional turns: what may go on forever, or never come. */
  ghost predicate MayNotCome(w: World, move: Move)
    requires Legal(w.fleet.run)
  {
    || move.Elsewhere? || move.Offer?
    || (move.Work? && move.job in w.fibers && w.fibers[move.job] in w.fleet.workers
        && Optional(w.fleet.run, w.fleet.workers[w.fibers[move.job]], move.step))
  }

  /** Nothing else is possible. */
  ghost predicate AtRest(limits: Limits, w: World)
    requires Legal(w.fleet.run)
  {
    forall move: Move :: Allowed(limits, w, move) ==> MayNotCome(w, move)
  }

  /** A worker under its claim can record its next attempt. */
  lemma CurrentCanRecord(w: Fleet.World, k: nat) returns (now: int)
    requires Fleet.Orderly(w) && k in w.workers && w.workers[k].execution.Sending?
    requires !StaleIn(Final(w.run), w.workers[k].id, w.workers[k].Fence())
    ensures Refusal(Final(w.run), now, RecordAttempt(w.workers[k].Record(w.workers[k].execution.round))).None?
  {
    var worker := w.workers[k];
    var record := worker.Record(worker.execution.round);
    assert Sound(w.run, worker);
    Fleet.SoundIsStanding(w.run, worker);
    Fleet.SoundIsDue(w.run, worker);
    RecordsAreWellFormed(worker, worker.execution.round);
    var row := Final(w.run).rows[worker.id];
    now := row.claim.value.leaseExpiresAtMillis - 1;
    FinalIsValid(w.run);
    History.OrdinalsAreExact(w.run, worker.id);
    HolderMayRecord(Final(w.run), now, worker.id, record);
  }

  lemma HolderMayRecord(l: Ledger, now: int, id: DeliveryId, record: AttemptRecord)
    requires id in l.rows && l.rows[id].Valid() && l.rows[id].Owns(record.Fence(), now)
    requires record.deliveryId == id && record.WellFormed()
    requires History.Numbered(l.rows[id].attempts) && record.ordinal == |l.rows[id].attempts| + 1
    ensures Refusal(l, now, RecordAttempt(record)).None?
  {
    AcceptedExactlyWhenEnabled(l, now, RecordAttempt(record));
  }

  /** A worker with a stale token learns of it by its next answered heartbeat. */
  lemma StaleBeatsFail(run: Run, worker: Worker)
    requires Legal(run) && StaleIn(Final(run), worker.id, worker.Fence())
    ensures !Idles(run, worker, Beat(0, 0, Answered))
  {
    StaleIsInert(Final(run), 0, Renew(worker.id, worker.claim, 0));
  }

  lemma RacingWorkerCanMove(w: Fleet.World, k: nat) returns (turn: Turn)
    requires Fleet.Orderly(w) && k in w.workers && w.workers[k].phase.Racing?
    ensures Ready(w.run, w.workers[k], turn) && !Optional(w.run, w.workers[k], turn)
  {
    var worker := w.workers[k];
    assert Sound(w.run, worker);
    if worker.renewalFailed {
      turn := Turn.Settle(Renewal);
    } else if !worker.execution.Sending? {
      turn := Turn.Settle(Racer.Execution);
    } else {
      var round := worker.execution.round;
      RecordsAreWellFormed(worker, round);
      if !worker.script.recorded(round) {
        turn := Attempted(0, RequestLost);
      } else if StaleIn(Final(w.run), worker.id, worker.Fence()) {
        turn := Beat(0, 0, Answered);
        StaleBeatsFail(w.run, worker);
      } else {
        var now := CurrentCanRecord(w, k);
        Granted(Final(w.run), now, RecordAttempt(worker.Record(round)));
        turn := Attempted(now, Answered);
      }
    }
  }

  /** A worker that has not left can take a turn that brings it closer to its exit. */
  lemma WorkerCanMove(w: Fleet.World, k: nat) returns (turn: Turn)
    requires Fleet.Orderly(w) && k in w.workers && !w.workers[k].phase.Finished?
    ensures Ready(w.run, w.workers[k], turn) && !Optional(w.run, w.workers[k], turn)
  {
    match w.workers[k].phase
    case Entering => turn := FirstRenewal(0, 0, Answered);
    case Racing => turn := RacingWorkerCanMove(w, k);
    case Releasing => turn := GiveUp(0, Answered);
  }

  lemma {:induction false} SomeFreeName(names: set<nat>) returns (k: nat)
    ensures forall n :: n in names ==> n < k
  {
    if names == {} {
      k := 0;
    } else {
      var n :| n in names;
      var above := SomeFreeName(names - {n});
      k := if n < above then above else n + 1;
      assert forall m :: m in names ==> m == n || m in names - {n};
    }
  }

  /** There is always a script to play, whatever the claim. */
  lemma SomeScript(firstOrdinal: int, budget: nat) returns (script: Script)
    requires firstOrdinal >= 1
    ensures script.Sane() && script.firstOrdinal == firstOrdinal && Within(script, budget)
  {
    script := Script(
      (i: nat) => Attempt(firstOrdinal + i, 0, 0, Outcome.Delivered(200), Decision.Terminal), (i: nat) => true,
      firstOrdinal, Trace(None, None));
  }

  lemma HeldJobCanStart(limits: Limits, w: World) returns (move: Move)
    requires Orderly(limits, w) && Supervisor.Enabled(w.line, Supervisor.Start)
    ensures Allowed(limits, w, move) && !MayNotCome(w, move)
  {
    var k := SomeFreeName(w.fleet.workers.Keys);
    var probe := SomeScript(1, limits.budget);
    StartIsNeverRefused(limits, w, k, probe);
    var entry := w.entries[w.line.held.value];
    assert Fleet.Fresh(w.fleet.run, entry);
    var script := SomeScript(entry.nextAttemptOrdinal, limits.budget);
    StartIsNeverRefused(limits, w, k, script);
    move := Start(k, script);
  }

  /** A job on a fiber without a result has a worker that can go on, or a result to be told. */
  lemma FiberCanMove(limits: Limits, w: World, job: Supervisor.Job) returns (move: Move)
    requires Orderly(limits, w) && job in w.line.running && job !in w.line.results
    ensures Allowed(limits, w, move) && !MayNotCome(w, move)
  {
    assert job in w.line.started && Works(w.fleet.workers, w.fibers[job], job);
    if w.fleet.workers[w.fibers[job]].phase.Finished? {
      move := Report(job);
    } else {
      var turn := WorkerCanMove(w.fleet, w.fibers[job]);
      move := Work(job, turn);
    }
  }

  /** Whatever turn the line is ready for, some move here takes it or leads there. */
  lemma LineCanMove(limits: Limits, w: World, turn: Supervisor.Move) returns (move: Move)
    requires Orderly(limits, w) && Supervisor.Enabled(w.line, turn) && !turn.Offer?
    ensures Allowed(limits, w, move) && !MayNotCome(w, move)
  {
    if turn.GiveBack? {
      move := GiveBack(turn.job, 0, Answered);
    } else if turn.Start? {
      move := HeldJobCanStart(limits, w);
    } else if turn.Settle? {
      move := FiberCanMove(limits, w, turn.job);
    } else {
      move := Line(turn);
    }
  }

  lemma RestIsStuck(limits: Limits, w: World)
    requires Orderly(limits, w) && AtRest(limits, w)
    ensures Supervisor.Stuck(w.line)
  {
    forall turn: Supervisor.Move | Supervisor.Enabled(w.line, turn)
      ensures turn.Offer?
    {
      if !turn.Offer? {
        var move := LineCanMove(limits, w, turn);
      }
    }
  }

  /**
   Every claim that was offered here reaches its end, by real workers: queue, dispatcher and fibers make at
   most seven moves per offer, and each worker takes at most `budget + 4` turns, apart from heartbeats that
   succeed and requests to stop. When nothing is left that must happen, every accepted job has the exit of
   its worker as its result, every refused one was given back, and every permit is free.
   */
  lemma EveryAcceptedJobSettles(limits: Limits, story: Story<World, Move>)
    requires limits.capacity >= 1 && limits.budget >= 1 && Told(limits, story)
    ensures Length(LineStory(limits, story)) <= 7 * Now(limits, story).line.offered
    ensures Legal(Now(limits, story).fleet.run)
    ensures AtRest(limits, Now(limits, story)) ==> AllSettled(limits, Now(limits, story))
  {
    StoriesAreOrderly(limits, story);
    PartsAreTold(limits, story);
    Supervisor.WorkIsBounded(limits.capacity, LineStory(limits, story));
    if AtRest(limits, Now(limits, story)) {
      RestIsStuck(limits, Now(limits, story));
      Supervisor.StuckMeansDone(limits.capacity, Now(limits, story).line);
      Supervisor.EveryAcceptedJobSettles(limits.capacity, LineStory(limits, story));
    }
  }

  ghost predicate AllSettled(limits: Limits, w: World) {
    && w.line.dropping == {} && w.line.permits == limits.capacity
    && (forall job :: job in w.line.accepted ==>
          && job in w.line.results && job in w.fibers && w.fibers[job] in w.fleet.workers
          && w.fleet.workers[w.fibers[job]].phase.Finished?
          && w.line.results[job] == ExitOf(w.fleet.workers[w.fibers[job]].phase.exit))
  }

  lemma FleetKeepsScript(w: Fleet.World, move: Fleet.Move, k: nat)
    requires Legal(w.run) && Fleet.Allowed(w, move) && k in w.workers
    ensures k in Fleet.Next(w, move).workers && Fleet.Next(w, move).workers[k].script == w.workers[k].script
  {
    if move.By? && move.worker == k {
      ScriptStays(w.run, w.workers[k], move.turn);
    }
  }

  /** If the job was started, its worker plays a script within the budget. */
  ghost predicate Budgeted(limits: Limits, w: World, job: Supervisor.Job) {
    job in w.fibers ==>
      w.fibers[job] in w.fleet.workers && Within(w.fleet.workers[w.fibers[job]].script, limits.budget)
  }

  lemma MovesKeepBudgets(limits: Limits, w: World, move: Move, job: Supervisor.Job)
    requires Orderly(limits, w) && Allowed(limits, w, move) && Budgeted(limits, w, job)
    ensures Budgeted(limits, Next(limits, w, move), job)
  {
    MovesOfTheParts(limits, w, move);
    var other := FleetMove(w, move);
    if job in w.fibers && other.Some? {
      FleetKeepsScript(w.fleet, other.value, w.fibers[job]);
    }
    if move.Start? {
      StartIsNeverRefused(limits, w, move.worker, move.script);
    }
  }

  lemma {:induction false} StoriesKeepBudgets(limits: Limits, story: Story<World, Move>, job: Supervisor.Job)
    requires Told(limits, story)
    ensures Budgeted(limits, Now(limits, story), job)
  {
    match story
    case Opening(_) =>
    case Followed(before, move) =>
      StoriesKeepBudgets(limits, before, job);
      StoriesAreOrderly(limits, before);
      MovesKeepBudgets(limits, Now(limits, before), move, job);
  }

  /** The workers of this process stay within their budget of turns. */
  lemma WorkersStayWithin(limits: Limits, story: Story<World, Move>, job: Supervisor.Job)
    requires limits.budget >= 1 && Told(limits, story) && job in Now(limits, story).fibers
    ensures Fleet.Told(FleetStory(limits, story))
    ensures Turns(FleetStory(limits, story), Now(limits, story).fibers[job]) <= limits.budget + 4
  {
    PartsAreTold(limits, story);
    StoriesKeepBudgets(limits, story, job);
    TurnsAreBounded(FleetStory(limits, story), Now(limits, story).fibers[job], limits.budget);
  }

  /** The result of a job is the exit of its worker. */
  lemma ResultIsTheExit(limits: Limits, story: Story<World, Move>, job: Supervisor.Job)
    requires Told(limits, story) && job in Now(limits, story).line.results
    ensures Fleet.Told(FleetStory(limits, story)) && Fleet.Now(FleetStory(limits, story)) == Now(limits, story).fleet
    ensures var w := Now(limits, story);
            && job in w.fibers && w.fibers[job] in w.fleet.workers && w.fleet.workers[w.fibers[job]].phase.Finished?
            && w.line.results[job] == ExitOf(w.fleet.workers[w.fibers[job]].phase.exit)
  {
    StoriesAreOrderly(limits, story);
    PartsAreTold(limits, story);
  }

  lemma ExitsTellTheTruth(story: Story<Fleet.World, Fleet.Move>, k: nat)
    requires Fleet.Told(story) && k in Fleet.Now(story).workers && Fleet.Now(story).workers[k].phase.Finished?
    ensures Legal(Fleet.Now(story).run)
    ensures var run := Fleet.Now(story).run;
            var worker := Fleet.Now(story).workers[k];
            if worker.phase.exit.Succeeded? then Fleet.HasSucceeded(run, worker)
            else worker.phase.exit.Unreleased? || StaleIn(Final(run), worker.id, worker.Fence())
  {
    Fleet.StoriesAreOrderly(story);
    if Fleet.Now(story).workers[k].phase.exit.Succeeded? {
      Fleet.SuccessIsCommitted(story, k);
    } else {
      Fleet.ExitGivesUpTheClaim(story, k, Fleet.Now(story).run);
    }
  }

  /**
   What a result means: a success is the whole session of the worker in the store, closed by its last attempt;
   after a failure the claim is stale, unless its release got no answer.
   */
  lemma ResultsTellTheTruth(limits: Limits, story: Story<World, Move>, job: Supervisor.Job)
    requires Told(limits, story) && job in Now(limits, story).line.results
    ensures var w := Now(limits, story);
            && job in w.fibers && w.fibers[job] in w.fleet.workers && Legal(w.fleet.run)
            && var worker := w.fleet.workers[w.fibers[job]];
               && worker.id == job.deliveryId && worker.Fence() == job.claim.Fence()
               && if w.line.results[job].Success? then Fleet.HasSucceeded(w.fleet.run, worker)
                  else || worker.phase == Finished(Unreleased)
                       || StaleIn(Final(w.fleet.run), job.deliveryId, job.claim.Fence())
  {
    StoriesAreOrderly(limits, story);
    PartsAreTold(limits, story);
    var w := Now(limits, story);
    assert Works(w.fleet.workers, w.fibers[job], job);
    ExitsTellTheTruth(FleetStory(limits, story), w.fibers[job]);
  }

  // ---- No claim is forgotten --------------------------------------------------------------

  /** Someone here still has to do with the claim: the line, a worker under way, or whoever gives it back. */
  ghost predicate HasKeeper(w: World, job: Supervisor.Job) {
    || job in w.line.queue || job in w.line.pulled || w.line.held == Some(job) || job in w.line.dropping
    || (job in w.fibers && w.fibers[job] in w.fleet.workers && !w.fleet.workers[w.fibers[job]].phase.Finished?)
  }

  /** The release of the claim was attempted and got no answer: the lease will run out. */
  ghost predicate LeftToItsLease(w: World, job: Supervisor.Job) {
    || job in w.unanswered
    || (job in w.fibers && w.fibers[job] in w.fleet.workers
        && w.fleet.workers[w.fibers[job]].phase == Finished(Unreleased))
  }

  lemma LineKeepsUnstarted(capacity: nat, line: Supervisor.State, job: Supervisor.Job)
    requires Supervisor.Sound(capacity, line) && Supervisor.Known(line, job)
    ensures || job in line.queue || job in line.pulled || line.held == Some(job) || job in line.started
            || job in line.dropping || job in line.dropped
  {
  }

  /**
   In every interleaving, a claim that was offered has a keeper, or is stale, or was left to its lease because
   its release got no answer: no current claim is forgotten.
   */
  lemma NoClaimIsForgotten(limits: Limits, story: Story<World, Move>, job: Supervisor.Job)
    requires Told(limits, story) && job in Now(limits, story).entries
    ensures var w := Now(limits, story);
            && Legal(w.fleet.run)
            && (HasKeeper(w, job) || LeftToItsLease(w, job)
                || StaleIn(Final(w.fleet.run), job.deliveryId, job.claim.Fence()))
  {
    StoriesAreOrderly(limits, story);
    PartsAreTold(limits, story);
    var w := Now(limits, story);
    LineKeepsUnstarted(limits.capacity, w.line, job);
    if job in w.line.started {
      assert Works(w.fleet.workers, w.fibers[job], job);
      if w.fleet.workers[w.fibers[job]].phase.Finished? {
        Fleet.ExitGivesUpTheClaim(FleetStory(limits, story), w.fibers[job], w.fleet.run);
      }
    }
  }
}

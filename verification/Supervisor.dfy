/**
 src/deliverySupervisor.ts: claimed deliveries offered to a bounded dropping queue, pulled from it in
 chunks by one dispatcher, and run on at most `capacity` fibers, each holding a dispatch permit.
 */
module Supervisor {
  import opened Domain
  import opened Ledger
  import opened Runs
  import opened Fencing
  import opened MemoryPersistence
  import opened Stories
  import Admission
  import DeliveryWorker

  /** One offer. The serial number tells offers of the same claim apart. */
  datatype Job = Job(serial: nat, deliveryId: DeliveryId, claim: Claim)

  datatype Exit = Success | Failure

  datatype State = State(
    queue: seq<Job>,
    pulled: seq<Job>,              // taken out of the queue by the stream, not yet handled
    held: Option<Job>,             // in the dispatcher's hands
    granted: bool,                 // whether the dispatcher has a permit for it
    permits: int,
    running: set<Job>,             // live fibers
    results: map<Job, Exit>,       // the deferred results
    dropping: set<Job>,            // refused by the queue, claim not yet given back
    dropped: set<Job>,             // refused, and the release of the claim was attempted
    offered: nat,
    accepted: seq<Job>,            // every job the queue ever took, in order
    started: seq<Job>)             // every job ever given to a fiber, in order
  {
    function Held(): seq<Job> { if held.Some? then [held.value] else [] }
  }

  datatype Move =
    | Offer(deliveryId: DeliveryId, claim: Claim)
    | GiveBack(job: Job, released: bool)  // whether the release succeeded, so that the overload is reported
    | Pull(n: nat)
    | Take
    | Permit
    | Start
    | Settle(job: Job, exit: Exit)
    | Finish(job: Job)

  predicate Enabled(s: State, move: Move) {
    match move
    case Offer(_, _) => true
    case GiveBack(job, _) => job in s.dropping
    case Pull(n) => 1 <= n <= |s.queue|
    case Take => s.held.None? && |s.pulled| > 0
    case Permit => s.held.Some? && !s.granted && s.permits > 0
    case Start => s.held.Some? && s.granted
    case Settle(job, _) => job in s.running && job !in s.results
    case Finish(job) => job in s.running && job in s.results
  }

  function Next(capacity: nat, s: State, move: Move): State
    requires Enabled(s, move)
  {
    match move
    case Offer(id, claim) =>
      var job := Job(s.offered, id, claim);
      var counted := s.(offered := s.offered + 1);
      if |s.queue| < capacity
      then counted.(queue := s.queue + [job], accepted := s.accepted + [job])
      else counted.(dropping := s.dropping + {job})
    case GiveBack(job, _) => s.(dropping := s.dropping - {job}, dropped := s.dropped + {job})
    case Pull(n) => s.(queue := s.queue[n..], pulled := s.pulled + s.queue[..n])
    case Take => s.(held := Some(s.pulled[0]), pulled := s.pulled[1..])
    case Permit => s.(granted := true, permits := s.permits - 1)
    case Start =>
      s.(held := None, granted := false, running := s.running + {s.held.value}, started := s.started + [s.held.value])
    case Settle(job, exit) => s.(results := s.results[job := exit])
    case Finish(job) => s.(running := s.running - {job}, permits := s.permits + 1)
  }

  function Idle(capacity: nat): State {
    State([], [], None, false, capacity, {}, map[], {}, {}, 0, [], [])
  }

  // ---- Conservation -----------------------------------------------------------------------

  /** Nothing is lost, duplicated or overtaken between the queue and the fibers. */
  ghost predicate InLine(s: State) {
    s.accepted == s.started + s.Held() + s.pulled + s.queue
  }

  ghost predicate PermitsBalance(capacity: nat, s: State) {
    && s.permits >= 0
    && (s.granted ==> s.held.Some?)
    && s.permits + (if s.granted then 1 else 0) + |s.running| == capacity
  }

  /** Every offer has its own serial number, and was either accepted or refused. */
  ghost predicate Numbered(s: State) { Serial(s) && Refusals(s) }

  ghost predicate Serial(s: State) {
    && (forall i :: 0 <= i < |s.accepted| ==> s.accepted[i].serial < s.offered)
    && (forall i, j :: 0 <= i < j < |s.accepted| ==> s.accepted[i].serial < s.accepted[j].serial)
  }

  ghost predicate Refusals(s: State) {
    && (forall job :: job in s.dropping || job in s.dropped ==> job.serial < s.offered && job !in s.accepted)
    && s.dropping !! s.dropped
    && |s.accepted| + |s.dropping| + |s.dropped| == s.offered
  }

  /** A started job is on its fiber until it is settled. */
  ghost predicate Tracked(s: State) {
    forall job :: job in s.started <==> job in s.running || job in s.results
  }

  ghost predicate Sound(capacity: nat, s: State) {
    InLine(s) && PermitsBalance(capacity, s) && Numbered(s) && Tracked(s) && |s.queue| <= capacity
  }

  lemma PullKeepsLine(capacity: nat, s: State, n: nat)
    requires InLine(s) && Enabled(s, Pull(n))
    ensures InLine(Next(capacity, s, Pull(n)))
  {
    assert s.queue == s.queue[..n] + s.queue[n..];
  }

  lemma TakeKeepsLine(capacity: nat, s: State)
    requires InLine(s) && Enabled(s, Take)
    ensures InLine(Next(capacity, s, Take))
  {
    assert s.pulled == [s.pulled[0]] + s.pulled[1..];
  }

  lemma MovesKeepLine(capacity: nat, s: State, move: Move)
    requires InLine(s) && Enabled(s, move)
    ensures InLine(Next(capacity, s, move))
  {
    match move
    case Pull(n) => PullKeepsLine(capacity, s, n);
    case Take => TakeKeepsLine(capacity, s);
    case _ =>
  }

  lemma MovesKeepSerial(capacity: nat, s: State, move: Move)
    requires Serial(s) && Enabled(s, move)
    ensures Serial(Next(capacity, s, move))
  {
  }

  lemma MovesKeepRefusals(capacity: nat, s: State, move: Move)
    requires Numbered(s) && Enabled(s, move)
    ensures Refusals(Next(capacity, s, move))
  {
    match move
    case Offer(id, claim) => OfferKeepsRefusals(capacity, s, id, claim);
    case GiveBack(job, released) => GivingBackKeepsRefusals(capacity, s, job, released);
    case _ =>
  }

  lemma OfferKeepsRefusals(capacity: nat, s: State, id: DeliveryId, claim: Claim)
    requires Numbered(s)
    ensures Refusals(Next(capacity, s, Offer(id, claim)))
  {
  }

  lemma GivingBackKeepsRefusals(capacity: nat, s: State, job: Job, released: bool)
    requires Numbered(s) && job in s.dropping
    ensures Refusals(Next(capacity, s, GiveBack(job, released)))
  {
  }

  /** A job still with the dispatcher has not been started. */
  lemma HeldIsNotStarted(s: State)
    requires InLine(s) && Numbered(s) && s.held.Some?
    ensures s.held.value !in s.started
  {
    assert s.accepted[|s.started|] == s.held.value;
    assert forall i :: 0 <= i < |s.started| ==> s.accepted[i] == s.started[i];
  }

  lemma MovesKeepTracked(capacity: nat, s: State, move: Move)
    requires Tracked(s) && Enabled(s, move)
    ensures Tracked(Next(capacity, s, move))
  {
  }

  lemma MovesKeepPermits(capacity: nat, s: State, move: Move)
    requires PermitsBalance(capacity, s) && Enabled(s, move) && |s.queue| <= capacity
    requires s.held.Some? ==> s.held.value !in s.running
    ensures PermitsBalance(capacity, Next(capacity, s, move)) && |Next(capacity, s, move).queue| <= capacity
  {
  }

  /** Every move of everyone keeps the line, the permits and the numbering. */
  lemma MovesKeepSound(capacity: nat, s: State, move: Move)
    requires Sound(capacity, s) && Enabled(s, move)
    ensures Sound(capacity, Next(capacity, s, move))
  {
    if s.held.Some? {
      HeldIsNotStarted(s);
    }
    MovesKeepPermits(capacity, s, move);
    MovesKeepLine(capacity, s, move);
    MovesKeepSerial(capacity, s, move);
    MovesKeepRefusals(capacity, s, move);
    MovesKeepTracked(capacity, s, move);
  }

  // ---- One place for every job ------------------------------------------------------------

  predicate Known(s: State, job: Job) { job in s.accepted || job in s.dropping || job in s.dropped }

  function Places(s: State, job: Job): nat {
    multiset(s.queue)[job]
    + multiset(s.pulled)[job]
    + (if s.held == Some(job) then 1 else 0)
    + (if job in s.running && job !in s.results then 1 else 0)
    + (if job in s.results then 1 else 0)
    + (if job in s.dropping then 1 else 0)
    + (if job in s.dropped then 1 else 0)
  }

  lemma {:induction false} IncreasingHasNoDuplicates(jobs: seq<Job>, job: Job)
    requires forall i, j :: 0 <= i < j < |jobs| ==> jobs[i].serial < jobs[j].serial
    ensures multiset(jobs)[job] == if job in jobs then 1 else 0
  {
    if |jobs| == 0 {
    } else {
      IncreasingHasNoDuplicates(jobs[..|jobs| - 1], job);
      assert jobs == jobs[..|jobs| - 1] + [jobs[|jobs| - 1]];
    }
  }

  /** A job offered is in exactly one place, whatever happened since; a job never offered is nowhere. */
  lemma EveryJobIsInOnePlace(capacity: nat, s: State, job: Job)
    requires Sound(capacity, s)
    ensures Places(s, job) == if Known(s, job) then 1 else 0
    ensures |s.running| <= capacity
    ensures s.started <= s.accepted
  {
    IncreasingHasNoDuplicates(s.accepted, job);
    assert multiset(s.accepted) == multiset(s.started) + multiset(s.Held()) + multiset(s.pulled) + multiset(s.queue);
    IncreasingHasNoDuplicates(s.started, job) by {
      assert forall i :: 0 <= i < |s.started| ==> s.accepted[i] == s.started[i];
    }
    assert job in s.accepted <==> job in multiset(s.accepted);
  }

  /** The queue drops an offer exactly when it is full. */
  lemma DropsExactlyWhenFull(capacity: nat, s: State, id: DeliveryId, claim: Claim)
    requires Sound(capacity, s)
    ensures var job := Job(s.offered, id, claim);
            var after := Next(capacity, s, Offer(id, claim));
            && (job in after.dropping <==> |s.queue| == capacity)
            && (job in after.accepted <==> |s.queue| < capacity)
            && !Known(s, job) && Known(after, job)
  {
  }

  /** The queue refused the job, and its claim was or is to be given back. */
  predicate WasDropped(s: State, job: Job) { job in s.dropping || job in s.dropped }

  /** A move drops a job exactly if it is the offer of that job to a full queue. */
  lemma OnlyFullQueuesDrop(capacity: nat, s: State, move: Move, job: Job)
    requires Enabled(s, move) && |s.queue| <= capacity
    ensures WasDropped(Next(capacity, s, move), job) <==>
            || WasDropped(s, job)
            || (move == Offer(job.deliveryId, job.claim) && job.serial == s.offered && |s.queue| == capacity)
  {
  }

  /**
   What a move does to one job: only its offer makes it known, only its start starts it, only its settling
   settles it.
   */
  lemma MoveOnJob(capacity: nat, s: State, move: Move, job: Job)
    requires Enabled(s, move)
    ensures var after := Next(capacity, s, move);
            && (Known(after, job) <==>
                Known(s, job) || (move == Offer(job.deliveryId, job.claim) && job.serial == s.offered))
            && (job in after.started <==> job in s.started || (move.Start? && s.held == Some(job)))
            && (job in after.results <==> job in s.results || (move.Settle? && move.job == job))
            && (job in s.results && !(move.Settle? && move.job == job) ==> after.results[job] == s.results[job])
            && (job in after.dropped <==> job in s.dropped || (move.GiveBack? && move.job == job))
  {
  }

  // ---- Progress ---------------------------------------------------------------------------

  ghost predicate Told(capacity: nat, story: Story<State, Move>)
    decreases story, 0
  {
    match story
    case Opening(s) => s == Idle(capacity)
    case Followed(before, move) => Told(capacity, before) && Enabled(Now(capacity, before), move)
  }

  ghost function Now(capacity: nat, story: Story<State, Move>): State
    requires Told(capacity, story)
    decreases story, 1
  {
    match story
    case Opening(s) => s
    case Followed(before, move) => Next(capacity, Now(capacity, before), move)
  }

  lemma {:induction false} StoriesAreSound(capacity: nat, story: Story<State, Move>)
    requires Told(capacity, story)
    ensures Sound(capacity, Now(capacity, story))
  {
    match story
    case Opening(_) =>
    case Followed(before, move) =>
      StoriesAreSound(capacity, before);
      MovesKeepSound(capacity, Now(capacity, before), move);
  }

  lemma MoveKeepsResult(capacity: nat, s: State, move: Move, job: Job)
    requires Enabled(s, move) && job in s.results
    ensures job in Next(capacity, s, move).results && Next(capacity, s, move).results[job] == s.results[job]
  {
  }

  /** A result is delivered once: no later move changes it. */
  lemma {:induction false} ResultsAreFinal(
    capacity: nat, story: Story<State, Move>, later: Story<State, Move>, job: Job)
    requires Told(capacity, story) && Told(capacity, later) && Precedes(story, later)
    requires job in Now(capacity, story).results
    ensures job in Now(capacity, later).results
    ensures Now(capacity, later).results[job] == Now(capacity, story).results[job]
  {
    if story == later {
    } else {
      ResultsAreFinal(capacity, story, later.before, job);
      MoveKeepsResult(capacity, Now(capacity, later.before), later.move, job);
    }
  }

  /** The part of the work that is left on the fibers. */
  function FiberWork(running: set<Job>, results: map<Job, Exit>): int { |running| + |running - results.Keys| }

  /** The part of the work that is left before the fibers. */
  function LineWork(s: State): int {
    6 * |s.queue| + 5 * |s.pulled| + if s.held.None? then 0 else if s.granted then 3 else 4
  }

  /** The moves the jobs under way can still make. */
  function Work(s: State): int {
    LineWork(s) + FiberWork(s.running, s.results) + |s.dropping|
  }

  lemma StartingAddsWork(running: set<Job>, results: map<Job, Exit>, job: Job)
    requires job !in running && job !in results
    ensures FiberWork(running + {job}, results) == FiberWork(running, results) + 2
  {
    assert (running + {job}) - results.Keys == (running - results.Keys) + {job};
  }

  lemma SettlingDoesWork(running: set<Job>, results: map<Job, Exit>, job: Job, exit: Exit)
    requires job in running && job !in results
    ensures FiberWork(running, results[job := exit]) == FiberWork(running, results) - 1
  {
    assert running - results.Keys == (running - results[job := exit].Keys) + {job};
  }

  lemma FinishingDoesWork(running: set<Job>, results: map<Job, Exit>, job: Job)
    requires job in running && job in results
    ensures FiberWork(running - {job}, results) == FiberWork(running, results) - 1
  {
    assert (running - {job}) - results.Keys == running - results.Keys;
  }

  lemma LineMovesDoWork(capacity: nat, s: State, move: Move)
    requires Enabled(s, move) && (s.held.None? ==> !s.granted)
    ensures var after := Next(capacity, s, move);
            LineWork(after) <= LineWork(s) +
              match move
              case Offer(_, _) => if |s.queue| < capacity then 6 else 0
              case Start => -3
              case Pull(_) => -1
              case Take => -1
              case Permit => -1
              case _ => 0
  {
  }

  lemma FiberMovesDoWork(capacity: nat, s: State, move: Move)
    requires Sound(capacity, s) && Enabled(s, move)
    ensures var after := Next(capacity, s, move);
            FiberWork(after.running, after.results) == FiberWork(s.running, s.results) +
              match move
              case Start => 2
              case Settle(_, _) => -1
              case Finish(_) => -1
              case _ => 0
  {
    match move
    case Start =>
      HeldIsNotStarted(s);
      StartingAddsWork(s.running, s.results, s.held.value);
    case Settle(job, exit) => SettlingDoesWork(s.running, s.results, job, exit);
    case Finish(job) => FinishingDoesWork(s.running, s.results, job);
    case _ =>
  }

  lemma DropsDoWork(capacity: nat, s: State, move: Move)
    requires Enabled(s, move)
    ensures |Next(capacity, s, move).dropping| <= |s.dropping| +
              match move
              case Offer(_, _) => if |s.queue| < capacity then 0 else 1
              case GiveBack(_, _) => -1
              case _ => 0
  {
  }

  lemma MovesDoWork(capacity: nat, s: State, move: Move)
    requires Sound(capacity, s) && Enabled(s, move)
    ensures Work(Next(capacity, s, move)) <= Work(s) + if move.Offer? then 6 else -1
  {
    LineMovesDoWork(capacity, s, move);
    FiberMovesDoWork(capacity, s, move);
    DropsDoWork(capacity, s, move);
  }

  lemma {:induction false} WorkIsBounded(capacity: nat, story: Story<State, Move>)
    requires Told(capacity, story)
    ensures Length(story) + Work(Now(capacity, story)) <= 7 * Now(capacity, story).offered
  {
    match story
    case Opening(_) =>
    case Followed(before, move) =>
      WorkIsBounded(capacity, before);
      StoriesAreSound(capacity, before);
      MovesDoWork(capacity, Now(capacity, before), move);
  }

  /** No move but a new offer is possible. */
  ghost predicate Stuck(s: State) { forall move :: Enabled(s, move) ==> move.Offer? }

  lemma StuckMeansDone(capacity: nat, s: State)
    requires capacity >= 1 && Sound(capacity, s) && Stuck(s)
    ensures s.started == s.accepted && (forall job :: job in s.accepted <==> job in s.results)
    ensures s.dropping == {} && s.permits == capacity
  {
    forall job ensures job !in s.running && job !in s.dropping {
      assert !Enabled(s, Settle(job, Success)) && !Enabled(s, Finish(job)) && !Enabled(s, GiveBack(job, true));
    }
    assert s.running == {};
    assert !Enabled(s, Start) && !Enabled(s, Permit) && !Enabled(s, Take) && !Enabled(s, Pull(1));
  }

  /**
   The dispatcher never gets stuck: after at most seven moves per offer there is nothing left to do,
   and then every accepted job is settled, every refused claim was given back and every permit is free.
   */
  lemma EveryAcceptedJobSettles(capacity: nat, story: Story<State, Move>)
    requires capacity >= 1 && Told(capacity, story)
    ensures Length(story) <= 7 * Now(capacity, story).offered
    ensures Stuck(Now(capacity, story)) ==>
              var s := Now(capacity, story);
              && s.started == s.accepted && (forall job :: job in s.accepted <==> job in s.results)
              && s.dropping == {} && s.permits == capacity
  {
    WorkIsBounded(capacity, story);
    StoriesAreSound(capacity, story);
    if Stuck(Now(capacity, story)) {
      StuckMeansDone(capacity, Now(capacity, story));
    }
  }

  // ---- Refused offers ---------------------------------------------------------------------

  /** The claim of the job is still the current one. */
  ghost predicate StillCurrent(run: Run, job: Job)
    requires Legal(run)
  {
    job.deliveryId in Final(run).rows && Final(run).rows[job.deliveryId].Holds(job.claim.Fence())
  }

  /** The release of a refused offer: expired or not, it succeeds exactly when the claim was not lost meanwhile. */
  lemma ReleaseSucceedsExactlyWhenCurrent(run: Run, now: int, job: Job)
    requires Legal(run)
    ensures var release := Then(run, now, Release(job.deliveryId, job.claim));
            && Legal(release)
            && LastReply(release) ==
               if StillCurrent(run, job) then Done else Failed(ClaimLost(job.deliveryId, job.claim.Fence()))
  {
    FinalIsValid(run);
    AcceptedExactlyWhenEnabled(Final(run), now, Release(job.deliveryId, job.claim));
  }

  /**
   An offer the queue refused gives its claim back. Once the store has answered, the token is not current
   and never will be; if it was current, the delivery waits unclaimed and anyone may take it when it is due.
   */
  lemma RefusedClaimIsFree(run: Run, now: int, job: Job, later: Run)
    requires Legal(run) && job.deliveryId in Final(run).rows
    requires Final(run).rows[job.deliveryId].Holds(job.claim.Fence())
             || StaleIn(Final(run), job.deliveryId, job.claim.Fence())
    requires Legal(later) && Extends(later, Then(run, now, Release(job.deliveryId, job.claim)))
    ensures StaleIn(Final(later), job.deliveryId, job.claim.Fence())
    ensures Final(run).rows[job.deliveryId].Holds(job.claim.Fence()) ==>
              var freed := Final(Then(run, now, Release(job.deliveryId, job.claim))).rows[job.deliveryId];
              freed.claim.None? && forall t :: freed.Claimable(t) <==> freed.nextEligibleAt <= t
  {
    var given := Then(run, now, Release(job.deliveryId, job.claim));
    DeliveryWorker.OwnRelease(run, now, job.deliveryId, job.claim);
    StaleForever(later, given, job.deliveryId, job.claim.Fence());
    FinalIsValid(run);
    AcceptedExactlyWhenEnabled(Final(run), now, Release(job.deliveryId, job.claim));
  }

  // ---- The queue, the permits and the fibers themselves -----------------------------------

  datatype Offering = Queued(job: Job) | Overloaded(overload: Admission.Overload) | ClaimFailed(error: StoreError)

  /** A delivery with a route goes where the route says. */
  function DestinationFor(claimed: ClaimedDelivery, fallback: DestinationId): DestinationId {
    if claimed.route.Some? then claimed.route.value.destinationId else fallback
  }

  class Dispatcher {
    const capacity: nat
    var requests: seq<Job>
    var chunk: seq<Job>
    var current: Option<Job>
    var granted: bool
    var permits: int
    var deliveries: set<Job>
    var results: map<Job, Exit>
    var offered: nat
    ghost var contents: State

    ghost predicate Valid()
      reads this
    {
      Represents() && Sound(capacity, contents)
    }

    /** The fields hold what the state says; the state also remembers the past. */
    ghost predicate Represents()
      reads this
    {
      && contents.queue == requests && contents.pulled == chunk
      && contents.held == current && contents.granted == granted && contents.permits == permits
      && contents.running == deliveries && contents.results == results && contents.offered == offered
    }

    /** Everything accepted and not yet on a fiber, in order. */
    function Line(): seq<Job>
      reads this
    {
      (if current.Some? then [current.value] else []) + chunk + requests
    }

    constructor (capacity: nat)
      ensures this.capacity == capacity && contents == Idle(capacity) && Valid()
    {
      this.capacity := capacity;
      requests, chunk, current, granted, permits := [], [], None, false, capacity;
      deliveries, results, offered := {}, map[], 0;
      contents := Idle(capacity);
    }

    method Offer(id: DeliveryId, claim: Claim) returns (job: Job, taken: bool)
      requires Valid()
      modifies this`requests, this`offered, this`contents
      ensures Valid() && contents == Next(capacity, old(contents), Move.Offer(id, claim))
      ensures job == Job(old(offered), id, claim) && taken == (|old(requests)| < capacity)
    {
      MovesKeepSound(capacity, contents, Move.Offer(id, claim));
      contents := Next(capacity, contents, Move.Offer(id, claim));
      job := Job(offered, id, claim);
      taken := |requests| < capacity;
      offered := offered + 1;
      if taken {
        requests := requests + [job];
      }
    }

    /**
     A refused offer releases its claim, and if that succeeds it reports the global admission limit as
     exceeded, on the counter that `admit` uses and without a look at any permit.
     */
    method OfferClaimed(
      store: Store, gate: Admission.Gate, claimed: ClaimedDelivery, destination: DestinationId, now: int,
      ghost name: Admission.TicketId)
      returns (offering: Offering)
      requires Valid() && store.Valid() && gate.Valid() && name !in gate.tickets
      modifies this`requests, this`offered, this`contents, store, gate`rejected, gate`tickets
      ensures Valid() && store.Valid() && gate.Valid() && offered == old(offered) + 1
      ensures var job := Job(old(offered), claimed.delivery.id, claimed.claim);
              var answer := Apply(old(store.contents), now, Release(claimed.delivery.id, claimed.claim));
              var reported := |old(requests)| >= capacity && !answer.1.Failed?;
              && (if |old(requests)| < capacity
                  then
                    && requests == old(requests) + [job] && contents.accepted == old(contents.accepted) + [job]
                    && contents.dropped == old(contents.dropped) && store.contents == old(store.contents)
                    && offering == Queued(job)
                  else
                    && requests == old(requests) && contents.accepted == old(contents.accepted)
                    && contents.dropped == old(contents.dropped) + {job} && store.contents == answer.0
                    && offering == (if answer.1.Failed? then ClaimFailed(answer.1.error) else
                         Overloaded(Admission.Overload(gate.limits.global, destination, Admission.GlobalAdmission))))
              && gate.rejected == old(gate.rejected) + (if reported then 1 else 0)
              && gate.tickets == old(gate.tickets)
    {
      var job, taken := Offer(claimed.delivery.id, claimed.claim);
      if taken {
        return Queued(job);
      }
      offering := Refuse(store, gate, job, destination, now, name);
    }

    method Refuse(
      store: Store, gate: Admission.Gate, job: Job, destination: DestinationId, now: int,
      ghost name: Admission.TicketId)
      returns (offering: Offering)
      requires Valid() && store.Valid() && gate.Valid() && name !in gate.tickets && job in contents.dropping
      modifies this`contents, store, gate`rejected, gate`tickets
      ensures Valid() && store.Valid() && gate.Valid() && gate.tickets == old(gate.tickets)
      ensures var answer := Apply(old(store.contents), now, Release(job.deliveryId, job.claim));
              && store.contents == answer.0
              && contents == Next(capacity, old(contents), GiveBack(job, !answer.1.Failed?))
              && gate.rejected == old(gate.rejected) + (if answer.1.Failed? then 0 else 1)
              && offering == (if answer.1.Failed? then ClaimFailed(answer.1.error) else
                   Overloaded(Admission.Overload(gate.limits.global, destination, Admission.GlobalAdmission)))
    {
      var reply := store.ReleaseClaim(job.deliveryId, job.claim, now);
      GaveBack(job, !reply.Failed?);
      if reply.Failed? {
        return ClaimFailed(reply.error);
      }
      var error := gate.RejectOffer(name, destination);
      offering := Overloaded(error);
    }

    /** Bookkeeping: the release of a refused offer was attempted. */
    ghost method GaveBack(job: Job, released: bool)
      requires Valid() && job in contents.dropping
      modifies this`contents
      ensures Valid() && contents == Next(capacity, old(contents), GiveBack(job, released))
    {
      MovesKeepSound(capacity, contents, GiveBack(job, released));
      contents := Next(capacity, contents, GiveBack(job, released));
    }

    /**
     A caller that only enqueues is not told of an overload, though it is counted: reconciliation finds the
     delivery again.
     */
    method EnqueueClaimed(
      store: Store, gate: Admission.Gate, claimed: ClaimedDelivery, destination: DestinationId, now: int,
      ghost name: Admission.TicketId)
      returns (error: Option<StoreError>)
      requires Valid() && store.Valid() && gate.Valid() && name !in gate.tickets
      modifies this`requests, this`offered, this`contents, store, gate`rejected, gate`tickets
      ensures Valid() && store.Valid() && gate.Valid() && offered == old(offered) + 1
      ensures var answer := Apply(old(store.contents), now, Release(claimed.delivery.id, claimed.claim));
              && (if |old(requests)| < capacity
                  then
                    && error.None? && store.contents == old(store.contents)
                    && requests == old(requests) + [Job(old(offered), claimed.delivery.id, claimed.claim)]
                  else
                    && store.contents == answer.0 && requests == old(requests)
                    && error == if answer.1.Failed? then Some(answer.1.error) else None)
              && gate.rejected == old(gate.rejected) + (if |old(requests)| >= capacity && error.None? then 1 else 0)
              && gate.tickets == old(gate.tickets)
    {
      var offering := OfferClaimed(store, gate, claimed, destination, now, name);
      error := if offering.ClaimFailed? then Some(offering.error) else None;
    }

    method Pull(n: nat)
      requires Valid() && 1 <= n <= |requests|
      modifies this`requests, this`chunk, this`contents
      ensures Valid() && contents == Next(capacity, old(contents), Move.Pull(n))
      ensures contents.accepted == old(contents.accepted) && contents.started == old(contents.started)
    {
      MovesKeepSound(capacity, contents, Move.Pull(n));
      contents := Next(capacity, contents, Move.Pull(n));
      chunk := chunk + requests[..n];
      requests := requests[n..];
    }

    method Take()
      requires Valid() && current.None? && |chunk| > 0
      modifies this`chunk, this`current, this`contents
      ensures Valid() && contents == Next(capacity, old(contents), Move.Take)
      ensures contents.accepted == old(contents.accepted) && contents.started == old(contents.started)
    {
      MovesKeepSound(capacity, contents, Move.Take);
      contents := Next(capacity, contents, Move.Take);
      current := Some(chunk[0]);
      chunk := chunk[1..];
    }

    method AwaitPermit()
      requires Valid() && current.Some? && !granted && permits > 0
      modifies this`permits, this`granted, this`contents
      ensures Valid() && contents == Next(capacity, old(contents), Permit)
    {
      MovesKeepSound(capacity, contents, Permit);
      contents := Next(capacity, contents, Permit);
      permits := permits - 1;
      granted := true;
    }

    method Fork()
      requires Valid() && current.Some? && granted
      modifies this`current, this`granted, this`deliveries, this`contents
      ensures Valid() && contents == Next(capacity, old(contents), Start)
      ensures contents.accepted == old(contents.accepted) && |contents.started| == old(|contents.started|) + 1
    {
      MovesKeepSound(capacity, contents, Start);
      contents := Next(capacity, contents, Start);
      deliveries := deliveries + {current.value};
      current := None;
      granted := false;
    }

    method Complete(job: Job, exit: Exit)
      requires Valid() && job in deliveries && job !in results
      modifies this`results, this`contents
      ensures Valid() && contents == Next(capacity, old(contents), Settle(job, exit))
    {
      MovesKeepSound(capacity, contents, Settle(job, exit));
      contents := Next(capacity, contents, Settle(job, exit));
      results := results[job := exit];
    }

    method ReleasePermit(job: Job)
      requires Valid() && job in deliveries && job in results
      modifies this`permits, this`deliveries, this`contents
      ensures Valid() && contents == Next(capacity, old(contents), Finish(job))
      ensures |deliveries| < capacity
    {
      MovesKeepSound(capacity, contents, Finish(job));
      contents := Next(capacity, contents, Finish(job));
      deliveries := deliveries - {job};
      permits := permits + 1;
    }

    /** One turn of the dispatcher, which finds a job in line and a permit. */
    method StartNext()
      requires Valid() && !granted && permits > 0 && |Line()| > 0
      modifies this`requests, this`chunk, this`current, this`granted, this`permits, this`deliveries, this`contents
      ensures Valid() && !granted && permits == old(permits) - 1
      ensures contents.accepted == old(contents.accepted) && |contents.started| == old(|contents.started|) + 1
    {
      if current.None? {
        if |chunk| == 0 {
          Pull(|requests|);
        }
        Take();
      }
      AwaitPermit();
      Fork();
    }

    /**
     The dispatcher running on its own until it has to wait: of the jobs in line (`Sound` says that they
     follow the started ones) it starts exactly as many as there are permits for.
     */
    method Dispatch()
      requires Valid() && !granted
      modifies this`requests, this`chunk, this`current, this`granted, this`permits, this`deliveries, this`contents
      ensures Valid() && !granted
      ensures contents.accepted == old(contents.accepted)
      ensures var count := old(if |Line()| < permits then |Line()| else permits);
              |contents.started| == old(|contents.started|) + count && permits == old(permits) - count
    {
      while permits > 0 && (current.Some? || |chunk| > 0 || |requests| > 0)
        invariant Valid() && !granted
        invariant contents.accepted == old(contents.accepted)
        invariant permits + |contents.started| == old(permits + |contents.started|)
        decreases permits
      {
        StartNext();
      }
    }
  }
}

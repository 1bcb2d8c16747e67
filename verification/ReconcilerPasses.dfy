/**
 src/reconciler.ts with its waits, on the whole process: one pass at a time claims from the store, at most
 `concurrency` of its offers are unresolved, and store, dispatcher, workers, all other offers and all other
 processes act in between. An entry whose turn has not come sits claimed, unrenewed and unqueued; whether its
 claim still stands when it is offered is for the store to say.
 */
module ReconcilerPasses {
  import opened Domain
  import opened Ledger
  import opened Runs
  import opened Fencing
  import opened Stories
  import DeliveryWorker
  import Deliveries
  import Fleet
  import Supervisor

  datatype Limits = Limits(concurrency: nat, process: Deliveries.Limits)

  /** One pass: what it claimed, which jobs it has offered so far, in order, and which it still waits for. */
  datatype Pass = Pass(batch: seq<ClaimedDelivery>, offered: seq<Supervisor.Job>, outstanding: set<Supervisor.Job>)
  {
    /** The entries whose turn has not come. */
    ghost predicate Waits(claimed: ClaimedDelivery) {
      exists i :: |offered| <= i < |batch| && batch[i] == claimed
    }
  }

  datatype World = World(here: Deliveries.World, pass: Option<Pass>, finished: seq<Pass>)

  datatype Move =
    | Claim(now: int, op: Operation)       // the mutex is free
    | OfferNext                            // resumeClaimed for the next entry
    | Resolve(job: Supervisor.Job)         // its result is there, or its refusal
    | Finish                               // every entry is resolved
    | Meanwhile(move: Deliveries.Move)     // anything else, except with the entries of the pass

  predicate Resolved(line: Supervisor.State, job: Supervisor.Job) { job in line.results || job in line.dropped }

  function NextOffer(pass: Pass): Deliveries.Move
    requires |pass.offered| < |pass.batch|
  {
    Deliveries.Offer(pass.batch[|pass.offered|])
  }

  ghost predicate Allowed(limits: Limits, w: World, move: Move)
    requires Legal(w.here.fleet.run)
  {
    match move
    case Claim(now, op) => w.pass.None? && op.ClaimPending? && Lawful(Final(w.here.fleet.run), now, op)
    case OfferNext =>
      && w.pass.Some? && |w.pass.value.offered| < |w.pass.value.batch|
      && |w.pass.value.outstanding| < limits.concurrency
      && Deliveries.Allowed(limits.process, w.here, NextOffer(w.pass.value))
    case Resolve(job) => w.pass.Some? && job in w.pass.value.outstanding && Resolved(w.here.line, job)
    case Finish => w.pass.Some? && |w.pass.value.offered| == |w.pass.value.batch| && w.pass.value.outstanding == {}
    case Meanwhile(other) => Deliveries.Allowed(limits.process, w.here, other) && Spares(w.pass, other)
  }

  /** Nobody else offers or starts what the pass has claimed. */
  ghost predicate Spares(pass: Option<Pass>, other: Deliveries.Move) {
    pass.Some? ==>
      && (other.Offer? ==> !pass.value.Waits(other.claimed))
      && (other.Elsewhere? && other.move.Begin? ==> !pass.value.Waits(other.move.claimed))
  }

  ghost function Next(limits: Limits, w: World, move: Move): World
    requires Legal(w.here.fleet.run) && Allowed(limits, w, move)
  {
    match move
    case Claim(now, op) =>
      w.(here := Deliveries.Next(limits.process, w.here, Deliveries.Elsewhere(Fleet.Others(now, op))),
         pass := Some(Pass(Apply(Final(w.here.fleet.run), now, op).1.batch, [], {})))
    case OfferNext =>
      var pass := w.pass.value;
      var entry := pass.batch[|pass.offered|];
      var job := Supervisor.Job(w.here.line.offered, entry.delivery.id, entry.claim);
      w.(here := Deliveries.Next(limits.process, w.here, NextOffer(pass)),
         pass := Some(pass.(offered := pass.offered + [job], outstanding := pass.outstanding + {job})))
    case Resolve(job) => w.(pass := Some(w.pass.value.(outstanding := w.pass.value.outstanding - {job})))
    case Finish => World(w.here, None, w.finished + [w.pass.value])
    case Meanwhile(other) => w.(here := Deliveries.Next(limits.process, w.here, other))
  }

  // ---- The process goes on ----------------------------------------------------------------

  /** What the move is for the rest of the process, if anything. */
  function ProcessMove(w: World, move: Move): Option<Deliveries.Move> {
    match move
    case Claim(now, op) => Some(Deliveries.Elsewhere(Fleet.Others(now, op)))
    case OfferNext =>
      if w.pass.Some? && |w.pass.value.offered| < |w.pass.value.batch| then Some(NextOffer(w.pass.value)) else None
    case Meanwhile(other) => Some(other)
    case _ => None
  }

  lemma MovesOfTheProcess(limits: Limits, w: World, move: Move)
    requires Legal(w.here.fleet.run) && Allowed(limits, w, move)
    ensures match ProcessMove(w, move)
            case Some(other) =>
              && Deliveries.Allowed(limits.process, w.here, other)
              && Next(limits, w, move).here == Deliveries.Next(limits.process, w.here, other)
            case None => Next(limits, w, move).here == w.here
  {
  }

  ghost predicate Told(limits: Limits, story: Story<World, Move>)
    decreases story, 0
  {
    match story
    case Opening(w) => w == World(Deliveries.Fresh(limits.process), None, [])
    case Followed(before, move) =>
      Told(limits, before) && Legal(Now(limits, before).here.fleet.run) && Allowed(limits, Now(limits, before), move)
  }

  ghost function Now(limits: Limits, story: Story<World, Move>): World
    requires Told(limits, story)
    decreases story, 1
  {
    match story
    case Opening(w) => w
    case Followed(before, move) => Next(limits, Now(limits, before), move)
  }

  ghost function ProcessStory(limits: Limits, story: Story<World, Move>): Story<Deliveries.World, Deliveries.Move>
    requires Told(limits, story)
  {
    match story
    case Opening(w) => Opening(w.here)
    case Followed(before, move) =>
      match ProcessMove(Now(limits, before), move)
      case Some(other) => Followed(ProcessStory(limits, before), other)
      case None => ProcessStory(limits, before)
  }

  lemma {:induction false} ProcessIsTold(limits: Limits, story: Story<World, Move>)
    requires Told(limits, story)
    ensures Deliveries.Told(limits.process, ProcessStory(limits, story))
    ensures Deliveries.Now(limits.process, ProcessStory(limits, story)) == Now(limits, story).here
    ensures Deliveries.Orderly(limits.process, Now(limits, story).here)
  {
    match story
    case Opening(_) => Deliveries.StoriesAreOrderly(limits.process, ProcessStory(limits, story));
    case Followed(before, move) =>
      ProcessIsTold(limits, before);
      MovesOfTheProcess(limits, Now(limits, before), move);
      Deliveries.StoriesAreOrderly(limits.process, ProcessStory(limits, story));
  }

  // ---- What a pass keeps ------------------------------------------------------------------

  /** Entries are offered in order, each as one job of its own, and every one offered is awaited or resolved. */
  ghost predicate InOrder(limits: Limits, line: Supervisor.State, pass: Pass) {
    && |pass.offered| <= |pass.batch| && |pass.outstanding| <= limits.concurrency
    && (forall i :: 0 <= i < |pass.offered| ==>
          && pass.offered[i].deliveryId == pass.batch[i].delivery.id && pass.offered[i].claim == pass.batch[i].claim
          && Supervisor.Known(line, pass.offered[i]) && pass.offered[i].serial < line.offered
          && (pass.offered[i] in pass.outstanding || Resolved(line, pass.offered[i])))
    && (forall i, j :: 0 <= i < j < |pass.offered| ==> pass.offered[i].serial < pass.offered[j].serial)
    && (forall job :: job in pass.outstanding ==> job in pass.offered)
  }

  /** The entries whose turn has not come are claims of their own, in hand, and nobody has offered them. */
  ghost predicate InHand(here: Deliveries.World, pass: Pass) {
    && (forall i :: |pass.offered| <= i < |pass.batch| ==>
          pass.batch[i] in here.fleet.handed && !Deliveries.IsOffered(here, pass.batch[i]))
    && (forall i, j :: |pass.offered| <= i < j < |pass.batch| ==> pass.batch[i] != pass.batch[j])
  }

  ghost predicate Orderly(limits: Limits, w: World) {
    && Deliveries.Orderly(limits.process, w.here)
    && (w.pass.Some? ==> InOrder(limits, w.here.line, w.pass.value) && InHand(w.here, w.pass.value))
    && (forall i :: 0 <= i < |w.finished| ==> Complete(limits, w.here.line, w.finished[i]))
  }

  /** A finished pass has offered every entry it claimed, once each, and seen each of them resolved. */
  ghost predicate Complete(limits: Limits, line: Supervisor.State, pass: Pass) {
    InOrder(limits, line, pass) && |pass.offered| == |pass.batch| && pass.outstanding == {}
  }

  /** What was offered stays known, and what is resolved stays resolved. */
  lemma LineKeepsJobs(capacity: nat, line: Supervisor.State, turn: Supervisor.Move, job: Supervisor.Job)
    requires Supervisor.Enabled(line, turn)
    ensures var after := Supervisor.Next(capacity, line, turn);
            && line.offered <= after.offered
            && (Supervisor.Known(line, job) ==> Supervisor.Known(after, job))
            && (Resolved(line, job) ==> Resolved(after, job))
  {
  }

  lemma LineKeepsOrder(limits: Limits, line: Supervisor.State, turn: Supervisor.Move, pass: Pass)
    requires Supervisor.Enabled(line, turn) && InOrder(limits, line, pass)
    ensures InOrder(limits, Supervisor.Next(limits.process.capacity, line, turn), pass)
  {
    forall i | 0 <= i < |pass.offered|
      ensures var after := Supervisor.Next(limits.process.capacity, line, turn);
              && line.offered <= after.offered && Supervisor.Known(after, pass.offered[i])
              && (Resolved(line, pass.offered[i]) ==> Resolved(after, pass.offered[i]))
    {
      LineKeepsJobs(limits.process.capacity, line, turn, pass.offered[i]);
    }
  }

  /** What a move of the process does to its line keeps what a pass has done. */
  lemma ProcessKeepsOrder(limits: Limits, here: Deliveries.World, other: Deliveries.Move, pass: Pass)
    requires Legal(here.fleet.run) && Deliveries.Allowed(limits.process, here, other)
             && InOrder(limits, here.line, pass)
    ensures InOrder(limits, Deliveries.Next(limits.process, here, other).line, pass)
  {
    Deliveries.MovesOfTheParts(limits.process, here, other);
    var turn := Deliveries.LineMove(here, other);
    if turn.Some? {
      LineKeepsOrder(limits, here.line, turn.value, pass);
    }
  }

  lemma ProcessKeepsFinished(limits: Limits, here: Deliveries.World, other: Deliveries.Move, finished: seq<Pass>)
    requires Legal(here.fleet.run) && Deliveries.Allowed(limits.process, here, other)
    requires forall i :: 0 <= i < |finished| ==> Complete(limits, here.line, finished[i])
    ensures forall i :: 0 <= i < |finished| ==>
              Complete(limits, Deliveries.Next(limits.process, here, other).line, finished[i])
  {
    forall i | 0 <= i < |finished|
      ensures Complete(limits, Deliveries.Next(limits.process, here, other).line, finished[i])
    {
      ProcessKeepsOrder(limits, here, other, finished[i]);
    }
  }

  /** What nobody offers or starts stays in hand. */
  lemma SparedStaysInHand(limits: Limits, here: Deliveries.World, other: Deliveries.Move, claimed: ClaimedDelivery)
    requires Legal(here.fleet.run) && Deliveries.Allowed(limits.process, here, other)
    requires claimed in here.fleet.handed && !Deliveries.IsOffered(here, claimed)
    requires other.Offer? ==> other.claimed != claimed
    requires other.Elsewhere? && other.move.Begin? ==> other.move.claimed != claimed
    ensures var next := Deliveries.Next(limits.process, here, other);
            claimed in next.fleet.handed && !Deliveries.IsOffered(next, claimed)
  {
  }

  lemma MeanwhileKeepsInHand(limits: Limits, here: Deliveries.World, other: Deliveries.Move, pass: Pass)
    requires Legal(here.fleet.run) && Deliveries.Allowed(limits.process, here, other)
    requires InHand(here, pass) && Spares(Some(pass), other)
    ensures InHand(Deliveries.Next(limits.process, here, other), pass)
  {
    forall i | |pass.offered| <= i < |pass.batch|
      ensures pass.batch[i] in Deliveries.Next(limits.process, here, other).fleet.handed
      ensures !Deliveries.IsOffered(Deliveries.Next(limits.process, here, other), pass.batch[i])
    {
      assert pass.Waits(pass.batch[i]);
      SparedStaysInHand(limits, here, other, pass.batch[i]);
    }
  }

  lemma MeanwhileKeepsOrderly(limits: Limits, w: World, other: Deliveries.Move)
    requires Orderly(limits, w) && Allowed(limits, w, Meanwhile(other))
    ensures Orderly(limits, Next(limits, w, Meanwhile(other)))
  {
    Deliveries.MovesKeepOrderly(limits.process, w.here, other);
    ProcessKeepsFinished(limits, w.here, other, w.finished);
    if w.pass.Some? {
      ProcessKeepsOrder(limits, w.here, other, w.pass.value);
      MeanwhileKeepsInHand(limits, w.here, other, w.pass.value);
    }
  }

  // ---- Claiming ---------------------------------------------------------------------------

  /** The token of an offered claim is none of the future. */
  lemma OfferedStands(limits: Limits, here: Deliveries.World, job: Supervisor.Job)
    requires Deliveries.Orderly(limits.process, here) && job in here.entries
    ensures DeliveryWorker.Standing(here.fleet.run, job.deliveryId, job.claim.Fence())
  {
    if job in here.line.started {
      assert Deliveries.Works(here.fleet.workers, here.fibers[job], job);
      assert DeliveryWorker.Sound(here.fleet.run, here.fleet.workers[here.fibers[job]]);
      Fleet.SoundIsStanding(here.fleet.run, here.fleet.workers[here.fibers[job]]);
    } else {
      Deliveries.UnstartedStands(limits.process, here, job);
    }
  }

  /** The entries of a batch are claims of their own. */
  lemma BatchIsDistinct(l: Ledger, now: int, op: Operation)
    requires Valid(l) && Lawful(l, now, op) && op.ClaimPending?
    ensures Apply(l, now, op).1.Batch?
    ensures var batch := Apply(l, now, op).1.batch;
            && (forall i :: 0 <= i < |batch| ==> batch[i] in Fleet.HandedBy(Apply(l, now, op).1))
            && (forall i, j :: 0 <= i < j < |batch| ==> batch[i] != batch[j])
  {
    var batch := Apply(l, now, op).1.batch;
    forall i | 0 <= i < |batch|
      ensures batch[i].delivery.id == op.chosen[i]
    {
      assert op.chosen[i] in op.chosen && l.rows[op.chosen[i]].delivery.id == op.chosen[i];
    }
  }

  lemma NewClaimIsNotOffered(limits: Limits, here: Deliveries.World, now: int, op: Operation, claimed: ClaimedDelivery)
    requires Deliveries.Orderly(limits.process, here) && Lawful(Final(here.fleet.run), now, op)
    requires claimed in Fleet.HandedBy(Apply(Final(here.fleet.run), now, op).1)
    ensures !Deliveries.IsOffered(here, claimed)
  {
    forall job | job in here.entries
      ensures here.entries[job] != claimed
    {
      OfferedStands(limits, here, job);
      Fleet.NewTokensAreNew(here.fleet.run, now, op, claimed, job.deliveryId, job.claim.Fence());
    }
  }

  lemma ClaimedIsInHand(limits: Limits, here: Deliveries.World, now: int, op: Operation)
    requires Deliveries.Orderly(limits.process, here) && Lawful(Final(here.fleet.run), now, op) && op.ClaimPending?
    ensures Apply(Final(here.fleet.run), now, op).1.Batch?
    ensures InHand(
              Deliveries.Next(limits.process, here, Deliveries.Elsewhere(Fleet.Others(now, op))),
              Pass(Apply(Final(here.fleet.run), now, op).1.batch, [], {}))
  {
    FinalIsValid(here.fleet.run);
    BatchIsDistinct(Final(here.fleet.run), now, op);
    var batch := Apply(Final(here.fleet.run), now, op).1.batch;
    var next := Deliveries.Next(limits.process, here, Deliveries.Elsewhere(Fleet.Others(now, op)));
    assert next.entries == here.entries;
    forall i | 0 <= i < |batch|
      ensures batch[i] in next.fleet.handed && !Deliveries.IsOffered(next, batch[i])
    {
      NewClaimIsNotOffered(limits, here, now, op, batch[i]);
    }
  }

  lemma ClaimKeepsOrderly(limits: Limits, w: World, now: int, op: Operation)
    requires Orderly(limits, w) && Allowed(limits, w, Move.Claim(now, op))
    ensures Orderly(limits, Next(limits, w, Move.Claim(now, op)))
  {
    var other := Deliveries.Elsewhere(Fleet.Others(now, op));
    Deliveries.MovesKeepOrderly(limits.process, w.here, other);
    ProcessKeepsFinished(limits, w.here, other, w.finished);
    ClaimedIsInHand(limits, w.here, now, op);
  }

  // ---- Offering ---------------------------------------------------------------------------

  lemma OneMoreOffered(limits: Limits, line: Supervisor.State, after: Supervisor.State, pass: Pass, job: Supervisor.Job)
    requires InOrder(limits, line, pass) && InOrder(limits, after, pass)
    requires |pass.offered| < |pass.batch| && |pass.outstanding| < limits.concurrency
    requires job.deliveryId == pass.batch[|pass.offered|].delivery.id && job.claim == pass.batch[|pass.offered|].claim
    requires job.serial == line.offered < after.offered && Supervisor.Known(after, job)
    ensures InOrder(limits, after, pass.(offered := pass.offered + [job], outstanding := pass.outstanding + {job}))
  {
  }

  lemma OfferKeepsInHand(limits: Limits, here: Deliveries.World, pass: Pass, job: Supervisor.Job)
    requires Legal(here.fleet.run) && InHand(here, pass) && |pass.offered| < |pass.batch|
    requires Deliveries.Allowed(limits.process, here, NextOffer(pass))
    ensures InHand(
              Deliveries.Next(limits.process, here, NextOffer(pass)),
              pass.(offered := pass.offered + [job], outstanding := pass.outstanding + {job}))
  {
    forall i | |pass.offered| < i < |pass.batch|
      ensures pass.batch[i] in Deliveries.Next(limits.process, here, NextOffer(pass)).fleet.handed
      ensures !Deliveries.IsOffered(Deliveries.Next(limits.process, here, NextOffer(pass)), pass.batch[i])
    {
      SparedStaysInHand(limits, here, NextOffer(pass), pass.batch[i]);
    }
  }

  lemma OfferKeepsOrderly(limits: Limits, w: World)
    requires Orderly(limits, w) && Allowed(limits, w, OfferNext)
    ensures Orderly(limits, Next(limits, w, OfferNext))
  {
    var pass := w.pass.value;
    var entry := pass.batch[|pass.offered|];
    var job := Supervisor.Job(w.here.line.offered, entry.delivery.id, entry.claim);
    Deliveries.MovesKeepOrderly(limits.process, w.here, NextOffer(pass));
    ProcessKeepsFinished(limits, w.here, NextOffer(pass), w.finished);
    ProcessKeepsOrder(limits, w.here, NextOffer(pass), pass);
    Supervisor.DropsExactlyWhenFull(limits.process.capacity, w.here.line, entry.delivery.id, entry.claim);
    OneMoreOffered(limits, w.here.line, Next(limits, w, OfferNext).here.line, pass, job);
    OfferKeepsInHand(limits, w.here, pass, job);
  }

  /** The process never refuses the offer of the next entry: nobody else has had it. */
  lemma OfferIsNeverRefused(limits: Limits, w: World)
    requires Orderly(limits, w) && w.pass.Some? && |w.pass.value.offered| < |w.pass.value.batch|
    requires |w.pass.value.outstanding| < limits.concurrency
    ensures Allowed(limits, w, OfferNext)
  {
  }

  lemma ResolvingKeepsOrder(limits: Limits, line: Supervisor.State, pass: Pass, job: Supervisor.Job)
    requires InOrder(limits, line, pass) && job in pass.outstanding && Resolved(line, job)
    ensures InOrder(limits, line, pass.(outstanding := pass.outstanding - {job}))
  {
  }

  lemma MovesKeepOrderly(limits: Limits, w: World, move: Move)
    requires Orderly(limits, w) && Allowed(limits, w, move)
    ensures Orderly(limits, Next(limits, w, move))
  {
    match move
    case Claim(now, op) => ClaimKeepsOrderly(limits, w, now, op);
    case OfferNext => OfferKeepsOrderly(limits, w);
    case Resolve(job) => ResolvingKeepsOrder(limits, w.here.line, w.pass.value, job);
    case Finish =>
    case Meanwhile(other) => MeanwhileKeepsOrderly(limits, w, other);
  }

  /**
   In every interleaving, passes offer all they claim, in order, once each and within the concurrency, nobody
   else takes up what they have claimed, and they finish only when all is resolved.
   */
  lemma {:induction false} PassesAreOrderly(limits: Limits, story: Story<World, Move>)
    requires Told(limits, story)
    ensures Orderly(limits, Now(limits, story))
  {
    match story
    case Opening(_) => ProcessIsTold(limits, story);
    case Followed(before, move) =>
      PassesAreOrderly(limits, before);
      MovesKeepOrderly(limits, Now(limits, before), move);
  }

  // ---- What becomes of the claims ---------------------------------------------------------

  /** The claim is not current, or will run out because its release got no answer. */
  ghost predicate GivenUp(here: Deliveries.World, job: Supervisor.Job)
    requires Legal(here.fleet.run)
  {
    Deliveries.LeftToItsLease(here, job) || StaleIn(Final(here.fleet.run), job.deliveryId, job.claim.Fence())
  }

  /**
   At every time, each claim of a pass waits for its turn in the pass, or was offered and has a keeper, or was
   given up: no pass leaves a current claim that nobody looks after.
   */
  lemma ClaimsOfPassesAreKept(limits: Limits, story: Story<World, Move>, i: nat)
    requires Told(limits, story) && Now(limits, story).pass.Some? && i < |Now(limits, story).pass.value.batch|
    ensures var w := Now(limits, story);
            var pass := w.pass.value;
            && Legal(w.here.fleet.run)
            && (i < |pass.offered| ==>
                  && pass.offered[i].deliveryId == pass.batch[i].delivery.id
                  && pass.offered[i].claim == pass.batch[i].claim
                  && (Deliveries.HasKeeper(w.here, pass.offered[i]) || GivenUp(w.here, pass.offered[i])))
            && (i >= |pass.offered| ==> pass.Waits(pass.batch[i]) && pass.batch[i] in w.here.fleet.handed)
  {
    PassesAreOrderly(limits, story);
    ProcessIsTold(limits, story);
    var pass := Now(limits, story).pass.value;
    if i < |pass.offered| {
      assert Supervisor.Known(Now(limits, story).here.line, pass.offered[i]);
      Deliveries.NoClaimIsForgotten(limits.process, ProcessStory(limits, story), pass.offered[i]);
    }
  }

  /** A resolved job has given its claim up. */
  lemma ResolvedIsGivenUp(limits: Limits, story: Story<World, Move>, job: Supervisor.Job)
    requires Told(limits, story) && Resolved(Now(limits, story).here.line, job)
    ensures Legal(Now(limits, story).here.fleet.run) && GivenUp(Now(limits, story).here, job)
  {
    ProcessIsTold(limits, story);
    if job in Now(limits, story).here.line.results {
      Deliveries.ResultsTellTheTruth(limits.process, ProcessStory(limits, story), job);
    }
  }

  /** And when a pass has finished, every claim it obtained was given up. */
  lemma FinishedPassesLeaveNothing(limits: Limits, story: Story<World, Move>, p: nat, i: nat)
    requires Told(limits, story) && p < |Now(limits, story).finished| && i < |Now(limits, story).finished[p].batch|
    ensures var w := Now(limits, story);
            var pass := w.finished[p];
            && Legal(w.here.fleet.run)
            && |pass.offered| == |pass.batch| && pass.offered[i].deliveryId == pass.batch[i].delivery.id
            && pass.offered[i].claim == pass.batch[i].claim && GivenUp(w.here, pass.offered[i])
  {
    PassesAreOrderly(limits, story);
    assert Complete(limits, Now(limits, story).here.line, Now(limits, story).finished[p]);
    ResolvedIsGivenUp(limits, story, Now(limits, story).finished[p].offered[i]);
  }

  /** What the claims of the passes obtained, in order. */
  ghost function Batches(limits: Limits, story: Story<World, Move>): seq<seq<ClaimedDelivery>>
    requires Told(limits, story)
  {
    match story
    case Opening(_) => []
    case Followed(before, Claim(now, op)) =>
      Batches(limits, before) + [Apply(Final(Now(limits, before).here.fleet.run), now, op).1.batch]
    case Followed(before, _) => Batches(limits, before)
  }

  function BatchesOf(finished: seq<Pass>, pass: Option<Pass>): seq<seq<ClaimedDelivery>> {
    seq(|finished|, i requires 0 <= i < |finished| => finished[i].batch) +
    if pass.Some? then [pass.value.batch] else []
  }

  lemma MovesKeepBatches(limits: Limits, w: World, move: Move)
    requires Legal(w.here.fleet.run) && Allowed(limits, w, move)
    ensures var after := Next(limits, w, move);
            BatchesOf(after.finished, after.pass) ==
            BatchesOf(w.finished, w.pass) +
            if move.Claim? then [Apply(Final(w.here.fleet.run), move.now, move.op).1.batch] else []
  {
  }

  /** No pass is forgotten: every batch is that of a finished pass, in order, or of the one under way. */
  lemma {:induction false} EveryBatchHasItsPass(limits: Limits, story: Story<World, Move>)
    requires Told(limits, story)
    ensures BatchesOf(Now(limits, story).finished, Now(limits, story).pass) == Batches(limits, story)
  {
    match story
    case Opening(_) =>
    case Followed(before, move) =>
      EveryBatchHasItsPass(limits, before);
      MovesKeepBatches(limits, Now(limits, before), move);
  }

  /**
   A pass never waits in vain: when nothing else has to happen in the process, a pass under way can offer,
   resolve or finish.
   */
  lemma PassesNeverDeadlock(limits: Limits, story: Story<World, Move>)
    requires limits.concurrency >= 1 && limits.process.capacity >= 1 && Told(limits, story)
    requires Legal(Now(limits, story).here.fleet.run)
    requires Now(limits, story).pass.Some? && Deliveries.AtRest(limits.process, Now(limits, story).here)
    ensures var w := Now(limits, story);
            || Allowed(limits, w, OfferNext) || Allowed(limits, w, Finish)
            || exists job :: Allowed(limits, w, Resolve(job))
  {
    var w := Now(limits, story);
    PassesAreOrderly(limits, story);
    Deliveries.RestIsStuck(limits.process, w.here);
    Supervisor.StuckMeansDone(limits.process.capacity, w.here.line);
    var pass := w.pass.value;
    if exists job :: job in pass.outstanding {
      var job :| job in pass.outstanding;
      assert Supervisor.Known(w.here.line, job);
      assert Allowed(limits, w, Resolve(job));
    } else {
      assert pass.outstanding == {};
      if |pass.offered| < |pass.batch| {
        OfferIsNeverRefused(limits, w);
      }
    }
  }
}

/**
 The renewal loop of src/deliveryWorker.ts on the shared store: a worker whose heartbeats are answered and
 come in time keeps its claim, whatever all other workers, operators and intake calls do in the meantime.
 */
module Heartbeats {
  import opened Domain
  import opened Ledger
  import opened Runs
  import opened Leases
  import opened Stories
  import opened DeliveryWorker
  import Fleet

  /** What was done to the store since the prefix, as a run that begins where the prefix ended. */
  ghost function Since(run: Run, prefix: Run): Run
    requires Legal(prefix) && Extends(run, prefix)
  {
    if run == prefix then Begin(Final(prefix)) else Then(Since(run.before, prefix), run.at, run.op)
  }

  /** A run is no shorter than one it extends. */
  function Steps(run: Run): nat { if run.Begin? then 0 else Steps(run.before) + 1 }

  lemma {:induction false} ExtensionsAreLonger(run: Run, prefix: Run)
    requires Extends(run, prefix)
    ensures Steps(run) >= Steps(prefix)
  {
    if run == prefix {
    } else {
      ExtensionsAreLonger(run.before, prefix);
    }
  }

  /** A step made after the prefix is the last of what happened since. */
  lemma SinceOneMore(run: Run, prefix: Run)
    requires run.Then? && Legal(prefix) && Extends(run.before, prefix)
    ensures Extends(run, prefix) && Since(run, prefix) == Then(Since(run.before, prefix), run.at, run.op)
  {
    ExtensionsAreLonger(run.before, prefix);
  }

  // ---- One move ---------------------------------------------------------------------------

  /** The worker holds its claim since its latest heartbeat, and none of its heartbeats has failed. */
  ghost predicate Alive(w: Fleet.World, k: nat, prefix: Run, since: int, lease: int)
    requires Legal(w.run) && Legal(prefix) && Extends(w.run, prefix)
  {
    && k in w.workers && !w.workers[k].renewalFailed
    && HeldUntil(
         Final(w.run), w.workers[k].id, w.workers[k].Fence(),
         LastBeat(Since(w.run, prefix), w.workers[k].id, w.workers[k].Fence(), since) + lease)
  }

  /** Everything done so far was done in time for this worker, and it has not given its claim up. */
  ghost predicate InTime(w: Fleet.World, k: nat, prefix: Run, since: int, lease: int)
    requires Legal(prefix) && Extends(w.run, prefix)
  {
    k in w.workers && Diligent(Since(w.run, prefix), w.workers[k].id, w.workers[k].Fence(), since, lease)
  }

  /** What being diligent says of the last step. */
  lemma LastStepIsInTime(run: Run, prefix: Run, id: DeliveryId, fence: Token, since: int, lease: int)
    requires run.Then? && Legal(prefix) && Extends(run.before, prefix) && Extends(run, prefix)
    requires Diligent(Since(run, prefix), id, fence, since, lease)
    ensures var last := LastBeat(Since(run.before, prefix), id, fence, since);
            && run.at < last + lease && !GivesUp(run.op, id, fence)
            && (Beats(run.op, id, fence) ==> run.op.lease == lease)
            && LastBeat(Since(run, prefix), id, fence, since) == if Beats(run.op, id, fence) then run.at else last
  {
    SinceOneMore(run, prefix);
  }

  /** A step of the store after which the claim still runs, from its latest renewal. */
  lemma StepKeepsHeld(
    run: Run, prefix: Run, id: DeliveryId, fence: Token, since: int, lease: int, last: int, beat: int)
    requires Legal(run) && run.Then? && Legal(prefix) && Extends(run.before, prefix) && Extends(run, prefix)
    requires last == LastBeat(Since(run.before, prefix), id, fence, since)
    requires beat == LastBeat(Since(run, prefix), id, fence, since)
    requires HeldUntil(Final(run.before), id, fence, last + lease)
    requires Diligent(Since(run, prefix), id, fence, since, lease)
    ensures HeldUntil(Final(run), id, fence, beat + lease)
    ensures Beats(run.op, id, fence) ==> LastReply(run).Extended?
  {
    LastStepIsInTime(run, prefix, id, fence, since, lease);
    LeaseSurvivesRun(run, id, fence, last, beat, lease);
  }

  /** The move is not a heartbeat of this worker that lost its request or its answer. */
  predicate Answers(move: Fleet.Move, k: nat) {
    move.By? && move.worker == k && move.turn.Beat? ==> move.turn.wire.Answered?
  }

  lemma BeatsSucceed(run: Run, worker: Worker, turn: Turn)
    requires Legal(run) && Ready(run, worker, turn) && !worker.renewalFailed
    requires turn.Beat? ==>
               && turn.wire.Answered?
               && LastReply(Then(run, turn.now, Renew(worker.id, worker.claim, turn.lease))).Extended?
    ensures !Taken(run, worker, turn).1.renewalFailed
  {
  }

  /** What a move does to the store: nothing, or one step; and a heartbeat of the worker is a renewal of its claim. */
  lemma MoveIsAStep(w: Fleet.World, move: Fleet.Move, k: nat)
    requires Legal(w.run) && Fleet.Allowed(w, move) && k in w.workers
    ensures var next := Fleet.Next(w, move);
            && Legal(next.run) && k in next.workers
            && next.workers[k].id == w.workers[k].id && next.workers[k].Fence() == w.workers[k].Fence()
            && (next.run == w.run || (next.run.Then? && next.run.before == w.run))
            && (move.By? && move.worker == k && move.turn.Beat? && move.turn.wire.Answered? ==>
                  && next.run == Then(w.run, move.turn.now, Renew(w.workers[k].id, w.workers[k].claim, move.turn.lease))
                  && Beats(next.run.op, w.workers[k].id, w.workers[k].Fence()))
            && (!(move.By? && move.worker == k) ==> next.workers[k] == w.workers[k])
  {
    if move.By? {
      Fleet.TurnIsAStep(w.run, w.workers[move.worker], move.turn);
    }
  }

  /** The part of `Alive` that is in the store: at most one step was made. */
  lemma RunsKeepHeld(
    run: Run, next: Run, prefix: Run, id: DeliveryId, fence: Token, since: int, lease: int, last: int, beat: int)
    requires Legal(run) && Legal(next) && Legal(prefix) && Extends(run, prefix) && Extends(next, prefix)
    requires next == run || (next.Then? && next.before == run)
    requires last == LastBeat(Since(run, prefix), id, fence, since)
    requires beat == LastBeat(Since(next, prefix), id, fence, since)
    requires HeldUntil(Final(run), id, fence, last + lease)
    requires Diligent(Since(next, prefix), id, fence, since, lease)
    ensures HeldUntil(Final(next), id, fence, beat + lease)
    ensures next != run && Beats(next.op, id, fence) ==> LastReply(next).Extended?
  {
    if next != run {
      StepKeepsHeld(next, prefix, id, fence, since, lease, last, beat);
    }
  }

  lemma MovesKeepAlive(w: Fleet.World, move: Fleet.Move, k: nat, prefix: Run, since: int, lease: int)
    requires Legal(w.run) && Fleet.Allowed(w, move) && Legal(prefix) && Extends(w.run, prefix)
    requires Alive(w, k, prefix, since, lease) && Answers(move, k)
    requires Legal(Fleet.Next(w, move).run) && Extends(Fleet.Next(w, move).run, prefix)
    requires InTime(Fleet.Next(w, move), k, prefix, since, lease)
    ensures Alive(Fleet.Next(w, move), k, prefix, since, lease)
  {
    var next := Fleet.Next(w, move);
    MoveIsAStep(w, move, k);
    var id, fence := w.workers[k].id, w.workers[k].Fence();
    RunsKeepHeld(
      w.run, next.run, prefix, id, fence, since, lease,
      LastBeat(Since(w.run, prefix), id, fence, since), LastBeat(Since(next.run, prefix), id, fence, since));
    if move.By? && move.worker == k {
      BeatsSucceed(w.run, w.workers[k], move.turn);
    }
  }

  // ---- Whole stories ----------------------------------------------------------------------

  /** Since then, every heartbeat of the worker was answered. */
  ghost predicate AllAnswered(story: Story<Fleet.World, Fleet.Move>, start: Story<Fleet.World, Fleet.Move>, k: nat)
    requires Precedes(start, story)
  {
    story != start ==> AllAnswered(story.before, start, k) && Answers(story.move, k)
  }

  lemma {:induction false} RunsGrow(story: Story<Fleet.World, Fleet.Move>, start: Story<Fleet.World, Fleet.Move>)
    requires Fleet.Told(story) && Precedes(start, story)
    ensures Fleet.Told(start)
    ensures Legal(Fleet.Now(start).run) && Legal(Fleet.Now(story).run)
    ensures Extends(Fleet.Now(story).run, Fleet.Now(start).run)
  {
    Fleet.StoriesAreOrderly(story);
    if story == start {
    } else {
      RunsGrow(story.before, start);
      var w := Fleet.Now(story.before);
      if story.move.By? {
        Fleet.TurnIsAStep(w.run, w.workers[story.move.worker], story.move.turn);
      }
    }
  }

  /** Being in time is closed under prefixes. */
  lemma EarlierIsInTime(w: Fleet.World, move: Fleet.Move, k: nat, prefix: Run, since: int, lease: int)
    requires Legal(w.run) && Fleet.Allowed(w, move) && Legal(prefix) && Extends(w.run, prefix) && k in w.workers
    requires Extends(Fleet.Next(w, move).run, prefix) && InTime(Fleet.Next(w, move), k, prefix, since, lease)
    ensures InTime(w, k, prefix, since, lease)
  {
    MoveIsAStep(w, move, k);
    if Fleet.Next(w, move).run != w.run {
      SinceOneMore(Fleet.Next(w, move).run, prefix);
    }
  }

  lemma {:induction false} WorkersStay(
    story: Story<Fleet.World, Fleet.Move>, start: Story<Fleet.World, Fleet.Move>, k: nat)
    requires Fleet.Told(story) && Precedes(start, story) && Fleet.Told(start) && k in Fleet.Now(start).workers
    ensures k in Fleet.Now(story).workers
  {
    if story == start {
    } else {
      WorkersStay(story.before, start, k);
    }
  }

  /** All that is asked of the story, and all that is known at its end. */
  ghost predicate StaysInTime(
    story: Story<Fleet.World, Fleet.Move>, start: Story<Fleet.World, Fleet.Move>, k: nat, prefix: Run, since: int,
    lease: int)
  {
    && Fleet.Told(story) && Precedes(start, story) && Legal(prefix) && Extends(Fleet.Now(story).run, prefix)
    && AllAnswered(story, start, k) && InTime(Fleet.Now(story), k, prefix, since, lease)
  }

  ghost predicate StaysAlive(story: Story<Fleet.World, Fleet.Move>, k: nat, prefix: Run, since: int, lease: int) {
    && Fleet.Told(story) && Legal(Fleet.Now(story).run) && Legal(prefix) && Extends(Fleet.Now(story).run, prefix)
    && Alive(Fleet.Now(story), k, prefix, since, lease)
  }

  lemma EarlierStaysInTime(
    story: Story<Fleet.World, Fleet.Move>, start: Story<Fleet.World, Fleet.Move>, k: nat, prefix: Run, since: int,
    lease: int)
    requires StaysInTime(story, start, k, prefix, since, lease) && story != start
    requires Fleet.Told(start) && k in Fleet.Now(start).workers && prefix == Fleet.Now(start).run
    ensures StaysInTime(story.before, start, k, prefix, since, lease)
  {
    RunsGrow(story.before, start);
    WorkersStay(story.before, start, k);
    EarlierIsInTime(Fleet.Now(story.before), story.move, k, prefix, since, lease);
  }

  lemma OneMoveStaysAlive(
    story: Story<Fleet.World, Fleet.Move>, start: Story<Fleet.World, Fleet.Move>, k: nat, prefix: Run, since: int,
    lease: int)
    requires StaysInTime(story, start, k, prefix, since, lease) && story != start
    requires StaysAlive(story.before, k, prefix, since, lease)
    ensures StaysAlive(story, k, prefix, since, lease)
  {
    Fleet.StoriesAreOrderly(story);
    MovesKeepAlive(Fleet.Now(story.before), story.move, k, prefix, since, lease);
  }

  lemma AliveAtTheStart(start: Story<Fleet.World, Fleet.Move>, k: nat, prefix: Run, since: int, lease: int)
    requires Fleet.Told(start) && Legal(Fleet.Now(start).run) && prefix == Fleet.Now(start).run
    requires k in Fleet.Now(start).workers && !Fleet.Now(start).workers[k].renewalFailed
    requires var worker := Fleet.Now(start).workers[k];
             HeldUntil(Final(prefix), worker.id, worker.Fence(), since + lease)
    ensures StaysAlive(start, k, prefix, since, lease)
  {
  }

  /**
   A worker that holds its claim at some time of a story, whose heartbeats from then on are answered, come less
   than a lease apart and always in time for the next step of anyone, still holds it at the end, and none of
   its heartbeats has failed.
   */
  lemma {:induction false} TimelyWorkersKeepTheirClaim(
    story: Story<Fleet.World, Fleet.Move>, start: Story<Fleet.World, Fleet.Move>, k: nat, prefix: Run, since: int,
    lease: int)
    requires Fleet.Told(start) && Legal(Fleet.Now(start).run) && prefix == Fleet.Now(start).run
    requires k in Fleet.Now(start).workers && !Fleet.Now(start).workers[k].renewalFailed
    requires var worker := Fleet.Now(start).workers[k];
             HeldUntil(Final(prefix), worker.id, worker.Fence(), since + lease)
    requires StaysInTime(story, start, k, prefix, since, lease)
    ensures StaysAlive(story, k, prefix, since, lease)
  {
    if story == start {
      AliveAtTheStart(start, k, prefix, since, lease);
    } else {
      EarlierStaysInTime(story, start, k, prefix, since, lease);
      TimelyWorkersKeepTheirClaim(story.before, start, k, prefix, since, lease);
      OneMoveStaysAlive(story, start, k, prefix, since, lease);
    }
  }

  /**
   So it leaves the race by its engine or by a request to stop, not by a lost claim; and its next heartbeat, if
   it comes in time and is answered, succeeds.
   */
  lemma TimelyBeatSucceeds(w: Fleet.World, k: nat, prefix: Run, since: int, lease: int, now: int)
    requires Legal(w.run) && Legal(prefix) && Extends(w.run, prefix) && Alive(w, k, prefix, since, lease)
    ensures !Ready(w.run, w.workers[k], Turn.Settle(Renewal))
    ensures now < LastBeat(Since(w.run, prefix), w.workers[k].id, w.workers[k].Fence(), since) + lease ==>
              Called(w.run, now, Renew(w.workers[k].id, w.workers[k].claim, lease), Answered).1
  {
    var worker := w.workers[k];
    var last := LastBeat(Since(w.run, prefix), worker.id, worker.Fence(), since);
    if now < last + lease {
      HolderMayRenew(Final(w.run), now, worker.id, worker.claim, last + lease, lease);
    }
  }

  lemma HolderMayRenew(l: Ledger, now: int, id: DeliveryId, claim: Claim, expiry: int, lease: int)
    requires HeldUntil(l, id, claim.Fence(), expiry) && now < expiry
    ensures !Apply(l, now, Renew(id, claim, lease)).1.Failed?
  {
    AcceptedExactlyWhenEnabled(l, now, Renew(id, claim, lease));
    Granted(l, now, Renew(id, claim, lease));
  }
}

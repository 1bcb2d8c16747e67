/**
 All workers of all processes on one store. Claims come from the store's own replies, each is handed to at
 most one worker, and only workers record attempts. Everything else may be done by anyone at any time.
 */
module Fleet {
  import opened Domain
  import opened Ledger
  import opened Runs
  import opened Fencing
  import opened History
  import opened Stories
  import opened DeliveryWorker
  import Engine
  import Policy

  datatype World = World(run: Run, handed: set<ClaimedDelivery>, workers: map<nat, Worker>)

  datatype Move =
    | Others(now: int, op: Operation)
    | Begin(worker: nat, claimed: ClaimedDelivery, script: Script)
    | By(worker: nat, turn: Turn)

  /** The claimed deliveries that a reply of the store hands out. */
  function HandedBy(reply: Reply): set<ClaimedDelivery> {
    match reply
    case Batch(batch) => set c | c in batch
    case Saved(claimed) => {claimed}
    case Accepted(decision, claim) =>
      {ClaimedDelivery(claim, 0, decision.delivery, decision.event, 1, Some(decision.route))}
    case _ => {}
  }

  function Hired(claimed: ClaimedDelivery, script: Script): Worker {
    Worker(claimed.delivery.id, claimed.claim, script, Entering, Sending(0), false, false)
  }

  ghost predicate Allowed(w: World, move: Move)
    requires Legal(w.run)
  {
    match move
    case Others(now, op) => Lawful(Final(w.run), now, op) && !op.RecordAttempt?
    case Begin(k, claimed, script) =>
      && claimed in w.handed && k !in w.workers
      && script.Sane() && script.firstOrdinal == claimed.nextAttemptOrdinal
    case By(k, turn) => k in w.workers && Ready(w.run, w.workers[k], turn)
  }

  ghost function Next(w: World, move: Move): World
    requires Legal(w.run) && Allowed(w, move)
  {
    match move
    case Others(now, op) =>
      World(Then(w.run, now, op), w.handed + HandedBy(Apply(Final(w.run), now, op).1), w.workers)
    case Begin(k, claimed, script) =>
      World(w.run, w.handed - {claimed}, w.workers[k := Hired(claimed, script)])
    case By(k, turn) =>
      World(Taken(w.run, w.workers[k], turn).0, w.handed, w.workers[k := Taken(w.run, w.workers[k], turn).1])
  }

  // ---- The bearers of tokens --------------------------------------------------------------

  datatype Bearer = Bearer(id: DeliveryId, fence: Token)

  function Holder(worker: Worker): Bearer { Bearer(worker.id, worker.Fence()) }

  function Grantee(claimed: ClaimedDelivery): Bearer { Bearer(claimed.delivery.id, claimed.claim.Fence()) }

  /** A claim handed out and not yet taken up: nothing was recorded with it. */
  ghost predicate Fresh(run: Run, claimed: ClaimedDelivery)
    requires Legal(run)
  {
    Awaits(claimed, Seen(run, claimed.delivery.id, claimed.claim.Fence()))
  }

  predicate Awaits(claimed: ClaimedDelivery, facts: Facts) {
    && facts.standing && facts.own == [] && facts.session == Some(claimed.nextAttemptOrdinal)
    && claimed.nextAttemptOrdinal >= 1 && claimed.claim.generation >= 1
  }

  /** No two workers or claims bear the same token. */
  ghost predicate Apart(handed: set<ClaimedDelivery>, workers: map<nat, Worker>) {
    && (forall j, k :: j in workers && k in workers && j != k ==> Holder(workers[j]) != Holder(workers[k]))
    && (forall c, k :: c in handed && k in workers ==> Grantee(c) != Holder(workers[k]))
    && (forall c, d :: c in handed && d in handed && c != d ==> Grantee(c) != Grantee(d))
  }

  ghost predicate AllSound(run: Run, handed: set<ClaimedDelivery>, workers: map<nat, Worker>)
    requires Legal(run)
  {
    && (forall k :: k in workers ==> Sound(run, workers[k]))
    && (forall c :: c in handed ==> Fresh(run, c))
  }

  ghost predicate Orderly(w: World) {
    && Legal(w.run) && Start(w.run) == EMPTY && Disciplined(w.run)
    && AllSound(w.run, w.handed, w.workers) && Apart(w.handed, w.workers)
  }

  /** A token that anyone bears is none of the future. */
  lemma StandingIsIssued(run: Run, id: DeliveryId, fence: Token)
    requires Legal(run) && Standing(run, id, fence)
    ensures id in Final(run).rows && fence.generation <= Final(run).rows[id].generation
  {
    FinalIsValid(run);
  }

  lemma SoundIsStanding(run: Run, worker: Worker)
    requires Legal(run) && Sound(run, worker)
    ensures Standing(run, worker.id, worker.Fence())
  {
  }

  lemma OwnIsEmpty(attempts: seq<AttemptRecord>, fence: Token)
    requires forall i :: 0 <= i < |attempts| ==> attempts[i].claimGeneration < fence.generation
    ensures Own(attempts, fence) == []
  {
  }

  lemma FreshAfterOthers(run: Run, now: int, op: Operation, claimed: ClaimedDelivery)
    requires Legal(run) && Lawful(Final(run), now, op) && Fresh(run, claimed)
    requires !RecordsWith(op, claimed.delivery.id, claimed.claim.Fence())
    ensures Legal(Then(run, now, op)) && Fresh(Then(run, now, op), claimed)
  {
    StoreStep(run, now, op, claimed.delivery.id, claimed.claim.Fence());
  }

  /** One step of the store for everyone who does not make it. */
  lemma StepKeepsAllSound(
    run: Run, now: int, op: Operation, handed: set<ClaimedDelivery>, workers: map<nat, Worker>)
    requires Legal(run) && Lawful(Final(run), now, op) && AllSound(run, handed, workers)
    requires forall k :: k in workers ==> !RecordsWith(op, workers[k].id, workers[k].Fence())
    requires forall c :: c in handed ==> !RecordsWith(op, c.delivery.id, c.claim.Fence())
    ensures Legal(Then(run, now, op)) && AllSound(Then(run, now, op), handed, workers)
  {
    forall k | k in workers
      ensures Sound(Then(run, now, op), workers[k])
    {
      BystanderStaysSound(run, now, op, workers[k]);
    }
    forall c | c in handed
      ensures Fresh(Then(run, now, op), c)
    {
      FreshAfterOthers(run, now, op, c);
    }
  }

  // ---- New claims -------------------------------------------------------------------------

  /** A claimed delivery in a reply is the entry of one of the chosen deliveries. */
  lemma HandedIsChosen(l: Ledger, now: int, op: Operation, claimed: ClaimedDelivery)
    requires Valid(l) && Lawful(l, now, op) && op.ClaimPending? && claimed in HandedBy(Apply(l, now, op).1)
    ensures claimed.delivery.id in op.chosen && l.Eligible(claimed.delivery.id, op.destination, now)
    ensures claimed == ClaimedEntry(l, now, op.ownerId, op.lease, claimed.delivery.id)
  {
    var entries := ClaimedEntries(l, now, op.ownerId, op.lease, op.chosen);
    var i :| 0 <= i < |entries| && entries[i] == claimed;
    assert op.chosen[i] in op.chosen;
  }

  /** The entry of a delivery whose history is in step bears a token with nothing recorded, and the next ordinal. */
  lemma IssuedByClaiming(run: Run, now: int, op: Operation, claimed: ClaimedDelivery)
    requires Legal(run) && Start(run) == EMPTY && Disciplined(run)
    requires Lawful(Final(run), now, op) && op.ClaimPending? && claimed in HandedBy(Apply(Final(run), now, op).1)
    ensures Legal(Then(run, now, op)) && Fresh(Then(run, now, op), claimed)
    ensures claimed.delivery.id in Final(run).rows
    ensures claimed.claim.generation == Final(run).rows[claimed.delivery.id].generation + 1
  {
    FinalIsValid(run);
    HandedIsChosen(Final(run), now, op, claimed);
    var id := claimed.delivery.id;
    var row := Final(run).rows[id];
    OrdinalsAreExact(run, id);
    NextAfterNumbered(row.attempts);
    OwnIsEmpty(row.attempts, claimed.claim.Fence());
    StepsAreChanges(Final(run), now, op, id);
    ClaimIsCounted(Final(run), now, op, id, Session(run, id, claimed.claim.Fence()));
  }

  lemma ClaimIsCounted(l: Ledger, now: int, op: Operation, id: DeliveryId, was: Option<int>)
    requires Lawful(l, now, op) && op.ClaimPending? && id in op.chosen
    ensures var entry := ClaimedEntry(l, now, op.ownerId, op.lease, id);
            Counted(l, now, op, id, entry.claim.Fence(), was) == Some(entry.nextAttemptOrdinal)
  {
  }

  lemma IssuedByIntake(run: Run, now: int, op: Operation, claimed: ClaimedDelivery)
    requires Legal(run) && Lawful(Final(run), now, op) && (op.Accept? || op.SavePending?)
    requires claimed in HandedBy(Apply(Final(run), now, op).1)
    ensures Legal(Then(run, now, op)) && Fresh(Then(run, now, op), claimed)
    ensures claimed.delivery.id !in Final(run).rows
    ensures HandedBy(Apply(Final(run), now, op).1) == {claimed}
  {
  }

  /** Claims just issued bear tokens that nobody bears, each its own. */
  lemma NewTokensAreNew(run: Run, now: int, op: Operation, c: ClaimedDelivery, id: DeliveryId, fence: Token)
    requires Legal(run) && Start(run) == EMPTY && Disciplined(run) && Lawful(Final(run), now, op)
    requires c in HandedBy(Apply(Final(run), now, op).1) && Standing(run, id, fence)
    ensures Grantee(c) != Bearer(id, fence)
  {
    StandingIsIssued(run, id, fence);
    if op.ClaimPending? {
      IssuedByClaiming(run, now, op, c);
    } else {
      IssuedByIntake(run, now, op, c);
    }
  }

  lemma NewTokensAreApart(run: Run, now: int, op: Operation, c: ClaimedDelivery, d: ClaimedDelivery)
    requires Legal(run) && Start(run) == EMPTY && Disciplined(run) && Lawful(Final(run), now, op)
    requires c in HandedBy(Apply(Final(run), now, op).1) && d in HandedBy(Apply(Final(run), now, op).1) && c != d
    ensures Grantee(c) != Grantee(d)
  {
    if op.ClaimPending? {
      FinalIsValid(run);
      HandedIsChosen(Final(run), now, op, c);
      HandedIsChosen(Final(run), now, op, d);
    } else {
      IssuedByIntake(run, now, op, c);
    }
  }

  // ---- Every move keeps order -------------------------------------------------------------

  lemma OthersKeepOrderly(w: World, move: Move)
    requires Orderly(w) && Allowed(w, move) && move.Others?
    ensures Orderly(Next(w, move))
  {
    var issued := HandedBy(Apply(Final(w.run), move.now, move.op).1);
    StepKeepsAllSound(w.run, move.now, move.op, w.handed, w.workers);
    forall c | c in issued
      ensures Fresh(Then(w.run, move.now, move.op), c)
      ensures forall k :: k in w.workers ==> Grantee(c) != Holder(w.workers[k])
      ensures forall d :: d in w.handed ==> Grantee(c) != Grantee(d)
      ensures forall d :: d in issued && c != d ==> Grantee(c) != Grantee(d)
    {
      IssuedIsFresh(w.run, move.now, move.op, c);
      forall k | k in w.workers
        ensures Grantee(c) != Holder(w.workers[k])
      {
        SoundIsStanding(w.run, w.workers[k]);
        NewTokensAreNew(w.run, move.now, move.op, c, w.workers[k].id, w.workers[k].Fence());
      }
      forall d | d in w.handed
        ensures Grantee(c) != Grantee(d)
      {
        NewTokensAreNew(w.run, move.now, move.op, c, d.delivery.id, d.claim.Fence());
      }
      forall d | d in issued && c != d
        ensures Grantee(c) != Grantee(d)
      {
        NewTokensAreApart(w.run, move.now, move.op, c, d);
      }
    }
  }

  lemma IssuedIsFresh(run: Run, now: int, op: Operation, c: ClaimedDelivery)
    requires Legal(run) && Start(run) == EMPTY && Disciplined(run) && Lawful(Final(run), now, op)
    requires c in HandedBy(Apply(Final(run), now, op).1)
    ensures Legal(Then(run, now, op)) && Fresh(Then(run, now, op), c)
  {
    if op.ClaimPending? {
      IssuedByClaiming(run, now, op, c);
    } else {
      IssuedByIntake(run, now, op, c);
    }
  }

  lemma HiredIsSound(run: Run, claimed: ClaimedDelivery, script: Script)
    requires Legal(run) && Fresh(run, claimed) && script.Sane() && script.firstOrdinal == claimed.nextAttemptOrdinal
    ensures Sound(run, Hired(claimed, script))
  {
    HiredFits(claimed, script, Seen(run, claimed.delivery.id, claimed.claim.Fence()));
  }

  lemma HiredFits(claimed: ClaimedDelivery, script: Script, facts: Facts)
    requires Awaits(claimed, facts) && script.Sane() && script.firstOrdinal == claimed.nextAttemptOrdinal
    ensures Fits(Hired(claimed, script), facts)
  {
    assert Hired(claimed, script).Records(0) == [];
  }

  lemma HiredIsApart(
    handed: set<ClaimedDelivery>, workers: map<nat, Worker>, k: nat, claimed: ClaimedDelivery, script: Script)
    requires Apart(handed, workers) && claimed in handed && k !in workers
    ensures Apart(handed - {claimed}, workers[k := Hired(claimed, script)])
  {
    assert Holder(Hired(claimed, script)) == Grantee(claimed);
  }

  lemma BeginKeepsOrderly(w: World, move: Move)
    requires Orderly(w) && Allowed(w, move) && move.Begin?
    ensures Orderly(Next(w, move))
  {
    assert Fresh(w.run, move.claimed);
    HiredIsSound(w.run, move.claimed, move.script);
    HiredIsApart(w.handed, w.workers, move.worker, move.claimed, move.script);
    var next := Next(w, move);
    assert AllSound(next.run, next.handed, next.workers);
  }

  /** The step of the store that a turn makes, if any, and that it records at most with the worker's own token. */
  lemma TurnIsAStep(run: Run, worker: Worker, turn: Turn)
    requires Legal(run) && Ready(run, worker, turn)
    ensures var after := Taken(run, worker, turn).0;
            && Holder(Taken(run, worker, turn).1) == Holder(worker)
            && (after != run ==>
                  && Call(worker, turn).Some? && Lawful(Final(run), turn.At(), Call(worker, turn).value)
                  && after == Then(run, turn.At(), Call(worker, turn).value))
    ensures Call(worker, turn).Some? && Call(worker, turn).value.RecordAttempt? ==>
              && worker.execution.Sending?
              && Call(worker, turn).value.attempt == worker.Record(worker.execution.round)
              && RecordsWith(Call(worker, turn).value, worker.id, worker.Fence())
  {
  }

  lemma SameBearerStaysApart(handed: set<ClaimedDelivery>, workers: map<nat, Worker>, k: nat, next: Worker)
    requires Apart(handed, workers) && k in workers && Holder(next) == Holder(workers[k])
    ensures Apart(handed, workers[k := next])
  {
  }

  lemma OthersRecordNothing(handed: set<ClaimedDelivery>, workers: map<nat, Worker>, k: nat, op: Operation)
    requires Apart(handed, workers) && k in workers
    requires op.RecordAttempt? ==> RecordsWith(op, workers[k].id, workers[k].Fence())
    ensures forall j :: j in workers - {k} ==> !RecordsWith(op, (workers - {k})[j].id, (workers - {k})[j].Fence())
    ensures forall c :: c in handed ==> !RecordsWith(op, c.delivery.id, c.claim.Fence())
  {
    forall j | j in workers - {k}
      ensures !RecordsWith(op, (workers - {k})[j].id, (workers - {k})[j].Fence())
    {
      assert Holder(workers[j]) != Holder(workers[k]);
    }
    forall c | c in handed
      ensures !RecordsWith(op, c.delivery.id, c.claim.Fence())
    {
      assert Grantee(c) != Holder(workers[k]);
    }
  }

  /** A step made by one worker keeps everyone else sound, and the run disciplined. */
  lemma OneStepForAll(w: World, k: nat, at: int, op: Operation)
    requires Orderly(w) && k in w.workers && Lawful(Final(w.run), at, op)
    requires op.RecordAttempt? ==>
               && RecordsWith(op, w.workers[k].id, w.workers[k].Fence())
               && Session(w.run, w.workers[k].id, w.workers[k].Fence()) == Some(op.attempt.ordinal)
    ensures var after := Then(w.run, at, op);
            && Legal(after) && Start(after) == EMPTY && Disciplined(after)
            && AllSound(after, w.handed, w.workers - {k})
  {
    OthersRecordNothing(w.handed, w.workers, k, op);
    StepKeepsAllSound(w.run, at, op, w.handed, w.workers - {k});
  }

  lemma FitIsDue(worker: Worker, facts: Facts)
    requires Fits(worker, facts) && worker.execution.Sending?
    ensures facts.session == Some(worker.Record(worker.execution.round).ordinal)
  {
    RecordsAreWellFormed(worker, worker.execution.round);
  }

  lemma SoundIsDue(run: Run, worker: Worker)
    requires Legal(run) && Sound(run, worker) && worker.execution.Sending?
    ensures Session(run, worker.id, worker.Fence()) == Some(worker.Record(worker.execution.round).ordinal)
  {
    FitIsDue(worker, Seen(run, worker.id, worker.Fence()));
  }

  lemma TurnForAll(w: World, k: nat, turn: Turn)
    requires Orderly(w) && k in w.workers && Ready(w.run, w.workers[k], turn)
    ensures var after := Taken(w.run, w.workers[k], turn).0;
            && Legal(after) && Start(after) == EMPTY && Disciplined(after)
            && AllSound(after, w.handed, w.workers - {k})
  {
    var worker := w.workers[k];
    TurnIsAStep(w.run, worker, turn);
    if Taken(w.run, worker, turn).0 != w.run {
      if worker.execution.Sending? {
        SoundIsDue(w.run, worker);
      }
      OneStepForAll(w, k, turn.At(), Call(worker, turn).value);
    }
  }

  lemma TurnsKeepOrderly(w: World, move: Move)
    requires Orderly(w) && Allowed(w, move) && move.By?
    ensures Orderly(Next(w, move))
  {
    var k := move.worker;
    var after, next := Next(w, move).run, Next(w, move).workers[k];
    TurnKeepsSound(w.run, w.workers[k], move.turn);
    TurnIsAStep(w.run, w.workers[k], move.turn);
    TurnForAll(w, k, move.turn);
    SameBearerStaysApart(w.handed, w.workers, k, next);
    forall j: nat | j in Next(w, move).workers
      ensures Sound(after, Next(w, move).workers[j])
    {
      assert j != k ==> j in w.workers - {k};
    }
  }

  lemma MovesKeepOrderly(w: World, move: Move)
    requires Orderly(w) && Allowed(w, move)
    ensures Orderly(Next(w, move))
  {
    match move
    case Others(_, _) => OthersKeepOrderly(w, move);
    case Begin(_, _, _) => BeginKeepsOrderly(w, move);
    case By(_, _) => TurnsKeepOrderly(w, move);
  }

  ghost predicate Told(story: Story<World, Move>)
    decreases story, 0
  {
    match story
    case Opening(w) => w == World(Runs.Begin(EMPTY), {}, map[])
    case Followed(before, move) => Told(before) && Legal(Now(before).run) && Allowed(Now(before), move)
  }

  ghost function Now(story: Story<World, Move>): World
    requires Told(story)
    decreases story, 1
  {
    match story
    case Opening(w) => w
    case Followed(before, move) => Next(Now(before), move)
  }

  lemma {:induction false} StoriesAreOrderly(story: Story<World, Move>)
    requires Told(story)
    ensures Orderly(Now(story))
  {
    match story
    case Opening(_) =>
    case Followed(before, move) =>
      StoriesAreOrderly(before);
      MovesKeepOrderly(Now(before), move);
  }

  // ---- What this means for deliveries and workers -----------------------------------------

  /**
   The ordinals of every delivery are exactly 1..n, with nondecreasing generations, in every story of real
   workers: that each numbers from its claim is not assumed of anyone. Nobody ever meets the duplicate-ordinal
   error, or the one about a missing terminal state.
   */
  lemma FleetOrdinalsAreExact(story: Story<World, Move>, id: DeliveryId)
    requires Told(story)
    ensures Legal(Now(story).run) && Start(Now(story).run) == EMPTY && Disciplined(Now(story).run)
    ensures id in Final(Now(story).run).rows ==> InStep(Now(story).run, id)
    ensures Now(story).run.Then? && LastReply(Now(story).run).Failed? ==>
              !LastReply(Now(story).run).error.DuplicateOrdinal? && !LastReply(Now(story).run).error.NoTerminalState?
  {
    StoriesAreOrderly(story);
    if Now(story).run.Then? {
      DuplicateOrdinalIsUnreachable(Now(story).run);
    }
    if id in Final(Now(story).run).rows {
      OrdinalsAreExact(Now(story).run, id);
    }
  }

  /** No worker is ever stopped by the schema: whatever attempt is next, its record is well formed. */
  lemma RecordsAlwaysFit(story: Story<World, Move>, k: nat, i: nat)
    requires Told(story) && k in Now(story).workers
    ensures Now(story).workers[k].Record(i).WellFormed()
  {
    StoriesAreOrderly(story);
    assert Sound(Now(story).run, Now(story).workers[k]);
    RecordsAreWellFormed(Now(story).workers[k], i);
  }

  /**
   However a worker leaves, its token is no longer the current claim, and never will be again: the only
   exception is a release that got no answer.
   */
  lemma ExitGivesUpTheClaim(story: Story<World, Move>, k: nat, later: Run)
    requires Told(story) && k in Now(story).workers && Now(story).workers[k].phase.Finished?
    requires Legal(Now(story).run) && Legal(later) && Extends(later, Now(story).run)
    ensures var worker := Now(story).workers[k];
            worker.phase.exit.Unreleased? || StaleIn(Final(later), worker.id, worker.Fence())
  {
    StoriesAreOrderly(story);
    var run, worker := Now(story).run, Now(story).workers[k];
    assert Sound(run, worker);
    if !worker.phase.exit.Unreleased? {
      StaleForever(later, run, worker.id, worker.Fence());
    }
  }

  /** An attempt that closed the delivery is in its history, made with this token. */
  ghost predicate Closed(run: Run, bearer: Bearer)
    requires Legal(run)
  {
    && bearer.id in Final(run).rows
    && exists i :: 0 <= i < |Final(run).rows[bearer.id].attempts|
                   && Final(run).rows[bearer.id].attempts[i].Fence() == bearer.fence
                   && Final(run).rows[bearer.id].attempts[i].Closes()
  }

  /** Tokens in the history are none of the future, and those of closing attempts are stale. */
  predicate Sealed(row: Row) {
    forall i :: 0 <= i < |row.attempts| ==>
      && row.attempts[i].claimGeneration <= row.generation
      && (row.attempts[i].Closes() ==> !row.Holds(row.attempts[i].Fence()))
  }

  lemma ChangeKeepsSealed(row: Row, change: Change)
    requires row.Valid() && Enabled(row, change) && Sealed(row)
    ensures Sealed(After(row, change))
  {
  }

  lemma {:induction false} HistoriesAreSealed(run: Run, id: DeliveryId)
    requires Legal(run) && Start(run) == EMPTY && id in Final(run).rows
    ensures Sealed(Final(run).rows[id])
  {
    match run
    case Begin(_) =>
    case Then(before, at, op) =>
      if id in Final(before).rows {
        HistoriesAreSealed(before, id);
        FinalIsValid(before);
        StepsAreChanges(Final(before), at, op, id);
        var effect := Effect(Final(before), at, op, id);
        if effect.Some? {
          ChangeKeepsSealed(Final(before).rows[id], effect.value);
        }
      } else {
        NewRows(Final(before), at, op, id);
      }
  }

  /** So a token whose closing attempt is in the store is stale, whatever its bearer heard of it. */
  lemma ClosedIsStale(run: Run, bearer: Bearer)
    requires Legal(run) && Start(run) == EMPTY && Closed(run, bearer)
    ensures StaleIn(Final(run), bearer.id, bearer.fence)
  {
    HistoriesAreSealed(run, bearer.id);
  }

  /** Every attempt in the history is in the log of its delivery. */
  lemma {:induction false} HistoriesAreLogged(run: Run, id: DeliveryId, i: nat) returns (p: nat)
    requires Legal(run) && Start(run) == EMPTY && id in Final(run).rows && i < |Final(run).rows[id].attempts|
    ensures p < |Log(run, id)| && Log(run, id)[p].Recorded?
            && Log(run, id)[p].attempt == Final(run).rows[id].attempts[i]
  {
    p := 0;
    match run
    case Begin(_) =>
    case Then(before, at, op) =>
      if id !in Final(before).rows {
        NewRows(Final(before), at, op, id);
      } else {
        FinalIsValid(before);
        StepsAreChanges(Final(before), at, op, id);
        var effect := Effect(Final(before), at, op, id);
        if effect.Some? {
          ChangeKeepsIdentity(Final(before).rows[id], effect.value);
        }
        if i < |Final(before).rows[id].attempts| {
          p := HistoriesAreLogged(before, id, i);
        } else {
          p := |Log(before, id)|;
        }
      }
  }

  /** A closing attempt made with this token is in the log, and until an operator acts it decides the state. */
  ghost predicate Decided(run: Run, bearer: Bearer)
    requires Legal(run)
  {
    && bearer.id in Final(run).rows
    && exists p: nat :: DecidedAt(run, bearer, p)
  }

  ghost predicate DecidedAt(run: Run, bearer: Bearer, p: nat)
    requires Legal(run) && bearer.id in Final(run).rows
  {
    var log := Log(run, bearer.id);
    && p < |log| && log[p].Recorded? && log[p].attempt.Fence() == bearer.fence && log[p].attempt.Closes()
    && ((forall q :: p < q < |log| ==> !ByOperator(log[q])) ==>
          && Policy.TerminalState(log[p].attempt) == Some(Final(run).rows[bearer.id].delivery.state)
          && Final(run).rows[bearer.id].claim == None)
  }

  lemma ClosedIsDecided(run: Run, bearer: Bearer)
    requires Legal(run) && Start(run) == EMPTY && Closed(run, bearer)
    ensures Decided(run, bearer)
  {
    var attempts := Final(run).rows[bearer.id].attempts;
    var i :| 0 <= i < |attempts| && attempts[i].Fence() == bearer.fence && attempts[i].Closes();
    var p := HistoriesAreLogged(run, bearer.id, i);
    var log := Log(run, bearer.id);
    if forall q :: p < q < |log| ==> !ByOperator(log[q]) {
      ClosingEntryDecides(run, bearer.id, p);
    }
    assert DecidedAt(run, bearer, p);
  }

  /**
   Once a closing attempt of a worker is in the store, nothing the worker still does changes the store: not
   a late renewal, not its failure, not the release on failure, not a call that arrives late. The attempt stays,
   and until an operator acts the delivery is in its state.
   */
  lemma CommittedStateIsNotUndone(story: Story<World, Move>, k: nat, turn: Turn)
    requires Told(story) && k in Now(story).workers
    requires Legal(Now(story).run) && Allowed(Now(story), By(k, turn))
    requires Closed(Now(story).run, Holder(Now(story).workers[k]))
    ensures Legal(Next(Now(story), By(k, turn)).run)
    ensures Final(Next(Now(story), By(k, turn)).run) == Final(Now(story).run)
    ensures Closed(Next(Now(story), By(k, turn)).run, Holder(Next(Now(story), By(k, turn)).workers[k]))
    ensures Decided(Next(Now(story), By(k, turn)).run, Holder(Next(Now(story), By(k, turn)).workers[k]))
  {
    StoriesAreOrderly(story);
    MovesKeepOrderly(Now(story), By(k, turn));
    var run, worker := Now(story).run, Now(story).workers[k];
    ClosedIsStale(run, Holder(worker));
    TurnIsAStep(run, worker, turn);
    if Taken(run, worker, turn).0 != run {
      StaleIsInert(Final(run), turn.At(), Call(worker, turn).value);
    }
    ClosedIsDecided(Next(Now(story), By(k, turn)).run, Holder(worker));
  }

  /**
   A worker that reports success has its whole session in the store: the attempts recorded with its token
   are exactly those of its engine, the last of them closed the delivery, and unless an operator has acted
   since, the delivery is unclaimed and in the state of that attempt.
   */
  lemma SuccessIsCommitted(story: Story<World, Move>, k: nat)
    requires Told(story) && k in Now(story).workers && Now(story).workers[k].phase == Finished(Succeeded)
    ensures HasSucceeded(Now(story).run, Now(story).workers[k])
  {
    StoriesAreOrderly(story);
    var run, worker := Now(story).run, Now(story).workers[k];
    assert Sound(run, worker);
    ConcludedHasSucceeded(run, worker);
  }

  ghost predicate HasSucceeded(run: Run, worker: Worker) {
    && Legal(run) && worker.execution.Concluded? && worker.id in Final(run).rows
    && var row := Final(run).rows[worker.id];
       var last := worker.execution.last;
       && worker.script.RunsUpTo(last) && !worker.script.GoesOn(last) && worker.script.recorded(last)
       && Own(row.attempts, worker.Fence()) == worker.Records(last + 1)
       && worker.Record(last).Closes() && Closed(run, Holder(worker))
       && StaleIn(Final(run), worker.id, worker.Fence())
       && (Untouched(run, worker) ==>
             && Policy.TerminalState(worker.Record(last)) == Some(row.delivery.state)
             && row.claim == None)
  }

  /** No operator has acted on the delivery since the worker's last attempt. */
  ghost predicate Untouched(run: Run, worker: Worker)
    requires Legal(run) && worker.id in Final(run).rows && worker.execution.Concluded?
  {
    forall q :: worker.execution.entry < q < |Log(run, worker.id)| ==> !ByOperator(Log(run, worker.id)[q])
  }

  lemma LastOwnIsThere(
    attempts: seq<AttemptRecord>, fence: Token, own: seq<AttemptRecord>, last: AttemptRecord) returns (i: nat)
    requires Own(attempts, fence) == own + [last]
    ensures i < |attempts| && attempts[i] == last && last.Fence() == fence
  {
    i := |attempts| - 1;
    assert Own(attempts, fence)[|own|] == last;
    if attempts[i].Fence() != fence {
      assert Own(attempts, fence) == Own(attempts[..i], fence);
      i := LastOwnIsThere(attempts[..i], fence, own, last);
    }
  }

  lemma ConcludedHasSucceeded(run: Run, worker: Worker)
    requires Legal(run) && Sound(run, worker) && worker.execution.Concluded?
    ensures HasSucceeded(run, worker)
  {
    var last := worker.execution.last;
    var row := Final(run).rows[worker.id];
    OneMoreOwn(worker, last);
    var i := LastOwnIsThere(row.attempts, worker.Fence(), worker.Records(last), worker.Record(last));
    assert worker.Record(last).Closes();
    assert Closed(run, Holder(worker));
    if Untouched(run, worker) {
      ClosingEntryDecides(run, worker.id, worker.execution.entry);
    }
  }

  /**
   And if its script is an engine run, the engine returns a result, and the delivery is in the state of that
   result with exactly the result's attempts recorded, until an operator acts.
   */
  lemma SuccessIsTheEnginesResult(
    story: Story<World, Move>, k: nat, r: Engine.Resilience, deadline: int, rounds: nat -> Engine.Round)
    requires Told(story) && k in Now(story).workers && Now(story).workers[k].phase == Finished(Succeeded)
    requires Now(story).workers[k].script.Plays(r, deadline, rounds)
    ensures var run := Now(story).run;
            var worker := Now(story).workers[k];
            && HasSucceeded(run, worker)
            && var row := Final(run).rows[worker.id];
               var last := worker.execution.last;
               var attempts := Engine.Attempts(r, deadline, worker.script.firstOrdinal, rounds, last + 1);
               var result := Engine.TerminalResult(rounds(last).Observed(), attempts);
               && (forall i: nat :: i < last ==> Engine.GoesOn(r, deadline, rounds, i))
               && !Engine.GoesOn(r, deadline, rounds, last) && rounds(last).recorded
               && |Own(row.attempts, worker.Fence())| == last + 1
               && (forall i :: 0 <= i <= last ==>
                     Own(row.attempts, worker.Fence())[i] ==
                     MakeRecord(worker.id, worker.claim, attempts[i], worker.script.trace))
               && (Untouched(run, worker) ==> row.delivery.state == Policy.StateFromResult(result) && row.claim == None)
  {
    SuccessIsCommitted(story, k);
    SucceededPlays(Now(story).run, Now(story).workers[k], r, deadline, rounds);
  }

  /**
   The same without the engine's own words: each attempt in the store tells its round, as to clock, answer and
   delay, and until an operator acts the delivery is in the state that the last answer leads to.
   */
  ghost predicate AnswersAreTold(
    run: Run, worker: Worker, r: Engine.Resilience, deadline: int, rounds: nat -> Engine.Round)
    requires Legal(run)
  {
    && HasSucceeded(run, worker)
    && var own := Own(Final(run).rows[worker.id].attempts, worker.Fence());
       var last := worker.execution.last;
       && |own| == last + 1
       && (Engine.Plausible(r, rounds) ==>
             forall i :: 0 <= i <= last ==>
               Engine.Tells(
                 own[i], r, deadline, worker.script.firstOrdinal, i, rounds(i), worker.id, worker.Fence(),
                 worker.script.trace))
       && (Untouched(run, worker) ==>
             Final(run).rows[worker.id].delivery.state == Engine.FinalState(rounds(last).answer))
  }

  lemma SuccessTellsTheAnswers(
    story: Story<World, Move>, k: nat, r: Engine.Resilience, deadline: int, rounds: nat -> Engine.Round)
    requires Told(story) && k in Now(story).workers && Now(story).workers[k].phase == Finished(Succeeded)
    requires Now(story).workers[k].script.Plays(r, deadline, rounds)
    ensures Legal(Now(story).run)
    ensures AnswersAreTold(Now(story).run, Now(story).workers[k], r, deadline, rounds)
  {
    SuccessIsCommitted(story, k);
    SucceededTells(Now(story).run, Now(story).workers[k], r, deadline, rounds);
  }

  lemma SucceededTells(run: Run, worker: Worker, r: Engine.Resilience, deadline: int, rounds: nat -> Engine.Round)
    requires HasSucceeded(run, worker) && worker.script.Plays(r, deadline, rounds)
    ensures AnswersAreTold(run, worker, r, deadline, rounds)
  {
    SucceededPlays(run, worker, r, deadline, rounds);
    var last := worker.execution.last;
    Engine.ResultAndRecordAgree(
      r, deadline, rounds, worker.script.firstOrdinal, last, worker.id, worker.claim, worker.script.trace);
    if Engine.Plausible(r, rounds) {
      forall i | 0 <= i <= last
        ensures Engine.Tells(
                  Own(Final(run).rows[worker.id].attempts, worker.Fence())[i], r, deadline, worker.script.firstOrdinal,
                  i, rounds(i), worker.id, worker.Fence(), worker.script.trace)
      {
        Engine.RecordsTellTheirRounds(
          r, deadline, worker.script.firstOrdinal, i, rounds(i), worker.id, worker.claim, worker.script.trace);
      }
    }
  }

  lemma SucceededPlays(run: Run, worker: Worker, r: Engine.Resilience, deadline: int, rounds: nat -> Engine.Round)
    requires HasSucceeded(run, worker) && worker.script.Plays(r, deadline, rounds)
    ensures var row := Final(run).rows[worker.id];
            var last := worker.execution.last;
            var attempts := Engine.Attempts(r, deadline, worker.script.firstOrdinal, rounds, last + 1);
            var result := Engine.TerminalResult(rounds(last).Observed(), attempts);
            && (forall i: nat :: i < last ==> Engine.GoesOn(r, deadline, rounds, i))
            && !Engine.GoesOn(r, deadline, rounds, last) && rounds(last).recorded
            && |Own(row.attempts, worker.Fence())| == last + 1
            && (forall i :: 0 <= i <= last ==>
                  Own(row.attempts, worker.Fence())[i] ==
                  MakeRecord(worker.id, worker.claim, attempts[i], worker.script.trace))
            && (Untouched(run, worker) ==> row.delivery.state == Policy.StateFromResult(result) && row.claim == None)
  {
    var last := worker.execution.last;
    forall i: nat | i < last
      ensures Engine.GoesOn(r, deadline, rounds, i)
    {
      RunsThroughEach(worker.script, last, i);
    }
    Engine.ResultAndRecordAgree(
      r, deadline, rounds, worker.script.firstOrdinal, last, worker.id, worker.claim, worker.script.trace);
  }
}

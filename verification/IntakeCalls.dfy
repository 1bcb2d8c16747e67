/**
 src/eventIntake.ts with everything in between: a call is an acceptance in the store, then an offer to the
 queue, then, if the queue is full, the release of its claim. Other calls, workers, operators and the
 dispatcher may act between any two of these, and a call may stop after any of them.
 */
module IntakeCalls {
  import opened Domain
  import opened Ledger
  import opened Runs
  import opened Stories
  import opened EventIntake
  import Supervisor

  datatype Call =
    | Enqueueing(record: IntakeRecord, decision: IntakeFields, claim: Claim)
    | Releasing(record: IntakeRecord, decision: IntakeFields, job: Supervisor.Job)
    | Told(record: IntakeRecord, answer: Answer)
    | Failing(record: IntakeRecord, decision: IntakeFields, error: StoreError)  // with the failure of its release

  datatype World = World(run: Run, line: Supervisor.State, calls: map<nat, Call>, offered: seq<IngestionKey>)

  datatype Move =
    | Submit(call: nat, now: int, record: IntakeRecord, dueAt: int)
    | Offer(call: nat)
    | Release(call: nat, now: int)
    | Elsewhere(now: int, op: Operation)
    | Dispatch(turn: Supervisor.Move)

  ghost predicate Allowed(w: World, move: Move)
    requires Legal(w.run)
  {
    match move
    case Submit(call, now, record, dueAt) => call !in w.calls && Lawful(Final(w.run), now, Accept(record, dueAt))
    case Offer(call) => call in w.calls && w.calls[call].Enqueueing?
    case Release(call, _) => call in w.calls && w.calls[call].Releasing? && w.calls[call].job in w.line.dropping
    case Elsewhere(now, op) => !op.Accept? && Lawful(Final(w.run), now, op)
    case Dispatch(turn) =>
      && Supervisor.Enabled(w.line, turn)
      && (turn.GiveBack? ==> forall c :: c in w.calls && w.calls[c].Releasing? ==> w.calls[c].job != turn.job)
  }

  ghost function Next(capacity: nat, w: World, move: Move): World
    requires Legal(w.run) && Allowed(w, move)
  {
    match move
    case Submit(call, now, record, dueAt) =>
      var after := Then(w.run, now, Accept(record, dueAt));
      w.(run := after, calls := w.calls[call :=
           if LastReply(after).Accepted?
           then Enqueueing(record, LastReply(after).decision, LastReply(after).claim)
           else Told(record, AnswerTo(after))])
    case Offer(call) =>
      var Enqueueing(record, decision, claim) := w.calls[call];
      var job := Supervisor.Job(w.line.offered, decision.delivery.id, claim);
      World(
        w.run,
        Supervisor.Next(capacity, w.line, Supervisor.Offer(decision.delivery.id, claim)),
        w.calls[call :=
          if |w.line.queue| < capacity then Told(record, Acknowledge(decision, false))
          else Releasing(record, decision, job)],
        w.offered + [record.ingestionKey])
    case Release(call, now) =>
      var Releasing(record, decision, job) := w.calls[call];
      var after := Then(w.run, now, Operation.Release(job.deliveryId, job.claim));
      var reply := LastReply(after);
      w.(run := after,
         line := Supervisor.Next(capacity, w.line, Supervisor.GiveBack(job, !reply.Failed?)),
         calls := w.calls[call :=
           if reply.Failed? then Failing(record, decision, reply.error)
           else Told(record, Acknowledge(decision, false))])
    case Elsewhere(now, op) => w.(run := Then(w.run, now, op))
    case Dispatch(turn) => w.(line := Supervisor.Next(capacity, w.line, turn))
  }

  ghost predicate Tale(capacity: nat, story: Story<World, Move>)
    decreases story, 0
  {
    match story
    case Opening(w) => w == World(Begin(EMPTY), Supervisor.Idle(capacity), map[], [])
    case Followed(before, move) =>
      Tale(capacity, before) && Legal(Now(capacity, before).run) && Allowed(Now(capacity, before), move)
  }

  ghost function Now(capacity: nat, story: Story<World, Move>): World
    requires Tale(capacity, story)
    decreases story, 1
  {
    match story
    case Opening(w) => w
    case Followed(before, move) => Next(capacity, Now(capacity, before), move)
  }

  // ---- Each key is offered once -----------------------------------------------------------

  /** The calls that were accepted for this key and have not offered their delivery yet. */
  function Waiting(calls: map<nat, Call>, key: IngestionKey): set<nat> {
    set c | c in calls && calls[c].Enqueueing? && calls[c].record.ingestionKey == key
  }

  function Waits(calls: map<nat, Call>, c: nat, key: IngestionKey): int {
    if c in calls && calls[c].Enqueueing? && calls[c].record.ingestionKey == key then 1 else 0
  }

  lemma WaitingAfter(calls: map<nat, Call>, c: nat, call: Call, key: IngestionKey)
    ensures |Waiting(calls[c := call], key)| ==
            |Waiting(calls, key)| - Waits(calls, c, key) + Waits(calls[c := call], c, key)
  {
    var rest := Waiting(calls, key) - {c};
    assert Waiting(calls, key) == if c in Waiting(calls, key) then rest + {c} else rest;
    assert Waiting(calls[c := call], key) == if c in Waiting(calls[c := call], key) then rest + {c} else rest;
  }

  /** Every acceptance of a key is either offered or still about to be. */
  ghost predicate Accounted(w: World, key: IngestionKey)
    requires Legal(w.run)
  {
    multiset(w.offered)[key] + |Waiting(w.calls, key)| == Acceptances(w.run, key)
  }

  lemma MovesKeepAccounted(capacity: nat, w: World, move: Move, key: IngestionKey)
    requires Legal(w.run) && Allowed(w, move) && Accounted(w, key)
    ensures Legal(Next(capacity, w, move).run) && Accounted(Next(capacity, w, move), key)
  {
    match move
    case Submit(call, _, _, _) => WaitingAfter(w.calls, call, Next(capacity, w, move).calls[call], key);
    case Offer(call) => WaitingAfter(w.calls, call, Next(capacity, w, move).calls[call], key);
    case Release(call, _) => WaitingAfter(w.calls, call, Next(capacity, w, move).calls[call], key);
    case Elsewhere(_, _) =>
    case Dispatch(_) =>
  }

  lemma {:induction false} AcceptancesAreOffered(capacity: nat, story: Story<World, Move>, key: IngestionKey)
    requires Tale(capacity, story)
    ensures Legal(Now(capacity, story).run) && Start(Now(capacity, story).run) == EMPTY
    ensures Accounted(Now(capacity, story), key)
  {
    match story
    case Opening(_) =>
    case Followed(before, move) =>
      AcceptancesAreOffered(capacity, before, key);
      MovesKeepAccounted(capacity, Now(capacity, before), move, key);
  }

  /**
   Each key is offered to the queue at most once, however its calls are repeated, raced or cut short, and
   exactly once as soon as the one call that was accepted for it has come to its offer.
   */
  lemma EachKeyIsOfferedOnce(capacity: nat, story: Story<World, Move>, key: IngestionKey)
    requires Tale(capacity, story)
    ensures var w := Now(capacity, story);
            && Legal(w.run)
            && multiset(w.offered)[key] <= 1 && |Waiting(w.calls, key)| <= 1
            && (multiset(w.offered)[key] == 1 <==> key in Final(w.run).intakes && Waiting(w.calls, key) == {})
  {
    AcceptancesAreOffered(capacity, story, key);
    EachKeyIsAcceptedOnce(Now(capacity, story).run, key);
  }

  // ---- All answers speak of the first decision --------------------------------------------

  /** What a call was told, or is about to be told, is what the store remembers of its key. */
  ghost predicate Truthful(l: Ledger, call: Call) {
    var key := call.record.ingestionKey;
    && key in l.intakes
    && var intake := l.intakes[key];
       match call
       case Told(record, Acceptance(eventId, deliveryId, at, replayed)) =>
         record.fingerprint == intake.fingerprint && call.answer == Acknowledge(intake.decision, replayed)
       case Told(record, Conflict(existing)) =>
         record.fingerprint != intake.fingerprint && existing == intake.decision.event.id
       case _ => intake == Intake(call.record.fingerprint, call.decision)
  }

  ghost predicate AllTruthful(w: World)
    requires Legal(w.run)
  {
    forall c :: c in w.calls ==> Truthful(Final(w.run), w.calls[c])
  }

  lemma StepsKeepTruth(run: Run, now: int, op: Operation, calls: map<nat, Call>)
    requires Legal(run) && Lawful(Final(run), now, op)
    requires forall c :: c in calls ==> Truthful(Final(run), calls[c])
    ensures Legal(Then(run, now, op))
    ensures forall c :: c in calls ==> Truthful(Final(Then(run, now, op)), calls[c])
  {
    forall c | c in calls
      ensures Truthful(Final(Then(run, now, op)), calls[c])
    {
      IntakesAreKept(Final(run), now, op, calls[c].record.ingestionKey);
    }
  }

  lemma SubmissionsAreTruthful(w: World, now: int, record: IntakeRecord, dueAt: int)
    requires Legal(w.run) && Lawful(Final(w.run), now, Accept(record, dueAt))
    ensures var after := Then(w.run, now, Accept(record, dueAt));
            && Legal(after)
            && (if LastReply(after).Accepted?
                then Truthful(Final(after), Enqueueing(record, LastReply(after).decision, LastReply(after).claim))
                else Truthful(Final(after), Told(record, AnswerTo(after))))
  {
    IntakesAfter(Final(w.run), now, Accept(record, dueAt));
  }

  lemma MovesKeepTruth(capacity: nat, w: World, move: Move)
    requires Legal(w.run) && Allowed(w, move) && AllTruthful(w)
    ensures Legal(Next(capacity, w, move).run) && AllTruthful(Next(capacity, w, move))
  {
    match move
    case Submit(call, now, record, dueAt) =>
      StepsKeepTruth(w.run, now, Accept(record, dueAt), w.calls);
      SubmissionsAreTruthful(w, now, record, dueAt);
    case Offer(call) => assert Truthful(Final(w.run), w.calls[call]);
    case Release(call, now) =>
      assert Truthful(Final(w.run), w.calls[call]);
      StepsKeepTruth(w.run, now, Operation.Release(w.calls[call].job.deliveryId, w.calls[call].job.claim), w.calls);
    case Elsewhere(now, op) => StepsKeepTruth(w.run, now, op, w.calls);
    case Dispatch(_) =>
  }

  lemma {:induction false} AllCallsAreTruthful(capacity: nat, story: Story<World, Move>)
    requires Tale(capacity, story)
    ensures Legal(Now(capacity, story).run) && AllTruthful(Now(capacity, story))
  {
    match story
    case Opening(_) =>
    case Followed(before, move) =>
      AllCallsAreTruthful(capacity, before);
      MovesKeepTruth(capacity, Now(capacity, before), move);
  }

  /**
   Any two calls with the same key that were acknowledged, in whatever order and with whatever in between,
   were told the same event, delivery and acceptance time, and had the same fingerprint. A call that failed
   on its release was accepted all the same: it is what every repetition will be told.
   */
  lemma AcknowledgementsAgree(capacity: nat, story: Story<World, Move>, a: nat, b: nat)
    requires Tale(capacity, story) && a in Now(capacity, story).calls && b in Now(capacity, story).calls
    requires var w := Now(capacity, story);
             && w.calls[a].record.ingestionKey == w.calls[b].record.ingestionKey
             && w.calls[a].Told? && w.calls[a].answer.Acceptance?
    ensures var x := Now(capacity, story).calls[a];
            var y := Now(capacity, story).calls[b];
            match y
            case Told(record, Acceptance(_, _, _, replayed)) =>
              record.fingerprint == x.record.fingerprint && y.answer == x.answer.(replayed := replayed)
            case Told(record, Conflict(existing)) =>
              record.fingerprint != x.record.fingerprint && existing == x.answer.eventId
            case _ =>
              y.record.fingerprint == x.record.fingerprint && Acknowledge(y.decision, x.answer.replayed) == x.answer
  {
    AllCallsAreTruthful(capacity, story);
    assert Truthful(Final(Now(capacity, story).run), Now(capacity, story).calls[a]);
    assert Truthful(Final(Now(capacity, story).run), Now(capacity, story).calls[b]);
  }

  // ---- What each call is told ----------------------------------------------------------------

  /** The keys that were known when the call was submitted. */
  ghost function KnownBefore(capacity: nat, story: Story<World, Move>, call: nat): map<IngestionKey, Intake>
    requires Tale(capacity, story)
  {
    match story
    case Opening(_) => map[]
    case Followed(before, Submit(c, _, _, _)) =>
      if c == call then Final(Now(capacity, before).run).intakes else KnownBefore(capacity, before, call)
    case Followed(before, _) => KnownBefore(capacity, before, call)
  }

  /** What the call has been or will be told, given the keys that were known when it was submitted. */
  predicate Follows(call: Call, known: map<IngestionKey, Intake>) {
    var record := call.record;
    if record.ingestionKey in known then
      var (first, decision) := (known[record.ingestionKey].fingerprint, known[record.ingestionKey].decision);
      && call.Told?
      && call.answer ==
         if record.fingerprint == first
         then Acceptance(decision.event.id, decision.delivery.id, decision.acceptedAtMillis, true)
         else Conflict(decision.event.id)
    else if call.Told? then
      call.answer == Acceptance(record.event.id, record.deliveryId, record.acceptedAtMillis, false)
    else
      && call.decision.event == record.event
      && call.decision.delivery ==
         Delivery(record.deliveryId, record.event.id, record.route.destinationId, DeliveryState.Pending)
      && call.decision.route == record.route && call.decision.acceptedAtMillis == record.acceptedAtMillis
  }

  lemma SubmissionsFollow(run: Run, now: int, record: IntakeRecord, dueAt: int)
    requires Legal(run) && Lawful(Final(run), now, Accept(record, dueAt))
    ensures var after := Then(run, now, Accept(record, dueAt));
            && Legal(after)
            && Follows(
                 if LastReply(after).Accepted?
                 then Enqueueing(record, LastReply(after).decision, LastReply(after).claim)
                 else Told(record, AnswerTo(after)),
                 Final(run).intakes)
  {
    AnswersAreExact(Then(run, now, Accept(record, dueAt)));
  }

  lemma MovesFollow(capacity: nat, w: World, move: Move, call: nat, known: map<IngestionKey, Intake>)
    requires Legal(w.run) && Allowed(w, move) && (call in w.calls ==> Follows(w.calls[call], known))
    ensures var after := if move.Submit? && move.call == call then Final(w.run).intakes else known;
            call in Next(capacity, w, move).calls ==> Follows(Next(capacity, w, move).calls[call], after)
  {
    if move.Submit? {
      SubmissionsFollow(w.run, move.now, move.record, move.dueAt);
    }
  }

  /**
   Every call is told what the store knew of its key when it was submitted: a new key is acknowledged as new with
   the submission's own identifiers and time, a known one as a repetition of the first or as a conflict with it.
   */
  lemma {:induction false} CallsFollowTheirSubmission(capacity: nat, story: Story<World, Move>, call: nat)
    requires Tale(capacity, story)
    ensures call in Now(capacity, story).calls ==>
              Follows(Now(capacity, story).calls[call], KnownBefore(capacity, story, call))
  {
    match story
    case Opening(_) =>
    case Followed(before, move) =>
      CallsFollowTheirSubmission(capacity, before, call);
      MovesFollow(capacity, Now(capacity, before), move, call, KnownBefore(capacity, before, call));
  }

  // ---- The queue lives its own story ------------------------------------------------------

  /** What a move is for queue and dispatcher: one offer for each accepted call, one return for each refusal. */
  ghost function LineMove(w: World, move: Move): Option<Supervisor.Move>
    requires Legal(w.run) && Allowed(w, move)
  {
    match move
    case Offer(call) => Some(Supervisor.Offer(w.calls[call].decision.delivery.id, w.calls[call].claim))
    case Release(call, _) =>
      Some(Supervisor.GiveBack(w.calls[call].job, Supervisor.StillCurrent(w.run, w.calls[call].job)))
    case Dispatch(turn) => Some(turn)
    case _ => None
  }

  lemma MovesOfTheLine(capacity: nat, w: World, move: Move)
    requires Legal(w.run) && Allowed(w, move)
    ensures match LineMove(w, move)
            case Some(turn) =>
              && Supervisor.Enabled(w.line, turn)
              && Next(capacity, w, move).line == Supervisor.Next(capacity, w.line, turn)
            case None => Next(capacity, w, move).line == w.line
  {
  }

  ghost function LineStory(capacity: nat, story: Story<World, Move>): Story<Supervisor.State, Supervisor.Move>
    requires Tale(capacity, story)
  {
    match story
    case Opening(w) => Opening(w.line)
    case Followed(before, move) =>
      match LineMove(Now(capacity, before), move)
      case Some(turn) => Followed(LineStory(capacity, before), turn)
      case None => LineStory(capacity, before)
  }

  lemma {:induction false} LineIsTold(capacity: nat, story: Story<World, Move>)
    requires Tale(capacity, story)
    ensures Supervisor.Told(capacity, LineStory(capacity, story))
    ensures Supervisor.Now(capacity, LineStory(capacity, story)) == Now(capacity, story).line
  {
    match story
    case Opening(_) =>
    case Followed(before, move) =>
      LineIsTold(capacity, before);
      MovesOfTheLine(capacity, Now(capacity, before), move);
  }

  // ---- Exactly when a call fails on its release -------------------------------------------

  /** The release of a refused offer fails, and the call with it, exactly when the claim was lost meanwhile. */
  lemma ReleaseFailsExactlyWhenLost(capacity: nat, w: World, call: nat, now: int)
    requires Legal(w.run) && Allowed(w, Move.Release(call, now))
    ensures var job := w.calls[call].job;
            Next(capacity, w, Move.Release(call, now)).calls[call] ==
            if Supervisor.StillCurrent(w.run, job)
            then Told(w.calls[call].record, Acknowledge(w.calls[call].decision, false))
            else Failing(w.calls[call].record, w.calls[call].decision, ClaimLost(job.deliveryId, job.claim.Fence()))
  {
    Supervisor.ReleaseSucceedsExactlyWhenCurrent(w.run, now, w.calls[call].job);
  }

  /** At its offer the call found the queue full. */
  ghost predicate FoundFull(capacity: nat, story: Story<World, Move>, call: nat)
    requires Tale(capacity, story)
  {
    story.Followed? &&
    (FoundFull(capacity, story.before, call) ||
     (story.move == Offer(call) && |Now(capacity, story.before).line.queue| >= capacity))
  }

  /** At its release the call found its claim lost. */
  ghost predicate FoundLost(capacity: nat, story: Story<World, Move>, call: nat)
    requires Tale(capacity, story)
  {
    story.Followed? &&
    (FoundLost(capacity, story.before, call) ||
     (story.move.Release? && story.move.call == call
      && !Supervisor.StillCurrent(Now(capacity, story.before).run, Now(capacity, story.before).calls[call].job)))
  }

  /** Where a call is tells what it has found. */
  ghost predicate Found(w: World, call: nat, full: bool, lost: bool) {
    if call !in w.calls then !full && !lost
    else
      match w.calls[call]
      case Enqueueing(_, _, _) => !full && !lost
      case Releasing(_, _, _) => full && !lost
      case Told(_, _) => !lost
      case Failing(_, _, _) => full && lost
  }

  lemma MovesKeepFound(capacity: nat, w: World, move: Move, call: nat, full: bool, lost: bool)
    requires Legal(w.run) && Allowed(w, move) && Found(w, call, full, lost)
    ensures Found(
              Next(capacity, w, move), call,
              full || (move == Offer(call) && |w.line.queue| >= capacity),
              lost || (move.Release? && move.call == call && !Supervisor.StillCurrent(w.run, w.calls[call].job)))
  {
    if move.Release? {
      ReleaseFailsExactlyWhenLost(capacity, w, move.call, move.now);
    }
  }

  lemma {:induction false} CallsTellWhatTheyFound(capacity: nat, story: Story<World, Move>, call: nat)
    requires Tale(capacity, story)
    ensures Found(Now(capacity, story), call, FoundFull(capacity, story, call), FoundLost(capacity, story, call))
  {
    match story
    case Opening(_) =>
    case Followed(before, move) =>
      CallsTellWhatTheyFound(capacity, before, call);
      MovesKeepFound(
        capacity, Now(capacity, before), move, call, FoundFull(capacity, before, call),
        FoundLost(capacity, before, call));
  }

  /**
   A call fails, although its event was accepted, if and only if the queue was full at its offer and its claim
   was no longer current at its release: another worker had taken the delivery, or an operator or a completion
   had ended it.
   */
  lemma CallFailsExactlyWhen(capacity: nat, story: Story<World, Move>, call: nat)
    requires Tale(capacity, story)
    ensures call in Now(capacity, story).calls && Now(capacity, story).calls[call].Failing? <==>
            FoundFull(capacity, story, call) && FoundLost(capacity, story, call)
  {
    CallsTellWhatTheyFound(capacity, story, call);
  }

  // ---- A call that fails ------------------------------------------------------------------

  /** The claim that a first acceptance at 0 gives. */
  function FirstClaim(record: IntakeRecord): Claim {
    Claim(record.claim.ownerId, 1, record.claim.leaseDurationMillis)
  }

  /** Offers of someone else's, until `n` jobs are in the queue. */
  function Flood(capacity: nat, n: nat, record: IntakeRecord): Story<World, Move> {
    if n == 0 then Opening(World(Begin(EMPTY), Supervisor.Idle(capacity), map[], []))
    else Followed(Flood(capacity, n - 1, record), Dispatch(Supervisor.Offer(record.deliveryId, FirstClaim(record))))
  }

  /** Accepted at 0, offered to the full queue, and released only when another worker has claimed the delivery. */
  function Submitted(capacity: nat, record: IntakeRecord): Story<World, Move> {
    Followed(Flood(capacity, capacity, record), Submit(0, 0, record, 0))
  }

  function Refused(capacity: nat, record: IntakeRecord): Story<World, Move> {
    Followed(Submitted(capacity, record), Offer(0))
  }

  function Reclaim(record: IntakeRecord, other: WorkerId, lease: int): Operation {
    ClaimPending(other, record.route.destinationId, 1, lease, [record.deliveryId])
  }

  function Reclaimed(capacity: nat, record: IntakeRecord, other: WorkerId, at: int, lease: int): Story<World, Move> {
    Followed(Refused(capacity, record), Elsewhere(at, Reclaim(record, other, lease)))
  }

  lemma {:induction false} FloodedTale(capacity: nat, n: nat, record: IntakeRecord)
    requires n <= capacity
    ensures Tale(capacity, Flood(capacity, n, record))
    ensures var w := Now(capacity, Flood(capacity, n, record));
            w.run == Begin(EMPTY) && Legal(w.run) && |w.line.queue| == n && w.calls == map[]
  {
    assert Legal(Begin(EMPTY));
    if n == 0 {
    } else {
      FloodedTale(capacity, n - 1, record);
    }
  }

  lemma SubmittedTale(capacity: nat, record: IntakeRecord)
    ensures Tale(capacity, Submitted(capacity, record))
    ensures var w := Now(capacity, Submitted(capacity, record));
            && w.run == Then(Begin(EMPTY), 0, Accept(record, 0)) && Legal(w.run)
            && Final(w.run) == ApplyAccept(EMPTY, 0, record, 0).0
            && |w.line.queue| == capacity
            && w.calls == map[0 := Enqueueing(record, FirstDecision(record), FirstClaim(record))]
  {
    FloodedTale(capacity, capacity, record);
  }

  lemma RefusedTale(capacity: nat, record: IntakeRecord)
    ensures Tale(capacity, Submitted(capacity, record)) && Tale(capacity, Refused(capacity, record))
    ensures var w := Now(capacity, Refused(capacity, record));
            && w.run == Now(capacity, Submitted(capacity, record)).run
            && 0 in w.calls && w.calls[0].Releasing? && w.calls[0].job in w.line.dropping
            && w.calls[0].job.deliveryId == record.deliveryId && w.calls[0].job.claim == FirstClaim(record)
  {
    SubmittedTale(capacity, record);
  }

  lemma ReclaimLoses(record: IntakeRecord, other: WorkerId, at: int, lease: int)
    requires at >= 0 && at >= record.claim.leaseDurationMillis
    ensures var l := ApplyAccept(EMPTY, 0, record, 0).0;
            && Lawful(l, at, Reclaim(record, other, lease))
            && record.deliveryId in Apply(l, at, Reclaim(record, other, lease)).0.rows
            && Apply(l, at, Reclaim(record, other, lease)).0.rows[record.deliveryId].claim ==
               Some(Claim(other, 2, at + lease))
  {
    assert [record.deliveryId][0] == record.deliveryId;
  }

  /**
   The failure is not only possible in principle: for every capacity, every first submission and every other
   worker that claims once its lease has run out, there is a story that ends in one.
   */
  lemma CallsCanFail(capacity: nat, record: IntakeRecord, other: WorkerId, at: int, lease: int)
    requires at >= 0 && at >= record.claim.leaseDurationMillis
    ensures var story := Followed(Reclaimed(capacity, record, other, at, lease), Move.Release(0, at));
            && Tale(capacity, story)
            && 0 in Now(capacity, story).calls && Now(capacity, story).calls[0].Failing?
  {
    SubmittedTale(capacity, record);
    RefusedTale(capacity, record);
    ReclaimLoses(record, other, at, lease);
    assert Tale(capacity, Reclaimed(capacity, record, other, at, lease));
    var w := Now(capacity, Reclaimed(capacity, record, other, at, lease));
    assert Legal(w.run) && Allowed(w, Move.Release(0, at));
    ReleaseFailsExactlyWhenLost(capacity, w, 0, at);
  }
}

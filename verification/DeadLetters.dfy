/**
 Operator actions on the SQL tables. Each is two statements, a SELECT that must find a dead letter
 and a guarded UPDATE, and anything may happen in between: other operators on the same delivery,
 workers, reclaims, even a complete new delivery attempt ending in the same state again.
 */
module DeadLetters {
  import opened Domain
  import opened Ledger
  import opened Runs
  import opened Stories
  import opened Tables
  import Simulation

  datatype Phase =
    | Checked(op: Operation, epoch: nat)   // the SELECT found a dead letter, in this epoch of the watched delivery
    | Answered(op: Operation, reply: Reply)

  /** `epoch` counts how often the watched delivery became a dead letter; `wins` lists the epochs operators ended. */
  datatype World = World(db: Database, operators: map<nat, Phase>, epoch: nat, wins: seq<nat>)

  datatype Move =
    | Check(operator: nat, now: int, op: Operation)
    | Act(operator: nat, now: int)
    | Elsewhere(now: int, op: Operation)

  predicate Operates(op: Operation) { op.Retry? || op.Repair? || op.Terminate? }

  predicate Dead(db: Database, id: DeliveryId) {
    id in db.deliveries && db.deliveries[id].state.DeadLettered?
  }

  /** Claims take candidates; otherwise anyone may do anything at any time. */
  ghost predicate Allowed(w: World, move: Move) {
    match move
    case Check(operator, _, op) => operator !in w.operators && Operates(op)
    case Act(operator, _) =>
      operator in w.operators && w.operators[operator].Checked? && Operates(w.operators[operator].op)
    case Elsewhere(now, op) =>
      && !Operates(op)
      && (match op
          case ClaimPending(_, destination, _, _, chosen) =>
            forall id :: id in chosen ==>
              Candidate(w.db, id, destination, now) && w.db.deliveries[id].eventId in w.db.events
          case _ => true)
  }

  /** The first statement, with the destination test that only a repair makes. */
  function FirstAnswer(db: Database, op: Operation): Option<StoreError>
    requires Operates(op)
  {
    var missing := RequireDeadLetter(db, op.id);
    if missing.Some? then missing
    else if op.Repair? && db.deliveries[op.id].destinationId != op.route.destinationId
    then Some(DestinationMismatch(db.deliveries[op.id].destinationId, op.route.destinationId))
    else None
  }

  ghost function Next(w: World, id: DeliveryId, move: Move): World
    requires Allowed(w, move)
  {
    match move
    case Check(operator, _, op) =>
      var refusal := FirstAnswer(w.db, op);
      w.(operators := w.operators[operator :=
           if refusal.Some? then Answered(op, Failed(refusal.value)) else Checked(op, w.epoch)])
    case Act(operator, now) =>
      var op := w.operators[operator].op;
      var (db, updated) := Statement(w.db, now, op);
      Counting(w, db, id).(
        operators := w.operators[operator := Answered(op, if updated then Done else Failed(NotDeadLettered))],
        wins := if updated && op.id == id then w.wins + [w.epoch] else w.wins)
    case Elsewhere(now, op) =>
      Counting(w, Execute(w.db, now, op).0, id)
  }

  function Counting(w: World, db: Database, id: DeliveryId): World {
    w.(db := db, epoch := if Dead(db, id) && !Dead(w.db, id) then w.epoch + 1 else w.epoch)
  }

  // ---- What every interleaving keeps ------------------------------------------------------

  /** A checked operator saw a dead letter of its delivery, with the destination it asked for. */
  ghost predicate SaneOperator(w: World, id: DeliveryId, operator: nat) {
    operator in w.operators && w.operators[operator].Checked? ==>
      var Checked(op, epoch) := w.operators[operator];
      && Operates(op)
      && op.id in w.db.deliveries
      && (op.Repair? ==> w.db.deliveries[op.id].destinationId == op.route.destinationId)
      && (op.id == id ==> 1 <= epoch <= w.epoch)
  }

  ghost predicate Sane(w: World, id: DeliveryId) {
    forall operator :: SaneOperator(w, id, operator)
  }

  /** Each epoch so far was ended by exactly one operator, except the one that is still open. */
  ghost predicate OneWinnerPerEpoch(w: World, id: DeliveryId) {
    && |w.wins| == w.epoch - (if Dead(w.db, id) then 1 else 0)
    && (forall i :: 0 <= i < |w.wins| ==> w.wins[i] == i + 1)
  }

  ghost predicate Fair(play: Story<World, Move>, id: DeliveryId)
    decreases play, 0
  {
    match play
    case Opening(w) => w == World(w.db, map[], 0, []) && !Dead(w.db, id)
    case Followed(before, move) => Fair(before, id) && Allowed(Now(before, id), move)
  }

  ghost function Now(play: Story<World, Move>, id: DeliveryId): World
    requires Fair(play, id)
    decreases play, 1
  {
    match play
    case Opening(w) => w
    case Followed(before, move) => Next(Now(before, id), id, move)
  }

  /** No statement moves a delivery elsewhere, and only operators take it out of DeadLettered. */
  lemma OthersLeaveDeadLetters(w: World, id: DeliveryId, now: int, op: Operation)
    requires Allowed(w, Elsewhere(now, op)) && id in w.db.deliveries
    ensures id in Execute(w.db, now, op).0.deliveries
    ensures Execute(w.db, now, op).0.deliveries[id].destinationId == w.db.deliveries[id].destinationId
    ensures Dead(w.db, id) ==> Execute(w.db, now, op).0.deliveries[id] == w.db.deliveries[id]
  {
  }

  /** An operator statement rewrites its own delivery only, keeps its destination and no history. */
  lemma OperatorsRewriteOneRow(db: Database, now: int, op: Operation)
    requires Operates(op)
    ensures var (after, updated) := Statement(db, now, op);
            && after.attempts == db.attempts && after.events == db.events
            && after.deliveries.Keys == db.deliveries.Keys
            && (forall x :: x in db.deliveries ==>
                  && after.deliveries[x].destinationId == db.deliveries[x].destinationId
                  && (x != op.id || !updated ==> after.deliveries[x] == db.deliveries[x]))
            && (updated ==> Dead(db, op.id) && !Dead(after, op.id))
            && (!updated ==> after == db)
  {
  }

  /** The destination test of the second statement never decides: a repair fails only on the state. */
  lemma OutcomeIsTheState(w: World, id: DeliveryId, operator: nat, now: int)
    requires Sane(w, id) && Allowed(w, Act(operator, now))
    ensures Statement(w.db, now, w.operators[operator].op).1 <==> Dead(w.db, w.operators[operator].op.id)
  {
    assert SaneOperator(w, id, operator);
  }

  lemma MovesKeepSane(w: World, id: DeliveryId, move: Move)
    requires Sane(w, id) && OneWinnerPerEpoch(w, id) && Allowed(w, move)
    ensures Sane(Next(w, id, move), id)
  {
    var after := Next(w, id, move);
    forall operator
      ensures SaneOperator(after, id, operator)
    {
      assert SaneOperator(w, id, operator);
      if operator in w.operators && w.operators[operator].Checked? {
        var subject := w.operators[operator].op.id;
        match move
        case Check(_, _, _) =>
        case Act(other, now) =>
          OperatorsRewriteOneRow(w.db, now, w.operators[other].op);
        case Elsewhere(now, op) =>
          OthersLeaveDeadLetters(w, subject, now, op);
      }
    }
  }

  lemma MovesKeepLaw(w: World, id: DeliveryId, move: Move)
    requires Sane(w, id) && OneWinnerPerEpoch(w, id) && Allowed(w, move)
    ensures OneWinnerPerEpoch(Next(w, id, move), id)
  {
    match move
    case Check(_, _, _) =>
    case Act(operator, now) =>
      assert SaneOperator(w, id, operator);
      OperatorsRewriteOneRow(w.db, now, w.operators[operator].op);
      OutcomeIsTheState(w, id, operator, now);
    case Elsewhere(now, op) =>
      if id in w.db.deliveries {
        OthersLeaveDeadLetters(w, id, now, op);
      }
  }

  /**
   In every interleaving of two-step retries, repairs and terminations with everything else, exactly
   one operator ends each epoch of a dead letter: the k-th success ends epoch k, and the only epoch
   without one is the epoch that is still open.
   */
  lemma {:induction false} EveryPlayHasOneWinnerPerEpoch(play: Story<World, Move>, id: DeliveryId)
    requires Fair(play, id)
    ensures Sane(Now(play, id), id)
    ensures OneWinnerPerEpoch(Now(play, id), id)
  {
    match play
    case Opening(_) =>
    case Followed(before, move) =>
      EveryPlayHasOneWinnerPerEpoch(before, id);
      MovesKeepSane(Now(before, id), id, move);
      MovesKeepLaw(Now(before, id), id, move);
  }

  /** The epoch of the watched delivery when the operator made its check. */
  ghost function EpochAtCheck(play: Story<World, Move>, id: DeliveryId, operator: nat): nat
    requires Fair(play, id)
  {
    match play
    case Opening(_) => 0
    case Followed(before, Check(checking, _, _)) =>
      if checking == operator then Now(before, id).epoch else EpochAtCheck(before, id, operator)
    case Followed(before, _) => EpochAtCheck(before, id, operator)
  }

  lemma {:induction false} ChecksKeepTheirEpoch(play: Story<World, Move>, id: DeliveryId, operator: nat)
    requires Fair(play, id)
    ensures operator in Now(play, id).operators && Now(play, id).operators[operator].Checked? ==>
              Now(play, id).operators[operator].epoch == EpochAtCheck(play, id, operator)
  {
    match play
    case Opening(_) =>
    case Followed(before, _) => ChecksKeepTheirEpoch(before, id, operator);
  }

  /**
   What an operator that passed its check is told. If no new epoch has begun since, it wins exactly
   when nobody else has; a loser is told NotDeadLettered and changes nothing.
   */
  lemma LosersLearnTheState(play: Story<World, Move>, id: DeliveryId, operator: nat, now: int)
    requires Fair(play, id) && Allowed(Now(play, id), Act(operator, now))
    requires Now(play, id).operators[operator].op.id == id
    ensures var w := Now(play, id);
            var after := Next(w, id, Act(operator, now));
            var won := after.operators[operator].reply == Done;
            && (!won ==> after.operators[operator].reply == Failed(NotDeadLettered) && after.db == w.db)
            && (EpochAtCheck(play, id, operator) == w.epoch ==> (won <==> w.epoch !in w.wins))
            && (won <==> Dead(w.db, id))
            && (won ==> after.wins == w.wins + [w.epoch])
  {
    var w := Now(play, id);
    EveryPlayHasOneWinnerPerEpoch(play, id);
    ChecksKeepTheirEpoch(play, id, operator);
    assert SaneOperator(w, id, operator);
    OutcomeIsTheState(w, id, operator, now);
    OperatorsRewriteOneRow(w.db, now, w.operators[operator].op);
    if Dead(w.db, id) {
      assert forall i :: 0 <= i < |w.wins| ==> w.wins[i] < w.epoch;
    } else if w.epoch > 0 {
      assert w.wins[w.epoch - 1] == w.epoch;
    }
  }

  // ---- Two statements, one effect ---------------------------------------------------------

  /** A refused first statement is the whole operation, with its error and without effect. */
  lemma RefusedCheckIsTheOperation(db: Database, now: int, op: Operation)
    requires Operates(op) && FirstAnswer(db, op).Some?
    ensures Targeted(db, now, op) == (db, Failed(FirstAnswer(db, op).value))
  {
  }

  /**
   After a passed check, the second statement is the whole operation: store and reply are as if both happened
   then.
   */
  lemma ActIsTheOperation(w: World, id: DeliveryId, operator: nat, now: int)
    requires Sane(w, id) && Allowed(w, Act(operator, now))
    ensures var op := w.operators[operator].op;
            var after := Next(w, id, Act(operator, now));
            (after.db, after.operators[operator].reply) == Targeted(w.db, now, op)
  {
    assert SaneOperator(w, id, operator);
    OutcomeIsTheState(w, id, operator, now);
  }

  /** The play as calls: each operator takes effect at its second statement, or at a first one that refused it. */
  ghost function Calls(play: Story<World, Move>, id: DeliveryId): Run
    requires Fair(play, id)
  {
    match play
    case Opening(_) => Begin(EMPTY)
    case Followed(before, Check(_, now, op)) =>
      if FirstAnswer(Now(before, id).db, op).Some? then Then(Calls(before, id), now, op) else Calls(before, id)
    case Followed(before, Act(operator, now)) => Then(Calls(before, id), now, Now(before, id).operators[operator].op)
    case Followed(before, Elsewhere(now, op)) => Then(Calls(before, id), now, op)
  }

  /** The play began with empty tables, and everyone but the operators keeps the promises of the services. */
  ghost predicate Orderly(play: Story<World, Move>, id: DeliveryId)
    requires Fair(play, id)
  {
    match play
    case Opening(w) => w.db == EMPTY_DATABASE
    case Followed(before, move) =>
      Orderly(before, id) && (move.Elsewhere? ==> Simulation.Permitted(Now(before, id).db, move.now, move.op))
  }

  /** Whether the last move of the play answered an operator. */
  ghost predicate Answers(play: Story<World, Move>, id: DeliveryId)
    requires Fair(play, id)
  {
    play.Followed? &&
    match play.move
    case Check(_, _, op) => FirstAnswer(Now(play.before, id).db, op).Some?
    case Act(_, _) => true
    case Elsewhere(_, _) => false
  }

  /**
   Every interleaving of two-statement operators with everything else is a run of single calls on the same
   tables: the stores are equal, and every operator is told what its call in the run is told.
   */
  lemma {:induction false} PlaysAreSqlRuns(play: Story<World, Move>, id: DeliveryId)
    requires Fair(play, id) && Orderly(play, id)
    ensures Simulation.SqlLegal(Calls(play, id)) && Start(Calls(play, id)) == EMPTY
    ensures Simulation.SqlFinal(Calls(play, id)) == Now(play, id).db
    ensures Answers(play, id) ==>
              && Calls(play, id).Then?
              && Now(play, id).operators[play.move.operator] == Answered(
                   Calls(play, id).op,
                   Execute(Simulation.SqlFinal(Calls(play, id).before), Calls(play, id).at, Calls(play, id).op).1)
  {
    match play
    case Opening(_) =>
    case Followed(before, move) =>
      PlaysAreSqlRuns(before, id);
      EveryPlayHasOneWinnerPerEpoch(before, id);
      match move
      case Check(_, now, op) =>
        if FirstAnswer(Now(before, id).db, op).Some? {
          RefusedCheckIsTheOperation(Now(before, id).db, now, op);
        }
      case Act(operator, now) => ActIsTheOperation(Now(before, id), id, operator, now);
      case Elsewhere(_, _) =>
  }

  /** So the laws about runs of the ledger hold of the tables even while operators are between their statements. */
  lemma PlaysAreLedgerRuns(play: Story<World, Move>, id: DeliveryId)
    requires Fair(play, id) && Orderly(play, id)
    ensures Legal(Calls(play, id))
    ensures Simulation.Related(Final(Calls(play, id)), Now(play, id).db)
    ensures Answers(play, id) ==>
              Now(play, id).operators[play.move.operator] == Answered(Calls(play, id).op, LastReply(Calls(play, id)))
  {
    PlaysAreSqlRuns(play, id);
    Simulation.SqlRunsAreLedgerRuns(Calls(play, id));
  }
}

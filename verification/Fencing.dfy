/** Claims as fences: what a worker whose token is no longer current can do, which is nothing. */
module Fencing {
  import opened Domain
  import opened Ledger
  import opened Runs

  /** The token was issued for this delivery at some time and is not the current claim any more. */
  predicate Stale(row: Row, fence: Token) {
    fence.generation <= row.generation && !row.Holds(fence)
  }

  predicate StaleIn(l: Ledger, id: DeliveryId, fence: Token) {
    id in l.rows && Stale(l.rows[id], fence)
  }

  lemma ChangeKeepsStale(row: Row, change: Change, fence: Token)
    requires row.Valid() && Enabled(row, change) && Stale(row, fence)
    ensures Stale(After(row, change), fence)
  {
  }

  /** A token that was held is, after any change, still held or stale. */
  lemma HeldOrStale(row: Row, change: Change, fence: Token)
    requires row.Valid() && Enabled(row, change) && row.Holds(fence)
    ensures After(row, change).Holds(fence) || Stale(After(row, change), fence)
  {
  }

  lemma StepKeepsStale(l: Ledger, now: int, op: Operation, id: DeliveryId, fence: Token)
    requires Valid(l) && Lawful(l, now, op) && StaleIn(l, id, fence)
    ensures StaleIn(Apply(l, now, op).0, id, fence)
  {
    StepsAreChanges(l, now, op, id);
    var effect := Effect(l, now, op, id);
    if effect.Some? {
      ChangeKeepsStale(l.rows[id], effect.value, fence);
    }
  }

  /** No later step of any run makes a stale token current again. */
  lemma {:induction false} StaleForever(run: Run, prefix: Run, id: DeliveryId, fence: Token)
    requires Legal(run) && Extends(run, prefix) && Legal(prefix)
    requires StaleIn(Final(prefix), id, fence)
    ensures StaleIn(Final(run), id, fence)
  {
    if run == prefix {
    } else {
      StaleForever(run.before, prefix, id, fence);
      FinalIsValid(run.before);
      StepKeepsStale(Final(run.before), run.at, run.op, id, fence);
    }
  }

  /** Once current, a token stays current until it becomes stale for good. */
  lemma {:induction false} CurrentUntilStale(run: Run, prefix: Run, id: DeliveryId, fence: Token)
    requires Legal(run) && Extends(run, prefix) && Legal(prefix)
    requires id in Final(prefix).rows && Final(prefix).rows[id].Holds(fence)
    ensures id in Final(run).rows && (Final(run).rows[id].Holds(fence) || Stale(Final(run).rows[id], fence))
  {
    FinalIsValid(prefix);
    if run == prefix {
    } else {
      CurrentUntilStale(run.before, prefix, id, fence);
      FinalIsValid(run.before);
      var l := Final(run.before);
      if Stale(l.rows[id], fence) {
        StepKeepsStale(l, run.at, run.op, id, fence);
      } else {
        StepsAreChanges(l, run.at, run.op, id);
        var effect := Effect(l, run.at, run.op, id);
        if effect.Some? {
          HeldOrStale(l.rows[id], effect.value, fence);
        }
      }
    }
  }

  lemma StaleIsInert(l: Ledger, now: int, op: Operation)
    requires op.Fenced() && StaleIn(l, op.Subject(), op.Fence())
    ensures Apply(l, now, op) == (l, Failed(ClaimLost(op.Subject(), op.Fence())))
  {
  }

  // ---- Non-interference -------------------------------------------------------------------

  /** The step presents a token that is stale by then. */
  ghost predicate Belated(l: Ledger, op: Operation) {
    op.Fenced() && StaleIn(l, op.Subject(), op.Fence())
  }

  /** The run without the steps made with stale tokens. */
  ghost function PurgeStale(run: Run): Run
    requires Legal(run)
  {
    match run
    case Begin(_) => run
    case Then(before, at, op) =>
      if Belated(Final(before), op) then PurgeStale(before) else Then(PurgeStale(before), at, op)
  }

  ghost function Replies(run: Run): seq<Reply>
    requires Legal(run)
  {
    if run.Begin? then [] else Replies(run.before) + [LastReply(run)]
  }

  /** The replies of a run, without those given to stale tokens. */
  ghost function RepliesToCurrent(run: Run): seq<Reply>
    requires Legal(run)
  {
    if run.Begin? then []
    else if Belated(Final(run.before), run.op) then RepliesToCurrent(run.before)
    else RepliesToCurrent(run.before) + [LastReply(run)]
  }

  /**
   Deleting from a run every step that presented a token stale by then changes neither the final store
   nor any reply given to anyone else, and each deleted step was answered with ClaimLost. No step that
   is left presents a stale token.
   */
  lemma {:induction false} StaleWorkersDoNotInterfere(run: Run)
    requires Legal(run)
    ensures Legal(PurgeStale(run))
    ensures Final(PurgeStale(run)) == Final(run)
    ensures Replies(PurgeStale(run)) == RepliesToCurrent(run)
    ensures PurgeStale(PurgeStale(run)) == PurgeStale(run)
    ensures run.Then? && Belated(Final(run.before), run.op) ==>
              LastReply(run) == Failed(ClaimLost(run.op.Subject(), run.op.Fence()))
  {
    match run
    case Begin(_) =>
    case Then(before, at, op) =>
      StaleWorkersDoNotInterfere(before);
      if Belated(Final(before), op) {
        StaleIsInert(Final(before), at, op);
      }
  }

  datatype Ghost = Ghost(id: DeliveryId, fence: Token)

  predicate SpokenBy(op: Operation, dead: set<Ghost>) {
    op.Fenced() && Ghost(op.Subject(), op.Fence()) in dead
  }

  /** The run without any step that presents one of the dead tokens. */
  function Purge(run: Run, dead: set<Ghost>): Run {
    match run
    case Begin(_) => run
    case Then(before, at, op) =>
      if SpokenBy(op, dead) then Purge(before, dead) else Then(Purge(before, dead), at, op)
  }

  /**
   In particular, from any point of a run on, all steps of tokens stale at that point can be deleted, whoever
   they belong to.
   */
  lemma {:induction false} DeadTokensCanBeDeleted(run: Run, dead: set<Ghost>)
    requires Legal(run)
    requires forall g :: g in dead ==> StaleIn(Start(run), g.id, g.fence)
    ensures Legal(Purge(run, dead))
    ensures Final(Purge(run, dead)) == Final(run)
    ensures PurgeStale(Purge(run, dead)) == PurgeStale(run)
    ensures forall g :: g in dead ==> StaleIn(Final(run), g.id, g.fence)
  {
    match run
    case Begin(_) =>
    case Then(before, at, op) =>
      DeadTokensCanBeDeleted(before, dead);
      FinalIsValid(before);
      if SpokenBy(op, dead) {
        StaleIsInert(Final(before), at, op);
      }
      forall g | g in dead
        ensures StaleIn(Final(run), g.id, g.fence)
      {
        StepKeepsStale(Final(before), at, op, g.id, g.fence);
      }
  }

  // ---- Why identifiers must be fresh ------------------------------------------------------

  /** An intake that reuses the identifier of a known delivery for the token's owner. */
  predicate Reissues(l: Ledger, op: Operation, id: DeliveryId, fence: Token) {
    && fence.generation == 1
    && match op
       case Accept(record, _) =>
         record.ingestionKey !in l.intakes && record.deliveryId == id && record.claim.ownerId == fence.ownerId
       case SavePending(_, deliveryId, _, request) => deliveryId == id && request.ownerId == fence.ownerId
       case _ => false
  }

  /**
   Without the promise of fresh identifiers, a stale token becomes current in exactly one way:
   an intake that reuses the identifier, because the store restarts its generation at 1.
   */
  lemma StaleRevivesOnlyByReuse(l: Ledger, now: int, op: Operation, id: DeliveryId, fence: Token)
    requires Valid(l) && Offered(l, now, op) && StaleIn(l, id, fence)
    ensures id in Apply(l, now, op).0.rows
    ensures Apply(l, now, op).0.rows[id].Holds(fence) <==> Reissues(l, op, id, fence)
  {
    if op.Targeted() {
      AcceptedExactlyWhenEnabled(l, now, op);
      if op.Subject() == id && Refusal(l, now, op).None? {
        ChangeKeepsStale(l.rows[id], op.Change(now), fence);
      }
    }
  }
}

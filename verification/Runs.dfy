/** Runs of the store under any number of workers, operators and intake calls, in any interleaving. */
module Runs {
  import opened Domain
  import opened Ledger

  datatype Run = Begin(start: Ledger) | Then(before: Run, at: int, op: Operation)

  ghost predicate Legal(run: Run)
    decreases run, 0
  {
    match run
    case Begin(start) => Valid(start)
    case Then(before, at, op) => Legal(before) && Lawful(Final(before), at, op)
  }

  ghost function Final(run: Run): Ledger
    requires Legal(run)
    decreases run, 1
  {
    match run
    case Begin(start) => start
    case Then(before, at, op) => Apply(Final(before), at, op).0
  }

  ghost function LastReply(run: Run): Reply
    requires Legal(run) && run.Then?
  {
    Apply(Final(run.before), run.at, run.op).1
  }

  function Start(run: Run): Ledger {
    if run.Begin? then run.start else Start(run.before)
  }

  ghost predicate Extends(run: Run, prefix: Run) {
    run == prefix || (run.Then? && Extends(run.before, prefix))
  }

  /** The store clock never goes back, and `now` is its latest reading. */
  ghost predicate Chronological(run: Run, now: int) {
    run.Then? ==> run.at <= now && Chronological(run.before, run.at)
  }

  /** Everything that happened to one delivery since it entered the store. */
  ghost function Log(run: Run, id: DeliveryId): seq<Change>
    requires Legal(run) && id in Final(run).rows
  {
    match run
    case Begin(_) => []
    case Then(before, at, op) =>
      if id !in Final(before).rows then []
      else
        match Effect(Final(before), at, op, id)
        case None => Log(before, id)
        case Some(change) => Log(before, id) + [change]
  }

  /** The delivery as it entered the store. */
  ghost function Origin(run: Run, id: DeliveryId): Row
    requires Legal(run) && id in Final(run).rows
  {
    if run.Then? && id in Final(run.before).rows then Origin(run.before, id) else Final(run).rows[id]
  }

  predicate Possible(origin: Row, log: seq<Change>) {
    |log| > 0 ==>
      Possible(origin, log[..|log| - 1]) && Enabled(Fold(origin, log[..|log| - 1]), log[|log| - 1])
  }

  function Fold(origin: Row, log: seq<Change>): Row {
    if |log| == 0 then origin else After(Fold(origin, log[..|log| - 1]), log[|log| - 1])
  }

  lemma {:induction false} FinalIsValid(run: Run)
    requires Legal(run)
    ensures Valid(Final(run))
  {
    if run.Begin? {
    } else {
      FinalIsValid(run.before);
      ApplyKeepsValid(Final(run.before), run.at, run.op);
    }
  }

  lemma {:induction false} PrefixIsLegal(run: Run, prefix: Run)
    requires Legal(run) && Extends(run, prefix)
    ensures Legal(prefix)
  {
    if run == prefix {
    } else {
      PrefixIsLegal(run.before, prefix);
    }
  }

  /** A delivery is the fold of its log: every entry was enabled when it happened, and nothing else changed it. */
  lemma {:induction false} DeliveryIsFoldOfItsLog(run: Run, id: DeliveryId)
    requires Legal(run) && id in Final(run).rows
    ensures Possible(Origin(run, id), Log(run, id))
    ensures Final(run).rows[id] == Fold(Origin(run, id), Log(run, id))
  {
    if run.Begin? || id !in Final(run.before).rows {
    } else {
      DeliveryIsFoldOfItsLog(run.before, id);
      StepsAreChanges(Final(run.before), run.at, run.op, id);
      var effect := Effect(Final(run.before), run.at, run.op, id);
      if effect.Some? {
        var log := Log(run, id);
        assert log[..|log| - 1] == Log(run.before, id);
      }
    }
  }

  /** Deliveries are never forgotten, never renamed, and their history only grows. */
  lemma {:induction false} DeliveriesPersist(run: Run, prefix: Run, id: DeliveryId)
    requires Legal(run) && Extends(run, prefix) && Legal(prefix) && id in Final(prefix).rows
    ensures id in Final(run).rows
    ensures Final(prefix).rows[id].Precedes(Final(run).rows[id])
  {
    if run == prefix {
    } else {
      DeliveriesPersist(run.before, prefix, id);
      IdentityIsFixed(Final(run.before), run.at, run.op, id);
    }
  }
}

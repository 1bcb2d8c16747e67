/**
 The engine loops of all running deliveries around `withCapacity`: each attempt of a loop goes through the
 gate on its own (src/deliveryWorker.ts:105-136); recording the attempt and sleeping before the next one
 (src/deliveryEngine.ts:283-294) happen outside.
 */
module AttemptSlots {
  import opened Domain
  import opened Stories
  import Admission

  datatype Fiber =
    | Attempting(d: DestinationId, round: nat, stopping: bool)   // from asking for permits until both are back
    | Recording(d: DestinationId, round: nat)
    | Sleeping(d: DestinationId, round: nat)
    | Done

  datatype World = World(gate: Admission.State, fibers: map<Admission.TicketId, Fiber>)

  datatype Move =
    | Start(fiber: Admission.TicketId, d: DestinationId)
    | Pass(fiber: Admission.TicketId)                   // one step through the gate
    | Interrupt(fiber: Admission.TicketId)              // while it waits for permits
    | Record(fiber: Admission.TicketId, goesOn: bool)   // whether a retry was scheduled and recorded
    | Wake(fiber: Admission.TicketId)

  predicate Allowed(limits: Admission.Limits, w: World, move: Move) {
    var f := move.fiber;
    match move
    case Start(_, d) => f !in w.fibers && Admission.Enabled(limits, w.gate, Admission.Arrive(f, d))
    case Pass(_) => f in w.fibers && w.fibers[f].Attempting? && Admission.Enabled(limits, w.gate, Admission.Step(f))
    case Interrupt(_) =>
      && f in w.fibers && w.fibers[f].Attempting? && !w.fibers[f].stopping
      && Admission.Enabled(limits, w.gate, Admission.Abandon(f))
    case Record(_, _) => f in w.fibers && w.fibers[f].Recording?
    case Wake(_) =>
      f in w.fibers && w.fibers[f].Sleeping? && Admission.Enabled(limits, w.gate, Admission.Arrive(f, w.fibers[f].d))
  }

  function Next(limits: Admission.Limits, w: World, move: Move): World
    requires Allowed(limits, w, move)
  {
    var f := move.fiber;
    match move
    case Start(_, d) =>
      World(Admission.Next(limits, w.gate, Admission.Arrive(f, d)), w.fibers[f := Attempting(d, 0, false)])
    case Pass(_) =>
      var gate := Admission.Next(limits, w.gate, Admission.Step(f));
      World(
        gate,
        if f in gate.tickets then w.fibers
        else w.fibers[f := if w.fibers[f].stopping then Done else Recording(w.fibers[f].d, w.fibers[f].round)])
    case Interrupt(_) =>
      var gate := Admission.Next(limits, w.gate, Admission.Abandon(f));
      World(gate, w.fibers[f := if f in gate.tickets then w.fibers[f].(stopping := true) else Done])
    case Record(_, goesOn) =>
      w.(fibers := w.fibers[f := if goesOn then Sleeping(w.fibers[f].d, w.fibers[f].round) else Done])
    case Wake(_) =>
      World(
        Admission.Next(limits, w.gate, Admission.Arrive(f, w.fibers[f].d)),
        w.fibers[f := Attempting(w.fibers[f].d, w.fibers[f].round + 1, false)])
  }

  /** Tickets are exactly the attempts under way. */
  ghost predicate Matched(w: World) {
    forall f :: f in w.gate.tickets <==> f in w.fibers && w.fibers[f].Attempting?
  }

  ghost predicate Sound(limits: Admission.Limits, w: World) {
    Admission.Sound(limits, w.gate) && Admission.LookedUp(w.gate) && Matched(w)
  }

  /** The step of the gate that a move makes. */
  function GateMove(w: World, move: Move): Option<Admission.Move> {
    match move
    case Start(f, d) => Some(Admission.Arrive(f, d))
    case Pass(f) => Some(Admission.Step(f))
    case Interrupt(f) => Some(Admission.Abandon(f))
    case Record(_, _) => None
    case Wake(f) =>
      if f in w.fibers && w.fibers[f].Sleeping? then Some(Admission.Arrive(f, w.fibers[f].d)) else None
  }

  lemma MovesKeepMatched(limits: Admission.Limits, w: World, move: Move)
    requires Matched(w) && Allowed(limits, w, move)
    ensures Matched(Next(limits, w, move))
  {
    var step := GateMove(w, move);
    if step.Some? {
      Admission.OthersUntouched(limits, w.gate, step.value);
      var after := Next(limits, w, move);
      forall f
        ensures f in after.gate.tickets <==> f in after.fibers && after.fibers[f].Attempting?
      {
        assert f != move.fiber ==> (f in after.gate.tickets <==> f in after.gate.tickets - {move.fiber});
        assert f != move.fiber ==> (f in w.gate.tickets <==> f in w.gate.tickets - {move.fiber});
      }
    }
  }

  lemma MovesKeepSound(limits: Admission.Limits, w: World, move: Move)
    requires Sound(limits, w) && Allowed(limits, w, move)
    ensures Sound(limits, Next(limits, w, move))
  {
    MovesKeepMatched(limits, w, move);
    var step := GateMove(w, move);
    if step.Some? {
      Admission.MovesKeepSound(limits, w.gate, step.value);
      Admission.MovesKeepLookedUp(limits, w.gate, step.value);
    }
  }

  ghost predicate Told(limits: Admission.Limits, story: Story<World, Move>)
    decreases story, 0
  {
    match story
    case Opening(w) => w == World(Admission.Fresh(limits), map[])
    case Followed(before, move) => Told(limits, before) && Allowed(limits, Now(limits, before), move)
  }

  ghost function Now(limits: Admission.Limits, story: Story<World, Move>): World
    requires Told(limits, story)
    decreases story, 1
  {
    match story
    case Opening(w) => w
    case Followed(before, move) => Next(limits, Now(limits, before), move)
  }

  lemma {:induction false} StoriesAreSound(limits: Admission.Limits, story: Story<World, Move>)
    requires limits.Valid() && Told(limits, story)
    ensures Sound(limits, Now(limits, story))
  {
    match story
    case Opening(_) => Admission.FreshIsSound(limits);
    case Followed(before, move) =>
      StoriesAreSound(limits, before);
      MovesKeepSound(limits, Now(limits, before), move);
  }

  ghost function GateStory(
    limits: Admission.Limits, story: Story<World, Move>): Story<Admission.State, Admission.Move>
    requires Told(limits, story)
  {
    match story
    case Opening(w) => Opening(w.gate)
    case Followed(before, move) =>
      match GateMove(Now(limits, before), move)
      case Some(step) => Followed(GateStory(limits, before), step)
      case None => GateStory(limits, before)
  }

  lemma {:induction false} GateIsTold(limits: Admission.Limits, story: Story<World, Move>)
    requires Told(limits, story)
    ensures Admission.Told(limits, GateStory(limits, story))
    ensures Admission.Now(limits, GateStory(limits, story)) == Now(limits, story).gate
  {
    match story
    case Opening(_) =>
    case Followed(before, _) => GateIsTold(limits, before);
  }

  /** Where a loop is tells what became of its attempt at the gate. */
  predicate Fits(fiber: Fiber, course: Admission.Course) {
    match fiber
    case Attempting(_, _, stopping) => course.gaveWay == stopping && !course.turnedAway
    case Recording(_, _) => course == Admission.Course(true, false, false)
    case Sleeping(_, _) => course == Admission.Course(true, false, false)
    case Done => true
  }

  /** What a move does to a loop and to its course at the gate. */
  lemma MovesFit(limits: Admission.Limits, w: World, move: Move, f: Admission.TicketId, course: Admission.Course)
    requires Sound(limits, w) && Allowed(limits, w, move)
    requires f in w.fibers ==> Fits(w.fibers[f], course)
    requires f in w.gate.tickets ==> Admission.Fits(w.gate.tickets[f], course)
    ensures var step := GateMove(w, move);
            var after := if step.None? then course else Admission.CourseAfter(limits, w.gate, step.value, f, course);
            f in Next(limits, w, move).fibers ==> Fits(Next(limits, w, move).fibers[f], after)
  {
    if GateMove(w, move).Some? {
      Admission.OthersStay(limits, w.gate, GateMove(w, move).value, f);
    }
  }

  /** Nothing is recorded, and nobody sleeps before a retry, but after an attempt that ran with both permits. */
  lemma {:induction false} AttemptsRanInside(limits: Admission.Limits, story: Story<World, Move>, f: Admission.TicketId)
    requires limits.Valid() && Told(limits, story)
    ensures Admission.Told(limits, GateStory(limits, story))
    ensures f in Now(limits, story).fibers ==>
              Fits(Now(limits, story).fibers[f], Admission.CourseOf(limits, GateStory(limits, story), f))
  {
    GateIsTold(limits, story);
    match story
    case Opening(_) =>
    case Followed(before, move) =>
      AttemptsRanInside(limits, before, f);
      StoriesAreSound(limits, before);
      GateIsTold(limits, before);
      if f in Now(limits, before).gate.tickets {
        Admission.CoursesFit(limits, GateStory(limits, before), f);
      }
      MovesFit(limits, Now(limits, before), move, f, Admission.CourseOf(limits, GateStory(limits, before), f));
  }

  // ---- The life of a loop -----------------------------------------------------------------

  /** What a loop did so far: its destination, how often it woke and recorded, and whether it ended or was stopped. */
  datatype Life = Life(d: DestinationId, woken: nat, recorded: nat, ended: bool, stopped: bool)

  function LifeOf(story: Story<World, Move>, f: Admission.TicketId): Option<Life> {
    match story
    case Opening(_) => None
    case Followed(before, move) =>
      if move.fiber == f then LifeAfter(LifeOf(before, f), move) else LifeOf(before, f)
  }

  function LifeAfter(life: Option<Life>, move: Move): Option<Life> {
    match (life, move)
    case (None, Start(_, d)) => Some(Life(d, 0, 0, false, false))
    case (Some(l), Interrupt(_)) => Some(l.(stopped := true))
    case (Some(l), Record(_, goesOn)) => Some(l.(recorded := l.recorded + 1, ended := !goesOn))
    case (Some(l), Wake(_)) => Some(l.(woken := l.woken + 1))
    case _ => life
  }

  predicate LivesAs(fiber: Fiber, life: Life) {
    match fiber
    case Attempting(d, round, stopping) => life == Life(d, round, round, false, stopping)
    case Recording(d, round) => life == Life(d, round, round, false, false)
    case Sleeping(d, round) => life == Life(d, round, round + 1, false, false)
    case Done => life.ended != life.stopped && life.recorded == life.woken + if life.ended then 1 else 0
  }

  predicate Lived(w: World, f: Admission.TicketId, life: Option<Life>) {
    && (f in w.fibers <==> life.Some?)
    && (f in w.fibers ==> LivesAs(w.fibers[f], life.value))
    && (f in w.gate.tickets && life.Some? ==> w.gate.tickets[f].destination == life.value.d)
  }

  lemma MovesLive(limits: Admission.Limits, w: World, move: Move, f: Admission.TicketId, life: Option<Life>)
    requires Sound(limits, w) && Allowed(limits, w, move) && Lived(w, f, life)
    ensures Lived(Next(limits, w, move), f, if move.fiber == f then LifeAfter(life, move) else life)
  {
    if GateMove(w, move).Some? {
      Admission.OthersStay(limits, w.gate, GateMove(w, move).value, f);
    }
  }

  /**
   A loop records each attempt once and sleeps once after each but the last; it asks for the permits of its own
   destination every time, and it is done exactly when a recording ended it or it was stopped while it waited.
   */
  lemma {:induction false} LivesAreExact(limits: Admission.Limits, story: Story<World, Move>, f: Admission.TicketId)
    requires limits.Valid() && Told(limits, story)
    ensures Lived(Now(limits, story), f, LifeOf(story, f))
  {
    match story
    case Opening(_) =>
    case Followed(before, move) =>
      LivesAreExact(limits, before, f);
      StoriesAreSound(limits, before);
      MovesLive(limits, Now(limits, before), move, f, LifeOf(before, f));
  }

  // ---- Sleeping ---------------------------------------------------------------------------

  function AttemptsUnderWay(w: World): set<Admission.TicketId> {
    set f | f in w.fibers && w.fibers[f].Attempting?
  }

  /**
   A worker that records or sleeps between attempts holds no permit and is not counted: permits are held by
   attempts under way only, at most one of each kind for each. When no attempt is under way, all are free.
   */
  lemma SleepersHoldNothing(
    limits: Admission.Limits, story: Story<World, Move>, f: Admission.TicketId, d: DestinationId)
    requires limits.Valid() && Told(limits, story)
    ensures var w := Now(limits, story);
            && (f in w.fibers && !w.fibers[f].Attempting? ==> f !in w.gate.tickets)
            && Admission.Members(w.gate.tickets, Admission.GlobalHolders) <= AttemptsUnderWay(w)
            && Admission.Members(w.gate.tickets, Admission.DestinationHolders(d)) <= AttemptsUnderWay(w)
            && limits.global - w.gate.globalFree <= |AttemptsUnderWay(w)|
            && 0 <= w.gate.total <= |AttemptsUnderWay(w)|
    ensures AttemptsUnderWay(Now(limits, story)) == {} ==>
              && Now(limits, story).gate.globalFree == limits.global && Now(limits, story).gate.byDestination == map[]
              && (d in Now(limits, story).gate.destinationFree ==>
                    Now(limits, story).gate.destinationFree[d] == limits.perDestination)
  {
    var w := Now(limits, story);
    StoriesAreSound(limits, story);
    Admission.CountsStayWithinLimits(limits, w.gate, d);
    var holders := Admission.Members(w.gate.tickets, Admission.GlobalHolders);
    assert AttemptsUnderWay(w) == holders + (AttemptsUnderWay(w) - holders);
    if AttemptsUnderWay(w) == {} {
      assert w.gate.tickets == map[];
      Admission.AllPermitsComeBack(limits, w.gate, d);
    }
  }

  /** And sleepers block nobody: whoever is attempting, some attempt under way can make its next step. */
  lemma AttemptsGoOn(limits: Admission.Limits, story: Story<World, Move>, f: Admission.TicketId)
    returns (mover: Admission.TicketId)
    requires limits.Valid() && Told(limits, story)
    requires f in Now(limits, story).fibers && Now(limits, story).fibers[f].Attempting?
    ensures Allowed(limits, Now(limits, story), Pass(mover))
  {
    StoriesAreSound(limits, story);
    mover := Admission.SomeoneCanMove(limits, Now(limits, story).gate, f);
  }
}

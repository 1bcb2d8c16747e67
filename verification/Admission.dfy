/**
 src/deliveryAdmission.ts: two nested semaphores, one per destination and one global, around a task
 that is counted while it runs.

 The source builds two of these: `withCapacity`, whose callers wait for permits and whose count is
 the active attempts, and `admit`, whose callers are turned away and whose count is the admitted
 deliveries. A caller's way through is a ticket, and each of its steps may interleave with the
 steps of all other tickets.
 */
module Admission {
  import opened Domain
  import opened Stories

  datatype TicketId = TicketId(text: string)

  datatype Limit = DestinationAdmission | GlobalAdmission

  datatype Limits = Limits(waits: bool, global: nat, perDestination: nat) {
    predicate Valid() { global >= 1 && perDestination >= 1 }
  }

  datatype Phase =
    | Arriving                   // looks its destination's semaphore up
    | AtDestination
    | AtGlobal                   // with its destination's permit
    | Entering                   // with both permits
    | Inside                     // with both permits, and counted
    | Leaving                    // with both permits, no longer counted
    | Returning(refused: bool)   // with its destination's permit, on the way out
    | Refused(limit: Limit)      // without permits, about to report the overload

  datatype Ticket = Ticket(destination: DestinationId, phase: Phase) {
    predicate HoldsGlobal() { phase.Entering? || phase.Inside? || phase.Leaving? }
    predicate HoldsDestination() { HoldsGlobal() || phase.AtGlobal? || phase.Returning? }

    /** How many steps the ticket still has to make, at most. */
    function Rank(): (r: nat)
      ensures 1 <= r <= 7
    {
      match phase
      case Arriving => 7
      case AtDestination => 6
      case AtGlobal => 5
      case Entering => 4
      case Inside => 3
      case Leaving => 2
      case Returning(refused) => if refused then 2 else 1
      case Refused(_) => 1
    }
  }

  datatype State = State(
    globalFree: int,
    destinationFree: map<DestinationId, int>,
    total: int,
    byDestination: map<DestinationId, int>,
    rejected: int,
    tickets: map<TicketId, Ticket>)
  {
    function Moved(id: TicketId, phase: Phase): State
      requires id in tickets
    {
      this.(tickets := tickets[id := tickets[id].(phase := phase)])
    }

    function Gone(id: TicketId): State { this.(tickets := tickets - {id}) }

    function Adjusted(d: DestinationId, adjustment: int): State {
      this.(total := total + adjustment, byDestination := Adjust(byDestination, d, adjustment))
    }
  }

  function Adjust(counts: map<DestinationId, int>, d: DestinationId, adjustment: int): map<DestinationId, int> {
    var count := At(counts, d) + adjustment;
    if count == 0 then counts - {d} else counts[d := count]
  }

  function At(counts: map<DestinationId, int>, d: DestinationId): int {
    if d in counts then counts[d] else 0
  }

  datatype Move =
    | Arrive(id: TicketId, destination: DestinationId)
    | Step(id: TicketId)
    | TurnAway(id: TicketId)
    | Abandon(id: TicketId)     // interrupted while it waits
    | Drop(id: TicketId, destination: DestinationId)  // reports an overload without ever asking for a permit

  /** The next permit the ticket needs is not there. */
  predicate Blocked(s: State, ticket: Ticket) {
    || (ticket.phase.AtDestination? && At(s.destinationFree, ticket.destination) <= 0)
    || (ticket.phase.AtGlobal? && s.globalFree <= 0)
  }

  predicate Enabled(limits: Limits, s: State, move: Move) {
    if move.Arrive? || move.Drop? then move.id !in s.tickets
    else if move.id !in s.tickets then false
    else
      var ticket := s.tickets[move.id];
      match move
      case Step(_) => !Blocked(s, ticket)
      case TurnAway(_) => !limits.waits && Blocked(s, ticket)
      case Abandon(_) => ticket.phase.Arriving? || ticket.phase.AtDestination? || ticket.phase.AtGlobal?
  }

  function Next(limits: Limits, s: State, move: Move): State
    requires Enabled(limits, s, move)
  {
    match move
    case Arrive(id, d) => s.(tickets := s.tickets[id := Ticket(d, Arriving)])
    case Step(id) => Advance(limits, s, id)
    case TurnAway(id) =>
      s.Moved(id, if s.tickets[id].phase.AtGlobal? then Returning(true) else Refused(DestinationAdmission))
    case Abandon(id) => if s.tickets[id].phase.AtGlobal? then s.Moved(id, Returning(false)) else s.Gone(id)
    case Drop(_, _) => s.(rejected := s.rejected + 1)
  }

  function Advance(limits: Limits, s: State, id: TicketId): State
    requires id in s.tickets
  {
    var d := s.tickets[id].destination;
    var free := At(s.destinationFree, d);
    match s.tickets[id].phase
    case Arriving =>
      (if d in s.destinationFree then s else s.(destinationFree := s.destinationFree[d := limits.perDestination]))
      .Moved(id, AtDestination)
    case AtDestination => s.(destinationFree := s.destinationFree[d := free - 1]).Moved(id, AtGlobal)
    case AtGlobal => s.(globalFree := s.globalFree - 1).Moved(id, Entering)
    case Entering => s.Adjusted(d, 1).Moved(id, Inside)
    case Inside => s.Adjusted(d, -1).Moved(id, Leaving)
    case Leaving => s.(globalFree := s.globalFree + 1).Moved(id, Returning(false))
    case Returning(refused) =>
      var returned := s.(destinationFree := s.destinationFree[d := free + 1]);
      if refused then returned.Moved(id, Refused(GlobalAdmission)) else returned.Gone(id)
    case Refused(_) => s.(rejected := s.rejected + 1).Gone(id)
  }

  function Fresh(limits: Limits): State { State(limits.global, map[], 0, map[], 0, map[]) }

  // ---- Counting tickets -------------------------------------------------------------------

  datatype Group =
    | GlobalHolders
    | DestinationHolders(d: DestinationId)
    | Counted
    | CountedAt(d: DestinationId)
    | BeingRefused

  predicate In(group: Group, ticket: Ticket) {
    match group
    case GlobalHolders => ticket.HoldsGlobal()
    case DestinationHolders(d) => ticket.HoldsDestination() && ticket.destination == d
    case Counted => ticket.phase.Inside?
    case CountedAt(d) => ticket.phase.Inside? && ticket.destination == d
    case BeingRefused => ticket.phase.Refused? || ticket.phase == Returning(true)
  }

  function Members(tickets: map<TicketId, Ticket>, group: Group): set<TicketId> {
    set id | id in tickets && In(group, tickets[id])
  }

  function Size(tickets: map<TicketId, Ticket>, group: Group): nat { |Members(tickets, group)| }

  function Weight(group: Group, tickets: map<TicketId, Ticket>, id: TicketId): int {
    if id in tickets && In(group, tickets[id]) then 1 else 0
  }

  lemma SizeAfter(tickets: map<TicketId, Ticket>, after: map<TicketId, Ticket>, id: TicketId, group: Group)
    requires after - {id} == tickets - {id}
    ensures Size(after, group) == Size(tickets, group) - Weight(group, tickets, id) + Weight(group, after, id)
  {
    SizeSplit(tickets, id, group);
    SizeSplit(after, id, group);
  }

  lemma SizeSplit(tickets: map<TicketId, Ticket>, id: TicketId, group: Group)
    ensures Size(tickets, group) == Size(tickets - {id}, group) + Weight(group, tickets, id)
  {
    var rest := Members(tickets - {id}, group);
    if Weight(group, tickets, id) == 1 {
      assert Members(tickets, group) == rest + {id};
    } else {
      assert Members(tickets, group) == rest;
    }
  }

  // ---- Sums of counts ---------------------------------------------------------------------

  ghost function Sum<K(!new)>(counts: map<K, int>): int {
    if counts == map[] then 0
    else
      var k :| k in counts;
      counts[k] + Sum(counts - {k})
  }

  lemma {:induction false} SumWithout<K(!new)>(counts: map<K, int>, k: K)
    requires k in counts
    ensures Sum(counts) == counts[k] + Sum(counts - {k})
    decreases |counts|
  {
    var first :| first in counts && Sum(counts) == counts[first] + Sum(counts - {first});
    if first != k {
      SumWithout(counts - {first}, k);
      SumWithout(counts - {k}, first);
      assert counts - {first} - {k} == counts - {k} - {first};
    }
  }

  lemma SumAfter(counts: map<DestinationId, int>, d: DestinationId, adjustment: int)
    ensures Sum(Adjust(counts, d, adjustment)) == Sum(counts) + adjustment
  {
    var after := Adjust(counts, d, adjustment);
    if d in counts { SumWithout(counts, d); }
    if d in after { SumWithout(after, d); }
    assert after - {d} == counts - {d};
    assert d !in counts ==> counts - {d} == counts;
    assert d !in after ==> after - {d} == after;
  }

  // ---- Conservation -----------------------------------------------------------------------

  ghost predicate Balanced(limits: Limits, s: State, d: DestinationId) {
    && (d in s.destinationFree ==>
          && s.destinationFree[d] >= 0
          && s.destinationFree[d] + Size(s.tickets, DestinationHolders(d)) == limits.perDestination)
    && At(s.byDestination, d) == Size(s.tickets, CountedAt(d))
    && (d in s.byDestination ==> s.byDestination[d] > 0)
  }

  ghost predicate Registered(s: State) {
    forall id :: id in s.tickets && s.tickets[id].HoldsDestination() ==> s.tickets[id].destination in s.destinationFree
  }

  /** Permits are conserved, per destination and globally; the counters count the tasks inside. */
  ghost predicate Sound(limits: Limits, s: State) {
    && limits.Valid()
    && s.globalFree >= 0
    && s.globalFree + Size(s.tickets, GlobalHolders) == limits.global
    && s.total == Size(s.tickets, Counted)
    && Sum(s.byDestination) == s.total
    && (forall d :: Balanced(limits, s, d))
    && Registered(s)
  }

  lemma FreshIsSound(limits: Limits)
    requires limits.Valid()
    ensures Sound(limits, Fresh(limits))
  {
    var s := Fresh(limits);
    assert Members(s.tickets, GlobalHolders) == {} && Members(s.tickets, Counted) == {};
    forall d ensures Balanced(limits, s, d) {
      assert Members(s.tickets, CountedAt(d)) == {};
    }
  }

  lemma OthersUntouched(limits: Limits, s: State, move: Move)
    requires Enabled(limits, s, move)
    ensures Next(limits, s, move).tickets - {move.id} == s.tickets - {move.id}
  {
  }

  /** What one move pays and takes at destination `d`, in permits and in counts. */
  ghost predicate Settles(limits: Limits, s: State, after: State, id: TicketId, d: DestinationId) {
    var held := Weight(DestinationHolders(d), after.tickets, id) - Weight(DestinationHolders(d), s.tickets, id);
    var counted := Weight(CountedAt(d), after.tickets, id) - Weight(CountedAt(d), s.tickets, id);
    && (d in s.destinationFree ==>
          d in after.destinationFree && after.destinationFree[d] == s.destinationFree[d] - held >= 0)
    && (d !in s.destinationFree && d in after.destinationFree ==>
          after.destinationFree[d] == limits.perDestination && held == 0)
    && At(after.byDestination, d) == At(s.byDestination, d) + counted
    && (d in after.byDestination ==> after.byDestination[d] != 0)
  }

  lemma AdjustSettles(counts: map<DestinationId, int>, at: DestinationId, adjustment: int, d: DestinationId)
    requires d in counts ==> counts[d] != 0
    ensures At(Adjust(counts, at, adjustment), d) == At(counts, d) + if d == at then adjustment else 0
    ensures d in Adjust(counts, at, adjustment) ==> Adjust(counts, at, adjustment)[d] != 0
  {
  }

  lemma AdjustAndBack(counts: map<DestinationId, int>, d: DestinationId)
    requires d in counts ==> counts[d] > 0
    ensures Adjust(Adjust(counts, d, 1), d, -1) == counts
  {
  }

  lemma MoveSettles(limits: Limits, s: State, move: Move, d: DestinationId)
    requires Sound(limits, s) && Enabled(limits, s, move)
    ensures Settles(limits, s, Next(limits, s, move), move.id, d)
  {
    assert Balanced(limits, s, d);
    if move.Step? {
      StepSettles(limits, s, move.id, d);
    }
  }

  lemma StepSettles(limits: Limits, s: State, id: TicketId, d: DestinationId)
    requires Balanced(limits, s, d) && Registered(s) && limits.Valid() && Enabled(limits, s, Step(id))
    ensures Settles(limits, s, Advance(limits, s, id), id, d)
  {
    var ticket := s.tickets[id];
    match ticket.phase
    case Entering => AdjustSettles(s.byDestination, ticket.destination, 1, d);
    case Inside => AdjustSettles(s.byDestination, ticket.destination, -1, d);
    case _ =>
  }

  lemma SettledIsBalanced(limits: Limits, s: State, after: State, id: TicketId, d: DestinationId)
    requires Balanced(limits, s, d) && Registered(s)
    requires after.tickets - {id} == s.tickets - {id} && Settles(limits, s, after, id, d)
    ensures Balanced(limits, after, d)
  {
    SizeAfter(s.tickets, after.tickets, id, DestinationHolders(d));
    SizeAfter(s.tickets, after.tickets, id, CountedAt(d));
    if d !in s.destinationFree {
      assert Members(s.tickets, DestinationHolders(d)) == {};
    }
  }

  lemma TotalsSettle(limits: Limits, s: State, move: Move)
    requires s.globalFree >= 0 && Enabled(limits, s, move)
    ensures var after := Next(limits, s, move);
            && after.globalFree >= 0
            && after.globalFree - s.globalFree ==
               Weight(GlobalHolders, s.tickets, move.id) - Weight(GlobalHolders, after.tickets, move.id)
            && after.total - s.total == Weight(Counted, after.tickets, move.id) - Weight(Counted, s.tickets, move.id)
            && Sum(after.byDestination) - Sum(s.byDestination) == after.total - s.total
  {
    if move.Step? {
      SumAfter(s.byDestination, s.tickets[move.id].destination, Next(limits, s, move).total - s.total);
    }
  }

  lemma MovesKeepRegistered(limits: Limits, s: State, move: Move)
    requires Registered(s) && Enabled(limits, s, move)
    ensures Registered(Next(limits, s, move))
  {
  }

  /** Every step of every ticket keeps permits and counters in balance. */
  lemma MovesKeepSound(limits: Limits, s: State, move: Move)
    requires Sound(limits, s) && Enabled(limits, s, move)
    ensures Sound(limits, Next(limits, s, move))
  {
    var after := Next(limits, s, move);
    OthersUntouched(limits, s, move);
    TotalsSettle(limits, s, move);
    SizeAfter(s.tickets, after.tickets, move.id, GlobalHolders);
    SizeAfter(s.tickets, after.tickets, move.id, Counted);
    forall d ensures Balanced(limits, after, d) {
      MoveSettles(limits, s, move, d);
      SettledIsBalanced(limits, s, after, move.id, d);
    }
    MovesKeepRegistered(limits, s, move);
  }

  // ---- What balance means for callers -----------------------------------------------------

  lemma SubsetsAreSmaller(tickets: map<TicketId, Ticket>, part: Group, whole: Group)
    requires forall id :: id in tickets && In(part, tickets[id]) ==> In(whole, tickets[id])
    ensures Size(tickets, part) <= Size(tickets, whole)
  {
    var rest := Members(tickets, whole) - Members(tickets, part);
    assert Members(tickets, whole) == Members(tickets, part) + rest;
  }

  /** Counts never exceed the permits held, permits held never exceed their limit, and the parts add up to the total. */
  lemma CountsStayWithinLimits(limits: Limits, s: State, d: DestinationId)
    requires Sound(limits, s)
    ensures 0 <= At(s.byDestination, d) <= Size(s.tickets, DestinationHolders(d)) <= limits.perDestination
    ensures s.total == Sum(s.byDestination) && 0 <= s.total <= Size(s.tickets, GlobalHolders) <= limits.global
    ensures d in s.byDestination <==> Size(s.tickets, CountedAt(d)) > 0
  {
    assert Balanced(limits, s, d);
    SubsetsAreSmaller(s.tickets, CountedAt(d), DestinationHolders(d));
    SubsetsAreSmaller(s.tickets, Counted, GlobalHolders);
    if d !in s.destinationFree {
      assert Members(s.tickets, DestinationHolders(d)) == {};
    }
  }

  /** Once everyone is out, every permit is back and nothing is counted. A worker between attempts has no ticket. */
  lemma AllPermitsComeBack(limits: Limits, s: State, d: DestinationId)
    requires Sound(limits, s) && s.tickets == map[]
    ensures s.globalFree == limits.global
    ensures d in s.destinationFree ==> s.destinationFree[d] == limits.perDestination
    ensures s.total == 0 && s.byDestination == map[]
  {
    assert Members(s.tickets, GlobalHolders) == {} && Members(s.tickets, Counted) == {};
    assert Balanced(limits, s, d) && Members(s.tickets, DestinationHolders(d)) == {};
    forall e ensures e !in s.byDestination {
      assert Balanced(limits, s, e) && Members(s.tickets, CountedAt(e)) == {};
    }
  }

  /** The permits of `limit` that a ticket for `d` would need are all held by tickets. */
  ghost predicate AllHeld(limits: Limits, s: State, limit: Limit, d: DestinationId) {
    match limit
    case DestinationAdmission => Size(s.tickets, DestinationHolders(d)) == limits.perDestination
    case GlobalAdmission => Size(s.tickets, GlobalHolders) == limits.global
  }

  /** A ticket is held up exactly when all permits it needs next are held, counting tickets on their way in or out. */
  lemma BlockedExactlyWhenAllHeld(limits: Limits, s: State, id: TicketId)
    requires Sound(limits, s) && id in s.tickets
    requires s.tickets[id].phase.AtDestination? ==> s.tickets[id].destination in s.destinationFree
    ensures Blocked(s, s.tickets[id]) <==>
            || (s.tickets[id].phase.AtDestination?
                && AllHeld(limits, s, DestinationAdmission, s.tickets[id].destination))
            || (s.tickets[id].phase.AtGlobal? && AllHeld(limits, s, GlobalAdmission, s.tickets[id].destination))
  {
    assert Balanced(limits, s, s.tickets[id].destination);
  }

  lemma SomeMember(tickets: map<TicketId, Ticket>, group: Group) returns (id: TicketId)
    requires Size(tickets, group) > 0
    ensures id in tickets && In(group, tickets[id])
  {
    var members := Members(tickets, group);
    if members == {} { assert false; }
    id :| id in members;
  }

  /** Whoever waits for a global permit waits for a ticket that can move now. */
  lemma GlobalHolderMoves(limits: Limits, s: State) returns (holder: TicketId)
    requires Sound(limits, s) && s.globalFree <= 0
    ensures holder in s.tickets && s.tickets[holder].HoldsGlobal() && Enabled(limits, s, Step(holder))
  {
    holder := SomeMember(s.tickets, GlobalHolders);
  }

  /** Semaphores exist for everyone past the look-up. */
  ghost predicate LookedUp(s: State) {
    forall id :: id in s.tickets && s.tickets[id].phase.AtDestination? ==>
      s.tickets[id].destination in s.destinationFree
  }

  /** No deadlock: while anyone is under way, some ticket can make its next step, so no two wait for each other. */
  lemma SomeoneCanMove(limits: Limits, s: State, id: TicketId) returns (mover: TicketId)
    requires Sound(limits, s) && LookedUp(s) && id in s.tickets
    ensures mover in s.tickets && Enabled(limits, s, Step(mover))
    ensures !limits.waits ==> Enabled(limits, s, Step(id)) || Enabled(limits, s, TurnAway(id))
  {
    mover := id;
    if Blocked(s, s.tickets[id]) && s.tickets[id].phase.AtDestination? {
      assert Balanced(limits, s, s.tickets[id].destination);
      mover := SomeMember(s.tickets, DestinationHolders(s.tickets[id].destination));
    }
    if Blocked(s, s.tickets[mover]) {
      mover := GlobalHolderMoves(limits, s);
    }
  }

  // ---- Whole stories ----------------------------------------------------------------------

  ghost predicate Told(limits: Limits, story: Story<State, Move>)
    decreases story, 0
  {
    match story
    case Opening(s) => s == Fresh(limits)
    case Followed(before, move) => Told(limits, before) && Enabled(limits, Now(limits, before), move)
  }

  ghost function Now(limits: Limits, story: Story<State, Move>): State
    requires Told(limits, story)
    decreases story, 1
  {
    match story
    case Opening(s) => s
    case Followed(before, move) => Next(limits, Now(limits, before), move)
  }

  lemma {:induction false} StoriesAreSound(limits: Limits, story: Story<State, Move>)
    requires limits.Valid() && Told(limits, story)
    ensures Sound(limits, Now(limits, story)) && LookedUp(Now(limits, story))
  {
    match story
    case Opening(_) => FreshIsSound(limits);
    case Followed(before, move) =>
      StoriesAreSound(limits, before);
      MovesKeepSound(limits, Now(limits, before), move);
      MovesKeepLookedUp(limits, Now(limits, before), move);
  }

  lemma MovesKeepLookedUp(limits: Limits, s: State, move: Move)
    requires LookedUp(s) && Enabled(limits, s, move)
    ensures LookedUp(Next(limits, s, move))
  {
  }

  ghost function Ranks(tickets: map<TicketId, Ticket>): map<TicketId, int> {
    map id | id in tickets :: tickets[id].Rank()
  }

  function RankOf(tickets: map<TicketId, Ticket>, id: TicketId): int {
    if id in tickets then tickets[id].Rank() else 0
  }

  function Arrivals(story: Story<State, Move>): nat {
    if story.Opening? then 0 else Arrivals(story.before) + if story.move.Arrive? then 1 else 0
  }

  /** Rejections reported for offers that the dispatch queue dropped. */
  function Drops(story: Story<State, Move>): nat {
    if story.Opening? then 0 else Drops(story.before) + if story.move.Drop? then 1 else 0
  }

  lemma RankSplit(tickets: map<TicketId, Ticket>, id: TicketId)
    ensures Sum(Ranks(tickets)) == Sum(Ranks(tickets - {id})) + RankOf(tickets, id)
  {
    assert Ranks(tickets - {id}) == Ranks(tickets) - {id};
    if id in tickets {
      SumWithout(Ranks(tickets), id);
    } else {
      assert Ranks(tickets) - {id} == Ranks(tickets);
    }
  }

  lemma RankDrops(limits: Limits, s: State, move: Move)
    requires Enabled(limits, s, move)
    ensures RankOf(Next(limits, s, move).tickets, move.id) - RankOf(s.tickets, move.id) <=
            if move.Arrive? then 7 else if move.Drop? then 0 else -1
  {
  }

  lemma RanksAfter(limits: Limits, s: State, move: Move)
    requires Enabled(limits, s, move)
    ensures Sum(Ranks(Next(limits, s, move).tickets)) <=
            Sum(Ranks(s.tickets)) + if move.Arrive? then 7 else if move.Drop? then 0 else -1
  {
    OthersUntouched(limits, s, move);
    RankSplit(s.tickets, move.id);
    RankSplit(Next(limits, s, move).tickets, move.id);
    RankDrops(limits, s, move);
  }

  lemma {:induction false} SumIsNatural(ranks: map<TicketId, int>)
    requires forall id :: id in ranks ==> ranks[id] > 0
    ensures Sum(ranks) >= |ranks|
    decreases |ranks|
  {
    if ranks == map[] {
    } else {
      var id :| id in ranks && Sum(ranks) == ranks[id] + Sum(ranks - {id});
      SumIsNatural(ranks - {id});
      assert ranks.Keys == (ranks - {id}).Keys + {id};
      assert |ranks| == |ranks.Keys| && |ranks - {id}| == |(ranks - {id}).Keys|;
    }
  }

  lemma {:induction false} WorkIsBounded(limits: Limits, story: Story<State, Move>)
    requires Told(limits, story)
    ensures Length(story) + Sum(Ranks(Now(limits, story).tickets)) <= 8 * Arrivals(story) + Drops(story)
  {
    match story
    case Opening(_) =>
    case Followed(before, move) =>
      WorkIsBounded(limits, before);
      RanksAfter(limits, Now(limits, before), move);
  }

  /**
   Everyone gets out: a story with `n` arrivals has at most `8 * n` moves of callers, and as long as someone is
   inside there is another one to make. A story that cannot go on has given every permit back.
   */
  lemma EveryoneGetsOut(limits: Limits, story: Story<State, Move>, d: DestinationId)
    requires limits.Valid() && Told(limits, story)
    ensures Length(story) <= 8 * Arrivals(story) + Drops(story)
    ensures (forall id :: !Enabled(limits, Now(limits, story), Step(id))) ==>
              && Now(limits, story).tickets == map[]
              && Now(limits, story).globalFree == limits.global
              && (d in Now(limits, story).destinationFree ==>
                 Now(limits, story).destinationFree[d] == limits.perDestination)
              && Now(limits, story).byDestination == map[]
  {
    var s := Now(limits, story);
    WorkIsBounded(limits, story);
    SumIsNatural(Ranks(s.tickets));
    StoriesAreSound(limits, story);
    if forall id :: !Enabled(limits, s, Step(id)) {
      forall id ensures id !in s.tickets {
        if id in s.tickets {
          var mover := SomeoneCanMove(limits, s, id);
        }
      }
      AllPermitsComeBack(limits, s, d);
    }
  }

  // ---- Departures -------------------------------------------------------------------------

  /** What happened to a caller since it last arrived: its task ran, it was turned away, it gave way while waiting. */
  datatype Course = Course(ran: bool, turnedAway: bool, gaveWay: bool)

  ghost function CourseOf(limits: Limits, story: Story<State, Move>, id: TicketId): Course
    requires Told(limits, story)
  {
    if story.Opening? then Course(false, false, false)
    else CourseAfter(limits, Now(limits, story.before), story.move, id, CourseOf(limits, story.before, id))
  }

  function CourseAfter(limits: Limits, s: State, move: Move, id: TicketId, course: Course): Course
    requires Enabled(limits, s, move)
  {
    if move.Arrive? && move.id == id then Course(false, false, false)
    else
      var tickets := Next(limits, s, move).tickets;
      Course(
        course.ran || (id in tickets && tickets[id].phase.Inside?),
        course.turnedAway || move == TurnAway(id),
        course.gaveWay || move == Abandon(id))
  }

  /** Where a ticket is tells its course: no task runs twice, or after a refusal. */
  predicate Fits(ticket: Ticket, course: Course) {
    match ticket.phase
    case Inside => course == Course(true, false, false)
    case Leaving => course == Course(true, false, false)
    case Returning(refused) =>
      if refused then course == Course(false, true, false)
      else course == Course(true, false, false) || course == Course(false, false, true)
    case Refused(_) => course == Course(false, true, false)
    case _ => course == Course(false, false, false)
  }

  lemma {:induction false} CoursesFit(limits: Limits, story: Story<State, Move>, id: TicketId)
    requires Told(limits, story) && id in Now(limits, story).tickets
    ensures Fits(Now(limits, story).tickets[id], CourseOf(limits, story, id))
  {
    match story
    case Opening(_) =>
    case Followed(before, move) =>
      if id in Now(limits, before).tickets {
        CoursesFit(limits, before, id);
      }
      OthersStay(limits, Now(limits, before), move, id);
  }

  lemma OthersStay(limits: Limits, s: State, move: Move, id: TicketId)
    requires Enabled(limits, s, move)
    ensures id != move.id ==>
              && (id in Next(limits, s, move).tickets <==> id in s.tickets)
              && (id in s.tickets ==> Next(limits, s, move).tickets[id] == s.tickets[id])
  {
  }

  /**
   Every caller that leaves has had exactly one fate: its task ran, or it was turned away and is counted as a
   rejection now, or it gave way while it waited.
   */
  lemma DeparturesAreExact(limits: Limits, story: Story<State, Move>, id: TicketId)
    requires Told(limits, story) && story.Followed?
    requires id in Now(limits, story.before).tickets && id !in Now(limits, story).tickets
    ensures var course := CourseOf(limits, story, id);
            && (course == Course(true, false, false) || course == Course(false, true, false)
                || course == Course(false, false, true))
            && Now(limits, story).rejected == Now(limits, story.before).rejected + if course.turnedAway then 1 else 0
  {
    CoursesFit(limits, story.before, id);
    OthersStay(limits, Now(limits, story.before), story.move, id);
  }

  /** Callers of `withCapacity` wait as long as it takes: none of them is ever turned away. */
  lemma {:induction false} WaitersAreNeverTurnedAway(limits: Limits, story: Story<State, Move>, id: TicketId)
    requires Told(limits, story) && limits.waits
    ensures !CourseOf(limits, story, id).turnedAway
    ensures id in Now(limits, story).tickets ==>
              var phase := Now(limits, story).tickets[id].phase; !phase.Refused? && phase != Returning(true)
  {
    match story
    case Opening(_) =>
    case Followed(before, move) =>
      WaitersAreNeverTurnedAway(limits, before, id);
      OthersStay(limits, Now(limits, before), move, id);
  }

  // ---- Rejections -------------------------------------------------------------------------

  /** At some step of the story this ticket was turned away, with all permits of `limit` held. */
  ghost predicate Forced(limits: Limits, story: Story<State, Move>, id: TicketId, limit: Limit, d: DestinationId)
    requires Told(limits, story)
  {
    story.Followed? &&
    (|| (story.move == TurnAway(id) && AllHeld(limits, Now(limits, story.before), limit, d))
     || Forced(limits, story.before, id, limit, d))
  }

  /** The limit a ticket on its way out will name. */
  function Verdict(ticket: Ticket): Option<Limit> {
    match ticket.phase
    case Returning(refused) => if refused then Some(GlobalAdmission) else None
    case Refused(limit) => Some(limit)
    case _ => None
  }

  lemma VerdictsComeFromTurningAway(limits: Limits, s: State, move: Move, id: TicketId)
    requires Enabled(limits, s, move) && id in Next(limits, s, move).tickets
    requires Verdict(Next(limits, s, move).tickets[id]).Some?
    ensures id in s.tickets && s.tickets[id].destination == Next(limits, s, move).tickets[id].destination
    ensures var verdict := Verdict(Next(limits, s, move).tickets[id]);
            if move == TurnAway(id)
            then Blocked(s, s.tickets[id]) && (verdict.value.GlobalAdmission? <==> s.tickets[id].phase.AtGlobal?)
            else Verdict(s.tickets[id]) == verdict
  {
  }

  /** A rejection by `admit` names a limit whose permits were all held when the caller was turned away. */
  lemma {:induction false} RejectionsAreForced(limits: Limits, story: Story<State, Move>, id: TicketId)
    requires limits.Valid() && Told(limits, story) && id in Now(limits, story).tickets
    requires Verdict(Now(limits, story).tickets[id]).Some?
    ensures Forced(
              limits, story, id, Verdict(Now(limits, story).tickets[id]).value,
              Now(limits, story).tickets[id].destination)
  {
    match story
    case Opening(_) =>
    case Followed(before, move) =>
      var s := Now(limits, before);
      VerdictsComeFromTurningAway(limits, s, move, id);
      if move == TurnAway(id) {
        StoriesAreSound(limits, before);
        BlockedExactlyWhenAllHeld(limits, s, id);
      } else {
        RejectionsAreForced(limits, before, id);
      }
  }

  function TurnedAway(story: Story<State, Move>): nat {
    if story.Opening? then 0 else TurnedAway(story.before) + if story.move.TurnAway? then 1 else 0
  }

  lemma RejectionsSettle(limits: Limits, s: State, move: Move)
    requires Enabled(limits, s, move)
    ensures var after := Next(limits, s, move);
            after.rejected + Weight(BeingRefused, after.tickets, move.id) ==
            s.rejected + Weight(BeingRefused, s.tickets, move.id) + if move.TurnAway? || move.Drop? then 1 else 0
  {
  }

  /**
   The rejection counter counts every caller turned away, once, as soon as it is on its way out, and
   every drop that was reported. It has no third writer.
   */
  lemma {:induction false} RejectionsAreCounted(limits: Limits, story: Story<State, Move>)
    requires Told(limits, story)
    ensures Now(limits, story).rejected + Size(Now(limits, story).tickets, BeingRefused) ==
            TurnedAway(story) + Drops(story)
  {
    match story
    case Opening(s) => assert Members(s.tickets, BeingRefused) == {};
    case Followed(before, move) =>
      RejectionsAreCounted(limits, before);
      var s := Now(limits, before);
      OthersUntouched(limits, s, move);
      RejectionsSettle(limits, s, move);
      SizeAfter(s.tickets, Now(limits, story).tickets, move.id, BeingRefused);
  }

  /** A reported drop names the global limit whatever its permits do: it tells the truth exactly when none is free. */
  lemma DropsTellTheTruth(limits: Limits, s: State, move: Move)
    requires Sound(limits, s) && move.Drop? && Enabled(limits, s, move)
    ensures AllHeld(limits, s, GlobalAdmission, move.destination) <==> s.globalFree == 0
    ensures Next(limits, s, move) == s.(rejected := s.rejected + 1)
  {
  }

  // ---- The references and semaphores themselves -------------------------------------------

  datatype Overload = Overload(admissionCapacity: int, destinationId: DestinationId, limit: Limit)

  /** A ticket that came and went leaves nothing behind, whatever it went through. */
  lemma TicketIsGone(tickets: map<TicketId, Ticket>, id: TicketId, first: Ticket, last: Ticket)
    requires id !in tickets
    ensures tickets[id := first] - {id} == tickets && tickets[id := first][id := last] - {id} == tickets
  {
  }

  /** The permits of a destination after one was taken and returned. */
  lemma PermitIsBack(semaphores: map<DestinationId, int>, d: DestinationId, permits: int)
    ensures semaphores[d := permits - 1][d := permits] == semaphores[d := permits]
    ensures d in semaphores && semaphores[d] == permits ==> semaphores[d := permits] == semaphores
  {
  }

  /**
   The mutable part: each method is one atomic step of the source, made for the ticket named by its ghost
   argument.
   */
  class Gate {
    const limits: Limits
    var globalFree: int
    var semaphores: map<DestinationId, int>
    var total: int
    var byDestination: map<DestinationId, int>
    var rejected: int
    ghost var tickets: map<TicketId, Ticket>

    ghost function Contents(): State
      reads this
    {
      State(globalFree, semaphores, total, byDestination, rejected, tickets)
    }

    ghost predicate Valid()
      reads this
    {
      Sound(limits, Contents()) && LookedUp(Contents())
    }

    ghost predicate Stands(id: TicketId, d: DestinationId, phase: Phase)
      reads this
    {
      Valid() && id in tickets && tickets[id] == Ticket(d, phase)
    }

    constructor (limits: Limits)
      requires limits.Valid()
      ensures this.limits == limits && Contents() == Fresh(limits) && Valid()
    {
      this.limits := limits;
      globalFree, semaphores, total, byDestination, rejected := limits.global, map[], 0, map[], 0;
      tickets := map[];
      new;
      FreshIsSound(limits);
    }

    ghost method Arrive(id: TicketId, d: DestinationId)
      requires Valid() && id !in tickets
      modifies this`tickets
      ensures Contents() == Next(limits, old(Contents()), Move.Arrive(id, d)) && Stands(id, d, Arriving)
    {
      MovesKeepSound(limits, Contents(), Move.Arrive(id, d));
      tickets := tickets[id := Ticket(d, Arriving)];
    }

    method SemaphoreFor(ghost id: TicketId, d: DestinationId)
      requires Stands(id, d, Arriving)
      modifies this`semaphores, this`tickets
      ensures Contents() == Next(limits, old(Contents()), Step(id)) && Stands(id, d, AtDestination)
    {
      MovesKeepSound(limits, Contents(), Step(id));
      if d !in semaphores {
        semaphores := semaphores[d := limits.perDestination];
      }
      tickets := tickets[id := Ticket(d, AtDestination)];
    }

    /** A waiting caller without a permit stays where it is; a trying one is turned away. */
    method TakeDestination(ghost id: TicketId, d: DestinationId) returns (granted: bool)
      requires Stands(id, d, AtDestination)
      modifies this`semaphores, this`tickets
      ensures Valid() && (granted <==> old(Enabled(limits, Contents(), Step(id))))
      ensures granted <==> !old(AllHeld(limits, Contents(), DestinationAdmission, d))
      ensures Contents() ==
              if granted then Next(limits, old(Contents()), Step(id))
              else if limits.waits then old(Contents())
              else Next(limits, old(Contents()), TurnAway(id))
    {
      BlockedExactlyWhenAllHeld(limits, Contents(), id);
      granted := semaphores[d] > 0;
      ghost var move := if granted then Step(id) else TurnAway(id);
      if granted || !limits.waits {
        MovesKeepSound(limits, Contents(), move);
      }
      if granted {
        semaphores := semaphores[d := semaphores[d] - 1];
        tickets := tickets[id := Ticket(d, AtGlobal)];
      } else if !limits.waits {
        tickets := tickets[id := Ticket(d, Refused(DestinationAdmission))];
      }
    }

    method TakeGlobal(ghost id: TicketId, ghost d: DestinationId) returns (granted: bool)
      requires Stands(id, d, AtGlobal)
      modifies this`globalFree, this`tickets
      ensures Valid() && (granted <==> old(Enabled(limits, Contents(), Step(id))))
      ensures granted <==> !old(AllHeld(limits, Contents(), GlobalAdmission, d))
      ensures Contents() ==
              if granted then Next(limits, old(Contents()), Step(id))
              else if limits.waits then old(Contents())
              else Next(limits, old(Contents()), TurnAway(id))
    {
      BlockedExactlyWhenAllHeld(limits, Contents(), id);
      granted := globalFree > 0;
      ghost var move := if granted then Step(id) else TurnAway(id);
      if granted || !limits.waits {
        MovesKeepSound(limits, Contents(), move);
      }
      if granted {
        globalFree := globalFree - 1;
        tickets := tickets[id := Ticket(d, Entering)];
      } else if !limits.waits {
        tickets := tickets[id := Ticket(d, Returning(true))];
      }
    }

    method Count(ghost id: TicketId, d: DestinationId, adjustment: int)
      requires adjustment == 1 || adjustment == -1
      requires Stands(id, d, if adjustment == 1 then Entering else Inside)
      modifies this`total, this`byDestination, this`tickets
      ensures Valid() && Contents() == Next(limits, old(Contents()), Step(id))
      ensures 0 <= total <= limits.global && 0 <= At(byDestination, d) <= limits.perDestination
    {
      MovesKeepSound(limits, Contents(), Step(id));
      var count := (if d in byDestination then byDestination[d] else 0) + adjustment;
      if count == 0 {
        byDestination := byDestination - {d};
      } else {
        byDestination := byDestination[d := count];
      }
      total := total + adjustment;
      tickets := tickets[id := Ticket(d, if adjustment == 1 then Inside else Leaving)];
      CountsStayWithinLimits(limits, Contents(), d);
    }

    method ReturnGlobal(ghost id: TicketId, ghost d: DestinationId)
      requires Stands(id, d, Leaving)
      modifies this`globalFree, this`tickets
      ensures Valid() && Contents() == Next(limits, old(Contents()), Step(id))
    {
      MovesKeepSound(limits, Contents(), Step(id));
      globalFree := globalFree + 1;
      tickets := tickets[id := Ticket(d, Returning(false))];
    }

    method ReturnDestination(ghost id: TicketId, d: DestinationId, ghost refused: bool)
      requires Stands(id, d, Returning(refused))
      modifies this`semaphores, this`tickets
      ensures Valid() && Contents() == Next(limits, old(Contents()), Step(id))
    {
      MovesKeepSound(limits, Contents(), Step(id));
      semaphores := semaphores[d := semaphores[d] + 1];
      tickets := if refused then tickets[id := Ticket(d, Refused(GlobalAdmission))] else tickets - {id};
    }

    /**
     `overload`, which `reject` exports as well: it reports a ticket that was turned away, or an offer that
     the dispatch queue dropped, and which has no ticket.
     */
    method Reject(ghost id: TicketId, d: DestinationId, limit: Limit) returns (error: Overload)
      requires Valid() && (id in tickets ==> Stands(id, d, Refused(limit)))
      modifies this`rejected, this`tickets
      ensures Valid()
              && Contents() == Next(limits, old(Contents()), if id in old(tickets) then Step(id) else Drop(id, d))
      ensures rejected == old(rejected) + 1
      ensures error == Overload(if limit.GlobalAdmission? then limits.global else limits.perDestination, d, limit)
    {
      MovesKeepSound(limits, Contents(), if id in tickets then Step(id) else Drop(id, d));
      rejected := rejected + 1;
      tickets := tickets - {id};
      assert id !in old(tickets) ==> tickets == old(tickets);
      error := Overload(if limit.GlobalAdmission? then limits.global else limits.perDestination, d, limit);
    }

    /** The exported `reject`: an offer without a ticket is counted and reported, and nothing else moves. */
    method RejectOffer(ghost name: TicketId, d: DestinationId) returns (error: Overload)
      requires Valid() && name !in tickets
      modifies this`rejected, this`tickets
      ensures Valid() && tickets == old(tickets) && rejected == old(rejected) + 1
      ensures error == Overload(limits.global, d, GlobalAdmission)
    {
      DropsTellTheTruth(limits, Contents(), Drop(name, d));
      error := Reject(name, d, GlobalAdmission);
    }

    /** The acquire, use and release of a counted task. */
    method Run(ghost id: TicketId, d: DestinationId)
      requires Stands(id, d, Entering)
      modifies this`total, this`byDestination, this`tickets
      ensures Stands(id, d, Leaving) && total == old(total) && byDestination == old(byDestination)
      ensures tickets == old(tickets)[id := Ticket(d, Leaving)]
    {
      assert Balanced(limits, Contents(), d);
      AdjustAndBack(byDestination, d);
      Count(id, d, 1);
      Count(id, d, -1);
    }

    method ReturnBoth(ghost id: TicketId, d: DestinationId)
      requires Stands(id, d, Leaving)
      modifies this`globalFree, this`semaphores, this`tickets
      ensures Valid() && tickets == old(tickets) - {id} && globalFree == old(globalFree) + 1
      ensures d in old(semaphores) && semaphores == old(semaphores)[d := old(semaphores)[d] + 1]
    {
      ReturnGlobal(id, d);
      ReturnDestination(id, d, false);
    }

    /** The inner of the two brackets: whoever has the destination's permit gives it back, admitted or not. */
    method AdmitGlobally(ghost id: TicketId, d: DestinationId) returns (admitted: bool)
      requires Stands(id, d, AtGlobal) && !limits.waits
      modifies this
      ensures Valid() && admitted == (old(globalFree) > 0)
      ensures globalFree == old(globalFree) && total == old(total) && byDestination == old(byDestination)
      ensures rejected == old(rejected)
      ensures d in old(semaphores) && semaphores == old(semaphores)[d := old(semaphores)[d] + 1]
      ensures tickets ==
              if admitted then old(tickets) - {id} else old(tickets)[id := Ticket(d, Refused(GlobalAdmission))]
    {
      admitted := TakeGlobal(id, d);
      if admitted {
        Run(id, d);
        ReturnBoth(id, d);
      } else {
        ReturnDestination(id, d, true);
      }
    }

    method LookUp(ghost id: TicketId, d: DestinationId)
      requires Valid() && id !in tickets
      modifies this`semaphores, this`tickets
      ensures Stands(id, d, AtDestination) && d in semaphores
      ensures semaphores == old(if d in semaphores then semaphores else semaphores[d := limits.perDestination])
      ensures tickets == old(tickets)[id := Ticket(d, AtDestination)]
    {
      Arrive(id, d);
      SemaphoreFor(id, d);
    }

    /** The outer of the two brackets, up to its permit. */
    method AdmitAtDestination(ghost id: TicketId, d: DestinationId) returns (granted: bool)
      requires Valid() && id !in tickets && !limits.waits
      modifies this`semaphores, this`tickets
      ensures Valid() && d in semaphores
      ensures granted == old(d in semaphores ==> semaphores[d] > 0)
      ensures var permits := old(if d in semaphores then semaphores[d] else limits.perDestination);
              semaphores == old(semaphores)[d := if granted then permits - 1 else permits]
      ensures tickets == old(tickets)[id := Ticket(d, if granted then AtGlobal else Refused(DestinationAdmission))]
    {
      LookUp(id, d);
      granted := TakeDestination(id, d);
    }

    method Refuse(ghost id: TicketId, d: DestinationId, limit: Limit) returns (refusal: Option<Overload>)
      requires Stands(id, d, Refused(limit))
      modifies this`rejected, this`tickets
      ensures Valid() && rejected == old(rejected) + 1 && tickets == old(tickets) - {id}
      ensures refusal == Some(
                Overload(if limit.GlobalAdmission? then limits.global else limits.perDestination, d, limit))
    {
      var error := Reject(id, d, limit);
      refusal := Some(error);
    }

    /**
     A whole call of `admit` that nobody else interleaves with, its task aside: it goes through exactly
     when both limits have room, and it leaves permits and counts as it found them either way.
     */
    method Admit(ghost id: TicketId, d: DestinationId) returns (refusal: Option<Overload>)
      requires Valid() && id !in tickets && !limits.waits
      modifies this
      ensures Valid() && tickets == old(tickets) && globalFree == old(globalFree)
      ensures total == old(total) && byDestination == old(byDestination)
      ensures semaphores == old(if d in semaphores then semaphores else semaphores[d := limits.perDestination])
      ensures refusal.None? <==> old((d in semaphores ==> semaphores[d] > 0) && globalFree > 0)
      ensures refusal.Some? ==>
                refusal.value ==
                if old(d in semaphores && semaphores[d] <= 0)
                then Overload(limits.perDestination, d, DestinationAdmission)
                else Overload(limits.global, d, GlobalAdmission)
      ensures rejected == old(rejected) + if refusal.Some? then 1 else 0
    {
      TicketIsGone(tickets, id, Ticket(d, AtGlobal), Ticket(d, Refused(GlobalAdmission)));
      TicketIsGone(tickets, id, Ticket(d, Refused(DestinationAdmission)), Ticket(d, Refused(DestinationAdmission)));
      PermitIsBack(semaphores, d, if d in semaphores then semaphores[d] else limits.perDestination);
      refusal := None;
      var granted := AdmitAtDestination(id, d);
      if !granted {
        refusal := Refuse(id, d, DestinationAdmission);
      } else {
        var admitted := AdmitGlobally(id, d);
        if !admitted {
          refusal := Refuse(id, d, GlobalAdmission);
        }
      }
    }
  }
}

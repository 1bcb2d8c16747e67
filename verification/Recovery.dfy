/** Finding lost work again: which deliveries a reconciliation pass claims, and that none is left behind. */
module Recovery {
  import opened Domain
  import opened Ledger

  /** The eligible deliveries among `order`, in that order. */
  function Waiting(l: Ledger, order: seq<DeliveryId>, destination: DestinationId, now: int): seq<DeliveryId> {
    if |order| == 0 then []
    else
      var last := order[|order| - 1];
      Waiting(l, order[..|order| - 1], destination, now) + if l.Eligible(last, destination, now) then [last] else []
  }

  function First<T>(s: seq<T>, limit: int): seq<T> {
    if limit <= 0 then [] else if |s| <= limit then s else s[..limit]
  }

  /** What the memory adapter selects: the first `limit` eligible deliveries in insertion order. */
  function Selected(l: Ledger, destination: DestinationId, limit: int, now: int): seq<DeliveryId> {
    First(Waiting(l, l.order, destination, now), limit)
  }

  lemma {:induction false} WaitingAreEligible(l: Ledger, order: seq<DeliveryId>, destination: DestinationId, now: int)
    requires Distinct(order)
    ensures Distinct(Waiting(l, order, destination, now))
    ensures forall id :: id in Waiting(l, order, destination, now) <==> id in order && l.Eligible(id, destination, now)
  {
    if |order| == 0 {
    } else {
      var before := order[..|order| - 1];
      WaitingAreEligible(l, before, destination, now);
      assert order == before + [order[|order| - 1]];
      assert order[|order| - 1] !in before;
    }
  }

  /** Whether `a` comes before `b`, or is it. */
  predicate NoLater(order: seq<DeliveryId>, a: DeliveryId, b: DeliveryId) {
    exists i, j :: 0 <= i <= j < |order| && order[i] == a && order[j] == b
  }

  /** The queue keeps the order of insertion. */
  lemma {:induction false} QueueIsInOrder(
    l: Ledger, order: seq<DeliveryId>, destination: DestinationId, now: int, a: nat, b: nat)
    requires Distinct(order) && a <= b < |Waiting(l, order, destination, now)|
    ensures NoLater(order, Waiting(l, order, destination, now)[a], Waiting(l, order, destination, now)[b])
  {
    var before, last := order[..|order| - 1], order[|order| - 1];
    var queue := Waiting(l, before, destination, now);
    if b < |queue| {
      QueueIsInOrder(l, before, destination, now, a, b);
      var i, j :| 0 <= i <= j < |before| && before[i] == queue[a] && before[j] == queue[b];
      assert order[i] == queue[a] && order[j] == queue[b];
    } else {
      WaitingAreEligible(l, before, destination, now);
      if a < |queue| {
        assert queue[a] in queue;
        var i :| 0 <= i < |before| && before[i] == queue[a];
        assert order[i] == queue[a] && order[|order| - 1] == last;
      } else {
        assert order[|order| - 1] == last;
      }
    }
  }

  lemma SelectionIsOffered(l: Ledger, ownerId: WorkerId, destination: DestinationId, limit: int, lease: int, now: int)
    requires OrderValid(l)
    ensures Offered(l, now, ClaimPending(ownerId, destination, limit, lease, Selected(l, destination, limit, now)))
  {
    WaitingAreEligible(l, l.order, destination, now);
  }

  // ---- Nothing Pending is stranded --------------------------------------------------------

  /** The finite time from which a Pending delivery can be claimed. */
  function DueAt(row: Row): int {
    if row.claim.Some? && row.claim.value.leaseExpiresAtMillis > row.nextEligibleAt
    then row.claim.value.leaseExpiresAtMillis else row.nextEligibleAt
  }

  lemma PendingBecomesClaimable(l: Ledger, id: DeliveryId, now: int)
    requires Valid(l) && id in l.rows && l.rows[id].Pending()
    ensures l.Eligible(id, l.rows[id].delivery.destinationId, now) <==> now >= DueAt(l.rows[id])
  {
  }

  // ---- Repeated passes cover everything ---------------------------------------------------

  /** Repeated claims at one clock reading: the ledger they leave and the deliveries they took, in order. */
  function Passes(
    l: Ledger, ownerId: WorkerId, destination: DestinationId, limit: int, lease: int, now: int, passes: nat
  ): (Ledger, seq<DeliveryId>)
    decreases passes
  {
    if passes == 0 then (l, [])
    else
      var batch := Selected(l, destination, limit, now);
      var rest := Passes(Claiming(l, now, ownerId, lease, batch), ownerId, destination, limit, lease, now, passes - 1);
      (rest.0, batch + rest.1)
  }

  lemma EligibleAfterClaiming(
    l: Ledger, ownerId: WorkerId, lease: int, now: int, batch: seq<DeliveryId>, id: DeliveryId,
    destination: DestinationId)
    requires lease > 0
    ensures Claiming(l, now, ownerId, lease, batch).Eligible(id, destination, now) <==>
            l.Eligible(id, destination, now) && id !in batch
  {
  }

  function Without(queue: seq<DeliveryId>, taken: nat): seq<DeliveryId> {
    if |queue| <= taken then [] else queue[taken..]
  }

  lemma WithoutSnoc(queue: seq<DeliveryId>, last: DeliveryId, taken: nat)
    ensures Without(queue + [last], taken) == if |queue| < taken then [] else Without(queue, taken) + [last]
  {
  }

  /** Claiming the first few waiting deliveries takes exactly those out of the queue. */
  lemma {:induction false} ClaimingShortensQueue(
    l: Ledger, order: seq<DeliveryId>, queue: seq<DeliveryId>,
    ownerId: WorkerId, destination: DestinationId, taken: nat, lease: int, now: int)
    requires lease > 0 && Distinct(queue) && taken <= |queue|
    requires Waiting(l, order, destination, now) <= queue
    ensures Waiting(Claiming(l, now, ownerId, lease, queue[..taken]), order, destination, now) ==
            Without(Waiting(l, order, destination, now), taken)
  {
    if |order| == 0 {
    } else {
      var last := order[|order| - 1];
      var before := Waiting(l, order[..|order| - 1], destination, now);
      ClaimingShortensQueue(l, order[..|order| - 1], queue, ownerId, destination, taken, lease, now);
      EligibleAfterClaiming(l, ownerId, lease, now, queue[..taken], last, destination);
      if l.Eligible(last, destination, now) {
        WithoutSnoc(before, last, taken);
        InFirst(queue, |before|, taken);
      }
    }
  }

  lemma InFirst(queue: seq<DeliveryId>, k: nat, taken: nat)
    requires Distinct(queue) && k < |queue| && taken <= |queue|
    ensures queue[k] in queue[..taken] <==> k < taken
  {
    if k < taken {
      assert queue[..taken][k] == queue[k];
    }
  }

  lemma {:induction false} BatchesFollowTheQueue(
    l: Ledger, ownerId: WorkerId, destination: DestinationId, limit: int, lease: int, now: int, passes: nat)
    requires OrderValid(l) && limit >= 1 && lease > 0
    ensures var queue := Waiting(l, l.order, destination, now);
            var (after, taken) := Passes(l, ownerId, destination, limit, lease, now, passes);
            && taken == First(queue, passes * limit)
            && (passes * limit >= |queue| ==> taken == queue && Waiting(after, after.order, destination, now) == [])
    decreases passes
  {
    var queue := Waiting(l, l.order, destination, now);
    if passes > 0 {
      WaitingAreEligible(l, l.order, destination, now);
      var batch := Selected(l, destination, limit, now);
      var next := Claiming(l, now, ownerId, lease, batch);
      assert batch == queue[..|batch|];
      ClaimingShortensQueue(l, l.order, queue, ownerId, destination, |batch|, lease, now);
      BatchesFollowTheQueue(next, ownerId, destination, limit, lease, now, passes - 1);
      FirstInTwo(queue, limit, passes);
    } else {
      assert queue[..0] == [];
    }
  }

  lemma FirstInTwo(queue: seq<DeliveryId>, limit: int, passes: nat)
    requires limit >= 1 && passes >= 1
    ensures First(queue, passes * limit) ==
            First(queue, limit) + First(Without(queue, |First(queue, limit)|), (passes - 1) * limit)
    ensures (passes - 1) * limit >= |Without(queue, |First(queue, limit)|)| <==> passes * limit >= |queue|
  {
    assert passes * limit == limit + (passes - 1) * limit;
    assert (passes - 1) * limit >= 0;
  }

  /**
   Repeated passes hand out the waiting deliveries once each, in order, `limit` at a time: the
   batches are disjoint, and after k passes with k * limit at least the number waiting, all of
   them have been claimed.
   */
  lemma PassesCoverTheQueue(
    l: Ledger, ownerId: WorkerId, destination: DestinationId, limit: int, lease: int, now: int, passes: nat)
    requires OrderValid(l) && limit >= 1 && lease > 0
    ensures var queue := Waiting(l, l.order, destination, now);
            var (after, taken) := Passes(l, ownerId, destination, limit, lease, now, passes);
            && taken == First(queue, passes * limit)
            && Distinct(taken)
            && (passes * limit >= |queue| ==> taken == queue && Waiting(after, after.order, destination, now) == [])
  {
    WaitingAreEligible(l, l.order, destination, now);
    BatchesFollowTheQueue(l, ownerId, destination, limit, lease, now, passes);
  }

  /** A Pending delivery that is due is claimed within as many passes as cover the queue before it. */
  lemma DueDeliveryIsClaimed(
    l: Ledger, id: DeliveryId, ownerId: WorkerId, limit: int, lease: int, now: int, passes: nat)
    requires Valid(l) && limit >= 1 && lease > 0
    requires id in l.rows && l.rows[id].Pending() && now >= DueAt(l.rows[id])
    requires passes * limit >= |Waiting(l, l.order, l.rows[id].delivery.destinationId, now)|
    ensures id in Passes(l, ownerId, l.rows[id].delivery.destinationId, limit, lease, now, passes).1
  {
    var destination := l.rows[id].delivery.destinationId;
    WaitingAreEligible(l, l.order, destination, now);
    PassesCoverTheQueue(l, ownerId, destination, limit, lease, now, passes);
  }

  // ---- Any order of claiming --------------------------------------------------------------

  /** The deliveries of a destination that may be claimed now. */
  function EligibleSet(l: Ledger, destination: DestinationId, now: int): set<DeliveryId> {
    set id | id in l.rows && l.Eligible(id, destination, now)
  }

  function Least(a: nat, b: nat): nat { if a < b then a else b }

  /**
   A claim that takes as many as it may of those there are, in whatever order: by identifier, by insertion, or
   any other.
   */
  predicate Greedy(l: Ledger, destination: DestinationId, now: int, limit: nat, batch: seq<DeliveryId>) {
    && Distinct(batch)
    && (forall id :: id in batch ==> l.Eligible(id, destination, now))
    && |batch| == Least(limit, |EligibleSet(l, destination, now)|)
  }

  predicate GreedyPasses(
    l: Ledger, ownerId: WorkerId, destination: DestinationId, limit: nat, lease: int, now: int,
    batches: seq<seq<DeliveryId>>)
    decreases |batches|
  {
    |batches| > 0 ==>
      && Greedy(l, destination, now, limit, batches[0])
      && GreedyPasses(
           Claiming(l, now, ownerId, lease, batches[0]), ownerId, destination, limit, lease, now, batches[1..])
  }

  function ClaimedAll(l: Ledger, ownerId: WorkerId, lease: int, now: int, batches: seq<seq<DeliveryId>>): Ledger
    decreases |batches|
  {
    if |batches| == 0 then l
    else ClaimedAll(Claiming(l, now, ownerId, lease, batches[0]), ownerId, lease, now, batches[1..])
  }

  function Elements(batch: seq<DeliveryId>): set<DeliveryId> { set id | id in batch }

  function Together(batches: seq<seq<DeliveryId>>): set<DeliveryId> {
    if |batches| == 0 then {} else Elements(batches[0]) + Together(batches[1..])
  }

  function Lengths(batches: seq<seq<DeliveryId>>): nat {
    if |batches| == 0 then 0 else |batches[0]| + Lengths(batches[1..])
  }

  lemma {:induction false} DistinctElements(batch: seq<DeliveryId>)
    requires Distinct(batch)
    ensures |Elements(batch)| == |batch|
  {
    if |batch| == 0 {
    } else {
      var last := batch[|batch| - 1];
      DistinctElements(batch[..|batch| - 1]);
      assert batch == batch[..|batch| - 1] + [last];
      assert Elements(batch) == Elements(batch[..|batch| - 1]) + {last};
    }
  }

  lemma ClaimingRemoves(
    l: Ledger, ownerId: WorkerId, destination: DestinationId, lease: int, now: int, batch: seq<DeliveryId>)
    requires lease > 0
    ensures EligibleSet(Claiming(l, now, ownerId, lease, batch), destination, now) ==
            EligibleSet(l, destination, now) - Elements(batch)
  {
    forall id
      ensures id in EligibleSet(Claiming(l, now, ownerId, lease, batch), destination, now) <==>
              id in EligibleSet(l, destination, now) - Elements(batch)
    {
      EligibleAfterClaiming(l, ownerId, lease, now, batch, id, destination);
    }
  }

  lemma OneMoreBatch(eligible: set<DeliveryId>, first: set<DeliveryId>, later: set<DeliveryId>, limit: nat, k: nat)
    requires first <= eligible && |first| == Least(limit, |eligible|)
    requires later <= eligible - first && |later| == Least(k * limit, |eligible - first|)
    ensures first + later <= eligible
    ensures |first + later| == |first| + |later| == Least((k + 1) * limit, |eligible|)
    ensures (k + 1) * limit >= |eligible| ==> first + later == eligible
  {
    assert eligible == first + (eligible - first);
    assert (k + 1) * limit == limit + k * limit;
    if (k + 1) * limit >= |eligible| {
      assert |eligible - (first + later)| == 0;
      assert eligible == (first + later) + (eligible - (first + later));
    }
  }

  /** The claims took min(k * limit, n) of the n eligible deliveries, each once, and left exactly the others. */
  ghost predicate Covers(
    l: Ledger, after: Ledger, destination: DestinationId, now: int, taken: set<DeliveryId>, length: nat, bound: int)
  {
    var eligible := EligibleSet(l, destination, now);
    && taken <= eligible
    && EligibleSet(after, destination, now) == eligible - taken
    && |taken| == length == (if bound < |eligible| then bound else |eligible|)
    && (bound >= |eligible| ==> taken == eligible)
  }

  lemma CoversOneMore(
    l: Ledger, next: Ledger, after: Ledger, destination: DestinationId, now: int, batch: seq<DeliveryId>,
    later: set<DeliveryId>, length: nat, limit: nat, k: nat)
    requires Greedy(l, destination, now, limit, batch)
    requires EligibleSet(next, destination, now) == EligibleSet(l, destination, now) - Elements(batch)
    requires Covers(next, after, destination, now, later, length, k * limit)
    ensures Covers(l, after, destination, now, Elements(batch) + later, |batch| + length, (k + 1) * limit)
  {
    var eligible := EligibleSet(l, destination, now);
    DistinctElements(batch);
    assert k * limit >= 0 && (k + 1) * limit >= 0;
    OneMoreBatch(eligible, Elements(batch), later, limit, k);
    assert eligible - Elements(batch) - later == eligible - (Elements(batch) + later);
  }

  lemma NothingCovers(l: Ledger, destination: DestinationId, now: int)
    ensures Covers(l, l, destination, now, {}, 0, 0)
  {
    assert |EligibleSet(l, destination, now)| == 0 ==> EligibleSet(l, destination, now) == {};
  }

  lemma FirstBatchAndRest(batches: seq<seq<DeliveryId>>)
    requires |batches| > 0
    ensures Together(batches) == Elements(batches[0]) + Together(batches[1..])
    ensures Lengths(batches) == |batches[0]| + Lengths(batches[1..])
  {
  }

  /** What the later claims cover of what the first one left, and the first one, is what all of them cover. */
  lemma FirstPassAndRest(
    l: Ledger, next: Ledger, after: Ledger, ownerId: WorkerId, destination: DestinationId, limit: nat, lease: int,
    now: int, batches: seq<seq<DeliveryId>>)
    requires lease > 0 && |batches| > 0 && Greedy(l, destination, now, limit, batches[0])
    requires next == Claiming(l, now, ownerId, lease, batches[0])
    requires Covers(
               next, after, destination, now, Together(batches[1..]), Lengths(batches[1..]), |batches[1..]| * limit)
    ensures Covers(l, after, destination, now, Together(batches), Lengths(batches), |batches| * limit)
  {
    ClaimingRemoves(l, ownerId, destination, lease, now, batches[0]);
    CoversOneMore(
      l, next, after, destination, now, batches[0], Together(batches[1..]), Lengths(batches[1..]), limit,
      |batches[1..]|);
    FirstBatchAndRest(batches);
  }

  /**
   Whatever the order, k greedy claims at one clock reading take min(k * limit, n) of the n eligible
   deliveries, each once, and leave exactly the others eligible: none, as soon as k * limit reaches n.
   */
  lemma {:induction false} AnyPassesCover(
    l: Ledger, ownerId: WorkerId, destination: DestinationId, limit: nat, lease: int, now: int,
    batches: seq<seq<DeliveryId>>)
    requires lease > 0 && GreedyPasses(l, ownerId, destination, limit, lease, now, batches)
    ensures Covers(
              l, ClaimedAll(l, ownerId, lease, now, batches), destination, now,
              Together(batches), Lengths(batches), |batches| * limit)
    decreases |batches|
  {
    if |batches| == 0 {
      NothingCovers(l, destination, now);
    } else {
      var next := Claiming(l, now, ownerId, lease, batches[0]);
      AnyPassesCover(next, ownerId, destination, limit, lease, now, batches[1..]);
      FirstPassAndRest(
        l, next, ClaimedAll(l, ownerId, lease, now, batches), ownerId, destination, limit, lease, now, batches);
    }
  }

  /** The memory adapter's own selection is greedy. */
  lemma SelectionIsGreedy(l: Ledger, destination: DestinationId, limit: nat, now: int)
    requires OrderValid(l)
    ensures Greedy(l, destination, now, limit, Selected(l, destination, limit, now))
  {
    var waiting := Waiting(l, l.order, destination, now);
    WaitingAreEligible(l, l.order, destination, now);
    DistinctElements(waiting);
    assert Elements(waiting) == EligibleSet(l, destination, now);
  }
}

/** src/reconciler.ts: one pass, which claims a batch of lost deliveries and puts each on the queue. */
module Reconciler {
  import opened Domain
  import opened Ledger
  import opened MemoryPersistence
  import opened Recovery
  import Admission
  import EventIntake
  import Supervisor

  /** The ledger with the claims on these deliveries given back. */
  function Freed(l: Ledger, ids: seq<DeliveryId>): Ledger {
    l.(rows := map id | id in l.rows :: if id in ids then l.rows[id].(claim := None) else l.rows[id])
  }

  lemma FreedOneMore(l: Ledger, ids: seq<DeliveryId>, id: DeliveryId)
    requires id in l.rows
    ensures Freed(l, ids + [id]) == Freed(l, ids).With(id, l.rows[id].(claim := None))
  {
    assert Freed(l, ids + [id]).rows == Freed(l, ids).rows[id := l.rows[id].(claim := None)];
  }

  lemma FreedNone(l: Ledger)
    ensures Freed(l, []) == l
  {
    assert Freed(l, []).rows == l.rows;
  }

  /** Every entry names a different delivery, which is Pending with the claim that was handed out for it. */
  ghost predicate Handed(held: Ledger, batch: seq<ClaimedDelivery>, chosen: seq<DeliveryId>) {
    && Distinct(chosen) && |batch| == |chosen|
    && (forall i :: 0 <= i < |batch| ==>
          && batch[i].delivery.id == chosen[i] && chosen[i] in held.rows
          && held.rows[chosen[i]].Pending() && held.rows[chosen[i]].claim == Some(batch[i].claim))
  }

  /** A selected delivery is claimed, and its entry says so. */
  lemma SelectedIsHanded(
    l: Ledger, now: int, ownerId: WorkerId, destination: DestinationId, limit: int, lease: int, i: nat)
    requires OrderValid(l) && RowsValid(l) && i < |Selected(l, destination, limit, now)|
    ensures var chosen := Selected(l, destination, limit, now);
            && (forall id :: id in chosen ==> l.Eligible(id, destination, now))
            && l.Eligible(chosen[i], destination, now)
            && Claiming(l, now, ownerId, lease, chosen).rows[chosen[i]] ==
               After(l.rows[chosen[i]], Claimed(ownerId, now, lease))
            && ClaimedEntries(l, now, ownerId, lease, chosen)[i] == ClaimedEntry(l, now, ownerId, lease, chosen[i])
            && l.rows[chosen[i]].delivery.id == chosen[i]
  {
    SelectionIsOffered(l, ownerId, destination, limit, lease, now);
    assert Selected(l, destination, limit, now)[i] in Selected(l, destination, limit, now);
  }

  lemma ClaimedAreHanded(l: Ledger, now: int, ownerId: WorkerId, destination: DestinationId, limit: int, lease: int)
    requires OrderValid(l) && RowsValid(l)
    ensures var chosen := Selected(l, destination, limit, now);
            && (forall id :: id in chosen ==> l.Eligible(id, destination, now))
            && Handed(Claiming(l, now, ownerId, lease, chosen), ClaimedEntries(l, now, ownerId, lease, chosen), chosen)
  {
    var chosen := Selected(l, destination, limit, now);
    SelectionIsOffered(l, ownerId, destination, limit, lease, now);
    var held, batch := Claiming(l, now, ownerId, lease, chosen), ClaimedEntries(l, now, ownerId, lease, chosen);
    forall i | 0 <= i < |batch|
      ensures batch[i].delivery.id == chosen[i] && chosen[i] in held.rows
      ensures held.rows[chosen[i]].Pending() && held.rows[chosen[i]].claim == Some(batch[i].claim)
    {
      SelectedIsHanded(l, now, ownerId, destination, limit, lease, i);
    }
  }

  /** The part of the batch so far that did not fit in the queue. */
  function Unqueued(chosen: seq<DeliveryId>, room: nat, i: nat): seq<DeliveryId>
    requires i <= |chosen|
  {
    if i <= room then [] else chosen[room..i]
  }

  lemma UnqueuedOneMore(chosen: seq<DeliveryId>, room: nat, i: nat)
    requires i < |chosen| && Distinct(chosen)
    ensures chosen[i] !in Unqueued(chosen, room, i)
    ensures Unqueued(chosen, room, i + 1) ==
            if i < room then Unqueued(chosen, room, i) else Unqueued(chosen, room, i) + [chosen[i]]
  {
  }

  /** How long the queue is after `i` offers, if it had room for `room`. */
  function QueueAfter(capacity: nat, room: nat, i: nat): int {
    if i <= room then capacity - room + i else capacity
  }

  /** Offering the next delivery of the batch: it keeps its claim if the queue has room, and loses it otherwise. */
  method Resume(
    store: Store, dispatcher: Supervisor.Dispatcher, gate: Admission.Gate, entry: ClaimedDelivery,
    destination: DestinationId, now: int, ghost claimed: Ledger, ghost freed: seq<DeliveryId>,
    ghost name: Admission.TicketId)
    requires gate.Valid() && name !in gate.tickets
    requires store.Valid() && dispatcher.Valid() && store.contents == Freed(claimed, freed)
    requires entry.delivery.id in claimed.rows && entry.delivery.id !in freed
    requires claimed.rows[entry.delivery.id].Pending() && claimed.rows[entry.delivery.id].claim == Some(entry.claim)
    modifies store, dispatcher`requests, dispatcher`offered, dispatcher`contents, gate`rejected, gate`tickets
    ensures store.Valid() && dispatcher.Valid() && gate.Valid() && dispatcher.offered == old(dispatcher.offered) + 1
    ensures |dispatcher.requests| == old(|dispatcher.requests|) +
              if old(|dispatcher.requests|) < dispatcher.capacity then 1 else 0
    ensures store.contents ==
              Freed(
                claimed,
                if old(|dispatcher.requests|) < dispatcher.capacity then freed else freed + [entry.delivery.id])
    ensures gate.tickets == old(gate.tickets)
    ensures gate.rejected == old(gate.rejected) + if old(|dispatcher.requests|) < dispatcher.capacity then 0 else 1
  {
    FreedOneMore(claimed, freed, entry.delivery.id);
    EventIntake.ReleaseFrees(store.contents, now, entry.delivery.id, entry.claim);
    var offering := dispatcher.OfferClaimed(
      store, gate, entry, Supervisor.DestinationFor(entry, destination), now, name);
  }

  /** After `i` offers: the queue took what it had room for, and the others are unclaimed again and counted. */
  ghost predicate Resumed(
    store: Store, dispatcher: Supervisor.Dispatcher, gate: Admission.Gate, held: Ledger, chosen: seq<DeliveryId>,
    room: nat, offered: nat, rejected: int, i: nat)
    requires i <= |chosen|
    reads store, dispatcher, gate
  {
    && store.Valid() && dispatcher.Valid() && gate.Valid()
    && store.contents == Freed(held, Unqueued(chosen, room, i))
    && |dispatcher.requests| == QueueAfter(dispatcher.capacity, room, i)
    && dispatcher.offered == offered + i
    && gate.rejected == rejected + |Unqueued(chosen, room, i)|
  }

  lemma NothingResumed(
    store: Store, dispatcher: Supervisor.Dispatcher, gate: Admission.Gate, chosen: seq<DeliveryId>, room: nat)
    requires store.Valid() && dispatcher.Valid() && gate.Valid() && |dispatcher.requests| + room == dispatcher.capacity
    ensures Resumed(store, dispatcher, gate, store.contents, chosen, room, dispatcher.offered, gate.rejected, 0)
  {
    FreedNone(store.contents);
  }

  method ResumeEntry(
    store: Store, dispatcher: Supervisor.Dispatcher, gate: Admission.Gate, batch: seq<ClaimedDelivery>, i: nat,
    destination: DestinationId, now: int, ghost held: Ledger, ghost chosen: seq<DeliveryId>, ghost room: nat,
    ghost offered: nat, ghost rejected: int, ghost name: Admission.TicketId)
    requires Handed(held, batch, chosen) && i < |batch| && room <= dispatcher.capacity
    requires Resumed(store, dispatcher, gate, held, chosen, room, offered, rejected, i) && name !in gate.tickets
    modifies store, dispatcher`requests, dispatcher`offered, dispatcher`contents, gate`rejected, gate`tickets
    ensures Resumed(store, dispatcher, gate, held, chosen, room, offered, rejected, i + 1)
    ensures gate.tickets == old(gate.tickets)
  {
    UnqueuedOneMore(chosen, room, i);
    Resume(store, dispatcher, gate, batch[i], destination, now, held, Unqueued(chosen, room, i), name);
  }

  method ResumeAll(
    store: Store, dispatcher: Supervisor.Dispatcher, gate: Admission.Gate, batch: seq<ClaimedDelivery>,
    destination: DestinationId, now: int, ghost chosen: seq<DeliveryId>, ghost room: nat,
    ghost name: Admission.TicketId)
    requires gate.Valid() && name !in gate.tickets
    requires store.Valid() && dispatcher.Valid() && Handed(store.contents, batch, chosen)
    requires |dispatcher.requests| + room == dispatcher.capacity
    modifies store, dispatcher`requests, dispatcher`offered, dispatcher`contents, gate`rejected, gate`tickets
    ensures Resumed(
              store, dispatcher, gate, old(store.contents), chosen, room, old(dispatcher.offered), old(gate.rejected),
              |chosen|)
  {
    ghost var held, offered, rejected := store.contents, dispatcher.offered, gate.rejected;
    NothingResumed(store, dispatcher, gate, chosen, room);
    for i := 0 to |batch|
      invariant Resumed(store, dispatcher, gate, held, chosen, room, offered, rejected, i)
      invariant gate.tickets == old(gate.tickets)
    {
      ResumeEntry(store, dispatcher, gate, batch, i, destination, now, held, chosen, room, offered, rejected, name);
    }
  }

  /** The batch of a pass: what the store selected, each entry now claimed by the service. */
  method ClaimBatch(
    store: Store, ownerId: WorkerId, destination: DestinationId, batchSize: nat, lease: int, now: int)
    returns (batch: seq<ClaimedDelivery>)
    requires store.Valid() && RowsValid(store.contents)
    modifies store`claims, store`generations, store`contents
    ensures store.Valid()
    ensures var chosen := Selected(old(store.contents), destination, batchSize, now);
            && |batch| == |chosen| <= batchSize
            && store.contents == Claiming(old(store.contents), now, ownerId, lease, chosen)
            && Handed(store.contents, batch, chosen)
  {
    ClaimedAreHanded(store.contents, now, ownerId, destination, batchSize, lease);
    batch := store.ClaimPending(ownerId, destination, batchSize, lease, now);
  }

  /**
   One pass that nobody else interleaves with, the wait for results aside. It claims what the store
   selects, offers every claimed delivery once, and leaves no claim without a queued job: the deliveries
   that did not fit in the queue are unclaimed again and counted as rejections.
   */
  method ReconcileOnce(
    store: Store, dispatcher: Supervisor.Dispatcher, gate: Admission.Gate,
    ownerId: WorkerId, destination: DestinationId, batchSize: nat, lease: int, now: int, ghost name: Admission.TicketId)
    returns (claimed: nat)
    requires gate.Valid() && name !in gate.tickets
    requires store.Valid() && RowsValid(store.contents) && dispatcher.Valid()
    modifies store, dispatcher`requests, dispatcher`offered, dispatcher`contents, gate`rejected, gate`tickets
    ensures var chosen := Selected(old(store.contents), destination, batchSize, now);
            var room := dispatcher.capacity - old(|dispatcher.requests|);
            && claimed == |chosen| <= batchSize && room >= 0
            && Resumed(
                 store, dispatcher, gate, Claiming(old(store.contents), now, ownerId, lease, chosen), chosen, room,
                 old(dispatcher.offered), old(gate.rejected), claimed)
  {
    ghost var chosen := Selected(store.contents, destination, batchSize, now);
    var batch := ClaimBatch(store, ownerId, destination, batchSize, lease, now);
    ghost var room := dispatcher.capacity - |dispatcher.requests|;
    ResumeAll(store, dispatcher, gate, batch, destination, now, chosen, room, name);
    claimed := |batch|;
  }
}

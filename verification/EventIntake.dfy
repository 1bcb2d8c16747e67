/** src/eventIntake.ts: idempotent event acceptance, on any store run and on the adapters themselves. */
module EventIntake {
  import opened Domain
  import opened Ledger
  import opened Runs
  import opened MemoryPersistence
  import Admission
  import Supervisor

  // ---- The text behind a request fingerprint ----------------------------------------------

  /** What the schema lets through; the topic is a single literal and amounts are positive integers. */
  datatype Submission = Submission(invoiceId: string, amountCents: nat)

  const NEWLINE := "\n"

  function Digit(n: nat): char
    requires n < 10
  {
    "0123456789"[n]
  }

  function Digits(n: nat): (s: string)
    ensures |s| > 0 && (|s| == 1 <==> n < 10)
    ensures forall i :: 0 <= i < |s| ==> '0' <= s[i] <= '9'
  {
    if n < 10 then [Digit(n)] else Digits(n / 10) + [Digit(n % 10)]
  }

  function Normalized(s: Submission): string {
    "relay-intake-v1" + NEWLINE + "invoice.created" + NEWLINE + s.invoiceId + NEWLINE + Digits(s.amountCents)
  }

  /** The number that a string of digits denotes. */
  function Denoted(s: string): int {
    if |s| == 0 then 0 else 10 * Denoted(s[..|s| - 1]) + (s[|s| - 1] as int - '0' as int)
  }

  /** The amount is written in decimal, without leading zeros. */
  lemma {:induction false} DigitsDenote(n: nat)
    ensures Denoted(Digits(n)) == n
    ensures n > 0 ==> Digits(n)[0] != '0'
  {
    var s := Digits(n);
    if n < 10 {
      assert Denoted(s[..0]) == 0;
    } else {
      DigitsDenote(n / 10);
      assert s[..|s| - 1] == Digits(n / 10);
    }
  }

  function Joined(lines: seq<string>): string {
    if |lines| == 0 then ""
    else if |lines| == 1 then lines[0]
    else lines[0] + NEWLINE + Joined(lines[1..])
  }

  lemma FourJoined(a: string, b: string, c: string, d: string)
    ensures Joined([a, b, c, d]) == a + NEWLINE + b + NEWLINE + c + NEWLINE + d
  {
    assert [a, b, c, d][1..] == [b, c, d] && [b, c, d][1..] == [c, d] && [c, d][1..] == [d];
    var rest := c + NEWLINE + d;
    assert Joined([c, d]) == rest;
    assert Joined([b, c, d]) == b + NEWLINE + rest;
    assert a + NEWLINE + (b + NEWLINE + rest) == a + NEWLINE + b + NEWLINE + c + NEWLINE + d;
  }

  /** The text that a submission's digest is taken of has four lines, the last of which is the amount. */
  lemma NormalizedHasFourLines(s: Submission)
    ensures Normalized(s) == Joined(["relay-intake-v1", "invoice.created", s.invoiceId, Digits(s.amountCents)])
  {
    FourJoined("relay-intake-v1", "invoice.created", s.invoiceId, Digits(s.amountCents));
  }

  lemma {:induction false} DigitsAreInjective(m: nat, n: nat)
    requires Digits(m) == Digits(n)
    ensures m == n
  {
    var s := Digits(m);
    if m >= 10 {
      assert Digits(m / 10) == s[..|s| - 1] == Digits(n / 10);
      DigitsAreInjective(m / 10, n / 10);
      assert Digit(m % 10) == s[|s| - 1] == Digit(n % 10);
    }
  }

  /**
   The last newline separates the amount, so different submissions never share a text, whatever the invoice id
   holds.
   */
  lemma NormalizedIsInjective(a: Submission, b: Submission)
    requires Normalized(a) == Normalized(b)
    ensures a == b
  {
    var prefix := "relay-intake-v1" + NEWLINE + "invoice.created" + NEWLINE;
    var x, y := Digits(a.amountCents), Digits(b.amountCents);
    var s, t := a.invoiceId + NEWLINE + x, b.invoiceId + NEWLINE + y;
    assert Normalized(a) == prefix + s && Normalized(b) == prefix + t;
    assert s == Normalized(a)[|prefix|..] && t == Normalized(b)[|prefix|..];
    LastSeparator(a.invoiceId, x, b.invoiceId, y);
    DigitsAreInjective(a.amountCents, b.amountCents);
  }

  lemma LastSeparator(a: string, x: string, b: string, y: string)
    requires a + NEWLINE + x == b + NEWLINE + y
    requires (forall i :: 0 <= i < |x| ==> x[i] != '\n') && (forall i :: 0 <= i < |y| ==> y[i] != '\n')
    ensures a == b && x == y
  {
    var s := a + NEWLINE + x;
    assert s[|a|] == '\n' && s[|b|] == '\n';
    assert forall i :: |a| < i < |s| ==> s[i] == x[i - |a| - 1];
    assert forall i :: |b| < i < |s| ==> s[i] == y[i - |b| - 1];
    assert a == s[..|a|] && b == s[..|b|];
    assert x == s[|a| + 1..] && y == s[|b| + 1..];
  }

  // ---- Idempotency over runs --------------------------------------------------------------

  datatype Answer =
    | Acceptance(eventId: EventId, deliveryId: DeliveryId, acceptedAtMillis: int, replayed: bool)
    | Conflict(existing: EventId)

  function Acknowledge(decision: IntakeFields, replayed: bool): Answer {
    Acceptance(decision.event.id, decision.delivery.id, decision.acceptedAtMillis, replayed)
  }

  ghost predicate IsCall(run: Run) { Legal(run) && run.Then? && run.op.Accept? }

  /** What the caller of the last step of the run, an acceptance, is told. */
  ghost function AnswerTo(run: Run): Answer
    requires IsCall(run)
  {
    match LastReply(run)
    case Accepted(decision, _) => Acknowledge(decision, false)
    case Replayed(decision) => Acknowledge(decision, true)
    case Failed(error) => Conflict(if error.IngestionConflict? then error.existing else run.op.record.event.id)
    case _ => Conflict(run.op.record.event.id)
  }

  /** Nothing forgets or rewrites an intake decision. */
  lemma {:induction false} DecisionsPersist(run: Run, prefix: Run, key: IngestionKey)
    requires Legal(run) && Extends(run, prefix) && Legal(prefix) && key in Final(prefix).intakes
    ensures key in Final(run).intakes && Final(run).intakes[key] == Final(prefix).intakes[key]
  {
    if run == prefix {
    } else {
      DecisionsPersist(run.before, prefix, key);
      IntakesAreKept(Final(run.before), run.at, run.op, key);
    }
  }

  /** Whoever is not told of a conflict finds its own fingerprint and its answer in the store. */
  lemma AnswersAreRemembered(run: Run)
    requires IsCall(run) && AnswerTo(run).Acceptance?
    ensures var key := run.op.record.ingestionKey;
            && key in Final(run).intakes
            && Final(run).intakes[key].fingerprint == run.op.record.fingerprint
            && AnswerTo(run) == Acknowledge(Final(run).intakes[key].decision, AnswerTo(run).replayed)
  {
    IntakesAfter(Final(run.before), run.at, run.op);
  }

  /** What a call is told, exactly: a new key, a repetition with the same fingerprint, or one with another. */
  lemma AnswersAreExact(run: Run)
    requires IsCall(run)
    ensures var (record, known) := (run.op.record, Final(run.before).intakes);
            AnswerTo(run) ==
            if record.ingestionKey !in known then
              Acceptance(record.event.id, record.deliveryId, record.acceptedAtMillis, false)
            else
              var (first, decision) := (known[record.ingestionKey].fingerprint, known[record.ingestionKey].decision);
              if record.fingerprint == first
              then Acceptance(decision.event.id, decision.delivery.id, decision.acceptedAtMillis, true)
              else Conflict(decision.event.id)
  {
  }

  /**
   However much happens in between, a second call with the same key changes nothing. With the same
   fingerprint it repeats the event, the delivery and the time of the first answer, without a new claim;
   with a different one it reports the first event.
   */
  lemma RepeatedCallsAgree(run: Run, first: Run)
    requires IsCall(run) && IsCall(first) && Extends(run.before, first)
    requires run.op.record.ingestionKey == first.op.record.ingestionKey
    requires AnswerTo(first).Acceptance?
    ensures Final(run) == Final(run.before)
    ensures AnswerTo(run) ==
            if run.op.record.fingerprint == first.op.record.fingerprint
            then AnswerTo(first).(replayed := true)
            else Conflict(AnswerTo(first).eventId)
    ensures !LastReply(run).Accepted?
  {
    AnswersAreRemembered(first);
    DecisionsPersist(run.before, first, first.op.record.ingestionKey);
  }

  /** How often calls with this key were accepted. */
  ghost function Acceptances(run: Run, key: IngestionKey): nat
    requires Legal(run)
  {
    if run.Begin? then 0
    else
      Acceptances(run.before, key) +
      if run.op.Accept? && run.op.record.ingestionKey == key && LastReply(run).Accepted? then 1 else 0
  }

  /** Each key is accepted at most once, and exactly once if its decision was made in this run. */
  lemma {:induction false} EachKeyIsAcceptedOnce(run: Run, key: IngestionKey)
    requires Legal(run)
    ensures key in Start(run).intakes ==> key in Final(run).intakes
    ensures Acceptances(run, key) == if key in Final(run).intakes && key !in Start(run).intakes then 1 else 0
  {
    if run.Begin? {
    } else {
      EachKeyIsAcceptedOnce(run.before, key);
      IntakesAfter(Final(run.before), run.at, run.op);
    }
  }

  ghost function AllAcceptances(run: Run): nat
    requires Legal(run)
  {
    if run.Begin? then 0
    else AllAcceptances(run.before) + if run.op.Accept? && LastReply(run).Accepted? then 1 else 0
  }

  lemma {:induction false} DecisionsAreCounted(run: Run)
    requires Legal(run)
    ensures |Final(run).intakes| == |Start(run).intakes| + AllAcceptances(run)
  {
    if run.Begin? {
    } else {
      DecisionsAreCounted(run.before);
      IntakesAfter(Final(run.before), run.at, run.op);
      var before, after := Final(run.before).intakes, Final(run).intakes;
      if run.op.Accept? && LastReply(run).Accepted? {
        assert after.Keys == before.Keys + {run.op.record.ingestionKey};
        assert |after| == |after.Keys| && |before| == |before.Keys|;
      }
    }
  }

  /** The deliveries intake created are as many as the distinct keys it accepted, one for each. */
  lemma OneDeliveryForEachKey(run: Run, j: IngestionKey, k: IngestionKey)
    requires Legal(run) && Start(run) == EMPTY
    ensures |Final(run).intakes| == AllAcceptances(run)
    ensures j in Final(run).intakes ==> Final(run).intakes[j].decision.delivery.id in Final(run).rows
    ensures j in Final(run).intakes && k in Final(run).intakes && j != k ==>
              Final(run).intakes[j].decision.delivery.id != Final(run).intakes[k].decision.delivery.id
  {
    FinalIsValid(run);
    DecisionsAreCounted(run);
  }

  // ---- The service on its adapters --------------------------------------------------------

  /** What the generators, the clock, the configuration and the digest supply to one call. */
  datatype Inputs = Inputs(
    eventId: EventId,
    deliveryId: DeliveryId,
    acceptedAtMillis: int,
    route: Route,
    claim: ClaimRequest,
    digest: string -> Fingerprint)
  {
    function Fingerprint(submission: Submission): Fingerprint { digest(Normalized(submission)) }
  }

  function RecordFor(key: IngestionKey, submission: Submission, inputs: Inputs): IntakeRecord {
    IntakeRecord(
      key, inputs.Fingerprint(submission), RelayEvent(inputs.eventId, submission.invoiceId, submission.amountCents),
      inputs.deliveryId, inputs.route, inputs.acceptedAtMillis, inputs.claim)
  }

  /** As long as the digest does not collide, one key cannot stand for two different submissions. */
  lemma FingerprintsTellSubmissionsApart(inputs: Inputs, a: Submission, b: Submission)
    requires inputs.digest(Normalized(a)) == inputs.digest(Normalized(b)) ==> Normalized(a) == Normalized(b)
    ensures inputs.Fingerprint(a) == inputs.Fingerprint(b) <==> a == b
  {
    if inputs.Fingerprint(a) == inputs.Fingerprint(b) {
      NormalizedIsInjective(a, b);
    }
  }

  /** The claim that a new delivery is given. */
  function FirstClaim(inputs: Inputs, now: int): Claim {
    Claim(inputs.claim.ownerId, 1, now + inputs.claim.leaseDurationMillis)
  }

  /**
   What a store holds after a submission was accepted under a new key, with this claim on the new delivery: its
   event, its delivery with route and due time, and the decision. A delivery whose identifier was in use before
   would keep its history. Nothing else is different.
   */
  function Stored(
    l: Ledger, key: IngestionKey, submission: Submission, inputs: Inputs, claim: Option<Claim>): Ledger
  {
    var event := RelayEvent(inputs.eventId, submission.invoiceId, submission.amountCents);
    var delivery := Delivery(inputs.deliveryId, inputs.eventId, inputs.route.destinationId, Pending);
    var history := if inputs.deliveryId in l.rows then l.rows[inputs.deliveryId].attempts else [];
    Ledger(
      l.rows[inputs.deliveryId := Row(delivery, claim, 1, Some(inputs.route), history, inputs.acceptedAtMillis)],
      if inputs.deliveryId in l.rows then l.order else l.order + [inputs.deliveryId],
      l.events[inputs.eventId := event],
      l.intakes[key := Intake(
        inputs.digest(Normalized(submission)),
        IntakeFields(event, delivery, inputs.route, inputs.acceptedAtMillis))])
  }

  lemma FirstAcceptance(l: Ledger, now: int, key: IngestionKey, submission: Submission, inputs: Inputs)
    requires key !in l.intakes
    ensures var (after, reply) := ApplyAccept(l, now, RecordFor(key, submission, inputs), inputs.acceptedAtMillis);
            && after == Stored(l, key, submission, inputs, Some(FirstClaim(inputs, now)))
            && reply.Accepted? && reply.claim == FirstClaim(inputs, now)
            && reply.decision == after.intakes[key].decision
  {
  }

  lemma GivenBackIsStored(
    l: Ledger, key: IngestionKey, submission: Submission, inputs: Inputs, claim: Claim, after: Ledger)
    requires after == Stored(l, key, submission, inputs, Some(claim))
    ensures inputs.deliveryId in after.rows
    ensures after.rows[inputs.deliveryId].Pending() && after.rows[inputs.deliveryId].claim == Some(claim)
    ensures after.With(inputs.deliveryId, after.rows[inputs.deliveryId].(claim := None)) ==
            Stored(l, key, submission, inputs, None)
    ensures after.intakes[key].decision.delivery.id == inputs.deliveryId
    ensures Acknowledge(after.intakes[key].decision, false) ==
            Acceptance(inputs.eventId, inputs.deliveryId, inputs.acceptedAtMillis, false)
  {
  }

  lemma ReleaseFrees(l: Ledger, now: int, id: DeliveryId, claim: Claim)
    requires id in l.rows && l.rows[id].Pending() && l.rows[id].claim == Some(claim)
    ensures Apply(l, now, Release(id, claim)) == (l.With(id, l.rows[id].(claim := None)), Done)
  {
  }

  /** A delivery just accepted is enqueued, or released again if there is no room; neither can fail. */
  method Enqueue(
    store: Store, dispatcher: Supervisor.Dispatcher, gate: Admission.Gate, decision: IntakeFields, claim: Claim,
    now: int, ghost name: Admission.TicketId)
    requires store.Valid() && dispatcher.Valid() && gate.Valid() && name !in gate.tickets
    requires decision.delivery.id in store.contents.rows
    requires var row := store.contents.rows[decision.delivery.id]; row.Pending() && row.claim == Some(claim)
    modifies store, dispatcher`requests, dispatcher`offered, dispatcher`contents, gate`rejected, gate`tickets
    ensures store.Valid() && dispatcher.Valid() && gate.Valid() && dispatcher.offered == old(dispatcher.offered) + 1
    ensures store.contents == old(
              if |dispatcher.requests| < dispatcher.capacity then store.contents
              else store.contents.With(decision.delivery.id, store.contents.rows[decision.delivery.id].(claim := None)))
    ensures dispatcher.requests == old(
              if |dispatcher.requests| < dispatcher.capacity
              then dispatcher.requests + [Supervisor.Job(dispatcher.offered, decision.delivery.id, claim)]
              else dispatcher.requests)
    ensures gate.rejected == old(gate.rejected + if |dispatcher.requests| < dispatcher.capacity then 0 else 1)
  {
    ReleaseFrees(store.contents, now, decision.delivery.id, claim);
    var error := dispatcher.EnqueueClaimed(
      store, gate, ClaimedDelivery(claim, 0, decision.delivery, decision.event, 1, Some(decision.route)),
      decision.route.destinationId, now, name);
    assert error.None?;
  }

  /**
   One call that nobody else interleaves with. A key seen before changes neither the store nor the queue;
   a new key is offered to the queue once, and its delivery keeps its claim exactly if the queue took it.
   The caller is acknowledged either way, though a drop is counted as a rejection.
   */
  method Accept(
    store: Store, dispatcher: Supervisor.Dispatcher, gate: Admission.Gate,
    key: IngestionKey, submission: Submission, inputs: Inputs, now: int, ghost name: Admission.TicketId)
    returns (answer: Answer)
    requires store.Valid() && dispatcher.Valid() && gate.Valid() && name !in gate.tickets
    modifies store, dispatcher`requests, dispatcher`offered, dispatcher`contents, gate`rejected, gate`tickets
    ensures store.Valid() && dispatcher.Valid() && gate.Valid()
    ensures old(key in store.intakes) ==>
              && store.contents == old(store.contents) && dispatcher.contents == old(dispatcher.contents)
              && gate.rejected == old(gate.rejected)
              && dispatcher.requests == old(dispatcher.requests)
              && answer == old(if store.intakes[key].fingerprint == inputs.digest(Normalized(submission))
                               then Acknowledge(store.intakes[key].decision, true)
                               else Conflict(store.intakes[key].decision.event.id))
    ensures old(key !in store.intakes) ==>
              var room := old(|dispatcher.requests|) < dispatcher.capacity;
              && answer == Acceptance(inputs.eventId, inputs.deliveryId, inputs.acceptedAtMillis, false)
              && store.contents == Stored(
                   old(store.contents), key, submission, inputs, if room then Some(FirstClaim(inputs, now)) else None)
              && dispatcher.offered == old(dispatcher.offered) + 1
              && dispatcher.requests == old(dispatcher.requests) +
                 (if room
                  then [Supervisor.Job(old(dispatcher.offered), inputs.deliveryId, FirstClaim(inputs, now))]
                  else [])
              && gate.rejected == old(gate.rejected) + if room then 0 else 1
  {
    var record := RecordFor(key, submission, inputs);
    ghost var before := store.contents;
    var reply := store.Accept(record, now);
    match reply
    case Accepted(decision, claim) =>
      FirstAcceptance(before, now, key, submission, inputs);
      GivenBackIsStored(before, key, submission, inputs, claim, store.contents);
      Enqueue(store, dispatcher, gate, decision, claim, now, name);
      answer := Acknowledge(decision, false);
    case Replayed(decision) => answer := Acknowledge(decision, true);
    case Failed(error) => answer := Conflict(if error.IngestionConflict? then error.existing else record.event.id);
    case _ => answer := Conflict(record.event.id);
  }
}

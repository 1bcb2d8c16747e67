/** Claims and retries against the store clock. */
module Leases {
  import opened Domain
  import opened Ledger
  import opened Runs

  // ---- A diligent holder keeps its claim --------------------------------------------------

  /** The step is a renewal of this claim. */
  predicate Beats(op: Operation, id: DeliveryId, fence: Token) {
    op.Renew? && op.id == id && op.claim.Fence() == fence
  }

  /** The step gives this claim back: the holder records its last attempt, completes or releases. */
  predicate GivesUp(op: Operation, id: DeliveryId, fence: Token) {
    && op.Fenced() && op.Subject() == id && op.Fence() == fence
    && (op.Complete? || op.Release? || (op.RecordAttempt? && op.attempt.Closes()))
  }

  /** When the holder last renewed, or obtained the claim at `since` if it has not renewed. */
  function LastBeat(run: Run, id: DeliveryId, fence: Token, since: int): int {
    if run.Begin? then since
    else if Beats(run.op, id, fence) then run.at
    else LastBeat(run.before, id, fence, since)
  }

  /**
   The holder never gives up, renews for `lease` each time, and every step, its own and everyone
   else's, comes less than a lease after its latest renewal.
   */
  predicate Diligent(run: Run, id: DeliveryId, fence: Token, since: int, lease: int) {
    run.Then? ==>
      && Diligent(run.before, id, fence, since, lease)
      && run.at < LastBeat(run.before, id, fence, since) + lease
      && !GivesUp(run.op, id, fence)
      && (Beats(run.op, id, fence) ==> run.op.lease == lease)
  }

  /** While a lease runs, only its holder changes the claim. */
  lemma RunningLeaseIsExclusive(row: Row, change: Change, fence: Token, now: int)
    requires row.Valid() && Enabled(row, change) && row.Owns(fence, now)
    requires change.Claimed? ==> change.at == now
    ensures !change.Claimed? && !change.Retried? && !change.Repaired? && !change.Ended?
    ensures change.Renewed? ==> change.fence == fence
    ensures change.Recorded? ==> change.attempt.Fence() == fence
    ensures change.Completed? || change.Released? ==> change.fence == fence
  {
  }

  /** The delivery is claimed with this token until then. */
  predicate HeldUntil(l: Ledger, id: DeliveryId, fence: Token, expiry: int) {
    id in l.rows && l.rows[id].claim == Some(Claim(fence.ownerId, fence.generation, expiry))
  }

  /** Of a delivery under a running lease, a change leaves the claim as it is, or is its renewal. */
  lemma LeaseSurvivesChange(row: Row, change: Change, fence: Token, expiry: int, now: int, lease: int)
    requires row.Valid() && Enabled(row, change) && now < expiry
    requires row.claim == Some(Claim(fence.ownerId, fence.generation, expiry))
    requires change.Claimed? ==> change.at == now
    requires change.Renewed? && change.fence == fence ==> change.at == now && change.lease == lease
    requires !(change.Recorded? && change.attempt.Fence() == fence && change.attempt.Closes())
    requires !((change.Completed? || change.Released?) && change.fence == fence)
    ensures !change.Claimed?
    ensures After(row, change).claim ==
            Some(Claim(fence.ownerId, fence.generation, if change.Renewed? then now + lease else expiry))
  {
    RunningLeaseIsExclusive(row, change, fence, now);
  }

  lemma LeaseSurvivesStep(
    l: Ledger, now: int, op: Operation, id: DeliveryId, fence: Token, last: int, beat: int, lease: int)
    requires Valid(l) && Lawful(l, now, op)
    requires HeldUntil(l, id, fence, last + lease) && now < last + lease
    requires !GivesUp(op, id, fence) && (Beats(op, id, fence) ==> op.lease == lease)
    requires beat == if Beats(op, id, fence) then now else last
    ensures HeldUntil(Apply(l, now, op).0, id, fence, beat + lease)
    ensures Beats(op, id, fence) ==> Apply(l, now, op).1.Extended?
    ensures op.ClaimPending? ==> id !in op.chosen
  {
    StepsAreChanges(l, now, op, id);
    var effect := Effect(l, now, op, id);
    if effect.Some? {
      LeaseSurvivesChange(l.rows[id], effect.value, fence, last + lease, now, lease);
    }
  }

  /** The same for the last step of a run. */
  lemma LeaseSurvivesRun(run: Run, id: DeliveryId, fence: Token, last: int, beat: int, lease: int)
    requires Legal(run) && run.Then? && HeldUntil(Final(run.before), id, fence, last + lease) && run.at < last + lease
    requires !GivesUp(run.op, id, fence) && (Beats(run.op, id, fence) ==> run.op.lease == lease)
    requires beat == if Beats(run.op, id, fence) then run.at else last
    ensures HeldUntil(Final(run), id, fence, beat + lease)
    ensures Beats(run.op, id, fence) ==> LastReply(run).Extended?
    ensures run.op.ClaimPending? ==> id !in run.op.chosen
  {
    FinalIsValid(run.before);
    LeaseSurvivesStep(Final(run.before), run.at, run.op, id, fence, last, beat, lease);
  }

  /**
   The claim runs for a lease from the latest renewal, which has succeeded, and the latest step took it from
   nobody.
   */
  ghost predicate Kept(run: Run, id: DeliveryId, fence: Token, last: int, lease: int)
    requires Legal(run)
  {
    && HeldUntil(Final(run), id, fence, last + lease)
    && (run.Then? && Beats(run.op, id, fence) ==> LastReply(run).Extended?)
    && (run.Then? && run.op.ClaimPending? ==> id !in run.op.chosen)
  }

  lemma LeaseSurvivesLast(run: Run, id: DeliveryId, fence: Token, since: int, last: int, lease: int)
    requires Legal(run) && run.Then? && Diligent(run, id, fence, since, lease)
    requires last == LastBeat(run.before, id, fence, since) && Kept(run.before, id, fence, last, lease)
    ensures Kept(run, id, fence, LastBeat(run, id, fence, since), lease)
  {
    LeaseSurvivesRun(run, id, fence, last, LastBeat(run, id, fence, since), lease);
  }

  /**
   If every gap between renewals, and the wait before the first, is shorter than the lease, then
   all renewals succeed and nobody else obtains the delivery, whatever other workers, operators
   and intake calls do in between.
   */
  lemma {:induction false} DiligentHolderKeepsClaim(run: Run, id: DeliveryId, fence: Token, since: int, lease: int)
    requires Legal(run) && Diligent(run, id, fence, since, lease)
    requires HeldUntil(Start(run), id, fence, since + lease)
    ensures Kept(run, id, fence, LastBeat(run, id, fence, since), lease)
  {
    if run.Begin? {
    } else {
      DiligentHolderKeepsClaim(run.before, id, fence, since, lease);
      LeaseSurvivesLast(run, id, fence, since, LastBeat(run.before, id, fence, since), lease);
    }
  }

  /** The bound is tight: once a full lease has passed without a renewal, any worker may take a due delivery. */
  lemma SilentHolderCanLoseClaim(l: Ledger, id: DeliveryId, since: int, lease: int, now: int)
    requires Valid(l) && id in l.rows && l.rows[id].claim.Some?
    requires l.rows[id].claim.value.leaseExpiresAtMillis == since + lease
    requires l.rows[id].nextEligibleAt <= now
    ensures l.Eligible(id, l.rows[id].delivery.destinationId, now) <==> now >= since + lease
  {
  }

  // ---- The expiry of one claim never moves back -------------------------------------------

  /** Everyone asks for the same lease. */
  predicate FixedLease(run: Run, lease: int) {
    run.Then? ==>
      && FixedLease(run.before, lease)
      && (match run.op
          case Accept(record, _) => record.claim.leaseDurationMillis == lease
          case SavePending(_, _, _, request) => request.leaseDurationMillis == lease
          case ClaimPending(_, _, _, asked, _) => asked == lease
          case Renew(_, _, asked) => asked == lease
          case _ => true)
  }

  /** No claim outlives the latest clock reading by more than the lease. */
  lemma {:induction false} ExpiryIsBounded(run: Run, lease: int, now: int, id: DeliveryId)
    requires Legal(run) && FixedLease(run, lease) && Chronological(run, now)
    requires Start(run) == EMPTY
    requires id in Final(run).rows && Final(run).rows[id].claim.Some?
    ensures Final(run).rows[id].claim.value.leaseExpiresAtMillis <= now + lease
  {
    if run.Begin? || id !in Final(run.before).rows {
    } else {
      StepsAreChanges(Final(run.before), run.at, run.op, id);
      FinalIsValid(run.before);
      if Final(run.before).rows[id].claim.Some? {
        ExpiryIsBounded(run.before, lease, run.at, id);
      }
    }
  }

  lemma {:induction false} ExpiryNeverMovesBack(
    run: Run, prefix: Run, lease: int, now: int, id: DeliveryId, fence: Token)
    requires Legal(run) && FixedLease(run, lease) && Chronological(run, now) && Start(run) == EMPTY
    requires Extends(run, prefix) && Legal(prefix)
    requires id in Final(prefix).rows && Final(prefix).rows[id].Holds(fence)
    requires id in Final(run).rows && Final(run).rows[id].Holds(fence)
    ensures Final(prefix).rows[id].claim.value.leaseExpiresAtMillis <=
            Final(run).rows[id].claim.value.leaseExpiresAtMillis
  {
    if run == prefix {
    } else {
      DeliveriesPersist(run.before, prefix, id);
      FinalIsValid(run.before);
      FinalIsValid(prefix);
      var l := Final(run.before);
      StepsAreChanges(l, run.at, run.op, id);
      assert l.rows[id].Holds(fence);
      ExpiryNeverMovesBack(run.before, prefix, lease, run.at, id, fence);
      ExpiryIsBounded(run.before, lease, run.at, id);
    }
  }

  // ---- No early retry ---------------------------------------------------------------------

  /** Nothing was recorded about the delivery, and no operator acted on it, since the prefix. */
  ghost predicate Quiet(run: Run, prefix: Run, id: DeliveryId)
    requires Legal(run)
  {
    run != prefix && run.Then? ==>
      && Quiet(run.before, prefix, id)
      && (id in Final(run.before).rows ==>
            match Effect(Final(run.before), run.at, run.op, id)
            case Some(Recorded(_, _)) => false
            case Some(Retried(_)) => false
            case Some(Repaired(_, _)) => false
            case _ => true)
  }

  lemma {:induction false} DueTimeIsKept(run: Run, prefix: Run, id: DeliveryId)
    requires Legal(run) && Extends(run, prefix) && Legal(prefix) && id in Final(prefix).rows
    requires Quiet(run, prefix, id)
    ensures id in Final(run).rows && Final(run).rows[id].nextEligibleAt == Final(prefix).rows[id].nextEligibleAt
  {
    if run == prefix {
    } else {
      DueTimeIsKept(run.before, prefix, id);
      StepsAreChanges(Final(run.before), run.at, run.op, id);
    }
  }

  /**
   After a recorded retry, no worker, restarted or new, claims the delivery before the delay has
   passed, unless an operator reopened it or another attempt was recorded meanwhile.
   */
  lemma NoEarlyReclaim(run: Run, recorded: Run, id: DeliveryId)
    requires Legal(run) && run.Then? && Extends(run.before, recorded) && Legal(recorded)
    requires recorded.Then? && recorded.op.RecordAttempt? && recorded.op.attempt.deliveryId == id
    requires recorded.op.attempt.decision.RetryScheduled? && LastReply(recorded) == Done
    requires Quiet(run.before, recorded, id)
    requires run.op.ClaimPending? && id in run.op.chosen
    ensures run.at >= recorded.op.attempt.completedAtMillis + recorded.op.attempt.retryDelayMillis.GetOr(0)
  {
    assert id in Final(recorded).rows;
    DueTimeIsKept(run.before, recorded, id);
    assert Final(run.before).Eligible(id, run.op.destination, run.at);
  }
}

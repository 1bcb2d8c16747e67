/** src/deliveryPolicy.ts: the one truth table from results and recorded attempts to delivery states. */
module Policy {
  import opened Domain

  function StateFromResult(result: DeliveryResult): DeliveryState {
    match result
    case Delivered(_, status) => DeliveryState.Delivered(status)
    case Rejected(_, status) => DeliveryState.Rejected(status)
    case ProtocolFailure(_, _) => DeadLettered(ProviderProtocolFailure)
    case Exhausted(_, _) => DeadLettered(RetryBudgetExhausted)
  }

  function TerminalState(attempt: AttemptRecord): Option<DeliveryState> {
    if attempt.decision.Exhausted? then
      Some(DeadLettered(RetryBudgetExhausted))
    else if !attempt.decision.Terminal? then
      None
    else
      match attempt.outcome
      case Delivered =>
        if attempt.status.None? then None else Some(DeliveryState.Delivered(attempt.status.value))
      case Rejected =>
        if attempt.status.None? then None else Some(DeliveryState.Rejected(attempt.status.value))
      case ProtocolFailure => Some(DeadLettered(ProviderProtocolFailure))
      case _ => None
  }
}

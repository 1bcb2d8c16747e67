/**
 Stories of a state machine: where it began, and the moves made since, in order. Each machine says which stories
 are told of it.
 */
module Stories {
  datatype Story<S, M> = Opening(state: S) | Followed(before: Story<S, M>, move: M)

  function Length<S, M>(story: Story<S, M>): nat {
    match story
    case Opening(_) => 0
    case Followed(before, _) => Length(before) + 1
  }

  /** `later` continues `story`. */
  ghost predicate Precedes<S, M>(story: Story<S, M>, later: Story<S, M>) {
    story == later || (later.Followed? && Precedes(story, later.before))
  }
}

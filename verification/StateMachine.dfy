/** The transition table of the decision lifecycle. */
module StateMachine {
  import opened Profile

  function ValidTransitions(from: State): seq<State> {
    match from
    case Unset => [Triggered]
    case Watching => [Triggered]
    case Triggered => [Evaluating, Watching]
    case Evaluating => [Decided, Watching]
    case Decided => [Enacting, Watching]
    case Enacting => [Watching]
    case Legacy(_) => []
  }

  predicate IsValidTransition(from: State, to: State) {
    to in ValidTransitions(from)
  }

  /** How many transitions a state lies past the last resting state. */
  function Rank(s: State): (r: nat)
    ensures r <= 4
    ensures s.MidCycle() <==> r > 0
  {
    match s
    case Triggered => 1
    case Evaluating => 2
    case Decided => 3
    case Enacting => 4
    case _ => 0
  }

  /** The table allows one stage forward, or home from any stage, and nothing else. */
  lemma TableByRank(from: State, to: State)
    ensures IsValidTransition(from, to) <==>
              || (from.Resting() && to.Triggered?)
              || (from.MidCycle() && to.MidCycle() && Rank(to) == Rank(from) + 1)
              || (from.MidCycle() && to.Watching?)
  {
  }
}

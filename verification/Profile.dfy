/**
 The stored part of an OrchestrationProfile that the rebalance engine works on.

 Times are whole seconds, the precision at which metav1.Time is stored; the zero
 time is 0. Identifiers drawn by uuid.NewString are natural numbers.
 */
module Profile {

  datatype Option<+T> = None | Some(value: T)

  datatype Outcome = Enacted | NoOp | Rejected | Deferred | Failed | Escalated

  /** `Unset` is the empty string of a profile that never entered a cycle; `Legacy` is a
      state value that only the earlier status model stored. */
  datatype State = Unset | Watching | Triggered | Evaluating | Decided | Enacting | Legacy(was: Outcome)
  {
    predicate Resting() { Unset? || Watching? }

    predicate MidCycle() { Triggered? || Evaluating? || Decided? || Enacting? }
  }

  /** The action strings the engine knows; `Unknown` stands for any other string. */
  datatype Action =
    | NoAction
    | Move
    | DoNothing
    | Reject
    | Defer
    | AdjustReplicas
    | AdjustResources
    | Escalate
    | Retry
    | Unknown(name: string)

  datatype Decision = Decision(
    decisionId: nat,
    outcome: Outcome,
    action: Action,
    reason: string,
    details: string,
    startedAt: int,
    lastTransitionAt: int)

  datatype Status = Status(
    state: State,
    reason: string,
    decisionId: nat,
    action: Action,
    details: string,
    startedAt: int,
    lastTransitionAt: int,
    cooldownUntil: int,
    recentDecisions: seq<Decision>,
    consecutiveFailures: int,
    escalated: bool)

  datatype ApplicationRef = ApplicationRef(kind: string, name: string, namespace: string)

  datatype Spec = Spec(
    app: ApplicationRef,
    enabled: bool,
    dryRun: bool,
    cooldownSeconds: int,
    escalationThreshold: int,
    energyAware: bool,
    triggerConditions: seq<string>)

  datatype Phase = Pending | Running | Completed | Broken

  /** `held` marks a pod whose finalizers keep the object after a delete is accepted. */
  datatype Pod = Pod(name: string, phase: Phase, node: string, created: int, held: bool)

  /** One stored object: its spec, its rebalancing status, and the placement part of its
      status, whose content the engine never looks at. */
  datatype Profile = Profile(spec: Spec, rs: Status, placement: nat)
}

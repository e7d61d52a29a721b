/**
 What one committed write does to a stored profile: the pure step of the state writer,
 and the steps of the other clients that share the object (the placement reconciler, the
 migration tool, a human clearing `escalated`, a user editing the spec).
 */
module Step {
  import opened Profile
  import opened StateMachine

  const DEFAULT_ESCALATION_THRESHOLD := 3

  /** A transition asked of the writer; `NoAction`, "" and a cooldown <= 0 write nothing. */
  datatype Request = Request(
    to: State,
    reason: string,
    action: Action,
    details: string,
    outcome: Option<Outcome>,
    cooldown: int)

  datatype Write =
    | Transition(req: Request, now: int, id: nat)
    | Placement(content: nat)
    | Migrate(outcome: Outcome, at: int)
    | Clear(resetStreak: bool)
    | EditSpec(spec: Spec)

  function Threshold(spec: Spec): (t: int)
    ensures t > 0
  {
    if spec.escalationThreshold <= 0 then DEFAULT_ESCALATION_THRESHOLD else spec.escalationThreshold
  }

  predicate Failing(o: Outcome) { o.Failed? || o.Deferred? }

  function Streak(before: int, requested: Outcome): int {
    if Failing(requested) then before + 1 else 0
  }

  function Recorded(spec: Spec, streak: int, requested: Outcome): Outcome {
    if streak >= Threshold(spec) then Escalated else requested
  }

  function Prepend(next: Decision, existing: seq<Decision>, max: nat): (r: seq<Decision>)
    ensures |r| <= max
  {
    var updated := [next] + existing;
    if |updated| > max then updated[..max] else updated
  }

  function Advanced(rs: Status, req: Request, now: int): Status {
    rs.(state := req.to, reason := req.reason, lastTransitionAt := now,
        action := if req.action.NoAction? then rs.action else req.action,
        details := if req.details == "" then rs.details else req.details)
  }

  function Started(rs: Status, req: Request, now: int, id: nat): Status {
    Advanced(rs.(decisionId := id, startedAt := now, action := NoAction, details := ""), req, now)
  }

  /** The record a terminal transition files for the cycle it ends. */
  function TerminalRecord(spec: Spec, rs: Status, req: Request, now: int): Decision
    requires req.outcome.Some?
  {
    var done := Advanced(rs, req, now);
    Decision(rs.decisionId,
             Recorded(spec, Streak(rs.consecutiveFailures, req.outcome.value), req.outcome.value),
             done.action, req.reason, done.details, rs.startedAt, now)
  }

  function Ended(spec: Spec, rs: Status, max: nat, req: Request, now: int): Status
    requires req.outcome.Some?
  {
    var record := TerminalRecord(spec, rs, req, now);
    Advanced(rs, req, now).(
      consecutiveFailures := Streak(rs.consecutiveFailures, req.outcome.value),
      escalated := rs.escalated || record.outcome.Escalated?,
      cooldownUntil := if req.cooldown > 0 then now + req.cooldown else rs.cooldownUntil,
      recentDecisions := Prepend(record, rs.recentDecisions, max))
  }

  /** The status a transition produces, or None when the writer refuses it. */
  function StepStatus(spec: Spec, rs: Status, max: nat, req: Request, now: int, id: nat): Option<Status> {
    if !IsValidTransition(rs.state, req.to) then None
    else if req.to.Triggered? then Some(Started(rs, req, now, id))
    else if !req.to.Watching? then Some(Advanced(rs, req, now))
    else if req.outcome.None? then None
    else Some(Ended(spec, rs, max, req, now))
  }

  function LegacyOutcome(s: State): Option<Outcome> {
    if s.Legacy? && !s.was.Escalated? then Some(s.was) else None
  }

  /** Files the outcome that the tool read from its listing. */
  function Migrated(rs: Status, outcome: Outcome, at: int): Status {
    var record := Decision(rs.decisionId, outcome, rs.action, rs.reason, rs.details, rs.startedAt, rs.lastTransitionAt);
    rs.(recentDecisions := [record] + rs.recentDecisions, state := Watching, lastTransitionAt := at)
  }

  /** What a client that read `p` would store, or None when it stores nothing. */
  function Apply(p: Profile, max: nat, w: Write): Option<Profile> {
    match w
    case Transition(req, now, id) =>
      var r := StepStatus(p.spec, p.rs, max, req, now, id);
      if r.Some? then Some(p.(rs := r.value)) else None
    case Placement(content) => Some(p.(placement := content))
    case Migrate(outcome, at) =>
      if LegacyOutcome(p.rs.state).Some? then Some(p.(rs := Migrated(p.rs, outcome, at))) else None
    case Clear(resetStreak) =>
      Some(p.(rs := p.rs.(escalated := false,
                          consecutiveFailures := if resetStreak then 0 else p.rs.consecutiveFailures)))
    case EditSpec(spec) => Some(p.(spec := spec))
  }

  /** The sequential run of a list of committed writes; None if one would be refused. */
  function Replay(p: Profile, max: nat, log: seq<Write>): Option<Profile> {
    if log == [] then Some(p)
    else
      var before := Replay(p, max, log[..|log| - 1]);
      if before.None? then None else Apply(before.value, max, log[|log| - 1])
  }

  lemma ReplayEmpty(p: Profile, max: nat)
    ensures Replay(p, max, []) == Some(p)
  {
  }

  lemma ReplayAppend(p: Profile, max: nat, log: seq<Write>, w: Write)
    requires Replay(p, max, log).Some?
    ensures Replay(p, max, log + [w]) == Apply(Replay(p, max, log).value, max, w)
  {
    assert (log + [w])[..|log|] == log;
  }

  lemma {:induction false} ReplayConcat(p: Profile, max: nat, a: seq<Write>, b: seq<Write>)
    requires Replay(p, max, a).Some?
    ensures Replay(p, max, a + b) == Replay(Replay(p, max, a).value, max, b)
  {
    if b == [] {
      assert a + b == a;
    } else {
      var front, w := b[..|b| - 1], b[|b| - 1];
      ReplayConcat(p, max, a, front);
      assert (a + b)[..|a + b| - 1] == a + front;
    }
  }

  /** A transition repeated on the state it just produced is refused, whatever it was. */
  lemma RepeatedTransitionIsRefused(p: Profile, max: nat, req: Request, now: int, id: nat, again: Request, later: int, other: nat)
    requires Apply(p, max, Transition(req, now, id)).Some?
    requires again.to == req.to
    ensures Apply(Apply(p, max, Transition(req, now, id)).value, max, Transition(again, later, other)).None?
  {
    TableByRank(req.to, req.to);
  }
}

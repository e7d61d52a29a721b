/**
 What a profile's status says about the run that produced it. Every field is given a
 reference definition on the log of committed writes alone, and the stored status is proved
 to agree with it after every run, whoever wrote and whatever was asked.
 */
module History {
  import opened Profile
  import opened StateMachine
  import opened Step

  predicate Begins(w: Write) { w.Transition? && w.req.to.Triggered? }

  predicate Ends(w: Write) { w.Transition? && w.req.to.Watching? && w.req.outcome.Some? }

  function Front(log: seq<Write>): seq<Write>
    requires log != []
  {
    log[..|log| - 1]
  }

  function Last(log: seq<Write>): Write
    requires log != []
  {
    log[|log| - 1]
  }

  function Begun(log: seq<Write>): nat {
    if log == [] then 0 else Begun(Front(log)) + if Begins(Last(log)) then 1 else 0
  }

  function Ended(log: seq<Write>): nat {
    if log == [] then 0 else Ended(Front(log)) + if Ends(Last(log)) then 1 else 0
  }

  function Migrations(log: seq<Write>): nat {
    if log == [] then 0 else Migrations(Front(log)) + if Last(log).Migrate? then 1 else 0
  }

  /** Transition commits since the last one that ended a cycle, counted on from the start. */
  function SinceRest(p: Profile, log: seq<Write>): nat {
    if log == [] then Rank(p.rs.state)
    else if Ends(Last(log)) then 0
    else SinceRest(p, Front(log)) + if Last(log).Transition? then 1 else 0
  }

  function LastBegin(log: seq<Write>): (r: Option<Write>)
    ensures r.Some? ==> Begins(r.value)
  {
    if log == [] then None
    else if Begins(Last(log)) then Some(Last(log))
    else LastBegin(Front(log))
  }

  function CycleId(p: Profile, log: seq<Write>): nat {
    if LastBegin(log).Some? then LastBegin(log).value.id else p.rs.decisionId
  }

  function CycleStart(p: Profile, log: seq<Write>): int {
    if LastBegin(log).Some? then LastBegin(log).value.now else p.rs.startedAt
  }

  /** What the last transition or migration left: the state, and when; and the reason given last. */
  function StateAt(p: Profile, log: seq<Write>): State {
    if log == [] then p.rs.state
    else match Last(log)
      case Transition(req, _, _) => req.to
      case Migrate(_, _) => Watching
      case _ => StateAt(p, Front(log))
  }

  function StampedAt(p: Profile, log: seq<Write>): int {
    if log == [] then p.rs.lastTransitionAt
    else match Last(log)
      case Transition(_, now, _) => now
      case Migrate(_, at) => at
      case _ => StampedAt(p, Front(log))
  }

  function ReasonAt(p: Profile, log: seq<Write>): string {
    if log == [] then p.rs.reason
    else if Last(log).Transition? then Last(log).req.reason
    else ReasonAt(p, Front(log))
  }

  function PlacementAt(p: Profile, log: seq<Write>): nat {
    if log == [] then p.placement
    else if Last(log).Placement? then Last(log).content
    else PlacementAt(p, Front(log))
  }

  /** The action named last since the cycle began; the details likewise. */
  function CycleAction(p: Profile, log: seq<Write>): Action {
    if log == [] then p.rs.action
    else if Last(log).Transition? && !Last(log).req.action.NoAction? then Last(log).req.action
    else if Begins(Last(log)) then NoAction
    else CycleAction(p, Front(log))
  }

  function CycleDetails(p: Profile, log: seq<Write>): string {
    if log == [] then p.rs.details
    else if Last(log).Transition? && Last(log).req.details != "" then Last(log).req.details
    else if Begins(Last(log)) then ""
    else CycleDetails(p, Front(log))
  }

  predicate CountsAsFailure(o: Outcome) { o == Failed || o == Deferred }

  predicate EndsBadly(w: Write) { Ends(w) && CountsAsFailure(w.req.outcome.value) }

  /** The trailing run of cycles asked to end Failed or Deferred since the last full clear. */
  function TrailingFailures(p: Profile, log: seq<Write>): int {
    if log == [] then p.rs.consecutiveFailures
    else if EndsBadly(Last(log)) then TrailingFailures(p, Front(log)) + 1
    else if Ends(Last(log)) then 0
    else if Last(log).Clear? && Last(log).resetStreak then 0
    else TrailingFailures(p, Front(log))
  }

  function SpecAt(p: Profile, log: seq<Write>): Spec {
    if log == [] then p.spec
    else if Last(log).EditSpec? then Last(log).spec
    else SpecAt(p, Front(log))
  }

  /** The number of failures in a row that escalates: as configured, 3 where it is not. */
  function Limit(spec: Spec): int {
    if spec.escalationThreshold <= 0 then 3 else spec.escalationThreshold
  }

  /** A cycle counts as escalated when that was asked for or the failing run is long enough. */
  predicate Escalates(p: Profile, log: seq<Write>)
    requires log != [] && Ends(Last(log))
  {
    || Last(log).req.outcome.value.Escalated?
    || TrailingFailures(p, log) >= Limit(SpecAt(p, Front(log)))
  }

  predicate EscalatedSinceClear(p: Profile, log: seq<Write>) {
    if log == [] then p.rs.escalated
    else if Last(log).Clear? then false
    else if Ends(Last(log)) && Escalates(p, log) then true
    else EscalatedSinceClear(p, Front(log))
  }

  function ArmedUntil(p: Profile, log: seq<Write>): int {
    if log == [] then p.rs.cooldownUntil
    else if Ends(Last(log)) && Last(log).req.cooldown > 0 then Last(log).now + Last(log).req.cooldown
    else ArmedUntil(p, Front(log))
  }

  /** The record of the cycle that the last write of `log` ends. */
  function RecordOf(p: Profile, log: seq<Write>): Decision
    requires log != [] && Ends(Last(log))
  {
    var w := Last(log);
    Decision(CycleId(p, Front(log)), if Escalates(p, log) then Escalated else w.req.outcome.value,
             CycleAction(p, log), w.req.reason, CycleDetails(p, log), CycleStart(p, Front(log)), w.now)
  }

  /** The record a migration files: the starting profile's last cycle, which nothing followed. */
  function LegacyRecord(p: Profile, outcome: Outcome): Decision {
    Decision(p.rs.decisionId, outcome, p.rs.action, p.rs.reason, p.rs.details, p.rs.startedAt, p.rs.lastTransitionAt)
  }

  /** The records of all cycles ended so far, newest first, never trimmed. */
  function AllRecords(p: Profile, log: seq<Write>): seq<Decision> {
    if log == [] then p.rs.recentDecisions
    else if Ends(Last(log)) then [RecordOf(p, log)] + AllRecords(p, Front(log))
    else if Last(log).Migrate? then [LegacyRecord(p, Last(log).outcome)] + AllRecords(p, Front(log))
    else AllRecords(p, Front(log))
  }

  /** How many of them are kept: every ending trims to `max`, the migration does not. */
  function Kept(p: Profile, max: nat, log: seq<Write>): (n: nat)
    ensures n <= |AllRecords(p, log)|
    ensures |p.rs.recentDecisions| <= max && Migrations(log) == 0 ==>
              n == if |AllRecords(p, log)| <= max then |AllRecords(p, log)| else max
    ensures |p.rs.recentDecisions| <= max ==> n <= max + Migrations(log)
  {
    if log == [] then |p.rs.recentDecisions|
    else
      var before := Kept(p, max, Front(log));
      if Ends(Last(log)) then (if before + 1 > max then max else before + 1)
      else if Last(log).Migrate? then before + 1 else before
  }

  /** The state, which also counts the commits since rest; a legacy one is the first. */
  ghost predicate StateAgrees(p: Profile, log: seq<Write>, q: Profile) {
    && q.rs.state == StateAt(p, log)
    && Rank(q.rs.state) == SinceRest(p, log)
    && (q.rs.state.Legacy? ==>
          && q.rs.state == p.rs.state && q.rs.reason == p.rs.reason && q.rs.lastTransitionAt == p.rs.lastTransitionAt
          && LastBegin(log).None? && q.rs.action == p.rs.action && q.rs.details == p.rs.details)
  }

  ghost predicate Agrees(p: Profile, max: nat, log: seq<Write>, q: Profile) {
    && q.spec == SpecAt(p, log)
    && q.placement == PlacementAt(p, log)
    && StateAgrees(p, log, q)
    && q.rs.lastTransitionAt == StampedAt(p, log)
    && q.rs.reason == ReasonAt(p, log)
    && q.rs.action == CycleAction(p, log)
    && q.rs.details == CycleDetails(p, log)
    && q.rs.decisionId == CycleId(p, log)
    && q.rs.startedAt == CycleStart(p, log)
    && q.rs.consecutiveFailures == TrailingFailures(p, log)
    && q.rs.escalated == EscalatedSinceClear(p, log)
    && q.rs.cooldownUntil == ArmedUntil(p, log)
    && q.rs.recentDecisions == AllRecords(p, log)[..Kept(p, max, log)]
  }

  lemma PrependKeepsNewest(record: Decision, all: seq<Decision>, kept: nat, max: nat)
    requires kept <= |all|
    ensures Prepend(record, all[..kept], max) == ([record] + all)[..if kept + 1 > max then max else kept + 1]
  {
    assert [record] + all[..kept] == ([record] + all)[..kept + 1];
  }

  /** The stored status is exactly what the log says, from any profile, after every sequence
      of commits. */
  lemma {:induction false} StatusIsFunctionOfLog(p: Profile, max: nat, log: seq<Write>)
    requires Replay(p, max, log).Some?
    ensures Agrees(p, max, log, Replay(p, max, log).value)
  {
    if log != [] {
      StatusIsFunctionOfLog(p, max, Front(log));
      AgreementSteps(p, max, log, Replay(p, max, Front(log)).value);
    }
  }

  lemma AgreementSteps(p: Profile, max: nat, log: seq<Write>, before: Profile)
    requires log != [] && Agrees(p, max, Front(log), before)
    requires Apply(before, max, Last(log)).Some?
    ensures Agrees(p, max, log, Apply(before, max, Last(log)).value)
  {
    var w, all, kept := Last(log), AllRecords(p, Front(log)), Kept(p, max, Front(log));
    if w.Transition? {
      TableByRank(before.rs.state, w.req.to);
      if Ends(w) { PrependKeepsNewest(RecordOf(p, log), all, kept, max); }
    } else if w.Migrate? {
      assert [LegacyRecord(p, w.outcome)] + all[..kept] == ([LegacyRecord(p, w.outcome)] + all)[..kept + 1];
    }
  }

  /** Endings that are all Failed or Deferred, and a limit that nobody changes or clears. */
  ghost predicate OnlyFailures(p: Profile, log: seq<Write>) {
    forall w :: w in log ==>
      (Ends(w) ==> EndsBadly(w)) && !w.Clear? && (w.EditSpec? ==> Limit(w.spec) == Limit(p.spec))
  }

  /** From a cleared profile, exactly the configured number of such endings escalates it, 3 of
      them by default, whatever else is committed in between: fewer do not. */
  lemma {:induction false} LimitEscalatesExactly(p: Profile, max: nat, log: seq<Write>)
    requires Replay(p, max, log).Some? && OnlyFailures(p, log)
    requires !p.rs.escalated && p.rs.consecutiveFailures == 0
    ensures var q := Replay(p, max, log).value;
            && q.rs.consecutiveFailures == Ended(log)
            && (q.rs.escalated <==> Ended(log) >= Limit(p.spec))
    ensures Limit(SpecAt(p, log)) == Limit(p.spec)
  {
    if log != [] {
      assert Last(log) in log && forall w :: w in Front(log) ==> w in log;
      LimitEscalatesExactly(p, max, Front(log));
      StatusIsFunctionOfLog(p, max, Front(log));
    }
    StatusIsFunctionOfLog(p, max, log);
  }

  function InFlight(p: Profile): nat { if p.rs.state.MidCycle() then 1 else 0 }

  /** Begun cycles, and one in flight at the start, are the ended ones and one in flight now; a
      cycle takes two to five commits; every ended cycle and every migration has its record. */
  lemma {:induction false} CycleAccounting(p: Profile, max: nat, log: seq<Write>)
    requires Replay(p, max, log).Some?
    ensures InFlight(p) + Begun(log) == Ended(log) + InFlight(Replay(p, max, log).value)
    ensures |AllRecords(p, log)| == |p.rs.recentDecisions| + Ended(log) + Migrations(log)
    ensures SinceRest(p, log) <= 4
    ensures log != [] && Ends(Last(log)) ==> 1 <= SinceRest(p, Front(log)) <= 4
    ensures SinceRest(p, log) > 0 && !p.rs.state.MidCycle() ==> LastBegin(log).Some?
  {
    StatusIsFunctionOfLog(p, max, log);
    if log != [] {
      CycleAccounting(p, max, Front(log));
      StatusIsFunctionOfLog(p, max, Front(log));
      var before := Replay(p, max, Front(log)).value;
      if Last(log).Transition? { TableByRank(before.rs.state, Last(log).req.to); }
    }
  }

  predicate InOrder(log: seq<Write>) {
    forall i, j :: 0 <= i < j < |log| && log[i].Transition? && log[j].Transition? ==> log[i].now <= log[j].now
  }

  /** Every cycle that arms a cooldown arms the same one. */
  predicate OneCooldown(log: seq<Write>, c: int) {
    forall w :: w in log && Ends(w) && w.req.cooldown > 0 ==> w.req.cooldown == c
  }

  lemma {:induction false} ArmedUntilIsBounded(p: Profile, log: seq<Write>, c: int, now: int)
    requires OneCooldown(log, c) && p.rs.cooldownUntil <= now + c
    requires forall w :: w in log && w.Transition? ==> w.now <= now
    ensures ArmedUntil(p, log) <= now + c
  {
    if log != [] {
      assert Last(log) in log;
      ArmedUntilIsBounded(p, Front(log), c, now);
    }
  }

  /** With one cooldown length and times in order, the cooldown only ever moves forward. */
  lemma {:induction false} CooldownNeverDecreases(p: Profile, log: seq<Write>, c: int, k: nat)
    requires k <= |log| && InOrder(log) && OneCooldown(log, c)
    requires forall w :: w in log && w.Transition? ==> p.rs.cooldownUntil <= w.now + c
    ensures ArmedUntil(p, log[..k]) <= ArmedUntil(p, log)
    decreases |log|
  {
    if k == |log| {
      assert log[..k] == log;
    } else {
      var front := Front(log);
      assert front[..k] == log[..k];
      CooldownNeverDecreases(p, front, c, k);
      if Ends(Last(log)) {
        assert Last(log) in log && forall w :: w in front ==> w in log;
        ArmedUntilIsBounded(p, front, c, Last(log).now);
      }
    }
  }
}

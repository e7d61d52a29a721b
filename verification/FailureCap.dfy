/**
 The cap on failing cycles in the whole system: with crashes, lost replies, refused and failing
 writes anywhere, where a cycle that breaks off is counted when the watchdog ends it.
 */
module FailureCap {
  import opened Profile
  import opened StateMachine
  import opened Step
  import opened History
  import opened StaleReads
  import opened Fleet
  import opened FleetResults

  /** A write that starts the count of failures anew. */
  predicate Resets(w: Write) {
    (w.Clear? && w.resetStreak) || (Ends(w) && !EndsBadly(w))
  }

  /** Cycles begun since the last full clear or the last ending that did not fail. */
  function BegunSinceReset(log: seq<Write>): nat {
    if log == [] || Resets(Last(log)) then 0
    else BegunSinceReset(Front(log)) + if Begins(Last(log)) then 1 else 0
  }

  /** The threshold stays the same and whoever clears the flag clears the streak too. */
  ghost predicate OneThreshold(p: Profile, log: seq<Write>, t: int) {
    && Limit(p.spec) == t
    && forall w :: w in log ==> (w.EditSpec? ==> Limit(w.spec) == t) && (w.Clear? ==> w.resetStreak)
  }

  /** Escalated, or with failures still to spare. */
  predicate WithinCap(p: Profile, t: int) {
    0 <= p.rs.consecutiveFailures && (p.rs.escalated || p.rs.consecutiveFailures < t)
  }

  lemma {:induction false} ThresholdStands(p: Profile, log: seq<Write>, t: int)
    requires OneThreshold(p, log, t)
    ensures Limit(SpecAt(p, log)) == t
  {
    if log != [] {
      assert Last(log) in log;
      ThresholdStands(p, Front(log), t);
    }
  }

  /** Every run of commits keeps within the cap, and every cycle begun since the last reset has
      failed or is in flight. */
  lemma {:induction false} CommitsKeepCap(p: Profile, max: nat, log: seq<Write>, t: int)
    requires Replay(p, max, log).Some? && OneThreshold(p, log, t) && WithinCap(p, t)
    ensures var q := Replay(p, max, log).value;
            WithinCap(q, t) && BegunSinceReset(log) <= q.rs.consecutiveFailures + InFlight(q)
  {
    if log != [] {
      CommitsKeepCap(p, max, Front(log), t);
      assert Last(log) in log;
      ThresholdStands(p, Front(log), t);
      StatusIsFunctionOfLog(p, max, Front(log));
      OneCommitKeepsCap(Replay(p, max, Front(log)).value, max, Last(log), t, BegunSinceReset(Front(log)));
    }
  }

  lemma OneCommitKeepsCap(before: Profile, max: nat, w: Write, t: int, begun: nat)
    requires Apply(before, max, w).Some? && WithinCap(before, t) && Limit(before.spec) == t
    requires w.Clear? ==> w.resetStreak
    requires begun <= before.rs.consecutiveFailures + InFlight(before)
    ensures var q := Apply(before, max, w).value;
            && WithinCap(q, t)
            && (if Resets(w) then 0 else begun + if Begins(w) then 1 else 0) <= q.rs.consecutiveFailures + InFlight(q)
  {
    if w.Transition? { TableByRank(before.rs.state, w.req.to); }
  }

  /** No commit ever left the profile escalated and mid-cycle. */
  ghost predicate NeverMasked(p: Profile, max: nat, log: seq<Write>) {
    && Replay(p, max, log).Some? && !Masked(Replay(p, max, log).value)
    && (log != [] ==> NeverMasked(p, max, Front(log)))
  }

  lemma {:induction false} BegunAtMost(p: Profile, max: nat, log: seq<Write>, t: int)
    requires OneThreshold(p, log, t) && WithinCap(p, t) && NeverMasked(p, max, log)
    ensures BegunSinceReset(log) <= t
  {
    if log != [] {
      BegunAtMost(p, max, Front(log), t);
      if Begins(Last(log)) {
        CommitsKeepCap(p, max, Front(log), t);
        var before := Replay(p, max, Front(log)).value;
        TableByRank(before.rs.state, Triggered);
        assert !before.rs.escalated;
      }
    } else {
      assert Limit(p.spec) > 0;
    }
  }

  // ----- every run of the fleet -----

  /** A step adds at most one commit to a profile's log. */
  lemma LogGrows(f: Fleet, e: Event, name: string)
    requires Enabled(f, e) && name in f.members
    ensures var g := Next(f, e);
            && name in g.members && g.max == f.max
            && g.members[name].start == f.members[name].start
            && var log := g.members[name].log;
               log == f.members[name].log || (log != [] && Front(log) == f.members[name].log)
  {
    hide Apply, Fits, Plans.ReconcilePlan, HintsAfter, Spent, RateLimiter.Reserve;
  }

  lemma {:induction false} RunsAreNeverMasked(trace: seq<Fleet>, events: seq<Event>, n: nat, name: string)
    requires Reachable(trace, events, n) && name in trace[0].members
    ensures name in trace[n].members
    ensures NeverMasked(trace[n].members[name].start, trace[n].max, trace[n].members[name].log)
  {
    hide Apply, Enabled, Next, Legality.Accepts, TokensRight, TokensDistinct, HintsRight;
    if n == 0 {
      ReplayEmpty(trace[0].members[name].start, trace[0].max);
    } else {
      RunsAreNeverMasked(trace, events, n - 1, name);
      assert Enabled(trace[n - 1], events[n - 1]) && trace[n] == Next(trace[n - 1], events[n - 1]);
      LogGrows(trace[n - 1], events[n - 1], name);
      MemberIsRight(trace, events, n, name);
    }
  }

  /** In every reachable state a profile is escalated or has failures to spare; once escalated it
      has no worker and no cycle in flight; and it has begun at most `t` cycles since the last full
      clear or the last ending that did not fail. */
  lemma FailuresAreCapped(trace: seq<Fleet>, events: seq<Event>, n: nat, name: string, t: int)
    requires Reachable(trace, events, n) && name in trace[0].members && name in trace[n].members
    requires var m := trace[n].members[name]; OneThreshold(m.start, m.log, t) && WithinCap(m.start, t)
    ensures var m := trace[n].members[name];
            && (m.profile.rs.escalated || m.profile.rs.consecutiveFailures < t)
            && (m.profile.rs.escalated ==> Idle(m) && !m.profile.rs.state.MidCycle())
            && BegunSinceReset(m.log) <= t
  {
    hide Run, Replay, Legality.Accepts, OneThreshold, BegunSinceReset, NeverMasked;
    MemberIsRight(trace, events, n, name);
    RunsAreNeverMasked(trace, events, n, name);
    var m := trace[n].members[name];
    CommitsKeepCap(m.start, trace[n].max, m.log, t);
    BegunAtMost(m.start, trace[n].max, m.log, t);
  }
}

/**
 When the limiter can refuse at all: only with so many workers already waiting for tokens that
 one more does not come due within the timeout.
 */
module Waiting {
  import opened Profile
  import opened RateLimiter
  import opened Fleet
  import opened FleetResults

  ghost predicate HeldIn(f: Fleet, names: set<string>, grant: nat) {
    exists n :: n in names && n in f.members && f.members[n].reserved == Some(grant)
  }

  ghost predicate HeldBySome(f: Fleet, grant: nat) { HeldIn(f, f.members.Keys, grant) }

  /** Every grant still to come due is reserved by a worker that waits for it. */
  ghost predicate UndueHeld(f: Fleet) {
    forall i: nat :: i < |f.grants| && !Usable(f, i) ==> HeldBySome(f, i)
  }

  /** No reservation is given up before it is due. */
  ghost predicate KeepsWaiting(f: Fleet, g: Fleet) {
    && g.bucket.limit == f.bucket.limit > 0 && g.grants == f.grants && f.now <= g.now
    && forall n :: n in f.members ==>
         && n in g.members
         && var held := f.members[n].reserved;
            g.members[n].reserved == held || (held.Some? && Usable(f, held.value))
  }

  lemma WaitingKeeps(f: Fleet, g: Fleet)
    requires UndueHeld(f) && KeepsWaiting(f, g)
    ensures UndueHeld(g)
  {
    UsableLater(f, g);
    forall i: nat | i < |g.grants| && !Usable(g, i)
      ensures HeldBySome(g, i)
    {
      assert HeldBySome(f, i);
      var n :| n in f.members && f.members[n].reserved == Some(i);
      assert g.members[n].reserved == Some(i);
    }
  }

  lemma ReserveHeld(f: Fleet, name: string, timeout: int)
    requires UndueHeld(f) && Enabled(f, Reserve(name, timeout))
    ensures UndueHeld(Next(f, Reserve(name, timeout)))
  {
    hide RateLimiter.Reserve;
    var g := Next(f, Reserve(name, timeout));
    forall i: nat | i < |g.grants| && !Usable(g, i)
      ensures HeldBySome(g, i)
    {
      if i < |f.grants| {
        assert g.grants[i] == f.grants[i] && HeldBySome(f, i);
        var n :| n in f.members && f.members[n].reserved == Some(i);
        assert n != name && g.members[n].reserved == Some(i);
      } else {
        assert g.members[name].reserved == Some(i);
      }
    }
  }

  lemma PerformKeepsWaiting(f: Fleet, name: string, id: nat)
    requires MembersRight(f) && f.bucket.limit > 0 && Enabled(f, Perform(name, id))
    ensures KeepsWaiting(f, Next(f, Perform(name, id)))
  {
    hide Fits, Step.Apply, Step.Replay, Legality.Accepts, HintsAfter, Spent, AfterEffect, Doomed;
    var m := f.members[name];
    assert MemberRight(m, Key(name), f.max, f.now);
    if !m.worker.effect.Write? { EffectTokens(m, f.now); }
  }

  lemma OtherStepsKeepWaiting(f: Fleet, e: Event)
    requires MembersRight(f) && f.bucket.limit > 0 && Enabled(f, e) && !e.Reserve? && !e.Crash? && !e.Perform?
    ensures KeepsWaiting(f, Next(f, e))
  {
    hide Plans.ReconcilePlan, Fits, Step.Apply, Step.Replay, Legality.Accepts, Spent, Doomed;
    match e
    case LoseWrite(name, _, _) => assert MemberRight(f.members[name], Key(name), f.max, f.now);
    case Begin(name, _, _) => assert MemberRight(f.members[name], Key(name), f.max, f.now);
    case _ =>
  }

  lemma NextHeld(f: Fleet, e: Event)
    requires MembersRight(f) && f.bucket.limit > 0 && UndueHeld(f) && Enabled(f, e)
    ensures UndueHeld(Next(f, e))
  {
    hide MembersRight, UndueHeld, Enabled, KeepsWaiting;
    match e
    case Reserve(name, timeout) => ReserveHeld(f, name, timeout);
    case Crash => NothingIsHeld(Next(f, e));
    case Perform(name, id) =>
      PerformKeepsWaiting(f, name, id);
      WaitingKeeps(f, Next(f, e));
    case _ =>
      OtherStepsKeepWaiting(f, e);
      WaitingKeeps(f, Next(f, e));
  }

  lemma {:induction false} UndueAreHeld(trace: seq<Fleet>, events: seq<Event>, n: nat)
    requires Reachable(trace, events, n)
    ensures UndueHeld(trace[n])
  {
    hide MemberRight, TokensDistinct, HintsRight, UndueHeld, Enabled, Next, InStep;
    if n == 0 {
      NothingIsHeld(trace[0]);
    } else {
      UndueAreHeld(trace, events, n - 1);
      EveryRunKeepsInv(trace, events, n - 1);
      assert Enabled(trace[n - 1], events[n - 1]) && trace[n] == Next(trace[n - 1], events[n - 1]);
      NextHeld(trace[n - 1], events[n - 1]);
    }
  }

  lemma NothingIsHeld(f: Fleet)
    requires f.grants == []
    ensures UndueHeld(f)
  {
  }

  /** The members whose worker waits for a token that is not due. */
  function WaitingNow(f: Fleet): set<string> {
    set n | n in f.members && f.members[n].reserved.Some? && f.members[n].reserved.value < |f.grants|
            && !Due(f.bucket.limit, f.grants[f.members[n].reserved.value], f.now)
  }

  lemma {:induction false} OneEach(f: Fleet, names: set<string>, lo: nat, hi: nat)
    requires lo <= hi
    requires forall i: nat :: lo <= i < hi ==> HeldIn(f, names, i)
    ensures hi - lo <= |names|
    decreases hi - lo
  {
    if lo < hi {
      assert HeldIn(f, names, hi - 1);
      var n :| n in names && n in f.members && f.members[n].reserved == Some(hi - 1);
      forall i: nat | lo <= i < hi - 1
        ensures HeldIn(f, names - {n}, i)
      {
        assert HeldIn(f, names, i);
        var o :| o in names && o in f.members && f.members[o].reserved == Some(i);
        assert o in names - {n};
      }
      OneEach(f, names - {n}, lo, hi - 1);
    }
  }

  /** Distinct members hold distinct reservations, so there are no more of them than grants. */
  lemma {:induction false} NoMoreThanGrants(f: Fleet, names: set<string>, lo: nat, hi: nat)
    requires TokensDistinct(f) && lo <= hi && names <= f.members.Keys
    requires forall n :: n in names ==> f.members[n].reserved.Some? && lo <= f.members[n].reserved.value < hi
    ensures |names| <= hi - lo
    decreases hi - lo
  {
    if lo < hi {
      if n :| n in names && f.members[n].reserved == Some(hi - 1) {
        forall o | o in names - {n}
          ensures f.members[o].reserved.value < hi - 1
        {
          assert Holds(f.members[o]) != Holds(f.members[n]);
        }
        NoMoreThanGrants(f, names - {n}, lo, hi - 1);
      } else {
        NoMoreThanGrants(f, names, lo, hi - 1);
      }
    } else {
      assert names == {};
    }
  }

  /** The grants not yet due are the last ones, as many as there are workers waiting. */
  lemma WaitingCount(trace: seq<Fleet>, events: seq<Event>, n: nat) returns (k: nat)
    requires Reachable(trace, events, n)
    ensures var f := trace[n];
            && k <= |f.grants| && |WaitingNow(f)| == |f.grants| - k
            && (forall i :: 0 <= i < k ==> Due(f.bucket.limit, f.grants[i], f.now))
            && (forall i :: k <= i < |f.grants| ==> !Due(f.bucket.limit, f.grants[i], f.now))
  {
    hide Run, MembersRight, HintsRight, TokensDistinct, Instant;
    var f := trace[n];
    EveryRunKeepsInv(trace, events, n);
    UndueAreHeld(trace, events, n);
    k := |f.grants|;
    while k > 0 && !Due(f.bucket.limit, f.grants[k - 1], f.now)
      invariant 0 <= k <= |f.grants|
      invariant forall i :: k <= i < |f.grants| ==> !Due(f.bucket.limit, f.grants[i], f.now)
    {
      k := k - 1;
    }
    forall i | 0 <= i < k
      ensures Due(f.bucket.limit, f.grants[i], f.now)
    {
      GrantsAreSpaced(f.bucket.limit, f.startedAt, f.grants, i, k - 1);
    }
    forall i: nat | k <= i < |f.grants|
      ensures HeldIn(f, WaitingNow(f), i)
    {
      assert !Usable(f, i) && HeldBySome(f, i);
      var m :| m in f.members && f.members[m].reserved == Some(i);
      assert m in WaitingNow(f);
    }
    OneEach(f, WaitingNow(f), k, |f.grants|);
    NoMoreThanGrants(f, WaitingNow(f), k, |f.grants|);
  }

  /** A worker that asks while `w` others wait is granted its token whenever w + 1 tokens come
      within the timeout, and refused whenever the w tokens ahead of it alone fill it. */
  lemma WaitingDecides(trace: seq<Fleet>, events: seq<Event>, n: nat, timeout: int)
    requires Reachable(trace, events, n)
    ensures var f := trace[n];
            var answer, w := RateLimiter.Reserve(f.bucket, f.now, timeout), |WaitingNow(f)|;
            && (TOKEN * (w + 1) <= timeout * f.bucket.limit ==> answer.Some?)
            && (w > 0 && TOKEN * w >= timeout * f.bucket.limit ==> answer.None?)
  {
    hide Run, MembersRight, HintsRight, TokensDistinct, RateLimiter.Reserve, Instant, WaitingNow;
    var f := trace[n];
    EveryRunKeepsInv(trace, events, n);
    var k := WaitingCount(trace, events, n);
    var w := |WaitingNow(f)|;
    if TOKEN * (w + 1) <= timeout * f.bucket.limit {
      GrantedIfFewWait(f.bucket, f.startedAt, f.grants, f.now, timeout, w);
    }
    if w > 0 && TOKEN * w >= timeout * f.bucket.limit {
      RefusedIfManyWait(f.bucket, f.startedAt, f.grants, f.now, timeout, w);
    }
  }

  /** For a timeout of whole minutes that is exact: the worker is refused if and only if
      60 * w >= timeout * limit. */
  lemma RefusedIff(trace: seq<Fleet>, events: seq<Event>, n: nat, minutes: nat)
    requires Reachable(trace, events, n) && minutes > 0
    ensures var f, timeout := trace[n], 60 * minutes;
            RateLimiter.Reserve(f.bucket, f.now, timeout).None? <==> TOKEN * |WaitingNow(f)| >= timeout * f.bucket.limit
  {
    hide Run, MembersRight, HintsRight, TokensDistinct, InStep, RateLimiter.Reserve, WaitingNow;
    EveryRunKeepsInv(trace, events, n);
    var f := trace[n];
    WaitingDecides(trace, events, n, 60 * minutes);
    WholeMinutes(|WaitingNow(f)|, minutes, f.bucket.limit);
  }

  lemma WholeMinutes(w: nat, minutes: nat, limit: int)
    requires minutes > 0 && limit > 0
    ensures TOKEN * (w + 1) <= 60 * minutes * limit || (w > 0 && TOKEN * w >= 60 * minutes * limit)
    ensures !(TOKEN * (w + 1) <= 60 * minutes * limit && TOKEN * w >= 60 * minutes * limit)
  {
    assert minutes * limit >= 1;
    assert 60 * minutes * limit == 60 * (minutes * limit);
  }
}

/**
 The cluster-wide Move limiter: a token bucket of `limit` tokens refilled at `limit` per
 minute, whose Wait may reserve a token that is still to come.

 Tokens are counted in sixtieths, so that one second adds `limit` of them, and instants in
 units of 1/limit second, so that no rounding is needed anywhere.
 */
module RateLimiter {
  import opened Profile

  const TOKEN := 60

  /** A granted reservation: when it was asked for and what the bucket then held. */
  datatype Grant = Grant(at: int, left: int)

  /** The instant at which a grant may be used, in units of 1/limit second. */
  function Instant(limit: int, g: Grant): int {
    limit * g.at + if g.left < 0 then -g.left else 0
  }

  datatype Bucket = Bucket(limit: int, last: int, tokens: int)

  function Full(limit: int, now: int): Bucket {
    Bucket(limit, now, TOKEN * limit)
  }

  /** The bucket's content `seconds` later: no more than it holds. */
  function Refilled(limit: int, tokens: int, seconds: int): (r: int)
    ensures r <= tokens + limit * seconds && r <= TOKEN * limit
  {
    var refilled := tokens + limit * seconds;
    if refilled > TOKEN * limit then TOKEN * limit else refilled
  }

  function Available(b: Bucket, now: int): int {
    Refilled(b.limit, b.tokens, now - b.last)
  }

  /** Takes one token, now or ahead of time, if it comes within `timeout` seconds. */
  function Reserve(b: Bucket, now: int, timeout: int): Option<Grant> {
    var left := Available(b, now) - TOKEN;
    if -left <= timeout * b.limit then Some(Grant(now, left)) else None
  }

  /** Grants as a bucket hands them out, each from what the one before left. */
  ghost predicate Chained(limit: int, start: int, grants: seq<Grant>) {
    && (forall i :: 0 <= i < |grants| ==> grants[i].left <= TOKEN * limit - TOKEN && start <= grants[i].at)
    && (grants != [] ==> grants[0].left == TOKEN * limit - TOKEN)
    && (forall i :: 0 < i < |grants| ==> Follows(limit, grants[i - 1], grants[i]))
  }

  predicate Follows(limit: int, before: Grant, g: Grant) {
    before.at <= g.at && g.left == Refilled(limit, before.left, g.at - before.at) - TOKEN
  }

  /** The bucket is where the last grant left it, or still full. */
  ghost predicate InStep(b: Bucket, start: int, grants: seq<Grant>) {
    && Chained(b.limit, start, grants)
    && (if grants == [] then b == Full(b.limit, start)
        else b.last == grants[|grants| - 1].at && b.tokens == grants[|grants| - 1].left)
  }

  lemma ReserveExtends(b: Bucket, start: int, grants: seq<Grant>, now: int, timeout: int)
    requires b.limit > 0 && InStep(b, start, grants) && start <= now && b.last <= now
    requires Reserve(b, now, timeout).Some?
    ensures var g := Reserve(b, now, timeout).value;
            InStep(b.(last := now, tokens := g.left), start, grants + [g])
  {
    hide Refilled;
    if grants == [] { FullStaysFull(b.limit, now - start); }
  }

  lemma FullStaysFull(limit: int, seconds: nat)
    requires limit > 0
    ensures Refilled(limit, TOKEN * limit, seconds) == TOKEN * limit
  {
    assert limit * seconds >= 0;
  }

  lemma {:induction false} LeftAfter(limit: int, start: int, grants: seq<Grant>, i: nat, j: nat)
    requires Chained(limit, start, grants) && i <= j < |grants|
    ensures grants[i].at <= grants[j].at
    ensures grants[j].left <= grants[i].left + limit * (grants[j].at - grants[i].at) - TOKEN * (j - i)
    decreases j - i
  {
    if i < j {
      LeftAfter(limit, start, grants, i, j - 1);
      var a, b, c := grants[i].at, grants[j - 1].at, grants[j].at;
      assert limit * (b - a) + limit * (c - b) == limit * (c - a);
    }
  }

  /** Grants come in the order of their instants, and any stretch of them from i to j spans
      all but a burst's worth of refill time. */
  lemma GrantsAreSpaced(limit: int, start: int, grants: seq<Grant>, i: nat, j: nat)
    requires limit > 0 && Chained(limit, start, grants) && i <= j < |grants|
    ensures Instant(limit, grants[i]) <= Instant(limit, grants[j])
    ensures TOKEN * (j - i + 1) <= TOKEN * limit + Instant(limit, grants[j]) - Instant(limit, grants[i])
  {
    LeftAfter(limit, start, grants, i, j);
    var a, b := grants[i].at, grants[j].at;
    assert limit * (b - a) == limit * b - limit * a;
    assert limit * a <= limit * b;
  }

  /** In any window of `seconds`, at most limit + limit * seconds / 60 grants become usable. */
  lemma WindowBound(limit: int, start: int, grants: seq<Grant>, i: nat, j: nat, seconds: nat)
    requires limit > 0 && Chained(limit, start, grants) && i <= j < |grants|
    requires Instant(limit, grants[j]) - Instant(limit, grants[i]) <= limit * seconds
    ensures j - i + 1 <= limit + limit * seconds / 60
  {
    GrantsAreSpaced(limit, start, grants, i, j);
  }

  /** Counted from the start of the process: a grant usable by `now` has a low index. */
  lemma PrefixBound(limit: int, start: int, grants: seq<Grant>, j: nat, now: int)
    requires limit > 0 && Chained(limit, start, grants) && j < |grants| && start <= now
    requires Instant(limit, grants[j]) <= limit * now
    ensures j < limit + limit * (now - start) / 60
  {
    GrantsAreSpaced(limit, start, grants, 0, j);
    assert limit * start <= limit * grants[0].at;
    assert limit * now - limit * start == limit * (now - start);
  }

  predicate Due(limit: int, g: Grant, now: int) { Instant(limit, g) <= limit * now }

  /** What is left below zero counts the grants not yet due. */
  lemma {:induction false} DebtAt(limit: int, start: int, grants: seq<Grant>, k: nat, j: nat, now: int)
    requires limit > 0 && Chained(limit, start, grants) && k <= j < |grants| && start <= now
    requires grants[|grants| - 1].at <= now
    requires forall i :: 0 <= i < k ==> Due(limit, grants[i], now)
    ensures Refilled(limit, grants[j].left, now - grants[j].at) >= -TOKEN * (j - k + 1)
    decreases j
  {
    hide Refilled;
    LeftAfter(limit, start, grants, j, |grants| - 1);
    if j == 0 {
      FullLeavesNoDebt(limit, now - grants[j].at);
    } else {
      LeftAfter(limit, start, grants, j - 1, |grants| - 1);
      if j == k {
        assert Due(limit, grants[j - 1], now);
        DueLeavesNoDebt(limit, grants[j - 1], now);
      } else {
        DebtAt(limit, start, grants, k, j - 1, now);
      }
      OneMoreToken(limit, grants[j - 1], grants[j], now);
    }
  }

  lemma FullLeavesNoDebt(limit: int, seconds: nat)
    requires limit > 0
    ensures Refilled(limit, TOKEN * limit - TOKEN, seconds) >= 0
  {
    assert limit * seconds >= 0;
  }

  lemma DueLeavesNoDebt(limit: int, g: Grant, now: int)
    requires limit > 0 && Due(limit, g, now) && g.at <= now
    ensures Refilled(limit, g.left, now - g.at) >= 0
  {
    assert limit * (now - g.at) == limit * now - limit * g.at;
    assert limit * (now - g.at) >= 0;
  }

  /** A grant costs at most one token of what would be there without it. */
  lemma OneMoreToken(limit: int, before: Grant, g: Grant, now: int)
    requires limit > 0 && Follows(limit, before, g) && g.at <= now
    ensures Refilled(limit, g.left, now - g.at) >= Refilled(limit, before.left, now - before.at) - TOKEN
  {
    assert limit * (now - before.at) == limit * (now - g.at) + limit * (g.at - before.at);
    assert limit * (now - g.at) >= 0;
  }

  /** With `undue` grants still to come due, a token is granted if one more fits in the timeout. */
  lemma GrantedIfFewWait(b: Bucket, start: int, grants: seq<Grant>, now: int, timeout: int, undue: nat)
    requires b.limit > 0 && InStep(b, start, grants) && start <= now && b.last <= now && undue <= |grants|
    requires forall i :: 0 <= i < |grants| - undue ==> Due(b.limit, grants[i], now)
    requires TOKEN * (undue + 1) <= timeout * b.limit
    ensures Reserve(b, now, timeout).Some?
  {
    hide Refilled;
    if grants == [] {
      FullStaysFull(b.limit, now - start);
    } else if undue == 0 {
      DueLeavesNoDebt(b.limit, grants[|grants| - 1], now);
    } else {
      DebtAt(b.limit, start, grants, |grants| - undue, |grants| - 1, now);
    }
  }

  /** With `undue` grants still to come due, none is granted if those alone fill the timeout. */
  lemma RefusedIfManyWait(b: Bucket, start: int, grants: seq<Grant>, now: int, timeout: int, undue: nat)
    requires b.limit > 0 && InStep(b, start, grants) && b.last <= now && 0 < undue <= |grants|
    requires !Due(b.limit, grants[|grants| - undue], now)
    requires TOKEN * undue >= timeout * b.limit
    ensures Reserve(b, now, timeout).None?
  {
    hide Refilled, Due, Instant, Chained;
    var k, last := |grants| - undue, |grants| - 1;
    LeftAfter(b.limit, start, grants, k, last);
    UndueLeavesDebt(b.limit, grants[k], now);
    DebtCarries(b.limit, grants[k], grants[last], last - k, now);
  }

  lemma UndueLeavesDebt(limit: int, g: Grant, now: int)
    requires limit > 0 && !Due(limit, g, now) && g.at <= now
    ensures g.left + limit * (now - g.at) < 0
  {
    assert limit * (now - g.at) == limit * now - limit * g.at;
    assert limit * (now - g.at) >= 0;
  }

  lemma DebtCarries(limit: int, g: Grant, last: Grant, more: nat, now: int)
    requires last.left <= g.left + limit * (last.at - g.at) - TOKEN * more && g.left + limit * (now - g.at) < 0
    ensures Refilled(limit, last.left, now - last.at) < -TOKEN * more
  {
    assert limit * (last.at - g.at) + limit * (now - last.at) == limit * (now - g.at);
  }

  /** At a limit of one Move a minute and a timeout of five: of seven workers that ask at once
      six are granted a token, the last due just in time, and the seventh is refused. */
  lemma SeventhIsRefused()
    ensures var limit, timeout := 1, 300;
            && Full(limit, 0) == Bucket(limit, 0, TOKEN)
            && (forall k :: 0 <= k < 6 ==> Reserve(Bucket(limit, 0, TOKEN - TOKEN * k), 0, timeout) == Some(Grant(0, -TOKEN * k)))
            && Reserve(Bucket(limit, 0, TOKEN - TOKEN * 6), 0, timeout) == None
  {
  }

  /** A refusal is given at once, without waiting: asked again, the same bucket refuses until
      the refill has made up what was lacking beyond the timeout. */
  lemma RefusedUntilRefilled(b: Bucket, now: int, later: int, timeout: nat)
    requires b.limit > 0 && b.last <= now <= later && Reserve(b, now, timeout).None?
    ensures Reserve(b, later, timeout).None? <==> b.limit * (later - now) < TOKEN - Available(b, now) - timeout * b.limit
  {
    assert b.limit * (later - b.last) == b.limit * (later - now) + b.limit * (now - b.last);
    assert timeout * b.limit >= 0;
  }

  /** The limiter object shared by every profile's worker. */
  class MoveRateLimiter {
    var bucket: Bucket
    ghost const start: int
    ghost var grants: seq<Grant>

    ghost predicate Valid()
      reads this
    {
      bucket.limit > 0 && bucket.last >= start && InStep(bucket, start, grants)
    }

    constructor (limit: int, now: int)
      requires limit > 0
      ensures Valid() && grants == [] && bucket == Full(limit, now)
    {
      bucket := Full(limit, now);
      start := now;
      grants := [];
    }

    /** True once a token is granted within the timeout; otherwise nothing is taken. */
    method Wait(now: int, timeout: int) returns (granted: bool)
      requires Valid() && bucket.last <= now
      modifies this
      ensures Valid() && bucket.limit == old(bucket.limit)
      ensures var g := Reserve(old(bucket), now, timeout);
              && granted == g.Some?
              && grants == (if g.Some? then old(grants) + [g.value] else old(grants))
              && (!granted ==> bucket == old(bucket))
    {
      var g := Reserve(bucket, now, timeout);
      if g.None? { return false; }
      ReserveExtends(bucket, start, grants, now, timeout);
      bucket := bucket.(last := now, tokens := g.value.left);
      grants := grants + [g.value];
      return true;
    }
  }
}

/** The hub's per-session token bucket (takeToken in pkg/rrc/hub.go), over real time in seconds. */
module RateLimit {

  datatype Bucket = Bucket(tokens: real, lastRefill: real)

  /** acceptLink gives a new session a full bucket. */
  function Fresh(limit: nat, now: real): Bucket {
    Bucket(limit as real, now)
  }

  /** Tokens earned between two clock readings, at limit tokens a minute. */
  function Earned(limit: nat, from: real, to: real): (e: real)
    ensures e >= 0.0
  {
    var d := if to < from then 0.0 else to - from;
    d * (limit as real / 60.0)
  }

  function Refilled(b: Bucket, limit: nat, now: real): real {
    var t := b.tokens + Earned(limit, b.lastRefill, now);
    if t > limit as real then limit as real else t
  }

  /** takeToken: refill up to the cap, then spend one token if there is one. A zero limit is no limit. */
  function Take(b: Bucket, limit: nat, now: real): (bool, Bucket) {
    if limit == 0 then (true, b)
    else
      var t := Refilled(b, limit, now);
      if t < 1.0 then (false, Bucket(t, now)) else (true, Bucket(t - 1.0, now))
  }

  class Session {
    var tokens: real
    var lastRefill: real

    constructor (limit: nat, now: real)
      ensures Bucket(tokens, lastRefill) == Fresh(limit, now)
    {
      tokens, lastRefill := limit as real, now;
    }

    method TakeToken(limit: nat, now: real) returns (ok: bool)
      modifies this
      ensures (ok, Bucket(tokens, lastRefill)) == Take(old(Bucket(tokens, lastRefill)), limit, now)
    {
      if limit == 0 { return true; }
      var elapsed := now - lastRefill;
      if elapsed < 0.0 {
        elapsed := 0.0;
      }
      var tokenCap := limit as real;
      tokens := tokens + elapsed * (tokenCap / 60.0);
      if tokens > tokenCap {
        tokens := tokenCap;
      }
      lastRefill := now;
      if tokens < 1.0 { return false; }
      tokens := tokens - 1.0;
      return true;
    }
  }

  // ----- whole runs of calls -------------------------------------------------

  function After(b: Bucket, limit: nat, times: seq<real>): Bucket
    decreases |times|
  {
    if times == [] then b else After(Take(b, limit, times[0]).1, limit, times[1..])
  }

  function Accepted(b: Bucket, limit: nat, times: seq<real>): nat
    decreases |times|
  {
    if times == [] then 0
    else
      var (ok, b') := Take(b, limit, times[0]);
      (if ok then 1 else 0) + Accepted(b', limit, times[1..])
  }

  /** Tokens earned over a run of calls; backward jumps of the clock earn nothing. */
  function Earnings(limit: nat, from: real, times: seq<real>): real
    decreases |times|
  {
    if times == [] then 0.0 else Earned(limit, from, times[0]) + Earnings(limit, times[0], times[1..])
  }

  ghost predicate NonDecreasing(times: seq<real>) {
    forall i, j :: 0 <= i < j < |times| ==> times[i] <= times[j]
  }

  lemma SliceNonDecreasing(times: seq<real>, i: nat, j: nat)
    requires NonDecreasing(times) && i <= j <= |times|
    ensures NonDecreasing(times[i..j])
  {
    forall k, m | 0 <= k < m < j - i ensures times[i..j][k] <= times[i..j][m] {
      assert times[i + k] <= times[i + m];
    }
  }

  lemma EarnedAdds(limit: nat, a: real, b: real, c: real)
    requires a <= b <= c
    ensures Earned(limit, a, c) == Earned(limit, a, b) + Earned(limit, b, c)
  {
    var r := limit as real / 60.0;
    assert (c - a) * r == (b - a) * r + (c - b) * r;
  }

  lemma {:induction false} EarningsTelescope(limit: nat, from: real, times: seq<real>)
    requires NonDecreasing(times) && (times != [] ==> from <= times[0])
    ensures Earnings(limit, from, times) == if times == [] then 0.0 else Earned(limit, from, times[|times| - 1])
    decreases |times|
  {
    if times != [] {
      EarningsTelescope(limit, times[0], times[1..]);
      EarnedAdds(limit, from, times[0], times[|times| - 1]);
      assert Earned(limit, times[0], times[0]) == 0.0;
    }
  }

  /** Conservation: what a run accepts is paid by tokens held before plus tokens earned on the way. */
  lemma {:induction false} TokensConserved(b: Bucket, limit: nat, times: seq<real>)
    requires limit > 0 && b.tokens >= 0.0
    ensures Accepted(b, limit, times) as real + After(b, limit, times).tokens
            <= b.tokens + Earnings(limit, b.lastRefill, times)
    ensures After(b, limit, times).tokens >= 0.0
    decreases |times|
  {
    if times != [] {
      TokensConserved(Take(b, limit, times[0]).1, limit, times[1..]);
    }
  }

  /** Any session, any clock: a run of calls is accepted at most limit times plus what it earns. */
  lemma RunBound(b: Bucket, limit: nat, times: seq<real>)
    requires limit > 0 && b.tokens >= 0.0 && times != []
    ensures Accepted(b, limit, times) as real <= limit as real + Earnings(limit, times[0], times[1..])
  {
    TokensConserved(Take(b, limit, times[0]).1, limit, times[1..]);
  }

  /** The accepted count of calls i to j of a session opened at `start`. */
  function Between(limit: nat, start: real, times: seq<real>, i: nat, j: nat): nat
    requires i <= j < |times|
  {
    Accepted(After(Fresh(limit, start), limit, times[..i]), limit, times[i..j + 1])
  }

  lemma WindowEarnings(limit: nat, w: seq<real>, times: seq<real>, i: nat, j: nat)
    requires NonDecreasing(times) && i <= j < |times| && w == times[i..j + 1]
    ensures Earnings(limit, w[0], w[1..]) == Earned(limit, times[i], times[j])
  {
    SliceNonDecreasing(times, i + 1, j + 1);
    assert w[1..] == times[i + 1..j + 1];
    EarningsTelescope(limit, w[0], w[1..]);
  }

  /** With a clock that does not go back, every window [times[i], times[j]] obeys the rate limit. */
  lemma WindowBound(limit: nat, start: real, times: seq<real>, i: nat, j: nat)
    requires limit > 0 && NonDecreasing(times) && i <= j < |times|
    ensures Between(limit, start, times, i, j) as real <= limit as real + Earned(limit, times[i], times[j])
  {
    var b := After(Fresh(limit, start), limit, times[..i]);
    TokensConserved(Fresh(limit, start), limit, times[..i]);
    assert b.tokens >= 0.0;
    WindowEarnings(limit, times[i..j + 1], times, i, j);
    RunBound(b, limit, times[i..j + 1]);
  }

  // ----- and it is not stricter than that ------------------------------------

  lemma {:induction false} RunSplits(b: Bucket, limit: nat, s: seq<real>, t: seq<real>)
    ensures After(b, limit, s + t) == After(After(b, limit, s), limit, t)
    ensures Accepted(b, limit, s + t) == Accepted(b, limit, s) + Accepted(After(b, limit, s), limit, t)
    decreases |s|
  {
    if s == [] {
      assert s + t == t;
    } else {
      assert (s + t)[1..] == s[1..] + t;
      RunSplits(Take(b, limit, s[0]).1, limit, s[1..], t);
    }
  }

  lemma OneCall(b: Bucket, limit: nat, now: real)
    ensures After(b, limit, [now]) == Take(b, limit, now).1
    ensures Accepted(b, limit, [now]) == if Take(b, limit, now).0 then 1 else 0
  {
    assert [now][1..] == [];
  }

  /** One more call at the end of a run and of every window that ends there. */
  lemma RunExtends(limit: nat, start: real, init: seq<real>, now: real, i: nat)
    requires i <= |init|
    ensures var times, b := init + [now], After(Fresh(limit, start), limit, init);
            After(Fresh(limit, start), limit, times) == Take(b, limit, now).1 &&
            Between(limit, start, times, i, |init|) ==
            Accepted(After(Fresh(limit, start), limit, init[..i]), limit, init[i..]) +
            if Take(b, limit, now).0 then 1 else 0
  {
    var times, f := init + [now], Fresh(limit, start);
    var b := After(f, limit, init);
    assert init[..i] + init[i..] == init;
    RunSplits(f, limit, init[..i], init[i..]);
    OneCall(b, limit, now);
    RunSplits(f, limit, init, [now]);
    RunSplits(After(f, limit, init[..i]), limit, init[i..], [now]);
    assert times[i..|init| + 1] == init[i..] + [now] && times[..i] == init[..i];
  }

  /** Since the last call that found the bucket full, no earned token has been lost. */
  lemma {:induction false} FullSince(limit: nat, start: real, init: seq<real>, now: real) returns (i: nat)
    requires limit > 0 && NonDecreasing(init + [now])
    ensures i <= |init|
    ensures var times := init + [now];
            After(Fresh(limit, start), limit, times)
            == Bucket(limit as real - Between(limit, start, times, i, |init|) as real
                      + Earned(limit, times[i], now), now)
    decreases |init|
  {
    var b := After(Fresh(limit, start), limit, init);
    if init == [] || Refilled(b, limit, now) == limit as real {
      i := |init|;
      RunExtends(limit, start, init, now, i);
    } else {
      var n := |init| - 1;
      assert init == init[..n] + [init[n]] == (init + [now])[0..n + 1];
      SliceNonDecreasing(init + [now], 0, n + 1);
      i := FullSince(limit, start, init[..n], init[n]);
      RunExtends(limit, start, init, now, i);
      assert init[i..n + 1] == init[i..];
      assert (init + [now])[i] <= (init + [now])[n] <= (init + [now])[n + 1];
      EarnedAdds(limit, init[i], init[n], now);
    }
  }

  /** A call is refused only if some window ending at it had already used its whole budget. */
  lemma RefusedOnlyWhenSpent(limit: nat, start: real, times: seq<real>, j: nat)
    requires limit > 0 && NonDecreasing(times) && j < |times|
    requires !Take(After(Fresh(limit, start), limit, times[..j]), limit, times[j]).0
    ensures exists i :: 0 <= i <= j &&
              Between(limit, start, times, i, j) as real > limit as real - 1.0 + Earned(limit, times[i], times[j])
  {
    var upto := times[..j] + [times[j]];
    assert upto == times[..j + 1];
    var i := FullSince(limit, start, times[..j], times[j]);
    RunExtends(limit, start, times[..j], times[j], i);
    assert upto[..i] == times[..i] && upto[i..j + 1] == times[i..j + 1];
    assert Between(limit, start, times, i, j) == Between(limit, start, upto, i, j);
  }
}

/** The per-user fixed-window query limiter: the atomic script on its shared counters, and what any
    sequence of calls is admitted. Times are the store's clock in milliseconds. */
module RateLimiter {
  import opened Prelude

  /** A counter and the time it expires at, if it has an expiry. */
  datatype Counter = Counter(count: nat, expiresAt: Option<Time>)

  type Key = (Uuid, Uuid)

  type Counters = map<Key, Counter>

  datatype Limit = Limit(requests: nat, windowSeconds: nat) {
    predicate Valid() {
      requests >= 1 && windowSeconds >= 1
    }

    function Window(): nat {
      windowSeconds * 1000
    }

    /** The store still serves a key in the millisecond it expires in. */
    ghost function Lifetime(): nat {
      1000 * windowSeconds + 1
    }
  }

  datatype Decision = Decision(allowed: bool, retryAfterSeconds: nat)

  /** An expired key does not exist; a key expires once its time has passed. */
  predicate Live(c: Counters, key: Key, now: Time) {
    key in c && (c[key].expiresAt.Some? ==> now <= c[key].expiresAt.value)
  }

  /** The script's one step on a counter: open a window, count in the open one, or give a counter that
      somehow has no expiry a new one. */
  function Bumped(c: Counters, key: Key, limit: Limit, now: Time): Counter {
    if !Live(c, key, now) then Counter(1, Some(now + limit.Window()))
    else if c[key].expiresAt.None? || c[key].count == 0 then Counter(c[key].count + 1, Some(now + limit.Window()))
    else c[key].(count := c[key].count + 1)
  }

  /** `TTL` in seconds, rounded to the nearest as the store does, and at least one. */
  function RetryAfter(expiresAt: Time, now: Time): nat
    requires now <= expiresAt
  {
    if (expiresAt - now + 500) / 1000 < 1 then 1 else (expiresAt - now + 500) / 1000
  }

  class QueryRateLimiter {
    var counters: Counters

    constructor ()
      ensures counters == map[]
    {
      counters := map[];
    }

    method Acquire(tenant: Uuid, user: Uuid, limit: Limit, now: Time) returns (decision: Decision)
      requires limit.Valid()
      modifies this
      ensures var counter := Bumped(old(counters), (tenant, user), limit, now);
              && counters == old(counters)[(tenant, user) := counter]
              && decision.allowed == (counter.count <= limit.requests)
              && decision.retryAfterSeconds == RetryAfter(counter.expiresAt.value, now)
    {
      var key := (tenant, user);
      var count, expiresAt := 1, None;
      if Live(counters, key, now) {
        count, expiresAt := counters[key].count + 1, counters[key].expiresAt;
      }
      if count == 1 {
        expiresAt := Some(now + limit.Window());
      }
      if expiresAt.None? {
        expiresAt := Some(now + limit.Window());
      }
      counters := counters[key := Counter(count, expiresAt)];
      decision := Decision(count <= limit.requests, RetryAfter(expiresAt.value, now));
    }
  }

  // ---------------------------------------------------------------- traces

  datatype Call = Call(key: Key, at: Time)

  /** The decisions for a sequence of calls under one limit. */
  function Decisions(c: Counters, limit: Limit, calls: seq<Call>): (allowed: seq<bool>)
    ensures |allowed| == |calls|
    decreases |calls|
  {
    if calls == [] then []
    else
      var counter := Bumped(c, calls[0].key, limit, calls[0].at);
      [counter.count <= limit.requests] + Decisions(c[calls[0].key := counter], limit, calls[1..])
  }

  /** The times of one user's calls. */
  function TimesOf(calls: seq<Call>, key: Key): seq<Time> {
    if calls == [] then []
    else (if calls[0].key == key then [calls[0].at] else []) + TimesOf(calls[1..], key)
  }

  /** The decisions one user got. */
  function DecisionsOf(calls: seq<Call>, allowed: seq<bool>, key: Key): seq<bool>
    requires |calls| == |allowed|
  {
    if calls == [] then []
    else (if calls[0].key == key then [allowed[0]] else []) + DecisionsOf(calls[1..], allowed[1..], key)
  }

  /** The call that opened the window in which call `i` is counted: windows of fixed length, each opened
      by the first call after the one before it has ended. */
  function Opener(times: seq<Time>, window: nat, i: nat): (o: nat)
    requires i < |times|
    ensures o <= i
  {
    if i == 0 then 0
    else if times[i] < times[Opener(times, window, i - 1)] + window then Opener(times, window, i - 1)
    else i
  }

  predicate InOrder(times: seq<Time>) {
    forall i, j :: 0 <= i <= j < |times| ==> times[i] <= times[j]
  }

  /** What one user should get: in each window, the first `requests` calls and no others. */
  ghost function Admitted(times: seq<Time>, limit: Limit): (allowed: seq<bool>)
    ensures |allowed| == |times|
  {
    seq(|times|, i requires 0 <= i < |times| => i - Opener(times, limit.Lifetime(), i) < limit.requests)
  }

  /** The store counts what the windows of the calls so far say. */
  ghost predicate Counts(c: Counters, key: Key, limit: Limit, times: seq<Time>) {
    if times == [] then key !in c
    else
      var last := |times| - 1;
      var o := Opener(times, limit.Lifetime(), last);
      key in c && c[key] == Counter(last - o + 1, Some(times[o] + limit.Window()))
  }

  lemma {:induction false} OpenerOfPrefix(times: seq<Time>, more: seq<Time>, window: nat, i: nat)
    requires i < |times|
    ensures Opener(times + more, window, i) == Opener(times, window, i)
  {
    if i > 0 {
      OpenerOfPrefix(times, more, window, i - 1);
    }
  }

  /** One call keeps the count right and gets the decision its place in its window earns. */
  lemma CallCounts(c: Counters, key: Key, limit: Limit, times: seq<Time>, at: Time)
    requires limit.Valid() && Counts(c, key, limit, times)
    ensures var counter := Bumped(c, key, limit, at);
            && Counts(c[key := counter], key, limit, times + [at])
            && (counter.count <= limit.requests) == Admitted(times + [at], limit)[|times|]
  {
    if times != [] {
      OpenerOfPrefix(times, [at], limit.Lifetime(), |times| - 1);
    }
  }

  lemma {:induction false} AdmittedOfPrefix(times: seq<Time>, more: seq<Time>, limit: Limit)
    ensures Admitted(times + more, limit)[..|times|] == Admitted(times, limit)
  {
    forall i | 0 <= i < |times| ensures Admitted(times + more, limit)[i] == Admitted(times, limit)[i] {
      OpenerOfPrefix(times, more, limit.Lifetime(), i);
    }
  }

  lemma DecisionsStep(c: Counters, limit: Limit, calls: seq<Call>, key: Key)
    requires calls != []
    ensures var call := calls[0]; var counter := Bumped(c, call.key, limit, call.at);
            var c' := c[call.key := counter];
            DecisionsOf(calls, Decisions(c, limit, calls), key)
            == (if call.key == key then [counter.count <= limit.requests] else []) + DecisionsOf(calls[1..], Decisions(c',
                limit, calls[1..]), key)
  {
    hide Bumped;
    var counter := Bumped(c, calls[0].key, limit, calls[0].at);
    assert Decisions(c, limit, calls)[1..] == Decisions(c[calls[0].key := counter], limit, calls[1..]);
  }

  /** Dropping the decided prefix, one more call at a time. */
  lemma AdmittedStep(before: seq<Time>, at: Time, rest: seq<Time>, limit: Limit)
    ensures Admitted(before + [at] + rest, limit)[|before|..]
         == [Admitted(before + [at], limit)[|before|]] + Admitted(before + [at] + rest, limit)[|before| + 1..]
  {
    hide Admitted;
    AdmittedOfPrefix(before + [at], rest, limit);
    var all := Admitted(before + [at] + rest, limit);
    assert all[|before|] == all[..|before| + 1][|before|];
  }

  lemma {:induction false} DecisionsFollowTheWindows(c: Counters, limit: Limit, calls: seq<Call>, key: Key,
                                                     before: seq<Time>)
    requires limit.Valid() && Counts(c, key, limit, before)
    ensures DecisionsOf(calls, Decisions(c, limit, calls), key)
         == Admitted(before + TimesOf(calls, key), limit)[|before|..]
    decreases |calls|
  {
    hide Bumped, Admitted, Decisions, DecisionsOf;
    if calls == [] {
      assert before + TimesOf(calls, key) == before;
      assert DecisionsOf(calls, Decisions(c, limit, calls), key) == [] by { NoDecisions(c, limit, key); }
    } else {
      var call, rest := calls[0], calls[1..];
      var c' := c[call.key := Bumped(c, call.key, limit, call.at)];
      DecisionsStep(c, limit, calls, key);
      if call.key == key {
        CallCounts(c, key, limit, before, call.at);
        DecisionsFollowTheWindows(c', limit, rest, key, before + [call.at]);
        assert before + TimesOf(calls, key) == before + [call.at] + TimesOf(rest, key);
        AdmittedStep(before, call.at, TimesOf(rest, key), limit);
      } else {
        OtherCalls(c, key, limit, before, call);
        DecisionsFollowTheWindows(c', limit, rest, key, before);
        assert TimesOf(calls, key) == TimesOf(rest, key);
      }
    }
  }

  lemma NoDecisions(c: Counters, limit: Limit, key: Key)
    ensures DecisionsOf([], Decisions(c, limit, []), key) == []
  {
  }

  lemma OtherCalls(c: Counters, key: Key, limit: Limit, times: seq<Time>, call: Call)
    requires Counts(c, key, limit, times) && call.key != key
    ensures Counts(c[call.key := Bumped(c, call.key, limit, call.at)], key, limit, times)
  {
    hide Bumped, Opener;
  }

  /** From an empty store and whatever other users do, a user's calls are decided by their own windows:
      a call is admitted exactly when fewer than `requests` calls precede it in its window. */
  lemma EachUserHasTheirOwnWindows(limit: Limit, calls: seq<Call>, key: Key)
    requires limit.Valid()
    ensures DecisionsOf(calls, Decisions(map[], limit, calls), key) == Admitted(TimesOf(calls, key), limit)
  {
    DecisionsFollowTheWindows(map[], limit, calls, key, []);
    assert [] + TimesOf(calls, key) == TimesOf(calls, key);
  }

  // ---------------------------------------------------------------- how many calls are admitted

  /** How many of the calls from `from` up to `to` are admitted. */
  ghost function AdmittedBetween(times: seq<Time>, limit: Limit, from: nat, end: nat): nat
    requires from <= end <= |times|
    decreases end - from
  {
    if from == end then 0
    else AdmittedBetween(times, limit, from, end - 1) + (if Admitted(times, limit)[end - 1] then 1 else 0)
  }

  /** Within one window opened by call `o`, the calls from `from` on share what is left of the limit. */
  lemma {:induction false} SharedWindow(times: seq<Time>, limit: Limit, o: nat, from: nat, end: nat)
    requires o <= from <= end <= |times|
    requires forall i :: from <= i < end ==> Opener(times, limit.Lifetime(), i) == o
    ensures var left := if from - o < limit.requests then limit.requests - (from - o) else 0;
            AdmittedBetween(times, limit, from, end) == (if end - from < left then end - from else left)
    decreases end - from
  {
    if from < end {
      SharedWindow(times, limit, o, from, end - 1);
    }
  }

  /** A window opened by a first call admits exactly as many of its calls as the limit allows. */
  lemma WindowAdmitsUpToTheLimit(times: seq<Time>, limit: Limit, o: nat, end: nat)
    requires o <= end <= |times|
    requires forall i :: o <= i < end ==> Opener(times, limit.Lifetime(), i) == o
    ensures AdmittedBetween(times, limit, o, end) == (if end - o < limit.requests then end - o else limit.requests)
  {
    SharedWindow(times, limit, o, o, end);
  }

  lemma {:induction false} BetweenSplits(times: seq<Time>, limit: Limit, from: nat, mid: nat, end: nat)
    requires from <= mid <= end <= |times|
    ensures AdmittedBetween(times, limit, from, end)
        == AdmittedBetween(times, limit, from, mid) + AdmittedBetween(times, limit, mid, end)
    decreases end - mid
  {
    if mid < end {
      BetweenSplits(times, limit, from, mid, end - 1);
    }
  }

  /** Calls within one window length of an opener, and not before it, share its window. */
  lemma {:induction false} OpenerHolds(times: seq<Time>, window: nat, o: nat, i: nat)
    requires InOrder(times) && o <= i < |times| && Opener(times, window, o) == o && times[i] < times[o] + window
    ensures Opener(times, window, i) == o
    decreases i
  {
    if o < i {
      assert times[i - 1] <= times[i];
      OpenerHolds(times, window, o, i - 1);
    }
  }

  /** The window of a call is opened by a call that is its own opener, and every call between the two
      is counted in it. */
  lemma {:induction false} OpenerOpens(times: seq<Time>, window: nat, i: nat)
    requires i < |times|
    ensures var o := Opener(times, window, i);
            Opener(times, window, o) == o && forall j :: o <= j <= i ==> Opener(times, window, j) == o
    decreases i
  {
    if i > 0 && Opener(times, window, i) != i {
      OpenerOpens(times, window, i - 1);
    }
  }

  /** Any interval one window long, both ends included, admits at most `2 * requests - 1` of a user's calls:
      if two windows meet in it, the call that opened the first one lies before it. */
  lemma SlidingWindowBound(times: seq<Time>, limit: Limit, from: nat, end: nat)
    requires limit.Valid() && InOrder(times) && from < end <= |times|
    requires times[end - 1] <= times[from] + 1000 * limit.windowSeconds
    ensures AdmittedBetween(times, limit, from, end) <= 2 * limit.requests - 1
  {
    var window := limit.Lifetime();
    var o := Opener(times, window, end - 1);
    OpenerOpens(times, window, end - 1);
    if o <= from {
      SharedWindow(times, limit, o, from, end);
    } else {
      OpenerOpens(times, window, o - 1);
      var before := Opener(times, window, o - 1);
      assert times[before] + window <= times[o] <= times[end - 1] < times[from] + window;
      assert before < from;
      BetweenSplits(times, limit, from, o, end);
      SharedWindow(times, limit, before, from, o);
      SharedWindow(times, limit, o, o, end);
    }
  }

  /** A call with fewer than `requests` calls of its user in the window length before it is admitted. */
  lemma SparseCallsAreAdmitted(times: seq<Time>, limit: Limit, i: nat)
    requires limit.Valid() && InOrder(times) && i < |times|
    requires i < limit.requests || times[i] > times[i - limit.requests] + 1000 * limit.windowSeconds
    ensures Admitted(times, limit)[i]
  {
    var o := Opener(times, limit.Lifetime(), i);
    OpenerOpens(times, limit.Lifetime(), i);
    if o < i {
      SameWindowIsShort(times, limit.Lifetime(), i);
    }
  }

  lemma SameWindowIsShort(times: seq<Time>, window: nat, i: nat)
    requires i < |times| && Opener(times, window, i) < i
    ensures times[i] < times[Opener(times, window, i)] + window
  {
  }

  /** One call, the rest of the first window's calls just before it ends, and a full second window. */
  ghost function Burst(limit: Limit): (times: seq<Time>)
    requires limit.Valid()
    ensures |times| == 2 * limit.requests
  {
    seq(2 * limit.requests, i => if i == 0 then 0 else 1000 * limit.windowSeconds + if i < limit.requests then 0 else 1)
  }

  /** The sliding bound is exact: a burst across a window's end admits `2 * requests - 1` calls within one
      window length. */
  lemma SlidingBoundIsReached(limit: Limit)
    requires limit.Valid()
    ensures var times := Burst(limit);
            && InOrder(times) && times[|times| - 1] < times[1] + 1000 * limit.windowSeconds
            && AdmittedBetween(times, limit, 1, |times|) == 2 * limit.requests - 1
  {
    var times, n, window := Burst(limit), limit.requests, limit.Lifetime();
    forall i | 0 <= i < n ensures Opener(times, window, i) == 0 {
      OpenerHolds(times, window, 0, i);
    }
    assert Opener(times, window, n) == n by {
      assert Opener(times, window, n - 1) == 0;
    }
    forall i | n <= i < 2 * n ensures Opener(times, window, i) == n {
      OpenerHolds(times, window, n, i);
    }
    BetweenSplits(times, limit, 1, n, 2 * n);
    SharedWindow(times, limit, 0, 1, n);
    SharedWindow(times, limit, n, n, 2 * n);
  }

  // ---------------------------------------------------------------- the advertised delay

  /** The delay reported to a caller lies between one second and the window, and waiting that long outlasts
      the counter exactly when less than a second remained or rounding did not shorten the delay. */
  lemma AdvertisedDelay(limit: Limit, expiresAt: Time, now: Time)
    requires limit.Valid() && now <= expiresAt <= now + limit.Window()
    ensures 1 <= RetryAfter(expiresAt, now) <= limit.windowSeconds
    ensures var remaining, delay := expiresAt - now, RetryAfter(expiresAt, now);
            -500 < remaining - 1000 * delay < 500 || remaining - 1000 * delay == -500 || (delay == 1 && remaining < 500)
    ensures var remaining := expiresAt - now;
            now + 1000 * RetryAfter(expiresAt, now) > expiresAt <==> remaining < 1000 || remaining % 1000 >= 500
  {
  }
}

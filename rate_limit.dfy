/** The in-memory fixed-window rate limiter: a map from key to
    `{count, resetAt}`, updated in place by `rateLimit`, swept of expired
    entries by a timer, and the client-address helper `getClientIp`. */
module RateLimit {
  import opened Wrappers
  import opened Strings

  datatype Entry = Entry(count: int, resetAt: int)
  datatype Verdict = Verdict(success: bool, remaining: int)

  /** One call `rateLimit(key, limit, windowMs)` at time `now` on the map `m`:
      the verdict it returns and the map it leaves. */
  function Step(m: map<string, Entry>, key: string, limit: int, windowMs: int, now: int): (r: (Verdict, map<string, Entry>))
    ensures key in r.1
    ensures r.0.success <==> key !in m || now > m[key].resetAt || m[key].count < limit
  {
    if key !in m || now > m[key].resetAt then
      (Verdict(true, limit - 1), m[key := Entry(1, now + windowMs)])
    else if m[key].count >= limit then
      (Verdict(false, 0), m)
    else
      var count := m[key].count + 1;
      (Verdict(true, limit - count), m[key := Entry(count, m[key].resetAt)])
  }

  /** An absent or expired entry opens a new window: the call succeeds with
      `limit - 1` remaining and the entry restarts at count 1. */
  lemma StepOpensWindow(m: map<string, Entry>, key: string, limit: int, windowMs: int, now: int)
    requires key !in m || now > m[key].resetAt
    ensures Step(m, key, limit, windowMs, now).0 == Verdict(true, limit - 1)
    ensures Step(m, key, limit, windowMs, now).1 == m[key := Entry(1, now + windowMs)]
  {
  }

  /** `now == resetAt` is still inside the window: the entry is not replaced. */
  lemma StepAtResetIsInside(m: map<string, Entry>, key: string, limit: int, windowMs: int)
    requires key in m
    ensures var (v, m') := Step(m, key, limit, windowMs, m[key].resetAt);
      && key in m' && m'[key].resetAt == m[key].resetAt
      && (m[key].count >= limit ==> !v.success && m' == m)
      && (m[key].count < limit ==> m'[key].count == m[key].count + 1)
  {
  }

  /** Inside the window, only the key's own entry changes, and a full entry
      refuses without changing anything. */
  lemma StepOnlyTouchesKey(m: map<string, Entry>, key: string, limit: int, windowMs: int, now: int)
    ensures var (v, m') := Step(m, key, limit, windowMs, now);
      && m'.Keys == m.Keys + {key}
      && (forall k :: k in m && k != key ==> m'[k] == m[k])
      && (!v.success ==> m' == m && v.remaining == 0)
      && (v.success ==> m'[key].count == (if key in m && now <= m[key].resetAt then m[key].count + 1 else 1))
      && (v.success ==> v.remaining == limit - m'[key].count)
  {
  }

  /** Every entry's count lies in `1..limit`. */
  ghost predicate Bounded(m: map<string, Entry>, limit: int)
  {
    forall k :: k in m ==> 1 <= m[k].count <= limit
  }

  /** With `limit >= 1` no count ever exceeds the limit and `remaining` is never negative. */
  lemma StepKeepsBounded(m: map<string, Entry>, key: string, limit: int, windowMs: int, now: int)
    requires limit >= 1 && Bounded(m, limit)
    ensures Bounded(Step(m, key, limit, windowMs, now).1, limit)
    ensures 0 <= Step(m, key, limit, windowMs, now).0.remaining < limit
  {
  }

  /** The verdicts of successive calls for one key at the times `times`. */
  function Run(m: map<string, Entry>, key: string, limit: int, windowMs: int, times: seq<int>): (r: (seq<Verdict>, map<string, Entry>))
    ensures |r.0| == |times|
    decreases |times|
  {
    if times == [] then ([], m)
    else
      var (v, m1) := Step(m, key, limit, windowMs, times[0]);
      var (vs, m2) := Run(m1, key, limit, windowMs, times[1..]);
      ([v] + vs, m2)
  }

  function Successes(vs: seq<Verdict>): nat
  {
    if vs == [] then 0 else (if vs[0].success then 1 else 0) + Successes(vs[1..])
  }

  /** Calls made no later than the window's reset succeed at most
      `limit - count` more times. */
  lemma {:induction false} SuccessesInsideWindow(m: map<string, Entry>, key: string, limit: int, windowMs: int, times: seq<int>)
    requires key in m
    requires forall i :: 0 <= i < |times| ==> times[i] <= m[key].resetAt
    ensures Successes(Run(m, key, limit, windowMs, times).0) <= if m[key].count < limit then limit - m[key].count else 0
    decreases |times|
  {
    if times != [] {
      var (v, m1) := Step(m, key, limit, windowMs, times[0]);
      assert key in m1 && m1[key].resetAt == m[key].resetAt;
      SuccessesInsideWindow(m1, key, limit, windowMs, times[1..]);
    }
  }

  /** A key gets at most `limit` successes per window: the call that opens the
      window and every later call up to its reset together succeed at most
      `limit` times. */
  lemma AtMostLimitPerWindow(m: map<string, Entry>, key: string, limit: int, windowMs: int, start: int, later: seq<int>)
    requires limit >= 1
    requires key !in m || start > m[key].resetAt
    requires forall i :: 0 <= i < |later| ==> later[i] <= start + windowMs
    ensures Successes(Run(m, key, limit, windowMs, [start] + later).0) <= limit
  {
    var (v, m1) := Step(m, key, limit, windowMs, start);
    assert ([start] + later)[1..] == later;
    SuccessesInsideWindow(m1, key, limit, windowMs, later);
  }

  /** The entries the periodic sweep keeps: those not yet expired at `now`. */
  function Swept(m: map<string, Entry>, now: int): (r: map<string, Entry>)
    ensures forall k :: k in r <==> k in m && !(now > m[k].resetAt)
    ensures forall k :: k in r ==> r[k] == m[k]
  {
    map k | k in m && !(now > m[k].resetAt) :: m[k]
  }

  /** The entry `rateLimit` would act on at any time from `t` on. */
  function Live(m: map<string, Entry>, k: string, t: int): Option<Entry>
  {
    if k in m && !(t > m[k].resetAt) then Some(m[k]) else None
  }

  ghost predicate SameLive(m1: map<string, Entry>, m2: map<string, Entry>, t: int)
  {
    forall k :: Live(m1, k, t) == Live(m2, k, t)
  }

  lemma SweptSameLive(m: map<string, Entry>, t: int)
    ensures SameLive(Swept(m, t), m, t)
  {
  }

  /** Two maps with the same live entries at `t` answer every call at or after
      `t` alike, and still have the same live entries afterwards. */
  lemma StepSameLive(m1: map<string, Entry>, m2: map<string, Entry>, t: int, key: string, limit: int, windowMs: int, now: int)
    requires SameLive(m1, m2, t) && t <= now
    ensures Step(m1, key, limit, windowMs, now).0 == Step(m2, key, limit, windowMs, now).0
    ensures SameLive(Step(m1, key, limit, windowMs, now).1, Step(m2, key, limit, windowMs, now).1, t)
  {
    assert Live(m1, key, t) == Live(m2, key, t);
    var m1', m2' := Step(m1, key, limit, windowMs, now).1, Step(m2, key, limit, windowMs, now).1;
    forall k ensures Live(m1', k, t) == Live(m2', k, t) {
      if k != key {
        assert Live(m1, k, t) == Live(m2, k, t);
      }
    }
  }

  lemma {:induction false} RunSameLive(m1: map<string, Entry>, m2: map<string, Entry>, t: int, key: string, limit: int, windowMs: int, times: seq<int>)
    requires SameLive(m1, m2, t)
    requires forall i :: 0 <= i < |times| ==> t <= times[i]
    ensures Run(m1, key, limit, windowMs, times).0 == Run(m2, key, limit, windowMs, times).0
    decreases |times|
  {
    if times != [] {
      StepSameLive(m1, m2, t, key, limit, windowMs, times[0]);
      RunSameLive(Step(m1, key, limit, windowMs, times[0]).1, Step(m2, key, limit, windowMs, times[0]).1,
                  t, key, limit, windowMs, times[1..]);
    }
  }

  /** The sweep is unobservable: after sweeping at `t`, any sequence of later
      calls gets exactly the verdicts it would have got without the sweep. */
  lemma SweepIsUnobservable(m: map<string, Entry>, t: int, key: string, limit: int, windowMs: int, times: seq<int>)
    requires forall i :: 0 <= i < |times| ==> t <= times[i]
    ensures Run(Swept(m, t), key, limit, windowMs, times).0 == Run(m, key, limit, windowMs, times).0
  {
    SweptSameLive(m, t);
    RunSameLive(Swept(m, t), m, t, key, limit, windowMs, times);
  }

  /** The module-level `rateMap` and the two operations on it. */
  class RateLimiter {
    var entries: map<string, Entry>

    constructor ()
      ensures entries == map[]
    {
      entries := map[];
    }

    /** `rateLimit(key, limit, windowMs)` at time `now`. */
    method RateLimit(key: string, limit: int, windowMs: int, now: int) returns (v: Verdict)
      modifies this
      ensures (v, entries) == Step(old(entries), key, limit, windowMs, now)
    {
      if key !in entries || now > entries[key].resetAt {
        entries := entries[key := Entry(1, now + windowMs)];
        return Verdict(true, limit - 1);
      }
      var entry := entries[key];
      if entry.count >= limit {
        return Verdict(false, 0);
      }
      entries := entries[key := entry.(count := entry.count + 1)];
      v := Verdict(true, limit - (entry.count + 1));
    }

    /** The `setInterval` callback: delete every entry with `now > resetAt`. */
    method Sweep(now: int)
      modifies this
      ensures entries == Swept(old(entries), now)
    {
      var todo := entries.Keys;
      while todo != {}
        invariant todo <= old(entries).Keys
        invariant forall k :: k in todo ==> k in entries && entries[k] == old(entries)[k]
        invariant forall k :: k in entries && k !in todo ==> k in Swept(old(entries), now) && entries[k] == old(entries)[k]
        invariant forall k :: k in Swept(old(entries), now) ==> k in entries
        decreases todo
      {
        var k :| k in todo;
        if now > entries[k].resetAt {
          entries := entries - {k};
        }
        todo := todo - {k};
      }
    }
  }

  /** `getClientIp`: the first entry of `x-forwarded-for`, trimmed, or
      "unknown" when the header is absent or empty. */
  function ClientIp(forwardedFor: Option<string>): (r: string)
    ensures forwardedFor == None || forwardedFor == Some("") ==> r == "unknown"
    ensures forwardedFor.Some? && forwardedFor.value != "" ==> ',' !in r
  {
    if forwardedFor.Some? && forwardedFor.value != "" then
      Trim(Split(forwardedFor.value, ',')[0])
    else "unknown"
  }

  /** The address is the trimmed text before the first comma. */
  lemma ClientIpBeforeComma(first: string, rest: string)
    requires ',' !in first
    ensures ClientIp(Some(first + "," + rest)) == Trim(first)
  {
    SplitAtSeparator(first, ',', rest);
  }

  /** Without a comma the whole header, trimmed, is the address. */
  lemma ClientIpSingle(header: string)
    requires ',' !in header && header != ""
    ensures ClientIp(Some(header)) == Trim(header)
  {
    SplitNoSeparator(header, ',');
  }
}

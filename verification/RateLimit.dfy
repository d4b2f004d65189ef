// The request limiter: a sliding window per process, or a shared fixed-window
// counter in Redis until Redis first fails.
module RateLimit {
  import opened Options

  // How many of the first n instants of `log` lie in the half-open interval (from, to].
  function CountIn(log: seq<real>, n: nat, from: real, to: real): nat
    requires n <= |log|
  {
    if n == 0 then 0 else CountIn(log, n - 1, from, to) + if from < log[n-1] <= to then 1 else 0
  }

  // Those of the first n hits that are younger than the window, oldest first.
  function RecentOf(hits: seq<real>, n: nat, now: real, window: real): seq<real>
    requires n <= |hits|
  {
    if n == 0 then []
    else RecentOf(hits, n - 1, now, window) + if now - hits[n-1] < window then [hits[n-1]] else []
  }

  function Recent(hits: seq<real>, now: real, window: real): seq<real> {
    RecentOf(hits, |hits|, now, window)
  }

  // The Redis key of a client: a counter, and the instant at which it expires.
  datatype Counter = Counter(count: nat, expires: real)
  // The source takes any integer for a limit; without an admission to date a refusal by, it
  // fails with an index error.
  datatype Verdict = Admitted | Rejected(retryAfter: int) | Crashed

  // INCR, with EXPIRE on the first increment; an expired key is a missing one.
  function Incremented(c: Option<Counter>, now: real, window: real): Counter {
    if c.None? || c.value.expires <= now then Counter(1, now + window) else c.value.(count := c.value.count + 1)
  }

  // The seconds a refused client is told to wait are those left, in whole seconds rounded
  // down, but at least one.
  predicate TellsToWait(retryAfter: int, left: real) {
    if left < 2.0 then retryAfter == 1 else retryAfter as real <= left < retryAfter as real + 1.0
  }

  // ---- What one client key sees ----

  // The logs record the instants admitted by the local window and by Redis.
  datatype State = State(usesRedis: bool, redis: Option<Counter>, hits: seq<real>,
                         localLog: seq<real>, redisLog: seq<real>)
  datatype Call = Call(key: string, now: real, redisFails: bool)
  datatype Limit = Limit(limit: int, window: real)

  predicate GoesLocal(s: State, c: Call) { !s.usesRedis || c.redisFails }

  predicate Admits(s: State, c: Call, l: Limit) {
    if GoesLocal(s, c) then |Recent(s.hits, c.now, l.window)| < l.limit
    else Incremented(s.redis, c.now, l.window).count <= l.limit
  }

  // A call by another key matters to `me` only if it is the one that gives up on Redis.
  function Next(s: State, c: Call, me: string, l: Limit): State {
    var t := s.(usesRedis := !GoesLocal(s, c));
    if c.key != me then t
    else if GoesLocal(s, c) then
      if Admits(s, c, l)
      then t.(hits := Recent(s.hits, c.now, l.window) + [c.now], localLog := s.localLog + [c.now]) else t
    else
      var u := t.(redis := Some(Incremented(s.redis, c.now, l.window)));
      if Admits(s, c, l) then u.(redisLog := s.redisLog + [c.now]) else u
  }

  function Start(redisConfigured: bool): State { State(redisConfigured, None, [], [], []) }

  function Run(redisConfigured: bool, calls: seq<Call>, me: string, l: Limit): State {
    if calls == [] then Start(redisConfigured)
    else Next(Run(redisConfigured, calls[..|calls|-1], me, l), calls[|calls|-1], me, l)
  }

  // ---- The limiter ----

  function Hits(m: map<string, seq<real>>, key: string): seq<real> {
    if key in m then m[key] else []
  }

  class RateLimiter {
    const limit: int
    const window: real
    const redisConfigured: bool
    var redisUnavailable: bool
    var counters: map<string, Counter>          // kept by Redis
    var localBuckets: map<string, seq<real>>
    ghost var localLog: map<string, seq<real>>
    ghost var redisLog: map<string, seq<real>>

    function Limits(): Limit { Limit(limit, window) }

    ghost function Seen(key: string): State
      reads this
    {
      State(redisConfigured && !redisUnavailable, if key in counters then Some(counters[key]) else None,
            Hits(localBuckets, key), Hits(localLog, key), Hits(redisLog, key))
    }

    constructor (limit: int, window: real, redisConfigured: bool)
      ensures Limits() == Limit(limit, window)
      ensures forall key :: Seen(key) == Start(redisConfigured)
    {
      this.limit, this.window, this.redisConfigured := limit, window, redisConfigured;
      redisUnavailable, counters, localBuckets, localLog, redisLog := false, map[], map[], map[], map[];
    }

    // redisFails: the call meets a RedisError before the counter is incremented.
    method Check(key: string, now: real, redisFails: bool) returns (v: Verdict)
      modifies this
      ensures forall k :: Seen(k) == Next(old(Seen(k)), Call(key, now, redisFails), k, Limits())
      ensures v.Admitted? <==> Admits(old(Seen(key)), Call(key, now, redisFails), Limits())
      ensures v.Crashed? <==>
        (&& GoesLocal(old(Seen(key)), Call(key, now, redisFails))
         && limit <= |Recent(old(Seen(key)).hits, now, window)| == 0)
      ensures v.Rejected? ==>
        var s := old(Seen(key));
        if GoesLocal(s, Call(key, now, redisFails))
        then Recent(s.hits, now, window) != []
             && TellsToWait(v.retryAfter, window - (now - Recent(s.hits, now, window)[0]))
        else TellsToWait(v.retryAfter, Incremented(s.redis, now, window).expires - now)
    {
      if redisConfigured && !redisUnavailable {
        if !redisFails {
          v := CheckRedis(key, now);
          return;
        }
        redisUnavailable := true;
      }
      v := CheckLocal(key, now);
    }

    method CheckLocal(key: string, now: real) returns (v: Verdict)
      modifies this`localBuckets, this`localLog
      ensures v.Admitted? <==> |Recent(old(Seen(key)).hits, now, window)| < limit
      ensures v.Crashed? <==> limit <= |Recent(old(Seen(key)).hits, now, window)| == 0
      ensures forall k :: k != key || !v.Admitted? ==> Seen(k) == old(Seen(k))
      ensures v.Admitted? ==> var s := old(Seen(key));
        Seen(key) == s.(hits := Recent(s.hits, now, window) + [now], localLog := s.localLog + [now])
      ensures v.Rejected? ==>
        && Recent(old(Seen(key)).hits, now, window) != []
        && TellsToWait(v.retryAfter, window - (now - Recent(old(Seen(key)).hits, now, window)[0]))
    {
      var stored := Hits(localBuckets, key);
      var hits := [];
      for i := 0 to |stored|
        invariant hits == RecentOf(stored, i, now, window)
      {
        if now - stored[i] < window { hits := hits + [stored[i]]; }
      }
      if |hits| >= limit {
        if hits == [] { return Crashed; }
        var retryAfter := (window - (now - hits[0])).Floor;
        return Rejected(if retryAfter > 1 then retryAfter else 1);
      }
      localBuckets := localBuckets[key := hits + [now]];
      localLog := localLog[key := Hits(localLog, key) + [now]];
      return Admitted;
    }

    method CheckRedis(key: string, now: real) returns (v: Verdict)
      modifies this`counters, this`redisLog
      ensures v.Admitted? <==> Incremented(old(Seen(key)).redis, now, window).count <= limit
      ensures !v.Crashed?
      ensures forall k :: k != key ==> Seen(k) == old(Seen(k))
      ensures var s := old(Seen(key)); var t := s.(redis := Some(Incremented(s.redis, now, window)));
        Seen(key) == if v.Admitted? then t.(redisLog := s.redisLog + [now]) else t
      ensures v.Rejected? ==> TellsToWait(v.retryAfter, Incremented(old(Seen(key)).redis, now, window).expires - now)
    {
      if key !in counters || counters[key].expires <= now {
        counters := counters[key := Counter(1, now + window)];
      } else {
        counters := counters[key := counters[key].(count := counters[key].count + 1)];
      }
      if counters[key].count > limit {
        var ttl := (counters[key].expires - now).Floor;
        return Rejected(if ttl > 1 then ttl else 1);
      }
      redisLog := redisLog[key := Hits(redisLog, key) + [now]];
      return Admitted;
    }
  }
}

// How much the limiter lets through, over every run of calls.
module RateLimitBounds {
  import opened Options
  import opened RateLimit

  predicate Monotone(calls: seq<Call>) {
    forall i, j :: 0 <= i < j < |calls| ==> calls[i].now <= calls[j].now
  }

  predicate NotAfter(log: seq<real>, now: real) {
    forall i :: 0 <= i < |log| ==> log[i] <= now
  }

  function CountAll(log: seq<real>, from: real, to: real): nat { CountIn(log, |log|, from, to) }

  lemma {:induction false} CountStable(log: seq<real>, t: real, n: nat, from: real, to: real)
    requires n <= |log|
    ensures CountIn(log + [t], n, from, to) == CountIn(log, n, from, to)
  {
    if n > 0 { CountStable(log, t, n - 1, from, to); }
  }

  lemma CountAppend(log: seq<real>, t: real, from: real, to: real)
    ensures CountAll(log + [t], from, to) == CountAll(log, from, to) + if from < t <= to then 1 else 0
  {
    CountStable(log, t, |log|, from, to);
  }

  lemma {:induction false} CountShrinks(log: seq<real>, n: nat, from: real, to: real, from': real, to': real)
    requires n <= |log| && from' <= from && forall i :: 0 <= i < n ==> (log[i] <= to ==> log[i] <= to')
    ensures CountIn(log, n, from, to) <= CountIn(log, n, from', to')
  {
    if n > 0 { CountShrinks(log, n - 1, from, to, from', to'); }
  }

  // ---- The local window ----

  lemma {:induction false} RecentCounts(log: seq<real>, n: nat, now: real, window: real)
    requires n <= |log| && forall i :: 0 <= i < n ==> log[i] <= now
    ensures |RecentOf(log, n, now, window)| == CountIn(log, n, now - window, now)
  {
    if n > 0 { RecentCounts(log, n - 1, now, window); }
  }

  lemma {:induction false} RecentStable(log: seq<real>, t: real, n: nat, now: real, window: real)
    requires n <= |log|
    ensures RecentOf(log + [t], n, now, window) == RecentOf(log, n, now, window)
  {
    if n > 0 { RecentStable(log, t, n - 1, now, window); }
  }

  // Dropping what is too old, and later dropping again, is dropping once.
  lemma {:induction false} RecentTwice(log: seq<real>, n: nat, before: real, now: real, window: real)
    requires before <= now && n <= |log|
    ensures Recent(RecentOf(log, n, before, window), now, window) == RecentOf(log, n, now, window)
  {
    if n > 0 {
      RecentTwice(log, n - 1, before, now, window);
      var kept := RecentOf(log, n - 1, before, window);
      if before - log[n-1] < window {
        RecentStable(kept, log[n-1], |kept|, now, window);
        assert |kept + [log[n-1]]| == |kept| + 1;
      } else {
        assert kept + [] == kept;
        assert RecentOf(log, n - 1, now, window) + [] == RecentOf(log, n - 1, now, window);
      }
    }
  }

  // The bucket is the part of the log still young when the last hit was admitted.
  predicate BucketInv(hits: seq<real>, log: seq<real>, now: real, window: real) {
    && NotAfter(log, now)
    && (log == [] ==> hits == [])
    && (log != [] ==> hits == Recent(log, log[|log|-1], window))
  }

  lemma BucketSeesWindow(hits: seq<real>, log: seq<real>, now: real, window: real)
    requires BucketInv(hits, log, now, window)
    ensures Recent(hits, now, window) == Recent(log, now, window)
    ensures |Recent(hits, now, window)| == CountAll(log, now - window, now)
  {
    RecentCounts(log, |log|, now, window);
    if log != [] { RecentTwice(log, |log|, log[|log|-1], now, window); }
  }

  lemma AdmittedLocally(hits: seq<real>, log: seq<real>, now: real, l: Limit, x: real)
    requires l.window > 0.0 && BucketInv(hits, log, now, l.window)
    requires |Recent(hits, now, l.window)| < l.limit && CountAll(log, x, x + l.window) <= l.limit
    ensures BucketInv(Recent(hits, now, l.window) + [now], log + [now], now, l.window)
    ensures CountAll(log + [now], x, x + l.window) <= l.limit
  {
    BucketSeesWindow(hits, log, now, l.window);
    RecentStable(log, now, |log|, now, l.window);
    CountAppend(log, now, x, x + l.window);
    if x < now <= x + l.window { CountShrinks(log, |log|, x, x + l.window, now - l.window, now); }
  }

  // ---- The Redis counter ----

  function Min(a: int, b: int): int { if a < b then a else b }

  // The log ends with the admissions of the counter's current life, the first of which
  // started it; of what came before, all but `limit - 1` is a whole window old.
  predicate Alive(c: Counter, log: seq<real>, now: real, l: Limit) {
    var born := c.expires - l.window;
    var m := |log| - Min(c.count, l.limit);
    && l.limit > 0 && c.count >= 1 && m >= 0 && born <= now && log[m] == born
    && (forall i :: 0 <= i < m ==> log[i] < born)
    && (forall i :: m <= i < |log| ==> born <= log[i] < c.expires)
    && CountIn(log, m, born - l.window, born) <= l.limit - 1
  }

  predicate LifeInv(redis: Option<Counter>, log: seq<real>, now: real, l: Limit) {
    && NotAfter(log, now)
    && (redis.None? ==> log == [])
    && (redis.Some? ==> Alive(redis.value, log, now, l))
  }

  lemma {:induction false} CountAtMost(log: seq<real>, m: nat, n: nat, from: real, to: real)
    requires m <= n <= |log|
    ensures CountIn(log, m, from, to) <= CountIn(log, n, from, to) <= CountIn(log, m, from, to) + n - m
    ensures m < n && log[m] <= from ==> CountIn(log, n, from, to) <= CountIn(log, m, from, to) + n - m - 1
  {
    if m < n { CountAtMost(log, m, n - 1, from, to); }
  }

  lemma {:induction false} CountNone(log: seq<real>, n: nat, from: real, to: real)
    requires n <= |log| && forall i :: 0 <= i < n ==> log[i] <= from
    ensures CountIn(log, n, from, to) == 0
  {
    if n > 0 { CountNone(log, n - 1, from, to); }
  }

  // When a life starts, the previous one has left at most limit - 1 admissions within
  // reach: its own first admission is a whole window back.
  lemma OldLifeFaded(redis: Option<Counter>, log: seq<real>, now: real, l: Limit)
    requires l.window > 0.0 && l.limit > 0 && LifeInv(redis, log, now, l)
    requires redis.None? || redis.value.expires <= now
    ensures forall i :: 0 <= i < |log| ==> log[i] < now
    ensures CountAll(log, now - l.window, now) <= l.limit - 1
  {
    if redis.Some? {
      var m := |log| - Min(redis.value.count, l.limit);
      CountNone(log, m, now - l.window, now);
      CountAtMost(log, m, |log|, now - l.window, now);
    }
  }

  lemma NewLife(log: seq<real>, now: real, l: Limit)
    requires l.window > 0.0 && l.limit > 0 && forall i :: 0 <= i < |log| ==> log[i] < now
    requires CountAll(log, now - l.window, now) <= l.limit - 1
    ensures Alive(Counter(1, now + l.window), log + [now], now, l)
  {
    CountStable(log, now, |log|, now - l.window, now);
  }

  lemma SameLife(c: Counter, log: seq<real>, now: real, l: Limit)
    requires l.window > 0.0 && Alive(c, log, now, l) && NotAfter(log, now) && c.expires > now && c.count < l.limit
    ensures Alive(c.(count := c.count + 1), log + [now], now, l)
  {
    var m, born := |log| - c.count, c.expires - l.window;
    CountStable(log, now, m, born - l.window, born);
  }

  lemma SameLifeBound(c: Counter, log: seq<real>, now: real, l: Limit, x: real)
    requires l.window > 0.0 && Alive(c, log, now, l) && c.expires > now && c.count < l.limit
    requires x < now <= x + l.window
    ensures CountAll(log, x, x + l.window) <= 2 * l.limit - 2
  {
    var m, born := |log| - c.count, c.expires - l.window;
    CountAtMost(log, m, |log|, x, x + l.window);
    if born <= x {
      CountNone(log, m, x, x + l.window);
    } else {
      CountShrinks(log, m, x, x + l.window, born - l.window, born);
    }
  }

  lemma StaysFull(c: Counter, log: seq<real>, now: real, l: Limit)
    requires Alive(c, log, now, l) && c.count >= l.limit
    ensures Alive(c.(count := c.count + 1), log, now, l)
  {
  }

  function Logged(redis: Option<Counter>, log: seq<real>, now: real, l: Limit): seq<real> {
    if Incremented(redis, now, l.window).count <= l.limit then log + [now] else log
  }

  lemma CountedInLife(counter: Counter, log: seq<real>, now: real, l: Limit, x: real)
    requires l.window > 0.0 && l.limit > 0 && LifeInv(Some(counter), log, now, l)
    requires now < counter.expires && counter.count < l.limit
    requires CountAll(log, x, x + l.window) <= 2 * l.limit - 1
    ensures Alive(Incremented(Some(counter), now, l.window), Logged(Some(counter), log, now, l), now, l)
    ensures CountAll(Logged(Some(counter), log, now, l), x, x + l.window) <= 2 * l.limit - 1
  {
    CountAppend(log, now, x, x + l.window);
    SameLife(counter, log, now, l);
    if x < now <= x + l.window { SameLifeBound(counter, log, now, l, x); }
  }

  lemma CountedByRedis(redis: Option<Counter>, log: seq<real>, now: real, l: Limit, x: real)
    requires l.window > 0.0 && l.limit > 0 && LifeInv(redis, log, now, l)
    requires CountAll(log, x, x + l.window) <= 2 * l.limit - 1
    ensures Alive(Incremented(redis, now, l.window), Logged(redis, log, now, l), now, l)
    ensures CountAll(Logged(redis, log, now, l), x, x + l.window) <= 2 * l.limit - 1
  {
    CountAppend(log, now, x, x + l.window);
    if redis.None? || redis.value.expires <= now {
      OldLifeFaded(redis, log, now, l);
      NewLife(log, now, l);
      if x < now <= x + l.window { CountShrinks(log, |log|, x, x + l.window, now - l.window, now); }
    } else if redis.value.count < l.limit {
      CountedInLife(redis.value, log, now, l, x);
    } else {
      StaysFull(redis.value, log, now, l);
    }
  }

  // ---- Every run ----

  predicate Good(s: State, now: real, l: Limit, x: real) {
    && BucketInv(s.hits, s.localLog, now, l.window) && CountAll(s.localLog, x, x + l.window) <= l.limit
    && LifeInv(s.redis, s.redisLog, now, l) && CountAll(s.redisLog, x, x + l.window) <= 2 * l.limit - 1
    && (s.usesRedis ==> s.localLog == [])
  }

  lemma GoodStep(s: State, c: Call, me: string, l: Limit, x: real)
    requires l.limit > 0 && l.window > 0.0 && Good(s, c.now, l, x)
    ensures Good(Next(s, c, me, l), c.now, l, x)
  {
    if c.key == me {
      if !GoesLocal(s, c) {
        CountedByRedis(s.redis, s.redisLog, c.now, l, x);
      } else if Admits(s, c, l) {
        AdmittedLocally(s.hits, s.localLog, c.now, l, x);
      }
    }
  }

  lemma GoodLater(s: State, now: real, later: real, l: Limit, x: real)
    requires Good(s, now, l, x) && now <= later
    ensures Good(s, later, l, x)
  {
  }

  lemma {:induction false} RunInv(redisConfigured: bool, calls: seq<Call>, me: string, l: Limit, x: real, now: real)
    requires l.limit > 0 && l.window > 0.0 && Monotone(calls) && (calls != [] ==> calls[|calls|-1].now <= now)
    ensures Good(Run(redisConfigured, calls, me, l), now, l, x)
  {
    if calls != [] {
      var pre, last := calls[..|calls|-1], calls[|calls|-1];
      RunInv(redisConfigured, pre, me, l, x, last.now);
      GoodStep(Run(redisConfigured, pre, me, l), last, me, l, x);
      GoodLater(Run(redisConfigured, calls, me, l), last.now, now, l, x);
    }
  }

  // The local limiter is exactly a sliding window: a call is admitted when and only
  // when fewer than `limit` admissions of its key lie in the window that ends now.
  lemma LocalIsSlidingWindow(redisConfigured: bool, calls: seq<Call>, c: Call, l: Limit)
    requires l.limit > 0 && l.window > 0.0 && Monotone(calls) && (calls != [] ==> calls[|calls|-1].now <= c.now)
    requires GoesLocal(Run(redisConfigured, calls, c.key, l), c)
    ensures var s := Run(redisConfigured, calls, c.key, l);
      Admits(s, c, l) <==> CountAll(s.localLog, c.now - l.window, c.now) < l.limit
  {
    RunInv(redisConfigured, calls, c.key, l, 0.0, c.now);
    var s := Run(redisConfigured, calls, c.key, l);
    BucketSeesWindow(s.hits, s.localLog, c.now, l.window);
  }

  // In any interval of one window's length a key gets at most `limit` admissions from
  // the local window, 2 * limit - 1 from Redis, and so 3 * limit - 1 across the one-way
  // switch from Redis to the local window.
  lemma AdmissionBounds(redisConfigured: bool, calls: seq<Call>, me: string, l: Limit, x: real)
    requires l.limit > 0 && l.window > 0.0 && Monotone(calls)
    ensures var s := Run(redisConfigured, calls, me, l);
      var local := CountAll(s.localLog, x, x + l.window);
      var shared := CountAll(s.redisLog, x, x + l.window);
      && local <= l.limit && shared <= 2 * l.limit - 1 && local + shared <= 3 * l.limit - 1
      && (s.usesRedis ==> local == 0)
      && (!redisConfigured ==> shared == 0)
  {
    RunInv(redisConfigured, calls, me, l, x, if calls == [] then 0.0 else calls[|calls|-1].now);
    if !redisConfigured { NeverShared(calls, me, l); }
  }

  lemma {:induction false} NeverShared(calls: seq<Call>, me: string, l: Limit)
    ensures !Run(false, calls, me, l).usesRedis && Run(false, calls, me, l).redisLog == []
  {
    if calls != [] { NeverShared(calls[..|calls|-1], me, l); }
  }

  // Redis is given up once and for all.
  lemma {:induction false} SwitchIsOneWay(redisConfigured: bool, a: seq<Call>, b: seq<Call>, me: string, l: Limit)
    requires !Run(redisConfigured, a, me, l).usesRedis
    ensures !Run(redisConfigured, a + b, me, l).usesRedis
    ensures Run(redisConfigured, a + b, me, l).redisLog == Run(redisConfigured, a, me, l).redisLog
  {
    if b == [] {
      assert a + b == a;
    } else {
      assert (a + b)[..|a + b|-1] == a + b[..|b|-1];
      SwitchIsOneWay(redisConfigured, a, b[..|b|-1], me, l);
    }
  }

  // A limit of zero or less admits nothing, ever.
  lemma {:induction false} NothingAdmitted(redisConfigured: bool, calls: seq<Call>, me: string, l: Limit)
    requires l.limit <= 0
    ensures var s := Run(redisConfigured, calls, me, l); s.localLog == [] && s.redisLog == [] && s.hits == []
  {
    if calls != [] {
      NothingAdmitted(redisConfigured, calls[..|calls|-1], me, l);
    }
  }

  // ---- The bounds are exact ----

  function Repeat<T>(x: T, n: nat): seq<T> { seq(n, _ => x) }

  lemma OneMore<T>(x: T, n: nat)
    requires n > 0
    ensures Repeat(x, n) == Repeat(x, n - 1) + [x] && |Repeat(x, n)| == n
  {
  }

  lemma RunAppend(calls: seq<Call>, c: Call, l: Limit)
    ensures Run(true, calls + [c], c.key, l) == Next(Run(true, calls, c.key, l), c, c.key, l)
  {
    assert (calls + [c])[..|calls|] == calls;
  }

  lemma MonotoneAppend(calls: seq<Call>, c: Call)
    requires Monotone(calls) && (calls != [] ==> calls[|calls|-1].now <= c.now)
    ensures Monotone(calls + [c])
  {
  }

  // One more admission by way of Redis.
  lemma SharedAppend(calls: seq<Call>, c: Call, l: Limit, s: State)
    requires s == Run(true, calls, c.key, l) && s.usesRedis && !c.redisFails
    requires Incremented(s.redis, c.now, l.window).count <= l.limit
    ensures Run(true, calls + [c], c.key, l)
         == s.(redis := Some(Incremented(s.redis, c.now, l.window)), redisLog := s.redisLog + [c.now])
  {
    RunAppend(calls, c, l);
  }

  // One request at 0, limit - 1 within the window, and limit at its end, when the counter
  // has just expired; then Redis fails and the local window starts afresh.
  function Opening(key: string, l: Limit, n: nat): seq<Call> {
    [Call(key, 0.0, false)] + Repeat(Call(key, l.window / 2.0, false), n)
  }

  lemma OpeningGrows(key: string, l: Limit, n: nat)
    requires n > 0
    ensures Opening(key, l, n) == Opening(key, l, n - 1) + [Call(key, l.window / 2.0, false)]
  {
    OneMore(Call(key, l.window / 2.0, false), n);
  }

  lemma {:induction false} OpeningIsMonotone(key: string, l: Limit, n: nat)
    requires l.window > 0.0
    ensures Monotone(Opening(key, l, n)) && Opening(key, l, n)[|Opening(key, l, n)|-1].now <= l.window / 2.0
  {
    if n > 0 {
      OpeningIsMonotone(key, l, n - 1);
      OpeningGrows(key, l, n);
      MonotoneAppend(Opening(key, l, n - 1), Call(key, l.window / 2.0, false));
    }
  }

  function OpeningLog(l: Limit, n: nat): seq<real> { [0.0] + Repeat(l.window / 2.0, n) }

  lemma OpeningLogGrows(l: Limit, n: nat)
    requires n > 0
    ensures OpeningLog(l, n) == OpeningLog(l, n - 1) + [l.window / 2.0]
  {
    OneMore(l.window / 2.0, n);
  }

  lemma {:induction false} OpeningCount(l: Limit, n: nat)
    requires l.window > 0.0
    ensures CountAll(OpeningLog(l, n), 0.0, l.window) == n
  {
    if n == 0 {
      assert OpeningLog(l, 0) == [] + [0.0];
      CountAppend([], 0.0, 0.0, l.window);
    } else {
      OpeningCount(l, n - 1);
      OpeningLogGrows(l, n);
      CountAppend(OpeningLog(l, n - 1), l.window / 2.0, 0.0, l.window);
    }
  }

  // One more call before the counter expires and within the limit.
  lemma SharedOnce(calls: seq<Call>, c: Call, l: Limit, count: nat, log: seq<real>)
    requires Run(true, calls, c.key, l) == State(true, Some(Counter(count, l.window)), [], [], log)
    requires !c.redisFails && c.now < l.window && count < l.limit
    ensures Run(true, calls + [c], c.key, l) == State(true, Some(Counter(count + 1, l.window)), [], [], log + [c.now])
  {
    RunAppend(calls, c, l);
  }

  // The first call of all starts the counter.
  lemma SharedFirst(key: string, l: Limit)
    requires l.limit > 0
    ensures Run(true, [Call(key, 0.0, false)], key, l) == State(true, Some(Counter(1, l.window)), [], [], [0.0])
  {
    var c := Call(key, 0.0, false);
    assert [] + [c] == [c];
    RunAppend([], c, l);
  }

  lemma {:induction false} OpeningIsAdmitted(key: string, l: Limit, n: nat)
    requires l.window > 0.0 && n < l.limit
    ensures Run(true, Opening(key, l, n), key, l)
         == State(true, Some(Counter(1 + n, l.window)), [], [], OpeningLog(l, n))
    ensures CountAll(OpeningLog(l, n), 0.0, l.window) == n
  {
    OpeningCount(l, n);
    if n == 0 {
      assert Opening(key, l, 0) == [Call(key, 0.0, false)] && OpeningLog(l, 0) == [0.0];
      SharedFirst(key, l);
    } else {
      var t := l.window / 2.0;
      OpeningIsAdmitted(key, l, n - 1);
      OpeningGrows(key, l, n);
      OpeningLogGrows(l, n);
      SharedOnce(Opening(key, l, n - 1), Call(key, t, false), l, n, OpeningLog(l, n - 1));
    }
  }

  function Ending(key: string, l: Limit, n: nat): seq<Call>
    requires l.limit > 0
  {
    Opening(key, l, l.limit - 1) + Repeat(Call(key, l.window, false), n)
  }

  lemma EndingGrows(key: string, l: Limit, n: nat)
    requires l.limit > 0 && l.window > 0.0
    ensures Ending(key, l, 0) == Opening(key, l, l.limit - 1)
    ensures n > 0 ==> Ending(key, l, n) == Ending(key, l, n - 1) + [Call(key, l.window, false)]
    ensures Ending(key, l, n) != [] && Ending(key, l, n)[|Ending(key, l, n)|-1].now <= l.window
  {
    if n > 0 { OneMore(Call(key, l.window, false), n); }
  }

  lemma {:induction false} EndingIsMonotone(key: string, l: Limit, n: nat)
    requires l.limit > 0 && l.window > 0.0
    ensures Monotone(Ending(key, l, n))
  {
    EndingGrows(key, l, n);
    if n == 0 {
      OpeningIsMonotone(key, l, l.limit - 1);
    } else {
      EndingIsMonotone(key, l, n - 1);
      EndingGrows(key, l, n - 1);
      MonotoneAppend(Ending(key, l, n - 1), Call(key, l.window, false));
    }
  }

  function CounterAtEnd(l: Limit, n: nat): Counter
    requires l.limit > 0
  {
    if n == 0 then Counter(l.limit, l.window) else Counter(n, l.window + l.window)
  }

  lemma {:induction false} EndIsAdmitted(key: string, l: Limit, n: nat)
    requires l.window > 0.0 && n <= l.limit && l.limit > 0
    ensures var s := Run(true, Ending(key, l, n), key, l);
      && s == State(true, Some(CounterAtEnd(l, n)), [], [], s.redisLog)
      && CountAll(s.redisLog, 0.0, l.window) == l.limit - 1 + n
  {
    EndingGrows(key, l, n);
    if n == 0 {
      OpeningIsAdmitted(key, l, l.limit - 1);
    } else {
      var c, before := Call(key, l.window, false), Run(true, Ending(key, l, n - 1), key, l);
      EndIsAdmitted(key, l, n - 1);
      assert Incremented(Some(CounterAtEnd(l, n - 1)), l.window, l.window) == CounterAtEnd(l, n);
      SharedAppend(Ending(key, l, n - 1), c, l, before);
      CountAppend(before.redisLog, l.window, 0.0, l.window);
    }
  }

  lemma {:induction false} RecentRepeats(n: nat, t: real, window: real)
    requires window > 0.0
    ensures Recent(Repeat(t, n), t, window) == Repeat(t, n)
  {
    if n > 0 {
      OneMore(t, n);
      RecentRepeats(n - 1, t, window);
      RecentStable(Repeat(t, n - 1), t, n - 1, t, window);
    }
  }

  function Burst(key: string, l: Limit, n: nat): seq<Call>
    requires l.limit > 0
  {
    Ending(key, l, l.limit) + Repeat(Call(key, l.window, true), n)
  }

  lemma {:induction false} BurstIsMonotone(key: string, l: Limit, n: nat)
    requires l.window > 0.0 && l.limit > 0
    ensures var calls := Burst(key, l, n);
      Monotone(calls) && calls != [] && calls[|calls|-1].now <= l.window
  {
    if n == 0 {
      EndingIsMonotone(key, l, l.limit);
      EndingGrows(key, l, l.limit);
      assert Burst(key, l, 0) == Ending(key, l, l.limit);
    } else {
      var c := Call(key, l.window, true);
      BurstIsMonotone(key, l, n - 1);
      OneMore(c, n);
      assert Burst(key, l, n) == Burst(key, l, n - 1) + [c];
      MonotoneAppend(Burst(key, l, n - 1), c);
    }
  }

  lemma {:induction false} LocalIsAdmitted(key: string, l: Limit, n: nat)
    requires l.window > 0.0 && n <= l.limit && l.limit > 0
    ensures var s := Run(true, Burst(key, l, n), key, l);
      && s.hits == s.localLog == Repeat(l.window, n) && CountAll(s.localLog, 0.0, l.window) == n
      && s.redisLog == Run(true, Ending(key, l, l.limit), key, l).redisLog
  {
    if n == 0 {
      EndIsAdmitted(key, l, l.limit);
      assert Burst(key, l, 0) == Ending(key, l, l.limit);
    } else {
      var c := Call(key, l.window, true);
      LocalIsAdmitted(key, l, n - 1);
      OneMore(c, n);
      OneMore(l.window, n);
      assert Burst(key, l, n) == Burst(key, l, n - 1) + [c];
      RunAppend(Burst(key, l, n - 1), c, l);
      RecentRepeats(n - 1, l.window, l.window);
      CountAppend(Repeat(l.window, n - 1), l.window, 0.0, l.window);
    }
  }

  // For every limit and window the bounds are reached: 2 * limit - 1 admissions by way of
  // Redis and limit by way of the local window, all within one window's length.
  lemma BoundsAreReached(key: string, l: Limit)
    requires l.limit > 0 && l.window > 0.0
    ensures Monotone(Burst(key, l, l.limit))
    ensures var s := Run(true, Burst(key, l, l.limit), key, l);
      && CountAll(s.redisLog, 0.0, l.window) == 2 * l.limit - 1
      && CountAll(s.localLog, 0.0, l.window) == l.limit
  {
    BurstIsMonotone(key, l, l.limit);
    LocalIsAdmitted(key, l, l.limit);
    EndIsAdmitted(key, l, l.limit);
  }

  // What a refused client is told: to wait at least a second, never longer than is left
  // unless less than one is, and never more than a second short of it.
  lemma WaitIsClose(retryAfter: int, left: real)
    requires TellsToWait(retryAfter, left)
    ensures retryAfter >= 1 && left - retryAfter as real < 1.0
    ensures left >= 1.0 ==> retryAfter as real <= left
  {
  }
}

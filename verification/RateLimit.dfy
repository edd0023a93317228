/** The fixed-window rate limiter. Times are nanoseconds. Calls reach the map one at a time, under a mutex, at times
    that do not go back. */
module RateLimit {
  import opened Prelude

  datatype Bucket = Bucket(count: nat, expiresAt: Time)

  type Buckets = map<string, Bucket>

  /** The configuration; settings reject a limit or a window that is not positive. */
  datatype Config = Config(attempts: int, window: int)
  {
    predicate Valid() {
      attempts >= 1 && window >= 1
    }
  }

  const SECOND: int := 1_000_000_000

  // ---------------------------------------------------------------- the specification

  /** A bucket stays in force at the very instant it expires. */
  predicate InForce(m: Buckets, key: string, now: Time) {
    key in m && now <= m[key].expiresAt
  }

  predicate Admits(m: Buckets, key: string, now: Time, c: Config) {
    !InForce(m, key, now) || m[key].count < c.attempts
  }

  function Counted(m: Buckets, key: string, now: Time, c: Config): Buckets {
    if !InForce(m, key, now) then m[key := Bucket(1, now + c.window)]
    else if m[key].count < c.attempts then m[key := m[key].(count := m[key].count + 1)]
    else m
  }

  function Reaped(m: Buckets, now: Time): Buckets {
    map k | k in m && InForce(m, k, now) :: m[k]
  }

  /** The Retry-After header: whole seconds, truncated toward zero, plus one. */
  function RetryAfter(wait: int): int {
    (if wait >= 0 then wait / SECOND else -((-wait) / SECOND)) + 1
  }

  // ---------------------------------------------------------------- the limiter

  class Limiter {
    var buckets: Buckets
    const config: Config

    constructor (config: Config)
      ensures this.config == config && buckets == map[]
    {
      this.config := config;
      buckets := map[];
    }

    /** Records an attempt at `now`. A refusal tells how long to wait, measured again at `later`. */
    method Allow(key: string, now: Time, later: Time) returns (ok: bool, wait: int)
      modifies `buckets
      ensures ok == Admits(old(buckets), key, now, config)
      ensures buckets == Counted(old(buckets), key, now, config)
      ensures !ok ==> key in buckets && wait == buckets[key].expiresAt - later
    {
      if key !in buckets || now > buckets[key].expiresAt {
        buckets := buckets[key := Bucket(1, now + config.window)];
        return true, 0;
      }
      var b := buckets[key];
      if b.count >= config.attempts {
        return false, b.expiresAt - later;
      }
      buckets := buckets[key := b.(count := b.count + 1)];
      return true, 0;
    }

    /** Discards expired buckets one by one. */
    method Reap(now: Time)
      modifies `buckets
      ensures buckets == Reaped(old(buckets), now)
    {
      var rest := buckets.Keys;
      while rest != {}
        invariant rest <= buckets.Keys <= old(buckets).Keys
        invariant forall k :: k in buckets ==> buckets[k] == old(buckets)[k]
        invariant forall k :: k in old(buckets) && k !in rest ==> (k in buckets <==> InForce(old(buckets), k, now))
        decreases rest
      {
        var key :| key in rest;
        rest := rest - {key};
        if now > buckets[key].expiresAt {
          buckets := buckets - {key};
        }
      }
    }

    /** The route guard: every non-empty key must pass, and the first that does not ends the request. Key `i` is counted
        at `clock[2 * i]`, and a refusal measures its wait at `clock[2 * i + 1]`. */
    method Guard(keys: seq<string>, clock: seq<Time>) returns (refusal: Option<int>)
      requires |clock| == 2 * |keys|
      modifies `buckets
      ensures (buckets, refusal) == Guarded(old(buckets), keys, clock, config)
      ensures refusal.Some? ==>
                exists i :: 0 <= i < |keys| && Refuses(old(buckets), buckets, keys, clock, config, i, refusal.value)
    {
      RefusalIsExact(buckets, keys, clock, config);
      for i := 0 to |keys|
        invariant Guarded(old(buckets), keys, clock, config) == Guarded(buckets, keys[i..], clock[2 * i..], config)
      {
        assert keys[i..][1..] == keys[i + 1..] && clock[2 * i..][2..] == clock[2 * (i + 1)..];
        if keys[i] != "" {
          var ok, wait := Allow(keys[i], clock[2 * i], clock[2 * i + 1]);
          if !ok {
            return Some(RetryAfter(wait));
          }
        }
      }
      return None;
    }
  }

  function Guarded(m: Buckets, keys: seq<string>, clock: seq<Time>, c: Config): (Buckets, Option<int>)
    requires |clock| == 2 * |keys|
    decreases |keys|
  {
    if keys == [] then (m, None)
    else if keys[0] == "" then Guarded(m, keys[1..], clock[2..], c)
    else if Admits(m, keys[0], clock[0], c) then Guarded(Counted(m, keys[0], clock[0], c), keys[1..], clock[2..], c)
    else (m, Some(RetryAfter(m[keys[0]].expiresAt - clock[1])))
  }

  /** Key `i` ended the request: the keys before it passed, its own window is in force and used up, and `n` is the
      smallest number of whole seconds that is surely enough. */
  ghost predicate Refuses(before: Buckets, after: Buckets, keys: seq<string>, clock: seq<Time>, c: Config, i: nat,
                          n: int)
    requires |clock| == 2 * |keys|
  {
    && i < |keys| && keys[i] != ""
    && Guarded(before, keys[..i], clock[..2 * i], c) == (after, None)
    && keys[i] in after && after[keys[i]].count >= c.attempts && clock[2 * i] <= after[keys[i]].expiresAt
    && SmallestWait(after[keys[i]].expiresAt - clock[2 * i + 1], n)
    && forall idle, again :: KeyIdle(idle, keys[i]) && again >= clock[2 * i + 1] + n * SECOND ==>
         Admits(After(after, idle, c), keys[i], again, c)
  }

  /** Nobody else tries the key. */
  ghost predicate KeyIdle(idle: seq<Call>, key: string) {
    forall i :: 0 <= i < |idle| && idle[i].Attempt? ==> idle[i].key != key
  }

  /** More than the wait that is left, and a second less would not be. */
  predicate SmallestWait(wait: int, n: int) {
    n * SECOND > wait && (wait >= 0 ==> (n - 1) * SECOND <= wait) && (wait < 0 ==> n <= 1)
  }

  lemma {:induction false} RefusalIsExact(m: Buckets, keys: seq<string>, clock: seq<Time>, c: Config)
    requires |clock| == 2 * |keys|
    ensures var (after, refusal) := Guarded(m, keys, clock, c);
            refusal.Some? ==>
              exists i :: 0 <= i < |keys| && Refuses(m, after, keys, clock, c, i, refusal.value)
    decreases |keys|
  {
    var (after, refusal) := Guarded(m, keys, clock, c);
    if refusal.Some? {
      if keys[0] != "" && !Admits(m, keys[0], clock[0], c) {
        forall idle, again | KeyIdle(idle, keys[0]) && again >= clock[1] + refusal.value * SECOND
          ensures Admits(After(m, idle, c), keys[0], again, c)
        {
          RetryAfterSuffices(m, c, keys[0], clock[0], clock[1], idle, again);
        }
        assert keys[..0] == [] && clock[..0] == [];
        assert Refuses(m, after, keys, clock, c, 0, refusal.value);
      } else {
        var m' := if keys[0] == "" then m else Counted(m, keys[0], clock[0], c);
        RefusalIsExact(m', keys[1..], clock[2..], c);
        var i :| 0 <= i < |keys| - 1 && Refuses(m', after, keys[1..], clock[2..], c, i, refusal.value);
        assert keys[..i + 1][1..] == keys[1..][..i] && clock[..2 * (i + 1)][2..] == clock[2..][..2 * i];
        assert clock[2..][2 * i] == clock[2 * (i + 1)] && clock[2..][2 * i + 1] == clock[2 * (i + 1) + 1];
        assert Refuses(m, after, keys, clock, c, i + 1, refusal.value);
      }
    }
  }

  // ---------------------------------------------------------------- runs

  /** One turn under the mutex: an attempt made for some request, or the reaper. */
  datatype Call = Attempt(request: nat, key: string, now: Time) | Sweep(now: Time)

  function Next(m: Buckets, call: Call, c: Config): Buckets {
    match call
    case Attempt(_, key, now) => Counted(m, key, now, c)
    case Sweep(now) => Reaped(m, now)
  }

  function After(m: Buckets, calls: seq<Call>, c: Config): Buckets
    decreases |calls|
  {
    if calls == [] then m else After(Next(m, calls[0], c), calls[1..], c)
  }

  predicate OrderedCalls(start: Time, calls: seq<Call>)
    decreases |calls|
  {
    calls == [] || (start <= calls[0].now && OrderedCalls(calls[0].now, calls[1..]))
  }

  // ---------------------------------------------------------------- reaping is invisible

  /** What the attempts of a run are told, in order. */
  function Answers(m: Buckets, calls: seq<Call>, c: Config): seq<bool>
    decreases |calls|
  {
    if calls == [] then []
    else (if calls[0].Attempt? then [Admits(m, calls[0].key, calls[0].now, c)] else [])
         + Answers(Next(m, calls[0], c), calls[1..], c)
  }

  function WithoutSweeps(calls: seq<Call>): seq<Call>
    decreases |calls|
  {
    if calls == [] then []
    else (if calls[0].Sweep? then [] else [calls[0]]) + WithoutSweeps(calls[1..])
  }

  /** From `now` on the two maps enforce the same limits. */
  ghost predicate Agree(a: Buckets, b: Buckets, now: Time) {
    forall k :: (InForce(a, k, now) <==> InForce(b, k, now)) && (InForce(a, k, now) ==> a[k] == b[k])
  }

  lemma {:induction false} SweepsChangeNoAnswer(a: Buckets, b: Buckets, start: Time, calls: seq<Call>, c: Config)
    requires Agree(a, b, start) && OrderedCalls(start, calls)
    ensures Answers(a, calls, c) == Answers(b, WithoutSweeps(calls), c)
    decreases |calls|
  {
    if calls != [] {
      var now := calls[0].now;
      assert Agree(a, b, now);
      if calls[0].Sweep? {
        assert Agree(Reaped(a, now), b, now);
        SweepsChangeNoAnswer(Reaped(a, now), b, now, calls[1..], c);
        assert WithoutSweeps(calls) == WithoutSweeps(calls[1..]);
        assert Answers(a, calls, c) == Answers(Reaped(a, now), calls[1..], c);
      } else {
        assert Agree(Next(a, calls[0], c), Next(b, calls[0], c), now);
        SweepsChangeNoAnswer(Next(a, calls[0], c), Next(b, calls[0], c), now, calls[1..], c);
        assert WithoutSweeps(calls)[1..] == WithoutSweeps(calls[1..]);
      }
    }
  }

  /** For every interleaving of attempts and sweeps at times that do not go back, every attempt is answered as by a
      limiter that never reaps. */
  lemma ReapingIsInvisible(start: Time, calls: seq<Call>, c: Config)
    requires OrderedCalls(start, calls)
    ensures Answers(map[], calls, c) == Answers(map[], WithoutSweeps(calls), c)
  {
    SweepsChangeNoAnswer(map[], map[], start, calls, c);
  }

  ghost predicate Attempted(calls: seq<Call>, key: string, lo: Time, hi: Time) {
    exists i :: 0 <= i < |calls| && calls[i].Attempt? && calls[i].key == key && lo <= calls[i].now <= hi
  }

  lemma {:induction false} BucketsComeFromAttempts(m: Buckets, calls: seq<Call>, c: Config, key: string)
    requires key in After(m, calls, c)
    ensures var e := After(m, calls, c)[key].expiresAt;
            (key in m && e == m[key].expiresAt) || Attempted(calls, key, e - c.window, e - c.window)
    decreases |calls|
  {
    if calls != [] {
      BucketsComeFromAttempts(Next(m, calls[0], c), calls[1..], c, key);
      var at := After(m, calls, c)[key].expiresAt - c.window;
      if Attempted(calls[1..], key, at, at) {
        var i :| 0 <= i < |calls[1..]| && calls[1..][i].Attempt? && calls[1..][i].key == key && calls[1..][i].now == at;
        assert calls[i + 1] == calls[1..][i];
      }
    }
  }

  /** After a sweep the map holds only keys attempted within the last window. */
  lemma SweptMapIsRecent(calls: seq<Call>, now: Time, c: Config, key: string)
    requires key in Reaped(After(map[], calls, c), now) && forall i :: 0 <= i < |calls| ==> calls[i].now <= now
    ensures Attempted(calls, key, now - c.window, now)
  {
    BucketsComeFromAttempts(map[], calls, c, key);
  }

  // ---------------------------------------------------------------- how many attempts get through

  /** How many attempts on `key` are admitted in the closed interval from `lo` to `hi`. */
  function Admissions(m: Buckets, calls: seq<Call>, c: Config, key: string, lo: Time, hi: Time): nat
    decreases |calls|
  {
    if calls == [] then 0
    else (if AdmittedHere(m, calls[0], c, key, lo, hi) then 1 else 0)
         + Admissions(Next(m, calls[0], c), calls[1..], c, key, lo, hi)
  }

  predicate AdmittedHere(m: Buckets, call: Call, c: Config, key: string, lo: Time, hi: Time) {
    call.Attempt? && call.key == key && lo <= call.now <= hi && Admits(m, key, call.now, c)
  }

  /** The requests behind them. */
  function AdmittedRequests(m: Buckets, calls: seq<Call>, c: Config, key: string, lo: Time, hi: Time): set<nat>
    decreases |calls|
  {
    if calls == [] then {}
    else (if AdmittedHere(m, calls[0], c, key, lo, hi) then {calls[0].request} else {})
         + AdmittedRequests(Next(m, calls[0], c), calls[1..], c, key, lo, hi)
  }

  /** Counts never leave the range from one to the limit. */
  predicate Sane(m: Buckets, c: Config) {
    forall k :: k in m ==> 1 <= m[k].count <= c.attempts
  }

  /** `k` further windows after the one in force, or starting at `now`, reach past `hi`. */
  predicate Covers(m: Buckets, c: Config, key: string, now: Time, hi: Time, k: nat) {
    if InForce(m, key, now) then hi - m[key].expiresAt <= k * (c.window + 1) else hi - now < k * (c.window + 1)
  }

  function Budget(m: Buckets, c: Config, key: string, now: Time, k: nat): int {
    (if InForce(m, key, now) then c.attempts - m[key].count else 0) + c.attempts * k
  }

  lemma OneWindowLess(c: Config, k: nat)
    requires k >= 1
    ensures k * (c.window + 1) == (k - 1) * (c.window + 1) + c.window + 1
    ensures c.attempts * k == c.attempts * (k - 1) + c.attempts
  {}

  lemma {:induction false} AdmissionsFitBudget(m: Buckets, start: Time, calls: seq<Call>, c: Config, key: string,
                                               lo: Time, hi: Time, k: nat)
    requires c.Valid() && Sane(m, c) && OrderedCalls(start, calls) && Covers(m, c, key, start, hi, k)
    ensures Admissions(m, calls, c, key, lo, hi) <= Budget(m, c, key, start, k)
    decreases |calls|
  {
    if calls != [] {
      var now := calls[0].now;
      var next := Next(m, calls[0], c);
      assert Covers(m, c, key, now, hi, k) && Budget(m, c, key, now, k) <= Budget(m, c, key, start, k);
      if calls[0].Attempt? && calls[0].key == key && !InForce(m, key, now) {
        if now <= hi {
          assert k >= 1;
          OneWindowLess(c, k);
          AdmissionsFitBudget(next, now, calls[1..], c, key, lo, hi, k - 1);
        } else {
          NothingLater(next, now, calls[1..], c, key, lo, hi);
        }
      } else {
        AdmissionsFitBudget(next, now, calls[1..], c, key, lo, hi, k);
      }
    }
  }

  lemma {:induction false} NothingLater(m: Buckets, start: Time, calls: seq<Call>, c: Config, key: string, lo: Time,
                                        hi: Time)
    requires OrderedCalls(start, calls) && hi < start
    ensures Admissions(m, calls, c, key, lo, hi) == 0
    decreases |calls|
  {
    if calls != [] {
      NothingLater(Next(m, calls[0], c), calls[0].now, calls[1..], c, key, lo, hi);
    }
  }

  lemma {:induction false} BoundFrom(m: Buckets, start: Time, calls: seq<Call>, c: Config, key: string, lo: Time,
                                     hi: Time, k: nat)
    requires c.Valid() && Sane(m, c) && OrderedCalls(start, calls) && k >= 1 && hi - lo <= (k - 1) * c.window
    ensures Admissions(m, calls, c, key, lo, hi) <= c.attempts * k
    ensures k >= 2 ==> Admissions(m, calls, c, key, lo, hi) <= c.attempts * k - 1
    decreases |calls|
  {
    if calls != [] && calls[0].now < lo {
      BoundFrom(Next(m, calls[0], c), calls[0].now, calls[1..], c, key, lo, hi, k);
    } else {
      OneWindowLess(c, k);
      if InForce(m, key, lo) {
        AdmissionsFitBudget(m, lo, calls, c, key, lo, hi, k - 1);
      } else if k >= 2 {
        AdmissionsFitBudget(m, lo, calls, c, key, lo, hi, k - 1);
      } else {
        AdmissionsFitBudget(m, lo, calls, c, key, lo, hi, k);
      }
    }
  }

  /** Over any run and any closed interval no longer than `k - 1` windows a key is admitted at most `k` times the limit,
      less one once `k` is two or more: in any one window at most twice the limit less one. */
  lemma RateBound(start: Time, calls: seq<Call>, c: Config, key: string, lo: Time, hi: Time, k: nat)
    requires c.Valid() && OrderedCalls(start, calls) && k >= 1 && hi - lo <= (k - 1) * c.window
    ensures Admissions(map[], calls, c, key, lo, hi) <= c.attempts * k
    ensures k >= 2 ==> Admissions(map[], calls, c, key, lo, hi) <= c.attempts * k - 1
    ensures hi - lo <= c.window ==> Admissions(map[], calls, c, key, lo, hi) <= 2 * c.attempts - 1
  {
    BoundFrom(map[], start, calls, c, key, lo, hi, k);
    if hi - lo <= c.window {
      BoundFrom(map[], start, calls, c, key, lo, hi, 2);
    }
  }

  /** `n` attempts at one moment. */
  function Burst(n: nat, key: string, now: Time): seq<Call> {
    seq(n, (i: nat) => Attempt(i, key, now))
  }

  /** A burst that fits what is left of the window in force is admitted whole. */
  lemma {:induction false} BurstFits(m: Buckets, n: nat, burst: seq<Call>, rest: seq<Call>, c: Config, key: string,
                                     now: Time, lo: Time, hi: Time)
    requires |burst| == n && forall i :: 0 <= i < n ==> burst[i].Attempt? && burst[i].key == key && burst[i].now == now
    requires InForce(m, key, now) && m[key].count + n <= c.attempts && lo <= now <= hi
    ensures Admissions(m, burst + rest, c, key, lo, hi)
            == n + Admissions(m[key := Bucket(m[key].count + n, m[key].expiresAt)], rest, c, key, lo, hi)
    decreases n
  {
    if n == 0 {
      assert burst + rest == rest;
      assert m[key := Bucket(m[key].count, m[key].expiresAt)] == m;
    } else {
      var m1 := m[key := m[key].(count := m[key].count + 1)];
      assert (burst + rest)[0] == burst[0] && (burst + rest)[1..] == burst[1..] + rest;
      BurstFits(m1, n - 1, burst[1..], rest, c, key, now, lo, hi);
      assert m1[key := Bucket(m1[key].count + (n - 1), m1[key].expiresAt)]
             == m[key := Bucket(m[key].count + n, m[key].expiresAt)];
    }
  }

  lemma {:induction false} BurstOrdered(start: Time, burst: seq<Call>, rest: seq<Call>, now: Time)
    requires forall i :: 0 <= i < |burst| ==> burst[i].now == now
    requires start <= now && OrderedCalls(now, rest)
    ensures OrderedCalls(start, burst + rest)
    decreases |burst|
  {
    if burst == [] {
      assert burst + rest == rest;
    } else {
      assert (burst + rest)[0] == burst[0] && (burst + rest)[1..] == burst[1..] + rest;
      BurstOrdered(now, burst[1..], rest, now);
    }
  }

  /** The one-window bound is reached under every configuration: one attempt opens a window, the rest of it is used up
      at its last instant, and the whole of the next right after. */
  lemma BurstAcrossTheBoundary(c: Config, key: string)
    requires c.Valid()
    ensures var calls := [Attempt(0, key, 0)] + (Burst(c.attempts - 1, key, c.window)
                         + ([Attempt(0, key, c.window + 1)] + Burst(c.attempts - 1, key, c.window + 1)));
            && OrderedCalls(0, calls)
            && Admissions(map[], calls, c, key, c.window, 2 * c.window) == 2 * c.attempts - 1
  {
    var w, hi := c.window, 2 * c.window;
    var late := Burst(c.attempts - 1, key, w + 1);
    var next := [Attempt(0, key, w + 1)] + late;
    var rest := Burst(c.attempts - 1, key, w) + next;
    var m1 := map[key := Bucket(1, w)];
    var m2 := map[key := Bucket(c.attempts, w)];
    var m3 := map[key := Bucket(1, w + 1 + w)];
    assert ([Attempt(0, key, 0)] + rest)[1..] == rest;
    assert late + [] == late;
    BurstOrdered(w + 1, late, [], w + 1);
    BurstOrdered(0, Burst(c.attempts - 1, key, w), next, w);
    assert Next(map[], Attempt(0, key, 0), c) == m1;
    BurstFits(m1, c.attempts - 1, Burst(c.attempts - 1, key, w), next, c, key, w, w, hi);
    assert m1[key := Bucket(1 + (c.attempts - 1), w)] == m2;
    assert next[1..] == late;
    assert Next(m2, Attempt(0, key, w + 1), c) == m3;
    BurstFits(m3, c.attempts - 1, late, [], c, key, w + 1, w, hi);
  }

  lemma {:induction false} RequestsAtMostAdmissions(m: Buckets, calls: seq<Call>, c: Config, key: string, lo: Time,
                                                    hi: Time)
    ensures |AdmittedRequests(m, calls, c, key, lo, hi)| <= Admissions(m, calls, c, key, lo, hi)
    decreases |calls|
  {
    if calls != [] {
      RequestsAtMostAdmissions(Next(m, calls[0], c), calls[1..], c, key, lo, hi);
    }
  }

  /** A request gets to its handler only if each of its non-empty keys was admitted for it. */
  predicate Handled(calls: seq<Call>, c: Config, request: nat, keys: seq<string>, lo: Time, hi: Time) {
    forall key :: key in keys && key != "" ==> request in AdmittedRequests(map[], calls, c, key, lo, hi)
  }

  /** The bound holds for requests that reach the handler, on each of their keys at once: whatever the interleaving, at
      most `k` times the limit of them can share an address, and likewise an email. */
  lemma HandledBound(start: Time, calls: seq<Call>, c: Config, handled: set<nat>, keysOf: map<nat, seq<string>>,
                     key: string, lo: Time, hi: Time, k: nat)
    requires c.Valid() && OrderedCalls(start, calls) && k >= 1 && hi - lo <= (k - 1) * c.window && key != ""
    requires forall r :: r in handled ==> r in keysOf && key in keysOf[r] && Handled(calls, c, r, keysOf[r], lo, hi)
    ensures |handled| <= c.attempts * k && (k >= 2 ==> |handled| <= c.attempts * k - 1)
    ensures hi - lo <= c.window ==> |handled| <= 2 * c.attempts - 1
  {
    RateBound(start, calls, c, key, lo, hi, k);
    RequestsAtMostAdmissions(map[], calls, c, key, lo, hi);
    assert handled <= AdmittedRequests(map[], calls, c, key, lo, hi);
    SubsetSize(handled, AdmittedRequests(map[], calls, c, key, lo, hi));
  }

  lemma SubsetSize<T>(a: set<T>, b: set<T>)
    requires a <= b
    ensures |a| <= |b|
  {
    assert b == a + (b - a);
  }

  /** The turns one request takes when its keys are tried one after another with nothing in between. */
  function TurnsOf(m: Buckets, keys: seq<string>, clock: seq<Time>, c: Config, request: nat): seq<Call>
    requires |clock| == 2 * |keys|
    decreases |keys|
  {
    if keys == [] then []
    else if keys[0] == "" then TurnsOf(m, keys[1..], clock[2..], c, request)
    else [Attempt(request, keys[0], clock[0])]
         + if Admits(m, keys[0], clock[0], c)
           then TurnsOf(Counted(m, keys[0], clock[0], c), keys[1..], clock[2..], c, request) else []
  }

  /** The guard lets a request through exactly when its turns admit every non-empty key. */
  lemma {:induction false} GuardIsItsTurns(m: Buckets, keys: seq<string>, clock: seq<Time>, c: Config, request: nat)
    requires |clock| == 2 * |keys|
    ensures var turns := TurnsOf(m, keys, clock, c, request);
            && Guarded(m, keys, clock, c).0 == After(m, turns, c)
            && (Guarded(m, keys, clock, c).1.None? <==> false !in Answers(m, turns, c))
            && (Guarded(m, keys, clock, c).1.None? ==>
                  forall i :: 0 <= i < |keys| && keys[i] != "" ==>
                    exists j :: 0 <= j < |turns| && turns[j] == Attempt(request, keys[i], clock[2 * i]))
    decreases |keys|
  {
    if keys != [] {
      var turns := TurnsOf(m, keys, clock, c, request);
      var m' := if keys[0] == "" then m else Counted(m, keys[0], clock[0], c);
      if keys[0] == "" || Admits(m, keys[0], clock[0], c) {
        GuardIsItsTurns(m', keys[1..], clock[2..], c, request);
        var rest := TurnsOf(m', keys[1..], clock[2..], c, request);
        assert keys[0] != "" ==> turns[1..] == rest;
        if Guarded(m, keys, clock, c).1.None? {
          forall i | 0 <= i < |keys| && keys[i] != ""
            ensures exists j :: 0 <= j < |turns| && turns[j] == Attempt(request, keys[i], clock[2 * i])
          {
            if i == 0 {
              assert turns[0] == Attempt(request, keys[0], clock[0]);
            } else {
              assert keys[1..][i - 1] == keys[i] && clock[2..][2 * (i - 1)] == clock[2 * i];
              var j :| 0 <= j < |rest| && rest[j] == Attempt(request, keys[i], clock[2 * i]);
              assert turns[if keys[0] == "" then j else j + 1] == rest[j];
            }
          }
        }
      }
    }
  }

  // ---------------------------------------------------------------- waiting helps

  lemma {:induction false} IdleBucket(m: Buckets, idle: seq<Call>, c: Config, key: string)
    requires forall i :: 0 <= i < |idle| && idle[i].Attempt? ==> idle[i].key != key
    ensures key in After(m, idle, c) ==> key in m && After(m, idle, c)[key] == m[key]
    decreases |idle|
  {
    if idle != [] {
      IdleBucket(Next(m, idle[0], c), idle[1..], c, key);
    }
  }

  /** A refused caller who waits the advertised time, while nobody else tries that key, gets in; and the advertised time
      is less than a second longer than it has to be. */
  lemma RetryAfterSuffices(m: Buckets, c: Config, key: string, now: Time, later: Time, idle: seq<Call>, again: Time)
    requires !Admits(m, key, now, c)
    requires forall i :: 0 <= i < |idle| && idle[i].Attempt? ==> idle[i].key != key
    requires again >= later + RetryAfter(m[key].expiresAt - later) * SECOND
    ensures Admits(After(m, idle, c), key, again, c)
    ensures (RetryAfter(m[key].expiresAt - later) - 1) * SECOND <= if later <= m[key].expiresAt
                                                                  then m[key].expiresAt - later else 0
  {
    IdleBucket(m, idle, c, key);
  }
}

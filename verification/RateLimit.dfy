/**
 The fixed-window limiters. Both are proved against the log of calls they were asked about:
 what a call is answered depends on the log alone, so evicting or expiring counters, and
 keeping them in memory or in Redis, decides nothing.
 */
module RateLimit {
  import opened Numbers
  import opened Wrappers

  type Key(==, !new)
  type Time = nat  // nanoseconds

  const SECOND: nat := 1_000_000_000

  datatype Call = Call(key: Key, at: Time)

  datatype Verdict = Verdict(allowed: bool, limit: int, remaining: int, retryAfter: int)

  /** Whole seconds of a window, at least one. */
  function WindowSeconds(window: int): (secs: nat)
    requires window > 0
    ensures secs >= 1 && secs * SECOND <= window + SECOND
    ensures window >= SECOND ==> secs * SECOND <= window < (secs + 1) * SECOND
  {
    var secs := window / SECOND;
    if secs <= 0 then 1 else secs
  }

  function Width(window: int): (w: nat)
    requires window > 0
    ensures w >= SECOND
  {
    WindowSeconds(window) * SECOND
  }

  // ---------------------------------------------------------------- buckets of time

  function Bucket(at: Time, width: nat): nat
    requires width > 0
  {
    at / width
  }

  lemma BucketSpan(at: Time, width: nat)
    requires width > 0
    ensures Bucket(at, width) * width <= at < (Bucket(at, width) + 1) * width
  {
  }

  lemma Scale(a: nat, b: nat, w: nat)
    ensures a < b ==> (a + 1) * w <= b * w
  {
    if a < b { assert (b - (a + 1)) * w >= 0; }
  }

  lemma BucketIs(at: Time, width: nat, b: nat)
    requires width > 0 && b * width <= at < (b + 1) * width
    ensures Bucket(at, width) == b
  {
    BucketSpan(at, width);
    Scale(Bucket(at, width), b, width);
    Scale(b, Bucket(at, width), width);
  }

  lemma BucketMonotone(a: Time, b: Time, width: nat)
    requires width > 0 && a <= b
    ensures Bucket(a, width) <= Bucket(b, width)
  {
    BucketSpan(a, width);
    BucketSpan(b, width);
    Scale(Bucket(b, width), Bucket(a, width), width);
  }

  lemma Unscaled(bucket: nat, secs: nat)
    ensures (bucket + 1) * secs * SECOND == (bucket + 1) * (secs * SECOND)
  {
  }

  /** The code divides the Unix second by the seconds of the window. */
  lemma UnixBucket(now: Time, window: int)
    requires window > 0
    ensures (now / SECOND) / WindowSeconds(window) == Bucket(now, Width(window))
  {
    var secs := WindowSeconds(window);
    var unix := now / SECOND;
    var b := unix / secs;
    assert b * secs <= unix < (b + 1) * secs;
    assert unix * SECOND <= now < (unix + 1) * SECOND;
    assert (b * secs) * SECOND <= unix * SECOND && (unix + 1) * SECOND <= ((b + 1) * secs) * SECOND;
    assert (b * secs) * SECOND == b * (secs * SECOND) && ((b + 1) * secs) * SECOND == (b + 1) * (secs * SECOND);
    BucketIs(now, Width(window), b);
  }

  // ---------------------------------------------------------------- the log

  ghost predicate Sorted(log: seq<Call>) { forall i, j :: 0 <= i < j < |log| ==> log[i].at <= log[j].at }

  function Is(c: Call, key: Key, width: nat, b: nat): bool
    requires width > 0
  {
    c.key == key && Bucket(c.at, width) == b
  }

  /** Calls of one key in one bucket. */
  function CallsIn(log: seq<Call>, key: Key, width: nat, b: nat): nat
    requires width > 0
  {
    if log == [] then 0
    else CallsIn(log[..|log| - 1], key, width, b) + if Is(log[|log| - 1], key, width, b) then 1 else 0
  }

  lemma CallsSnoc(log: seq<Call>, c: Call, key: Key, width: nat, b: nat)
    requires width > 0
    ensures CallsIn(log + [c], key, width, b) == CallsIn(log, key, width, b) + if Is(c, key, width, b) then 1 else 0
  {
    assert (log + [c])[..|log|] == log;
  }

  /** What the count of the current bucket decides. */
  function Decide(count: int, limit: int, bucket: nat, secs: nat, now: Time): (v: Verdict) {
    var reset := (bucket + 1) * secs;
    var retry := (reset - now / SECOND) * SECOND;
    Verdict(count <= limit, limit, if limit - count < 0 then 0 else limit - count, if retry < 0 then 0 else retry)
  }

  /** The answer to the last call of `log`. */
  function Answer(log: seq<Call>, key: Key, limit: int, window: int, now: Time): Verdict
    requires window > 0
  {
    Decide(CallsIn(log, key, Width(window), Bucket(now, Width(window))), limit, Bucket(now, Width(window)), WindowSeconds(window), now)
  }

  // ---------------------------------------------------------------- in memory

  datatype Slot = Slot(bucket: nat, count: nat, expiresAt: Time)

  ghost predicate OnTime(log: seq<Call>, clock: Time) { forall i :: 0 <= i < |log| ==> log[i].at <= clock }

  ghost predicate SlotOk(log: seq<Call>, window: int, clock: Time, key: Key, s: Slot) {
    && window > 0
    && var w := Width(window);
    && s.count == CallsIn(log, key, w, s.bucket) && s.count > 0
    && s.expiresAt == (s.bucket + 1) * w
    && s.bucket <= Bucket(clock, w)
    && forall b: nat :: b > s.bucket ==> CallsIn(log, key, w, b) == 0
  }

  /** A key without a slot has not called in the current bucket. */
  ghost predicate Missing(log: seq<Call>, window: int, clock: Time, key: Key) {
    window > 0 ==> forall b: nat :: b >= Bucket(clock, Width(window)) ==> CallsIn(log, key, Width(window), b) == 0
  }

  ghost predicate SlotsOk(log: seq<Call>, windows: Key -> int, clock: Time, buckets: map<Key, Slot>) {
    forall key :: if key in buckets then SlotOk(log, windows(key), clock, key, buckets[key]) else Missing(log, windows(key), clock, key)
  }

  lemma TimePasses(log: seq<Call>, windows: Key -> int, clock: Time, now: Time, buckets: map<Key, Slot>)
    requires SlotsOk(log, windows, clock, buckets) && clock <= now
    ensures SlotsOk(log, windows, now, buckets)
  {
    forall key | windows(key) > 0 ensures Bucket(clock, Width(windows(key))) <= Bucket(now, Width(windows(key))) {
      BucketMonotone(clock, now, Width(windows(key)));
    }
  }

  /** Counting one call at the current time. */
  lemma CallLogged(log: seq<Call>, windows: Key -> int, buckets: map<Key, Slot>, key: Key, now: Time)
    requires SlotsOk(log, windows, now, buckets) && windows(key) > 0
    ensures var w := Width(windows(key)); var b := Bucket(now, w);
            var count := if key in buckets && buckets[key].bucket == b then buckets[key].count + 1 else 1;
            && count == CallsIn(log + [Call(key, now)], key, w, b)
            && SlotsOk(log + [Call(key, now)], windows, now, buckets[key := Slot(b, count, (b + 1) * w)])
  {
    var w := Width(windows(key));
    var bucket := Bucket(now, w);
    var longer := log + [Call(key, now)];
    forall k, width: nat, b: nat | width > 0
      ensures CallsIn(longer, k, width, b) == CallsIn(log, k, width, b) + if k == key && Bucket(now, width) == b then 1 else 0
    {
      CallsSnoc(log, Call(key, now), k, width, b);
    }
    var count := if key in buckets && buckets[key].bucket == bucket then buckets[key].count + 1 else 1;
    var more := buckets[key := Slot(bucket, count, (bucket + 1) * w)];
    forall k ensures if k in more then SlotOk(longer, windows(k), now, k, more[k]) else Missing(longer, windows(k), now, k) {
      assert if k in buckets then SlotOk(log, windows(k), now, k, buckets[k]) else Missing(log, windows(k), now, k);
    }
  }

  /** A slot that was evicted belongs to a bucket that is over. */
  lemma EvictedIsMissing(log: seq<Call>, window: int, now: Time, key: Key, s: Slot)
    requires SlotOk(log, window, now, key, s) && now > s.expiresAt
    ensures Missing(log, window, now, key)
  {
    var w := Width(window);
    assert (s.bucket + 1 + 1) * w == (s.bucket + 1) * w + w;
    BucketIs(s.expiresAt, w, s.bucket + 1);
    BucketMonotone(s.expiresAt, now, w);
    hide Bucket, Width, CallsIn;
  }

  lemma SweptOk(log: seq<Call>, windows: Key -> int, now: Time, buckets: map<Key, Slot>, kept: map<Key, Slot>)
    requires SlotsOk(log, windows, now, buckets) && kept.Keys <= buckets.Keys
    requires forall key :: key in kept ==> kept[key] == buckets[key]
    requires forall key :: key in buckets && key !in kept ==> now > buckets[key].expiresAt
    ensures SlotsOk(log, windows, now, kept)
  {
    hide SlotOk, Missing;
    forall k ensures if k in kept then SlotOk(log, windows(k), now, k, kept[k]) else Missing(log, windows(k), now, k) {
      if k in buckets && k !in kept {
        EvictedIsMissing(log, windows(k), now, k, buckets[k]);
      }
    }
  }

  class MemoryLimiter {
    var buckets: map<Key, Slot>
    ghost const windows: Key -> int  // the window a key is always limited with
    ghost var log: seq<Call>
    ghost var clock: Time

    ghost predicate Valid()
      reads this
    {
      Sorted(log) && OnTime(log, clock) && SlotsOk(log, windows, clock, buckets)
    }

    constructor (ghost windows: Key -> int)
      ensures Valid() && log == [] && clock == 0 && this.windows == windows
    {
      this.windows := windows;
      buckets, log, clock := map[], [], 0;
    }

    /** A call without a positive limit and window is not limited and not counted. */
    method Allow(key: Key, limit: int, window: int, now: Time) returns (v: Verdict)
      requires Valid() && now >= clock && (window > 0 ==> windows(key) == window)
      modifies this`buckets, this`log, this`clock
      ensures Valid() && clock == now
      ensures log == if limit <= 0 || window <= 0 then old(log) else old(log) + [Call(key, now)]
      ensures limit <= 0 || window <= 0 ==> v == Verdict(true, limit, 0, 0)
      ensures limit > 0 && window > 0 ==> v == Answer(log, key, limit, window, now)
    {
      hide SlotsOk, CallsIn, WindowSeconds, Bucket, Decide;
      TimePasses(log, windows, clock, now, buckets);
      clock := now;
      if limit <= 0 || window <= 0 {
        return Verdict(true, limit, 0, 0);
      }
      var secs := WindowSeconds(window);
      var bucket := (now / SECOND) / secs;
      UnixBucket(now, window);
      var count := 1;
      if key in buckets && buckets[key].bucket == bucket {
        count := buckets[key].count + 1;
      }
      CallLogged(log, windows, buckets, key, now);
      Unscaled(bucket, secs);
      buckets := buckets[key := Slot(bucket, count, (bucket + 1) * secs * SECOND)];
      log := log + [Call(key, now)];
      v := Decide(count, limit, bucket, secs, now);
    }

    /** Evicting changes what is stored, never what a call is answered. */
    method Sweep(now: Time)
      requires Valid() && now >= clock
      modifies this`buckets, this`clock
      ensures Valid() && clock == now && log == old(log)
      ensures buckets.Keys <= old(buckets).Keys
    {
      TimePasses(log, windows, clock, now, buckets);
      clock := now;
      var kept := map key | key in buckets && !(now > buckets[key].expiresAt) :: buckets[key];
      SweptOk(log, windows, now, buckets, kept);
      buckets := kept;
    }
  }

  // ---------------------------------------------------------------- in Redis

  datatype Counter = Counter(count: nat, expires: Time)

  ghost predicate CounterOk(log: seq<Call>, window: int, key: Key, b: nat, c: Counter) {
    window > 0 && c.count == CallsIn(log, key, Width(window), b) && c.expires >= (b + 1) * Width(window)
  }

  /** Every counter is exact and lives to the end of its bucket; a bucket that has calls and is
      not over has its counter. */
  ghost predicate CountersOk(log: seq<Call>, windows: Key -> int, clock: Time, store: map<(Key, nat), Counter>) {
    && (forall key, b: nat :: (key, b) in store ==> CounterOk(log, windows(key), key, b, store[(key, b)]))
    && (forall key, b: nat :: windows(key) > 0 && CallsIn(log, key, Width(windows(key)), b) > 0 && b >= Bucket(clock, Width(windows(key))) ==>
          (key, b) in store)
  }

  lemma CountersKept(log: seq<Call>, windows: Key -> int, clock: Time, now: Time,
                     store: map<(Key, nat), Counter>, kept: map<(Key, nat), Counter>)
    requires CountersOk(log, windows, clock, store) && clock <= now && kept.Keys <= store.Keys
    requires forall x :: x in kept ==> kept[x] == store[x]
    requires forall x :: x in store && x !in kept ==> store[x].expires <= now
    ensures CountersOk(log, windows, now, kept)
  {
    forall key, b: nat | windows(key) > 0 && CallsIn(log, key, Width(windows(key)), b) > 0 && b >= Bucket(now, Width(windows(key)))
      ensures (key, b) in kept
    {
      var w := Width(windows(key));
      BucketMonotone(clock, now, w);
      BucketSpan(now, w);
      Scale(Bucket(now, w), b + 1, w);
      assert (key, b) in store && CounterOk(log, windows(key), key, b, store[(key, b)]);
      LaterEnd(Bucket(now, w), b, w);
    }
  }

  lemma LaterEnd(a: nat, b: nat, w: nat)
    requires a <= b
    ensures (a + 1) * w <= (b + 1) * w
  {
    Scale(a, b + 1, w);
  }

  /** INCR and EXPIRE at the current time: a counter set now outlives its bucket. */
  lemma CallCounted(log: seq<Call>, windows: Key -> int, store: map<(Key, nat), Counter>, key: Key, now: Time)
    requires CountersOk(log, windows, now, store) && windows(key) > 0
    requires forall x :: x in store ==> now < store[x].expires
    ensures var w := Width(windows(key)); var b := Bucket(now, w);
            var count := if (key, b) in store then store[(key, b)].count + 1 else 1;
            && count == CallsIn(log + [Call(key, now)], key, w, b)
            && CountersOk(log + [Call(key, now)], windows, now, store[(key, b) := Counter(count, now + windows(key) + SECOND)])
  {
    var w := Width(windows(key));
    var bucket := Bucket(now, w);
    var longer := log + [Call(key, now)];
    forall k, width: nat, b: nat | width > 0
      ensures CallsIn(longer, k, width, b) == CallsIn(log, k, width, b) + if k == key && Bucket(now, width) == b then 1 else 0
    {
      CallsSnoc(log, Call(key, now), k, width, b);
    }
    BucketSpan(now, w);
    assert (bucket + 1) * w == bucket * w + w;
    assert (key, bucket) !in store ==> CallsIn(log, key, w, bucket) == 0;
    var count := if (key, bucket) in store then store[(key, bucket)].count + 1 else 1;
    var more := store[(key, bucket) := Counter(count, now + windows(key) + SECOND)];
    forall k, b: nat | (k, b) in more ensures CounterOk(longer, windows(k), k, b, more[(k, b)]) {
      if (k, b) != (key, bucket) {
        assert CounterOk(log, windows(k), k, b, store[(k, b)]);
      }
    }
  }

  class RedisLimiter {
    var store: map<(Key, nat), Counter>
    ghost const windows: Key -> int
    ghost var log: seq<Call>
    ghost var clock: Time

    ghost predicate Valid()
      reads this
    {
      Sorted(log) && OnTime(log, clock) && CountersOk(log, windows, clock, store)
    }

    constructor (ghost windows: Key -> int)
      ensures Valid() && log == [] && clock == 0 && this.windows == windows
    {
      this.windows := windows;
      store, log, clock := map[], [], 0;
    }

    /** Redis drops keys whose time to live is over. */
    method Expire(now: Time)
      requires Valid() && now >= clock
      modifies this`store, this`clock
      ensures Valid() && clock == now && log == old(log)
      ensures forall x :: x in store ==> now < store[x].expires
    {
      var kept := map x | x in store && now < store[x].expires :: store[x];
      CountersKept(log, windows, clock, now, store, kept);
      clock, store := now, kept;
    }

    /** The contract of the limiter in memory, word for word; a failed pipeline counts nothing. */
    method Allow(key: Key, limit: int, window: int, now: Time, fails: bool) returns (r: Result<Verdict, ()>)
      requires Valid() && now >= clock && (window > 0 ==> windows(key) == window)
      modifies this`store, this`log, this`clock
      ensures Valid() && clock == now
      ensures log == if limit <= 0 || window <= 0 || fails then old(log) else old(log) + [Call(key, now)]
      ensures limit <= 0 || window <= 0 ==> r == Ok(Verdict(true, limit, 0, 0))
      ensures limit > 0 && window > 0 ==> r == if fails then Err(()) else Ok(Answer(log, key, limit, window, now))
    {
      hide CountersOk, CallsIn, WindowSeconds, Bucket, Decide;
      Expire(now);
      if limit <= 0 || window <= 0 {
        return Ok(Verdict(true, limit, 0, 0));
      }
      var secs := WindowSeconds(window);
      var bucket := (now / SECOND) / secs;
      UnixBucket(now, window);
      if fails {
        return Err(());
      }
      var count := if (key, bucket) in store then store[(key, bucket)].count + 1 else 1;
      CallCounted(log, windows, store, key, now);
      store := store[(key, bucket) := Counter(count, now + window + SECOND)];
      log := log + [Call(key, now)];
      r := Ok(Decide(count, limit, bucket, secs, now));
    }
  }

  // ---------------------------------------------------------------- what the answers add up to

  /** Call `i` of the log is answered yes. */
  ghost predicate Admits(log: seq<Call>, i: nat, width: nat, limit: nat)
    requires width > 0 && i < |log|
  {
    CallsIn(log[..i + 1], log[i].key, width, Bucket(log[i].at, width)) <= limit
  }

  lemma AnswerAdmits(log: seq<Call>, i: nat, limit: nat, window: int)
    requires window > 0 && i < |log|
    ensures Answer(log[..i + 1], log[i].key, limit, window, log[i].at).allowed <==> Admits(log, i, Width(window), limit)
  {
  }

  /** Admitted calls of `key` among those of bucket `b`. */
  ghost function AdmittedIn(log: seq<Call>, key: Key, width: nat, limit: nat, b: nat): nat
    requires width > 0
  {
    if log == [] then 0
    else
      var n := |log| - 1;
      AdmittedIn(log[..n], key, width, limit, b) + if Is(log[n], key, width, b) && Admits(log, n, width, limit) then 1 else 0
  }

  /** A bucket admits exactly min(calls, limit): its first ones. */
  lemma {:induction false} BucketAdmits(log: seq<Call>, key: Key, width: nat, limit: nat, b: nat)
    requires width > 0
    ensures AdmittedIn(log, key, width, limit, b) == Min(CallsIn(log, key, width, b), limit)
  {
    if log != [] {
      var n := |log| - 1;
      assert log[..n + 1] == log;
      BucketAdmits(log[..n], key, width, limit, b);
    }
  }

  /** Admitted calls of `key` in a span of time. */
  ghost function AdmittedDuring(log: seq<Call>, key: Key, width: nat, limit: nat, from: Time, until: Time): nat
    requires width > 0
  {
    if log == [] then 0
    else
      var n := |log| - 1;
      AdmittedDuring(log[..n], key, width, limit, from, until)
      + if log[n].key == key && from <= log[n].at < until && Admits(log, n, width, limit) then 1 else 0
  }

  lemma {:induction false} SpanMeetsTwoBuckets(log: seq<Call>, key: Key, width: nat, limit: nat, from: Time, until: Time)
    requires width > 0 && until <= from + width + 1
    ensures var b := Bucket(from, width);
            AdmittedDuring(log, key, width, limit, from, until)
            <= AdmittedIn(log, key, width, limit, b) + AdmittedIn(log, key, width, limit, b + 1)
  {
    if log != [] {
      var n := |log| - 1;
      var b := Bucket(from, width);
      SpanMeetsTwoBuckets(log[..n], key, width, limit, from, until);
      if from <= log[n].at < until {
        BucketMonotone(from, log[n].at, width);
        BucketSpan(from, width);
        BucketSpan(log[n].at, width);
        Scale(b + 1, Bucket(log[n].at, width), width);
        assert (b + 1 + 1) * width == (b + 1) * width + width;
      }
    }
  }

  /** No span as long as the window admits more than twice the limit, provided the window is at
      most a nanosecond longer than its whole seconds. */
  lemma TwiceTheLimit(log: seq<Call>, key: Key, window: int, limit: nat, from: Time)
    requires window > 0 && window <= Width(window) + 1
    ensures AdmittedDuring(log, key, Width(window), limit, from, from + window) <= 2 * limit
  {
    var w := Width(window);
    SpanMeetsTwoBuckets(log, key, w, limit, from, from + window);
    BucketAdmits(log, key, w, limit, Bucket(from, w));
    BucketAdmits(log, key, w, limit, Bucket(from, w) + 1);
  }

  lemma AdmittedSnoc(log: seq<Call>, c: Call, width: nat, limit: nat, from: Time, until: Time)
    requires width > 0
    ensures AdmittedDuring(log + [c], c.key, width, limit, from, until) ==
            AdmittedDuring(log, c.key, width, limit, from, until)
            + if from <= c.at < until && CallsIn(log + [c], c.key, width, Bucket(c.at, width)) <= limit then 1 else 0
  {
    var longer := log + [c];
    assert longer[..|log|] == log && longer[..|log| + 1] == longer;
  }

  /** For every other window the bound fails: the fraction of a second that the bucket ignores
      lets the span meet three buckets. */
  lemma FractionalWindowBreaksTheBound(key: Key, window: int)
    requires window > 0 && window > Width(window) + 1
    ensures var w := Width(window); var log := [Call(key, w - 1), Call(key, w), Call(key, 2 * w)];
            Sorted(log) && AdmittedDuring(log, key, w, 1, w - 1, w - 1 + window) == 3
  {
    var w := Width(window);
    var a, b, c := Call(key, w - 1), Call(key, w), Call(key, 2 * w);
    BucketIs(w - 1, w, 0);
    BucketIs(w, w, 1);
    BucketIs(2 * w, w, 2);
    hide Bucket, Width;
    CallsSnoc([], a, key, w, 0);
    CallsSnoc([], a, key, w, 1);
    CallsSnoc([], a, key, w, 2);
    CallsSnoc([a], b, key, w, 1);
    CallsSnoc([a], b, key, w, 2);
    CallsSnoc([a, b], c, key, w, 2);
    assert [] + [a] == [a] && [a] + [b] == [a, b] && [a, b] + [c] == [a, b, c];
    hide CallsIn, AdmittedDuring;
    AdmittedSnoc([], a, w, 1, w - 1, w - 1 + window);
    AdmittedSnoc([a], b, w, 1, w - 1, w - 1 + window);
    AdmittedSnoc([a, b], c, w, 1, w - 1, w - 1 + window);
    NoneYet(key, w, w - 1, w - 1 + window);
  }

  lemma NoneYet(key: Key, w: nat, from: Time, until: Time)
    requires w > 0
    ensures AdmittedDuring([], key, w, 1, from, until) == 0 && forall b: nat :: CallsIn([], key, w, b) == 0
  {
  }

  /** RetryAfter is positive, ends no earlier than the bucket and less than a second after it,
      and whoever waits that long is in a later bucket. */
  lemma RetryAfterReachesNextBucket(log: seq<Call>, key: Key, limit: int, window: int, now: Time, later: Time)
    requires window > 0 && later >= now + Answer(log, key, limit, window, now).retryAfter
    ensures var w := Width(window); var v := Answer(log, key, limit, window, now);
            && 0 < v.retryAfter && (Bucket(now, w) + 1) * w <= now + v.retryAfter < (Bucket(now, w) + 1) * w + SECOND
            && Bucket(now, w) < Bucket(later, w)
  {
    var w := Width(window);
    var secs := WindowSeconds(window);
    var b := Bucket(now, w);
    UnixBucket(now, window);
    BucketSpan(now, w);
    Unscaled(b, secs);
    var unix := now / SECOND;
    assert unix / secs == b;
    assert unix < (b + 1) * secs;
    assert ((b + 1) * secs - unix) * SECOND == (b + 1) * secs * SECOND - unix * SECOND;
    BucketMonotone((b + 1) * w, later, w);
    LaterEnd(b, b + 1, w);
    assert (b + 1 + 1) * w == (b + 1) * w + w;
    BucketIs((b + 1) * w, w, b + 1);
  }

  /** A denial holds for the rest of its bucket. */
  lemma {:induction false} DeniedUntilTheBucketEnds(log: seq<Call>, i: nat, j: nat, width: nat, limit: nat)
    requires width > 0 && i <= j < |log| && !Admits(log, i, width, limit)
    requires log[j].key == log[i].key && Bucket(log[j].at, width) == Bucket(log[i].at, width)
    ensures !Admits(log, j, width, limit)
  {
    CallsGrow(log, log[i].key, width, Bucket(log[i].at, width), i + 1, j + 1);
  }

  lemma {:induction false} CallsGrow(log: seq<Call>, key: Key, width: nat, b: nat, i: nat, j: nat)
    requires width > 0 && i <= j <= |log|
    ensures CallsIn(log[..i], key, width, b) <= CallsIn(log[..j], key, width, b)
    decreases j
  {
    if i < j {
      CallsGrow(log, key, width, b, i, j - 1);
      assert log[..j][..j - 1] == log[..j - 1];
    }
  }
}

/** The in-memory fixed-window rate limiter: its capped bucket map, the check and the sweep. */
module RateLimiter {
  import opened InsertionMap
  import opened Wrappers

  /** Calls let through since the bucket was made, and the last millisecond it covers. */
  datatype Bucket = Bucket(count: int, resetAt: int)

  const MAX_BUCKETS := 10_000
  const WINDOW := 60_000

  type Buckets = seq<Item<Bucket>>

  // ---------- One call and one sweep ----------

  function EvictedOldest(buckets: Buckets): Buckets {
    if |buckets| < MAX_BUCKETS then buckets else buckets[1..]
  }

  predicate Fresh(bucket: Option<Bucket>, now: int) {
    bucket.Some? && now <= bucket.value.resetAt
  }

  function Checked(buckets: Buckets, key: string, maxPerMinute: int, now: int): Buckets {
    var bucket := Find(buckets, key);
    if !Fresh(bucket, now) then Put(EvictedOldest(buckets), key, Bucket(1, now + WINDOW))
    else if bucket.value.count >= maxPerMinute then buckets
    else Put(buckets, key, bucket.value.(count := bucket.value.count + 1))
  }

  predicate Allowed(buckets: Buckets, key: string, maxPerMinute: int, now: int) {
    var bucket := Find(buckets, key);
    Fresh(bucket, now) ==> bucket.value.count < maxPerMinute
  }

  /** Whole seconds until the bucket's end, rounded up. */
  function RetryAfter(bucket: Bucket, now: int): int {
    (bucket.resetAt - now + 999) / 1000
  }

  /** The wait is the fewest seconds after which the bucket's end is reached. */
  lemma ShortestWait(bucket: Bucket, now: int, seconds: int)
    ensures RetryAfter(bucket, now) <= seconds <==> bucket.resetAt <= now + 1000 * seconds
  {
  }

  function Swept(buckets: Buckets, now: int): Buckets {
    if buckets == [] then []
    else (if now > buckets[0].value.resetAt + WINDOW then [] else [buckets[0]]) + Swept(buckets[1..], now)
  }

  lemma {:induction false} SweptInOrder(a: Buckets, b: Buckets, now: int)
    ensures Swept(a + b, now) == Swept(a, now) + Swept(b, now)
  {
    if a == [] {
      assert a + b == b;
    } else {
      assert (a + b)[1..] == a[1..] + b;
      SweptInOrder(a[1..], b, now);
    }
  }

  lemma {:induction false} SweptHolds(buckets: Buckets, now: int)
    ensures forall b :: b in Swept(buckets, now) <==> b in buckets && now <= b.value.resetAt + 60_000
  {
    if buckets != [] {
      SweptHolds(buckets[1..], now);
      assert buckets == [buckets[0]] + buckets[1..];
    }
  }

  /** The sweep keeps exactly the buckets whose end is at most a minute past, each in its place among the others. */
  lemma SweptIs(buckets: Buckets, now: int)
    ensures forall b :: b in Swept(buckets, now) <==> b in buckets && now <= b.value.resetAt + 60_000
    ensures forall i {:trigger buckets[i]} :: 0 <= i < |buckets| ==>
              Swept(buckets, now) == Swept(buckets[..i], now) + Swept([buckets[i]], now) + Swept(buckets[i + 1..], now)
  {
    hide Swept;
    SweptHolds(buckets, now);
    forall i {:trigger buckets[i]} | 0 <= i < |buckets|
      ensures Swept(buckets, now)
           == Swept(buckets[..i], now) + Swept([buckets[i]], now) + Swept(buckets[i + 1..], now)
    {
      SweptInOrder(buckets[..i], [buckets[i]], now);
      SweptInOrder(buckets[..i] + [buckets[i]], buckets[i + 1..], now);
      assert buckets[..i] + [buckets[i]] + buckets[i + 1..] == buckets;
    }
  }

  class Limiter {
    var buckets: Buckets

    constructor ()
      ensures buckets == []
    {
      buckets := [];
    }

    method EvictOldestIfFull()
      modifies this
      ensures buckets == EvictedOldest(old(buckets))
    {
      if |buckets| < MAX_BUCKETS {
        return;
      }
      buckets := buckets[1..];
    }

    method CheckRateLimit(key: string, maxPerMinute: int, now: int)
            returns (allowed: bool, retryAfterSeconds: Option<int>)
      modifies this
      ensures buckets == Checked(old(buckets), key, maxPerMinute, now)
      ensures allowed <==> Allowed(old(buckets), key, maxPerMinute, now)
      ensures !allowed ==>
                retryAfterSeconds == Some(RetryAfter(Find(old(buckets), key).value, now))
                && retryAfterSeconds.value >= 0
      ensures allowed ==> retryAfterSeconds == None
    {
      var bucket := Find(buckets, key);
      if bucket.None? || now > bucket.value.resetAt {
        EvictOldestIfFull();
        buckets := Put(buckets, key, Bucket(1, now + WINDOW));
        return true, None;
      }
      if bucket.value.count >= maxPerMinute {
        return false, Some(RetryAfter(bucket.value, now));
      }
      buckets := Put(buckets, key, bucket.value.(count := bucket.value.count + 1));
      return true, None;
    }

    method Sweep(now: int)
      modifies this
      ensures buckets == Swept(old(buckets), now)
    {
      var i := 0;
      while i < |buckets|
        invariant 0 <= i <= |buckets|
        invariant buckets[..i] + Swept(buckets[i..], now) == Swept(old(buckets), now)
        decreases |buckets| - i
      {
        var rest := buckets[i..];
        assert rest[1..] == buckets[i + 1..];
        if now > buckets[i].value.resetAt + WINDOW {
          ghost var before := buckets;
          buckets := buckets[..i] + buckets[i + 1..];
          assert buckets[..i] == before[..i] && buckets[i..] == before[i + 1..];
        } else {
          assert buckets[..i + 1] == buckets[..i] + [buckets[i]];
          i := i + 1;
        }
      }
      assert buckets[..i] == buckets;
    }
  }

  // ---------- Runs ----------

  datatype Event = Check(key: string, maxPerMinute: int, now: int) | Sweep(now: int)

  function Step(buckets: Buckets, e: Event): Buckets {
    match e
    case Check(key, maxPerMinute, now) => Checked(buckets, key, maxPerMinute, now)
    case Sweep(now) => Swept(buckets, now)
  }

  function Run(buckets: Buckets, events: seq<Event>): Buckets {
    if events == [] then buckets else Step(Run(buckets, events[..|events| - 1]), events[|events| - 1])
  }

  predicate Admits(buckets: Buckets, e: Event, key: string) {
    e.Check? && e.key == key && Allowed(buckets, key, e.maxPerMinute, e.now)
  }

  /** The event makes room by dropping the key's bucket although it is not over yet. */
  predicate EvictsWhileLive(buckets: Buckets, e: Event, key: string) {
    && e.Check? && !Fresh(Find(buckets, e.key), e.now)
    && |buckets| >= MAX_BUCKETS && buckets[0].key == key && Fresh(Find(buckets, key), e.now)
  }

  /** Calls for the key let through in a run. */
  function Admitted(buckets: Buckets, events: seq<Event>, key: string): nat {
    if events == [] then 0
    else
      var before := events[..|events| - 1];
      Admitted(buckets, before, key) + if Admits(Run(buckets, before), events[|events| - 1], key) then 1 else 0
  }

  function LiveEvictions(buckets: Buckets, events: seq<Event>, key: string): nat {
    if events == [] then 0
    else
      var before := events[..|events| - 1];
      LiveEvictions(buckets, before, key) +
        if EvictsWhileLive(Run(buckets, before), events[|events| - 1], key) then 1 else 0
  }

  /** The map is within its cap, and the key's bucket has let through at least one call and at most the maximum. */
  ghost predicate Ok(buckets: Buckets, key: string, max: int) {
    && DistinctKeys(buckets) && |buckets| <= MAX_BUCKETS
    && (Find(buckets, key).Some? ==> 1 <= Find(buckets, key).value.count <= max)
  }

  lemma EvictedOldestFinds(buckets: Buckets, key: string)
    requires DistinctKeys(buckets) && |buckets| <= MAX_BUCKETS
    ensures var next := EvictedOldest(buckets);
            && DistinctKeys(next) && |next| < MAX_BUCKETS
            && Find(next, key) == if |buckets| == MAX_BUCKETS && buckets[0].key == key then None else Find(buckets, key)
  {
    if |buckets| == MAX_BUCKETS && buckets[0].key == key {
      FoundIsThere(buckets[1..], key);
    }
  }

  lemma {:induction false} SweptItems(buckets: Buckets, now: int, key: string)
    requires DistinctKeys(buckets)
    ensures var next := Swept(buckets, now);
            && DistinctKeys(next) && |next| <= |buckets| && (forall item :: item in next ==> item in buckets)
            && Find(next, key) ==
                 if Find(buckets, key).Some? && now > Find(buckets, key).value.resetAt + WINDOW then None
                   else Find(buckets, key)
  {
    if buckets != [] {
      var first, rest := buckets[0], buckets[1..];
      SweptItems(rest, now, key);
      FoundIsThere(rest, first.key);
      assert buckets == [first] + rest;
      if now > first.value.resetAt + WINDOW {
        assert Swept(buckets, now) == Swept(rest, now);
      } else {
        Prepend(first, Swept(rest, now));
        assert Swept(buckets, now)[1..] == Swept(rest, now);
      }
    }
  }

  /** Where one event leaves the key's bucket, whatever key the event is about. */
  lemma StepFinds(buckets: Buckets, e: Event, key: string)
    requires DistinctKeys(buckets) && |buckets| <= MAX_BUCKETS
    ensures DistinctKeys(Step(buckets, e)) && |Step(buckets, e)| <= MAX_BUCKETS
    ensures var before, after := Find(buckets, key), Find(Step(buckets, e), key);
            if e.Check? && e.key == key then
              after == Some(
                if !Fresh(before, e.now) then Bucket(1, e.now + WINDOW)
                else if before.value.count >= e.maxPerMinute then before.value
                else before.value.(count := before.value.count + 1))
            else if EvictsWhileLive(buckets, e, key) then after == None
            else after == before || (after == None && before.Some? && e.now > before.value.resetAt)
  {
    match e {
      case Check(k, maxPerMinute, now) =>
        if Fresh(Find(buckets, k), now) {
          CountedFinds(buckets, k, maxPerMinute, now, key);
        } else {
          RenewedFinds(buckets, k, maxPerMinute, now, key);
        }
      case Sweep(now) => SweptItems(buckets, now, key);
    }
    hide Find, Checked, Swept, DistinctKeys;
  }

  lemma RenewedFinds(buckets: Buckets, k: string, maxPerMinute: int, now: int, key: string)
    requires DistinctKeys(buckets) && |buckets| <= MAX_BUCKETS && !Fresh(Find(buckets, k), now)
    ensures var next := Checked(buckets, k, maxPerMinute, now);
            && DistinctKeys(next) && |next| <= MAX_BUCKETS
            && Find(next, key) ==
                 if key == k then Some(Bucket(1, now + WINDOW))
                 else if |buckets| == MAX_BUCKETS && buckets[0].key == key then None
                 else Find(buckets, key)
    ensures |buckets| == MAX_BUCKETS && buckets[0].key == key ==> Find(buckets, key).Some?
  {
    EvictedOldestFinds(buckets, key);
    var evicted := EvictedOldest(buckets);
    PutItems(evicted, k, Bucket(1, now + WINDOW));
    FindAfterPut(evicted, k, Bucket(1, now + WINDOW), key);
    hide Put, EvictedOldest, DistinctKeys;
  }

  lemma CountedFinds(buckets: Buckets, k: string, maxPerMinute: int, now: int, key: string)
    requires DistinctKeys(buckets) && |buckets| <= MAX_BUCKETS && Fresh(Find(buckets, k), now)
    ensures var next := Checked(buckets, k, maxPerMinute, now);
            var bucket := Find(buckets, k).value;
            && DistinctKeys(next) && |next| <= MAX_BUCKETS
            && Find(next, key) ==
                 if key == k && bucket.count < maxPerMinute then Some(bucket.(count := bucket.count + 1))
                   else Find(buckets, key)
  {
    var bucket := Find(buckets, k);
    PutItems(buckets, k, bucket.value.(count := bucket.value.count + 1));
    FindAfterPut(buckets, k, bucket.value.(count := bucket.value.count + 1), key);
    hide Put, Find, DistinctKeys;
  }

  /** Every call for the key names the same maximum. */
  ghost predicate SameMax(events: seq<Event>, key: string, max: int) {
    forall i :: 0 <= i < |events| && events[i].Check? && events[i].key == key ==> events[i].maxPerMinute == max
  }

  /** Over every run from the start, sweeps anywhere, the map is never over its cap and no bucket over the maximum. */
  lemma {:induction false} EveryRunIsOk(events: seq<Event>, key: string, max: int)
    requires 1 <= max && SameMax(events, key, max)
    ensures Ok(Run([], events), key, max)
  {
    if events != [] {
      var n := |events| - 1;
      EveryRunIsOk(events[..n], key, max);
      StepFinds(Run([], events[..n]), events[n], key);
    }
  }

  // ---------- How many calls one interval admits ----------

  /** The most calls the key can still make up to `end`, if none of its buckets is dropped while live. */
  function Potential(bucket: Option<Bucket>, max: int, end: int): int {
    if bucket.None? then max
    else if end <= bucket.value.resetAt then max - bucket.value.count
    else max - bucket.value.count + max
  }

  lemma StepSpendsPotential(buckets: Buckets, e: Event, key: string, max: int, end: int)
    requires Ok(buckets, key, max) && 1 <= max && end - WINDOW <= e.now <= end
    requires e.Check? && e.key == key ==> e.maxPerMinute == max
    ensures var (before, after) := (Find(buckets, key), Find(Step(buckets, e), key));
            (if Admits(buckets, e, key) then 1 else 0) + Potential(after, max, end)
              <= Potential(before, max, end) + (if EvictsWhileLive(buckets, e, key) then max else 0)
    ensures Ok(Step(buckets, e), key, max)
  {
    StepFinds(buckets, e, key);
    hide Step, Find, DistinctKeys;
  }

  /** Calls gained from `n` dropped buckets. */
  function Extra(n: nat, max: int): int {
    n * max
  }

  /**
   * In any stretch of a run whose events fall within 60,000 ms of one another, the key gets at most 2 * max - 1 calls,
   * and at most max more for each time its bucket is dropped while live.
   */
  lemma {:induction false} AdmittedWithinAWindow(buckets: Buckets, events: seq<Event>, key: string, max: int, end: int)
    requires Ok(buckets, key, max) && 1 <= max && SameMax(events, key, max)
    requires forall i :: 0 <= i < |events| ==> end - WINDOW <= events[i].now <= end
    ensures Admitted(buckets, events, key) + Potential(Find(Run(buckets, events), key), max, end)
         <= 2 * max - 1 + Extra(LiveEvictions(buckets, events, key), max)
    ensures Admitted(buckets, events, key) <= 2 * max - 1 + Extra(LiveEvictions(buckets, events, key), max)
    ensures Ok(Run(buckets, events), key, max)
  {
    if events != [] {
      var n := |events| - 1;
      AdmittedWithinAWindow(buckets, events[..n], key, max, end);
      StepSpendsPotential(Run(buckets, events[..n]), events[n], key, max, end);
      OneMore(LiveEvictions(buckets, events[..n], key), max);
      hide Step, Find, Admits, EvictsWhileLive, Extra, Potential, DistinctKeys;
      PotentialIsNatural(Run(buckets, events), key, max, end);
    } else {
      PotentialIsNatural(buckets, key, max, end);
    }
  }

  lemma PotentialIsNatural(buckets: Buckets, key: string, max: int, end: int)
    requires Ok(buckets, key, max) && 1 <= max
    ensures 0 <= Potential(Find(buckets, key), max, end) <= 2 * max - 1
  {
  }

  lemma OneMore(n: nat, max: int)
    ensures Extra(n + 1, max) == Extra(n, max) + max
  {
  }

  /** The theorem on runs from the start: calls numbered `i` up to `j`, all within 60,000 ms. */
  lemma TwiceTheLimitLessOne(events: seq<Event>, i: nat, j: nat, key: string, max: int, end: int)
    requires i <= j <= |events| && 1 <= max && SameMax(events, key, max)
    requires forall k :: i <= k < j ==> end - WINDOW <= events[k].now <= end
    requires LiveEvictions(Run([], events[..i]), events[i..j], key) == 0
    ensures Admitted(Run([], events[..i]), events[i..j], key) <= 2 * max - 1
  {
    EveryRunIsOk(events[..i], key, max);
    AdmittedWithinAWindow(Run([], events[..i]), events[i..j], key, max, end);
  }

  // ---------- The bound is reached ----------

  function Repeat(key: string, max: int, now: int, n: nat): seq<Event> {
    if n == 0 then [] else Repeat(key, max, now, n - 1) + [Check(key, max, now)]
  }

  lemma {:induction false} RepeatsFill(count: int, resetAt: int, key: string, max: int, now: int, n: nat)
    requires now <= resetAt && 0 <= count && count + n <= max
    ensures var (events, start) := (Repeat(key, max, now, n), [Item(key, Bucket(count, resetAt))]);
            Run(start, events) == [Item(key, Bucket(count + n, resetAt))] && Admitted(start, events, key) == n
  {
    hide *;
    var start := [Item(key, Bucket(count, resetAt))];
    RepeatLast(key, max, now, n);
    if n == 0 {
      NoEvents(start, key);
    } else {
      var e, events := Check(key, max, now), Repeat(key, max, now, n - 1);
      RepeatsFill(count, resetAt, key, max, now, n - 1);
      OneBucket(key, Bucket(count + n - 1, resetAt), max, now);
      RunsJoin(start, events, [e], key);
      OneEvent([Item(key, Bucket(count + n - 1, resetAt))], e, key);
    }
  }

  lemma RepeatLast(key: string, max: int, now: int, n: nat)
    ensures Repeat(key, max, now, n) == if n == 0 then [] else Repeat(key, max, now, n - 1) + [Check(key, max, now)]
  {
  }

  lemma NoEvents(buckets: Buckets, key: string)
    ensures Run(buckets, []) == buckets && Admitted(buckets, [], key) == 0
  {
  }

  /** One call for the only key in the map. */
  lemma OneBucket(key: string, bucket: Bucket, max: int, now: int)
    requires now <= bucket.resetAt ==> bucket.count < max
    ensures var (before, e) := ([Item(key, bucket)], Check(key, max, now));
            Admits(before, e, key) && Step(before, e) ==
              [Item(key,
                if now <= bucket.resetAt then Bucket(bucket.count + 1, bucket.resetAt) else Bucket(1, now + WINDOW))]
  {
    var before := [Item(key, bucket)];
    assert before[1..] == [];
    assert Find(before, key) == Some(bucket);
    assert forall b: Bucket :: Put(before, key, b) == [Item(key, b)];
  }

  lemma {:induction false} RunsJoin(buckets: Buckets, a: seq<Event>, b: seq<Event>, key: string)
    ensures Run(buckets, a + b) == Run(Run(buckets, a), b)
    ensures Admitted(buckets, a + b, key) == Admitted(buckets, a, key) + Admitted(Run(buckets, a), b, key)
  {
    if b == [] {
      assert a + b == a;
    } else {
      var n := |b| - 1;
      RunsJoin(buckets, a, b[..n], key);
      assert (a + b)[..|a + b| - 1] == a + b[..n];
    }
  }

  lemma OneEvent(buckets: Buckets, e: Event, key: string)
    ensures Run(buckets, [e]) == Step(buckets, e) && Admitted(buckets, [e], key) ==
              if Admits(buckets, e, key) then 1 else 0
  {
    hide Step, Admits;
    assert [e][..0] == [];
    assert Run(buckets, []) == buckets;
  }

  /** For every limit some run reaches 2 * max - 1 calls one millisecond apart. */
  lemma TheBoundIsReached(key: string, max: nat)
    requires 1 <= max
    ensures var late, next := Repeat(key, max, WINDOW, max - 1), Repeat(key, max, WINDOW + 1, max);
            Admitted(Run([], [Check(key, max, 0)]), late + next, key) == 2 * max - 1
  {
    hide Run, Step, Checked, Find, Put, Admitted, Admits, Repeat;
    var first := Check(key, max, WINDOW + 1);
    var late, next, more := Repeat(key, max, WINDOW, max - 1), Repeat(key, max, WINDOW + 1, max),
      Repeat(key, max, WINDOW + 1, max - 1);
    OneEvent([], Check(key, max, 0), key);
    var start, full, again := [Item(key, Bucket(1, WINDOW))], [Item(key, Bucket(max, WINDOW))],
      [Item(key, Bucket(1, 2 * WINDOW + 1))];
    FirstEver(key, max);
    RepeatsFill(1, WINDOW, key, max, WINDOW, max - 1);
    OneBucket(key, Bucket(max, WINDOW), max, WINDOW + 1);
    OneEvent(full, first, key);
    RepeatsFill(1, 2 * WINDOW + 1, key, max, WINDOW + 1, max - 1);
    RepeatFirst(key, max, WINDOW + 1, max);
    RunsJoin(full, [first], more, key);
    RunsJoin(start, late, next, key);
  }

  lemma FirstEver(key: string, max: int)
    ensures Step([], Check(key, max, 0)) == [Item(key, Bucket(1, WINDOW))]
  {
  }

  lemma {:induction false} RepeatFirst(key: string, max: int, now: int, n: nat)
    requires 1 <= n
    ensures Repeat(key, max, now, n) == [Check(key, max, now)] + Repeat(key, max, now, n - 1)
  {
    if n > 1 {
      RepeatFirst(key, max, now, n - 1);
    }
  }

  /**
   * A refused caller who waits exactly the seconds it is told is let through unless the wait was a whole number of
   * seconds.
   */
  lemma WaitingAsTold(buckets: Buckets, key: string, max: int, now: int)
    requires !Allowed(buckets, key, max, now)
    ensures var bucket := Find(buckets, key).value;
            Allowed(buckets, key, max, now + 1000 * RetryAfter(bucket, now)) <==> (bucket.resetAt - now) % 1000 != 0
  {
    var left := Find(buckets, key).value.resetAt - now;
    assert left == 1000 * (left / 1000) + left % 1000;
    assert left % 1000 == 0 ==> (left + 999) / 1000 == left / 1000;
    assert left % 1000 != 0 ==> (left + 999) / 1000 == left / 1000 + 1;
  }
}

/**
 * The rate-limit script as a timed machine over two expiring keys, the bound it enforces over fixed windows
 * and over sliding intervals, and what its blocks do.
 */
module Throttler {
  import opened Common

  /** A Redis string with its expiry in milliseconds; None is a key that never expires. */
  datatype Entry = Entry(value: int, expiresAt: Option<int>)

  /** The hit counter and the block marker of one throttled key. */
  datatype Store = Store(counter: Option<Entry>, block: Option<Entry>)

  /**
   * One bucket's settings. `lingers` says whether a key can still be read in the very millisecond it expires;
   * the results below hold either way.
   */
  datatype Bucket = Bucket(ttl: int, limit: int, blockFor: int, lingers: bool)

  predicate Sound(b: Bucket) {
    0 < b.ttl && 0 <= b.limit && 0 < b.blockFor
  }

  predicate Alive(k: Option<Entry>, now: int, lingers: bool) {
    && k.Some?
    && (k.value.expiresAt.None? || now < k.value.expiresAt.value || (lingers && now == k.value.expiresAt.value))
  }

  function Pttl(k: Option<Entry>, now: int, lingers: bool): int {
    if !Alive(k, now, lingers) then -2
    else if k.value.expiresAt.None? then -1
    else k.value.expiresAt.value - now
  }

  datatype Reply = Reply(totalHits: int, timeToExpire: int, isBlocked: bool, timeToBlockExpire: int)

  function Incremented(k: Option<Entry>, now: int, lingers: bool): Entry {
    if Alive(k, now, lingers) then k.value.(value := k.value.value + 1) else Entry(1, None)
  }

  /** The counter after `INCR` and, when it has just been created, `PEXPIRE`. */
  function Counted(s: Store, b: Bucket, now: int): Entry {
    var e := Incremented(s.counter, now, b.lingers);
    if e.value == 1 then e.(expiresAt := Some(now + b.ttl)) else e
  }

  /** The script: one atomic step on the two keys. */
  function Script(s: Store, b: Bucket, now: int): (Store, Reply) {
    var blockTtl := Pttl(s.block, now, b.lingers);
    if blockTtl > 0 then
      (s, Reply(if Alive(s.counter, now, b.lingers) then s.counter.value.value else b.limit, 0, true, blockTtl))
    else
      var counter := Counted(s, b, now);
      var ttl := Pttl(Some(counter), now, b.lingers);
      if counter.value > b.limit then
        (Store(Some(counter), Some(Entry(1, Some(now + b.blockFor)))), Reply(counter.value, ttl, true, b.blockFor))
      else (Store(Some(counter), s.block), Reply(counter.value, ttl, false, 0))
  }

  function Hit(s: Store, b: Bucket, now: int): Store {
    Script(s, b, now).0
  }

  predicate Admits(s: Store, b: Bucket, now: int) {
    !Script(s, b, now).1.isBlocked
  }

  // ----- What every hit keeps -----

  /** When the current window opened. */
  function Opened(e: Entry, b: Bucket): int
    requires e.expiresAt.Some?
  {
    e.expiresAt.value - b.ttl
  }

  /**
   * Every key has an expiry, the counter's window opened in the past, and a block still in force was set
   * within the counter's window.
   */
  ghost predicate Inv(s: Store, b: Bucket, now: int) {
    && Sound(b)
    && (s.counter.Some? ==>
          s.counter.value.expiresAt.Some? && 1 <= s.counter.value.value && Opened(s.counter.value, b) <= now)
    && (s.block.Some? ==>
          && s.block.value.expiresAt.Some? && s.counter.Some? && s.block.value.expiresAt.value - b.blockFor <= now
          && (0 < Pttl(s.block, now, b.lingers) ==>
                && b.limit < s.counter.value.value
                && Opened(s.counter.value, b) <= s.block.value.expiresAt.value - b.blockFor))
  }

  lemma HitKeepsInv(s: Store, b: Bucket, before: int, now: int)
    requires Inv(s, b, before) && before <= now
    ensures Inv(Hit(s, b, now), b, now)
  {
  }

  function After(s: Store, b: Bucket, times: seq<int>): Store
    decreases |times|
  {
    if times == [] then s else After(Hit(s, b, times[0]), b, times[1..])
  }

  ghost predicate Rising(times: seq<int>, from: int)
    decreases |times|
  {
    times == [] || (from <= times[0] && Rising(times[1..], times[0]))
  }

  /** Over whole runs: no counter is ever stranded without an expiry, so no client is locked out for good. */
  lemma {:induction false} RunKeepsInv(s: Store, b: Bucket, times: seq<int>, from: int)
    requires Inv(s, b, from) && Rising(times, from)
    ensures Inv(After(s, b, times), b, if times == [] then from else times[|times| - 1])
    decreases |times|
  {
    if times != [] {
      HitKeepsInv(s, b, from, times[0]);
      RunKeepsInv(Hit(s, b, times[0]), b, times[1..], times[0]);
    }
  }

  // ----- The rate bound -----

  /** Requests let through at an instant in `[a, a + length)`. */
  function Admitted(s: Store, b: Bucket, times: seq<int>, a: int, length: int): nat
    decreases |times|
  {
    if times == [] then 0
    else (if Admits(s, b, times[0]) && a <= times[0] < a + length then 1 else 0)
         + Admitted(Hit(s, b, times[0]), b, times[1..], a, length)
  }

  function Min(x: int, y: int): int {
    if x < y then x else y
  }

  /** What the interval can still let through, given the window the counter is in. */
  function Budget(s: Store, b: Bucket, a: int): int {
    if s.counter.None? || s.counter.value.expiresAt.None? || s.counter.value.expiresAt.value < a then 2 * b.limit - 1
    else
      var left := b.limit - Min(s.counter.value.value, b.limit);
      if Opened(s.counter.value, b) < a then left + b.limit else left
  }

  lemma {:induction false} LateCountsNothing(s: Store, b: Bucket, times: seq<int>, a: int, length: int, from: int)
    requires Rising(times, from) && a + length <= from
    ensures Admitted(s, b, times, a, length) == 0
    decreases |times|
  {
    if times != [] {
      LateCountsNothing(Hit(s, b, times[0]), b, times[1..], a, length, times[0]);
    }
  }

  lemma HitSpendsBudget(s: Store, b: Bucket, a: int, before: int, now: int)
    requires Inv(s, b, before) && before <= now < a + b.ttl && 1 <= b.limit
    ensures Budget(Hit(s, b, now), b, a) + (if Admits(s, b, now) && a <= now then 1 else 0) <= Budget(s, b, a)
  {
  }

  lemma {:induction false} AdmittedWithinBudget(s: Store, b: Bucket, times: seq<int>, a: int, from: int)
    requires Inv(s, b, from) && Rising(times, from) && 1 <= b.limit
    ensures Admitted(s, b, times, a, b.ttl) <= Budget(s, b, a)
    decreases |times|
  {
    if times != [] {
      if times[0] < a + b.ttl {
        HitSpendsBudget(s, b, a, from, times[0]);
        HitKeepsInv(s, b, from, times[0]);
        hide Inv, Budget, Hit, Admits;
        AdmittedWithinBudget(Hit(s, b, times[0]), b, times[1..], a, times[0]);
      } else {
        LateCountsNothing(s, b, times, a, b.ttl, times[0]);
      }
    }
  }

  const NO_KEYS := Store(None, None)

  /**
   * The sliding bound: over any run whatever, and any half-open interval as long as the window, fewer than
   * twice the limit get through.
   */
  lemma SlidingBound(b: Bucket, times: seq<int>, a: int, from: int)
    requires Sound(b) && Rising(times, from) && 1 <= b.limit
    ensures Admitted(NO_KEYS, b, times, a, b.ttl) <= 2 * b.limit - 1
  {
    AdmittedWithinBudget(NO_KEYS, b, times, a, from);
  }

  /** The fixed bound: from the hit that opens a window until the window closes, the limit gets through at most. */
  lemma WindowBound(s: Store, b: Bucket, times: seq<int>, before: int)
    requires Inv(s, b, before) && Rising(times, before) && 1 <= b.limit
    requires times != [] && Opens(s, b, times[0])
    ensures Admitted(s, b, times, times[0], b.ttl) <= b.limit
  {
    HitKeepsInv(s, b, before, times[0]);
    AdmittedWithinBudget(Hit(s, b, times[0]), b, times[1..], times[0], times[0]);
  }

  /** A hit that is not blocked and finds no counter opens a window. */
  predicate Opens(s: Store, b: Bucket, now: int) {
    Pttl(s.block, now, b.lingers) <= 0 && !Alive(s.counter, now, b.lingers)
  }

  /** Windows never overlap: a new one opens only once the last has closed, and nothing else moves one. */
  lemma WindowsDoNotOverlap(s: Store, b: Bucket, before: int, now: int)
    requires Inv(s, b, before) && before <= now
    ensures var s' := Hit(s, b, now);
            if Opens(s, b, now) then
              && s'.counter.Some? && s'.counter.value == Entry(1, Some(now + b.ttl))
              && (s.counter.Some? ==> s.counter.value.expiresAt.value <= now)
            else s'.counter.Some? && s.counter.Some? && s'.counter.value.expiresAt == s.counter.value.expiresAt
  {
  }

  // ----- The sliding bound is the best there is -----

  function Repeat(t: int, n: nat): seq<int> {
    if n == 0 then [] else [t] + Repeat(t, n - 1)
  }

  lemma {:induction false} AdmittedSplits(s: Store, b: Bucket, xs: seq<int>, ys: seq<int>, a: int, length: int)
    ensures Admitted(s, b, xs + ys, a, length) == Admitted(s, b, xs, a, length) + Admitted(After(s, b, xs), b, ys,
        a, length)
    decreases |xs|
  {
    if xs == [] {
      assert xs + ys == ys;
    } else {
      AdmittedSplits(Hit(s, b, xs[0]), b, xs[1..], ys, a, length);
      assert (xs + ys)[1..] == xs[1..] + ys;
    }
  }

  /** Below the limit everything gets through, and only the count changes. */
  lemma {:induction false} BurstIsAdmitted(s: Store, b: Bucket, t: int, n: nat, v: int, expiresAt: int, a: int,
                                           length: int)
    requires s == Store(Some(Entry(v, Some(expiresAt))), None) && 1 <= v && t < expiresAt && v + n <= b.limit
    requires a <= t < a + length
    ensures Admitted(s, b, Repeat(t, n), a, length) == n
    ensures After(s, b, Repeat(t, n)) == Store(Some(Entry(v + n, Some(expiresAt))), None)
    decreases n
  {
    if n > 0 {
      var s' := Store(Some(Entry(v + 1, Some(expiresAt))), None);
      assert Script(s, b, t) == (s', Reply(v + 1, expiresAt - t, false, 0));
      assert Repeat(t, n)[0] == t && Repeat(t, n)[1..] == Repeat(t, n - 1);
      BurstIsAdmitted(s', b, t, n - 1, v + 1, expiresAt, a, length);
    }
  }

  lemma OpeningHit(s: Store, b: Bucket, t: int, n: nat, a: int, length: int)
    requires s.block.None? && !Alive(s.counter, t, b.lingers) && Sound(b) && n + 1 <= b.limit && a <= t < a + length
    ensures Admitted(s, b, [t] + Repeat(t, n), a, length) == n + 1
    ensures After(s, b, [t] + Repeat(t, n)) == Store(Some(Entry(n + 1, Some(t + b.ttl))), None)
  {
    var s' := Store(Some(Entry(1, Some(t + b.ttl))), None);
    assert Script(s, b, t) == (s', Reply(1, b.ttl, false, 0));
    assert ([t] + Repeat(t, n))[1..] == Repeat(t, n);
    BurstIsAdmitted(s', b, t, n, 1, t + b.ttl, a, length);
  }

  lemma {:induction false} RisingBurst(t: int, n: nat, rest: seq<int>, from: int)
    requires from <= t && Rising(rest, t)
    ensures Rising(Repeat(t, n) + rest, from)
    decreases n
  {
    if n == 0 {
      assert Repeat(t, 0) + rest == rest;
    } else {
      RisingBurst(t, n - 1, rest, t);
      assert (Repeat(t, n) + rest)[1..] == Repeat(t, n - 1) + rest;
    }
  }

  /**
   * No smaller bound holds: open a window, use up the rest of it inside the interval, and all of the next
   * window as soon as it opens.
   */
  lemma SlidingBoundIsTight(b: Bucket) returns (times: seq<int>)
    requires Sound(b) && 1 <= b.limit && 3 <= b.ttl
    ensures Rising(times, 0) && Admitted(NO_KEYS, b, times, 2, b.ttl) == 2 * b.limit - 1
  {
    var n, next := b.limit - 1, b.ttl + 1;
    var first, second := Repeat(2, n), [next] + Repeat(next, n);
    times := [0] + (first + second);
    var s1 := Store(Some(Entry(1, Some(b.ttl))), None);
    assert Script(NO_KEYS, b, 0) == (s1, Reply(1, b.ttl, false, 0));
    assert times[1..] == first + second;
    BurstIsAdmitted(s1, b, 2, n, 1, b.ttl, 2, b.ttl);
    OpeningHit(After(s1, b, first), b, next, n, 2, b.ttl);
    AdmittedSplits(s1, b, first, second, 2, b.ttl);
    RisingBurst(next, n, [], next);
    assert Repeat(next, n) + [] == Repeat(next, n) && second[1..] == Repeat(next, n);
    RisingBurst(2, n, second, 0);
  }

  // ----- Blocks -----

  predicate Blocking(s: Store, b: Bucket, now: int) {
    0 < Pttl(s.block, now, b.lingers)
  }

  /** Until the block expires every hit is refused and changes nothing, the block's expiry included. */
  lemma {:induction false} BlockHolds(s: Store, b: Bucket, times: seq<int>, from: int)
    requires Inv(s, b, from) && Rising(times, from)
    requires forall i :: 0 <= i < |times| ==> s.block.Some? && times[i] < s.block.value.expiresAt.value
    ensures After(s, b, times) == s
    ensures forall a, length :: Admitted(s, b, times, a, length) == 0
    decreases |times|
  {
    if times != [] {
      assert times[0] < s.block.value.expiresAt.value;
      assert Hit(s, b, times[0]) == s && !Admits(s, b, times[0]);
      assert Inv(s, b, times[0]);
      BlockHolds(s, b, times[1..], times[0]);
    }
  }

  /** A refused hit always leaves a block in force, and the reply tells how long it has to run. */
  lemma RefusalBlocks(s: Store, b: Bucket, before: int, now: int)
    requires Inv(s, b, before) && before <= now && !Admits(s, b, now)
    ensures var s' := Hit(s, b, now);
            Blocking(s', b, now) && s'.block.value.expiresAt == Some(now + Script(s, b, now).1.timeToBlockExpire)
  {
  }

  /**
   * The first hit after a block: it gets through exactly when the limit allows anything at all and the
   * counter has gone, because a counter that is still there is still over the limit.
   */
  lemma AfterTheBlock(s: Store, b: Bucket, before: int, now: int)
    requires Inv(s, b, before) && Blocking(s, b, before) && s.block.value.expiresAt.value <= now
    ensures Admits(s, b, now) <==> 1 <= b.limit && !Alive(s.counter, now, b.lingers)
  {
  }

  /** What the client is told: whole seconds, rounded up. */
  function Advertised(r: Reply): int {
    CeilDiv(r.timeToBlockExpire, 1000)
  }

  /**
   * A client that waits the advertised seconds is let through, when the block is no shorter than the window
   * and the limit is not zero. Only if keys linger can the exact millisecond in which both run out still
   * refuse it.
   */
  lemma WaitingSuffices(s: Store, b: Bucket, before: int, refused: int, now: int)
    requires Inv(s, b, before) && before <= refused && !Admits(s, b, refused)
    requires refused + Advertised(Script(s, b, refused).1) * 1000 <= now
    requires 1 <= b.limit && b.ttl <= b.blockFor
    ensures var s' := Hit(s, b, refused);
            Admits(s', b, now) <==> !(b.lingers && now == s'.counter.value.expiresAt.value)
  {
    RefusalBlocks(s, b, before, refused);
    HitKeepsInv(s, b, before, refused);
    AfterTheBlock(Hit(s, b, refused), b, refused, now);
  }

  // ----- The storage object -----

  function HitKey(name: string, key: string): string {
    "throttle:" + name + ":" + key
  }

  function BlockKey(name: string, key: string): string {
    "throttle:block:" + name + ":" + key
  }

  predicate NoColon(s: string) {
    forall i :: 0 <= i < |s| ==> s[i] != ':'
  }

  lemma PrefixIsFixed(n1: string, k1: string, n2: string, k2: string)
    requires NoColon(n1) && NoColon(n2) && n1 + ":" + k1 == n2 + ":" + k2
    ensures n1 == n2 && k1 == k2
  {
    var s := n1 + ":" + k1;
    assert s[|n1|] == ':' && s[|n2|] == ':';
    assert s[..|n1|] == n1 && s[..|n2|] == n2;
    assert |n1| == |n2|;
    assert s[|n1| + 1..] == k1 && s[|n2| + 1..] == k2;
  }

  /** Different buckets and clients never share a key, as long as no throttler is named "block". */
  lemma KeysAreApart(n1: string, k1: string, n2: string, k2: string)
    requires NoColon(n1) && NoColon(n2) && n1 != "block"
    ensures HitKey(n1, k1) == HitKey(n2, k2) ==> n1 == n2 && k1 == k2
    ensures BlockKey(n1, k1) == BlockKey(n2, k2) ==> n1 == n2 && k1 == k2
    ensures HitKey(n1, k1) != BlockKey(n2, k2)
  {
    var h1, h2, b1, b2 := HitKey(n1, k1), HitKey(n2, k2), BlockKey(n1, k1), BlockKey(n2, k2);
    assert h1[9..] == n1 + ":" + k1 && h2[9..] == n2 + ":" + k2;
    assert b1[15..] == n1 + ":" + k1 && b2[15..] == n2 + ":" + k2;
    assert b2[9..] == "block" + ":" + (n2 + ":" + k2);
    if h1 == h2 || b1 == b2 { PrefixIsFixed(n1, k1, n2, k2); }
    if h1 == b2 { PrefixIsFixed(n1, k1, "block", n2 + ":" + k2); }
  }

  /** What the guard is given: whole seconds, rounded up. */
  datatype Record = Record(totalHits: int, timeToExpire: int, isBlocked: bool, timeToBlockExpire: int)

  /** The fewest whole seconds that last as long. */
  predicate RoundsUp(seconds: int, ms: int) {
    seconds * 1000 - 1000 < ms <= seconds * 1000
  }

  class RedisThrottlerStorage {
    var keys: map<string, Entry>
    const lingers: bool

    constructor (lingers: bool)
      ensures keys == map[] && this.lingers == lingers
    {
      keys, this.lingers := map[], lingers;
    }

    function Get(key: string): Option<Entry>
      reads this
    {
      if key in keys then Some(keys[key]) else None
    }

    function StoreOf(name: string, key: string): Store
      reads this
    {
      Store(Get(HitKey(name, key)), Get(BlockKey(name, key)))
    }

    /**
     * One evaluation of the script when Redis answers, on the two keys of this bucket and client alone; an open
     * door, and nothing counted, when it does not. The answer refuses exactly what the bucket does not admit.
     */
    method Increment(key: string, ttl: int, limit: int, blockDuration: int, name: string, now: int, reachable: bool)
      returns (record: Record)
      requires 0 < ttl && 0 <= limit && 0 <= blockDuration
      modifies this
      ensures reachable ==>
                var s, s' := old(StoreOf(name, key)), StoreOf(name, key);
                var b := Bucket(ttl, limit, if blockDuration == 0 then ttl else blockDuration, lingers);
                && s' == Hit(s, b, now) && (record.isBlocked <==> !Admits(s, b, now))
                && if Blocking(s, b, now) then
                     && record.totalHits == (if Alive(s.counter, now, lingers) then s.counter.value.value else limit)
                     && record.timeToExpire == 0 && RoundsUp(record.timeToBlockExpire, Pttl(s.block, now, lingers))
                   else
                     && s'.counter.Some? && record.totalHits == s'.counter.value.value
                     && RoundsUp(record.timeToExpire, Pttl(s'.counter, now, lingers))
                     && RoundsUp(record.timeToBlockExpire, if record.isBlocked then b.blockFor else 0)
      ensures reachable ==>
                forall k :: k != HitKey(name, key) && k != BlockKey(name, key) ==> Get(k) == old(Get(k))
      ensures !reachable ==> keys == old(keys) && record.totalHits == 1 && !record.isBlocked
      ensures !reachable ==> RoundsUp(record.timeToExpire, ttl) && record.timeToBlockExpire == 0
    {
      if !reachable { return Record(1, CeilDiv(ttl, 1000), false, 0); }
      var hitKey, blockKey := HitKey(name, key), BlockKey(name, key);
      assert |hitKey| < |blockKey|;
      var blockFor := if blockDuration != 0 then blockDuration else ttl;
      var blockTtl := Pttl(Get(blockKey), now, lingers);
      if blockTtl > 0 {
        var counted := if Alive(Get(hitKey), now, lingers) then keys[hitKey].value else limit;
        return Record(counted, CeilDiv(0, 1000), true, CeilDiv(blockTtl, 1000));
      }
      var entry := if Alive(Get(hitKey), now, lingers) then keys[hitKey].(value := keys[hitKey].value + 1)
          else Entry(1, None);
      keys := keys[hitKey := entry];
      var hits := entry.value;
      if hits == 1 {
        keys := keys[hitKey := keys[hitKey].(expiresAt := Some(now + ttl))];
      }
      var remaining := Pttl(Get(hitKey), now, lingers);
      if hits > limit {
        keys := keys[blockKey := Entry(1, Some(now + blockFor))];
        return Record(hits, CeilDiv(remaining, 1000), true, CeilDiv(blockFor, 1000));
      }
      return Record(hits, CeilDiv(remaining, 1000), false, CeilDiv(0, 1000));
    }
  }
}

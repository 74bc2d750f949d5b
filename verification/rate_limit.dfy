/** The sliding-window limiter: at most `limit` admissions of a key in any window, over the reals. */
module RateLimit {
  import opened Common

  type Key = nat

  // ----- Windows -----

  predicate Sorted(h: seq<real>) {
    forall i, j | 0 <= i <= j < |h| :: h[i] <= h[j]
  }

  // Admissions that are `limit` or more apart in order are a window apart in time.
  predicate Spaced(h: seq<real>, limit: nat, window: real) {
    forall i, j | 0 <= i < j < |h| && j - i >= limit :: h[j] - h[i] >= window
  }

  function Range(lo: nat, n: nat): (r: set<nat>)
    ensures forall i: nat :: i in r <==> lo <= i < lo + n
    ensures |r| == n
  {
    if n == 0 then {} else Range(lo, n - 1) + {lo + n - 1}
  }

  // Which admissions fall in the window that starts at t.
  function InWindow(h: seq<real>, t: real, window: real): set<nat> {
    set i: nat | i < |h| && t <= h[i] < t + window
  }

  /** Any window, wherever it starts, holds at most `limit` admissions. */
  lemma WindowHoldsAtMostLimit(h: seq<real>, limit: nat, window: real, t: real)
    requires Sorted(h) && Spaced(h, limit, window) && limit >= 1
    ensures |InWindow(h, t, window)| <= limit
  {
    var inside := InWindow(h, t, window);
    if inside != {} {
      var first := Least(inside);
      var range := Range(first, limit);
      forall i | i in inside
        ensures i in range
      {
        assert h[i] - h[first] < window;
      }
      assert inside <= range;
      assert range == inside + (range - inside);
    }
  }

  lemma SuffixWindowed(h: seq<real>, from: nat, limit: nat, window: real)
    requires Sorted(h) && Spaced(h, limit, window) && from <= |h|
    ensures Sorted(h[from..]) && Spaced(h[from..], limit, window)
  {
    var rest := h[from..];
    forall i, j | 0 <= i < j < |rest| && j - i >= limit
      ensures rest[j] - rest[i] >= window
    {
      assert rest[j] == h[from + j] && rest[i] == h[from + i];
    }
  }

  // ----- Buckets -----

  // What remains of a bucket once everything up to the cutoff has left it.
  function Live(bucket: seq<real>, cutoff: real): (r: seq<real>)
    ensures |r| <= |bucket|
  {
    if bucket != [] && bucket[0] <= cutoff then Live(bucket[1..], cutoff) else bucket
  }

  lemma {:induction false} LiveIsSuffix(bucket: seq<real>, cutoff: real)
    requires Sorted(bucket)
    ensures var gone := |bucket| - |Live(bucket, cutoff)|;
      && Live(bucket, cutoff) == bucket[gone..]
      && (forall i | 0 <= i < gone :: bucket[i] <= cutoff)
      && (forall i | gone <= i < |bucket| :: bucket[i] > cutoff)
  {
    if bucket != [] && bucket[0] <= cutoff {
      LiveIsSuffix(bucket[1..], cutoff);
      assert bucket == [bucket[0]] + bucket[1..];
    }
  }

  // Whether a key with this bucket is let in at an instant.
  predicate Admits(bucket: seq<real>, at: real, limit: nat, window: real) {
    |Live(bucket, at - window)| < limit
  }

  // The least whole number of seconds, at least one, that is more than the wait.
  predicate Announces(seconds: int, wait: real) {
    seconds >= 1 && wait < seconds as real <= wait + 1.0
  }

  method WholeSeconds(wait: real) returns (seconds: int)
    requires wait >= 0.0
    ensures Announces(seconds, wait)
  {
    seconds := wait.Floor + 1;
    if seconds < 1 {
      seconds := 1;
    }
  }

  // A full bucket, all of it inside the window.
  predicate Full(bucket: seq<real>, now: real, limit: nat, window: real) {
    Sorted(bucket) && |bucket| == limit && limit >= 1 && now - window < bucket[0] <= now
  }

  // How long until the oldest admission has left the window.
  function Wait(bucket: seq<real>, now: real, window: real): real
    requires bucket != []
  {
    window - (now - bucket[0])
  }

  lemma FullWaits(bucket: seq<real>, now: real, limit: nat, window: real)
    requires Full(bucket, now, limit, window)
    ensures Wait(bucket, now, window) >= 0.0
  {
  }

  /** Waiting the announced time suffices. */
  lemma RetrySuffices(bucket: seq<real>, now: real, limit: nat, window: real, seconds: int, at: real)
    requires Full(bucket, now, limit, window) && Announces(seconds, Wait(bucket, now, window)) && at >= now + seconds as real
    ensures Admits(bucket, at, limit, window)
  {
    assert bucket[0] <= at - window;
  }

  /** A refused key is admitted after a delay, with no other call, exactly when the delay is at least the wait. */
  lemma AdmittedIffWaited(bucket: seq<real>, now: real, limit: nat, window: real, delay: real)
    requires Full(bucket, now, limit, window)
    ensures Admits(bucket, now + delay, limit, window) <==> delay >= Wait(bucket, now, window)
  {
    var cutoff := now + delay - window;
    LiveIsSuffix(bucket, cutoff);
    var gone := |bucket| - |Live(bucket, cutoff)|;
    if bucket[0] > cutoff {
      assert gone == 0;
    }
  }

  // ----- What one call does to the buckets -----

  type Buckets = map<Key, seq<real>>

  function Entries(m: Buckets, k: Key): seq<real> {
    if k in m then m[k] else []
  }

  function Newest(bucket: seq<real>): real
    requires bucket != []
  {
    bucket[|bucket| - 1]
  }

  // The keys whose last admission has left the window.
  function Expired(m: Buckets, cutoff: real): set<Key> {
    set k | k in m && (m[k] == [] || Newest(m[k]) <= cutoff)
  }

  // A key whose last admission is no later than any other's.
  predicate IsOldest(m: Buckets, a: Key) {
    a in m && forall k | k in m :: NoLater(m[a], m[k])
  }

  predicate NoLater(a: seq<real>, b: seq<real>) {
    a != [] && b != [] ==> Newest(a) <= Newest(b)
  }

  // Every expired bucket went; then, only if there were still too many, the oldest of the rest.
  ghost predicate RoomMade(before: Buckets, after: Buckets, cutoff: real, maxKeys: nat) {
    var kept := before - Expired(before, cutoff);
    if |kept| < maxKeys then after == kept
    else exists oldest :: IsOldest(kept, oldest) && after == kept - {oldest}
  }

  // The keys with an admission still in the window.
  ghost predicate Alive(m: Buckets, cutoff: real, alive: set<Key>) {
    forall k :: k in alive <==> k in m && m[k] != [] && m[k][|m[k]| - 1] > cutoff
  }

  // Of these keys, the one whose last admission is no later than any other's.
  ghost predicate LastToStay(m: Buckets, alive: set<Key>, oldest: Key)
    requires forall k | k in alive :: k in m && m[k] != []
  {
    oldest in alive && forall k | k in alive :: m[oldest][|m[oldest]| - 1] <= m[k][|m[k]| - 1]
  }

  /** Making room keeps exactly the buckets with an admission in the window, but for the oldest if they are too many. */
  lemma RoomSays(before: Buckets, after: Buckets, cutoff: real, maxKeys: nat, alive: set<Key>)
    requires RoomMade(before, after, cutoff, maxKeys) && Alive(before, cutoff, alive)
    ensures forall k | k in after :: k in before && after[k] == before[k]
    ensures |alive| < maxKeys ==> after.Keys == alive
    ensures |alive| >= maxKeys ==> exists oldest :: LastToStay(before, alive, oldest) && after.Keys == alive - {oldest}
  {
    var kept := before - Expired(before, cutoff);
    assert kept.Keys == alive;
    if |alive| >= maxKeys {
      var oldest :| IsOldest(kept, oldest) && after == kept - {oldest};
      assert forall k | k in alive :: NoLater(kept[oldest], kept[k]);
      assert LastToStay(before, alive, oldest);
    }
  }

  // Room is made only for a key without a bucket, and only when the buckets are full.
  ghost predicate Readied(before: Buckets, ready: Buckets, key: Key, cutoff: real, maxKeys: nat) {
    if |before| >= maxKeys && key !in before then RoomMade(before, ready, cutoff, maxKeys) else ready == before
  }

  // The bucket of the calling key: what has left the window goes, and the call joins it if it is let in.
  function Entered(bucket: seq<real>, now: real, limit: nat, window: real): seq<real> {
    var live := Live(bucket, now - window);
    if |live| < limit then live + [now] else live
  }

  ghost predicate AllowedVia(before: Buckets, ready: Buckets, after: Buckets, key: Key, now: real, limit: nat,
                             window: real, maxKeys: nat) {
    && Readied(before, ready, key, now - window, maxKeys)
    && after == ready[key := Entered(Entries(before, key), now, limit, window)]
  }

  /** Everything one call does: room if it is needed, and the bucket of the key. */
  ghost predicate Allowed(before: Buckets, after: Buckets, key: Key, now: real, limit: nat, window: real,
                          maxKeys: nat) {
    exists ready :: AllowedVia(before, ready, after, key, now, limit, window, maxKeys)
  }

  // A key that had an unexpired bucket and has none any more.
  predicate Loses(before: Buckets, after: Buckets, now: real, window: real, k: Key) {
    k in before && k !in after && before[k] != [] && Newest(before[k]) > now - window
  }

  lemma LosingEvicts(before: Buckets, ready: Buckets, now: real, window: real, maxKeys: nat, k: Key)
    requires RoomMade(before, ready, now - window, maxKeys) && Loses(before, ready, now, window, k)
    ensures |before - Expired(before, now - window)| >= maxKeys && IsOldest(before - Expired(before, now - window), k)
    ensures forall j | Loses(before, ready, now, window, j) :: j == k
  {
    assert k in before - Expired(before, now - window);
  }

  /**
   What a call does to other keys: a bucket that is there afterwards is as it was, none appears, and an unexpired one
   is lost only if the calling key is new, the limiter is full of unexpired buckets, and it is the one whose last
   admission is oldest. At most one is lost.
   */
  lemma OthersAfter(before: Buckets, after: Buckets, key: Key, now: real, limit: nat, window: real, maxKeys: nat,
                    k: Key)
    requires Allowed(before, after, key, now, limit, window, maxKeys) && k != key
    ensures k in after ==> k in before && after[k] == before[k]
    ensures k in before && |before| < maxKeys ==> k in after
    ensures k in before && key in before ==> k in after
    ensures Loses(before, after, now, window, k) ==>
      && key !in before && |before - Expired(before, now - window)| >= maxKeys
      && IsOldest(before - Expired(before, now - window), k)
      && forall j | j != key && Loses(before, after, now, window, j) :: j == k
  {
    var ready :| AllowedVia(before, ready, after, key, now, limit, window, maxKeys);
    if Loses(before, after, now, window, k) {
      LosingEvicts(before, ready, now, window, maxKeys, k);
    }
  }

  // The calling key's own bucket afterwards.
  lemma OwnAfter(before: Buckets, after: Buckets, key: Key, now: real, limit: nat, window: real, maxKeys: nat)
    requires Allowed(before, after, key, now, limit, window, maxKeys)
    ensures key in after && after[key] == Entered(Entries(before, key), now, limit, window)
  {
  }

  // ----- The limiter -----

  // Admissions in order, none after the clock's last reading, and never more than the limit.
  predicate BucketSound(bucket: seq<real>, at: real, limit: nat) {
    Sorted(bucket) && 0 < |bucket| <= limit && Newest(bucket) <= at
  }

  ghost predicate BucketsSound(m: Buckets, at: real, limit: nat) {
    forall k | k in m :: BucketSound(m[k], at, limit)
  }

  lemma BucketsLater(m: Buckets, at: real, later: real, limit: nat)
    requires BucketsSound(m, at, limit) && at <= later
    ensures BucketsSound(m, later, limit)
  {
    forall k | k in m
      ensures BucketSound(m[k], later, limit)
    {
      assert BucketSound(m[k], at, limit);
    }
  }

  lemma EnteredSound(bucket: seq<real>, now: real, limit: nat, window: real)
    requires bucket == [] || BucketSound(bucket, now, limit)
    requires limit >= 1 && window > 0.0
    ensures BucketSound(Entered(bucket, now, limit, window), now, limit)
    ensures !Admits(bucket, now, limit, window) ==> Full(Entered(bucket, now, limit, window), now, limit, window)
  {
    LiveIsSuffix(bucket, now - window);
    var live := Live(bucket, now - window);
    if live != [] {
      assert Newest(live) == Newest(bucket);
    }
  }

  class Limiter {
    const limit: nat
    const window: real
    const maxKeys: nat
    var buckets: Buckets
    // The last reading of the clock, which does not go back.
    ghost var last: real

    ghost predicate Valid()
      reads this
    {
      limit >= 1 && window > 0.0 && maxKeys >= 1 && |buckets| <= maxKeys && BucketsSound(buckets, last, limit)
    }

    constructor (limit: nat, window: real, maxKeys: nat, ghost start: real)
      requires limit >= 1 && window > 0.0 && maxKeys >= 1
      ensures Valid() && this.limit == limit && this.window == window && this.maxKeys == maxKeys
      ensures buckets == map[] && last == start
    {
      this.limit, this.window, this.maxKeys := limit, window, maxKeys;
      buckets, last := map[], start;
    }

    /** Lets a key in at most `limit` times in a window; a refusal says how many whole seconds to wait. */
    method Allow(key: Key, now: real) returns (ok: bool, retryAfter: int)
      requires Valid() && last <= now
      modifies this
      ensures Valid() && last == now
      ensures Allowed(old(buckets), buckets, key, now, limit, window, maxKeys)
      ensures ok <==> Admits(Entries(old(buckets), key), now, limit, window)
      ensures ok ==> retryAfter == 0
      ensures !ok ==> key in buckets && Full(buckets[key], now, limit, window)
                      && Announces(retryAfter, Wait(buckets[key], now, window))
    {
      ok := Serve(key, now);
      retryAfter := 0;
      if !ok {
        FullWaits(buckets[key], now, limit, window);
        retryAfter := WholeSeconds(Wait(buckets[key], now, window));
      }
    }

    method Serve(key: Key, now: real) returns (ok: bool)
      requires Valid() && last <= now
      modifies this
      ensures Valid() && last == now
      ensures Allowed(old(buckets), buckets, key, now, limit, window, maxKeys)
      ensures ok <==> Admits(Entries(old(buckets), key), now, limit, window)
      ensures !ok ==> key in buckets && Full(buckets[key], now, limit, window)
    {
      ghost var before := buckets;
      BucketsLater(buckets, last, now, limit);
      last := now;
      PrepareFor(key, now);
      ghost var ready := buckets;
      ok := Enter(key, now);
      assert AllowedVia(before, ready, buckets, key, now, limit, window, maxKeys);
    }

    // Makes room for a key without a bucket, if the buckets are full.
    method PrepareFor(key: Key, now: real)
      requires maxKeys >= 1 && |buckets| <= maxKeys && BucketsSound(buckets, now, limit)
      modifies this`buckets
      ensures Readied(old(buckets), buckets, key, now - window, maxKeys)
      ensures BucketsSound(buckets, now, limit) && Entries(buckets, key) == Entries(old(buckets), key)
      ensures if key in buckets then |buckets| <= maxKeys else |buckets| < maxKeys
    {
      if |buckets| >= maxKeys && key !in buckets {
        MakeRoom(now);
      }
    }

    /** Makes room: every expired bucket goes, and if that was not enough, the oldest of the rest. */
    method MakeRoom(now: real)
      requires maxKeys >= 1 && |buckets| <= maxKeys && BucketsSound(buckets, now, limit)
      modifies this`buckets
      ensures RoomMade(old(buckets), buckets, now - window, maxKeys)
      ensures buckets.Keys <= old(buckets).Keys && |buckets| < maxKeys && BucketsSound(buckets, now, limit)
    {
      var expired := Expired(buckets, now - window);
      MapShrinks(buckets, expired);
      buckets := buckets - expired;
      if |buckets| >= maxKeys {
        var oldest := Oldest(buckets);
        MapShrinks(buckets, {oldest});
        buckets := buckets - {oldest};
      }
    }

    // Drops what has left the window from the key's bucket, and lets the call in if it fits.
    method Enter(key: Key, now: real) returns (ok: bool)
      requires limit >= 1 && window > 0.0 && BucketsSound(buckets, now, limit)
      requires if key in buckets then |buckets| <= maxKeys else |buckets| < maxKeys
      modifies this`buckets
      ensures ok <==> Admits(Entries(old(buckets), key), now, limit, window)
      ensures buckets == old(buckets)[key := Entered(Entries(old(buckets), key), now, limit, window)]
      ensures |buckets| <= maxKeys && BucketsSound(buckets, now, limit)
      ensures !ok ==> Full(buckets[key], now, limit, window)
    {
      EnteredSound(Entries(buckets, key), now, limit, window);
      var bucket := Prune(Entries(buckets, key), now - window);
      ok := |bucket| < limit;
      if ok {
        bucket := bucket + [now];
      }
      MapGrows(buckets, key, bucket);
      buckets := buckets[key := bucket];
    }
  }

  // Drops the admissions that have left the window, oldest first.
  method Prune(bucket: seq<real>, cutoff: real) returns (r: seq<real>)
    ensures r == Live(bucket, cutoff)
  {
    r := bucket;
    while r != [] && r[0] <= cutoff
      invariant Live(bucket, cutoff) == Live(r, cutoff)
      decreases |r|
    {
      r := r[1..];
    }
  }

  method Oldest(m: Buckets) returns (oldest: Key)
    requires |m| > 0 && forall k | k in m :: m[k] != []
    ensures IsOldest(m, oldest)
  {
    assert m.Keys != {};
    oldest :| oldest in m;
    var rest := m.Keys - {oldest};
    while rest != {}
      invariant rest <= m.Keys && oldest in m
      invariant forall k | k in m && k !in rest :: NoLater(m[oldest], m[k])
      decreases rest
    {
      var k :| k in rest;
      if Newest(m[oldest]) > Newest(m[k]) {
        oldest := k;
      }
      rest := rest - {k};
    }
  }

  lemma MapShrinks(m: Buckets, gone: set<Key>)
    ensures |m - gone| <= |m|
    ensures gone * m.Keys != {} ==> |m - gone| < |m|
  {
    assert (m - gone).Keys == m.Keys - gone;
    assert m.Keys == (m.Keys - gone) + (gone * m.Keys);
  }

  lemma MapGrows(m: Buckets, k: Key, v: seq<real>)
    ensures |m[k := v]| == if k in m then |m| else |m| + 1
  {
    assert m[k := v].Keys == m.Keys + {k};
  }

  // ----- Sequences of calls -----

  datatype Attempt = Attempt(key: Key, now: real)

  datatype Limits = Limits(limit: nat, window: real, maxKeys: nat)

  // Call i takes the buckets from state i to state i + 1, at an instant no earlier than the call before.
  ghost predicate CallAt(ms: seq<Buckets>, calls: seq<Attempt>, l: Limits, i: nat)
    requires i < |calls| && |ms| == |calls| + 1
  {
    && Allowed(ms[i], ms[i + 1], calls[i].key, calls[i].now, l.limit, l.window, l.maxKeys)
    && (i > 0 ==> calls[i - 1].now <= calls[i].now)
  }

  /** The buckets of a limiter over any sequence of calls, by any keys. */
  ghost predicate LimiterRun(ms: seq<Buckets>, calls: seq<Attempt>, l: Limits) {
    && |ms| == |calls| + 1 && ms[0] == map[] && l.limit >= 1 && l.window > 0.0 && l.maxKeys >= 1
    && forall i: nat | i < |calls| :: CallAt(ms, calls, l, i)
  }

  ghost predicate AdmittedAt(ms: seq<Buckets>, calls: seq<Attempt>, l: Limits, i: nat)
    requires i < |calls| && |ms| == |calls| + 1
  {
    Admits(Entries(ms[i], calls[i].key), calls[i].now, l.limit, l.window)
  }

  // Call i costs key k its unexpired bucket.
  predicate LosesAt(ms: seq<Buckets>, calls: seq<Attempt>, l: Limits, i: nat, k: Key)
    requires i < |calls| && |ms| == |calls| + 1
  {
    Loses(ms[i], ms[i + 1], calls[i].now, l.window, k)
  }

  ghost predicate NeverLost(ms: seq<Buckets>, calls: seq<Attempt>, l: Limits, lo: nat, hi: nat, k: Key)
    requires lo <= hi <= |calls| && |ms| == |calls| + 1
  {
    forall i: nat | lo <= i < hi :: !LosesAt(ms, calls, l, i, k)
  }

  // The instants at which calls lo up to hi let key k in.
  ghost function Admissions(ms: seq<Buckets>, calls: seq<Attempt>, l: Limits, lo: nat, hi: nat, k: Key): seq<real>
    requires lo <= hi <= |calls| && |ms| == |calls| + 1
    decreases hi - lo
  {
    if lo == hi then []
    else Admissions(ms, calls, l, lo, hi - 1, k)
         + if calls[hi - 1].key == k && AdmittedAt(ms, calls, l, hi - 1) then [calls[hi - 1].now] else []
  }

  lemma {:induction false} AdmissionsSplit(ms: seq<Buckets>, calls: seq<Attempt>, l: Limits, lo: nat, mid: nat, hi: nat,
                                           k: Key)
    requires lo <= mid <= hi <= |calls| && |ms| == |calls| + 1
    ensures Admissions(ms, calls, l, lo, hi, k) == Admissions(ms, calls, l, lo, mid, k) + Admissions(ms, calls, l, mid, hi, k)
    decreases hi
  {
    if mid < hi {
      AdmissionsSplit(ms, calls, l, lo, mid, hi - 1, k);
    }
  }

  // A key's admissions so far: what has left its bucket, all of it a window ago, and then its bucket.
  ghost predicate HistorySound(h: seq<real>, bucket: seq<real>, at: real, l: Limits) {
    && Sorted(h) && Spaced(h, l.limit, l.window) && |bucket| <= l.limit && |bucket| <= |h|
    && bucket == h[|h| - |bucket|..]
    && (forall i | 0 <= i < |h| :: h[i] <= at)
    && (forall i | 0 <= i < |h| - |bucket| :: h[i] <= at - l.window)
  }

  lemma SuffixOfSuffix(h: seq<real>, bucket: seq<real>, gone: nat)
    requires |bucket| <= |h| && bucket == h[|h| - |bucket|..] && gone <= |bucket|
    ensures bucket[gone..] == h[|h| - |bucket| + gone..]
  {
  }

  lemma HistoryPruned(h: seq<real>, bucket: seq<real>, at: real, l: Limits)
    requires HistorySound(h, bucket, at, l)
    ensures HistorySound(h, Live(bucket, at - l.window), at, l)
  {
    SuffixWindowed(h, |h| - |bucket|, l.limit, l.window);
    LiveIsSuffix(bucket, at - l.window);
    var live := Live(bucket, at - l.window);
    SuffixOfSuffix(h, bucket, |bucket| - |live|);
    forall i | 0 <= i < |h| - |live|
      ensures h[i] <= at - l.window
    {
      if i >= |h| - |bucket| {
        assert h[i] == bucket[i - (|h| - |bucket|)];
      }
    }
  }

  lemma HistoryAdmitted(h: seq<real>, bucket: seq<real>, at: real, l: Limits)
    requires HistorySound(h, bucket, at, l) && |bucket| < l.limit && l.window > 0.0
    ensures HistorySound(h + [at], bucket + [at], at, l)
  {
    var longer := h + [at];
    forall i, j | 0 <= i < j < |longer| && j - i >= l.limit
      ensures longer[j] - longer[i] >= l.window
    {
      if j == |h| {
        assert i < |h| - |bucket|;
      }
    }
    assert bucket + [at] == longer[|longer| - |bucket + [at]|..];
  }

  lemma NoHistory(at: real, l: Limits)
    ensures HistorySound([], [], at, l)
  {
  }

  lemma HistoryLater(h: seq<real>, bucket: seq<real>, at: real, later: real, l: Limits)
    requires HistorySound(h, bucket, at, l) && at <= later
    ensures HistorySound(h, bucket, later, l)
  {
  }

  // A bucket that expired and went leaves a history that is all a window old.
  lemma HistoryDropped(h: seq<real>, bucket: seq<real>, at: real, l: Limits)
    requires HistorySound(h, bucket, at, l) && (bucket == [] || Newest(bucket) <= at - l.window)
    ensures HistorySound(h, [], at, l)
  {
    if bucket != [] {
      assert h[|h| - 1] == Newest(bucket);
    }
  }

  lemma HistoryEntered(h: seq<real>, bucket: seq<real>, at: real, l: Limits)
    requires HistorySound(h, bucket, at, l) && l.window > 0.0
    ensures HistorySound(h + (if Admits(bucket, at, l.limit, l.window) then [at] else []),
                         Entered(bucket, at, l.limit, l.window), at, l)
  {
    HistoryPruned(h, bucket, at, l);
    if Admits(bucket, at, l.limit, l.window) {
      HistoryAdmitted(h, Live(bucket, at - l.window), at, l);
    } else {
      assert h + [] == h;
    }
  }

  lemma StepHistory(ms: seq<Buckets>, calls: seq<Attempt>, l: Limits, i: nat, k: Key, h: seq<real>)
    requires LimiterRun(ms, calls, l) && i < |calls| && !LosesAt(ms, calls, l, i, k)
    requires HistorySound(h, Entries(ms[i], k), calls[i].now, l)
    ensures HistorySound(h + (if calls[i].key == k && AdmittedAt(ms, calls, l, i) then [calls[i].now] else []),
                         Entries(ms[i + 1], k), calls[i].now, l)
  {
    assert CallAt(ms, calls, l, i);
    var key, now := calls[i].key, calls[i].now;
    if key == k {
      OwnAfter(ms[i], ms[i + 1], key, now, l.limit, l.window, l.maxKeys);
      HistoryEntered(h, Entries(ms[i], k), now, l);
    } else {
      OthersAfter(ms[i], ms[i + 1], key, now, l.limit, l.window, l.maxKeys, k);
      assert h + [] == h;
      if k !in ms[i + 1] {
        HistoryDropped(h, Entries(ms[i], k), now, l);
      }
    }
  }

  // From a point where a key has no bucket on, and until it is lost, the bucket is the end of the admissions.
  lemma {:induction false} RunHistory(ms: seq<Buckets>, calls: seq<Attempt>, l: Limits, lo: nat, hi: nat, k: Key)
    requires LimiterRun(ms, calls, l) && lo < hi <= |calls| && k !in ms[lo] && NeverLost(ms, calls, l, lo, hi, k)
    ensures HistorySound(Admissions(ms, calls, l, lo, hi, k), Entries(ms[hi], k), calls[hi - 1].now, l)
    decreases hi
  {
    var before := Admissions(ms, calls, l, lo, hi - 1, k);
    if lo + 1 == hi {
      NoHistory(calls[hi - 1].now, l);
    } else {
      RunHistory(ms, calls, l, lo, hi - 1, k);
      assert CallAt(ms, calls, l, hi - 1);
      HistoryLater(before, Entries(ms[hi - 1], k), calls[hi - 2].now, calls[hi - 1].now, l);
    }
    StepHistory(ms, calls, l, hi - 1, k, before);
  }

  // Admissions of a key that is not lost in between are spaced, from whichever call they are counted.
  lemma {:induction false} AdmissionsSpaced(ms: seq<Buckets>, calls: seq<Attempt>, l: Limits, lo: nat, hi: nat, k: Key)
    requires LimiterRun(ms, calls, l) && lo <= hi <= |calls| && NeverLost(ms, calls, l, lo, hi, k)
    ensures var h := Admissions(ms, calls, l, lo, hi, k); Sorted(h) && Spaced(h, l.limit, l.window)
    decreases lo
  {
    if lo == hi {
    } else if k !in ms[lo] {
      RunHistory(ms, calls, l, lo, hi, k);
    } else {
      AdmissionsSpaced(ms, calls, l, lo - 1, hi, k);
      AdmissionsSplit(ms, calls, l, lo - 1, lo, hi, k);
      var longer, first := Admissions(ms, calls, l, lo - 1, hi, k), Admissions(ms, calls, l, lo - 1, lo, k);
      assert longer[|first|..] == Admissions(ms, calls, l, lo, hi, k);
      SuffixWindowed(longer, |first|, l.limit, l.window);
    }
  }

  /**
   The window bound. Of any calls in a row, by any keys, during which key k is not lost as the oldest, at most `limit`
   let k in within any one window, wherever the window starts.
   */
  lemma AnyWindowHoldsAtMostLimit(ms: seq<Buckets>, calls: seq<Attempt>, l: Limits, lo: nat, hi: nat, k: Key, t: real)
    requires LimiterRun(ms, calls, l) && lo <= hi <= |calls| && NeverLost(ms, calls, l, lo, hi, k)
    ensures |InWindow(Admissions(ms, calls, l, lo, hi, k), t, l.window)| <= l.limit
  {
    AdmissionsSpaced(ms, calls, l, lo, hi, k);
    WindowHoldsAtMostLimit(Admissions(ms, calls, l, lo, hi, k), l.limit, l.window, t);
  }

  /** A key is lost only to a new key, when the limiter is full of unexpired buckets, as their oldest, and alone. */
  lemma LostOnlyAsOldest(ms: seq<Buckets>, calls: seq<Attempt>, l: Limits, i: nat, k: Key)
    requires LimiterRun(ms, calls, l) && i < |calls| && LosesAt(ms, calls, l, i, k)
    ensures var unexpired := ms[i] - Expired(ms[i], calls[i].now - l.window);
      && calls[i].key !in ms[i] && |unexpired| >= l.maxKeys && IsOldest(unexpired, k)
      && forall j | LosesAt(ms, calls, l, i, j) :: j == k
  {
    assert CallAt(ms, calls, l, i);
    OwnAfter(ms[i], ms[i + 1], calls[i].key, calls[i].now, l.limit, l.window, l.maxKeys);
    OthersAfter(ms[i], ms[i + 1], calls[i].key, calls[i].now, l.limit, l.window, l.maxKeys, k);
    forall j | LosesAt(ms, calls, l, i, j)
      ensures j == k
    {
      assert Loses(ms[i], ms[i + 1], calls[i].now, l.window, j);
    }
  }

  // ----- Waiting for the announced time -----

  ghost predicate Silent(calls: seq<Attempt>, lo: nat, hi: nat, k: Key)
    requires lo <= hi <= |calls|
  {
    forall i | lo <= i < hi :: calls[i].key != k
  }

  // Until a key calls again, its bucket stays as it is, or goes.
  lemma {:induction false} SilentBucket(ms: seq<Buckets>, calls: seq<Attempt>, l: Limits, lo: nat, hi: nat, k: Key)
    requires LimiterRun(ms, calls, l) && lo <= hi <= |calls| && Silent(calls, lo, hi, k)
    ensures Entries(ms[hi], k) == [] || Entries(ms[hi], k) == Entries(ms[lo], k)
    decreases hi
  {
    if lo < hi {
      SilentBucket(ms, calls, l, lo, hi - 1, k);
      assert CallAt(ms, calls, l, hi - 1);
      OthersAfter(ms[hi - 1], ms[hi], calls[hi - 1].key, calls[hi - 1].now, l.limit, l.window, l.maxKeys, k);
    }
  }

  ghost predicate KeyBucket(m: Buckets, k: Key, at: real, limit: nat) {
    k in m ==> BucketSound(m[k], at, limit)
  }

  lemma StepBucket(ms: seq<Buckets>, calls: seq<Attempt>, l: Limits, i: nat, k: Key)
    requires LimiterRun(ms, calls, l) && i < |calls| && KeyBucket(ms[i], k, calls[i].now, l.limit)
    ensures KeyBucket(ms[i + 1], k, calls[i].now, l.limit)
  {
    assert CallAt(ms, calls, l, i);
    var key, now := calls[i].key, calls[i].now;
    if key == k {
      OwnAfter(ms[i], ms[i + 1], key, now, l.limit, l.window, l.maxKeys);
      EnteredSound(Entries(ms[i], k), now, l.limit, l.window);
    } else {
      OthersAfter(ms[i], ms[i + 1], key, now, l.limit, l.window, l.maxKeys, k);
    }
  }

  lemma {:induction false} RunBucket(ms: seq<Buckets>, calls: seq<Attempt>, l: Limits, i: nat, k: Key)
    requires LimiterRun(ms, calls, l) && i < |calls|
    ensures KeyBucket(ms[i], k, calls[i].now, l.limit)
    decreases i
  {
    if i > 0 {
      RunBucket(ms, calls, l, i - 1, k);
      StepBucket(ms, calls, l, i - 1, k);
      assert CallAt(ms, calls, l, i);
    }
  }

  // A refused key's bucket is full.
  lemma RefusedIsFull(ms: seq<Buckets>, calls: seq<Attempt>, l: Limits, i: nat)
    requires LimiterRun(ms, calls, l) && i < |calls| && !AdmittedAt(ms, calls, l, i)
    ensures Full(Entries(ms[i + 1], calls[i].key), calls[i].now, l.limit, l.window)
  {
    assert CallAt(ms, calls, l, i);
    RunBucket(ms, calls, l, i, calls[i].key);
    OwnAfter(ms[i], ms[i + 1], calls[i].key, calls[i].now, l.limit, l.window, l.maxKeys);
    EnteredSound(Entries(ms[i], calls[i].key), calls[i].now, l.limit, l.window);
  }

  /**
   A refused key's next call, whatever other keys did in between, is let in if it comes after the announced seconds; and
   as long as its bucket is kept, exactly if it comes no sooner than its oldest admission leaves the window.
   */
  lemma NextCallAfterRefusal(ms: seq<Buckets>, calls: seq<Attempt>, l: Limits, i: nat, j: nat, seconds: int)
    requires LimiterRun(ms, calls, l) && i < j < |calls| && !AdmittedAt(ms, calls, l, i)
    requires calls[j].key == calls[i].key && Silent(calls, i + 1, j, calls[i].key)
    ensures var full, now, later := Entries(ms[i + 1], calls[i].key), calls[i].now, calls[j].now;
      && full != []
      && (Announces(seconds, Wait(full, now, l.window)) && later >= now + seconds as real ==> AdmittedAt(ms, calls, l, j))
      && (Entries(ms[j], calls[i].key) != [] ==>
            (AdmittedAt(ms, calls, l, j) <==> later - now >= Wait(full, now, l.window)))
  {
    var k := calls[i].key;
    var full := Entries(ms[i + 1], k);
    RefusedIsFull(ms, calls, l, i);
    SilentBucket(ms, calls, l, i + 1, j, k);
    if Entries(ms[j], k) != [] {
      AdmittedIffWaited(full, calls[i].now, l.limit, l.window, calls[j].now - calls[i].now);
      if Announces(seconds, Wait(full, calls[i].now, l.window)) && calls[j].now >= calls[i].now + seconds as real {
        RetrySuffices(full, calls[i].now, l.limit, l.window, seconds, calls[j].now);
      }
    }
  }
}

/** The fixed-window rate limiter and what pruning its table may forget. */
module RateLimiter {
  import opened Domain

  /** The zero time, which a missing entry reads as. */
  const ZERO: Time := 0
  const PRUNE_ABOVE: nat := 10000

  datatype Bucket = Bucket(window: Time, count: int)
  type Buckets = map<string, Bucket>
  datatype Call = Call(key: string, at: Time)
  datatype Limit = Limit(grants: int, interval: Time)

  /** The entry of a key after one more call for it. */
  function Bumped(buckets: Buckets, call: Call, interval: Time): Bucket {
    var bucket := if call.key in buckets then buckets[call.key] else Bucket(ZERO, 0);
    if bucket.window == ZERO || call.at - bucket.window >= interval then Bucket(call.at, 1)
    else bucket.(count := bucket.count + 1)
  }

  predicate Faded(bucket: Bucket, now: Time, interval: Time) {
    now - bucket.window > 2 * interval
  }

  function Pruned(buckets: Buckets, now: Time, interval: Time): Buckets {
    if |buckets| <= PRUNE_ABOVE then buckets
    else map key | key in buckets && !Faded(buckets[key], now, interval) :: buckets[key]
  }

  /** The table after some calls, and the table that is never pruned. */
  function After(calls: seq<Call>, interval: Time): Buckets {
    if |calls| == 0 then map[]
    else
      var call, before := calls[|calls| - 1], After(calls[..|calls| - 1], interval);
      Pruned(before[call.key := Bumped(before, call, interval)], call.at, interval)
  }

  function Unpruned(calls: seq<Call>, interval: Time): Buckets {
    if |calls| == 0 then map[]
    else
      var call, before := calls[|calls| - 1], Unpruned(calls[..|calls| - 1], interval);
      before[call.key := Bumped(before, call, interval)]
  }

  /** The answers, with and without pruning. */
  predicate Allowed(calls: seq<Call>, i: nat, limit: Limit)
    requires i < |calls|
  {
    Bumped(After(calls[..i], limit.interval), calls[i], limit.interval).count <= limit.grants
  }

  predicate AllowedUnpruned(calls: seq<Call>, i: nat, limit: Limit)
    requires i < |calls|
  {
    Bumped(Unpruned(calls[..i], limit.interval), calls[i], limit.interval).count <= limit.grants
  }

  /** One clock that never goes back, and never reads the zero time. */
  predicate Timely(calls: seq<Call>) {
    (forall i :: 0 <= i < |calls| ==> calls[i].at > ZERO) &&
    forall i, j :: 0 <= i <= j < |calls| ==> calls[i].at <= calls[j].at
  }

  // ---------------------------------------------------------------- pruning is invisible

  /** The pruned table agrees with the full one, up to entries that the next call for their key would replace anyway. */
  ghost predicate Agree(pruned: Buckets, full: Buckets, now: Time, interval: Time) {
    (forall key :: key in pruned ==> key in full && pruned[key] == full[key]) &&
    (forall key :: key in full ==> ZERO < full[key].window <= now) &&
    (forall key :: key in full && key !in pruned ==> now - full[key].window >= interval)
  }

  lemma AgreeStep(pruned: Buckets, full: Buckets, now: Time, call: Call, interval: Time)
    requires Agree(pruned, full, now, interval) && now <= call.at && ZERO < call.at
    ensures Bumped(pruned, call, interval) == Bumped(full, call, interval)
    ensures Agree(Pruned(pruned[call.key := Bumped(pruned, call, interval)], call.at, interval),
                  full[call.key := Bumped(full, call, interval)], call.at, interval)
  {
  }

  lemma {:induction false} TablesAgree(calls: seq<Call>, interval: Time)
    requires Timely(calls)
    ensures Agree(After(calls, interval), Unpruned(calls, interval),
                  if |calls| == 0 then ZERO else calls[|calls| - 1].at, interval)
  {
    hide Agree, Bumped, Pruned;
    var n := |calls| - 1;
    if n < 0 {
      NothingAgrees(interval);
    } else {
      TablesAgree(calls[..n], interval);
      var now := if n == 0 then ZERO else calls[n - 1].at;
      AgreeStep(After(calls[..n], interval), Unpruned(calls[..n], interval), now, calls[n], interval);
    }
  }

  lemma NothingAgrees(interval: Time)
    ensures Agree(map[], map[], ZERO, interval)
  {
  }

  /** Pruning changes no answer, in any run and for any limit and interval. */
  lemma PruningIsInvisible(calls: seq<Call>, i: nat, limit: Limit)
    requires Timely(calls) && i < |calls|
    ensures Allowed(calls, i, limit) <==> AllowedUnpruned(calls, i, limit)
  {
    TablesAgree(calls[..i], limit.interval);
    var now := if i == 0 then ZERO else calls[i - 1].at;
    AgreeStep(After(calls[..i], limit.interval), Unpruned(calls[..i], limit.interval), now, calls[i], limit.interval);
  }

  // ---------------------------------------------------------------- what an answer means

  /** A call opens a window unless an earlier window of its key is still running. */
  predicate Opens(calls: seq<Call>, j: nat, interval: Time)
    requires j < |calls|
    decreases j
  {
    forall k :: 0 <= k < j && calls[k].key == calls[j].key && Opens(calls, k, interval) ==>
      calls[j].at - calls[k].at >= interval
  }

  /** The calls for a key from the k-th to before the n-th. */
  function CallsSince(calls: seq<Call>, key: string, k: nat, n: nat): nat
    requires k <= n <= |calls|
  {
    if n == k then 0 else CallsSince(calls, key, k, n - 1) + if calls[n - 1].key == key then 1 else 0
  }

  /** The k-th call opened the last window of the key among the first n. */
  predicate LastWindow(calls: seq<Call>, key: string, k: nat, n: nat, interval: Time)
    requires n <= |calls|
  {
    k < n && calls[k].key == key && Opens(calls, k, interval) &&
    forall m :: k < m < n && calls[m].key == key ==> !Opens(calls, m, interval)
  }

  lemma FirstOpens(calls: seq<Call>, key: string, n: nat, interval: Time)
    requires n < |calls| && forall m :: 0 <= m < n ==> calls[m].key != key
    requires calls[n].key == key
    ensures Opens(calls, n, interval)
  {
  }

  /** Of all earlier windows of the key only the last one can still be running. */
  lemma OpensAfter(calls: seq<Call>, key: string, k: nat, n: nat, interval: Time)
    requires Timely(calls) && n < |calls| && calls[n].key == key && LastWindow(calls, key, k, n, interval)
    ensures Opens(calls, n, interval) <==> calls[n].at - calls[k].at >= interval
  {
    if calls[n].at - calls[k].at >= interval {
      forall m | 0 <= m < n && calls[m].key == key && Opens(calls, m, interval)
        ensures calls[n].at - calls[m].at >= interval
      {
        assert m <= k;
        assert calls[m].at <= calls[k].at;
      }
    }
  }

  /** Either a key was never called, or its entry is its last window and counts the calls since that opened. */
  predicate EntryIs(calls: seq<Call>, key: string, n: nat, k: nat, interval: Time)
    requires n <= |calls|
  {
    var table := Unpruned(calls[..n], interval);
    if key in table then
      LastWindow(calls, key, k, n, interval) && table[key] == Bucket(calls[k].at, CallsSince(calls, key, k, n))
    else forall m :: 0 <= m < n ==> calls[m].key != key
  }

  lemma EntryStays(calls: seq<Call>, key: string, n: nat, k: nat, interval: Time)
    requires n < |calls| && EntryIs(calls, key, n, k, interval) && calls[n].key != key
    ensures EntryIs(calls, key, n + 1, k, interval)
  {
    assert calls[..n + 1][..n] == calls[..n];
    hide Opens;
  }

  lemma EntryCounts(calls: seq<Call>, key: string, n: nat, k: nat, interval: Time)
    requires Timely(calls) && n < |calls| && EntryIs(calls, key, n, k, interval) && calls[n].key == key
    requires key in Unpruned(calls[..n], interval) && calls[n].at - calls[k].at < interval
    ensures EntryIs(calls, key, n + 1, k, interval)
  {
    assert calls[..n + 1][..n] == calls[..n];
    OpensAfter(calls, key, k, n, interval);
    hide Opens;
  }

  lemma EntryOpens(calls: seq<Call>, key: string, n: nat, k: nat, interval: Time)
    requires Timely(calls) && n < |calls| && EntryIs(calls, key, n, k, interval) && calls[n].key == key
    requires key in Unpruned(calls[..n], interval) ==> k < n && calls[n].at - calls[k].at >= interval
    ensures EntryIs(calls, key, n + 1, n, interval)
  {
    assert calls[..n + 1][..n] == calls[..n];
    if key in Unpruned(calls[..n], interval) {
      OpensAfter(calls, key, k, n, interval);
    } else {
      FirstOpens(calls, key, n, interval);
    }
    assert CallsSince(calls, key, n, n + 1) == 1;
    hide Opens;
  }

  lemma {:induction false} EntryMeans(calls: seq<Call>, key: string, n: nat, interval: Time) returns (k: nat)
    requires Timely(calls) && n <= |calls|
    ensures EntryIs(calls, key, n, k, interval)
    ensures key in Unpruned(calls[..n], interval) ==> k < n
  {
    k := 0;
    if n > 0 {
      var m := n - 1;
      k := EntryMeans(calls, key, m, interval);
      hide EntryIs, Unpruned, Timely;
      if calls[m].key != key {
        EntryStays(calls, key, m, k, interval);
      } else if key in Unpruned(calls[..m], interval) && calls[m].at - calls[k].at < interval {
        EntryCounts(calls, key, m, k, interval);
      } else {
        EntryOpens(calls, key, m, k, interval);
        k := m;
      }
    }
    EntryIsBefore(calls, key, n, k, interval);
  }

  lemma EntryIsBefore(calls: seq<Call>, key: string, n: nat, k: nat, interval: Time)
    requires n <= |calls| && EntryIs(calls, key, n, k, interval)
    ensures key in Unpruned(calls[..n], interval) ==> k < n
  {
  }

  /**
   A call is granted if and only if, with it, its key has been called at most the limit's number of times since
   its last window opened; a window opens at the first call after the one before has run out.
   */
  lemma AllowedMeans(calls: seq<Call>, i: nat, limit: Limit) returns (k: nat)
    requires Timely(calls) && i < |calls|
    ensures LastWindow(calls, calls[i].key, k, i + 1, limit.interval)
    ensures Allowed(calls, i, limit) <==> CallsSince(calls, calls[i].key, k, i + 1) <= limit.grants
  {
    PruningIsInvisible(calls, i, limit);
    assert calls[..i + 1][..i] == calls[..i];
    k := EntryMeans(calls, calls[i].key, i + 1, limit.interval);
    assert calls[i].key in Unpruned(calls[..i + 1], limit.interval);
    hide Allowed, Bumped, LastWindow, CallsSince;
  }

  // ---------------------------------------------------------------- how much a key is granted

  predicate Within(at: Time, start: Time, interval: Time) {
    start <= at < start + interval
  }

  /** How often a key was granted in the half-open span of one interval from `start`. */
  function Grants(calls: seq<Call>, key: string, start: Time, limit: Limit): nat {
    if |calls| == 0 then 0
    else
      var n := |calls| - 1;
      Grants(calls[..n], key, start, limit) +
      if calls[n].key == key && Within(calls[n].at, start, limit.interval) && Allowed(calls, n, limit) then 1 else 0
  }

  function Min(a: int, b: int): int {
    if a < b then a else b
  }

  /**
   What the key's entry says of the grants so far: a window opened before the span spent a grant outside it,
   and at most one window can be opened inside the span.
   */
  ghost predicate Spent(grants: nat, full: Buckets, key: string, now: Time, start: Time, limit: Limit) {
    (now < start ==> grants == 0) &&
    if key !in full then grants == 0
    else
      var bucket := full[key];
      ZERO < bucket.window <= now && bucket.count >= 1 &&
      if bucket.window < start then grants <= Min(bucket.count, limit.grants) - 1
      else if bucket.window < start + limit.interval then grants <= limit.grants - 1 + Min(bucket.count, limit.grants)
      else grants <= 2 * limit.grants - 1
  }

  lemma SpentStep(grants: nat, full: Buckets, key: string, now: Time, call: Call, start: Time, limit: Limit)
    requires Spent(grants, full, key, now, start, limit) && limit.grants >= 1
    requires now <= call.at && ZERO < call.at
    ensures var bucket := Bumped(full, call, limit.interval);
            var more := if call.key == key && Within(call.at, start, limit.interval) && bucket.count <= limit.grants
                        then 1 else 0;
            Spent(grants + more, full[call.key := bucket], key, call.at, start, limit)
  {
  }

  lemma {:induction false} GrantsAreSpent(calls: seq<Call>, key: string, start: Time, limit: Limit)
    requires Timely(calls) && limit.grants >= 1
    ensures Spent(Grants(calls, key, start, limit), Unpruned(calls, limit.interval), key,
                  if |calls| == 0 then ZERO else calls[|calls| - 1].at, start, limit)
  {
    var n := |calls| - 1;
    if n >= 0 {
      GrantsAreSpent(calls[..n], key, start, limit);
      var now := if n == 0 then ZERO else calls[n - 1].at;
      SpentStep(Grants(calls[..n], key, start, limit), Unpruned(calls[..n], limit.interval), key, now, calls[n], start,
                limit);
      PruningIsInvisible(calls, n, limit);
    }
  }

  /** In any half-open span of one interval a key is granted at most twice the limit less one. */
  lemma SpanBound(calls: seq<Call>, key: string, start: Time, limit: Limit)
    requires Timely(calls) && limit.grants >= 1
    ensures Grants(calls, key, start, limit) <= 2 * limit.grants - 1
  {
    GrantsAreSpent(calls, key, start, limit);
  }

  // ---------------------------------------------------------------- the bound is reached

  /** One more call for a key that is alone in the table. */
  lemma LoneCall(calls: seq<Call>, bucket: Bucket, call: Call, start: Time, limit: Limit)
    requires After(calls, limit.interval) == map["" := bucket] && call.key == ""
    ensures var bumped := Bumped(map["" := bucket], call, limit.interval);
            After(calls + [call], limit.interval) == map["" := bumped] &&
            Grants(calls + [call], "", start, limit) == Grants(calls, "", start, limit) +
              if Within(call.at, start, limit.interval) && bumped.count <= limit.grants then 1 else 0
  {
    assert (calls + [call])[..|calls|] == calls;
    hide Within;
    var next := map["" := bucket][call.key := Bumped(map["" := bucket], call, limit.interval)];
    assert next == map["" := Bumped(map["" := bucket], call, limit.interval)];
    assert next.Keys == {""};
    assert |next.Keys| == 1;
  }

  lemma FirstCall(limit: Limit)
    requires limit.grants >= 1
    ensures After([Call("", 1)], limit.interval) == map["" := Bucket(1, 1)] && Grants([Call("", 1)], "", 2, limit) == 0
  {
    var calls := [Call("", 1)];
    assert calls[..0] == [];
    var next: Buckets := map["" := Bucket(1, 1)];
    assert next.Keys == {""};
    assert |next.Keys| == 1;
  }

  /** One call, the rest of its window's grants at its end, and a whole window's grants one tick later. */
  function Burst(early: nat, late: nat, interval: Time): seq<Call>
    decreases early + late
  {
    if late > 0 then Burst(early, late - 1, interval) + [Call("", interval + 1)]
    else if early > 0 then Burst(early - 1, 0, interval) + [Call("", interval)]
    else [Call("", 1)]
  }

  lemma {:induction false} BurstIsTimely(early: nat, late: nat, interval: Time)
    requires interval >= 2
    ensures var calls := Burst(early, late, interval);
            Timely(calls) && |calls| == 1 + early + late && calls[0].at == 1 &&
            forall i :: 0 <= i < |calls| ==> calls[i].at <= if late > 0 then interval + 1 else interval
    decreases early + late
  {
    if late > 0 {
      BurstIsTimely(early, late - 1, interval);
      TimelyMore(Burst(early, late - 1, interval), Call("", interval + 1));
    } else if early > 0 {
      BurstIsTimely(early - 1, 0, interval);
      TimelyMore(Burst(early - 1, 0, interval), Call("", interval));
    }
    hide Timely;
  }

  lemma TimelyMore(calls: seq<Call>, call: Call)
    requires Timely(calls) && call.at > ZERO && forall i :: 0 <= i < |calls| ==> calls[i].at <= call.at
    ensures Timely(calls + [call])
  {
  }

  lemma {:induction false} BurstGrants(early: nat, late: nat, limit: Limit)
    requires limit.interval >= 2 && early < limit.grants && late <= limit.grants
    ensures var calls := Burst(early, late, limit.interval);
            Grants(calls, "", 2, limit) == early + late &&
            After(calls, limit.interval) ==
            map["" := if late == 0 then Bucket(1, 1 + early) else Bucket(limit.interval + 1, late)]
    decreases early + late
  {
    hide After, Grants;
    if late > 0 {
      BurstGrants(early, late - 1, limit);
      LoneCall(Burst(early, late - 1, limit.interval),
               if late == 1 then Bucket(1, 1 + early) else Bucket(limit.interval + 1, late - 1),
               Call("", limit.interval + 1), 2, limit);
    } else if early > 0 {
      BurstGrants(early - 1, 0, limit);
      LoneCall(Burst(early - 1, 0, limit.interval), Bucket(1, early), Call("", limit.interval), 2, limit);
    } else {
      FirstCall(limit);
    }
  }

  /** For every limit the bound is reached, so twice the limit less one is exact. */
  lemma SpanBoundIsReached(limit: Limit) returns (calls: seq<Call>, start: Time)
    requires limit.grants >= 1 && limit.interval >= 2
    ensures Timely(calls) && Grants(calls, "", start, limit) == 2 * limit.grants - 1
  {
    calls, start := Burst(limit.grants - 1, limit.grants, limit.interval), 2;
    BurstIsTimely(limit.grants - 1, limit.grants, limit.interval);
    BurstGrants(limit.grants - 1, limit.grants, limit);
  }

  // ---------------------------------------------------------------- the limiter

  class RateLimiter {
    var buckets: Buckets
    const limit: int
    const interval: Time
    ghost var calls: seq<Call>

    ghost predicate Valid()
      reads this
    {
      buckets == After(calls, interval)
    }

    constructor (limit: int, interval: Time)
      ensures Valid() && calls == [] && this.limit == limit && this.interval == interval
    {
      this.limit, this.interval := limit, interval;
      buckets, calls := map[], [];
    }

    method DeleteFaded(now: Time)
      modifies this`buckets
      ensures buckets == map key | key in old(buckets) && !Faded(old(buckets)[key], now, interval) :: old(buckets)[key]
    {
      var items := buckets.Keys;
      while items != {}
        invariant items <= buckets.Keys <= old(buckets).Keys
        invariant forall key :: key in buckets ==> buckets[key] == old(buckets)[key]
        invariant forall key :: key in old(buckets) ==>
                    (key in buckets <==> key in items || !Faded(old(buckets)[key], now, interval))
        decreases |items|
      {
        var item :| item in items;
        if now - buckets[item].window > 2 * interval {
          buckets := buckets - {item};
        }
        items := items - {item};
      }
    }

    method Allow(key: string, now: Time) returns (allowed: bool)
      requires Valid()
      modifies this
      ensures Valid() && calls == old(calls) + [Call(key, now)]
      ensures allowed == Allowed(calls, |old(calls)|, Limit(limit, interval))
    {
      var bucket := if key in buckets then buckets[key] else Bucket(ZERO, 0);
      if bucket.window == ZERO || now - bucket.window >= interval {
        bucket := Bucket(now, 0);
      }
      bucket := bucket.(count := bucket.count + 1);
      buckets := buckets[key := bucket];
      if |buckets| > PRUNE_ABOVE {
        DeleteFaded(now);
      }
      calls := calls + [Call(key, now)];
      assert calls[..|calls| - 1] == old(calls);
      allowed := bucket.count <= limit;
    }
  }
}

/**
 The analytics view: an in-memory counter per (network, direction, token, hour), rebuilt from the
 first offset by a replaying consumer at every process start.
 */
module Analytics {
  import opened Broker
  import opened KafkaConsumer
  import opened Options
  import opened Persister

  const HOUR := 3_600_000_000_000
  const UINT64 := 0x1_0000_0000_0000_0000

  datatype BucketKey = BucketKey(network: string, direction: string, token: string, hour: nat)

  type Buckets = map<BucketKey, nat>

  /** The start of the UTC hour, in nanoseconds; 0 is Go's zero time, replaced by the clock. */
  function HourBucket(emittedAt: nat, now: nat): nat {
    var t := if emittedAt == 0 then now else emittedAt;
    t - t % HOUR
  }

  function KeyOf(env: Envelope, now: nat): BucketKey {
    BucketKey(env.network, env.direction, env.tokenSymbol, HourBucket(env.emittedAt, now))
  }

  /** When an event counts as having happened. */
  function EventTime(env: Envelope, now: nat): nat {
    if env.emittedAt == 0 then now else env.emittedAt
  }

  /** The bucket is for these fields and for the full hour, on the UTC clock, that `at` falls into. */
  predicate InBucket(env: Envelope, at: nat, k: BucketKey) {
    && env.network == k.network && env.direction == k.direction && env.tokenSymbol == k.token
    && k.hour % 3_600_000_000_000 == 0 && k.hour <= at < k.hour + 3_600_000_000_000
  }

  /** An event is counted in the one bucket of its fields and its hour. */
  lemma KeyIffInBucket(env: Envelope, now: nat, k: BucketKey)
    ensures KeyOf(env, now) == k <==> InBucket(env, EventTime(env, now), k)
  {
    var t := EventTime(env, now);
    assert t == t / HOUR * HOUR + t % HOUR && (t - t % HOUR) % HOUR == 0;
    if InBucket(env, t, k) {
      assert k.hour / HOUR == t / HOUR;
    }
  }

  /** Two events share a bucket exactly when they agree on the three fields and on the hour. */
  lemma SameBucketIff(a: Envelope, b: Envelope, now: nat)
    requires a.emittedAt != 0 && b.emittedAt != 0
    ensures KeyOf(a, now) == KeyOf(b, now) <==>
      && a.network == b.network && a.direction == b.direction && a.tokenSymbol == b.tokenSymbol
      && a.emittedAt / 3_600_000_000_000 == b.emittedAt / 3_600_000_000_000
  {
    KeyIffInBucket(a, now, KeyOf(b, now));
    KeyIffInBucket(b, now, KeyOf(b, now));
  }

  function Applied(b: Buckets, env: Envelope, now: nat): Buckets {
    var k := KeyOf(env, now);
    b[k := ((if k in b then b[k] else 0) + 1) % UINT64]
  }

  // ------------------------------------------------------------ the order of a snapshot

  predicate StringLess(a: string, b: string) {
    if a == "" || b == "" then a == "" && b != ""
    else a[0] < b[0] || (a[0] == b[0] && StringLess(a[1..], b[1..]))
  }

  predicate KeyLess(a: BucketKey, b: BucketKey) {
    if a.hour != b.hour then a.hour < b.hour
    else if a.network != b.network then StringLess(a.network, b.network)
    else if a.direction != b.direction then StringLess(a.direction, b.direction)
    else StringLess(a.token, b.token)
  }

  lemma {:induction false} StringLessConnected(a: string, b: string)
    ensures !(StringLess(a, b) && StringLess(b, a))
    ensures a != b <==> StringLess(a, b) || StringLess(b, a)
    decreases |a|
  {
    if a != "" && b != "" {
      StringLessConnected(a[1..], b[1..]);
      assert a == [a[0]] + a[1..] && b == [b[0]] + b[1..];
    }
  }

  lemma {:induction false} StringLessTransitive(a: string, b: string, c: string)
    requires StringLess(a, b) && StringLess(b, c)
    ensures StringLess(a, c)
    decreases |a|
  {
    if a != "" && a[0] == b[0] && b[0] == c[0] {
      StringLessTransitive(a[1..], b[1..], c[1..]);
    }
  }

  lemma KeyLessConnected(a: BucketKey, b: BucketKey)
    ensures !(KeyLess(a, b) && KeyLess(b, a))
    ensures a != b <==> KeyLess(a, b) || KeyLess(b, a)
  {
    StringLessConnected(a.network, b.network);
    StringLessConnected(a.direction, b.direction);
    StringLessConnected(a.token, b.token);
  }

  lemma KeyLessTransitive(a: BucketKey, b: BucketKey, c: BucketKey)
    requires KeyLess(a, b) && KeyLess(b, c)
    ensures KeyLess(a, c)
  {
    KeyLessConnected(a, b);
    KeyLessConnected(b, c);
    StringLessConnected(a.network, b.network);
    StringLessConnected(b.network, c.network);
    StringLessConnected(a.direction, b.direction);
    StringLessConnected(b.direction, c.direction);
    if a.hour == b.hour == c.hour {
      if a.network != b.network && b.network != c.network {
        StringLessTransitive(a.network, b.network, c.network);
        StringLessConnected(a.network, c.network);
      } else if a.network == b.network == c.network {
        if a.direction != b.direction && b.direction != c.direction {
          StringLessTransitive(a.direction, b.direction, c.direction);
          StringLessConnected(a.direction, c.direction);
        } else if a.direction == b.direction == c.direction {
          StringLessTransitive(a.token, b.token, c.token);
        }
      }
    }
  }

  /** Up to place `k` the texts agree; there `a` ends, or holds the smaller character. */
  predicate SmallerAt(a: string, b: string, k: nat) {
    k <= |a| && k < |b| && a[..k] == b[..k] && (k < |a| ==> a[k] < b[k])
  }

  lemma {:induction false} StringLessIff(a: string, b: string)
    ensures StringLess(a, b) <==> exists k: nat :: SmallerAt(a, b, k)
    decreases |a|
  {
    if a == "" || b == "" {
      assert b != "" ==> SmallerAt(a, b, 0);
    } else {
      StringLessIff(a[1..], b[1..]);
      if a[0] < b[0] {
        assert SmallerAt(a, b, 0);
      } else if k: nat :| a[0] == b[0] && SmallerAt(a[1..], b[1..], k) {
        assert a[..k + 1] == [a[0]] + a[1..][..k] && b[..k + 1] == [b[0]] + b[1..][..k];
        assert SmallerAt(a, b, k + 1);
      }
      if k: nat :| k > 0 && SmallerAt(a, b, k) {
        assert a[0] == a[..k][0] && b[0] == b[..k][0];
        assert a[1..][..k - 1] == a[..k][1..] && b[1..][..k - 1] == b[..k][1..];
        assert SmallerAt(a[1..], b[1..], k - 1);
      }
    }
  }

  ghost predicate Lexicographic(a: string, b: string) {
    exists k: nat :: SmallerAt(a, b, k)
  }

  /** Earlier hours come first; within one, the texts decide, network before direction before token. */
  lemma KeyLessIff(a: BucketKey, b: BucketKey)
    ensures KeyLess(a, b) <==>
      || a.hour < b.hour
      || (a.hour == b.hour && Lexicographic(a.network, b.network))
      || (a.hour == b.hour && a.network == b.network && Lexicographic(a.direction, b.direction))
      || (a.hour == b.hour && a.network == b.network && a.direction == b.direction && Lexicographic(a.token, b.token))
  {
    StringLessIff(a.network, b.network);
    StringLessIff(a.direction, b.direction);
    StringLessIff(a.token, b.token);
    StringLessConnected(a.network, b.network);
    StringLessConnected(a.direction, b.direction);
    StringLessConnected(a.token, b.token);
  }

  datatype Summary = Summary(key: BucketKey, count: nat)

  ghost predicate StrictlySorted(s: seq<Summary>) {
    forall i, j | 0 <= i < j < |s| :: KeyLess(s[i].key, s[j].key)
  }

  /** The list holds the entries of the buckets and nothing else. */
  ghost predicate Lists(s: seq<Summary>, b: Buckets) {
    forall x :: x in s <==> x.key in b && b[x.key] == x.count
  }

  /** A strictly sorted list of the buckets is unique: the order Go ranges over the map in does
      not show. */
  lemma {:induction false} SnapshotIsUnique(s: seq<Summary>, t: seq<Summary>, b: Buckets)
    requires StrictlySorted(s) && StrictlySorted(t) && Lists(s, b) && Lists(t, b)
    ensures s == t
    decreases |s|
  {
    assert s != [] ==> s[0] in t;
    assert t != [] ==> t[0] in s;
    if s != [] {
      KeyLessConnected(s[0].key, t[0].key);
      assert s[0] == t[0];
      ListsRest(s, b);
      ListsRest(t, b);
      SnapshotIsUnique(s[1..], t[1..], b - {s[0].key});
      assert s == [s[0]] + s[1..] && t == [t[0]] + t[1..];
    }
  }

  lemma ListsRest(s: seq<Summary>, b: Buckets)
    requires s != [] && StrictlySorted(s) && Lists(s, b)
    ensures StrictlySorted(s[1..]) && Lists(s[1..], b - {s[0].key})
  {
    assert s[0] in s;
    forall x | x in s[1..] ensures x.key != s[0].key {
      KeyLessConnected(s[0].key, x.key);
    }
    forall x: Summary ensures x in s[1..] <==> x in s && x.key != s[0].key {
      assert s == [s[0]] + s[1..];
    }
  }

  // ------------------------------------------------------------ the aggregator

  class Aggregator {
    var buckets: Buckets

    constructor ()
      ensures buckets == map[]
    {
      buckets := map[];
    }

    /** Never asks for a retry. */
    method Apply(env: Option<Envelope>, now: nat) returns (ok: bool)
      modifies this
      ensures ok
      ensures buckets == if env.None? then old(buckets) else Applied(old(buckets), env.value, now)
      ensures env.Some? ==> forall k | InBucket(env.value, EventTime(env.value, now), k) ::
        k in buckets && buckets[k] == ((if k in old(buckets) then old(buckets)[k] else 0) + 1) % 0x1_0000_0000_0000_0000
      ensures env.Some? ==> forall k | !InBucket(env.value, EventTime(env.value, now), k) ::
        (k in buckets <==> k in old(buckets)) && (k in buckets ==> buckets[k] == old(buckets)[k])
    {
      if env.None? {
        return true;
      }
      var key := BucketKey(env.value.network, env.value.direction, env.value.tokenSymbol,
          HourBucket(env.value.emittedAt, now));
      forall k ensures key == k <==> InBucket(env.value, EventTime(env.value, now), k) {
        KeyIffInBucket(env.value, now, k);
      }
      if key !in buckets {
        buckets := buckets[key := 0];
      }
      buckets := buckets[key := (buckets[key] + 1) % UINT64];
      ok := true;
    }

    method Snapshot() returns (out: seq<Summary>)
      ensures StrictlySorted(out) && Lists(out, buckets)
    {
      out := [];
      var todo := buckets.Keys;
      while todo != {}
        invariant todo <= buckets.Keys
        invariant forall x :: x in out <==> x.key in buckets && x.key !in todo && buckets[x.key] == x.count
        invariant forall i, j | 0 <= i < j < |out| :: out[i].key != out[j].key
        decreases todo
      {
        var k :| k in todo;
        assert forall i | 0 <= i < |out| :: out[i] in out;
        out := out + [Summary(k, buckets[k])];
        todo := todo - {k};
      }
      ghost var collected := out;
      out := SortSlice(out);
      forall x: Summary ensures x in out <==> x in collected {
        assert x in out <==> x in multiset(out);
      }
    }
  }

  /** sort.Slice on a slice of distinct keys. */
  method SortSlice(s: seq<Summary>) returns (out: seq<Summary>)
    requires forall i, j | 0 <= i < j < |s| :: s[i].key != s[j].key
    ensures StrictlySorted(out) && multiset(out) == multiset(s)
  {
    out := [];
    for n := 0 to |s|
      invariant StrictlySorted(out) && multiset(out) == multiset(s[..n])
    {
      assert s[..n + 1] == s[..n] + [s[n]];
      forall x | x in out ensures x.key != s[n].key {
        assert x in multiset(s[..n]);
      }
      out := InsertSorted(out, s[n]);
    }
    assert s[..|s|] == s;
  }

  method InsertSorted(s: seq<Summary>, x: Summary) returns (out: seq<Summary>)
    requires StrictlySorted(s) && forall y | y in s :: y.key != x.key
    ensures StrictlySorted(out) && multiset(out) == multiset(s) + multiset{x}
  {
    var i := 0;
    while i < |s| && KeyLess(s[i].key, x.key)
      invariant 0 <= i <= |s|
      invariant forall j | 0 <= j < i :: KeyLess(s[j].key, x.key)
    {
      i := i + 1;
    }
    forall j | i <= j < |s| ensures KeyLess(x.key, s[j].key) {
      KeyLessConnected(s[i].key, x.key);
      assert s[i] in s;
      if j > i {
        KeyLessTransitive(x.key, s[i].key, s[j].key);
      }
    }
    out := s[..i] + [x] + s[i..];
    assert s == s[..i] + s[i..];
  }

  // ------------------------------------------------------------ a replaying process

  /** The message decodes to an event of this network, direction and token, emitted in this hour. */
  function Matches(payload: Payload, k: BucketKey): nat {
    var env := Unmarshal(payload);
    if env.Some? && InBucket(env.value, env.value.emittedAt, k) then 1 else 0
  }

  /** A batch group-by: how many messages of a log fall into bucket `k`. */
  function CountIn(log: seq<Payload>, k: BucketKey): nat {
    if log == [] then 0 else CountIn(log[..|log| - 1], k) + Matches(log[|log| - 1], k)
  }

  /** The group-by over the first `upTo[p]` messages of each partition below `n`. */
  function BatchCount(logs: seq<seq<Payload>>, upTo: seq<nat>, k: BucketKey, n: nat): nat
    requires n <= |logs| == |upTo| && forall p | 0 <= p < |logs| :: upTo[p] <= |logs[p]|
  {
    if n == 0 then 0 else BatchCount(logs, upTo, k, n - 1) + CountIn(logs[n - 1][..upTo[n - 1]], k)
  }

  /** The view is the batch group-by, counters wrapping at 2^64. */
  ghost predicate IsGroupBy(b: Buckets, logs: seq<seq<Payload>>, upTo: seq<nat>)
    requires |logs| == |upTo| && forall p | 0 <= p < |logs| :: upTo[p] <= |logs[p]|
  {
    forall k ::
      && (k in b <==> BatchCount(logs, upTo, k, |logs|) > 0)
      && (k in b ==> b[k] == BatchCount(logs, upTo, k, |logs|) % 0x1_0000_0000_0000_0000)
  }

  lemma {:induction false} BatchStep(logs: seq<seq<Payload>>, upTo: seq<nat>, k: BucketKey, n: nat, p: nat)
    requires n <= |logs| == |upTo| && (forall q | 0 <= q < |logs| :: upTo[q] <= |logs[q]|)
    requires p < |logs| && upTo[p] < |logs[p]|
    ensures BatchCount(logs, upTo[p := upTo[p] + 1], k, n) == BatchCount(logs, upTo, k, n) +
        if p < n then Matches(logs[p][upTo[p]], k) else 0
  {
    if n > 0 {
      BatchStep(logs, upTo, k, n - 1, p);
      if p == n - 1 {
        assert logs[p][..upTo[p] + 1][..upTo[p]] == logs[p][..upTo[p]];
      }
    }
  }

  lemma {:induction false} BatchGrows(logs: seq<seq<Payload>>, logs': seq<seq<Payload>>, upTo: seq<nat>, k: BucketKey,
          n: nat)
    requires LogsGrow(logs, logs') && n <= |logs| == |upTo| && (forall q | 0 <= q < |logs| :: upTo[q] <= |logs[q]|)
    ensures forall q | 0 <= q < |logs'| :: upTo[q] <= |logs'[q]|
    ensures BatchCount(logs', upTo, k, n) == BatchCount(logs, upTo, k, n)
  {
    forall q | 0 <= q < |logs'| ensures upTo[q] <= |logs'[q]| {
      assert logs[q] <= logs'[q];
    }
    if n > 0 {
      BatchGrows(logs, logs', upTo, k, n - 1);
      assert logs[n - 1] <= logs'[n - 1];
      assert logs'[n - 1][..upTo[n - 1]] == logs[n - 1][..upTo[n - 1]];
    }
  }

  lemma {:induction false} BatchOfNothing(logs: seq<seq<Payload>>, upTo: seq<nat>, k: BucketKey, n: nat)
    requires n <= |logs| == |upTo| && forall q | 0 <= q < |logs| :: upTo[q] == 0
    ensures BatchCount(logs, upTo, k, n) == 0
  {
    if n > 0 {
      BatchOfNothing(logs, upTo, k, n - 1);
    }
  }

  /** No envelope of the log has the zero emission time. */
  ghost predicate Timed(logs: seq<seq<Payload>>) {
    forall m | EnvAt(logs, m).Some? :: EnvAt(logs, m).value.emittedAt != 0
  }

  function ViewAfter(b: Buckets, g: Group, a: Action, now: nat): Buckets {
    if a.Restart? then map[]
    else if a.Try? && g.phase.Handling? && EnvAt(g.logs, (g.phase.p, g.phase.o)).Some? then
      Applied(b, EnvAt(g.logs, (g.phase.p, g.phase.o)).value, now)
    else b
  }

  /** A replaying consumer driving Apply, which always succeeds; `views` is the process memory,
      empty again after each restart, and `clock` what Apply reads. */
  ghost predicate IsAnalyticsRun(run: seq<Group>, acts: seq<Action>, views: seq<Buckets>, clock: seq<nat>,
          partitions: nat) {
    && IsRun(run, acts, true) && run[0] == NewGroup(partitions)
    && |views| == |run| && views[0] == map[] && |clock| == |acts|
    && forall i | 0 <= i < |acts| ::
        (acts[i].Try? ==> acts[i].ok) && views[i + 1] == ViewAfter(views[i], run[i], acts[i], clock[i])
  }

  /** How far the current process has applied each partition. */
  function AppliedUpTo(g: Group): seq<nat> {
    if g.phase.Handling? && g.phase.p < |g.cursor| then g.cursor[g.phase.p := g.phase.o] else g.cursor
  }

  ghost predicate ReplaySound(g: Group) {
    && |g.logs| == |g.cursor|
    && (forall p | 0 <= p < |g.logs| :: g.cursor[p] <= |g.logs[p]|)
    && (g.phase.Handling? ==>
          && g.phase.p < |g.logs| && g.phase.failed == 0 && g.cursor[g.phase.p] == g.phase.o + 1
          && EnvAt(g.logs, (g.phase.p, g.phase.o)).Some?)
    && forall p | 0 <= p < |g.logs| :: AppliedUpTo(g)[p] <= |g.logs[p]|
  }

  lemma ApplyKeepsGroupBy(b: Buckets, logs: seq<seq<Payload>>, upTo: seq<nat>, p: nat, now: nat)
    requires |logs| == |upTo| && (forall q | 0 <= q < |logs| :: upTo[q] <= |logs[q]|) && IsGroupBy(b, logs, upTo)
    requires p < |logs| && upTo[p] < |logs[p]| && EnvAt(logs, (p, upTo[p])).Some?
        && EnvAt(logs, (p, upTo[p])).value.emittedAt != 0
    ensures IsGroupBy(Applied(b, EnvAt(logs, (p, upTo[p])).value, now), logs, upTo[p := upTo[p] + 1])
  {
    var env := EnvAt(logs, (p, upTo[p])).value;
    var b', upTo' := Applied(b, env, now), upTo[p := upTo[p] + 1];
    forall k
      ensures k in b' <==> BatchCount(logs, upTo', k, |logs|) > 0
      ensures k in b' ==> b'[k] == BatchCount(logs, upTo', k, |logs|) % UINT64
    {
      KeyIffInBucket(env, now, k);
      BatchStep(logs, upTo, k, |logs|, p);
      WrapStep(BatchCount(logs, upTo, k, |logs|));
    }
  }

  lemma WrapStep(n: nat)
    ensures (n % UINT64 + 1) % UINT64 == (n + 1) % UINT64
  {
  }

  lemma SkipKeepsGroupBy(b: Buckets, logs: seq<seq<Payload>>, upTo: seq<nat>, p: nat)
    requires |logs| == |upTo| && (forall q | 0 <= q < |logs| :: upTo[q] <= |logs[q]|) && IsGroupBy(b, logs, upTo)
    requires p < |logs| && upTo[p] < |logs[p]| && EnvAt(logs, (p, upTo[p])).None?
    ensures IsGroupBy(b, logs, upTo[p := upTo[p] + 1])
  {
    forall k {
      BatchStep(logs, upTo, k, |logs|, p);
    }
  }

  lemma AppendKeepsView(g: Group, a: Action, b: Buckets)
    requires Enabled(g, a) && a.Append? && ReplaySound(g)
    requires !g.phase.Stopped? ==> IsGroupBy(b, g.logs, AppliedUpTo(g))
    ensures var g' := Next(g, a, true);
      ReplaySound(g') && (!g'.phase.Stopped? ==> IsGroupBy(b, g'.logs, AppliedUpTo(g')))
  {
    var g' := Next(g, a, true);
    assert LogsGrow(g.logs, g'.logs);
    if !g.phase.Stopped? {
      forall k {
        BatchGrows(g.logs, g'.logs, AppliedUpTo(g), k, |g.logs|);
      }
    }
  }

  lemma StepKeepsView(g: Group, a: Action, b: Buckets, now: nat)
    requires Enabled(g, a) && ReplaySound(g) && (a.Try? ==> a.ok) && Timed(g.logs)
    requires !g.phase.Stopped? ==> IsGroupBy(b, g.logs, AppliedUpTo(g))
    ensures var g' := Next(g, a, true);
      ReplaySound(g') && (!g'.phase.Stopped? ==> IsGroupBy(ViewAfter(b, g, a, now), g'.logs, AppliedUpTo(g')))
  {
    var g' := Next(g, a, true);
    match a
    case Append(_, _) =>
      AppendKeepsView(g, a, b);
    case Restart =>
      forall k {
        BatchOfNothing(g'.logs, AppliedUpTo(g'), k, |g'.logs|);
      }
    case Fetch(p) =>
      if g'.phase.Handling? {
        assert AppliedUpTo(g') == g.cursor;
      } else {
        SkipKeepsGroupBy(b, g.logs, g.cursor, p);
      }
    case Try(_, _) =>
      ApplyKeepsGroupBy(b, g.logs, AppliedUpTo(g), g.phase.p, now);
      assert AppliedUpTo(g)[g.phase.p := AppliedUpTo(g)[g.phase.p] + 1] == g.cursor;
    case Commit(_) =>
    case Stop =>
  }

  lemma {:induction false} RunKeepsView(run: seq<Group>, acts: seq<Action>, views: seq<Buckets>, clock: seq<nat>,
          partitions: nat, i: nat)
    requires IsAnalyticsRun(run, acts, views, clock, partitions) && i <= |acts| && Timed(run[i].logs)
    ensures ReplaySound(run[i])
    ensures !run[i].phase.Stopped? ==> IsGroupBy(views[i], run[i].logs, AppliedUpTo(run[i]))
  {
    if i > 0 {
      var g, a := run[i - 1], acts[i - 1];
      assert LogsGrow(g.logs, run[i].logs);
      forall m | EnvAt(g.logs, m).Some? ensures EnvAt(g.logs, m).value.emittedAt != 0 {
        EnvAtGrows(g.logs, run[i].logs, m);
      }
      RunKeepsView(run, acts, views, clock, partitions, i - 1);
      StepKeepsView(g, a, views[i - 1], clock[i - 1]);
    }
  }

  /** After any number of restarts and any interleaving of partitions, the view of a running
      process is the batch group-by of what it has consumed since it started, and every sorted
      list of the view is one and the same. */
  lemma ViewIsFunctionOfLog(run: seq<Group>, acts: seq<Action>, views: seq<Buckets>, clock: seq<nat>, partitions: nat)
    requires IsAnalyticsRun(run, acts, views, clock, partitions) && Timed(run[|acts|].logs)
        && !run[|acts|].phase.Stopped?
    ensures ReplaySound(run[|acts|])
    ensures IsGroupBy(views[|acts|], run[|acts|].logs, AppliedUpTo(run[|acts|]))
    ensures forall s, t | StrictlySorted(s) && StrictlySorted(t) && Lists(s, views[|acts|])
        && Lists(t, views[|acts|]) :: s == t
  {
    RunKeepsView(run, acts, views, clock, partitions, |acts|);
    forall s, t | StrictlySorted(s) && StrictlySorted(t) && Lists(s, views[|acts|]) && Lists(t, views[|acts|])
        ensures s == t {
      SnapshotIsUnique(s, t, views[|acts|]);
    }
  }
}

/**
 The watcher: a poller feeding raw logs into a channel of capacity 64, a stage normalising them
 into a channel of capacity 1, and a publisher that retries each event until it is acknowledged or
 the context is cancelled. In a `Config`, `normalize` is the stage's function, None for a log that is
 dropped; `publishable` says which events the publisher's validation lets through to the broker.
 */
module Watcher {
  import opened FilterMaps
  import opened Options

  const RAW_CAPACITY := 64
  const BACKOFF_INITIAL := 200
  const BACKOFF_MAX := 30_000

  datatype Config<!R, !E> = Config(normalize: R -> Option<E>, publishable: E -> bool)

  datatype Poller<R> = Waiting | Pushing(logs: seq<R>, newBlock: nat) | PollerGone

  /** `lost` counts what a cancelled goroutine had in hand when it returned. */
  datatype Normaliser<R, E> = Idle | Holding(raw: R) | Sending(event: E) | NormaliserGone(lost: nat)

  datatype Publisher<E> = Ready | Publishing(event: E) | PublisherGone(lost: nat)

  /** `enqueued` and `normalized` are everything ever sent on the two channels, of which the first
      `rawTaken` and `normTaken` have been received. `acked` are the events whose Publish returned
      nil, in order; `topic` is every write that reached the broker, by the event's position. `returned`
      says whether Run itself has returned to its caller. */
  datatype Watch<R, E> = Watch(
    lastBlock: nat,
    poller: Poller<R>,
    enqueued: seq<R>,
    rawTaken: nat,
    normaliser: Normaliser<R, E>,
    normalized: seq<E>,
    normTaken: nat,
    publisher: Publisher<E>,
    acked: seq<E>,
    topic: seq<nat>,
    cancelled: bool,
    returned: bool)

  datatype Action<R> =
    | Poll(logs: seq<R>, newBlock: nat) | PollFailed | Push | Advance | StopPoller
    | TakeRaw | Check | SendEvent | StopNormaliser
    | TakeEvent | Publish(ok: bool, written: bool) | StopPublisher
    | Cancel | Return

  function Start<R, E>(): Watch<R, E> {
    Watch(0, Waiting, [], 0, Idle, [], 0, Ready, [], [], false, false)
  }

  /** A poll under a cancelled context fails. Run returns when it has seen the cancellation and then the
      publish goroutine's end; it waits for nobody else. */
  predicate Enabled<R, E>(w: Watch<R, E>, a: Action<R>, c: Config<R, E>) {
    match a
    case Poll(_, _) => w.poller.Waiting? && !w.cancelled
    case PollFailed => w.poller.Waiting?
    case Push => w.poller.Pushing? && w.poller.logs != [] && |w.enqueued| < w.rawTaken + RAW_CAPACITY
    case Advance => w.poller.Pushing? && w.poller.logs == []
    case StopPoller => w.cancelled && (w.poller.Waiting? || (w.poller.Pushing? && w.poller.logs != []))
    case TakeRaw => w.normaliser.Idle? && (w.rawTaken < |w.enqueued| || w.poller.PollerGone?)
    case Check => w.normaliser.Holding?
    case SendEvent => w.normaliser.Sending? && |w.normalized| <= w.normTaken
    case StopNormaliser => w.normaliser.Sending? && w.cancelled
    case TakeEvent => w.publisher.Ready? && (w.normTaken < |w.normalized| || w.normaliser.NormaliserGone?)
    case Publish(ok, written) => w.publisher.Publishing? && (ok ==> written)
        && (written ==> c.publishable(w.publisher.event))
    case StopPublisher => w.publisher.Publishing? && w.cancelled
    case Cancel => !w.cancelled
    case Return => w.cancelled && w.publisher.PublisherGone? && !w.returned
  }

  function Next<R, E>(w: Watch<R, E>, a: Action<R>, c: Config<R, E>): Watch<R, E>
    requires Enabled(w, a, c)
  {
    match a
    case Poll(logs, newBlock) => w.(poller := Pushing(logs, newBlock))
    case PollFailed => w
    case Push => w.(poller := w.poller.(logs := w.poller.logs[1..]), enqueued := w.enqueued + [w.poller.logs[0]])
    case Advance => w.(poller := Waiting, lastBlock :=
        if w.poller.newBlock > w.lastBlock then w.poller.newBlock else w.lastBlock)
    case StopPoller => w.(poller := PollerGone)
    case TakeRaw =>
      if w.rawTaken < |w.enqueued| then w.(rawTaken := w.rawTaken + 1, normaliser := Holding(w.enqueued[w.rawTaken]))
      else w.(normaliser := NormaliserGone(0))
    case Check =>
      if w.cancelled then w.(normaliser := NormaliserGone(1))
      else
        (match c.normalize(w.normaliser.raw)
         case None => w.(normaliser := Idle)
         case Some(e) => w.(normaliser := Sending(e)))
    case SendEvent => w.(normaliser := Idle, normalized := w.normalized + [w.normaliser.event])
    case StopNormaliser => w.(normaliser := NormaliserGone(1))
    case TakeEvent =>
      if w.normTaken < |w.normalized|
          then w.(normTaken := w.normTaken + 1, publisher := Publishing(w.normalized[w.normTaken]))
      else w.(publisher := PublisherGone(0))
    case Publish(ok, written) =>
      var w' := if written then w.(topic := w.topic + [|w.acked|]) else w;
      if ok then w'.(acked := w.acked + [w.publisher.event], publisher := Ready)
      else if w.cancelled then w'.(publisher := PublisherGone(1))
      else w'
    case StopPublisher => w.(publisher := PublisherGone(1))
    case Cancel => w.(cancelled := true)
    case Return => w.(returned := true)
  }

  ghost predicate IsRun<R(!new), E(!new)>(run: seq<Watch<R, E>>, acts: seq<Action<R>>, c: Config<R, E>) {
    && |run| == |acts| + 1
    && forall i | 0 <= i < |acts| :: Enabled(run[i], acts[i], c) && run[i + 1] == Next(run[i], acts[i], c)
  }

  ghost predicate Reachable<R(!new), E(!new)>(w: Watch<R, E>, c: Config<R, E>) {
    exists run, acts :: IsRun(run, acts, c) && run[0] == Start() && run[|acts|] == w
  }

  // ------------------------------------------------------------ the invariant

  /** The logs the stage is through with: all it has received but the one in hand, or lost. */
  function Through<R, E>(w: Watch<R, E>): int {
    w.rawTaken - (match w.normaliser case Idle => 0 case NormaliserGone(lost) => lost case _ => 1)
  }

  ghost predicate StageSound<R, E>(w: Watch<R, E>, c: Config<R, E>) {
    && w.rawTaken <= |w.enqueued| <= w.rawTaken + RAW_CAPACITY
    && 0 <= Through(w) && w.rawTaken - Through(w) <= 1
    && w.normalized == FilterMap(c.normalize, w.enqueued[..Through(w)])
    && (w.normaliser.Holding? ==> w.normaliser.raw == w.enqueued[w.rawTaken - 1])
    && (w.normaliser.Sending? ==> c.normalize(w.enqueued[w.rawTaken - 1]) == Some(w.normaliser.event))
  }

  ghost predicate PublisherSound<R, E>(w: Watch<R, E>) {
    && w.normTaken <= |w.normalized| <= w.normTaken + 1
    && match w.publisher
       case Ready => w.acked == w.normalized[..w.normTaken]
       case Publishing(e) => w.acked + [e] == w.normalized[..w.normTaken]
       case PublisherGone(lost) => lost <= 1 && w.normTaken >= lost && w.acked == w.normalized[..w.normTaken - lost]
  }

  ghost predicate Inv<R, E>(w: Watch<R, E>, c: Config<R, E>) {
    StageSound(w, c) && PublisherSound(w) && TopicSound(w) && AckedSound(w, c) && AliveSound(w)
  }

  ghost predicate AckedSound<R, E>(w: Watch<R, E>, c: Config<R, E>) {
    forall k | 0 <= k < |w.acked| :: c.publishable(w.acked[k])
  }

  /** Nobody returns before cancellation, and Run not before the publisher. */
  predicate AliveSound<R, E>(w: Watch<R, E>) {
    && (!w.cancelled ==> !w.poller.PollerGone? && !w.normaliser.NormaliserGone? && !w.publisher.PublisherGone?)
    && (w.returned ==> w.cancelled && w.publisher.PublisherGone?)
  }

  /** An event is being published, or its publication was cut off. */
  predicate InPublication<R, E>(w: Watch<R, E>) {
    w.publisher.Publishing? || (w.publisher.PublisherGone? && w.publisher.lost > 0)
  }

  predicate TopicOrdered(topic: seq<nat>) {
    forall i, j | 0 <= i <= j < |topic| :: topic[i] <= topic[j]
  }

  predicate Covers(topic: seq<nat>, n: nat) {
    forall k | 0 <= k < n :: k in topic
  }

  predicate NotBeyond<R, E>(w: Watch<R, E>) {
    forall i | 0 <= i < |w.topic| :: w.topic[i] <= |w.acked| && (w.topic[i] == |w.acked| ==> InPublication(w))
  }

  /** The topic repeats events but never reorders or skips one: its positions never decrease, every
      acknowledged event is in it, and nothing beyond the event being published. */
  ghost predicate TopicSound<R, E>(w: Watch<R, E>) {
    TopicOrdered(w.topic) && Covers(w.topic, |w.acked|) && NotBeyond(w)
  }

  lemma WrittenKeepsTopic(topic: seq<nat>, n: nat)
    requires TopicOrdered(topic) && Covers(topic, n) && forall i | 0 <= i < |topic| :: topic[i] <= n
    ensures TopicOrdered(topic + [n]) && Covers(topic + [n], n + 1)
  {
    assert (topic + [n])[|topic|] == n;
    forall k | 0 <= k < n ensures k in topic + [n] {
      assert k in topic;
    }
  }

  lemma TopicStep<R, E>(w: Watch<R, E>, a: Action<R>, c: Config<R, E>)
    requires Enabled(w, a, c) && TopicSound(w) && (w.publisher.PublisherGone? ==> w.publisher.lost <= 1)
    ensures TopicSound(Next(w, a, c))
  {
    WrittenKeepsTopic(w.topic, |w.acked|);
    StaysWithin(w, a, c);
  }

  lemma StaysWithin<R, E>(w: Watch<R, E>, a: Action<R>, c: Config<R, E>)
    requires Enabled(w, a, c) && NotBeyond(w)
    ensures NotBeyond(Next(w, a, c))
  {
    var w' := Next(w, a, c);
    if !a.Publish? {
      assert w'.topic == w.topic && w'.acked == w.acked;
      assert InPublication(w) ==> InPublication(w');
    }
  }

  /** What the stage makes of the log it has in hand. */
  lemma InHand<R, E>(w: Watch<R, E>, c: Config<R, E>)
    requires StageSound(w, c) && (w.normaliser.Holding? || w.normaliser.Sending?)
    ensures FilterMap(c.normalize, w.enqueued[..w.rawTaken])
         == w.normalized + match c.normalize(w.enqueued[w.rawTaken - 1]) { case None => [] case Some(e) => [e] }
  {
    assert w.enqueued[..w.rawTaken] == w.enqueued[..w.rawTaken - 1] + [w.enqueued[w.rawTaken - 1]];
    FilterMapAppend(c.normalize, w.enqueued[..w.rawTaken - 1], w.enqueued[w.rawTaken - 1]);
  }

  lemma StageStep<R, E>(w: Watch<R, E>, a: Action<R>, c: Config<R, E>)
    requires StageSound(w, c) && Enabled(w, a, c)
    ensures StageSound(Next(w, a, c), c)
  {
    if a.Check? || a.SendEvent? {
      StageWorks(w, a, c);
    } else {
      StageWaits(w, a, c);
    }
  }

  lemma StageWorks<R, E>(w: Watch<R, E>, a: Action<R>, c: Config<R, E>)
    requires StageSound(w, c) && Enabled(w, a, c) && (a.Check? || a.SendEvent?)
    ensures StageSound(Next(w, a, c), c)
  {
    InHand(w, c);
  }

  lemma StageWaits<R, E>(w: Watch<R, E>, a: Action<R>, c: Config<R, E>)
    requires StageSound(w, c) && Enabled(w, a, c) && !a.Check? && !a.SendEvent?
    ensures StageSound(Next(w, a, c), c)
  {
    var w' := Next(w, a, c);
    assert Through(w') == Through(w) && w'.normalized == w.normalized;
    assert w'.enqueued[..Through(w)] == w.enqueued[..Through(w)];
  }

  lemma PublisherStep<R, E>(w: Watch<R, E>, a: Action<R>, c: Config<R, E>)
    requires PublisherSound(w) && Enabled(w, a, c)
    ensures PublisherSound(Next(w, a, c))
  {
    if a.TakeEvent? && w.normTaken < |w.normalized| {
      assert w.normalized[..w.normTaken + 1] == w.normalized[..w.normTaken] + [w.normalized[w.normTaken]];
    }
  }

  lemma StepKeepsInv<R, E>(w: Watch<R, E>, a: Action<R>, c: Config<R, E>)
    requires Inv(w, c) && Enabled(w, a, c)
    ensures Inv(Next(w, a, c), c)
  {
    StageStep(w, a, c);
    PublisherStep(w, a, c);
    TopicStep(w, a, c);
    assert AckedSound(Next(w, a, c), c);
  }

  lemma {:induction false} RunKeepsInv<R(!new), E(!new)>(run: seq<Watch<R, E>>, acts: seq<Action<R>>, c: Config<R, E>,
          i: nat)
    requires IsRun(run, acts, c) && run[0] == Start() && i <= |acts|
    ensures Inv(run[i], c)
  {
    if i > 0 {
      RunKeepsInv(run, acts, c, i - 1);
      StepKeepsInv(run[i - 1], acts[i - 1], c);
    }
  }

  lemma ReachableInv<R(!new), E(!new)>(w: Watch<R, E>, c: Config<R, E>)
    requires Reachable(w, c)
    ensures Inv(w, c)
  {
    var run, acts :| IsRun(run, acts, c) && run[0] == Start() && run[|acts|] == w;
    RunKeepsInv(run, acts, c, |acts|);
  }

  // ------------------------------------------------------------ what is published

  /** The acknowledged events are, in order and without a gap, a prefix of what the normaliser
      makes of the enqueued logs; the broker has each of them at least once, and writes come in
      the same order; each of them was publishable. */
  lemma PublishedIsPrefix<R(!new), E(!new)>(w: Watch<R, E>, c: Config<R, E>)
    requires Reachable(w, c)
    ensures w.acked <= FilterMap(c.normalize, w.enqueued)
    ensures TopicSound(w) && AckedSound(w, c)
  {
    ReachableInv(w, c);
    assert w.acked <= w.normalized;
    FilterMapMonotone(c.normalize, w.enqueued[..Through(w)], w.enqueued);
  }

  function Dropped<R, E>(normalize: R -> Option<E>, s: seq<R>): nat {
    if s == [] then 0 else Dropped(normalize, s[..|s| - 1]) + if normalize(s[|s| - 1]).None? then 1 else 0
  }

  lemma {:induction false} DroppedOrKept<R, E>(normalize: R -> Option<E>, s: seq<R>)
    ensures Dropped(normalize, s) + |FilterMap(normalize, s)| == |s|
  {
    if s != [] {
      DroppedOrKept(normalize, s[..|s| - 1]);
    }
  }

  /** The enqueued logs that have been neither filtered out nor published. */
  function Backlog<R, E>(w: Watch<R, E>, c: Config<R, E>): int
    requires 0 <= Through(w) <= |w.enqueued|
  {
    |w.enqueued| - Dropped(c.normalize, w.enqueued[..Through(w)]) - |w.acked|
  }

  predicate Drained<R, E>(w: Watch<R, E>) {
    w.rawTaken == |w.enqueued| && Through(w) == w.rawTaken && w.normTaken == |w.normalized|
    && !w.publisher.Publishing? && (w.publisher.PublisherGone? ==> w.publisher.lost == 0)
  }

  /** At any time at most 67 enqueued logs are unaccounted for: 64 in the raw channel, one in the
      stage, one in the normalised channel, one being published; none exactly when every buffer
      and hand is empty. */
  lemma BacklogBound<R(!new), E(!new)>(w: Watch<R, E>, c: Config<R, E>)
    requires Reachable(w, c)
    ensures 0 <= Through(w) <= |w.enqueued|
    ensures 0 <= Backlog(w, c) <= 67
    ensures Backlog(w, c) == 0 <==> Drained(w)
  {
    ReachableInv(w, c);
    DroppedOrKept(c.normalize, w.enqueued[..Through(w)]);
  }

  // ------------------------------------------------------------ lastBlock against the backlog

  /** The poller's comment promises that lastBlock does not advance past unpublished logs. */
  predicate AdvancesPastUnpublished<R, E>(w: Watch<R, E>, a: Action<R>, c: Config<R, E>)
    requires Enabled(w, a, c) && 0 <= Through(w) <= |w.enqueued|
  {
    a.Advance? && w.poller.newBlock > w.lastBlock && Backlog(w, c) > 0
  }

  lemma ReachableStep<R(!new), E(!new)>(w: Watch<R, E>, a: Action<R>, c: Config<R, E>) returns (w': Watch<R, E>)
    requires Reachable(w, c) && Enabled(w, a, c)
    ensures w' == Next(w, a, c) && Reachable(w', c)
  {
    var run, acts :| IsRun(run, acts, c) && run[0] == Start() && run[|acts|] == w;
    w' := Next(w, a, c);
    assert IsRun(run + [w'], acts + [a], c);
  }

  /** Pushes until the raw channel is full or the poll is through. */
  lemma {:induction false} PushMany<R(!new), E(!new)>(w: Watch<R, E>, n: nat, c: Config<R, E>) returns (w': Watch<R, E>)
    requires Reachable(w, c) && w.poller.Pushing? && n <= |w.poller.logs|
        && |w.enqueued| + n <= w.rawTaken + RAW_CAPACITY
    ensures Reachable(w', c)
    ensures w' == w.(poller := w.poller.(logs := w.poller.logs[n..]), enqueued := w.enqueued + w.poller.logs[..n])
    decreases n
  {
    if n == 0 {
      w' := w;
      assert w.enqueued + w.poller.logs[..0] == w.enqueued;
    } else {
      var v := ReachableStep(w, Push, c);
      w' := PushMany(v, n - 1, c);
      assert w.poller.logs[1..][n - 1..] == w.poller.logs[n..];
      assert w.enqueued + [w.poller.logs[0]] + w.poller.logs[1..][..n - 1] == w.enqueued + w.poller.logs[..n];
    }
  }

  /** The bound is reached, with nothing published at all while lastBlock moves to any block. */
  lemma BacklogBoundIsReached<R(!new), E(!new)>(log: R, event: E, block: nat, c: Config<R, E>) returns (w: Watch<R, E>)
    requires c.normalize(log) == Some(event) && block > 0
    ensures Reachable(w, c) && Enabled(w, Advance, c) && 0 <= Through(w) <= |w.enqueued|
    ensures AdvancesPastUnpublished(w, Advance, c) && Backlog(w, c) == 67
    ensures Next(w, Advance, c).lastBlock == block && w.acked == []
  {
    w := TwoThrough(log, event, block, c);
    w := ReachableStep(w, Push, c);
    w := ReachableStep(w, TakeRaw, c);
    w := ReachableStep(w, Check, c);
    w := PushMany(w, RAW_CAPACITY, c);
    ReachableInv(w, c);
    DroppedOrKept(c.normalize, w.enqueued[..Through(w)]);
  }

  /** Two of 67 kept logs have gone through the stage; one of them is being published. */
  lemma TwoThrough<R(!new), E(!new)>(log: R, event: E, block: nat, c: Config<R, E>) returns (w: Watch<R, E>)
    requires c.normalize(log) == Some(event)
    ensures Reachable(w, c)
    ensures w == Watch(0, Pushing(seq(RAW_CAPACITY + 1, i => log), block), [log, log], 2, Idle, [event, event], 1,
        Publishing(event), [], [], false, false)
  {
    var logs := seq(RAW_CAPACITY + 3, i => log);
    w := Start();
    assert IsRun([w], [], c);
    w := ReachableStep(w, Poll(logs, block), c);
    w := OneThrough(w, log, event, c);
    w := ReachableStep(w, TakeEvent, c);
    w := OneThrough(w, log, event, c);
    assert logs[1..][1..] == seq(RAW_CAPACITY + 1, i => log);
    assert [] + [log] + [log] == [log, log] && [] + [event] + [event] == [event, event];
  }

  /** One kept log, from the poller's hand into the normalised channel. */
  lemma OneThrough<R(!new), E(!new)>(w: Watch<R, E>, log: R, event: E, c: Config<R, E>) returns (w': Watch<R, E>)
    requires Reachable(w, c) && c.normalize(log) == Some(event) && !w.cancelled
    requires w.poller.Pushing? && w.poller.logs != [] && w.poller.logs[0] == log
    requires w.normaliser.Idle? && w.rawTaken == |w.enqueued| && w.normTaken == |w.normalized|
    ensures Reachable(w', c)
    ensures w' == w.(poller := w.poller.(logs := w.poller.logs[1..]), enqueued := w.enqueued
        + [log], rawTaken := w.rawTaken + 1, normalized := w.normalized + [event])
  {
    w' := ReachableStep(w, Push, c);
    w' := ReachableStep(w', TakeRaw, c);
    w' := ReachableStep(w', Check, c);
    w' := ReachableStep(w', SendEvent, c);
  }

  // ------------------------------------------------------------ the publish loop

  datatype PublishReply = Accepted | Refused | RefusedAndCancelled | RefusedThenCancelled

  /** The wait after failed attempt number `k`, counted from 0: doubled each time up to 30 s. */
  function Backoff(k: nat): (ms: nat)
    ensures BACKOFF_INITIAL <= ms <= BACKOFF_MAX
  {
    if k == 0 then BACKOFF_INITIAL
    else if 2 * Backoff(k - 1) > BACKOFF_MAX then BACKOFF_MAX
    else 2 * Backoff(k - 1)
  }

  /** Retries one event until the broker accepts it or the context is cancelled, here no later than
      the end of the script; never gives up for any other reason. */
  method PublishWithRetry(replies: seq<PublishReply>) returns (published: bool, attempts: nat, waits: seq<nat>)
    ensures attempts <= |replies|
    ensures published ==> attempts > 0 && replies[attempts - 1] == Accepted
    ensures !published
        ==> attempts == |replies|
            || (attempts > 0 && !replies[attempts - 1].Accepted? && !replies[attempts - 1].Refused?)
    ensures forall k | 0 <= k < attempts - 1 :: replies[k] == Refused
    ensures |waits| == if attempts > 0 && replies[attempts - 1] != Refused then attempts - 1 else attempts
    ensures forall k | 0 <= k < |waits| :: waits[k] == Backoff(k)
    ensures |waits| > 0 ==> waits[0] == 200
    ensures forall k | 0 < k < |waits| ::
      waits[k] == if 2 * waits[k - 1] <= 30_000 then 2 * waits[k - 1] else 30_000
  {
    var backoff := BACKOFF_INITIAL;
    attempts, waits, published := 0, [], false;
    while attempts < |replies|
      invariant attempts <= |replies| && |waits| == attempts && backoff == Backoff(attempts)
      invariant forall k | 0 <= k < attempts :: replies[k] == Refused
      invariant forall k | 0 <= k < |waits| :: waits[k] == Backoff(k)
    {
      var reply := replies[attempts];
      attempts := attempts + 1;
      match reply {
        case Accepted => return true, attempts, waits;
        case RefusedAndCancelled => return;
        case RefusedThenCancelled => return;
        case Refused =>
      }
      waits := waits + [backoff];
      if backoff < BACKOFF_MAX {
        backoff := backoff * 2;
        if backoff > BACKOFF_MAX {
          backoff := BACKOFF_MAX;
        }
      }
    }
  }
}

/**
 What whole runs of the watcher come to: shutting down after cancellation, draining while the broker
 is healthy, and the promise that lastBlock does not move past unpublished events.
 */
module WatcherRuns {
  import opened FilterMaps
  import opened Options
  import opened Watcher

  // ------------------------------------------------------------ a measure of the work in hand

  function PollerCost<R>(p: Poller<R>): nat {
    match p
    case PollerGone => 0
    case Waiting => 1
    case Pushing(logs, _) => 2 + 6 * |logs|
  }

  function NormaliserCost<R, E>(n: Normaliser<R, E>): nat {
    match n
    case NormaliserGone(_) => 0
    case Idle => 1
    case Sending(_) => 4
    case Holding(_) => 5
  }

  function PublisherCost<E>(p: Publisher<E>): nat {
    match p
    case PublisherGone(_) => 0
    case Ready => 1
    case Publishing(_) => 2
  }

  function ReturnCost(returned: bool): nat {
    if returned then 0 else 1
  }

  /** The steps the logs already found can still cause, and Run's return, not counting refused
      publications. */
  function Budget<R, E>(w: Watch<R, E>): int {
    PollerCost(w.poller) + 5 * (|w.enqueued| - w.rawTaken) + NormaliserCost(w.normaliser)
    + 2 * (|w.normalized| - w.normTaken) + PublisherCost(w.publisher) + ReturnCost(w.returned)
  }

  /** Steps that may repeat: polls, and refused publications while the context lives. */
  predicate Repeats<R, E>(w: Watch<R, E>, a: Action<R>) {
    a.Poll? || a.PollFailed? || a.Cancel? || (a.Publish? && !a.ok && !w.cancelled)
  }

  lemma StepSpends<R, E>(w: Watch<R, E>, a: Action<R>, c: Config<R, E>)
    requires Inv(w, c) && Enabled(w, a, c)
    ensures !Repeats(w, a) ==> Budget(Next(w, a, c)) < Budget(w)
    ensures a.PollFailed? || a.Cancel? ==> Budget(Next(w, a, c)) == Budget(w)
    ensures 0 <= Budget(w)
  {
  }

  // ------------------------------------------------------------ shutting down

  predicate AllGone<R, E>(w: Watch<R, E>) {
    w.poller.PollerGone? && w.normaliser.NormaliserGone? && w.publisher.PublisherGone?
  }

  /** The steps other than failing polls. */
  function Moves<R>(acts: seq<Action<R>>): nat {
    if acts == [] then 0 else Moves(acts[..|acts| - 1]) + if acts[|acts| - 1].PollFailed? then 0 else 1
  }

  lemma {:induction false} CancelledRunSpends<R(!new), E(!new)>(run: seq<Watch<R, E>>, acts: seq<Action<R>>,
          c: Config<R, E>, i: nat)
    requires IsRun(run, acts, c) && Inv(run[0], c) && run[0].cancelled && i <= |acts|
    ensures Inv(run[i], c) && run[i].cancelled && Budget(run[i]) + Moves(acts[..i]) <= Budget(run[0])
  {
    if i > 0 {
      CancelledRunSpends(run, acts, c, i - 1);
      StepKeepsInv(run[i - 1], acts[i - 1], c);
      StepSpends(run[i - 1], acts[i - 1], c);
      assert acts[..i][..i - 1] == acts[..i - 1];
    }
  }

  lemma StopsSomehow<R, E>(w: Watch<R, E>, c: Config<R, E>) returns (a: Action<R>)
    requires Inv(w, c) && w.cancelled && !(w.returned && AllGone(w))
    ensures Enabled(w, a, c) && !a.PollFailed?
  {
    if !w.poller.PollerGone? {
      a := if w.poller.Pushing? && w.poller.logs == [] then Advance else StopPoller;
    } else if !w.normaliser.NormaliserGone? {
      a := if w.normaliser.Idle? then TakeRaw else if w.normaliser.Holding? then Check else StopNormaliser;
    } else if !w.publisher.PublisherGone? {
      a := if w.publisher.Ready? then TakeEvent else StopPublisher;
    } else {
      a := Return;
    }
  }

  /** After cancellation, whatever the schedule and whatever the broker answers, Run returns and no
      goroutine is left blocked: failing polls apart, no more steps are taken than the work in hand
      allows, once that many are taken Run and all three goroutines have returned, and until they have
      some step is possible. */
  lemma ReturnsAfterCancel<R(!new), E(!new)>(run: seq<Watch<R, E>>, acts: seq<Action<R>>, c: Config<R, E>)
    requires IsRun(run, acts, c) && Reachable(run[0], c) && run[0].cancelled
    ensures Moves(acts) <= Budget(run[0])
    ensures Moves(acts) == Budget(run[0]) ==> run[|acts|].returned && AllGone(run[|acts|])
    ensures (forall a | Enabled(run[|acts|], a, c) :: a.PollFailed?) <==> run[|acts|].returned && AllGone(run[|acts|])
  {
    var last := run[|acts|];
    ReachableInv(run[0], c);
    CancelledRunSpends(run, acts, c, |acts|);
    assert acts[..|acts|] == acts;
    BudgetIsNatural(last, c);
    if !(last.returned && AllGone(last)) {
      var a := StopsSomehow(last, c);
    }
  }

  /** Run returns with no Publish in flight, and nothing is published afterwards. */
  lemma {:induction false} NothingPublishedAfterReturn<R(!new), E(!new)>(run: seq<Watch<R, E>>, acts: seq<Action<R>>,
          c: Config<R, E>, i: nat, j: nat)
    requires IsRun(run, acts, c) && Reachable(run[0], c) && i <= j <= |acts| && run[i].returned
    ensures run[j].returned && run[j].publisher == run[i].publisher && run[j].publisher.PublisherGone?
    ensures run[j].acked == run[i].acked && run[j].topic == run[i].topic
    decreases j
  {
    if i < j {
      NothingPublishedAfterReturn(run, acts, c, i, j - 1);
    } else {
      StaysReachable(run, acts, c, i);
      ReachableInv(run[i], c);
    }
  }

  lemma {:induction false} StaysReachable<R(!new), E(!new)>(run: seq<Watch<R, E>>, acts: seq<Action<R>>,
          c: Config<R, E>, i: nat)
    requires IsRun(run, acts, c) && Reachable(run[0], c) && i <= |acts|
    ensures Reachable(run[i], c)
  {
    if i > 0 {
      StaysReachable(run, acts, c, i - 1);
      var _ := ReachableStep(run[i - 1], acts[i - 1], c);
    }
  }

  /** Run waits for the publisher alone: it can return, the event in hand unpublished, while the poller
      and the stage are still at work. */
  lemma ReturnsBeforeTheOthers<R(!new), E(!new)>(log: R, event: E, c: Config<R, E>) returns (w: Watch<R, E>)
    requires c.normalize(log) == Some(event)
    ensures Reachable(w, c) && w.returned && w.poller.Pushing? && w.normaliser.Idle? && w.publisher == PublisherGone(1)
    ensures w.acked == [] && FilterMap(c.normalize, w.enqueued) != []
  {
    w := TwoThrough(log, event, 1, c);
    w := ReachableStep(w, Cancel, c);
    w := ReachableStep(w, StopPublisher, c);
    w := ReachableStep(w, Return, c);
    ReachableInv(w, c);
    FilterMapMonotone(c.normalize, w.enqueued[..Through(w)], w.enqueued);
  }

  lemma BudgetIsNatural<R, E>(w: Watch<R, E>, c: Config<R, E>)
    requires Inv(w, c)
    ensures 0 <= Budget(w)
  {
  }

  // ------------------------------------------------------------ what has been found

  /** The logs the poller has not pushed yet. */
  function Pending<R, E>(w: Watch<R, E>): seq<R> {
    if w.poller.Pushing? then w.poller.logs else []
  }

  /** All logs found so far, in the order they are or will be enqueued. */
  function Found<R, E>(w: Watch<R, E>): seq<R> {
    w.enqueued + Pending(w)
  }

  function KeptEvents<R, E>(w: Watch<R, E>, c: Config<R, E>): seq<E> {
    FilterMap(c.normalize, Found(w))
  }

  /** The events found but not acknowledged can all be published. */
  ghost predicate RestPublishable<R, E>(w: Watch<R, E>, c: Config<R, E>) {
    forall k | |w.acked| <= k < |KeptEvents(w, c)| :: c.publishable(KeptEvents(w, c)[k])
  }

  lemma AckedIsKept<R, E>(w: Watch<R, E>, c: Config<R, E>)
    requires Inv(w, c)
    ensures w.acked <= w.normalized <= FilterMap(c.normalize, w.enqueued) <= KeptEvents(w, c)
    ensures w.publisher.Publishing? ==> |w.acked| < |w.normalized| && w.normalized[|w.acked|] == w.publisher.event
  {
    FilterMapMonotone(c.normalize, w.enqueued[..Through(w)], w.enqueued);
    FilterMapMonotone(c.normalize, w.enqueued, Found(w));
    if w.publisher.Publishing? {
      assert (w.acked + [w.publisher.event])[|w.acked|] == w.publisher.event;
    }
  }

  /** A stage in the middle of a kept log has one more to come. */
  lemma SendingIsKept<R, E>(w: Watch<R, E>, c: Config<R, E>)
    requires Inv(w, c) && w.normaliser.Sending?
    ensures |w.normalized| < |KeptEvents(w, c)|
  {
    InHand(w, c);
    FilterMapMonotone(c.normalize, w.enqueued[..w.rawTaken], Found(w));
  }

  /** Nothing but a poll finds anything. */
  lemma StepKeepsFound<R, E>(w: Watch<R, E>, a: Action<R>, c: Config<R, E>)
    requires Inv(w, c) && Enabled(w, a, c) && !a.Poll? && !a.StopPoller?
    ensures Found(Next(w, a, c)) == Found(w)
    ensures w.acked <= Next(w, a, c).acked
  {
  }

  // ------------------------------------------------------------ draining

  /** From `w` to `w'` by steps that are neither a poll nor cancellation. */
  ghost predicate Quietly<R(!new), E(!new)>(w: Watch<R, E>, w': Watch<R, E>, c: Config<R, E>) {
    exists run, acts :: QuietRun(run, acts, w, w', c)
  }

  ghost predicate QuietRun<R(!new), E(!new)>(run: seq<Watch<R, E>>, acts: seq<Action<R>>, w: Watch<R, E>,
          w': Watch<R, E>, c: Config<R, E>) {
    && IsRun(run, acts, c) && run[0] == w && run[|acts|] == w'
    && forall i | 0 <= i < |acts| :: !acts[i].Poll? && !acts[i].Cancel?
  }

  predicate AtRest<R, E>(w: Watch<R, E>) {
    w.poller.Waiting? && Drained(w)
  }

  /** What to do next when the broker accepts everything it may accept. */
  function Onward<R, E>(w: Watch<R, E>): Action<R> {
    if w.publisher.Publishing? then Publish(true, true)
    else if w.normTaken < |w.normalized| then TakeEvent
    else if w.normaliser.Sending? then SendEvent
    else if w.normaliser.Holding? then Check
    else if w.rawTaken < |w.enqueued| then TakeRaw
    else if w.poller.Pushing? && w.poller.logs != [] then Push
    else Advance
  }

  lemma OnwardIsEnabled<R, E>(w: Watch<R, E>, c: Config<R, E>)
    requires Inv(w, c) && !w.cancelled && RestPublishable(w, c) && !AtRest(w)
    ensures Enabled(w, Onward(w), c) && !Repeats(w, Onward(w))
  {
    AckedIsKept(w, c);
    if w.publisher.Publishing? {
      assert KeptEvents(w, c)[|w.acked|] == w.publisher.event;
    }
  }

  lemma QuietStep<R(!new), E(!new)>(w: Watch<R, E>, a: Action<R>, w': Watch<R, E>, c: Config<R, E>)
    requires Enabled(w, a, c) && !a.Poll? && !a.Cancel? && Quietly(Next(w, a, c), w', c)
    ensures Quietly(w, w', c)
  {
    var run, acts :| QuietRun(run, acts, Next(w, a, c), w', c);
    assert QuietRun([w] + run, [a] + acts, w, w', c);
  }

  lemma {:induction false} Drains<R(!new), E(!new)>(w: Watch<R, E>, c: Config<R, E>) returns (w': Watch<R, E>)
    requires Inv(w, c) && !w.cancelled && RestPublishable(w, c)
    ensures Quietly(w, w', c) && AtRest(w')
    decreases Budget(w)
  {
    if AtRest(w) {
      w' := w;
      assert QuietRun([w], [], w, w, c);
    } else {
      OnwardIsEnabled(w, c);
      var a := Onward(w);
      var next := Next(w, a, c);
      StepKeepsInv(w, a, c);
      StepSpends(w, a, c);
      StepKeepsFound(w, a, c);
      assert KeptEvents(next, c) == KeptEvents(w, c) && |w.acked| <= |next.acked|;
      w' := Drains(next, c);
      QuietStep(w, a, w', c);
    }
  }

  lemma {:induction false} QuietRunKeepsFound<R(!new), E(!new)>(run: seq<Watch<R, E>>, acts: seq<Action<R>>,
          w: Watch<R, E>, w': Watch<R, E>, c: Config<R, E>, i: nat)
    requires QuietRun(run, acts, w, w', c) && Inv(w, c) && !w.cancelled && i <= |acts|
    ensures Inv(run[i], c) && !run[i].cancelled && Found(run[i]) == Found(w)
  {
    if i > 0 {
      QuietRunKeepsFound(run, acts, w, w', c, i - 1);
      StepKeepsInv(run[i - 1], acts[i - 1], c);
      StepKeepsFound(run[i - 1], acts[i - 1], c);
    }
  }

  /** With a healthy broker everything found so far can be published, and the pipeline come to rest,
      if and only if every event still to be published passes the publisher's validation. */
  lemma DrainsIffPublishable<R(!new), E(!new)>(w: Watch<R, E>, c: Config<R, E>)
    requires Reachable(w, c) && !w.cancelled
    ensures (exists w' :: Quietly(w, w', c) && AtRest(w')) <==> RestPublishable(w, c)
  {
    ReachableInv(w, c);
    if RestPublishable(w, c) {
      var w' := Drains(w, c);
    }
    if exists w' :: Quietly(w, w', c) && AtRest(w') {
      var w' :| Quietly(w, w', c) && AtRest(w');
      var run, acts :| QuietRun(run, acts, w, w', c);
      QuietRunKeepsFound(run, acts, w, w', c, |acts|);
      AtRestIsPublished(w', c);
      assert KeptEvents(w, c) == w'.acked;
    }
  }

  lemma AtRestIsPublished<R, E>(w: Watch<R, E>, c: Config<R, E>)
    requires Inv(w, c) && Drained(w)
    ensures w.acked == FilterMap(c.normalize, w.enqueued)
    ensures Pending(w) == [] ==> w.acked == KeptEvents(w, c)
  {
    assert w.enqueued[..|w.enqueued|] == w.enqueued && w.normalized[..|w.normalized|] == w.normalized;
    assert Pending(w) == [] ==> Found(w) == w.enqueued;
  }

  /** An event that fails validation is retried until cancellation: in no later state is it, or
      anything after it, published. */
  lemma UnpublishableBlocks<R(!new), E(!new)>(w: Watch<R, E>, c: Config<R, E>, k: nat)
    requires Reachable(w, c) && k < |FilterMap(c.normalize, w.enqueued)|
        && !c.publishable(FilterMap(c.normalize, w.enqueued)[k])
    ensures |w.acked| <= k
  {
    PublishedIsPrefix(w, c);
    if k < |w.acked| {
      assert false;
    }
  }

  // ------------------------------------------------------------ the promise about lastBlock

  /** The kept event `u` fails validation, and so much is kept behind it that the publisher's hand, the
      normalised channel and the stage are full before the last 65 logs have left the poller. */
  ghost predicate JammedAt<R, E>(w: Watch<R, E>, c: Config<R, E>, u: nat) {
    && |w.acked| <= u < |KeptEvents(w, c)| && !c.publishable(KeptEvents(w, c)[u])
    && |Found(w)| > RAW_CAPACITY && u + 3 <= |FilterMap(c.normalize, Found(w)[..|Found(w)| - RAW_CAPACITY - 1])|
  }

  /** The poll can never finish. */
  ghost predicate Jammed<R, E>(w: Watch<R, E>, c: Config<R, E>) {
    exists u: nat :: JammedAt(w, c, u)
  }

  /** From `w` to `w'` without finishing the poll. */
  ghost predicate During<R(!new), E(!new)>(w: Watch<R, E>, w': Watch<R, E>, c: Config<R, E>) {
    exists run, acts :: DuringRun(run, acts, w, w', c)
  }

  ghost predicate DuringRun<R(!new), E(!new)>(run: seq<Watch<R, E>>, acts: seq<Action<R>>, w: Watch<R, E>,
          w': Watch<R, E>, c: Config<R, E>) {
    && IsRun(run, acts, c) && run[0] == w && run[|acts|] == w'
    && forall i | 0 <= i < |acts| :: !acts[i].Advance?
  }

  predicate Unpublished<R, E>(w: Watch<R, E>, c: Config<R, E>) {
    |w.acked| < |FilterMap(c.normalize, w.enqueued)|
  }

  /** Whatever the schedule, when this poll moves lastBlock every kept log enqueued is published. */
  ghost predicate KeepsPromise<R(!new), E(!new)>(w: Watch<R, E>, logs: seq<R>, newBlock: nat, c: Config<R, E>)
    requires Enabled(w, Poll(logs, newBlock), c)
  {
    forall w' | During(Next(w, Poll(logs, newBlock), c), w', c) && Enabled(w', Advance, c) :: !Unpublished(w', c)
  }

  lemma {:induction false} DuringKeepsFound<R(!new), E(!new)>(run: seq<Watch<R, E>>, acts: seq<Action<R>>,
          w: Watch<R, E>, w': Watch<R, E>, c: Config<R, E>, i: nat)
    requires DuringRun(run, acts, w, w', c) && Inv(w, c) && w.poller.Pushing? && i <= |acts|
    ensures Inv(run[i], c) && w.acked <= run[i].acked
    ensures run[i].poller.PollerGone? || (run[i].poller.Pushing? && Found(run[i]) == Found(w))
  {
    if i > 0 {
      DuringKeepsFound(run, acts, w, w', c, i - 1);
      StepKeepsInv(run[i - 1], acts[i - 1], c);
      if !acts[i - 1].StopPoller? {
        StepKeepsFound(run[i - 1], acts[i - 1], c);
      }
    }
  }

  lemma PublishedPollKeeps<R(!new), E(!new)>(w: Watch<R, E>, w': Watch<R, E>, c: Config<R, E>)
    requires Inv(w, c) && w.poller.Pushing? && w.acked == KeptEvents(w, c)
    requires During(w, w', c) && Enabled(w', Advance, c)
    ensures !Unpublished(w', c)
  {
    var run, acts :| DuringRun(run, acts, w, w', c);
    DuringKeepsFound(run, acts, w, w', c, |acts|);
    AckedIsKept(w', c);
    assert Found(w') == w'.enqueued;
  }

  /** Pushes whenever there is room, and otherwise makes room without publishing the last event. */
  function Lazily<R, E>(w: Watch<R, E>): Action<R> {
    if |w.enqueued| < w.rawTaken + RAW_CAPACITY then Push
    else if w.normaliser.Idle? then TakeRaw
    else if w.normaliser.Holding? then Check
    else if |w.normalized| <= w.normTaken then SendEvent
    else if w.publisher.Ready? then TakeEvent
    else Publish(true, true)
  }

  lemma LazilyIsEnabled<R, E>(w: Watch<R, E>, c: Config<R, E>)
    requires Inv(w, c) && !w.cancelled && w.poller.Pushing? && w.poller.logs != [] && !Jammed(w, c)
    ensures var a := Lazily(w);
      && Enabled(w, a, c) && !Repeats(w, a) && !a.Advance? && !a.StopPoller?
      && (|w.acked| < |KeptEvents(w, c)| ==> |Next(w, a, c).acked| < |KeptEvents(w, c)|)
  {
    AckedIsKept(w, c);
    if Lazily(w).Publish? {
      assert KeptEvents(w, c)[|w.acked|] == w.publisher.event;
      SendingIsKept(w, c);
      FullIsJammed(w, c);
    }
  }

  /** When the publisher cannot get rid of its event and everything before it is full, the poll is stuck. */
  lemma FullIsJammed<R, E>(w: Watch<R, E>, c: Config<R, E>)
    requires Inv(w, c) && !w.cancelled && w.poller.Pushing? && w.poller.logs != [] && Lazily(w).Publish?
    requires |w.acked| < |KeptEvents(w, c)|
    ensures !c.publishable(KeptEvents(w, c)[|w.acked|]) ==> Jammed(w, c)
  {
    var n := |Found(w)| - RAW_CAPACITY - 1;
    InHand(w, c);
    assert w.enqueued[..w.rawTaken] <= Found(w)[..n];
    FilterMapMonotone(c.normalize, w.enqueued[..w.rawTaken], Found(w)[..n]);
    if !c.publishable(KeptEvents(w, c)[|w.acked|]) {
      assert JammedAt(w, c, |w.acked|);
    }
  }

  /** The last 65 logs enqueued may still be waiting; what the others became is acknowledged, in the
      publisher's hand or in the normalised channel. */
  lemma AtMostTwoAhead<R, E>(w: Watch<R, E>, c: Config<R, E>)
    requires Inv(w, c) && |w.enqueued| > RAW_CAPACITY
    ensures |FilterMap(c.normalize, w.enqueued[..|w.enqueued| - RAW_CAPACITY - 1])| <= |w.acked| + 2
  {
    FilterMapMonotone(c.normalize, w.enqueued[..|w.enqueued| - RAW_CAPACITY - 1], w.enqueued[..Through(w)]);
  }

  lemma AckedStopsBefore<R, E>(w: Watch<R, E>, c: Config<R, E>, u: nat)
    requires Inv(w, c) && u < |KeptEvents(w, c)| && !c.publishable(KeptEvents(w, c)[u])
    ensures |w.acked| <= u
  {
    AckedIsKept(w, c);
    assert forall k | 0 <= k < |w.acked| :: KeptEvents(w, c)[k] == w.acked[k];
  }

  lemma FinishedIsNotJammed<R, E>(w: Watch<R, E>, c: Config<R, E>, found: seq<R>, u: nat)
    requires Inv(w, c) && w.poller.Pushing? && w.poller.logs == [] && Found(w) == found
    requires u < |FilterMap(c.normalize, found)| && !c.publishable(FilterMap(c.normalize, found)[u])
    ensures |found| > RAW_CAPACITY ==> |FilterMap(c.normalize, found[..|found| - RAW_CAPACITY - 1])| <= u + 2
  {
    assert found == w.enqueued;
    AckedStopsBefore(w, c, u);
    if |found| > RAW_CAPACITY {
      AtMostTwoAhead(w, c);
    }
  }

  /** A jammed poll does not finish. */
  lemma JammedStays<R(!new), E(!new)>(w: Watch<R, E>, w': Watch<R, E>, c: Config<R, E>)
    requires Inv(w, c) && w.poller.Pushing? && Jammed(w, c) && During(w, w', c)
    ensures !Enabled(w', Advance, c)
  {
    var u: nat :| JammedAt(w, c, u);
    var run, acts :| DuringRun(run, acts, w, w', c);
    DuringKeepsFound(run, acts, w, w', c, |acts|);
    if Enabled(w', Advance, c) {
      FinishedIsNotJammed(w', c, Found(w), u);
    }
  }

  lemma PublishableIsNotJammed<R, E>(w: Watch<R, E>, c: Config<R, E>)
    ensures RestPublishable(w, c) ==> !Jammed(w, c)
  {
  }

  lemma DuringStep<R(!new), E(!new)>(w: Watch<R, E>, a: Action<R>, w': Watch<R, E>, c: Config<R, E>)
    requires Enabled(w, a, c) && !a.Advance? && During(Next(w, a, c), w', c)
    ensures During(w, w', c)
  {
    var run, acts :| DuringRun(run, acts, Next(w, a, c), w', c);
    assert DuringRun([w] + run, [a] + acts, w, w', c);
  }

  lemma StaysClear<R, E>(w: Watch<R, E>, a: Action<R>, c: Config<R, E>)
    requires Inv(w, c) && Enabled(w, a, c) && !a.Poll? && !a.StopPoller? && !Jammed(w, c)
    ensures !Jammed(Next(w, a, c), c) && KeptEvents(Next(w, a, c), c) == KeptEvents(w, c)
  {
    StepKeepsFound(w, a, c);
    assert forall u: nat :: JammedAt(Next(w, a, c), c, u) ==> JammedAt(w, c, u);
  }

  /** A schedule that gets the poll through with its last log still in the raw channel and, if there
      was any event to publish, with one left over. */
  lemma {:induction false} LeavesOneBehind<R(!new), E(!new)>(w: Watch<R, E>, c: Config<R, E>) returns (w': Watch<R, E>)
    requires Inv(w, c) && !w.cancelled && w.poller.Pushing? && !Jammed(w, c)
    ensures During(w, w', c) && Enabled(w', Advance, c) && Inv(w', c)
    ensures |w.acked| < |KeptEvents(w, c)| ==> Unpublished(w', c)
    ensures w.poller.logs != [] || w.rawTaken < |w.enqueued| ==> w'.rawTaken < |w'.enqueued|
    decreases Budget(w)
  {
    if w.poller.logs == [] {
      w' := w;
      assert DuringRun([w], [], w, w, c);
      assert Found(w) == w.enqueued;
    } else {
      LazilyIsEnabled(w, c);
      var a := Lazily(w);
      StepKeepsInv(w, a, c);
      StepSpends(w, a, c);
      StepKeepsFound(w, a, c);
      StaysClear(w, a, c);
      w' := LeavesOneBehind(Next(w, a, c), c);
      DuringStep(w, a, w', c);
    }
  }

  /** A poll keeps the promise under every schedule if and only if, at the moment of the poll, all kept
      events are published and the poll's own logs are all dropped by the normaliser, or the poll can
      never finish behind an event that fails validation; otherwise some schedule moves lastBlock past
      an unpublished event. */
  lemma PollKeepsPromiseIff<R(!new), E(!new)>(w: Watch<R, E>, logs: seq<R>, newBlock: nat, c: Config<R, E>)
    requires Reachable(w, c) && Enabled(w, Poll(logs, newBlock), c) && newBlock > w.lastBlock
    ensures KeepsPromise(w, logs, newBlock, c)
       <==> w.acked == FilterMap(c.normalize, w.enqueued + logs) || Jammed(Next(w, Poll(logs, newBlock), c), c)
  {
    var next := Next(w, Poll(logs, newBlock), c);
    ReachableInv(w, c);
    StepKeepsInv(w, Poll(logs, newBlock), c);
    AckedIsKept(next, c);
    if w.acked == KeptEvents(next, c) {
      forall w' | During(next, w', c) && Enabled(w', Advance, c) ensures !Unpublished(w', c) {
        PublishedPollKeeps(next, w', c);
      }
    } else if Jammed(next, c) {
      forall w' | During(next, w', c) ensures !Enabled(w', Advance, c) {
        JammedStays(next, w', c);
      }
    } else {
      var w' := LeavesOneBehind(next, c);
    }
  }

  /** Counting every log that is neither dropped nor published yet, a poll from rest leaves none behind
      under every schedule only if it found no decodable log at all. */
  lemma PollFromRestLeavesNoBacklogIff<R(!new), E(!new)>(w: Watch<R, E>, logs: seq<R>, newBlock: nat, c: Config<R, E>)
    requires Reachable(w, c) && AtRest(w) && Enabled(w, Poll(logs, newBlock), c)
    requires forall log, e | log in logs && c.normalize(log) == Some(e) :: c.publishable(e)
    ensures (forall w' | During(Next(w, Poll(logs, newBlock), c), w', c) && Enabled(w', Advance, c) ::
               0 <= Through(w') <= |w'.enqueued| && Backlog(w', c) == 0) <==> logs == []
  {
    var next := Next(w, Poll(logs, newBlock), c);
    ReachableInv(w, c);
    StepKeepsInv(w, Poll(logs, newBlock), c);
    if logs == [] {
      forall w' | During(next, w', c) && Enabled(w', Advance, c)
        ensures 0 <= Through(w') <= |w'.enqueued| && Backlog(w', c) == 0
      {
        NothingPolled(next, w', c);
      }
    } else {
      RestFromRest(w, logs, newBlock, c);
      PublishableIsNotJammed(next, c);
      var w' := LeavesOneBehind(next, c);
      DroppedOrKept(c.normalize, w'.enqueued[..Through(w')]);
    }
  }

  /** From rest, what is still to be published is what the poll brought. */
  lemma RestFromRest<R(!new), E(!new)>(w: Watch<R, E>, logs: seq<R>, newBlock: nat, c: Config<R, E>)
    requires Inv(w, c) && AtRest(w) && Enabled(w, Poll(logs, newBlock), c)
    requires forall log, e | log in logs && c.normalize(log) == Some(e) :: c.publishable(e)
    ensures KeptEvents(Next(w, Poll(logs, newBlock), c), c) == w.acked + FilterMap(c.normalize, logs)
    ensures RestPublishable(Next(w, Poll(logs, newBlock), c), c)
  {
    AtRestIsPublished(w, c);
    FilterMapConcat(c.normalize, w.enqueued, logs);
    FilterMapItems(c.normalize, logs);
    forall k | |w.acked| <= k < |w.acked + FilterMap(c.normalize, logs)|
        ensures c.publishable((w.acked + FilterMap(c.normalize, logs))[k]) {
      assert FilterMap(c.normalize, logs)[k - |w.acked|] in FilterMap(c.normalize, logs);
    }
  }

  /** With nothing in hand anywhere only cancellation can happen before the poll is through. */
  lemma {:induction false} NothingMoves<R(!new), E(!new)>(run: seq<Watch<R, E>>, acts: seq<Action<R>>, w: Watch<R, E>,
          w': Watch<R, E>, c: Config<R, E>, i: nat)
    requires DuringRun(run, acts, w, w', c) && Inv(w, c) && !w.cancelled && i <= |acts|
    requires w.poller.Pushing? && w.poller.logs == [] && Drained(w)
    ensures run[i] == w || run[i] == w.(cancelled := true)
  {
    if i > 0 {
      NothingMoves(run, acts, w, w', c, i - 1);
    }
  }

  lemma NothingPolled<R(!new), E(!new)>(w: Watch<R, E>, w': Watch<R, E>, c: Config<R, E>)
    requires Inv(w, c) && !w.cancelled && w.poller.Pushing? && w.poller.logs == [] && Drained(w) && During(w, w', c)
    ensures 0 <= Through(w') <= |w'.enqueued| && Backlog(w', c) == 0
  {
    var run, acts :| DuringRun(run, acts, w, w', c);
    NothingMoves(run, acts, w, w', c, |acts|);
    AtRestIsPublished(w, c);
    DroppedOrKept(c.normalize, w.enqueued);
    assert w.enqueued[..|w.enqueued|] == w.enqueued;
  }

  /** So from rest, a poll is safe exactly when none of its logs is kept. */
  lemma PollFromRestKeepsPromiseIff<R(!new), E(!new)>(w: Watch<R, E>, logs: seq<R>, newBlock: nat, c: Config<R, E>)
    requires Reachable(w, c) && AtRest(w) && Enabled(w, Poll(logs, newBlock), c) && newBlock > w.lastBlock
    requires forall log, e | log in logs && c.normalize(log) == Some(e) :: c.publishable(e)
    ensures KeepsPromise(w, logs, newBlock, c) <==> forall log | log in logs :: c.normalize(log).None?
  {
    ReachableInv(w, c);
    RestFromRest(w, logs, newBlock, c);
    FilterMapItems(c.normalize, logs);
    PublishableIsNotJammed(Next(w, Poll(logs, newBlock), c), c);
    PollKeepsPromiseIff(w, logs, newBlock, c);
  }
}

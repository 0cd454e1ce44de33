/**
 From the chain to the wallet_events table: a watcher whose polls each see one head publishes to the
 topic, keyed by wallet, and the persister, crashing and redelivering as it may, consumes it.
 */
module EndToEnd {
  import opened Broker
  import opened Coverage
  import opened EventIdentity
  import opened FilterMaps
  import K = KafkaConsumer
  import opened LogsFetcher
  import opened Normalizer
  import opened Options
  import opened Persister
  import opened Watcher
  import WatcherRuns

  // ------------------------------------------------------------ where the enqueued logs come from

  ghost predicate FromChain(world: World, raw: RawLog) {
    exists b: nat, log :: OnChain(world, b, log) && log.raw == raw && Number(raw) == Some(b)
  }

  /** Above block 0, a log the poller has in hand or has pushed lies between the first non-empty poll's
      block and the block lastBlock has or will have reached when this poll is through. */
  predicate InWindow(s: Live, raw: RawLog) {
    Number(raw).Some? && Number(raw).value > 0 && !s.w.poller.PollerGone? ==>
      var n := Number(raw).value;
      && s.first <= n
      && (if s.w.poller.Pushing? then n <= s.w.lastBlock || n <= s.w.poller.newBlock else n <= s.w.lastBlock)
      && (s.first == 0 && s.w.poller.Pushing? ==> s.w.poller.newBlock <= n)
  }

  ghost predicate Sourced(s: Live, world: World) {
    forall raw {:trigger Seen(s, raw)} | Seen(s, raw) :: FromChain(world, raw) && InWindow(s, raw)
  }

  lemma PolledIsSourced(s: Live, st: Step, world: World, raw: RawLog)
    requires LiveInv(s, world) && WellFormed(world.chain) && StepEnabled(s, st, world) && Sourced(s, world)
    requires st.Polled? && st.head == st.head' && Seen(StepNext(s, st, world), raw)
    ensures FromChain(world, raw) && InWindow(StepNext(s, st, world), raw)
  {
    if raw in s.w.enqueued {
      assert Seen(s, raw);
    } else {
      var got := Fetched(world.chain, s.w.lastBlock, st.head, st.head', world.addresses);
      RawsHolds(got, raw);
      var log :| log in got && log.decodable && log.raw == raw;
      var b := FetchedIsOnChain(world.chain, s.w.lastBlock, st.head, st.head', world.addresses, log);
      assert OnChain(world, b, log);
      MaxIsBelowHead(world.chain, s.w.lastBlock, st.head, st.head', world.addresses, st.newBlock);
    }
  }

  lemma OtherIsSourced(s: Live, a: Action<RawLog>, world: World, raw: RawLog)
    requires LiveInv(s, world) && StepEnabled(s, Other(a), world) && Sourced(s, world)
    requires Seen(StepNext(s, Other(a), world), raw)
    ensures FromChain(world, raw) && InWindow(StepNext(s, Other(a), world), raw)
  {
    if !a.Advance? {
      OtherKeepsSeen(s, a, world, raw);
    }
    assert Seen(s, raw);
  }

  lemma {:induction false} WatchingIsSourced(run: seq<Live>, steps: seq<Step>, world: World, i: nat)
    requires IsWatching(run, steps, world) && OneHeadEach(steps) && i <= |steps|
    ensures Sourced(run[i], world)
  {
    if i > 0 {
      WatchingIsSourced(run, steps, world, i - 1);
      WatchingKeepsInv(run, steps, world, i - 1);
      assert Coverage.Follows(run, steps, world, i - 1);
      var s, st := run[i - 1], steps[i - 1];
      forall raw | Seen(run[i], raw) ensures FromChain(world, raw) && InWindow(run[i], raw) {
        match st
        case Polled(_, _, _) => PolledIsSourced(s, st, world, raw);
        case Other(a) => OtherIsSourced(s, a, world, raw);
      }
    }
  }

  // ------------------------------------------------------------ the topic, split by wallet

  /** The messages of partition `p`: the writes whose event's wallet is keyed to it, in order.
      `emitted` is when the envelope of each event was made. */
  function PartitionLog(feed: Feed, acked: seq<Event>, topic: seq<nat>, emitted: nat -> nat, p: nat): seq<Payload>
    requires forall j | 0 <= j < |topic| :: topic[j] < |acked|
  {
    if topic == [] then []
    else
      var k := topic[|topic| - 1];
      PartitionLog(feed, acked, topic[..|topic| - 1], emitted, p)
        + if feed.partitionOf(acked[k].walletId) != p then []
          else [Json(EventToEnvelope(feed.hash, acked[k], emitted(k)))]
  }

  lemma {:induction false} MessageOf(feed: Feed, acked: seq<Event>, topic: seq<nat>, emitted: nat -> nat, p: nat,
          o: nat)
    returns (k: nat)
    requires forall j | 0 <= j < |topic| :: topic[j] < |acked|
    requires o < |PartitionLog(feed, acked, topic, emitted, p)|
    ensures k in topic && feed.partitionOf(acked[k].walletId) == p
    ensures PartitionLog(feed, acked, topic, emitted, p)[o] == Json(EventToEnvelope(feed.hash, acked[k], emitted(k)))
  {
    var n := |topic| - 1;
    if o < |PartitionLog(feed, acked, topic[..n], emitted, p)| {
      k := MessageOf(feed, acked, topic[..n], emitted, p, o);
    } else {
      k := topic[n];
    }
  }

  lemma {:induction false} OffsetOf(feed: Feed, acked: seq<Event>, topic: seq<nat>, emitted: nat -> nat, k: nat)
    returns (o: nat)
    requires (forall j | 0 <= j < |topic| :: topic[j] < |acked|) && k in topic
    ensures var log := PartitionLog(feed, acked, topic, emitted, feed.partitionOf(acked[k].walletId));
      o < |log| && log[o] == Json(EventToEnvelope(feed.hash, acked[k], emitted(k)))
  {
    var n := |topic| - 1;
    if k in topic[..n] {
      o := OffsetOf(feed, acked, topic[..n], emitted, k);
    } else {
      o := |PartitionLog(feed, acked, topic[..n], emitted, feed.partitionOf(acked[k].walletId))|;
    }
  }

  // ------------------------------------------------------------ both halves together

  /** What the watcher and the persister are run with. */
  datatype Setup = Setup(
    world: World,
    tracked: map<string, string>,
    amount: RawLog -> string,
    hash: string -> string,
    partitionOf: string -> nat,
    emitted: nat -> nat)

  function FeedOf(setup: Setup, w: Watch<RawLog, Event>): Feed {
    Feed(setup.hash, (set raw | raw in w.enqueued), setup.tracked, setup.amount, setup.partitionOf)
  }

  ghost predicate BarFree(world: World) {
    forall b: nat, log | OnChain(world, b, log) :: NoBar(log.raw.txHash) && NoBar(log.raw.logIndex)
  }

  /** A transaction hash and a log index name one log of the chain. */
  ghost predicate NamesOneLog(world: World) {
    forall b: nat, log, b': nat, log' | OnChain(world, b, log) && OnChain(world, b', log')
        && log.raw.txHash == log'.raw.txHash && log.raw.logIndex == log'.raw.logIndex ::
      log.raw == log'.raw
  }

  ghost predicate Sound(setup: Setup) {
    && Tracks(setup.world, setup.tracked, setup.amount)
    && BarFree(setup.world) && NamesOneLog(setup.world) && CollisionFree(setup.hash)
    && (forall raw :: setup.amount(raw) != "")
    && forall e: Event :: setup.world.config.publishable(e) <==> Valid(EventToEnvelope(setup.hash, e, 0))
  }

  /** The logs of the persister's group are the topic. */
  ghost predicate Delivers(setup: Setup, w: Watch<RawLog, Event>, logs: seq<seq<Payload>>) {
    && (forall j | 0 <= j < |w.topic| :: w.topic[j] < |w.acked|)
    && (forall wallet :: setup.partitionOf(wallet) < |logs|)
    && forall p | 0 <= p < |logs| :: logs[p] == PartitionLog(FeedOf(setup, w), w.acked, w.topic, setup.emitted, p)
  }

  predicate AllCommitted(g: K.Group) {
    |g.committed| == |g.logs| && forall p | 0 <= p < |g.logs| :: g.committed[p] == |g.logs[p]|
  }

  ghost predicate NoneGivenUp(g: K.Group) {
    forall p: nat, o: nat, i: nat :: !K.FailedTries(g.attempts, p, o, i, K.MAX_RETRIES)
  }

  lemma FeedIsIndexed(setup: Setup, s: Live)
    requires Sound(setup) && Sourced(s, setup.world)
    ensures Indexed(FeedOf(setup, s.w))
  {
    var feed := FeedOf(setup, s.w);
    forall r | r in feed.transfers ensures NoBar(r.txHash) && NoBar(r.logIndex) {
      assert Seen(s, r);
    }
    forall r, r' | r in feed.transfers && r' in feed.transfers && r.txHash == r'.txHash && r.logIndex == r'.logIndex
      ensures r == r'
    {
      assert Seen(s, r) && Seen(s, r');
    }
  }

  /** Every acknowledged event is an enqueued log's. */
  lemma AckedHasLog(setup: Setup, w: Watch<RawLog, Event>, k: nat) returns (r: RawLog)
    requires Sound(setup) && Reachable(w, setup.world.config) && k < |w.acked|
    ensures r in w.enqueued && EventOf(FeedOf(setup, w), r) == Some(w.acked[k])
    ensures Valid(EventToEnvelope(setup.hash, w.acked[k], 0))
  {
    PublishedIsPrefix(w, setup.world.config);
    FilterMapItems(setup.world.config.normalize, w.enqueued);
    assert w.acked[k] == FilterMap(setup.world.config.normalize, w.enqueued)[k];
    r :| r in w.enqueued && setup.world.config.normalize(r) == Some(w.acked[k]);
  }

  lemma TopicIsPublishedFrom(setup: Setup, w: Watch<RawLog, Event>, logs: seq<seq<Payload>>)
    requires Sound(setup) && Reachable(w, setup.world.config) && Delivers(setup, w, logs)
    ensures PublishedFrom(FeedOf(setup, w), logs)
  {
    var feed := FeedOf(setup, w);
    forall m | EnvAt(logs, m).Some? ensures exists r :: Carries(feed, logs, m, r) {
      var k := MessageOf(feed, w.acked, w.topic, setup.emitted, m.0, m.1);
      var r := AckedHasLog(setup, w, k);
      assert Carries(feed, logs, m, r);
    }
  }

  lemma EnqueuedIsAcked(setup: Setup, s: Live, r: RawLog) returns (k: nat)
    requires Sound(setup) && Reachable(s.w, setup.world.config) && Sourced(s, setup.world)
    requires Drained(s.w) && r in s.w.enqueued
    ensures k < |s.w.acked| && k in s.w.topic && EventOf(FeedOf(setup, s.w), r) == Some(s.w.acked[k])
  {
    assert Seen(s, r);
    var b: nat, log :| OnChain(setup.world, b, log) && log.raw == r;
    MattersIsKept(setup.world, setup.tracked, setup.amount, b, log);
    k := KeptIsOnTheTopic(s.w, setup.world.config, r);
  }

  lemma EventPersists(setup: Setup, feed: Feed, r: RawLog, emittedAt: nat)
    requires Sound(setup) && feed.amount == setup.amount && EventOf(feed, r).Some?
    ensures ValidForPersist(EventToEnvelope(feed.hash, EventOf(feed, r).value, emittedAt))
  {
    assert setup.amount(r) != "";
  }

  /** Every enqueued log of the chain has a valid message on a drained watcher's topic. */
  lemma EnqueuedHasMessage(setup: Setup, s: Live, logs: seq<seq<Payload>>, r: RawLog) returns (m: Position)
    requires Sound(setup) && Reachable(s.w, setup.world.config) && Delivers(setup, s.w, logs)
    requires Sourced(s, setup.world) && Drained(s.w) && r in s.w.enqueued
    ensures Carries(FeedOf(setup, s.w), logs, m, r) && ValidForPersist(EnvAt(logs, m).value)
  {
    var feed := FeedOf(setup, s.w);
    var k := EnqueuedIsAcked(setup, s, r);
    var o := OffsetOf(feed, s.w.acked, s.w.topic, setup.emitted, k);
    m := (setup.partitionOf(s.w.acked[k].walletId), o);
    var _ := AckedHasLog(setup, s.w, k);
    EventPersists(setup, feed, r, setup.emitted(k));
    assert logs[m.0][m.1] == Json(EventToEnvelope(feed.hash, s.w.acked[k], setup.emitted(k)));
  }

  lemma RowIsPersisted(feed: Feed, t: Table, persisted: set<RawLog>, r: RawLog)
    requires Indexed(feed) && OneRowPerLog(feed, t, persisted) && persisted <= feed.transfers
    requires r in feed.transfers && EventOf(feed, r).Some? && LogId(feed, r) in t
    ensures r in persisted
  {
    var r' :| r' in persisted && LogId(feed, r') == LogId(feed, r);
    LogsHaveOwnEventIds(feed, r, r', 0, 0);
  }

  lemma TransferIsStored(feed: Feed, run: seq<K.Group>, acts: seq<K.Action>, tables: seq<Table>, partitions: nat,
          m: Position, r: RawLog)
    requires IsPersisterRun(run, acts, tables, partitions) && KeyedByPartition(run[|acts|].logs)
    requires var g := run[|acts|];
      && AllCommitted(g) && NoneGivenUp(g) && Carries(feed, g.logs, m, r)
      && ValidForPersist(EnvAt(g.logs, m).value)
    ensures LogId(feed, r) in tables[|acts|]
  {
    CarriedId(feed, run[|acts|].logs, m, r);
    CommittedIsPersisted(run, acts, tables, partitions, m.0, m.1);
  }

  /** The table of a persister that has committed everything and given nothing up has one row for each
      log a drained watcher has enqueued, and no other. */
  lemma DrainedTable(setup: Setup, s: Live, run: seq<K.Group>, acts: seq<K.Action>, tables: seq<Table>, partitions: nat)
    requires Sound(setup) && Reachable(s.w, setup.world.config) && Sourced(s, setup.world) && Drained(s.w)
    requires IsPersisterRun(run, acts, tables, partitions) && Delivers(setup, s.w, run[|acts|].logs)
    requires AllCommitted(run[|acts|]) && NoneGivenUp(run[|acts|])
    ensures var feed := FeedOf(setup, s.w);
      OneRowPerLog(feed, tables[|acts|], feed.transfers) && |tables[|acts|]| == |feed.transfers|
  {
    var logs, t, feed := run[|acts|].logs, tables[|acts|], FeedOf(setup, s.w);
    FeedIsIndexed(setup, s);
    TopicIsPublishedFrom(setup, s.w, logs);
    PublisherKeysByPartition(feed, logs);
    var persisted := Persisted(feed, logs, Took(run[|acts|].attempts));
    assert OneRowPerLog(feed, t, persisted) && |t| == |persisted| by {
      TableIsOneRowPerLog(run, acts, tables, partitions, feed);
    }
    forall r | r in feed.transfers ensures r in persisted {
      var m := EnqueuedHasMessage(setup, s, logs, r);
      TransferIsStored(feed, run, acts, tables, partitions, m, r);
      RowIsPersisted(feed, t, persisted, r);
    }
    assert persisted == feed.transfers;
  }

  /** From the chain to the table. When the watcher is drained and the persister, after any crashes,
      redelivery and republication, has committed the whole topic without giving a message up, each
      transfer of a tracked wallet from the first non-empty poll's block up to lastBlock has exactly one
      row, with its own content, and when no poll is in progress a transfer outside that range, block 0
      apart, has none. */
  lemma OneRowPerTransfer(lives: seq<Live>, steps: seq<Step>, setup: Setup, run: seq<K.Group>, acts: seq<K.Action>,
          tables: seq<Table>, partitions: nat)
    requires Sound(setup) && IsWatching(lives, steps, setup.world) && OneHeadEach(steps) && Drained(lives[|steps|].w)
    requires IsPersisterRun(run, acts, tables, partitions) && Delivers(setup, lives[|steps|].w, run[|acts|].logs)
    requires AllCommitted(run[|acts|]) && NoneGivenUp(run[|acts|])
    ensures var s, t := lives[|steps|], tables[|acts|];
      var feed := FeedOf(setup, s.w);
      && OneRowPerLog(feed, t, feed.transfers) && |t| == |feed.transfers|
      && forall b: nat, log | b > 0 && OnChain(setup.world, b, log) ::
           && (s.first <= b <= s.w.lastBlock ==> HasItsRow(feed, t, log.raw))
           && (s.w.poller.Waiting? && HasItsRow(feed, t, log.raw) ==> s.first <= b <= s.w.lastBlock)
  {
    var s, t, feed := lives[|steps|], tables[|acts|], FeedOf(setup, lives[|steps|].w);
    WatchingIsReachable(lives, steps, setup.world, |steps|);
    WatchingIsSourced(lives, steps, setup.world, |steps|);
    DrainedTable(setup, s, run, acts, tables, partitions);
    forall b: nat, log | b > 0 && OnChain(setup.world, b, log)
      ensures s.first <= b <= s.w.lastBlock ==> HasItsRow(feed, t, log.raw)
      ensures s.w.poller.Waiting? && HasItsRow(feed, t, log.raw) ==> s.first <= b <= s.w.lastBlock
    {
      TransferHasRow(lives, steps, setup, t, b, log);
    }
  }

  /** The log's row is in the table, under its own EventID. */
  predicate HasItsRow(feed: Feed, t: Table, raw: RawLog) {
    EventOf(feed, raw).Some? && LogId(feed, raw) in t && RowIsOf(feed, t[LogId(feed, raw)], raw)
  }

  lemma TransferHasRow(lives: seq<Live>, steps: seq<Step>, setup: Setup, t: Table, b: nat, log: Log)
    requires Sound(setup) && IsWatching(lives, steps, setup.world) && OneHeadEach(steps)
    requires b > 0 && OnChain(setup.world, b, log)
    requires var feed := FeedOf(setup, lives[|steps|].w); OneRowPerLog(feed, t, feed.transfers)
    ensures var s, feed := lives[|steps|], FeedOf(setup, lives[|steps|].w);
      && (s.first <= b <= s.w.lastBlock ==> HasItsRow(feed, t, log.raw))
      && (s.w.poller.Waiting? && HasItsRow(feed, t, log.raw) ==> s.first <= b <= s.w.lastBlock)
  {
    var s, feed := lives[|steps|], FeedOf(setup, lives[|steps|].w);
    if s.first <= b <= s.w.lastBlock {
      WatchingKeepsInv(lives, steps, setup.world, |steps|);
      OneHeadLosesNothing(lives, steps, setup.world, |steps|);
      assert log.raw in feed.transfers;
    }
    if s.w.poller.Waiting? && HasItsRow(feed, t, log.raw) {
      WatchingIsSourced(lives, steps, setup.world, |steps|);
      RowIsInRange(setup, s, t, b, log);
    }
  }

  lemma RowIsInRange(setup: Setup, s: Live, t: Table, b: nat, log: Log)
    requires Sound(setup) && Sourced(s, setup.world) && s.w.poller.Waiting? && b > 0 && OnChain(setup.world, b, log)
    requires var feed := FeedOf(setup, s.w); OneRowPerLog(feed, t, feed.transfers) && HasItsRow(feed, t, log.raw)
    ensures s.first <= b <= s.w.lastBlock
  {
    var feed := FeedOf(setup, s.w);
    var r :| r in feed.transfers && LogId(feed, r) == LogId(feed, log.raw);
    SameIdSameLog(setup, s, b, log, r);
    assert Seen(s, r);
    NumberOnChain(setup.world.chain, b, log);
  }

  lemma SameIdSameLog(setup: Setup, s: Live, b: nat, log: Log, r: RawLog)
    requires Sound(setup) && Sourced(s, setup.world) && OnChain(setup.world, b, log) && r in s.w.enqueued
    requires var feed := FeedOf(setup, s.w);
      EventOf(feed, log.raw).Some? && EventOf(feed, r).Some? && LogId(feed, r) == LogId(feed, log.raw)
    ensures r == log.raw
  {
    var feed := FeedOf(setup, s.w);
    assert Seen(s, r);
    EventKeepsIdentity(feed, r);
    EventKeepsIdentity(feed, log.raw);
    EventIdIdentifiesKey(feed.hash, EventOf(feed, r).value, EventOf(feed, log.raw).value);
  }
}

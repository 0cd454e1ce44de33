/**
 The watcher on a real chain: every poll answers with what FetchLogs fetches from lastBlock on, while
 the node's head moves, also between the two queries of one poll. Which logs get published, and
 which are lost for good?
 */
module Coverage {
  import opened FilterMaps
  import opened LogsFetcher
  import opened Normalizer
  import opened Options
  import opened Watcher
  import WatcherRuns

  /** The chain as it will be in the end, of which each poll sees a prefix. */
  datatype World = World(chain: Chain, addresses: seq<string>, config: Config<RawLog, Event>)

  /** `head` and `head'` are what the latest poll's two queries saw. `first` is the block the first
      non-empty poll moved lastBlock to, 0 before that. A pair (lo, hi) in `gaps` is a poll that moved
      lastBlock to `hi` while its first query saw no block after `lo`. `whole` says whether both
      queries of some poll have covered the block lastBlock. */
  datatype Live = Live(
    w: Watch<RawLog, Event>,
    head: nat,
    head': nat,
    first: nat,
    gaps: set<(nat, nat)>,
    whole: bool)

  datatype Step = Polled(head: nat, head': nat, newBlock: nat) | Other(a: Action<RawLog>)

  const INITIAL := Live(Start(), 0, 0, 0, {}, false)

  /** The entries the poller can decode, in the order of the answer. */
  function Raws(logs: seq<Log>): seq<RawLog> {
    if logs == [] then [] else (if logs[0].decodable then [logs[0].raw] else []) + Raws(logs[1..])
  }

  ghost predicate StepEnabled(s: Live, st: Step, world: World) {
    match st
    case Polled(head, head', newBlock) =>
      && s.w.poller.Waiting? && !s.w.cancelled && s.head' <= head <= head' < |world.chain|
      && IsMaxBlock(newBlock, Fetched(world.chain, s.w.lastBlock, head, head', world.addresses))
    case Other(a) => !a.Poll? && Enabled(s.w, a, world.config)
  }

  function PollOf(s: Live, head: nat, head': nat, newBlock: nat, world: World): Action<RawLog>
    requires head <= head' < |world.chain|
  {
    Poll(Raws(Fetched(world.chain, s.w.lastBlock, head, head', world.addresses)), newBlock)
  }

  ghost function StepNext(s: Live, st: Step, world: World): Live
    requires StepEnabled(s, st, world)
  {
    match st
    case Polled(head, head', newBlock) =>
      s.(w := Next(s.w, PollOf(s, head, head', newBlock, world), world.config), head := head, head' := head')
    case Other(a) =>
      var w' := Next(s.w, a, world.config);
      if !a.Advance? then s.(w := w')
      else if s.w.poller.newBlock > s.w.lastBlock then
        s.(w := w',
           first := if s.first == 0 then s.w.poller.newBlock else s.first,
           gaps := s.gaps + {(s.head, s.w.poller.newBlock)},
           whole := s.w.poller.newBlock <= s.head && (s.w.lastBlock > 0 || s.head == s.head'))
      else s.(w := w', whole := true)
  }

  ghost predicate Follows(run: seq<Live>, steps: seq<Step>, world: World, i: nat)
    requires i < |steps| < |run|
  {
    StepEnabled(run[i], steps[i], world) && run[i + 1] == StepNext(run[i], steps[i], world)
  }

  ghost predicate IsLiveRun(run: seq<Live>, steps: seq<Step>, world: World) {
    && |run| == |steps| + 1
    && forall i {:trigger Follows(run, steps, world, i)} | 0 <= i < |steps| :: Follows(run, steps, world, i)
  }

  ghost predicate IsWatching(run: seq<Live>, steps: seq<Step>, world: World) {
    IsLiveRun(run, steps, world) && run[0] == INITIAL && WellFormed(world.chain)
  }

  predicate Received(raw: RawLog, world: World) {
    Selects(Incoming, raw, world.addresses)
  }

  predicate InGap(s: Live, b: nat) {
    exists g :: g in s.gaps && g.0 < b < g.1
  }

  // ------------------------------------------------------------ the raw logs of an answer

  lemma {:induction false} RawsHolds(logs: seq<Log>, raw: RawLog)
    ensures raw in Raws(logs) <==> exists log :: log in logs && log.decodable && log.raw == raw
  {
    if logs != [] {
      RawsHolds(logs[1..], raw);
      assert logs == [logs[0]] + logs[1..];
    }
  }

  // ------------------------------------------------------------ the invariant

  /** Where a log that is pushed or waiting to be pushed can come from. */
  predicate Placed(s: Live, raw: RawLog, world: World) {
    && Number(raw).Some? && Number(raw).value <= s.head'
    && (!Received(raw, world) ==> Number(raw).value <= s.head)
    && (!Received(raw, world) ==> !InGap(s, Number(raw).value))
  }

  predicate Seen(s: Live, raw: RawLog) {
    raw in s.w.enqueued || (s.w.poller.Pushing? && raw in s.w.poller.logs)
  }

  ghost predicate AllPlaced(s: Live, world: World) {
    forall raw {:trigger Placed(s, raw, world)} | Seen(s, raw) :: Placed(s, raw, world)
  }

  predicate HeadsSound(s: Live, world: World) {
    && s.head <= s.head' && (s.head' > 0 ==> s.head' < |world.chain|)
    && s.first <= s.w.lastBlock <= s.head' && (s.first == 0 <==> s.w.lastBlock == 0)
    && (s.w.poller.Pushing? ==> s.w.lastBlock <= s.head && s.head' < |world.chain|)
    && forall g | g in s.gaps :: 0 < g.1 <= s.w.lastBlock
  }

  /** A poll in progress: what it found is pushed or still to be pushed. */
  ghost predicate PollSound(s: Live, world: World)
    requires HeadsSound(s, world)
  {
    s.w.poller.Pushing? ==>
      var got := Fetched(world.chain, s.w.lastBlock, s.head, s.head', world.addresses);
      && IsMaxBlock(s.w.poller.newBlock, got)
      && forall log {:trigger Seen(s, log.raw)} | log in got && log.decodable :: Seen(s, log.raw)
  }

  predicate Matters(log: Log, world: World) {
    log.decodable && Tracked(log.raw, world.addresses)
  }

  /** Below lastBlock everything that matters is enqueued, but for what fell into a gap. */
  ghost predicate Below(s: Live, world: World) {
    forall b: nat, log {:trigger Settled(s, world, b, log)} :: Settled(s, world, b, log)
  }

  predicate OnChain(world: World, b: nat, log: Log) {
    b < |world.chain| && log in world.chain[b] && Matters(log, world)
  }

  predicate Settled(s: Live, world: World, b: nat, log: Log) {
    s.first > 0 && s.first <= b < s.w.lastBlock && OnChain(world, b, log) ==>
      (!Received(log.raw, world) && InGap(s, b)) || log.raw in s.w.enqueued
  }

  ghost predicate Topmost(s: Live, world: World) {
    s.whole && 0 < s.w.lastBlock < |world.chain| ==>
      forall log | log in world.chain[s.w.lastBlock] && Matters(log, world) :: log.raw in s.w.enqueued
  }

  ghost predicate LiveInv(s: Live, world: World) {
    HeadsSound(s, world) && AllPlaced(s, world) && PollSound(s, world) && Below(s, world) && Topmost(s, world)
  }

  // ------------------------------------------------------------ a poll

  lemma PolledIsPlaced(s: Live, st: Step, world: World, raw: RawLog)
    requires LiveInv(s, world) && WellFormed(world.chain) && st.Polled? && StepEnabled(s, st, world)
    requires Seen(StepNext(s, st, world), raw)
    ensures Placed(StepNext(s, st, world), raw, world)
  {
    if raw in s.w.enqueued {
      assert Placed(s, raw, world);
    } else {
      var got := Fetched(world.chain, s.w.lastBlock, st.head, st.head', world.addresses);
      RawsHolds(got, raw);
      var log :| log in got && log.decodable && log.raw == raw;
      var b := FetchedIsOnChain(world.chain, s.w.lastBlock, st.head, st.head', world.addresses, log);
    }
  }

  lemma PolledIsSound(s: Live, st: Step, world: World)
    requires LiveInv(s, world) && WellFormed(world.chain) && st.Polled? && StepEnabled(s, st, world)
    ensures var s' := StepNext(s, st, world); HeadsSound(s', world) && PollSound(s', world)
  {
    var s' := StepNext(s, st, world);
    var got := Fetched(world.chain, s.w.lastBlock, st.head, st.head', world.addresses);
    forall log | log in got && log.decodable ensures Seen(s', log.raw) {
      RawsHolds(got, log.raw);
    }
  }

  /** Enqueueing more, with lastBlock where it is, loses nothing. */
  lemma EnqueueingKeeps(s: Live, s': Live, world: World)
    requires Below(s, world) && Topmost(s, world)
    requires s'.first == s.first && s'.gaps == s.gaps && s'.whole == s.whole && s'.w.lastBlock == s.w.lastBlock
    requires forall raw | raw in s.w.enqueued :: raw in s'.w.enqueued
    ensures Below(s', world) && Topmost(s', world)
  {
    forall b: nat, log ensures Settled(s', world, b, log) {
      assert Settled(s, world, b, log);
      assert InGap(s', b) == InGap(s, b);
    }
  }

  lemma PolledKeepsInv(s: Live, st: Step, world: World)
    requires LiveInv(s, world) && WellFormed(world.chain) && st.Polled? && StepEnabled(s, st, world)
    ensures LiveInv(StepNext(s, st, world), world)
  {
    var s' := StepNext(s, st, world);
    PolledIsSound(s, st, world);
    EnqueueingKeeps(s, s', world);
    forall raw | Seen(s', raw) ensures Placed(s', raw, world) {
      PolledIsPlaced(s, st, world, raw);
    }
  }

  // ------------------------------------------------------------ pushing, and everybody else

  /** Nothing appears or, while the poll goes on, disappears. */
  lemma OtherKeepsSeen(s: Live, a: Action<RawLog>, world: World, raw: RawLog)
    requires StepEnabled(s, Other(a), world) && !a.Advance?
    ensures var s' := StepNext(s, Other(a), world);
      && (Seen(s', raw) ==> Seen(s, raw))
      && (s'.w.poller.Pushing? ==> s.w.poller.Pushing? && (Seen(s, raw) ==> Seen(s', raw)))
      && (raw in s.w.enqueued ==> raw in s'.w.enqueued)
  {
  }

  lemma OtherKeepsPlaced(s: Live, a: Action<RawLog>, world: World)
    requires LiveInv(s, world) && StepEnabled(s, Other(a), world) && !a.Advance?
    ensures AllPlaced(StepNext(s, Other(a), world), world)
  {
    var s' := StepNext(s, Other(a), world);
    forall raw | Seen(s', raw) ensures Placed(s', raw, world) {
      OtherKeepsSeen(s, a, world, raw);
      assert Placed(s, raw, world);
    }
  }

  lemma OtherKeepsPoll(s: Live, a: Action<RawLog>, world: World)
    requires LiveInv(s, world) && StepEnabled(s, Other(a), world) && !a.Advance?
    ensures var s' := StepNext(s, Other(a), world); HeadsSound(s', world) && PollSound(s', world)
  {
    var s' := StepNext(s, Other(a), world);
    if s'.w.poller.Pushing? {
      OtherKeepsSeen(s, a, world, RawLog("", "", "", [], "", "", false));
      var got := Fetched(world.chain, s.w.lastBlock, s.head, s.head', world.addresses);
      forall log | log in got && log.decodable ensures Seen(s', log.raw) {
        OtherKeepsSeen(s, a, world, log.raw);
      }
    }
  }

  lemma OtherKeepsInv(s: Live, a: Action<RawLog>, world: World)
    requires LiveInv(s, world) && StepEnabled(s, Other(a), world) && !a.Advance?
    ensures LiveInv(StepNext(s, Other(a), world), world)
  {
    var s' := StepNext(s, Other(a), world);
    OtherKeepsPlaced(s, a, world);
    OtherKeepsPoll(s, a, world);
    forall raw | raw in s.w.enqueued ensures raw in s'.w.enqueued {
      OtherKeepsSeen(s, a, world, raw);
    }
    EnqueueingKeeps(s, s', world);
  }

  // ------------------------------------------------------------ the end of a poll

  lemma AdvanceKeepsHeads(s: Live, world: World)
    requires LiveInv(s, world) && WellFormed(world.chain) && StepEnabled(s, Other(Advance), world)
    ensures HeadsSound(StepNext(s, Other(Advance), world), world)
    ensures s.w.poller.newBlock <= s.head'
        && (s.w.poller.newBlock > 0 && s.w.lastBlock == 0 ==> s.head <= s.w.poller.newBlock)
  {
    MaxIsBelowHead(world.chain, s.w.lastBlock, s.head, s.head', world.addresses, s.w.poller.newBlock);
  }

  lemma AdvanceKeepsPlaced(s: Live, world: World)
    requires LiveInv(s, world) && StepEnabled(s, Other(Advance), world)
    ensures AllPlaced(StepNext(s, Other(Advance), world), world)
  {
    var s' := StepNext(s, Other(Advance), world);
    forall raw | Seen(s', raw) ensures Placed(s', raw, world) {
      assert Placed(s, raw, world);
    }
  }

  /** What a poll from a known block has fetched is enqueued when the poll ends. */
  lemma FetchedIsEnqueued(s: Live, world: World, b: nat, log: Log)
    requires LiveInv(s, world) && WellFormed(world.chain) && StepEnabled(s, Other(Advance), world)
    requires OnChain(world, b, log)
    requires FirstBlock(s.w.lastBlock, s.head') <= b <= s.head'
    requires Received(log.raw, world) || (b <= s.head && FirstBlock(s.w.lastBlock, s.head) <= b)
    ensures log.raw in s.w.enqueued
  {
    InAnswer(world, s.w.lastBlock, s.head, s.head', b, log);
    AnswerIsEnqueued(s, world, log);
  }

  lemma InAnswer(world: World, from: nat, head: nat, head': nat, b: nat, log: Log)
    requires WellFormed(world.chain) && head <= head' < |world.chain| && OnChain(world, b, log)
    requires FirstBlock(from, head') <= b <= head'
    requires Received(log.raw, world) || FirstBlock(from, head) <= b <= head
    ensures log in Fetched(world.chain, from, head, head', world.addresses)
  {
    FetchedHolds(world.chain, from, head, head', world.addresses, b, log);
  }

  lemma AnswerIsEnqueued(s: Live, world: World, log: Log)
    requires HeadsSound(s, world) && PollSound(s, world) && StepEnabled(s, Other(Advance), world)
    requires log in Fetched(world.chain, s.w.lastBlock, s.head, s.head', world.addresses) && log.decodable
    ensures log.raw in s.w.enqueued
  {
    assert Seen(s, log.raw);
  }

  lemma SettledAfterAdvance(s: Live, world: World, b: nat, log: Log)
    requires LiveInv(s, world) && WellFormed(world.chain) && StepEnabled(s, Other(Advance), world)
    requires s.w.lastBlock < s.w.poller.newBlock <= s.head'
    ensures Settled(StepNext(s, Other(Advance), world), world, b, log)
  {
    var s' := StepNext(s, Other(Advance), world);
    assert Settled(s, world, b, log);
    GapsGrow(s, s', b);
    if s.first > 0 && s.w.lastBlock <= b < s.w.poller.newBlock && OnChain(world, b, log) {
      if Received(log.raw, world) || b <= s.head {
        FetchedIsEnqueued(s, world, b, log);
      } else {
        assert (s.head, s.w.poller.newBlock) in s'.gaps;
      }
    }
  }

  lemma GapsGrow(s: Live, s': Live, b: nat)
    requires s.gaps <= s'.gaps
    ensures InGap(s, b) ==> InGap(s', b)
  {
  }

  lemma AdvanceKeepsBelow(s: Live, world: World)
    requires LiveInv(s, world) && WellFormed(world.chain) && StepEnabled(s, Other(Advance), world)
    ensures Below(StepNext(s, Other(Advance), world), world)
  {
    var s' := StepNext(s, Other(Advance), world);
    AdvanceKeepsHeads(s, world);
    forall b: nat, log ensures Settled(s', world, b, log) {
      assert Settled(s, world, b, log);
      if s.w.poller.newBlock > s.w.lastBlock {
        SettledAfterAdvance(s, world, b, log);
      }
    }
  }

  lemma AdvanceKeepsTopmost(s: Live, world: World)
    requires LiveInv(s, world) && WellFormed(world.chain) && StepEnabled(s, Other(Advance), world)
    ensures Topmost(StepNext(s, Other(Advance), world), world)
  {
    var s' := StepNext(s, Other(Advance), world);
    AdvanceKeepsHeads(s, world);
    if s'.whole && 0 < s'.w.lastBlock < |world.chain| {
      forall log | log in world.chain[s'.w.lastBlock] && Matters(log, world) ensures log.raw in s'.w.enqueued {
        FetchedIsEnqueued(s, world, s'.w.lastBlock, log);
      }
    }
  }

  lemma StepKeepsLive(s: Live, st: Step, world: World)
    requires LiveInv(s, world) && WellFormed(world.chain) && StepEnabled(s, st, world)
    ensures LiveInv(StepNext(s, st, world), world)
  {
    match st
    case Polled(_, _, _) => PolledKeepsInv(s, st, world);
    case Other(a) =>
      if a.Advance? {
        AdvanceKeepsHeads(s, world);
        AdvanceKeepsPlaced(s, world);
        AdvanceKeepsBelow(s, world);
        AdvanceKeepsTopmost(s, world);
      } else {
        OtherKeepsInv(s, a, world);
      }
  }

  lemma {:induction false} WatchingKeepsInv(run: seq<Live>, steps: seq<Step>, world: World, i: nat)
    requires IsWatching(run, steps, world) && i <= |steps|
    ensures LiveInv(run[i], world)
  {
    if i > 0 {
      WatchingKeepsInv(run, steps, world, i - 1);
      assert Follows(run, steps, world, i - 1);
      StepKeepsLive(run[i - 1], steps[i - 1], world);
    }
  }

  lemma {:induction false} WatchingIsReachable(run: seq<Live>, steps: seq<Step>, world: World, i: nat)
    requires IsWatching(run, steps, world) && i <= |steps|
    ensures Reachable(run[i].w, world.config)
  {
    if i > 0 {
      WatchingIsReachable(run, steps, world, i - 1);
      assert Follows(run, steps, world, i - 1);
      var w' := ReachableStep(run[i - 1].w, WatchAction(run[i - 1], steps[i - 1], world), world.config);
    } else {
      assert Watcher.IsRun([INITIAL.w], [], world.config);
    }
  }

  /** A step, as a step of the watcher alone. */
  function WatchAction(s: Live, st: Step, world: World): Action<RawLog>
    requires st.Polled? ==> st.head <= st.head' < |world.chain|
  {
    match st
    case Polled(head, head', newBlock) => PollOf(s, head, head', newBlock, world)
    case Other(a) => a
  }

  // ------------------------------------------------------------ what is lost, and what is not

  /** A log that has been enqueued did not fall into a gap. */
  lemma EnqueuedIsNotInGap(s: Live, world: World, b: nat, log: Log)
    requires AllPlaced(s, world) && WellFormed(world.chain) && OnChain(world, b, log) && log.raw in s.w.enqueued
    ensures Received(log.raw, world) || !InGap(s, b)
  {
    assert Placed(s, log.raw, world);
    assert Numbered(log, b);
  }

  ghost predicate Grows(s: Live, s': Live) {
    && s.w.enqueued <= s'.w.enqueued && s.gaps <= s'.gaps
    && s.w.lastBlock <= s'.w.lastBlock && (s.first > 0 ==> s'.first == s.first)
  }

  lemma StepGrows(s: Live, st: Step, world: World)
    requires StepEnabled(s, st, world)
    ensures Grows(s, StepNext(s, st, world))
  {
  }

  lemma {:induction false} WatchingGrows(run: seq<Live>, steps: seq<Step>, world: World, i: nat, j: nat)
    requires IsWatching(run, steps, world) && i <= j <= |steps|
    ensures Grows(run[i], run[j])
    decreases j
  {
    if i < j {
      WatchingGrows(run, steps, world, i, j - 1);
      assert Follows(run, steps, world, j - 1);
      StepGrows(run[j - 1], steps[j - 1], world);
    }
  }

  /** In every reachable state, below lastBlock, exactly the outgoing logs that lie strictly between the
      head a poll's first query saw and the block that poll moved lastBlock to are missing. */
  lemma ExactlyTheGapsAreMissing(run: seq<Live>, steps: seq<Step>, world: World, i: nat, b: nat, log: Log)
    requires IsWatching(run, steps, world) && i <= |steps| && OnChain(world, b, log)
    requires run[i].first > 0 && run[i].first <= b < run[i].w.lastBlock
    ensures log.raw in run[i].w.enqueued <==> Received(log.raw, world) || !InGap(run[i], b)
  {
    WatchingKeepsInv(run, steps, world, i);
    assert Settled(run[i], world, b, log);
    if log.raw in run[i].w.enqueued {
      EnqueuedIsNotInGap(run[i], world, b, log);
    }
  }

  /** They are missing for good: such a log is enqueued at no point of the run. */
  lemma LostForGood(run: seq<Live>, steps: seq<Step>, world: World, i: nat, j: nat, b: nat, log: Log)
    requires IsWatching(run, steps, world) && i <= |steps| && j <= |steps| && OnChain(world, b, log)
    requires !Received(log.raw, world) && InGap(run[i], b)
    ensures log.raw !in run[j].w.enqueued
  {
    var last := |steps|;
    WatchingKeepsInv(run, steps, world, last);
    WatchingGrows(run, steps, world, i, last);
    WatchingGrows(run, steps, world, j, last);
    GapsGrow(run[i], run[last], b);
    if log.raw in run[j].w.enqueued {
      EnqueuedIsNotInGap(run[last], world, b, log);
    }
  }

  // ------------------------------------------------------------ a run that loses a log

  /** A node where blocks 1 and 3 hold a log for the wallet and block 2 holds one from it. */
  function LosingChain(wallet: string): Chain {
    [[], [Log(Transfer("0x1", "", wallet), true)], [Log(Transfer("0x2", wallet, ""), true)],
     [Log(Transfer("0x3", "", wallet), true)]]
  }

  lemma OneDigit(n: nat, number: string, from: string, to: string)
    requires n < 10 && number == "0x" + [HexChar(n)]
    ensures Number(Transfer(number, from, to)) == Some(n) && !Transfer(number, from, to).removed
  {
    HexRoundTrip(n);
    assert Hex(n) == [HexChar(n)];
  }

  lemma LosingNumbers(wallet: string)
    ensures var chain := LosingChain(wallet);
      && Number(chain[1][0].raw) == Some(1) && !chain[1][0].raw.removed
      && Number(chain[2][0].raw) == Some(2) && !chain[2][0].raw.removed
      && Number(chain[3][0].raw) == Some(3) && !chain[3][0].raw.removed
  {
    OneDigit(1, "0x1", "", wallet);
    OneDigit(2, "0x2", wallet, "");
    OneDigit(3, "0x3", "", wallet);
  }

  lemma FourBlocks(chain: Chain, one: Log, two: Log, three: Log)
    requires chain == [[], [one], [two], [three]]
    requires Number(one.raw) == Some(1) && Number(two.raw) == Some(2) && Number(three.raw) == Some(3)
    requires !one.raw.removed && !two.raw.removed && !three.raw.removed
    ensures WellFormed(chain)
  {
  }

  predicate OnlyIncoming(log: Log, addresses: seq<string>) {
    Selects(Incoming, log.raw, addresses) && !Selects(Outgoing, log.raw, addresses)
  }

  lemma OneLogBlock(log: Log, q: Query, addresses: seq<string>)
    ensures InBlock([log], q, addresses) == if Selects(q, log.raw, addresses) then [log] else []
  {
    assert [log][1..] == [];
  }

  lemma NoBlocks(chain: Chain, from: nat, head: nat, q: Query, addresses: seq<string>)
    requires head < |chain| && from > head
    ensures GetLogs(chain, from, head, q, addresses) == []
  {
  }

  lemma OneMoreBlock(chain: Chain, from: nat, head: nat, q: Query, addresses: seq<string>, log: Log, rest: seq<Log>)
    requires from <= head < |chain| && chain[from] == [log] && GetLogs(chain, from + 1, head, q, addresses) == rest
    ensures GetLogs(chain, from, head, q, addresses) == (if Selects(q, log.raw, addresses) then [log] else []) + rest
  {
    OneLogBlock(log, q, addresses);
  }

  /** What the two polls of the losing run fetch. */
  lemma LosingAnswers(chain: Chain, addresses: seq<string>, one: Log, two: Log, three: Log)
    requires chain == [[], [one], [two], [three]]
    requires OnlyIncoming(one, addresses) && OnlyIncoming(three, addresses) && !Selects(Incoming, two.raw, addresses)
    ensures Fetched(chain, 0, 1, 1, addresses) == [one] && Fetched(chain, 1, 1, 3, addresses) == [one, three]
  {
    NoBlocks(chain, 2, 1, Outgoing, addresses);
    OneMoreBlock(chain, 1, 1, Outgoing, addresses, one, []);
    NoBlocks(chain, 2, 1, Incoming, addresses);
    OneMoreBlock(chain, 1, 1, Incoming, addresses, one, []);
    NoBlocks(chain, 4, 3, Incoming, addresses);
    OneMoreBlock(chain, 3, 3, Incoming, addresses, three, []);
    OneMoreBlock(chain, 2, 3, Incoming, addresses, two, [three]);
    OneMoreBlock(chain, 1, 3, Incoming, addresses, one, [three]);
  }

  lemma Extend(run: seq<Live>, steps: seq<Step>, world: World, st: Step) returns (run': seq<Live>, steps': seq<Step>)
    requires IsWatching(run, steps, world) && StepEnabled(run[|steps|], st, world)
    ensures IsWatching(run', steps', world) && run'[|steps'|] == StepNext(run[|steps|], st, world)
  {
    run', steps' := run + [StepNext(run[|steps|], st, world)], steps + [st];
    forall i | 0 <= i < |steps'| ensures Follows(run', steps', world, i) {
      if i < |steps| {
        assert Follows(run, steps, world, i);
      }
    }
  }

  /** A loss does happen: when the second poll's queries see heads 1 and 3, the log in block 2 is gone. */
  lemma ALogCanBeLost(addresses: seq<string>, config: Config<RawLog, Event>)
    returns (run: seq<Live>, steps: seq<Step>, world: World, log: Log)
    requires addresses != []
    ensures IsWatching(run, steps, world) && world.addresses == addresses && world.config == config
    ensures OnChain(world, 2, log) && run[|steps|].first == 1 && run[|steps|].w.lastBlock == 3
    ensures !Received(log.raw, world) && InGap(run[|steps|], 2)
  {
    var wallet := PadAddress(addresses[0]);
    var chain := LosingChain(wallet);
    var one, two, three := chain[1][0], chain[2][0], chain[3][0];
    world, log := World(chain, addresses, config), two;
    LosingNumbers(wallet);
    FourBlocks(chain, one, two, three);
    LosingSelects(addresses);
    LosingAnswers(chain, addresses, one, two, three);
    run, steps := [INITIAL], [];
    run, steps := FirstPoll(run, steps, world, one);
    run, steps := SecondPoll(run, steps, world, one, three);
    assert (1, 3) in run[|steps|].gaps;
  }

  lemma LosingSelects(addresses: seq<string>)
    requires addresses != []
    ensures var chain := LosingChain(PadAddress(addresses[0]));
      && OnlyIncoming(chain[1][0], addresses) && OnlyIncoming(chain[3][0], addresses)
      && Selects(Outgoing, chain[2][0].raw, addresses) && !Selects(Incoming, chain[2][0].raw, addresses)
  {
    TransferSelected("0x1", addresses);
    TransferSelected("0x2", addresses);
    TransferSelected("0x3", addresses);
  }

  /** Between two polls: `enqueued` pushed, nothing else done. */
  function Resting(lastBlock: nat, enqueued: seq<RawLog>, head: nat, head': nat, gaps: set<(nat, nat)>,
          whole: bool): Live {
    Live(INITIAL.w.(lastBlock := lastBlock, enqueued := enqueued), head, head', lastBlock, gaps, whole)
  }

  function Busy(s: Live, pending: seq<RawLog>, newBlock: nat): Live {
    s.(w := s.w.(poller := Pushing(pending, newBlock)))
  }

  lemma PollOnce(run0: seq<Live>, steps0: seq<Step>, world: World, s: Live, head: nat, head': nat, newBlock: nat,
          got: seq<Log>)
    returns (run: seq<Live>, steps: seq<Step>)
    requires IsWatching(run0, steps0, world) && run0[|steps0|] == s
    requires s.w.poller.Waiting? && !s.w.cancelled && s.head' <= head <= head' < |world.chain|
    requires Fetched(world.chain, s.w.lastBlock, head, head', world.addresses) == got && IsMaxBlock(newBlock, got)
    ensures IsWatching(run, steps, world)
    ensures run[|steps|] == Busy(s.(head := head, head' := head'), Raws(got), newBlock)
  {
    run, steps := Extend(run0, steps0, world, Polled(head, head', newBlock));
  }

  lemma PushOnce(run0: seq<Live>, steps0: seq<Step>, world: World, s: Live, raw: RawLog, rest: seq<RawLog>,
          newBlock: nat)
    returns (run: seq<Live>, steps: seq<Step>)
    requires IsWatching(run0, steps0, world) && run0[|steps0|] == Busy(s, [raw] + rest, newBlock)
    requires |s.w.enqueued| < s.w.rawTaken + RAW_CAPACITY
    ensures IsWatching(run, steps, world)
    ensures run[|steps|] == Busy(s.(w := s.w.(enqueued := s.w.enqueued + [raw])), rest, newBlock)
  {
    assert ([raw] + rest)[1..] == rest;
    run, steps := Extend(run0, steps0, world, Other(Push));
  }

  lemma AdvanceOnce(run0: seq<Live>, steps0: seq<Step>, world: World, s: Live, newBlock: nat)
    returns (run: seq<Live>, steps: seq<Step>)
    requires IsWatching(run0, steps0, world) && run0[|steps0|] == Busy(s, [], newBlock) && newBlock > s.w.lastBlock
    requires s.w.poller.Waiting?
    ensures IsWatching(run, steps, world)
    ensures run[|steps|] == s.(w := s.w.(lastBlock := newBlock), first := if s.first == 0 then newBlock else s.first,
                               gaps := s.gaps + {(s.head, newBlock)},
                               whole := newBlock <= s.head && (s.w.lastBlock > 0 || s.head == s.head'))
  {
    run, steps := Extend(run0, steps0, world, Other(Advance));
  }

  lemma FirstPoll(run0: seq<Live>, steps0: seq<Step>, world: World, one: Log)
    returns (run: seq<Live>, steps: seq<Step>)
    requires IsWatching(run0, steps0, world) && run0[|steps0|] == INITIAL && |world.chain| == 4
    requires Fetched(world.chain, 0, 1, 1, world.addresses) == [one] && one.decodable && Number(one.raw) == Some(1)
    ensures IsWatching(run, steps, world) && run[|steps|] == Resting(1, [one.raw], 1, 1, {(1, 1)}, true)
  {
    RawsOfOne(one);
    OnlyOneNumber(one, 1);
    var s := INITIAL.(head := 1, head' := 1);
    run, steps := PollOnce(run0, steps0, world, INITIAL, 1, 1, 1, [one]);
    assert [one.raw] == [one.raw] + [];
    run, steps := PushOnce(run, steps, world, s, one.raw, [], 1);
    assert INITIAL.w.enqueued + [one.raw] == [one.raw];
    run, steps := AdvanceOnce(run, steps, world, s.(w := s.w.(enqueued := [one.raw])), 1);
  }

  lemma RawsOfOne(one: Log)
    requires one.decodable
    ensures Raws([one]) == [one.raw]
  {
    assert [one][1..] == [];
  }

  lemma OnlyOneNumber(one: Log, n: nat)
    requires Number(one.raw) == Some(n)
    ensures IsMaxBlock(n, [one])
  {
    assert one in [one];
  }

  lemma TwoNumbers(one: Log, three: Log)
    requires Number(one.raw) == Some(1) && Number(three.raw) == Some(3) && one.decodable && three.decodable
    ensures IsMaxBlock(3, [one, three]) && Raws([one, three]) == [one.raw] + [three.raw]
  {
    RawsOfOne(three);
    assert [one, three][1..] == [three] && three in [one, three];
  }

  lemma SecondPoll(run0: seq<Live>, steps0: seq<Step>, world: World, one: Log, three: Log)
    returns (run: seq<Live>, steps: seq<Step>)
    requires IsWatching(run0, steps0, world) && |world.chain| == 4
    requires run0[|steps0|] == Resting(1, [one.raw], 1, 1, {(1, 1)}, true)
    requires Fetched(world.chain, 1, 1, 3, world.addresses) == [one, three]
    requires one.decodable && three.decodable && Number(one.raw) == Some(1) && Number(three.raw) == Some(3)
    ensures IsWatching(run, steps, world)
    ensures run[|steps|].first == 1 && run[|steps|].w.lastBlock == 3 && run[|steps|].gaps == {(1, 1), (1, 3)}
  {
    TwoNumbers(one, three);
    var s := Resting(1, [one.raw], 1, 3, {(1, 1)}, true);
    run, steps := PollOnce(run0, steps0, world, run0[|steps0|], 1, 3, 3, [one, three]);
    run, steps := PushOnce(run, steps, world, s, one.raw, [three.raw], 3);
    var t := s.(w := s.w.(enqueued := s.w.enqueued + [one.raw]));
    assert [three.raw] == [three.raw] + [];
    run, steps := PushOnce(run, steps, world, t, three.raw, [], 3);
    run, steps := AdvanceOnce(run, steps, world, t.(w := t.w.(enqueued := t.w.enqueued + [three.raw])), 3);
  }

  // ------------------------------------------------------------ polls that see one head

  ghost predicate OneHeadEach(steps: seq<Step>) {
    forall i | 0 <= i < |steps| && steps[i].Polled? :: steps[i].head == steps[i].head'
  }

  ghost predicate NoGaps(s: Live) {
    && s.head == s.head' && (s.w.lastBlock > 0 ==> s.whole)
    && forall g | g in s.gaps :: g.1 <= g.0
  }

  lemma {:induction false} OneHeadNoGaps(run: seq<Live>, steps: seq<Step>, world: World, i: nat)
    requires IsWatching(run, steps, world) && OneHeadEach(steps) && i <= |steps|
    ensures NoGaps(run[i])
  {
    if i > 0 {
      OneHeadNoGaps(run, steps, world, i - 1);
      WatchingKeepsInv(run, steps, world, i - 1);
      assert Follows(run, steps, world, i - 1);
      StepKeepsNoGaps(run[i - 1], steps[i - 1], world);
    }
  }

  lemma StepKeepsNoGaps(s: Live, st: Step, world: World)
    requires LiveInv(s, world) && WellFormed(world.chain) && StepEnabled(s, st, world) && NoGaps(s)
    requires st.Polled? ==> st.head == st.head'
    ensures NoGaps(StepNext(s, st, world))
  {
    if st.Other? && st.a.Advance? {
      AdvanceKeepsHeads(s, world);
    }
  }

  /** When no poll sees the head move between its queries nothing is lost: everything from the first
      non-empty poll's block up to lastBlock has been enqueued, also when cancellation strikes in the
      middle of a poll; and lastBlock never goes back. */
  lemma OneHeadLosesNothing(run: seq<Live>, steps: seq<Step>, world: World, i: nat)
    requires IsWatching(run, steps, world) && OneHeadEach(steps) && i <= |steps|
    ensures forall j | 0 <= j <= i :: run[j].w.lastBlock <= run[i].w.lastBlock
    ensures forall b: nat, log | run[i].first > 0 && run[i].first <= b <= run[i].w.lastBlock
        && OnChain(world, b, log) ::
      log.raw in run[i].w.enqueued
  {
    forall j | 0 <= j <= i ensures run[j].w.lastBlock <= run[i].w.lastBlock {
      WatchingGrows(run, steps, world, j, i);
    }
    WatchingKeepsInv(run, steps, world, i);
    OneHeadNoGaps(run, steps, world, i);
    forall b: nat, log | run[i].first > 0 && run[i].first <= b <= run[i].w.lastBlock && OnChain(world, b, log)
      ensures log.raw in run[i].w.enqueued
    {
      assert Settled(run[i], world, b, log);
      assert !InGap(run[i], b);
    }
  }

  // ------------------------------------------------------------ from the chain to the topic

  /** The world of a watcher that tracks the wallets of `tracked`, all with well-formed addresses. */
  ghost predicate Tracks(world: World, tracked: map<string, string>, amount: RawLog -> string) {
    && WellFormed(world.chain)
    && (forall a | a in world.addresses :: a in tracked && IsAddress(a) && ToLower(a) == a)
    && forall raw :: world.config.normalize(raw) == NormalizeTransferLog(raw, tracked, amount(raw))
  }

  lemma SelectedBy(q: Query, raw: RawLog, addresses: seq<string>) returns (addr: string)
    requires Selects(q, raw, addresses)
    ensures addr in addresses && |raw.topics| >= 3 && raw.topics[0] == TRANSFER_TOPIC
    ensures (if q.Outgoing? then raw.topics[1] else raw.topics[2]) == PadAddress(addr)
  {
    var topic := if q.Outgoing? then raw.topics[1] else raw.topics[2];
    var k :| 0 <= k < |addresses| && Padded(addresses)[k] == topic;
    addr := addresses[k];
  }

  lemma SelectedIsKept(q: Query, raw: RawLog, addresses: seq<string>, tracked: map<string, string>, amount: string)
    requires Selects(q, raw, addresses) && !raw.removed && Number(raw).Some?
    requires forall a | a in addresses :: a in tracked && IsAddress(a) && ToLower(a) == a
    ensures NormalizeTransferLog(raw, tracked, amount).Some?
  {
    var addr := SelectedBy(q, raw, addresses);
    TransferTopicIsLower();
    FilterAgreesWithNormalizer(raw, tracked, amount, addr);
  }

  lemma TrackedBy(raw: RawLog, addresses: seq<string>) returns (q: Query)
    requires Tracked(raw, addresses)
    ensures Selects(q, raw, addresses)
  {
    if Selects(Outgoing, raw, addresses) {
      q := Outgoing;
    } else {
      q := Incoming;
    }
  }

  lemma NumberOnChain(chain: Chain, b: nat, log: Log)
    requires WellFormed(chain) && b < |chain| && log in chain[b]
    ensures Number(log.raw) == Some(b) && !log.raw.removed
  {
    assert Numbered(log, b);
  }

  /** The query's filter and the normaliser agree: what matters is never dropped. */
  lemma MattersIsKept(world: World, tracked: map<string, string>, amount: RawLog -> string, b: nat, log: Log)
    requires Tracks(world, tracked, amount) && OnChain(world, b, log)
    ensures NormalizeTransferLog(log.raw, tracked, amount(log.raw)).Some?
    ensures world.config.normalize(log.raw) == NormalizeTransferLog(log.raw, tracked, amount(log.raw))
  {
    var q := TrackedBy(log.raw, world.addresses);
    NumberOnChain(world.chain, b, log);
    SelectedIsKept(q, log.raw, world.addresses, tracked, amount(log.raw));
  }

  lemma KeptIsOnTheTopic(w: Watch<RawLog, Event>, c: Config<RawLog, Event>, raw: RawLog) returns (k: nat)
    requires Reachable(w, c) && Drained(w) && raw in w.enqueued && c.normalize(raw).Some?
    ensures k < |w.acked| && c.normalize(raw) == Some(w.acked[k]) && k in w.topic
  {
    ReachableInv(w, c);
    WatcherRuns.AtRestIsPublished(w, c);
    FilterMapHas(c.normalize, w.enqueued, raw);
    k :| 0 <= k < |w.acked| && w.acked[k] == c.normalize(raw).value;
  }

  /** Whenever buffers and hands are empty, every log that was enqueued and matters has its event
      acknowledged and on the topic, whatever the heads did. */
  lemma DrainedIsOnTheTopic(run: seq<Live>, steps: seq<Step>, world: World, tracked: map<string, string>,
          amount: RawLog -> string, i: nat, b: nat, log: Log)
    returns (k: nat)
    requires IsWatching(run, steps, world) && i <= |steps| && Drained(run[i].w) && Tracks(world, tracked, amount)
    requires OnChain(world, b, log) && log.raw in run[i].w.enqueued
    ensures k < |run[i].w.acked| && NormalizeTransferLog(log.raw, tracked, amount(log.raw)) == Some(run[i].w.acked[k])
        && k in run[i].w.topic
  {
    var w := run[i].w;
    WatchingIsReachable(run, steps, world, i);
    MattersIsKept(world, tracked, amount, b, log);
    k := KeptIsOnTheTopic(w, world.config, log.raw);
  }

  /** Together: in a drained state of a watcher whose polls each see one head, the transfers of tracked
      wallets in the blocks from the first non-empty poll up to lastBlock are all on the topic. */
  lemma EveryTransferIsOnTheTopic(run: seq<Live>, steps: seq<Step>, world: World, tracked: map<string, string>,
          amount: RawLog -> string, i: nat, b: nat, log: Log)
    returns (k: nat)
    requires IsWatching(run, steps, world) && OneHeadEach(steps) && i <= |steps| && Drained(run[i].w)
        && Tracks(world, tracked, amount)
    requires OnChain(world, b, log) && run[i].first > 0 && run[i].first <= b <= run[i].w.lastBlock
    ensures k < |run[i].w.acked| && NormalizeTransferLog(log.raw, tracked, amount(log.raw)) == Some(run[i].w.acked[k])
        && k in run[i].w.topic
  {
    OneHeadLosesNothing(run, steps, world, i);
    k := DrainedIsOnTheTopic(run, steps, world, tracked, amount, i, b, log);
  }
}

/**
 A consumer group over a partitioned log: fetch, handle with bounded retry, commit.

 One state holds the broker's side (logs, committed offsets), the process's side (cursors and
 where it stands in its loop) and the history of handler attempts. Crashes, cancellation, lost
 commits and new messages may come at any step. `Consumer`, at the end, is the loop itself.
 */
module KafkaConsumer {
  import opened Options
  import opened Broker

  const MAX_RETRIES := 3
  const INITIAL_BACKOFF := 200

  datatype Phase =
    | Stopped
    | Fetching
    | Handling(p: nat, o: nat, failed: nat)
    | Committing(p: nat, o: nat)

  /** One handler call: try number `n` (1, 2, 3) of one delivery of offset `o` of partition `p`.
      `ok` is what the handler returned, `effect` whether its write took effect. */
  datatype Attempt = Attempt(p: nat, o: nat, n: nat, ok: bool, effect: bool)

  /** `epoch` is where in the history the current process began. */
  datatype Group = Group(
    logs: seq<seq<Payload>>,
    committed: seq<nat>,
    cursor: seq<nat>,
    phase: Phase,
    attempts: seq<Attempt>,
    epoch: nat)

  datatype CommitReply = Acked | FailedButApplied | FailedAndLost

  datatype Action =
    | Append(p: nat, payload: Payload)
    | Restart
    | Fetch(p: nat)
    | Try(ok: bool, effect: bool)
    | Commit(reply: CommitReply)
    | Stop

  function Zeros(n: nat): (z: seq<nat>)
    ensures |z| == n && forall i | 0 <= i < n :: z[i] == 0
  {
    seq(n, i => 0)
  }

  function NewGroup(partitions: nat): Group {
    Group(seq(partitions, i => []), Zeros(partitions), Zeros(partitions), Stopped, [], 0)
  }

  predicate Enabled(g: Group, a: Action) {
    match a
    case Append(p, _) => p < |g.logs|
    case Restart => g.phase.Stopped?
    case Fetch(p) => g.phase.Fetching? && p < |g.logs| && p < |g.cursor| && g.cursor[p] < |g.logs[p]|
    case Try(_, _) => g.phase.Handling?
    case Commit(_) => g.phase.Committing? && g.phase.p < |g.committed|
    case Stop => !g.phase.Stopped?
  }

  function Next(g: Group, a: Action, replay: bool): Group
    requires Enabled(g, a)
  {
    match a
    case Append(p, payload) => g.(logs := g.logs[p := g.logs[p] + [payload]])
    case Restart =>
      // a replaying process joins a brand-new group, which starts at the first offset
      g.(cursor := if replay then Zeros(|g.logs|) else g.committed, phase := Fetching, epoch := |g.attempts|)
    case Fetch(p) =>
      var o := g.cursor[p];
      g.(cursor := g.cursor[p := o + 1],
         phase := if Unmarshal(g.logs[p][o]).None? then Committing(p, o) else Handling(p, o, 0))
    case Try(ok, effect) =>
      var Handling(p, o, failed) := g.phase;
      g.(attempts := g.attempts + [Attempt(p, o, failed + 1, ok, effect)],
         phase := if ok || failed + 1 == MAX_RETRIES then Committing(p, o) else Handling(p, o, failed + 1))
    case Commit(reply) =>
      if replay then g.(phase := Fetching)
      else
        var Committing(p, o) := g.phase;
        g.(committed := if reply.FailedAndLost? then g.committed else g.committed[p := o + 1],
           phase := if reply.Acked? then Fetching else Stopped)
    case Stop => g.(phase := Stopped)
  }

  ghost predicate IsRun(run: seq<Group>, acts: seq<Action>, replay: bool) {
    && |run| == |acts| + 1
    && forall i | 0 <= i < |acts| :: Enabled(run[i], acts[i]) && run[i + 1] == Next(run[i], acts[i], replay)
  }

  ghost predicate Reachable(g: Group, partitions: nat, replay: bool) {
    exists run, acts :: IsRun(run, acts, replay) && run[0] == NewGroup(partitions) && run[|acts|] == g
  }

  // ------------------------------------------------------------ the invariant

  ghost predicate Succeeded(attempts: seq<Attempt>, p: nat, o: nat) {
    exists i :: 0 <= i < |attempts| && attempts[i].p == p && attempts[i].o == o && attempts[i].ok
  }

  /** From position `i` on, tries 1..count of one delivery, back to back, all failed. */
  ghost predicate FailedTries(attempts: seq<Attempt>, p: nat, o: nat, i: nat, count: nat) {
    && i + count <= |attempts|
    && forall j | i <= j < i + count :: FailedTry(attempts[j], p, o, j - i + 1)
  }

  predicate FailedTry(a: Attempt, p: nat, o: nat, n: nat) {
    a.p == p && a.o == o && a.n == n && !a.ok
  }

  /** Why offset `o` of partition `p` may be left behind. */
  ghost predicate Disposed(g: Group, p: nat, o: nat)
    requires p < |g.logs| && o < |g.logs[p]|
  {
    || Unmarshal(g.logs[p][o]).None?
    || Succeeded(g.attempts, p, o)
    || exists i: nat :: FailedTries(g.attempts, p, o, i, MAX_RETRIES)
  }

  predicate Busy(g: Group, p: nat, o: nat) {
    (g.phase.Handling? || g.phase.Committing?) && g.phase.p == p && g.phase.o == o
  }

  ghost predicate Bounded(g: Group) {
    && |g.logs| == |g.committed| && |g.logs| == |g.cursor|
    && g.epoch <= |g.attempts|
    && forall p | 0 <= p < |g.logs| :: g.committed[p] <= |g.logs[p]| && g.cursor[p] <= |g.logs[p]|
  }

  ghost predicate PhaseSound(g: Group) {
    match g.phase
    case Handling(p, o, failed) =>
      && p < |g.logs| && o < |g.logs[p]| && Unmarshal(g.logs[p][o]).Some?
      && failed < MAX_RETRIES && g.epoch + failed <= |g.attempts|
      && FailedTries(g.attempts, p, o, |g.attempts| - failed, failed)
    case Committing(p, o) => p < |g.logs| && o < |g.logs[p]| && Disposed(g, p, o)
    case _ => true
  }

  /** While a committing process runs, its cursors are the committed offsets, but for the one
      message it has in hand. */
  ghost predicate CursorSound(g: Group)
    requires Bounded(g)
  {
    !g.phase.Stopped? ==>
      forall p {:trigger g.cursor[p]} | 0 <= p < |g.logs| ::
        g.cursor[p] == if Busy(g, p, g.committed[p]) then g.committed[p] + 1 else g.committed[p]
  }

  ghost predicate BusyAtCommitted(g: Group) {
    g.phase.Handling? || g.phase.Committing? ==> g.phase.p < |g.committed| && g.phase.o == g.committed[g.phase.p]
  }

  /** Attempts on a partition never go back, never pass the committed offset, and only the current
      message can have been tried by this process without being committed. */
  ghost predicate AttemptsSound(g: Group) {
    && AttemptsBehind(g)
    && AttemptsOrdered(g)
    && (!g.phase.Stopped? ==> forall i | g.epoch <= i < |g.attempts| :: Settled(g, g.attempts[i]))
  }

  ghost predicate AttemptsBehind(g: Group) {
    forall i | 0 <= i < |g.attempts| ::
      && g.attempts[i].p < |g.committed| && g.attempts[i].o <= g.committed[g.attempts[i].p]
      && 1 <= g.attempts[i].n <= MAX_RETRIES
  }

  ghost predicate AttemptsOrdered(g: Group) {
    forall i, j | 0 <= i < j < |g.attempts| && g.attempts[i].p == g.attempts[j].p :: g.attempts[i].o <= g.attempts[j].o
  }

  predicate Settled(g: Group, a: Attempt)
    requires a.p < |g.committed|
  {
    a.o < g.committed[a.p] || Busy(g, a.p, a.o)
  }

  ghost predicate CommittedSound(g: Group)
    requires Bounded(g)
  {
    forall p, o | 0 <= p < |g.logs| && 0 <= o < g.committed[p] :: Disposed(g, p, o)
  }

  ghost predicate Inv(g: Group) {
    Bounded(g) && PhaseSound(g) && CursorSound(g) && BusyAtCommitted(g) && AttemptsSound(g) && CommittedSound(g)
  }

  lemma DisposedStays(g: Group, a: Action, replay: bool, p: nat, o: nat)
    requires Enabled(g, a) && p < |g.logs| && o < |g.logs[p]| && Disposed(g, p, o)
    ensures var g' := Next(g, a, replay); p < |g'.logs| && o < |g'.logs[p]| && Disposed(g', p, o)
  {
    var g' := Next(g, a, replay);
    assert g.attempts <= g'.attempts && g'.logs[p][o] == g.logs[p][o];
    if Succeeded(g.attempts, p, o) {
      var i :| 0 <= i < |g.attempts| && g.attempts[i].p == p && g.attempts[i].o == o && g.attempts[i].ok;
      assert g'.attempts[i] == g.attempts[i];
    } else if exists i: nat :: FailedTries(g.attempts, p, o, i, MAX_RETRIES) {
      var i: nat :| FailedTries(g.attempts, p, o, i, MAX_RETRIES);
      assert FailedTries(g'.attempts, p, o, i, MAX_RETRIES);
    }
  }

  lemma TryKeepsPhase(g: Group, ok: bool, effect: bool)
    requires Bounded(g) && PhaseSound(g) && g.phase.Handling?
    ensures PhaseSound(Next(g, Try(ok, effect), false))
  {
    var g' := Next(g, Try(ok, effect), false);
    var Handling(p, o, failed) := g.phase;
    var last := |g.attempts|;
    assert g'.attempts[last] == Attempt(p, o, failed + 1, ok, effect);
    if ok {
      assert Succeeded(g'.attempts, p, o);
    } else if failed + 1 == MAX_RETRIES {
      assert FailedTries(g'.attempts, p, o, last - failed, MAX_RETRIES);
    }
  }

  lemma StepKeepsPhase(g: Group, a: Action)
    requires Inv(g) && Enabled(g, a)
    ensures Bounded(Next(g, a, false)) && PhaseSound(Next(g, a, false))
  {
    var g' := Next(g, a, false);
    match a
    case Try(ok, effect) => TryKeepsPhase(g, ok, effect);
    case Append(p, payload) =>
      if g.phase.Committing? {
        DisposedStays(g, a, false, g.phase.p, g.phase.o);
      }
    case _ =>
  }

  lemma StepKeepsCursor(g: Group, a: Action)
    requires Inv(g) && Enabled(g, a)
    ensures var g' := Next(g, a, false); Bounded(g') && CursorSound(g') && BusyAtCommitted(g')
  {
  }

  lemma StepKeepsBehind(g: Group, a: Action)
    requires Inv(g) && Enabled(g, a)
    ensures AttemptsBehind(Next(g, a, false))
  {
  }

  lemma StepKeepsOrder(g: Group, a: Action)
    requires Inv(g) && Enabled(g, a)
    ensures AttemptsOrdered(Next(g, a, false))
  {
  }

  lemma StepKeepsAttempts(g: Group, a: Action)
    requires Inv(g) && Enabled(g, a)
    ensures AttemptsSound(Next(g, a, false))
  {
    StepKeepsBehind(g, a);
    StepKeepsOrder(g, a);
  }

  lemma StepKeepsCommitted(g: Group, a: Action)
    requires Inv(g) && Enabled(g, a)
    ensures var g' := Next(g, a, false); Bounded(g') && CommittedSound(g')
  {
    var g' := Next(g, a, false);
    forall p, o | 0 <= p < |g'.logs| && 0 <= o < g'.committed[p] ensures Disposed(g', p, o) {
      if o < g.committed[p] || Busy(g, p, o) {
        DisposedStays(g, a, false, p, o);
      }
    }
  }

  lemma StepKeepsInv(g: Group, a: Action)
    requires Inv(g) && Enabled(g, a)
    ensures Inv(Next(g, a, false))
  {
    StepKeepsPhase(g, a);
    StepKeepsCursor(g, a);
    StepKeepsAttempts(g, a);
    StepKeepsCommitted(g, a);
  }

  lemma {:induction false} RunKeepsInv(run: seq<Group>, acts: seq<Action>, i: nat)
    requires IsRun(run, acts, false) && Inv(run[0]) && i <= |acts|
    ensures Inv(run[i])
  {
    if i > 0 {
      RunKeepsInv(run, acts, i - 1);
      StepKeepsInv(run[i - 1], acts[i - 1]);
    }
  }

  lemma ReachableInv(g: Group, partitions: nat)
    requires Reachable(g, partitions, false)
    ensures Inv(g)
  {
    var run, acts :| IsRun(run, acts, false) && run[0] == NewGroup(partitions) && run[|acts|] == g;
    RunKeepsInv(run, acts, |acts|);
  }

  // ------------------------------------------------------------ what a run guarantees

  /** No committed offset was left behind without a reason: it was undecodable, or handled, or it
      failed three tries in a row. */
  lemma CommittedOffsetsAreDisposed(g: Group, partitions: nat, p: nat, o: nat)
    requires Reachable(g, partitions, false) && p < |g.committed| && o < g.committed[p]
    ensures p < |g.logs| && o < |g.logs[p]| && Disposed(g, p, o)
  {
    ReachableInv(g, partitions);
  }

  ghost predicate Advances(g: Group, g': Group) {
    && |g.logs| == |g'.logs| && (forall p | 0 <= p < |g.logs| :: g.logs[p] <= g'.logs[p])
    && |g.committed| == |g'.committed| && (forall p | 0 <= p < |g.committed| :: g.committed[p] <= g'.committed[p])
    && g.attempts <= g'.attempts
  }

  lemma StepAdvances(g: Group, a: Action)
    requires Inv(g) && Enabled(g, a)
    ensures Advances(g, Next(g, a, false))
  {
  }

  lemma AdvancesThrough(g: Group, g': Group, g'': Group)
    requires Advances(g, g') && Advances(g', g'')
    ensures Advances(g, g'')
  {
    forall p | 0 <= p < |g.logs| ensures g.logs[p] <= g''.logs[p] {
      assert g.logs[p] <= g'.logs[p] <= g''.logs[p];
    }
  }

  lemma RunAdvances(run: seq<Group>, acts: seq<Action>, partitions: nat, i: nat)
    requires IsRun(run, acts, false) && run[0] == NewGroup(partitions) && i < |acts|
    ensures Advances(run[i], run[i + 1])
  {
    RunKeepsInv(run, acts, i);
    StepAdvances(run[i], acts[i]);
  }

  /** Committed offsets never decrease, and logs and history only grow. */
  lemma {:induction false} CommitsNeverDecrease(run: seq<Group>, acts: seq<Action>, partitions: nat, i: nat, j: nat)
    requires IsRun(run, acts, false) && run[0] == NewGroup(partitions) && i <= j <= |acts|
    ensures Advances(run[i], run[j])
    decreases j
  {
    if i < j {
      CommitsNeverDecrease(run, acts, partitions, i, j - 1);
      RunAdvances(run, acts, partitions, j - 1);
      AdvancesThrough(run[i], run[j - 1], run[j]);
    }
  }

  /** A handled or tried message whose offset is not committed yet. */
  predicate Uncommitted(g: Group, i: nat) {
    i < |g.attempts| && g.attempts[i].p < |g.committed| && g.attempts[i].o >= g.committed[g.attempts[i].p]
  }

  ghost predicate AtMostOneUncommitted(g: Group, from: nat) {
    forall i: nat, j: nat | from <= i && from <= j && Uncommitted(g, i) && Uncommitted(g, j) ::
      g.attempts[i].p == g.attempts[j].p && g.attempts[i].o == g.attempts[j].o
  }

  /** In each partition only the committed offset itself can have been tried without being
      committed, and one process leaves at most one such message over all partitions. */
  lemma OneInFlight(g: Group, partitions: nat)
    requires Reachable(g, partitions, false)
    ensures forall i: nat | Uncommitted(g, i) :: g.attempts[i].o == g.committed[g.attempts[i].p]
    ensures !g.phase.Stopped? ==> AtMostOneUncommitted(g, g.epoch)
  {
    ReachableInv(g, partitions);
  }

  lemma StepKeepsOneInFlight(g: Group, a: Action)
    requires Inv(g) && Enabled(g, a) && AtMostOneUncommitted(g, g.epoch)
    ensures AtMostOneUncommitted(Next(g, a, false), Next(g, a, false).epoch)
  {
    StepKeepsInv(g, a);
  }

  lemma {:induction false} RunKeepsOneInFlight(run: seq<Group>, acts: seq<Action>, partitions: nat, i: nat)
    requires IsRun(run, acts, false) && run[0] == NewGroup(partitions) && i <= |acts|
    ensures AtMostOneUncommitted(run[i], run[i].epoch)
  {
    if i > 0 {
      RunKeepsOneInFlight(run, acts, partitions, i - 1);
      RunKeepsInv(run, acts, i - 1);
      StepKeepsOneInFlight(run[i - 1], acts[i - 1]);
    }
  }

  /** The process running at step `i`, dead or alive, never has more than one message tried and
      uncommitted, neither then nor at any later point `j` of the run. */
  lemma OneInFlightPerProcess(run: seq<Group>, acts: seq<Action>, partitions: nat, i: nat, j: nat, k: nat, l: nat)
    requires IsRun(run, acts, false) && run[0] == NewGroup(partitions) && i <= j <= |acts|
    requires run[i].epoch <= k < |run[i].attempts| && run[i].epoch <= l < |run[i].attempts|
    requires Uncommitted(run[j], k) && Uncommitted(run[j], l)
    ensures run[j].attempts[k].p == run[j].attempts[l].p && run[j].attempts[k].o == run[j].attempts[l].o
  {
    RunKeepsOneInFlight(run, acts, partitions, i);
    CommitsNeverDecrease(run, acts, partitions, i, j);
    assert Uncommitted(run[i], k) && Uncommitted(run[i], l);
  }

  lemma ReachableStep(g: Group, partitions: nat, replay: bool, a: Action) returns (g': Group)
    requires Reachable(g, partitions, replay) && Enabled(g, a)
    ensures g' == Next(g, a, replay) && Reachable(g', partitions, replay)
  {
    var run, acts :| IsRun(run, acts, replay) && run[0] == NewGroup(partitions) && run[|acts|] == g;
    g' := Next(g, a, replay);
    assert IsRun(run + [g'], acts + [a], replay);
  }

  const SAMPLE := Json(Envelope("e", 1, "ethereum", "transfer", "incoming", "w", "USDC", "0xc", "1.0", "0xt", 1, 1))

  /** Two crashes leave two partitions each with a handled message that is not committed. */
  lemma TwoPartitionsTwoUncommitted(partitions: nat) returns (g: Group)
    requires partitions >= 2
    ensures Reachable(g, partitions, false) && !AtMostOneUncommitted(g, 0)
  {
    var start := NewGroup(partitions);
    assert IsRun([start], [], false);
    g := ReachableStep(start, partitions, false, Append(0, SAMPLE));
    g := ReachableStep(g, partitions, false, Append(1, SAMPLE));
    g := ReachableStep(g, partitions, false, Restart);
    g := ReachableStep(g, partitions, false, Fetch(0));
    g := ReachableStep(g, partitions, false, Try(true, true));
    g := ReachableStep(g, partitions, false, Stop);
    g := ReachableStep(g, partitions, false, Restart);
    g := ReachableStep(g, partitions, false, Fetch(1));
    g := ReachableStep(g, partitions, false, Try(true, true));
    assert Uncommitted(g, 0) && Uncommitted(g, 1);
  }

  /** Across crashes, "at most one message is processed but not committed" holds of every run
      exactly when the topic has no more than one partition. */
  lemma OneUncommittedIffOnePartition(partitions: nat)
    ensures (forall g | Reachable(g, partitions, false) :: AtMostOneUncommitted(g, 0)) <==> partitions <= 1
  {
    if partitions >= 2 {
      var g := TwoPartitionsTwoUncommitted(partitions);
    } else {
      forall g | Reachable(g, partitions, false) ensures AtMostOneUncommitted(g, 0) {
        OneInFlight(g, partitions);
        PartitionsFixed(g, partitions, false);
      }
    }
  }

  lemma PartitionsFixed(g: Group, partitions: nat, replay: bool)
    requires Reachable(g, partitions, replay)
    ensures |g.logs| == |g.committed| == |g.cursor| == partitions
  {
    var run, acts :| IsRun(run, acts, replay) && run[0] == NewGroup(partitions) && run[|acts|] == g;
    PartitionsFixedInRun(run, acts, partitions, replay, |acts|);
  }

  lemma {:induction false} PartitionsFixedInRun(run: seq<Group>, acts: seq<Action>, partitions: nat, replay: bool,
          i: nat)
    requires IsRun(run, acts, replay) && run[0] == NewGroup(partitions) && i <= |acts|
    ensures |run[i].logs| == |run[i].committed| == |run[i].cursor| == partitions
  {
    if i > 0 {
      PartitionsFixedInRun(run, acts, partitions, replay, i - 1);
    }
  }

  // ------------------------------------------------------------ running again on the same reader

  /** A step of the group, or another Run on a consumer still open, whose reader goes on from its own
      position instead of the committed offsets. */
  datatype Move = Step(a: Action) | Resume

  /** `dropped` are the messages in the handler's hands when this reader's runs were cut off, `passed`
      those a later Run has left behind. */
  datatype Life = Life(g: Group, dropped: set<(nat, nat)>, passed: set<(nat, nat)>)

  predicate CanMove(l: Life, m: Move) {
    match m
    case Step(a) => Enabled(l.g, a)
    case Resume => l.g.phase.Stopped?
  }

  function Moved(l: Life, m: Move, replay: bool): Life
    requires CanMove(l, m)
  {
    match m
    case Resume => l.(g := l.g.(phase := Fetching), passed := l.passed + l.dropped)
    case Step(a) =>
      l.(g := Next(l.g, a, replay),
         dropped := if a.Restart? then {}
                    else if a.Stop? && l.g.phase.Handling? then l.dropped + {(l.g.phase.p, l.g.phase.o)}
                    else l.dropped)
  }

  ghost predicate Follows(run: seq<Life>, moves: seq<Move>, replay: bool, i: nat)
    requires i < |moves| < |run|
  {
    CanMove(run[i], moves[i]) && run[i + 1] == Moved(run[i], moves[i], replay)
  }

  ghost predicate IsLife(run: seq<Life>, moves: seq<Move>, replay: bool) {
    && |run| == |moves| + 1 && run[0] == Life(NewGroup(|run[0].g.logs|), {}, {})
    && forall i {:trigger Follows(run, moves, replay, i)} | 0 <= i < |moves| :: Follows(run, moves, replay, i)
  }

  predicate RunOnce(moves: seq<Move>) {
    Resume !in moves
  }

  ghost predicate CursorAhead(g: Group)
    requires Bounded(g)
  {
    && (forall p | 0 <= p < |g.logs| :: g.committed[p] <= g.cursor[p])
    && (g.phase.Handling? || g.phase.Committing?
        ==> g.phase.p < |g.logs| && g.committed[g.phase.p] <= g.phase.o && g.cursor[g.phase.p] == g.phase.o + 1)
  }

  predicate InHand(l: Life, p: nat, o: nat) {
    || (l.g.phase.Handling? && Busy(l.g, p, o))
    || (l.g.phase.Stopped? && (p, o) in l.dropped)
  }

  /** What the reader has fetched is disposed of, passed over, or still in hand. */
  ghost predicate FetchedSound(l: Life)
    requires Bounded(l.g)
  {
    forall p, o | 0 <= p < |l.g.logs| && 0 <= o < l.g.cursor[p] ::
      Disposed(l.g, p, o) || (p, o) in l.passed || InHand(l, p, o)
  }

  /** What is committed is disposed of or passed over. */
  ghost predicate LeftSound(l: Life)
    requires Bounded(l.g)
  {
    forall p, o | 0 <= p < |l.g.logs| && 0 <= o < l.g.committed[p] :: Disposed(l.g, p, o) || (p, o) in l.passed
  }

  ghost predicate LifeInv(l: Life) {
    Bounded(l.g) && PhaseSound(l.g) && CursorAhead(l.g) && FetchedSound(l) && LeftSound(l)
  }

  lemma MoveKeepsBounded(l: Life, m: Move)
    requires LifeInv(l) && CanMove(l, m)
    ensures Bounded(Moved(l, m, false).g)
  {
  }

  lemma MoveKeepsCursor(l: Life, m: Move)
    requires LifeInv(l) && CanMove(l, m)
    ensures var g' := Moved(l, m, false).g; Bounded(g') && CursorAhead(g')
  {
    MoveKeepsBounded(l, m);
    match m
    case Resume =>
    case Step(a) =>
      match a
      case Commit(_) => assert Moved(l, m, false).g.cursor == l.g.cursor;
      case _ =>
  }

  lemma MoveKeepsPhase(l: Life, m: Move)
    requires LifeInv(l) && CanMove(l, m)
    ensures PhaseSound(Moved(l, m, false).g)
  {
    match m
    case Resume =>
    case Step(a) =>
      match a
      case Try(ok, effect) => TryKeepsPhase(l.g, ok, effect);
      case Append(p, payload) =>
        if l.g.phase.Committing? {
          DisposedStays(l.g, a, false, l.g.phase.p, l.g.phase.o);
        }
      case _ =>
  }

  lemma MoveKeepsDisposed(l: Life, m: Move, p: nat, o: nat)
    requires LifeInv(l) && CanMove(l, m) && p < |l.g.logs| && o < |l.g.logs[p]|
    requires Disposed(l.g, p, o) || (p, o) in l.passed
    ensures var l' := Moved(l, m, false);
      p < |l'.g.logs| && o < |l'.g.logs[p]| && (Disposed(l'.g, p, o) || (p, o) in l'.passed)
  {
    if m.Step? && Disposed(l.g, p, o) {
      DisposedStays(l.g, m.a, false, p, o);
    }
  }

  lemma MoveKeepsFetched(l: Life, m: Move, p: nat, o: nat)
    requires LifeInv(l) && CanMove(l, m)
    requires var g' := Moved(l, m, false).g;
      Bounded(g') && PhaseSound(g') && CursorAhead(g') && p < |g'.logs| && o < g'.cursor[p]
    ensures var l' := Moved(l, m, false); Disposed(l'.g, p, o) || (p, o) in l'.passed || InHand(l', p, o)
  {
    if o < l.g.cursor[p] && (Disposed(l.g, p, o) || (p, o) in l.passed) {
      MoveKeepsDisposed(l, m, p, o);
    }
  }

  lemma MoveKeepsLeft(l: Life, m: Move, p: nat, o: nat)
    requires LifeInv(l) && CanMove(l, m)
    requires var g' := Moved(l, m, false).g; Bounded(g') && p < |g'.logs| && o < g'.committed[p]
    ensures var l' := Moved(l, m, false); Disposed(l'.g, p, o) || (p, o) in l'.passed
  {
    MoveKeepsDisposed(l, m, p, o);
  }

  lemma MoveKeepsInv(l: Life, m: Move)
    requires LifeInv(l) && CanMove(l, m)
    ensures LifeInv(Moved(l, m, false))
  {
    var l' := Moved(l, m, false);
    MoveKeepsPhase(l, m);
    MoveKeepsCursor(l, m);
    forall p, o | 0 <= p < |l'.g.logs| && 0 <= o < l'.g.cursor[p]
      ensures Disposed(l'.g, p, o) || (p, o) in l'.passed || InHand(l', p, o)
    {
      MoveKeepsFetched(l, m, p, o);
    }
    forall p, o | 0 <= p < |l'.g.logs| && 0 <= o < l'.g.committed[p]
        ensures Disposed(l'.g, p, o) || (p, o) in l'.passed {
      MoveKeepsLeft(l, m, p, o);
    }
  }

  /** When Run may be called again on an open consumer, every offset left behind is undecodable, handled,
      failed three times, or was being handled when an earlier Run of that reader was cut off. */
  lemma {:induction false} LeftBehindIsAccounted(run: seq<Life>, moves: seq<Move>, i: nat)
    requires IsLife(run, moves, false) && i <= |moves|
    ensures LifeInv(run[i])
  {
    if i > 0 {
      LeftBehindIsAccounted(run, moves, i - 1);
      assert Follows(run, moves, false, i - 1);
      MoveKeepsInv(run[i - 1], moves[i - 1]);
    }
  }

  /** As long as Run is called once per reader nothing is passed over. */
  lemma {:induction false} WithoutResume(run: seq<Life>, moves: seq<Move>, i: nat)
    requires IsLife(run, moves, false) && i <= |moves| && RunOnce(moves[..i])
    ensures Inv(run[i].g) && run[i].passed == {}
  {
    if i > 0 {
      assert moves[..i][i - 1] == moves[i - 1] && moves[..i - 1] <= moves[..i];
      WithoutResume(run, moves, i - 1);
      assert Follows(run, moves, false, i - 1);
      StepKeepsInv(run[i - 1].g, moves[i - 1].a);
    }
  }

  /** A Run is cut off while message 0 of two is being retried. */
  lemma CutOff() returns (run: seq<Life>, moves: seq<Move>)
    ensures IsLife(run, moves, false)
    ensures var l := run[|moves|];
      && |l.g.logs| == 1 && |l.g.logs[0]| == 2 && (forall o | 0 <= o < 2 :: Unmarshal(l.g.logs[0][o]).Some?)
      && l.g.phase.Stopped? && l.g.committed == [0] && l.g.cursor == [1]
      && |l.g.attempts| == 1 && FailedTry(l.g.attempts[0], 0, 0, 1)
  {
    run, moves := [Life(NewGroup(1), {}, {})], [];
    run, moves := Extend(run, moves, Step(Append(0, SAMPLE)), false);
    run, moves := Extend(run, moves, Step(Append(0, SAMPLE)), false);
    run, moves := Extend(run, moves, Step(Restart), false);
    run, moves := Extend(run, moves, Step(Fetch(0)), false);
    run, moves := Extend(run, moves, Step(Try(false, false)), false);
    run, moves := Extend(run, moves, Step(Action.Stop), false);
  }

  /** The last case happens: the next Run commits message 1, and message 0 is gone although it was
      neither handled nor tried three times. */
  lemma ASecondRunCanLose() returns (run: seq<Life>, moves: seq<Move>)
    ensures IsLife(run, moves, false)
    ensures var g := run[|moves|].g;
      |g.logs| == 1 && |g.logs[0]| == 2 && g.committed == [2] && !Disposed(g, 0, 0)
  {
    run, moves := CutOff();
    run, moves := Extend(run, moves, Resume, false);
    run, moves := Extend(run, moves, Step(Fetch(0)), false);
    run, moves := Extend(run, moves, Step(Try(true, true)), false);
    run, moves := Extend(run, moves, Step(Commit(Acked)), false);
  }

  lemma Extend(run: seq<Life>, moves: seq<Move>, m: Move, replay: bool) returns (run': seq<Life>, moves': seq<Move>)
    requires IsLife(run, moves, replay) && CanMove(run[|moves|], m)
    ensures moves' == moves + [m] && run <= run' && IsLife(run', moves', replay)
    ensures run'[|moves'|] == Moved(run[|moves|], m, replay)
  {
    run', moves' := run + [Moved(run[|moves|], m, replay)], moves + [m];
    forall i | 0 <= i < |moves'| ensures Follows(run', moves', replay, i) {
      assert i < |moves| ==> Follows(run, moves, replay, i);
    }
  }

  // ------------------------------------------------------------ when Run may be called again

  ghost predicate NothingLost(g: Group) {
    Bounded(g) && CommittedSound(g)
  }

  ghost predicate AllDisposed(g: Group, ms: set<(nat, nat)>) {
    forall m {:trigger IsDisposed(g, m)} | m in ms :: IsDisposed(g, m)
  }

  ghost predicate IsDisposed(g: Group, m: (nat, nat)) {
    m.0 < |g.logs| && m.1 < |g.logs[m.0]| && Disposed(g, m.0, m.1)
  }

  /** What a second Run, and new processes after it, may come to. */
  ghost predicate Continues(run: seq<Life>, moves: seq<Move>, run': seq<Life>, moves': seq<Move>) {
    && IsLife(run', moves', false) && run <= run' && moves + [Resume] <= moves'
    && RunOnce(moves'[|moves| + 1..])
  }

  lemma {:induction false} DroppedIsFetched(run: seq<Life>, moves: seq<Move>, i: nat)
    requires IsLife(run, moves, false) && i <= |moves|
    ensures Bounded(run[i].g)
    ensures forall m | m in run[i].dropped :: m.0 < |run[i].g.cursor| && m.1 < run[i].g.cursor[m.0]
  {
    LeftBehindIsAccounted(run, moves, i);
    if i > 0 {
      LeftBehindIsAccounted(run, moves, i - 1);
      DroppedIsFetched(run, moves, i - 1);
      assert Follows(run, moves, false, i - 1);
    }
  }

  lemma AllDisposedStays(g: Group, a: Action, ms: set<(nat, nat)>)
    requires Enabled(g, a) && AllDisposed(g, ms)
    ensures AllDisposed(Next(g, a, false), ms)
  {
    forall m | m in ms ensures IsDisposed(Next(g, a, false), m) {
      assert IsDisposed(g, m);
      DisposedStays(g, a, false, m.0, m.1);
    }
  }

  /** With everything in hand at the resumption disposed of, so is everything passed over since. */
  lemma {:induction false} PassedIsDisposed(run: seq<Life>, moves: seq<Move>, run': seq<Life>, moves': seq<Move>,
          i: nat)
    requires IsLife(run, moves, false) && RunOnce(moves) && Continues(run, moves, run', moves')
    requires AllDisposed(run[|moves|].g, run[|moves|].dropped) && |moves| < i <= |moves'|
    ensures AllDisposed(run'[i].g, run'[i].passed)
  {
    assert Follows(run', moves', false, i - 1);
    if i == |moves| + 1 {
      assert moves[..|moves|] == moves;
      WithoutResume(run, moves, |moves|);
      assert moves'[i - 1] == Resume && run'[i - 1] == run[|moves|];
      forall m | m in run'[i].passed ensures IsDisposed(run'[i].g, m) {
        assert IsDisposed(run[|moves|].g, m);
      }
    } else {
      PassedIsDisposed(run, moves, run', moves', i - 1);
      assert moves'[i - 1] == moves'[|moves| + 1..][i - 2 - |moves|];
      AllDisposedStays(run'[i - 1].g, moves'[i - 1].a, run'[i - 1].passed);
    }
  }

  lemma GoOn(run: seq<Life>, moves: seq<Move>, run1: seq<Life>, moves1: seq<Move>, a: Action)
    returns (run': seq<Life>, moves': seq<Move>)
    requires Continues(run, moves, run1, moves1) && Enabled(run1[|moves1|].g, a)
    ensures Continues(run, moves, run', moves') && run'[|moves'|] == Moved(run1[|moves1|], Step(a), false)
  {
    run', moves' := Extend(run1, moves1, Step(a), false);
    assert moves'[|moves| + 1..] == moves1[|moves| + 1..] + [Step(a)];
  }

  /** The next message of partition `p` is fetched. */
  lemma FetchesNext(run: seq<Life>, moves: seq<Move>, p: nat) returns (run': seq<Life>, moves': seq<Move>)
    requires IsLife(run, moves, false) && run[|moves|].g.phase.Stopped? && p < |run[|moves|].g.logs|
    requires Bounded(run[|moves|].g)
    ensures Continues(run, moves, run', moves')
    ensures var g, g' := run[|moves|].g, run'[|moves'|].g;
      && g'.attempts == g.attempts && g'.committed == g.committed
      && |g'.logs| == |g.logs| && g.logs[p] <= g'.logs[p] && |g'.logs[p]| > g.cursor[p]
      && (g'.phase == Handling(p, g.cursor[p], 0) || g'.phase == Committing(p, g.cursor[p]))
  {
    run', moves' := Extend(run, moves, Resume, false);
    run', moves' := GoOn(run, moves, run', moves', Append(p, SAMPLE));
    run', moves' := GoOn(run, moves, run', moves', Fetch(p));
  }

  /** A schedule that commits past partition `p`'s next message. */
  lemma CommitsPast(run: seq<Life>, moves: seq<Move>, p: nat) returns (run': seq<Life>, moves': seq<Move>)
    requires IsLife(run, moves, false) && run[|moves|].g.phase.Stopped? && p < |run[|moves|].g.logs|
    requires Bounded(run[|moves|].g)
    ensures Continues(run, moves, run', moves')
    ensures var g, g' := run[|moves|].g, run'[|moves'|].g;
      && p < |g'.logs| && |g.logs| == |g'.logs| && g.logs[p] <= g'.logs[p]
      && p < |g'.committed| && g'.committed[p] == g.cursor[p] + 1
      && (g'.attempts == g.attempts || g'.attempts == g.attempts + [Attempt(p, g.cursor[p], 1, true, true)])
  {
    run', moves' := FetchesNext(run, moves, p);
    if run'[|moves'|].g.phase.Handling? {
      run', moves' := GoOn(run, moves, run', moves', Try(true, true));
    }
    run', moves' := GoOn(run, moves, run', moves', Commit(Acked));
  }

  /** A handled message next to `o` does not dispose of `o`. */
  lemma StaysUndisposed(g: Group, g': Group, p: nat, o: nat)
    requires p < |g.logs| == |g'.logs| && o < |g.logs[p]| && g.logs[p] <= g'.logs[p] && !Disposed(g, p, o)
    requires g'.attempts == g.attempts
        || exists o': nat :: o' != o && g'.attempts == g.attempts + [Attempt(p, o', 1, true, true)]
    ensures !Disposed(g', p, o)
  {
    var n := |g.attempts|;
    assert forall i | 0 <= i < n :: g'.attempts[i] == g.attempts[i];
    forall i: nat | FailedTries(g'.attempts, p, o, i, MAX_RETRIES)
      ensures FailedTries(g.attempts, p, o, i, MAX_RETRIES)
    {
      assert forall j | i <= j < i + MAX_RETRIES :: FailedTry(g'.attempts[j], p, o, j - i + 1);
      assert |g'.attempts| > n ==> g'.attempts[n].ok;
      assert FailedTry(g'.attempts[i + 2], p, o, 3);
    }
  }

  /** Calling Run again on a reader for the first time leaves nothing behind without a reason, whatever
      follows, if and only if every message that was in the handler's hands when the first Run was cut
      off is disposed of already. */
  lemma ResumingIsSafeIff(run: seq<Life>, moves: seq<Move>)
    requires IsLife(run, moves, false) && RunOnce(moves) && run[|moves|].g.phase.Stopped?
    ensures (forall run': seq<Life>, moves' | Continues(run, moves, run', moves') :: NothingLost(run'[|run'| - 1].g))
       <==> AllDisposed(run[|moves|].g, run[|moves|].dropped)
  {
    var l := run[|moves|];
    if AllDisposed(l.g, l.dropped) {
      forall run': seq<Life>, moves' | Continues(run, moves, run', moves') ensures NothingLost(run'[|run'| - 1].g) {
        PassedIsDisposed(run, moves, run', moves', |moves'|);
        LeftBehindIsAccounted(run', moves', |moves'|);
        var l': Life := run'[|moves'|];
        forall p, o | 0 <= p < |l'.g.logs| && 0 <= o < l'.g.committed[p] ensures Disposed(l'.g, p, o) {
          assert (p, o) in l'.passed ==> IsDisposed(l'.g, (p, o));
        }
      }
    } else {
      var m :| m in l.dropped && !IsDisposed(l.g, m);
      DroppedIsFetched(run, moves, |moves|);
      var run', moves' := CommitsPast(run, moves, m.0);
      StaysUndisposed(l.g, run'[|moves'|].g, m.0, m.1);
    }
  }

  // ------------------------------------------------------------ the loop

  datatype TryReply = TryReply(ok: bool, effect: bool)

  /** What the world does during one trip round the loop: messages that arrive, the partition
      FetchMessage answers with (or an error), what each handler try returns, after how many
      failed tries the context is found cancelled, the broker's answer to the commit, and whether the
      context is found cancelled when that answer is an error. */
  datatype Turn = Turn(appended: seq<(nat, Payload)>, fetch: Option<nat>, first: TryReply, second: TryReply,
      third: TryReply, cancelledAfter: nat, commit: CommitReply, commitCancelled: bool)

  function Reply(turn: Turn, n: nat): TryReply {
    if n <= 1 then turn.first else if n == 2 then turn.second else turn.third
  }

  /** Try number `n` failed and the context was not found cancelled after it. */
  predicate RetriesAfter(turn: Turn, n: nat) {
    !Reply(turn, n).ok && turn.cancelledAfter != n
  }

  function Made(turn: Turn, p: nat, o: nat, n: nat): Attempt {
    Attempt(p, o, n, Reply(turn, n).ok, Reply(turn, n).effect)
  }

  datatype Stop = Interrupted | Closed | Cancelled | FetchFailed | CommitFailed | CommitCancelled

  function Total(s: seq<nat>): (t: nat) {
    if s == [] then 0 else s[0] + Total(s[1..])
  }

  lemma {:induction false} TotalUpdate(s: seq<nat>, p: nat, v: nat)
    requires p < |s|
    ensures Total(s[p := v]) == Total(s) - s[p] + v
  {
    if p > 0 {
      TotalUpdate(s[1..], p - 1, v);
      assert s[p := v][1..] == s[1..][p - 1 := v];
    }
  }

  predicate AtCommit(why: Option<Stop>) {
    why == Some(CommitFailed) || why == Some(CommitCancelled)
  }

  /** The tries of one delivery: one to three, in order, each but the last one failed and not followed by
      cancellation. */
  ghost predicate Tried(turn: Turn, p: nat, o: nat, before: seq<Attempt>, after: seq<Attempt>) {
    && before <= after && 1 <= |after| - |before| <= MAX_RETRIES
    && (forall j | |before| <= j < |after| :: after[j] == Made(turn, p, o, j - |before| + 1))
    && forall k | 1 <= k < |after| - |before| :: RetriesAfter(turn, k)
  }

  /** How many offsets the broker has recorded for one turn. */
  function Counted(why: Option<Stop>, turn: Turn): nat {
    if why.None? || (AtCommit(why) && turn.commit.FailedButApplied?) then 1 else 0
  }

  /** Likewise for the `handled` turns a Run got through and the one that ended it. */
  function Done(why: Stop, script: seq<Turn>, handled: nat): nat
    requires AtCommit(Some(why)) ==> handled < |script|
  {
    handled + if AtCommit(Some(why)) then Counted(Some(why), script[handled]) else 0
  }

  class Consumer {
    const replay: bool
    var open: bool
    // whether the reader has a position of its own, because Run has been called before
    var positioned: bool
    var group: Group
    // every state so far, and every move made
    ghost var run: seq<Life>
    ghost var moves: seq<Move>
    // whether Run has been called again on the open reader
    ghost var resumed: bool
    // how often the reader has been closed
    ghost var closes: nat

    ghost predicate Valid()
      reads this
    {
      && IsLife(run, moves, replay) && run[|moves|].g == group
      && (!resumed ==> RunOnce(moves)) && (resumed ==> positioned)
      && Bounded(group) && closes == (if open then 0 else 1)
      && (group.phase.Handling? || group.phase.Committing?
          ==> group.phase.p < |group.logs| && group.phase.o < |group.logs[group.phase.p]|)
    }

    constructor (partitions: nat, replay: bool)
      ensures Valid() && open && !positioned && !resumed && this.replay == replay && group == NewGroup(partitions)
    {
      this.replay := replay;
      open, positioned, resumed := true, false, false;
      group := NewGroup(partitions);
      run, moves, closes := [Life(NewGroup(partitions), {}, {})], [], 0;
    }

    method Do(a: Action)
      requires Valid() && Enabled(group, a)
      modifies this`group, this`run, this`moves
      ensures Valid() && group == Next(old(group), a, replay)
      ensures moves == old(moves) + [Step(a)]
    {
      group := Next(group, a, replay);
      run, moves := Extend(run, moves, Step(a), replay);
    }

    /** Begins to fetch: a new reader at the committed offsets, an old one where it stands. */
    method Begin()
      requires Valid() && group.phase.Stopped?
      modifies this`group, this`run, this`moves, this`positioned, this`resumed
      ensures Valid() && positioned && resumed == (old(resumed) || old(positioned))
      ensures moves == old(moves) + [if old(positioned) then Resume else Step(Restart)]
      ensures group == if old(positioned) then old(group).(phase := Fetching) else Next(old(group), Restart, replay)
    {
      if positioned {
        group := group.(phase := Fetching);
        run, moves := Extend(run, moves, Resume, replay);
        resumed := true;
      } else {
        Do(Restart);
        positioned := true;
      }
    }

    lemma KeepsInv()
      requires Valid()
      ensures !replay ==> LifeInv(run[|moves|])
      ensures !replay && !resumed ==> Inv(group)
    {
      if !replay {
        LeftBehindIsAccounted(run, moves, |moves|);
        if !resumed {
          assert moves[..|moves|] == moves;
          WithoutResume(run, moves, |moves|);
        }
      }
    }

    /** Calls the handler until it succeeds, at most three times, waiting twice as long each time;
        gives up early if the context is cancelled between tries. */
    method InvokeWithRetry(turn: Turn) returns (ok: bool, cancelled: bool, waited: nat)
      requires Valid() && group.phase.Handling? && group.phase.failed == 0
      modifies this`group, this`run, this`moves
      ensures Valid() && old(moves) <= moves
      ensures group.committed == old(group.committed) && group.cursor == old(group.cursor)
          && group.logs == old(group.logs)
      ensures Tried(turn, old(group.phase.p), old(group.phase.o), old(group.attempts), group.attempts)
      ensures var made := |group.attempts| - |old(group.attempts)|;
        && ok == Reply(turn, made).ok
        && (!ok && !cancelled ==> made == MAX_RETRIES)
        && (cancelled ==> !ok && made < MAX_RETRIES && turn.cancelledAfter == made)
        && (made == 1 ==> waited == 0) && (made == 2 ==> waited == 200) && (made == 3 ==> waited == 600)
      ensures if cancelled then group.phase.Handling?
          else group.phase == Committing(old(group.phase.p), old(group.phase.o))
    {
      ghost var p, o, before := group.phase.p, group.phase.o, |group.attempts|;
      var backoff := INITIAL_BACKOFF;
      var attempt := 1;
      waited, cancelled := 0, false;
      while true
        invariant Valid() && 1 <= attempt <= MAX_RETRIES && !cancelled
        invariant group.phase == Handling(p, o, attempt - 1)
        invariant old(moves) <= moves
        invariant group.committed == old(group.committed) && group.cursor == old(group.cursor)
            && group.logs == old(group.logs)
        invariant |group.attempts| == before + attempt - 1 && old(group.attempts) <= group.attempts
        invariant forall j | before <= j < |group.attempts| :: group.attempts[j] == Made(turn, p, o, j - before + 1)
        invariant forall k | 1 <= k < attempt :: RetriesAfter(turn, k)
        invariant if attempt == 1 then waited == 0 && backoff == 200
                  else if attempt == 2 then waited == 200 && backoff == 400
                  else waited == 600
        decreases MAX_RETRIES - attempt
      {
        ok := Reply(turn, attempt).ok;
        Do(Try(ok, Reply(turn, attempt).effect));
        if ok {
          return;
        }
        if attempt == MAX_RETRIES {
          break;
        }
        if turn.cancelledAfter == attempt {
          cancelled := true;
          return;
        }
        waited := waited + backoff;
        backoff := 2 * backoff;
        assert RetriesAfter(turn, attempt);
        attempt := attempt + 1;
      }
    }

    method CommitOrSkip(reply: CommitReply, ctxDone: bool) returns (why: Option<Stop>)
      requires Valid() && group.phase.Committing?
      modifies this`group, this`run, this`moves
      ensures Valid() && moves == old(moves) + [Step(Commit(reply))]
      ensures group == Next(old(group), Commit(reply), replay)
      ensures why.None? <==> replay || reply.Acked?
      ensures why.Some? ==> why.value == if ctxDone then CommitCancelled else CommitFailed
    {
      Do(Commit(reply));
      if replay || reply.Acked? {
        return None;
      }
      why := Some(if ctxDone then CommitCancelled else CommitFailed);
    }

    method Receive(messages: seq<(nat, Payload)>)
      requires Valid()
      modifies this`group, this`run, this`moves
      ensures Valid() && old(moves) <= moves
      ensures group == old(group).(logs := group.logs)
    {
      for i := 0 to |messages|
        invariant Valid() && old(moves) <= moves
        invariant group == old(group).(logs := group.logs)
      {
        if messages[i].0 < |group.logs| {
          Do(Append(messages[i].0, messages[i].1));
        }
      }
    }

    method FetchMessage(from: Option<nat>) returns (ok: bool)
      requires Valid() && group.phase.Fetching?
      modifies this`group, this`run, this`moves
      ensures Valid() && old(moves) <= moves
      ensures ok <==> from.Some? && Enabled(old(group), Fetch(from.value))
      ensures group.committed == old(group.committed)
      ensures if ok then group == Next(old(group), Fetch(from.value), replay)
          else group == old(group).(phase := Phase.Stopped)
      ensures ok ==> group.phase.Committing? || (group.phase.Handling? && group.phase.failed == 0)
    {
      ok := from.Some? && Enabled(group, Fetch(from.value));
      Do(if ok then Fetch(from.value) else Action.Stop);
    }

    /** The handler's part of a trip: tries until success, exhaustion or cancellation. */
    method HandleMessage(turn: Turn) returns (why: Option<Stop>)
      requires Valid() && group.phase.Handling? && group.phase.failed == 0
      modifies this`group, this`run, this`moves
      ensures Valid() && old(moves) <= moves && group.committed == old(group.committed)
      ensures Tried(turn, old(group.phase.p), old(group.phase.o), old(group.attempts), group.attempts)
      ensures var made := |group.attempts| - |old(group.attempts)|;
        why.None? ==> Reply(turn, made).ok || made == MAX_RETRIES
      ensures if why.None? then group.phase.Committing? else why == Some(Cancelled) && group.phase.Stopped?
      ensures why.Some? ==> 1 <= turn.cancelledAfter <= MAX_RETRIES
    {
      var ok, cancelled, _ := InvokeWithRetry(turn);
      if !ok && (cancelled || turn.cancelledAfter == MAX_RETRIES) {
        Do(Action.Stop);
        return Some(Cancelled);
      }
      why := None;
    }

    /** The commit's part of a trip. */
    method CommitMessage(turn: Turn) returns (why: Option<Stop>)
      requires Valid() && group.phase.Committing?
      modifies this`group, this`run, this`moves
      ensures Valid() && old(moves) <= moves && group.attempts == old(group.attempts)
      ensures if why.None? then group.phase.Fetching? else AtCommit(why) && group.phase.Stopped?
      ensures AtCommit(why) ==> !replay && !turn.commit.Acked? && (why.value.CommitCancelled? <==> turn.commitCancelled)
      ensures !replay ==> Total(group.committed) >= Total(old(group.committed)) + Counted(why, turn)
      ensures !replay && !resumed ==> Total(group.committed) == Total(old(group.committed)) + Counted(why, turn)
      ensures replay ==> group.committed == old(group.committed)
    {
      KeepsInv();
      TotalUpdate(group.committed, group.phase.p, group.phase.o + 1);
      why := CommitOrSkip(turn.commit, turn.commitCancelled);
    }

    /** The second half of a trip: call the handler unless the message was undecodable, commit. */
    method Settle(turn: Turn) returns (why: Option<Stop>)
      requires Valid() && (group.phase.Committing? || (group.phase.Handling? && group.phase.failed == 0))
      modifies this`group, this`run, this`moves
      ensures Valid() && old(moves) <= moves
      ensures if why.None? then group.phase.Fetching? else group.phase.Stopped?
      ensures old(group.phase.Committing?) ==> group.attempts == old(group.attempts) && why != Some(Cancelled)
      ensures old(group.phase.Handling?) ==>
        && Tried(turn, old(group.phase.p), old(group.phase.o), old(group.attempts), group.attempts)
        && var made := |group.attempts| - |old(group.attempts)|;
           why != Some(Cancelled) ==> Reply(turn, made).ok || made == MAX_RETRIES
      ensures why.Some? ==> why == Some(Cancelled) || AtCommit(why)
      ensures why == Some(Cancelled) ==> 1 <= turn.cancelledAfter <= MAX_RETRIES
      ensures AtCommit(why) ==> !replay && !turn.commit.Acked? && (why.value.CommitCancelled? <==> turn.commitCancelled)
      ensures !replay ==> Total(group.committed) >= Total(old(group.committed)) + Counted(why, turn)
      ensures !replay && !resumed ==> Total(group.committed) == Total(old(group.committed)) + Counted(why, turn)
      ensures replay ==> group.committed == old(group.committed)
    {
      if group.phase.Handling? {
        why := HandleMessage(turn);
        if why.Some? {
          return;
        }
      }
      why := CommitMessage(turn);
    }

    /** One trip round the loop: `why` says what ends it, if anything does. */
    method HandleNext(turn: Turn) returns (why: Option<Stop>)
      requires Valid() && group.phase.Fetching?
      modifies this`group, this`run, this`moves
      ensures Valid() && old(moves) <= moves
      ensures if why.None? then group.phase.Fetching? else group.phase.Stopped?
      ensures why.Some? ==> why == Some(Cancelled) || why == Some(FetchFailed) || AtCommit(why)
      ensures why == Some(Cancelled) ==> 1 <= turn.cancelledAfter <= MAX_RETRIES
      ensures AtCommit(why) ==> !replay && !turn.commit.Acked? && (why.value.CommitCancelled? <==> turn.commitCancelled)
      ensures why == Some(FetchFailed)
          ==> turn.fetch.None? || turn.fetch.value >= |group.logs|
              || group.cursor[turn.fetch.value] == |group.logs[turn.fetch.value]|
      ensures !replay ==> Total(group.committed) >= Total(old(group.committed)) + Counted(why, turn)
      ensures !replay && !resumed ==> Total(group.committed) == Total(old(group.committed)) + Counted(why, turn)
      ensures replay ==> group.committed == old(group.committed)
    {
      Receive(turn.appended);
      var fetched := FetchMessage(turn.fetch);
      if fetched {
        why := Settle(turn);
      } else {
        why := Some(FetchFailed);
      }
    }

    /** The loop of Run. */
    method Consume(script: seq<Turn>) returns (why: Stop, handled: nat)
      requires Valid() && group.phase.Fetching?
      modifies this`group, this`run, this`moves
      ensures Valid() && old(moves) <= moves && group.phase.Stopped? && !why.Closed?
      ensures handled <= |script| && (why.Interrupted? ==> handled == |script|)
      ensures !why.Interrupted? ==> handled < |script| && (why.Cancelled? || why.FetchFailed? || AtCommit(Some(why)))
      ensures why.Cancelled? ==> 1 <= script[handled].cancelledAfter <= MAX_RETRIES
      ensures why.FetchFailed? ==>
        var from := script[handled].fetch;
        from.None? || from.value >= |group.logs| || group.cursor[from.value] == |group.logs[from.value]|
      ensures AtCommit(Some(why)) ==>
        !replay && !script[handled].commit.Acked? && (why.CommitCancelled? <==> script[handled].commitCancelled)
      ensures !replay ==> Total(group.committed) >= Total(old(group.committed)) + Done(why, script, handled)
      ensures !replay && !resumed ==> Total(group.committed) == Total(old(group.committed)) + Done(why, script, handled)
      ensures replay ==> group.committed == old(group.committed)
    {
      handled := 0;
      while handled < |script|
        invariant Valid() && handled <= |script| && group.phase.Fetching? && old(moves) <= moves
        invariant !replay ==> Total(group.committed) >= Total(old(group.committed)) + handled
        invariant !replay && !resumed ==> Total(group.committed) == Total(old(group.committed)) + handled
        invariant replay ==> group.committed == old(group.committed)
      {
        var failure := HandleNext(script[handled]);
        if failure.Some? {
          return failure.value, handled;
        }
        handled := handled + 1;
      }
      Do(Action.Stop);
      why := Interrupted;
    }

    /** Handles one message per turn until the script is over or something fails. It stops only for a
        reason. The first Run of a reader leaves no offset behind without one (Inv) and commits one
        offset per message it got through; a later one may commit past a message that was in hand when
        an earlier one was cut off, and past no other (LifeInv). */
    method Run(script: seq<Turn>) returns (why: Stop, handled: nat)
      requires Valid() && group.phase.Stopped?
      modifies this`group, this`run, this`moves, this`positioned, this`resumed
      ensures Valid() && old(moves) <= moves && group.phase.Stopped?
      ensures positioned == (old(positioned) || open) && resumed == (old(resumed) || (old(positioned) && open))
      ensures !replay ==> LifeInv(run[|moves|])
      ensures !replay && !resumed ==> Inv(group)
      ensures why.Closed? <==> !old(open)
      ensures why.Closed? ==> group == old(group) && handled == 0
      ensures handled <= |script| && (why.Interrupted? ==> handled == |script|)
      ensures why.Cancelled? || why.FetchFailed? || AtCommit(Some(why)) ==> handled < |script|
      ensures why.Cancelled? ==> 1 <= script[handled].cancelledAfter <= MAX_RETRIES
      ensures why.FetchFailed? ==>
        var from := script[handled].fetch;
        from.None? || from.value >= |group.logs| || group.cursor[from.value] == |group.logs[from.value]|
      ensures AtCommit(Some(why)) ==>
        !replay && !script[handled].commit.Acked? && (why.CommitCancelled? <==> script[handled].commitCancelled)
      ensures !replay ==> Total(group.committed) >= Total(old(group.committed)) + Done(why, script, handled)
      ensures !replay && !resumed ==> Total(group.committed) == Total(old(group.committed)) + Done(why, script, handled)
      ensures replay ==> group.committed == old(group.committed)
    {
      if !open {
        KeepsInv();
        return Closed, 0;
      }
      Begin();
      why, handled := Consume(script);
      KeepsInv();
    }

    /** However often it is called, the reader is closed once, by the first call; only that call can
        report an error. A closed consumer does not run (see Run). */
    method Close(fails: bool) returns (ok: bool)
      requires Valid()
      modifies this`open, this`closes
      ensures Valid() && !open && closes == 1
      ensures ok <==> !(old(open) && fails)
      ensures !old(open) ==> closes == old(closes)
    {
      if !open {
        return true;
      }
      open, closes := false, closes + 1;
      ok := !fails;
    }
  }
}

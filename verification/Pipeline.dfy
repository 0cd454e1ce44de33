/**
 Generate and chains of Stages.

 The two goroutine bodies come first, as the loops they are. Then any number of stages run behind
 one source, each goroutine a step machine over bounded channels (capacity |items| for the source,
 1 for a stage), with cancellation at any time, closing as in Go, and a reader that drains the end.
 */
module Pipeline {
  import opened Channels
  import opened FilterMaps
  import opened Options

  type Transform<!T> = T -> Option<T>

  // ------------------------------------------------------------ the goroutine bodies

  /** Sends the items until none is left, or until send number `stopAt` finds the context done. */
  method GenerateLoop<T>(items: seq<T>, stopAt: Option<nat>) returns (sent: seq<T>)
    ensures sent == if stopAt.Some? && stopAt.value < |items| then items[..stopAt.value] else items
  {
    sent := [];
    for i := 0 to |items|
      invariant sent == items[..i]
      invariant stopAt.Some? ==> i <= stopAt.value
    {
      if stopAt == Some(i) {
        return;
      }
      sent := sent + [items[i]];
    }
  }

  /** One stage: `doneAt` is the item before which the context check fires, `stopAt` the send whose
      select picks cancellation. What it has emitted is the filter-map of what it got through. */
  method StageLoop<I, O>(input: seq<I>, f: I -> Option<O>, doneAt: Option<nat>, stopAt: Option<nat>)
    returns (emitted: seq<O>, taken: nat)
    ensures taken <= |input| && emitted == FilterMap(f, input[..taken])
    ensures doneAt.None? && stopAt.None? ==> taken == |input|
    ensures taken < |input| ==> doneAt == Some(taken) || (stopAt == Some(|emitted|) && f(input[taken]).Some?)
  {
    emitted, taken := [], 0;
    while taken < |input|
      invariant taken <= |input| && emitted == FilterMap(f, input[..taken])
    {
      if doneAt == Some(taken) {
        return;
      }
      assert input[..taken + 1] == input[..taken] + [input[taken]];
      FilterMapAppend(f, input[..taken], input[taken]);
      match f(input[taken]) {
        case None =>
        case Some(result) =>
          if stopAt == Some(|emitted|) {
            return;
          }
          emitted := emitted + [result];
      }
      taken := taken + 1;
    }
  }

  // ------------------------------------------------------------ the chain

  datatype StagePc<T> = Idle | Holding(item: T) | Sending(result: T) | Exited

  /** Stage `i` reads channel `i` and writes channel `i + 1`; the source writes channel 0. */
  datatype Chain<T> = Chain(
    generated: nat,
    sourceExited: bool,
    stages: seq<StagePc<T>>,
    channels: seq<Channel<T>>,
    cancelled: bool,
    panicked: bool)

  datatype Action = Generate | StopGenerating | Receive(i: nat) | Check(i: nat) | Send(i: nat) | GiveUp(i: nat)
    | Read | Cancel

  function NewChain<T>(stages: nat): Chain<T> {
    Chain(0, false, seq(stages, i => Idle), seq(stages + 1, i => Channel([], 0, false)), false, false)
  }

  predicate Shape<T>(s: Chain<T>) {
    |s.channels| == |s.stages| + 1 && forall i | 0 <= i < |s.channels| :: s.channels[i].taken <= |s.channels[i].sent|
  }

  predicate Enabled<T>(s: Chain<T>, a: Action) {
    && Shape(s)
    && match a
       case Generate => !s.sourceExited
       case StopGenerating => !s.sourceExited && s.cancelled
       case Receive(i) => i < |s.stages| && s.stages[i].Idle?
           && (s.channels[i].taken < |s.channels[i].sent| || s.channels[i].closed)
       case Check(i) => i < |s.stages| && s.stages[i].Holding?
       case Send(i) => i < |s.stages| && s.stages[i].Sending? && |s.channels[i + 1].sent| == s.channels[i + 1].taken
       case GiveUp(i) => i < |s.stages| && s.stages[i].Sending? && s.cancelled
       case Read => s.channels[|s.stages|].taken < |s.channels[|s.stages|].sent|
       case Cancel => !s.cancelled
  }

  /** Sending on or closing a closed channel panics. */
  function SendOn<T>(s: Chain<T>, i: nat, x: T): Chain<T>
    requires i < |s.channels|
  {
    s.(channels := s.channels[i := s.channels[i].(sent := s.channels[i].sent + [x])],
       panicked := s.panicked || s.channels[i].closed)
  }

  function CloseChannel<T>(s: Chain<T>, i: nat): Chain<T>
    requires i < |s.channels|
  {
    s.(channels := s.channels[i := s.channels[i].(closed := true)], panicked := s.panicked || s.channels[i].closed)
  }

  function Take<T>(s: Chain<T>, i: nat): Chain<T>
    requires i < |s.channels|
  {
    s.(channels := s.channels[i := s.channels[i].(taken := s.channels[i].taken + 1)])
  }

  function Move<T>(s: Chain<T>, i: nat, pc: StagePc<T>): Chain<T>
    requires i < |s.stages|
  {
    s.(stages := s.stages[i := pc])
  }

  function Next<T>(s: Chain<T>, a: Action, items: seq<T>, fs: seq<Transform<T>>): Chain<T>
    requires Enabled(s, a) && |fs| == |s.stages|
  {
    match a
    case Generate =>
      if s.generated < |items| then SendOn(s, 0, items[s.generated]).(generated := s.generated + 1)
      else CloseChannel(s, 0).(sourceExited := true)
    case StopGenerating => CloseChannel(s, 0).(sourceExited := true)
    case Receive(i) =>
      if s.channels[i].taken < |s.channels[i].sent|
          then Move(Take(s, i), i, Holding(s.channels[i].sent[s.channels[i].taken]))
      else CloseChannel(Move(s, i, Exited), i + 1)
    case Check(i) =>
      if s.cancelled then CloseChannel(Move(s, i, Exited), i + 1)
      else
        (match fs[i](s.stages[i].item)
         case None => Move(s, i, Idle)
         case Some(y) => Move(s, i, Sending(y)))
    case Send(i) => SendOn(Move(s, i, Idle), i + 1, s.stages[i].result)
    case GiveUp(i) => CloseChannel(Move(s, i, Exited), i + 1)
    case Read => Take(s, |s.stages|)
    case Cancel => s.(cancelled := true)
  }

  ghost predicate IsRun<T(!new)>(run: seq<Chain<T>>, acts: seq<Action>, items: seq<T>, fs: seq<Transform<T>>) {
    && |run| == |acts| + 1 && run[0] == NewChain(|fs|)
    && forall i | 0 <= i < |acts| ::
        |run[i].stages| == |fs| && Enabled(run[i], acts[i]) && run[i + 1] == Next(run[i], acts[i], items, fs)
  }

  predicate Finished<T>(s: Chain<T>)
    requires Shape(s)
  {
    s.channels[|s.stages|].closed && s.channels[|s.stages|].taken == |s.channels[|s.stages|].sent|
  }

  /** The composed filter-map of the first `n` stages. */
  function Composed<T>(fs: seq<Transform<T>>, items: seq<T>, n: nat): seq<T>
    requires n <= |fs|
  {
    if n == 0 then items else FilterMap(fs[n - 1], Composed(fs, items, n - 1))
  }

  // ------------------------------------------------------------ the invariant

  ghost predicate SourceSound<T>(s: Chain<T>, items: seq<T>)
    requires Shape(s)
  {
    && s.generated <= |items| && s.channels[0].sent == items[..s.generated]
    && s.channels[0].closed == s.sourceExited
    && (s.sourceExited && !s.cancelled ==> s.generated == |items|)
  }

  /** What a stage has emitted, with what it has in hand, is the filter-map of what it received. */
  ghost predicate StageSound<T>(s: Chain<T>, fs: seq<Transform<T>>, i: nat)
    requires Shape(s) && i < |s.stages| == |fs|
  {
    var from, to := s.channels[i], s.channels[i + 1];
    && to.closed == s.stages[i].Exited?
    && match s.stages[i]
       case Idle => to.sent == FilterMap(fs[i], from.sent[..from.taken])
       case Holding(x) => from.taken > 0 && x == from.sent[from.taken - 1]
           && to.sent == FilterMap(fs[i], from.sent[..from.taken - 1])
       case Sending(y) => to.sent + [y] == FilterMap(fs[i], from.sent[..from.taken])
       case Exited =>
         && to.sent <= FilterMap(fs[i], from.sent[..from.taken])
         && (!s.cancelled ==> from.closed && from.taken == |from.sent| && to.sent == FilterMap(fs[i], from.sent))
  }

  ghost predicate Inv<T>(s: Chain<T>, items: seq<T>, fs: seq<Transform<T>>) {
    && Shape(s) && |s.stages| == |fs| && !s.panicked
    && SourceSound(s, items)
    && forall i {:trigger StageSound(s, fs, i)} | 0 <= i < |fs| :: StageSound(s, fs, i)
  }

  /** A stage is not disturbed by what others do: its input may grow while it is open, its own
      output channel only loses what was received from it. */
  lemma StageUndisturbed<T>(s: Chain<T>, s': Chain<T>, fs: seq<Transform<T>>, i: nat)
    requires Shape(s) && Shape(s') && i < |s.stages| == |s'.stages| == |fs| && StageSound(s, fs, i)
    requires s'.stages[i] == s.stages[i] && (s.cancelled ==> s'.cancelled)
    requires s'.channels[i].taken == s.channels[i].taken && s.channels[i].sent <= s'.channels[i].sent
    requires s.channels[i].closed ==> s'.channels[i].closed && s'.channels[i].sent == s.channels[i].sent
    requires s'.channels[i + 1].sent == s.channels[i + 1].sent && s'.channels[i + 1].closed == s.channels[i + 1].closed
    ensures StageSound(s', fs, i)
  {
    var from, from' := s.channels[i], s'.channels[i];
    assert from'.sent[..from.taken] == from.sent[..from.taken];
    assert from.taken > 0 ==> from'.sent[..from.taken - 1] == from.sent[..from.taken - 1];
  }

  predicate Concerns(a: Action, i: nat) {
    (a.Receive? || a.Check? || a.Send? || a.GiveUp?) && a.i == i
  }

  lemma ReceiveKeepsStage<T>(s: Chain<T>, items: seq<T>, fs: seq<Transform<T>>, i: nat)
    requires Shape(s) && |s.stages| == |fs| && Enabled(s, Receive(i)) && i < |fs| && StageSound(s, fs, i)
    ensures var s' := Next(s, Receive(i), items, fs); Shape(s') && |s'.stages| == |fs| && StageSound(s', fs, i)
  {
    var s' := Next(s, Receive(i), items, fs);
    var from, from' := s.channels[i], s'.channels[i];
    if from.taken < |from.sent| {
      assert from'.sent[..from'.taken - 1] == from.sent[..from.taken];
    } else {
      assert from.sent[..from.taken] == from.sent;
    }
  }

  lemma CheckKeepsStage<T>(s: Chain<T>, items: seq<T>, fs: seq<Transform<T>>, i: nat)
    requires Shape(s) && |s.stages| == |fs| && Enabled(s, Check(i)) && i < |fs| && StageSound(s, fs, i)
    ensures var s' := Next(s, Check(i), items, fs); Shape(s') && |s'.stages| == |fs| && StageSound(s', fs, i)
  {
    var from := s.channels[i];
    assert from.sent[..from.taken] == from.sent[..from.taken - 1] + [from.sent[from.taken - 1]];
    FilterMapAppend(fs[i], from.sent[..from.taken - 1], from.sent[from.taken - 1]);
  }

  lemma OwnStepKeepsStage<T>(s: Chain<T>, a: Action, items: seq<T>, fs: seq<Transform<T>>, i: nat)
    requires Shape(s) && |s.stages| == |fs| && Enabled(s, a) && i < |fs| && Concerns(a, i) && StageSound(s, fs, i)
    ensures var s' := Next(s, a, items, fs); Shape(s') && |s'.stages| == |fs| && StageSound(s', fs, i)
  {
    match a
    case Receive(_) => ReceiveKeepsStage(s, items, fs, i);
    case Check(_) => CheckKeepsStage(s, items, fs, i);
    case Send(_) =>
    case GiveUp(_) =>
  }

  /** Whoever feeds channel `i` has exited once it is closed. */
  predicate FeederGone<T>(s: Chain<T>, i: nat)
    requires Shape(s) && i < |s.channels|
  {
    s.channels[i].closed ==> if i == 0 then s.sourceExited else s.stages[i - 1].Exited?
  }

  lemma StepKeepsShape<T>(s: Chain<T>, a: Action, items: seq<T>, fs: seq<Transform<T>>)
    requires Shape(s) && |s.stages| == |fs| && Enabled(s, a)
    ensures var s' := Next(s, a, items, fs); Shape(s') && |s'.stages| == |s.stages|
  {
  }

  lemma OthersLeaveInput<T>(s: Chain<T>, a: Action, items: seq<T>, fs: seq<Transform<T>>, i: nat)
    requires Shape(s) && |s.stages| == |fs| && Enabled(s, a) && i < |fs| && !Concerns(a, i) && FeederGone(s, i)
    requires Shape(Next(s, a, items, fs)) && |Next(s, a, items, fs).stages| == |fs|
    ensures var s' := Next(s, a, items, fs);
      && s'.channels[i].taken == s.channels[i].taken && s.channels[i].sent <= s'.channels[i].sent
      && (s.channels[i].closed ==> s'.channels[i].closed && s'.channels[i].sent == s.channels[i].sent)
  {
  }

  lemma OthersLeaveOutput<T>(s: Chain<T>, a: Action, items: seq<T>, fs: seq<Transform<T>>, i: nat)
    requires Shape(s) && |s.stages| == |fs| && Enabled(s, a) && i < |fs| && !Concerns(a, i)
    requires Shape(Next(s, a, items, fs)) && |Next(s, a, items, fs).stages| == |fs|
    ensures var s' := Next(s, a, items, fs);
      && s'.stages[i] == s.stages[i] && (s.cancelled ==> s'.cancelled)
      && s'.channels[i + 1].sent == s.channels[i + 1].sent && s'.channels[i + 1].closed == s.channels[i + 1].closed
  {
  }

  lemma OthersLeaveStage<T>(s: Chain<T>, a: Action, items: seq<T>, fs: seq<Transform<T>>, i: nat)
    requires Shape(s) && |s.stages| == |fs| && Enabled(s, a) && i < |fs| && !Concerns(a, i) && FeederGone(s, i)
    ensures var s' := Next(s, a, items, fs);
      && Shape(s') && |s'.stages| == |fs| && s'.stages[i] == s.stages[i] && (s.cancelled ==> s'.cancelled)
      && s'.channels[i].taken == s.channels[i].taken && s.channels[i].sent <= s'.channels[i].sent
      && (s.channels[i].closed ==> s'.channels[i].closed && s'.channels[i].sent == s.channels[i].sent)
      && s'.channels[i + 1].sent == s.channels[i + 1].sent && s'.channels[i + 1].closed == s.channels[i + 1].closed
  {
    StepKeepsShape(s, a, items, fs);
    OthersLeaveInput(s, a, items, fs, i);
    OthersLeaveOutput(s, a, items, fs, i);
  }

  lemma StepKeepsStage<T>(s: Chain<T>, a: Action, items: seq<T>, fs: seq<Transform<T>>, i: nat)
    requires Inv(s, items, fs) && Enabled(s, a) && i < |fs|
    ensures var s' := Next(s, a, items, fs); Shape(s') && |s'.stages| == |fs| && StageSound(s', fs, i)
  {
    assert StageSound(s, fs, i);
    if Concerns(a, i) {
      OwnStepKeepsStage(s, a, items, fs, i);
    } else {
      assert i > 0 ==> StageSound(s, fs, i - 1);
      OthersLeaveStage(s, a, items, fs, i);
      StageUndisturbed(s, Next(s, a, items, fs), fs, i);
    }
  }

  lemma StepKeepsInv<T>(s: Chain<T>, a: Action, items: seq<T>, fs: seq<Transform<T>>)
    requires Inv(s, items, fs) && Enabled(s, a)
    ensures Inv(Next(s, a, items, fs), items, fs)
  {
    var s' := Next(s, a, items, fs);
    assert a.Check? || a.Send? || a.GiveUp? || a.Receive? ==> StageSound(s, fs, a.i);
    forall i | 0 <= i < |fs| ensures Shape(s') && |s'.stages| == |fs| && StageSound(s', fs, i) {
      StepKeepsStage(s, a, items, fs, i);
    }
  }

  lemma {:induction false} RunKeepsInv<T(!new)>(run: seq<Chain<T>>, acts: seq<Action>, items: seq<T>,
          fs: seq<Transform<T>>, i: nat)
    requires IsRun(run, acts, items, fs) && i <= |acts|
    ensures Inv(run[i], items, fs)
  {
    if i > 0 {
      RunKeepsInv(run, acts, items, fs, i - 1);
      StepKeepsInv(run[i - 1], acts[i - 1], items, fs);
    } else {
      forall j | 0 <= j < |fs| ensures StageSound(run[0], fs, j) {
      }
    }
  }

  /** Whatever has come out of stage `n` is a prefix of the composed filter-map of all items. */
  lemma {:induction false} EmittedIsPrefix<T>(s: Chain<T>, items: seq<T>, fs: seq<Transform<T>>, n: nat)
    requires Inv(s, items, fs) && n <= |fs|
    ensures s.channels[n].sent <= Composed(fs, items, n)
  {
    if n > 0 {
      EmittedIsPrefix(s, items, fs, n - 1);
      assert StageSound(s, fs, n - 1);
      var from := s.channels[n - 1];
      var got := if s.stages[n - 1].Holding? then from.taken - 1 else from.taken;
      assert from.sent[..got] <= Composed(fs, items, n - 1);
      FilterMapMonotone(fs[n - 1], from.sent[..got], Composed(fs, items, n - 1));
    }
  }

  /** Once stage `n` has closed its output without cancellation, everything has come out. */
  lemma {:induction false} ClosedIsComplete<T>(s: Chain<T>, items: seq<T>, fs: seq<Transform<T>>, n: nat)
    requires Inv(s, items, fs) && n <= |fs| && s.channels[n].closed && !s.cancelled
    ensures s.channels[n].sent == Composed(fs, items, n)
  {
    if n > 0 {
      assert StageSound(s, fs, n - 1);
      ClosedIsComplete(s, items, fs, n - 1);
    }
  }

  // ------------------------------------------------------------ termination

  /** The steps an item waiting in channel `j` can still cause, `n` being the number of stages. */
  function Weight(n: nat, j: nat): nat
    requires j <= n
  {
    3 * (n - j) + 1
  }

  function StageCost<T>(pc: StagePc<T>, next: nat): nat {
    match pc
    case Exited => 0
    case Idle => 1
    case Sending(_) => next + 2
    case Holding(_) => next + 3
  }

  function Waiting<T>(c: Channel<T>, weight: nat): nat
    requires c.taken <= |c.sent|
  {
    (|c.sent| - c.taken) * weight
  }

  /** The cost of channel `j` and of the stage that feeds it. */
  function Cost<T>(s: Chain<T>, j: nat): nat
    requires Shape(s) && j <= |s.stages|
  {
    Waiting(s.channels[j], Weight(|s.stages|, j)) +
        if j == 0 then 0 else StageCost(s.stages[j - 1], Weight(|s.stages|, j))
  }

  function CostUpTo<T>(s: Chain<T>, k: nat): nat
    requires Shape(s) && k <= |s.stages|
  {
    Cost(s, k) + if k == 0 then 0 else CostUpTo(s, k - 1)
  }

  lemma {:induction false} CostChange<T>(s: Chain<T>, s': Chain<T>, k: nat, i: nat)
    requires Shape(s) && Shape(s') && |s.stages| == |s'.stages| && k <= |s.stages| && i <= |s.stages|
    requires forall j | 0 <= j <= |s.stages| && j != i && j != i + 1 :: Cost(s', j) == Cost(s, j)
    ensures CostUpTo(s', k) - CostUpTo(s, k)
         == (if i <= k then Cost(s', i) - Cost(s, i) else 0)
             + (if i + 1 <= k then Cost(s', i + 1) - Cost(s, i + 1) else 0)
  {
    if k > 0 {
      CostChange(s, s', k - 1, i);
    }
  }

  function ToGenerate<T>(s: Chain<T>, items: seq<T>): int
    requires Shape(s)
  {
    (|items| - s.generated) * (Weight(|s.stages|, 0) + 1) + (if s.sourceExited then 0 else 1)
        + (if s.cancelled then 0 else 1)
  }

  function Budget<T>(s: Chain<T>, items: seq<T>): int
    requires Shape(s)
  {
    ToGenerate(s, items) + CostUpTo(s, |s.stages|)
  }

  lemma OneMore<T>(c: Channel<T>, x: T, weight: nat)
    requires c.taken <= |c.sent|
    ensures Waiting(c.(sent := c.sent + [x]), weight) == Waiting(c, weight) + weight
    ensures c.taken < |c.sent| ==> Waiting(c.(taken := c.taken + 1), weight) == Waiting(c, weight) - weight
  {
    assert (|c.sent| + 1 - c.taken) * weight == (|c.sent| - c.taken) * weight + weight;
    assert (|c.sent| - c.taken - 1) * weight == (|c.sent| - c.taken) * weight - weight;
  }

  /** Which of the two neighbouring costs a step may change. */
  function Site<T>(s: Chain<T>, a: Action): nat {
    match a
    case Receive(i) => i
    case Check(i) => i
    case Send(i) => i
    case GiveUp(i) => i
    case Read => |s.stages|
    case _ => 0
  }

  lemma CostElsewhere<T>(s: Chain<T>, a: Action, items: seq<T>, fs: seq<Transform<T>>, j: nat)
    requires Shape(s) && |s.stages| == |fs| && Enabled(s, a)
    requires j <= |s.stages| && j != Site(s, a) && j != Site(s, a) + 1
    requires Shape(Next(s, a, items, fs)) && |Next(s, a, items, fs).stages| == |s.stages|
    ensures Cost(Next(s, a, items, fs), j) == Cost(s, j)
  {
    var s' := Next(s, a, items, fs);
    assert s'.channels[j].sent == s.channels[j].sent && s'.channels[j].taken == s.channels[j].taken;
    assert j > 0 ==> s'.stages[j - 1] == s.stages[j - 1];
  }

  lemma StepIsLocal<T>(s: Chain<T>, a: Action, items: seq<T>, fs: seq<Transform<T>>)
    requires Shape(s) && |s.stages| == |fs| && Enabled(s, a)
    ensures var s' := Next(s, a, items, fs);
      && Shape(s') && |s'.stages| == |s.stages|
      && forall j | 0 <= j <= |s.stages| && j != Site(s, a) && j != Site(s, a) + 1 :: Cost(s', j) == Cost(s, j)
  {
    StepKeepsShape(s, a, items, fs);
    forall j | 0 <= j <= |s.stages| && j != Site(s, a) && j != Site(s, a) + 1
        ensures Cost(Next(s, a, items, fs), j) == Cost(s, j) {
      CostElsewhere(s, a, items, fs, j);
    }
  }

  lemma EndsSpendLocally<T>(s: Chain<T>, a: Action, items: seq<T>, fs: seq<Transform<T>>)
    requires Shape(s) && |s.stages| == |fs| && Enabled(s, a)
        && (a.Generate? || a.StopGenerating? || a.Cancel? || a.Read?)
    ensures var s' := Next(s, a, items, fs);
      && Shape(s') && |s'.stages| == |s.stages|
      && (a.Read? ==> Cost(s', |s.stages|) < Cost(s, |s.stages|))
      && (!a.Read? ==>
            Cost(s', 0) == Cost(s, 0) + if a.Generate? && s.generated < |items| then Weight(|s.stages|, 0) else 0)
      && (!a.Read? && 1 <= |s.stages| ==> Cost(s', 1) == Cost(s, 1))
  {
    match a
    case Generate =>
      if s.generated < |items| {
        OneMore(s.channels[0], items[s.generated], Weight(|s.stages|, 0));
      }
    case Read =>
      var c := s.channels[|s.stages|];
      OneMore(c, c.sent[c.taken], Weight(|s.stages|, |s.stages|));
    case _ =>
  }

  lemma ReceiveSpends<T>(s: Chain<T>, items: seq<T>, fs: seq<Transform<T>>, i: nat)
    requires Shape(s) && |s.stages| == |fs| && Enabled(s, Receive(i))
    ensures var s' := Next(s, Receive(i), items, fs);
      && Shape(s') && |s'.stages| == |s.stages|
      && Cost(s', i) + Cost(s', i + 1) < Cost(s, i) + Cost(s, i + 1)
  {
    var s' := Next(s, Receive(i), items, fs);
    var w, w' := Weight(|s.stages|, i), Weight(|s.stages|, i + 1);
    if s.channels[i].taken < |s.channels[i].sent| {
      OneMore(s.channels[i], s.channels[i].sent[s.channels[i].taken], w);
    }
    assert Waiting(s'.channels[i + 1], w') == Waiting(s.channels[i + 1], w');
  }

  lemma StagesSpendLocally<T>(s: Chain<T>, a: Action, items: seq<T>, fs: seq<Transform<T>>, i: nat)
    requires Shape(s) && |s.stages| == |fs| && Enabled(s, a) && Concerns(a, i)
    ensures var s' := Next(s, a, items, fs);
      && Shape(s') && |s'.stages| == |s.stages|
      && Cost(s', i) + Cost(s', i + 1) < Cost(s, i) + Cost(s, i + 1)
  {
    var s' := Next(s, a, items, fs);
    var w, w' := Weight(|s.stages|, i), Weight(|s.stages|, i + 1);
    assert w == w' + 3;
    match a
    case Receive(_) =>
      ReceiveSpends(s, items, fs, i);
    case Send(_) =>
      OneMore(s.channels[i + 1], s.stages[i].result, w');
    case Check(_) =>
      assert Waiting(s'.channels[i + 1], w') == Waiting(s.channels[i + 1], w');
    case GiveUp(_) =>
      assert Waiting(s'.channels[i + 1], w') == Waiting(s.channels[i + 1], w');
  }

  lemma SourceSpends<T>(s: Chain<T>, a: Action, items: seq<T>, fs: seq<Transform<T>>)
    requires Shape(s) && |s.stages| == |fs| && Enabled(s, a) && s.generated <= |items|
    ensures var s' := Next(s, a, items, fs);
      && Shape(s') && |s'.stages| == |s.stages|
      && ToGenerate(s', items) == ToGenerate(s, items)
           - (if a.Generate? && s.generated < |items| then Weight(|s.stages|, 0) + 1
              else if a.Generate? || a.StopGenerating? || a.Cancel? then 1 else 0)
  {
    var w := Weight(|s.stages|, 0) + 1;
    assert (|items| - (s.generated + 1)) * w == (|items| - s.generated) * w - w;
  }

  lemma StepSpendsBudget<T>(s: Chain<T>, a: Action, items: seq<T>, fs: seq<Transform<T>>, s': Chain<T>)
    requires Shape(s) && |s.stages| == |fs| && Enabled(s, a) && s.generated <= |items| && s' == Next(s, a, items, fs)
    ensures Shape(s') && |s'.stages| == |s.stages| && Budget(s', items) < Budget(s, items)
  {
    StepIsLocal(s, a, items, fs);
    SourceSpends(s, a, items, fs);
    if a.Generate? || a.StopGenerating? || a.Cancel? || a.Read? {
      EndsSpendLocally(s, a, items, fs);
    } else {
      StagesSpendLocally(s, a, items, fs, a.i);
    }
    CostChange(s, s', |s.stages|, Site(s, a));
  }

  lemma {:induction false} FreshCost<T>(n: nat, k: nat)
    requires k <= n
    ensures Shape(NewChain<T>(n)) && CostUpTo(NewChain<T>(n), k) == k
  {
    if k > 0 {
      FreshCost<T>(n, k - 1);
    }
  }

  lemma {:induction false} RunSpendsBudget<T(!new)>(run: seq<Chain<T>>, acts: seq<Action>, items: seq<T>,
          fs: seq<Transform<T>>, i: nat)
    requires IsRun(run, acts, items, fs) && i <= |acts|
    ensures Shape(run[i]) && Budget(run[i], items) + i <= |items| * (3 * |fs| + 2) + |fs| + 2
  {
    if i > 0 {
      RunSpendsBudget(run, acts, items, fs, i - 1);
      RunKeepsInv(run, acts, items, fs, i - 1);
      StepSpendsBudget(run[i - 1], acts[i - 1], items, fs, run[i]);
    } else {
      FreshCost<T>(|fs|, |fs|);
    }
  }

  /** A stage that has not exited and has room downstream can move, or someone upstream can. */
  lemma {:induction false} SomeoneMoves<T>(s: Chain<T>, items: seq<T>, fs: seq<Transform<T>>, i: nat)
    returns (a: Action)
    requires Inv(s, items, fs) && i < |fs| && !s.stages[i].Exited?
        && s.channels[i + 1].taken == |s.channels[i + 1].sent|
    ensures Enabled(s, a) && !a.Cancel?
    decreases i
  {
    if s.stages[i].Holding? {
      a := Check(i);
    } else if s.stages[i].Sending? {
      a := Send(i);
    } else if s.channels[i].taken < |s.channels[i].sent| || s.channels[i].closed {
      a := Receive(i);
    } else if i == 0 {
      a := Generate;
    } else {
      assert StageSound(s, fs, i - 1);
      a := SomeoneMoves(s, items, fs, i - 1);
    }
  }

  /** A stage waits exactly while the one item its output channel has room for is unread. */
  lemma SendWaitsIff<T>(s: Chain<T>, items: seq<T>, fs: seq<Transform<T>>, i: nat)
    requires Inv(s, items, fs) && i < |s.stages| && s.stages[i].Sending?
    ensures Enabled(s, Send(i)) <==> |s.channels[i + 1].sent| - s.channels[i + 1].taken < 1
  {
  }

  lemma NeverStuck<T>(s: Chain<T>, items: seq<T>, fs: seq<Transform<T>>) returns (a: Action)
    requires Inv(s, items, fs) && !Finished(s)
    ensures Enabled(s, a) && !a.Cancel?
  {
    var n := |fs|;
    if s.channels[n].taken < |s.channels[n].sent| {
      a := Read;
    } else if n == 0 {
      a := Generate;
    } else {
      assert StageSound(s, fs, n - 1);
      a := SomeoneMoves(s, items, fs, n - 1);
    }
  }

  // ------------------------------------------------------------ the theorem

  /** Every schedule of a chain of any number of stages over any items ends, within a bound linear
      in each, and only once its output is closed and drained; it never touches a closed channel. */
  lemma EveryScheduleEnds<T(!new)>(run: seq<Chain<T>>, acts: seq<Action>, items: seq<T>, fs: seq<Transform<T>>)
    requires IsRun(run, acts, items, fs)
    ensures |acts| <= |items| * (3 * |fs| + 2) + |fs| + 2
    ensures var last := run[|acts|];
      Shape(last) && !last.panicked && ((forall a | Enabled(last, a) :: a.Cancel?) ==> Finished(last))
  {
    var last := run[|acts|];
    RunKeepsInv(run, acts, items, fs, |acts|);
    RunSpendsBudget(run, acts, items, fs, |acts|);
    assert (|items| - last.generated) * (Weight(|last.stages|, 0) + 1) >= 0;
    if !Finished(last) {
      var a := NeverStuck(last, items, fs);
    }
  }

  /** What comes out of a chain is a prefix, in order, of the composed filter-map of the items, and
      all of it once an uncancelled schedule is over. */
  lemma EveryScheduleFilterMaps<T(!new)>(run: seq<Chain<T>>, acts: seq<Action>, items: seq<T>, fs: seq<Transform<T>>)
    requires IsRun(run, acts, items, fs)
    ensures var last := run[|acts|];
      && Shape(last) && |last.stages| == |fs|
      && last.channels[|fs|].sent <= Composed(fs, items, |fs|)
      && (Finished(last) && !last.cancelled ==> last.channels[|fs|].sent == Composed(fs, items, |fs|))
  {
    var last := run[|acts|];
    RunKeepsInv(run, acts, items, fs, |acts|);
    EmittedIsPrefix(last, items, fs, |fs|);
    if Finished(last) && !last.cancelled {
      ClosedIsComplete(last, items, fs, |fs|);
    }
  }
}

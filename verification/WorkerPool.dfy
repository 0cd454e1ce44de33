/**
 RunWorkerPool: N goroutines share one closed input channel, a closer goroutine waits for all of
 them and closes the output. Each goroutine is a program counter, each channel operation one step;
 the scheduler picks any enabled step and cancellation may strike at any time. Sending on or
 closing a closed channel panics, as in Go.
 */
module WorkerPool {

  datatype Worker<I, O> = Idle | Holding(item: I) | Processing(item: I) | Sending(result: O) | Exited

  /** `wg` is the WaitGroup counter, `received` what the reader has taken from the output,
      `lost` the results a cancelled worker never delivered. */
  datatype Pool<I, !O> = Pool(
    input: seq<I>,
    workers: seq<Worker<I, O>>,
    wg: nat,
    buffer: seq<O>,
    closed: bool,
    panicked: bool,
    cancelled: bool,
    received: seq<O>,
    lost: seq<O>)

  datatype Action = Receive(w: nat) | Check(w: nat) | Process(w: nat) | Send(w: nat) | GiveUp(w: nat)
    | Close | Read | Cancel

  function NewPool<I, O>(numWorkers: nat, input: seq<I>): Pool<I, O> {
    Pool(input, seq(numWorkers, i => Idle), numWorkers, [], false, false, false, [], [])
  }

  predicate Enabled<I, O>(s: Pool<I, O>, a: Action) {
    match a
    case Receive(w) => w < |s.workers| && s.workers[w].Idle?
    case Check(w) => w < |s.workers| && s.workers[w].Holding?
    case Process(w) => w < |s.workers| && s.workers[w].Processing?
    case Send(w) => w < |s.workers| && s.workers[w].Sending? && |s.buffer| < |s.workers|
    case GiveUp(w) => w < |s.workers| && s.workers[w].Sending? && s.cancelled
    case Close => s.wg == 0 && !s.closed
    case Read => s.buffer != []
    case Cancel => !s.cancelled
  }

  function Exit<I, O>(s: Pool<I, O>, w: nat): Pool<I, O>
    requires w < |s.workers|
  {
    s.(workers := s.workers[w := Exited], wg := if s.wg > 0 then s.wg - 1 else 0, panicked := s.panicked || s.wg == 0)
  }

  function Next<I, O>(s: Pool<I, O>, a: Action, process: I -> O): Pool<I, O>
    requires Enabled(s, a)
  {
    match a
    case Receive(w) =>
      if s.input == [] then Exit(s, w)
      else s.(input := s.input[1..], workers := s.workers[w := Holding(s.input[0])])
    case Check(w) =>
      var item := s.workers[w].item;
      if s.cancelled then Exit(s, w).(lost := s.lost + [process(item)])
      else s.(workers := s.workers[w := Processing(item)])
    case Process(w) => s.(workers := s.workers[w := Sending(process(s.workers[w].item))])
    case Send(w) =>
      s.(buffer := s.buffer + [s.workers[w].result],
         workers := s.workers[w := Idle],
         panicked := s.panicked || s.closed)
    case GiveUp(w) => Exit(s, w).(lost := s.lost + [s.workers[w].result])
    case Close => s.(closed := true, panicked := s.panicked || s.closed)
    case Read => s.(received := s.received + [s.buffer[0]], buffer := s.buffer[1..])
    case Cancel => s.(cancelled := true)
  }

  ghost predicate IsRun<I(!new), O(!new)>(run: seq<Pool<I, O>>, acts: seq<Action>, process: I -> O) {
    && |run| == |acts| + 1
    && forall i | 0 <= i < |acts| :: Enabled(run[i], acts[i]) && run[i + 1] == Next(run[i], acts[i], process)
  }

  /** Everything is over: the output is closed and drained. */
  predicate Finished<I, O>(s: Pool<I, O>) {
    s.closed && s.buffer == []
  }

  // ------------------------------------------------------------ what each item has become

  function Image<I, O>(items: seq<I>, process: I -> O): seq<O> {
    if items == [] then [] else [process(items[0])] + Image(items[1..], process)
  }

  function Is<O(==)>(y: O, x: O): nat {
    if y == x then 1 else 0
  }

  function Count<O(==)>(s: seq<O>, x: O): nat {
    if s == [] then 0 else Is(s[0], x) + Count(s[1..], x)
  }

  lemma {:induction false} CountAppend<O>(s: seq<O>, y: O, x: O)
    ensures Count(s + [y], x) == Count(s, x) + Is(y, x)
  {
    if s != [] {
      CountAppend(s[1..], y, x);
      assert (s + [y])[1..] == s[1..] + [y];
    }
  }

  lemma {:induction false} CountIsMultiplicity<O>(s: seq<O>, x: O)
    ensures Count(s, x) == multiset(s)[x]
  {
    if s != [] {
      CountIsMultiplicity(s[1..], x);
      assert s == [s[0]] + s[1..];
    }
  }

  /** How many copies of the result `x` a worker has in hand. */
  function InHand<I, O(==)>(w: Worker<I, O>, process: I -> O, x: O): nat {
    match w
    case Holding(item) => Is(process(item), x)
    case Processing(item) => Is(process(item), x)
    case Sending(result) => Is(result, x)
    case _ => 0
  }

  function AllInHand<I, O(==)>(ws: seq<Worker<I, O>>, process: I -> O, x: O): nat {
    if ws == [] then 0 else InHand(ws[0], process, x) + AllInHand(ws[1..], process, x)
  }

  /** Copies of `x` still to be computed, in hand, in the channel, received, or lost. */
  function Copies<I, O(==)>(s: Pool<I, O>, process: I -> O, x: O): nat {
    Count(Image(s.input, process), x) + AllInHand(s.workers, process, x) + Count(s.buffer, x) + Count(s.received, x)
        + Count(s.lost, x)
  }

  lemma {:induction false} InHandUpdate<I, O>(ws: seq<Worker<I, O>>, w: nat, v: Worker<I, O>, process: I -> O, x: O)
    requires w < |ws|
    ensures AllInHand(ws[w := v], process, x)
        == AllInHand(ws, process, x) - InHand(ws[w], process, x) + InHand(v, process, x)
  {
    if w > 0 {
      InHandUpdate(ws[1..], w - 1, v, process, x);
      assert ws[w := v][1..] == ws[1..][w - 1 := v];
    } else {
      assert ws[w := v][1..] == ws[1..];
    }
  }

  lemma {:induction false} NothingInHand<I, O>(ws: seq<Worker<I, O>>, process: I -> O, x: O)
    requires forall w | w in ws :: w.Idle? || w.Exited?
    ensures AllInHand(ws, process, x) == 0
  {
    if ws != [] {
      NothingInHand(ws[1..], process, x);
    }
  }

  function Running<I, O>(ws: seq<Worker<I, O>>): (n: nat)
    ensures n <= |ws|
    ensures n == 0 <==> forall w | w in ws :: w.Exited?
  {
    if ws == [] then 0 else (if ws[0].Exited? then 0 else 1) + Running(ws[1..])
  }

  lemma {:induction false} RunningUpdate<I, O>(ws: seq<Worker<I, O>>, w: nat, v: Worker<I, O>)
    requires w < |ws|
    ensures Running(ws[w := v]) == Running(ws) - (if ws[w].Exited? then 0 else 1) + (if v.Exited? then 0 else 1)
  {
    if w > 0 {
      RunningUpdate(ws[1..], w - 1, v);
      assert ws[w := v][1..] == ws[1..][w - 1 := v];
    }
  }

  lemma StepKeepsCopies<I, O>(s: Pool<I, O>, a: Action, process: I -> O, x: O)
    requires Enabled(s, a)
    ensures Copies(Next(s, a, process), process, x) == Copies(s, process, x)
  {
    match a
    case Close =>
    case Cancel =>
    case Read =>
      CountAppend(s.received, s.buffer[0], x);
    case Receive(w) =>
      InHandUpdate(s.workers, w, if s.input == [] then Exited else Holding(s.input[0]), process, x);
    case Check(w) =>
      InHandUpdate(s.workers, w, if s.cancelled then Exited else Processing(s.workers[w].item), process, x);
      CountAppend(s.lost, process(s.workers[w].item), x);
    case Process(w) =>
      InHandUpdate(s.workers, w, Sending(process(s.workers[w].item)), process, x);
    case Send(w) =>
      InHandUpdate(s.workers, w, Idle, process, x);
      CountAppend(s.buffer, s.workers[w].result, x);
    case GiveUp(w) =>
      InHandUpdate(s.workers, w, Exited, process, x);
      CountAppend(s.lost, s.workers[w].result, x);
  }

  /** Nothing is created, and nothing is lost but by cancellation; the output is closed only when
      every worker has exited; an uncancelled worker exits only on an exhausted input. */
  ghost predicate Inv<I, O>(s: Pool<I, O>) {
    && s.wg == Running(s.workers)
    && (s.closed ==> s.wg == 0)
    && !s.panicked
    && |s.buffer| <= |s.workers|
    && (!s.cancelled ==> s.lost == [] && forall w | 0 <= w < |s.workers| && s.workers[w].Exited? :: s.input == [])
  }

  lemma StepKeepsInv<I, O>(s: Pool<I, O>, a: Action, process: I -> O)
    requires Inv(s) && Enabled(s, a)
    ensures Inv(Next(s, a, process))
  {
    var s' := Next(s, a, process);
    if !a.Close? && !a.Cancel? && !a.Read? {
      assert s'.workers == s.workers[a.w := s'.workers[a.w]];
      assert s.workers[a.w] in s.workers;
      RunningUpdate(s.workers, a.w, s'.workers[a.w]);
    }
  }

  lemma {:induction false} RunKeepsInv<I(!new), O(!new)>(run: seq<Pool<I, O>>, acts: seq<Action>, n: nat,
          input: seq<I>, process: I -> O, i: nat)
    requires IsRun(run, acts, process) && run[0] == NewPool(n, input) && i <= |acts|
    ensures |run[i].workers| == n && Inv(run[i])
  {
    if i > 0 {
      RunKeepsInv(run, acts, n, input, process, i - 1);
      StepKeepsInv(run[i - 1], acts[i - 1], process);
    } else {
      AllIdle<I, O>(n);
    }
  }

  lemma {:induction false} RunKeepsCopies<I(!new), O(!new)>(run: seq<Pool<I, O>>, acts: seq<Action>, n: nat,
          input: seq<I>, process: I -> O, i: nat, x: O)
    requires IsRun(run, acts, process) && run[0] == NewPool(n, input) && i <= |acts|
    ensures Copies(run[i], process, x) == Count(Image(input, process), x)
  {
    if i > 0 {
      RunKeepsCopies(run, acts, n, input, process, i - 1, x);
      StepKeepsCopies(run[i - 1], acts[i - 1], process, x);
    } else {
      NothingInHand<I, O>(run[0].workers, process, x);
    }
  }

  // ------------------------------------------------------------ termination

  /** How much a worker may still do before it blocks. */
  function Effort<I, O>(w: Worker<I, O>): nat {
    match w
    case Exited => 0
    case Idle => 1
    case Sending(_) => 3
    case Processing(_) => 4
    case Holding(_) => 5
  }

  function AllEffort<I, O>(ws: seq<Worker<I, O>>): nat {
    if ws == [] then 0 else Effort(ws[0]) + AllEffort(ws[1..])
  }

  lemma {:induction false} EffortUpdate<I, O>(ws: seq<Worker<I, O>>, w: nat, v: Worker<I, O>)
    requires w < |ws|
    ensures AllEffort(ws[w := v]) == AllEffort(ws) - Effort(ws[w]) + Effort(v)
  {
    if w > 0 {
      EffortUpdate(ws[1..], w - 1, v);
      assert ws[w := v][1..] == ws[1..][w - 1 := v];
    }
  }

  /** The number of steps any schedule can still take. */
  function Budget<I, O>(s: Pool<I, O>): nat {
    5 * |s.input| + AllEffort(s.workers) + |s.buffer| + (if s.closed then 0 else 1) + (if s.cancelled then 0 else 1)
  }

  lemma StepSpendsBudget<I, O>(s: Pool<I, O>, a: Action, process: I -> O)
    requires Enabled(s, a)
    ensures Budget(Next(s, a, process)) < Budget(s)
  {
    if !a.Close? && !a.Cancel? && !a.Read? {
      var s' := Next(s, a, process);
      assert s'.workers == s.workers[a.w := s'.workers[a.w]];
      EffortUpdate(s.workers, a.w, s'.workers[a.w]);
    }
  }

  lemma {:induction false} AllIdle<I, O>(n: nat)
    ensures Running(seq<Worker<I, O>>(n, i => Idle)) == n
    ensures AllEffort(seq<Worker<I, O>>(n, i => Idle)) == n
  {
    if n > 0 {
      AllIdle<I, O>(n - 1);
      assert seq<Worker<I, O>>(n, i => Idle)[1..] == seq<Worker<I, O>>(n - 1, i => Idle);
    }
  }

  lemma {:induction false} RunSpendsBudget<I(!new), O(!new)>(run: seq<Pool<I, O>>, acts: seq<Action>, process: I -> O,
          i: nat)
    requires IsRun(run, acts, process) && i <= |acts|
    ensures Budget(run[i]) + i <= Budget(run[0])
  {
    if i > 0 {
      RunSpendsBudget(run, acts, process, i - 1);
      StepSpendsBudget(run[i - 1], acts[i - 1], process);
    }
  }

  /** A result waits for the reader exactly while there is one waiting for each worker already. */
  lemma SendWaitsIff<I, O>(s: Pool<I, O>, w: nat)
    requires Inv(s) && w < |s.workers| && s.workers[w].Sending?
    ensures Enabled(s, Send(w)) <==> |s.buffer| != |s.workers|
  {
  }

  /** Something other than cancellation can happen until the output is closed and drained. */
  lemma NeverStuck<I, O>(s: Pool<I, O>) returns (a: Action)
    requires Inv(s) && !Finished(s)
    ensures Enabled(s, a) && !a.Cancel?
  {
    if s.buffer != [] {
      a := Read;
    } else if s.wg == 0 {
      a := Close;
    } else {
      var w: nat :| w < |s.workers| && !s.workers[w].Exited?;
      a := if s.workers[w].Idle? then Receive(w)
        else if s.workers[w].Holding? then Check(w)
        else if s.workers[w].Processing? then Process(w)
        else Send(w);
    }
  }

  lemma OverMeansOver<I, O>(s: Pool<I, O>, a: Action)
    requires Inv(s) && Finished(s) && Enabled(s, a)
    ensures a.Cancel?
  {
    assert forall w: nat | w < |s.workers| :: s.workers[w] in s.workers;
  }

  // ------------------------------------------------------------ the theorem

  lemma {:induction false} NoWorkersNoResults<I(!new), O(!new)>(run: seq<Pool<I, O>>, acts: seq<Action>, input: seq<I>,
          process: I -> O, i: nat)
    requires IsRun(run, acts, process) && run[0] == NewPool(0, input) && i <= |acts|
    ensures run[i].workers == [] && run[i].buffer == [] && run[i].received == []
  {
    if i > 0 {
      NoWorkersNoResults(run, acts, input, process, i - 1);
    }
  }

  /** Every schedule of a pool of `n` workers: it cannot take more than 5|input| + n + 2 steps and
      is stuck only when the output is closed and drained; a closed output is never sent on nor
      closed again; at most `n` items are in process and at most `n` results wait; what has been
      received is a part of the image of the input, and once an uncancelled schedule is over it is
      all of it, unless there is no worker at all. */
  lemma EverySchedule<I(!new), O(!new)>(run: seq<Pool<I, O>>, acts: seq<Action>, n: nat, input: seq<I>, process: I -> O)
    requires IsRun(run, acts, process) && run[0] == NewPool(n, input)
    ensures |acts| <= 5 * |input| + n + 2
    ensures var last := run[|acts|];
      && (Finished(last) <==> forall a | Enabled(last, a) :: a.Cancel?)
      && !last.panicked && |last.workers| == n && |last.buffer| <= n
      && multiset(last.received) <= multiset(Image(input, process))
      && (last.closed ==> forall w | w in last.workers :: w.Exited?)
      && (Finished(last) && !last.cancelled
          ==> multiset(last.received) == if n == 0 then multiset{} else multiset(Image(input, process)))
  {
    var last := run[|acts|];
    RunKeepsInv(run, acts, n, input, process, |acts|);
    RunSpendsBudget(run, acts, process, |acts|);
    AllIdle<I, O>(n);
    forall x ensures multiset(last.received)[x] <= multiset(Image(input, process))[x] {
      RunKeepsCopies(run, acts, n, input, process, |acts|, x);
      CountIsMultiplicity(last.received, x);
      CountIsMultiplicity(Image(input, process), x);
    }
    if Finished(last) {
      forall a | Enabled(last, a) ensures a.Cancel? {
        OverMeansOver(last, a);
      }
      if n == 0 {
        NoWorkersNoResults(run, acts, input, process, |acts|);
      } else if !last.cancelled {
        assert last.workers[0] in last.workers;
        forall x ensures multiset(last.received)[x] == multiset(Image(input, process))[x] {
          RunKeepsCopies(run, acts, n, input, process, |acts|, x);
          CountIsMultiplicity(last.received, x);
          CountIsMultiplicity(Image(input, process), x);
          NothingInHand(last.workers, process, x);
        }
      }
    } else {
      var a := NeverStuck(last);
    }
  }

  // ------------------------------------------------------------ the first n results

  function One<O>(y: O, good: O -> bool): nat {
    if good(y) then 1 else 0
  }

  function Goods<O>(s: seq<O>, good: O -> bool): nat {
    if s == [] then 0 else One(s[0], good) + Goods(s[1..], good)
  }

  lemma {:induction false} GoodsAppend<O>(s: seq<O>, y: O, good: O -> bool)
    ensures Goods(s + [y], good) == Goods(s, good) + One(y, good)
  {
    if s != [] {
      GoodsAppend(s[1..], y, good);
      assert (s + [y])[1..] == s[1..] + [y];
    }
  }

  lemma {:induction false} SomeGood<O>(s: seq<O>, good: O -> bool)
    ensures Goods(s, good) > 0 <==> exists i :: 0 <= i < |s| && good(s[i])
  {
    if s != [] {
      SomeGood(s[1..], good);
      if exists i :: 0 <= i < |s| && good(s[i]) {
        var i :| 0 <= i < |s| && good(s[i]);
        assert i > 0 ==> s[1..][i - 1] == s[i];
      }
    }
  }

  /** The result a worker has in hand, or will have once its item is processed. */
  function Due<I, O>(w: Worker<I, O>, process: I -> O): O
    requires w.Holding? || w.Processing? || w.Sending?
  {
    if w.Sending? then w.result else process(w.item)
  }

  predicate Busy<I, O>(w: Worker<I, O>) {
    w.Holding? || w.Processing? || w.Sending?
  }

  function GoodInHand<I, O>(w: Worker<I, O>, process: I -> O, good: O -> bool): nat {
    if Busy(w) then One(Due(w, process), good) else 0
  }

  predicate BadInHand<I, O>(w: Worker<I, O>, process: I -> O, good: O -> bool) {
    Busy(w) && !good(Due(w, process))
  }

  function Hands<I, O>(ws: seq<Worker<I, O>>, process: I -> O, good: O -> bool): nat {
    if ws == [] then 0 else GoodInHand(ws[0], process, good) + Hands(ws[1..], process, good)
  }

  lemma {:induction false} HandsUpdate<I, O>(ws: seq<Worker<I, O>>, w: nat, v: Worker<I, O>, process: I -> O,
          good: O -> bool)
    requires w < |ws|
    ensures Hands(ws[w := v], process, good)
         == Hands(ws, process, good) - GoodInHand(ws[w], process, good) + GoodInHand(v, process, good)
  {
    if w > 0 {
      HandsUpdate(ws[1..], w - 1, v, process, good);
      assert ws[w := v][1..] == ws[1..][w - 1 := v];
    } else {
      assert ws[w := v][1..] == ws[1..];
    }
  }

  /** A worker holds at most one result; one that holds a bad one holds no good one. */
  lemma {:induction false} HandsBound<I, O>(ws: seq<Worker<I, O>>, process: I -> O, good: O -> bool)
    ensures Hands(ws, process, good) <= Running(ws)
    ensures (exists w :: 0 <= w < |ws| && BadInHand(ws[w], process, good)) ==> Hands(ws, process, good) < Running(ws)
  {
    if ws != [] {
      HandsBound(ws[1..], process, good);
      if w :| 0 < w < |ws| && BadInHand(ws[w], process, good) {
        assert ws[1..][w - 1] == ws[w];
      }
    }
  }

  /** The good results that are nowhere but in front of the workers, in hand, or lost. */
  function Undelivered<I, O>(s: Pool<I, O>, process: I -> O, good: O -> bool): nat {
    Goods(Image(s.input, process), good) + Hands(s.workers, process, good) + Goods(s.lost, good)
  }

  function Delivered<I, O>(s: Pool<I, O>): seq<O> {
    s.received + s.buffer
  }

  /** Only a send delivers. */
  lemma StepDelivers<I, O>(s: Pool<I, O>, a: Action, process: I -> O)
    requires Enabled(s, a)
    ensures Delivered(Next(s, a, process)) == Delivered(s) + if a.Send? then [s.workers[a.w].result] else []
  {
  }

  lemma StepUndelivers<I, O>(s: Pool<I, O>, a: Action, process: I -> O, good: O -> bool)
    requires Enabled(s, a)
    ensures Undelivered(Next(s, a, process), process, good)
         == Undelivered(s, process, good) - if a.Send? then One(s.workers[a.w].result, good) else 0
  {
    match a
    case Close =>
    case Cancel =>
    case Read =>
    case Receive(w) =>
      HandsUpdate(s.workers, w, if s.input == [] then Exited else Holding(s.input[0]), process, good);
    case Check(w) =>
      HandsUpdate(s.workers, w, if s.cancelled then Exited else Processing(s.workers[w].item), process, good);
      GoodsAppend(s.lost, process(s.workers[w].item), good);
    case Process(w) =>
      HandsUpdate(s.workers, w, Sending(process(s.workers[w].item)), process, good);
    case Send(w) =>
      HandsUpdate(s.workers, w, Idle, process, good);
    case GiveUp(w) =>
      HandsUpdate(s.workers, w, Exited, process, good);
      GoodsAppend(s.lost, s.workers[w].result, good);
  }

  lemma {:induction false} GoodsBound<O>(s: seq<O>, good: O -> bool)
    ensures Goods(s, good) <= |s|
  {
    if s != [] {
      GoodsBound(s[1..], good);
    }
  }

  lemma {:induction false} FirstGoods<I, O>(input: seq<I>, k: nat, n: nat, process: I -> O, good: O -> bool)
    requires n <= k <= |input| && forall i | 0 <= i < n :: good(process(input[i]))
    ensures Goods(Image(input, process), good) >= n + Goods(Image(input[k..], process), good)
  {
    if k > 0 {
      FirstGoods(input[1..], k - 1, if n > 0 then n - 1 else 0, process, good);
      assert input[1..][k - 1..] == input[k..];
    } else {
      assert input[0..] == input;
    }
  }

  /** Items are handed out in order, each exited worker has lost at most one result, and a bad result is
      in hand only when the first `n` items have gone out. */
  ghost predicate HandedOut<I, O>(s: Pool<I, O>, n: nat, input: seq<I>, process: I -> O, good: O -> bool) {
    && |s.workers| == n && |s.input| <= |input| && s.input == input[|input| - |s.input|..]
    && |s.lost| + Running(s.workers) <= n
    && forall w | 0 <= w < n && BadInHand(s.workers[w], process, good) :: |input| - |s.input| > n
  }

  ghost predicate GoodFirst<I, O>(s: Pool<I, O>, input: seq<I>, process: I -> O, good: O -> bool) {
    && Undelivered(s, process, good) + Goods(Delivered(s), good) == Goods(Image(input, process), good)
    && (Goods(Delivered(s), good) == 0 ==> Delivered(s) == [])
  }

  lemma StepHandsOut<I, O>(s: Pool<I, O>, a: Action, n: nat, input: seq<I>, process: I -> O, good: O -> bool)
    requires Enabled(s, a) && HandedOut(s, n, input, process, good)
    requires forall i | 0 <= i < |input| && i < n :: good(process(input[i]))
    ensures HandedOut(Next(s, a, process), n, input, process, good)
  {
    var s' := Next(s, a, process);
    if !a.Close? && !a.Cancel? && !a.Read? {
      RunningUpdate(s.workers, a.w, s'.workers[a.w]);
      assert s'.workers == s.workers[a.w := s'.workers[a.w]];
      if a.Receive? && s.input != [] {
        assert input[|input| - |s.input|] == s.input[0];
      }
      forall w | 0 <= w < n && BadInHand(s'.workers[w], process, good) ensures |input| - |s'.input| > n {
        if w != a.w {
          assert s'.workers[w] == s.workers[w];
        } else if !a.Receive? {
          assert BadInHand(s.workers[w], process, good);
        }
      }
    }
  }

  lemma StepKeepsGoodFirst<I, O>(s: Pool<I, O>, a: Action, n: nat, input: seq<I>, process: I -> O, good: O -> bool)
    requires Enabled(s, a) && HandedOut(s, n, input, process, good) && GoodFirst(s, input, process, good)
    requires forall i | 0 <= i < |input| && i < n :: good(process(input[i]))
    ensures GoodFirst(Next(s, a, process), input, process, good)
  {
    StepDelivers(s, a, process);
    StepUndelivers(s, a, process, good);
    if a.Send? {
      GoodsAppend(Delivered(s), s.workers[a.w].result, good);
      if !good(s.workers[a.w].result) {
        BadComesLater(s, a.w, n, input, process, good);
      }
    } else {
      assert Delivered(s) + [] == Delivered(s);
    }
  }

  /** When a bad result is about to be sent, a good one has been delivered: at most n - 1 are in other
      hands or lost. */
  lemma BadComesLater<I, O>(s: Pool<I, O>, w: nat, n: nat, input: seq<I>, process: I -> O, good: O -> bool)
    requires HandedOut(s, n, input, process, good) && GoodFirst(s, input, process, good)
    requires w < n && BadInHand(s.workers[w], process, good)
    requires forall i | 0 <= i < |input| && i < n :: good(process(input[i]))
    ensures Goods(Delivered(s), good) > 0
  {
    FirstGoods(input, |input| - |s.input|, n, process, good);
    HandsBound(s.workers, process, good);
    GoodsBound(s.lost, good);
  }

  lemma {:induction false} NewHands<I, O>(n: nat, process: I -> O, good: O -> bool)
    ensures Hands(seq<Worker<I, O>>(n, i => Idle), process, good) == 0
  {
    if n > 0 {
      NewHands<I, O>(n - 1, process, good);
      assert seq<Worker<I, O>>(n, i => Idle)[1..] == seq<Worker<I, O>>(n - 1, i => Idle);
    }
  }

  lemma {:induction false} RunKeepsOrder<I(!new), O(!new)>(run: seq<Pool<I, O>>, acts: seq<Action>, n: nat,
          input: seq<I>, process: I -> O, good: O -> bool, i: nat)
    requires IsRun(run, acts, process) && run[0] == NewPool(n, input) && i <= |acts|
    requires forall j | 0 <= j < |input| && j < n :: good(process(input[j]))
    ensures HandedOut(run[i], n, input, process, good) && GoodFirst(run[i], input, process, good)
  {
    if i > 0 {
      RunKeepsOrder(run, acts, n, input, process, good, i - 1);
      StepHandsOut(run[i - 1], acts[i - 1], n, input, process, good);
      StepKeepsGoodFirst(run[i - 1], acts[i - 1], n, input, process, good);
    } else {
      AllIdle<I, O>(n);
      NewHands<I, O>(n, process, good);
      assert input[0..] == input;
    }
  }

  /** If the first `n` items have good results, then under every schedule, cancelled or not, a delivered
      result is never without a good one beside it. */
  lemma GoodAmongDelivered<I(!new), O(!new)>(run: seq<Pool<I, O>>, acts: seq<Action>, n: nat, input: seq<I>,
          process: I -> O, good: O -> bool)
    requires IsRun(run, acts, process) && run[0] == NewPool(n, input)
    requires forall j | 0 <= j < |input| && j < n :: good(process(input[j]))
    ensures var all := Delivered(run[|acts|]); all != [] ==> exists i :: 0 <= i < |all| && good(all[i])
  {
    RunKeepsOrder(run, acts, n, input, process, good, |acts|);
    SomeGood(Delivered(run[|acts|]), good);
  }

  // ------------------------------------------------------------ schedules that lose results

  lemma Extend<I(!new), O(!new)>(run: seq<Pool<I, O>>, acts: seq<Action>, a: Action, process: I -> O)
    returns (run': seq<Pool<I, O>>, acts': seq<Action>)
    requires IsRun(run, acts, process) && Enabled(run[|acts|], a)
    ensures IsRun(run', acts', process) && run'[0] == run[0] && run'[|acts'|] == Next(run[|acts|], a, process)
  {
    run', acts' := run + [Next(run[|acts|], a, process)], acts + [a];
  }

  /** The first `k` workers take one item each. */
  function Taken<I, O>(n: nat, input: seq<I>, k: nat): Pool<I, O>
    requires k <= n && k <= |input|
  {
    NewPool(n, input).(input := input[k..],
        workers := seq(n, i requires 0 <= i < n => if i < k then Holding(input[i]) else Idle))
  }

  lemma {:induction false} TakeOneEach<I(!new), O(!new)>(n: nat, input: seq<I>, k: nat, process: I -> O)
    returns (run: seq<Pool<I, O>>, acts: seq<Action>)
    requires k <= n && k <= |input|
    ensures IsRun(run, acts, process) && run[0] == NewPool(n, input) && run[|acts|] == Taken<I, O>(n, input, k)
  {
    if k == 0 {
      run, acts := [NewPool(n, input)], [];
      assert Taken<I, O>(n, input, 0) == NewPool(n, input);
    } else {
      run, acts := TakeOneEach(n, input, k - 1, process);
      run, acts := Extend(run, acts, Receive(k - 1), process);
      assert input[k - 1..][0] == input[k - 1] && input[k - 1..][1..] == input[k..];
      assert run[|acts|].workers == Taken<I, O>(n, input, k).workers;
    }
  }

  predicate NothingComputed<I, O>(s: Pool<I, O>) {
    forall w | 0 <= w < |s.workers| :: !s.workers[w].Processing? && !s.workers[w].Sending?
  }

  /** From a cancelled state in which no worker has computed anything yet, some schedule delivers what is
      in the channel and nothing more. */
  lemma {:induction false} WindDown<I(!new), O(!new)>(run: seq<Pool<I, O>>, acts: seq<Action>, process: I -> O)
    returns (run': seq<Pool<I, O>>, acts': seq<Action>)
    requires IsRun(run, acts, process) && Inv(run[|acts|]) && run[|acts|].cancelled && NothingComputed(run[|acts|])
    ensures IsRun(run', acts', process) && run'[0] == run[0] && Finished(run'[|acts'|])
    ensures run'[|acts'|].received == Delivered(run[|acts|])
    decreases Budget(run[|acts|])
  {
    var s := run[|acts|];
    if Finished(s) {
      run', acts' := run, acts;
      assert Delivered(s) == s.received;
    } else {
      var a := NeverStuck(s);
      StepSpendsBudget(s, a, process);
      StepKeepsInv(s, a, process);
      StepDelivers(s, a, process);
      run', acts' := Extend(run, acts, a, process);
      run', acts' := WindDown(run', acts', process);
    }
  }

  /** Some schedule delivers nothing at all. */
  lemma NothingDelivered<I(!new), O(!new)>(n: nat, input: seq<I>, process: I -> O)
    returns (run: seq<Pool<I, O>>, acts: seq<Action>)
    ensures IsRun(run, acts, process) && run[0] == NewPool(n, input) && Finished(run[|acts|])
        && run[|acts|].received == []
  {
    AllIdle<I, O>(n);
    run, acts := [NewPool(n, input)], [];
    run, acts := Extend(run, acts, Cancel, process);
    run, acts := WindDown(run, acts, process);
  }

  /** For each of the first `n` items some schedule delivers its result alone. */
  lemma OneDelivered<I(!new), O(!new)>(n: nat, input: seq<I>, k: nat, process: I -> O)
    returns (run: seq<Pool<I, O>>, acts: seq<Action>)
    requires k < n && k < |input|
    ensures IsRun(run, acts, process) && run[0] == NewPool(n, input) && Finished(run[|acts|])
    ensures run[|acts|].received == [process(input[k])]
  {
    run, acts := TakeOneEach(n, input, k + 1, process);
    run, acts := Extend(run, acts, Check(k), process);
    run, acts := Extend(run, acts, Process(k), process);
    run, acts := Extend(run, acts, Send(k), process);
    run, acts := Extend(run, acts, Cancel, process);
    RunKeepsInv(run, acts, n, input, process, |acts|);
    assert Delivered(run[|acts|]) == [process(input[k])];
    run, acts := WindDown(run, acts, process);
  }
}

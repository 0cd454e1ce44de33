/**
 FanOut and Merge together: the channels FanOut sends on are the ones the forwarders receive from.

 A step of either goroutine family is a step of its own machine, seen by the other as a producer's
 or a reader's step; cancellation reaches both at once.
 */
module FanOutMerge {
  import FanOut
  import Merge

  datatype Net<T> = Net(fan: FanOut.Fan<T>, merger: Merge.Merger<T>)

  datatype Action<T> = FanStep(f: FanOut.Action) | MergeStep(m: Merge.Action<T>) | Cancel

  function NewNet<T>(n: nat): Net<T> {
    Net(FanOut.NewFan(n), Merge.NewMerger(n))
  }

  predicate Enabled<T>(s: Net<T>, a: Action<T>, items: seq<T>) {
    match a
    case FanStep(f) => !f.Take? && !f.Cancel? && FanOut.Enabled(s.fan, f, items)
    case MergeStep(m) => !Merge.Outside(m) && Merge.Enabled(s.merger, m)
    case Cancel => !s.fan.cancelled && !s.merger.cancelled
  }

  function Next<T>(s: Net<T>, a: Action<T>, items: seq<T>): Net<T>
    requires Enabled(s, a, items)
  {
    match a
    case FanStep(f) =>
      var fan' := FanOut.Next(s.fan, f, items);
      Net(fan', s.merger.(inputs := fan'.outputs))
    case MergeStep(m) =>
      var merger' := Merge.Next(s.merger, m);
      Net(s.fan.(outputs := merger'.inputs), merger')
    case Cancel => Net(FanOut.Next(s.fan, FanOut.Cancel, items), Merge.Next(s.merger, Merge.Cancel))
  }

  ghost predicate IsRun<T(!new)>(run: seq<Net<T>>, acts: seq<Action<T>>, items: seq<T>) {
    && |run| == |acts| + 1
    && forall i | 0 <= i < |acts| :: Enabled(run[i], acts[i], items) && run[i + 1] == Next(run[i], acts[i], items)
  }

  predicate Inv<T(==)>(s: Net<T>, items: seq<T>) {
    && FanOut.Inv(s.fan, items) && Merge.Inv(s.merger)
    && s.fan.outputs == s.merger.inputs && s.fan.cancelled == s.merger.cancelled
  }

  // ------------------------------------------------------------ each side's step, seen from the other

  /** What the forwarders see of a step of FanOut: an item fed, a channel closed, or nothing. */
  function Seen<T>(fan: FanOut.Fan<T>, f: FanOut.Action): seq<Merge.Action<T>> {
    if f.Send? && fan.pc.Sending? then [Merge.Feed(fan.pc.ch, fan.pc.item)]
    else if f.CloseNext? && fan.pc.Closing? && fan.pc.ch < |fan.outputs| then [Merge.CloseInput(fan.pc.ch)]
    else []
  }

  lemma FanStepIsProducers<T>(s: Net<T>, f: FanOut.Action, items: seq<T>)
    requires Inv(s, items) && Enabled(s, FanStep(f), items)
    ensures var m', seen := Next(s, FanStep(f), items).merger, Seen(s.fan, f);
      && (seen == [] ==> m' == s.merger)
      && (seen != [] ==>
            Merge.Outside(seen[0]) && Merge.Enabled(s.merger, seen[0]) && m' == Merge.Next(s.merger, seen[0]))
      && (f.Send? <==> seen != [] && seen[0].Feed?)
  {
    if s.fan.pc.Sending? || (s.fan.pc.Closing? && s.fan.pc.ch < |s.fan.outputs|) {
      assert FanOut.OutputSound(s.fan, s.fan.outputs[s.fan.pc.ch], s.fan.pc.ch);
    }
  }

  lemma MergeStepIsReaders<T>(s: Net<T>, m: Merge.Action<T>, items: seq<T>)
    requires Inv(s, items) && Enabled(s, MergeStep(m), items)
    ensures var f' := Next(s, MergeStep(m), items).fan;
      || f' == s.fan
      || (m.Receive? && FanOut.Enabled(s.fan, FanOut.Take(m.c), items)
          && f' == FanOut.Next(s.fan, FanOut.Take(m.c), items))
  {
  }

  lemma StepKeepsInv<T>(s: Net<T>, a: Action<T>, items: seq<T>)
    requires Inv(s, items) && Enabled(s, a, items)
    ensures Inv(Next(s, a, items), items) && |Next(s, a, items).fan.outputs| == |s.fan.outputs|
  {
    match a
    case FanStep(f) =>
      FanOut.StepKeepsInv(s.fan, f, items);
      FanStepIsProducers(s, f, items);
      if Seen(s.fan, f) != [] {
        Merge.StepKeepsInv(s.merger, Seen(s.fan, f)[0]);
      }
    case MergeStep(m) =>
      Merge.StepKeepsInv(s.merger, m);
      MergeStepIsReaders(s, m, items);
      if Next(s, a, items).fan != s.fan {
        FanOut.StepKeepsInv(s.fan, FanOut.Take(m.c), items);
      }
    case Cancel =>
      FanOut.StepKeepsInv(s.fan, FanOut.Cancel, items);
      Merge.StepKeepsInv(s.merger, Merge.Cancel);
  }

  lemma {:induction false} RunKeepsInv<T(!new)>(run: seq<Net<T>>, acts: seq<Action<T>>, n: nat, items: seq<T>, i: nat)
    requires IsRun(run, acts, items) && run[0] == NewNet(n) && i <= |acts|
    ensures Inv(run[i], items) && |run[i].fan.outputs| == n
  {
    if i > 0 {
      RunKeepsInv(run, acts, n, items, i - 1);
      StepKeepsInv(run[i - 1], acts[i - 1], items);
    } else {
      Merge.NewIsSound<T>(n);
    }
  }

  // ------------------------------------------------------------ termination

  function Budget<T>(s: Net<T>, items: seq<T>): int
    requires |s.merger.inputs| == |s.merger.forwarders|
  {
    FanOut.Control(s.fan, items, 3) + Merge.Budget(s.merger)
  }

  lemma StepSpendsBudget<T>(s: Net<T>, a: Action<T>, items: seq<T>)
    requires Inv(s, items) && Enabled(s, a, items) && Inv(Next(s, a, items), items)
    ensures Budget(Next(s, a, items), items) < Budget(s, items)
  {
    match a
    case FanStep(f) =>
      FanOut.StepSpendsControl(s.fan, f, items, 3);
      FanStepIsProducers(s, f, items);
      if Seen(s.fan, f) != [] {
        Merge.StepSpendsBudget(s.merger, Seen(s.fan, f)[0]);
      }
    case MergeStep(m) =>
      Merge.StepSpendsBudget(s.merger, m);
      MergeStepIsReaders(s, m, items);
      if Next(s, a, items).fan != s.fan {
        FanOut.StepSpendsControl(s.fan, FanOut.Take(m.c), items, 3);
      }
    case Cancel =>
      FanOut.StepSpendsControl(s.fan, FanOut.Cancel, items, 3);
      Merge.StepSpendsBudget(s.merger, Merge.Cancel);
  }

  lemma NewBudget<T>(n: nat, items: seq<T>)
    ensures Budget(NewNet<T>(n), items) == |items| * (4 * n + 2) + 2 * n + 5
  {
    Merge.FreshEffort<T>(n);
    assert FanOut.Sends(n, 3) == 4 * n;
    assert |items| * (4 * n + 2) == |items| * (4 * n + 1) + |items|;
  }

  lemma {:induction false} RunSpendsBudget<T(!new)>(run: seq<Net<T>>, acts: seq<Action<T>>, n: nat, items: seq<T>,
          i: nat)
    requires IsRun(run, acts, items) && run[0] == NewNet(n) && i <= |acts|
    ensures Inv(run[i], items) && Budget(run[i], items) + i <= |items| * (4 * n + 2) + 2 * n + 5
  {
    RunKeepsInv(run, acts, n, items, i);
    if i > 0 {
      RunSpendsBudget(run, acts, n, items, i - 1);
      StepSpendsBudget(run[i - 1], acts[i - 1], items);
    } else {
      NewBudget(n, items);
    }
  }

  predicate Finished<T>(s: Net<T>) {
    s.fan.pc.Gone? && Merge.Finished(s.merger)
  }

  /** A full output is drained by its forwarder, a full merged channel by the reader. */
  lemma NeverStuck<T>(s: Net<T>, items: seq<T>) returns (a: Action<T>)
    requires Inv(s, items) && !Finished(s)
    ensures Enabled(s, a, items) && !a.Cancel?
  {
    if s.merger.read < |s.merger.merged| {
      a := MergeStep(Merge.Read);
    } else if s.fan.pc.Gone? {
      var m := Merge.NeverStuck(s.merger);
      if m.CloseInput? {
        assert FanOut.OutputSound(s.fan, s.fan.outputs[m.c], m.c);
      }
      a := MergeStep(m);
    } else {
      var f := FanOut.NeverStuck(s.fan, items);
      if f.Take? {
        a := Drain(s, items, f.c);
      } else {
        a := FanStep(f);
      }
    }
  }

  lemma Drain<T>(s: Net<T>, items: seq<T>, c: nat) returns (a: Action<T>)
    requires Inv(s, items) && s.fan.pc.Sending? && c == s.fan.pc.ch && c < |s.fan.outputs|
    requires s.merger.read == |s.merger.merged| && FanOut.Enabled(s.fan, FanOut.Take(c), items)
    ensures Enabled(s, a, items) && !a.Cancel?
  {
    assert Merge.ChannelSound(s.merger, c);
    assert FanOut.OutputSound(s.fan, s.fan.outputs[c], c);
    a := match s.merger.forwarders[c] {
      case Idle => MergeStep(Merge.Receive(c))
      case Holding(_) => MergeStep(Merge.Send(c))
      case Exited => FanStep(FanOut.GiveUp)
    };
  }

  // ------------------------------------------------------------ counting

  function Count<T(==)>(s: seq<T>, x: T): nat {
    if s == [] then 0 else Count(s[..|s| - 1], x) + if s[|s| - 1] == x then 1 else 0
  }

  lemma CountAppend<T>(s: seq<T>, y: T, x: T)
    ensures Count(s + [y], x) == Count(s, x) + if y == x then 1 else 0
  {
    assert (s + [y])[..|s|] == s;
  }

  function Untagged<T>(merged: seq<(nat, T)>): seq<T> {
    seq(|merged|, i requires 0 <= i < |merged| => merged[i].1)
  }

  /** Copies of `x` merged from the first `n` channels. */
  function CountFrom<T(==)>(merged: seq<(nat, T)>, x: T, n: nat): nat {
    if n == 0 then 0 else CountFrom(merged, x, n - 1) + Count(Merge.From(merged, n - 1), x)
  }

  lemma {:induction false} CountFromStep<T>(merged: seq<(nat, T)>, m: (nat, T), x: T, n: nat)
    ensures CountFrom(merged + [m], x, n) == CountFrom(merged, x, n) + if m.0 < n && m.1 == x then 1 else 0
  {
    if n > 0 {
      CountFromStep(merged, m, x, n - 1);
      Merge.FromAppend(merged, m, n - 1);
      if m.0 == n - 1 {
        CountAppend(Merge.From(merged, n - 1), m.1, x);
      } else {
        assert Merge.From(merged, n - 1) + [] == Merge.From(merged, n - 1);
      }
    }
  }

  lemma {:induction false} CountUntagged<T>(merged: seq<(nat, T)>, x: T, n: nat)
    requires forall i | 0 <= i < |merged| :: merged[i].0 < n
    ensures Count(Untagged(merged), x) == CountFrom(merged, x, n)
    decreases |merged|
  {
    if merged == [] {
      CountFromNothing<T>(x, n);
    } else {
      var rest, m := merged[..|merged| - 1], merged[|merged| - 1];
      CountUntagged(rest, x, n);
      CountFromStep(rest, m, x, n);
      assert merged == rest + [m];
      assert Untagged(merged)[..|merged| - 1] == Untagged(rest);
    }
  }

  lemma {:induction false} CountFromNothing<T>(x: T, n: nat)
    ensures CountFrom([], x, n) == 0
  {
    if n > 0 {
      CountFromNothing(x, n - 1);
    }
  }

  lemma {:induction false} CountFromEqual<T>(merged: seq<(nat, T)>, items: seq<T>, x: T, n: nat)
    requires forall c | 0 <= c < n :: Merge.From(merged, c) == items
    ensures CountFrom(merged, x, n) == n * Count(items, x)
  {
    if n > 0 {
      CountFromEqual(merged, items, x, n - 1);
      assert n * Count(items, x) == (n - 1) * Count(items, x) + Count(items, x);
    }
  }

  // ------------------------------------------------------------ the theorem

  /** Every schedule of a broadcast to `n` consumers merged again: it ends, and is stuck only when
      both have closed everything and the reader has everything; nobody touches a closed channel;
      what has come out of one consumer's channel is a prefix of the items. */
  lemma EverySchedule<T(!new)>(run: seq<Net<T>>, acts: seq<Action<T>>, n: nat, items: seq<T>)
    requires IsRun(run, acts, items) && run[0] == NewNet(n)
    ensures |acts| <= |items| * (4 * n + 2) + 2 * n + 5
    ensures var last := run[|acts|];
      && ((forall a | Enabled(last, a, items) :: a.Cancel?) ==> Finished(last))
      && !last.fan.panicked && !last.merger.panicked
      && FanOut.Staggered(last.fan.outputs, items)
      && forall c | 0 <= c < n :: Merge.From(last.merger.merged, c) <= items
  {
    var last := run[|acts|];
    RunKeepsInv(run, acts, n, items, |acts|);
    RunSpendsBudget(run, acts, n, items, |acts|);
    FanOut.ControlIsNatural(last.fan, items, 3);
    Merge.BudgetIsNatural(last.merger);
    FanOut.SentIsStaggered(last.fan, items);
    forall c | 0 <= c < n ensures Merge.From(last.merger.merged, c) <= items {
      assert Merge.ChannelSound(last.merger, c);
      assert last.fan.outputs[c].sent <= items;
      assert Merge.From(last.merger.merged, c) <= Merge.From(last.merger.merged, c)
          + Merge.Held(last.merger.forwarders[c]);
    }
    if !Finished(last) {
      var a := NeverStuck(last, items);
    }
  }

  /** Uncancelled, the reader ends with every item exactly `n` times, and with every consumer's copy
      in the order of the items. */
  lemma EveryItemNTimes<T(!new)>(run: seq<Net<T>>, acts: seq<Action<T>>, n: nat, items: seq<T>, x: T)
    requires IsRun(run, acts, items) && run[0] == NewNet(n) && Finished(run[|acts|]) && !run[|acts|].fan.cancelled
    ensures var merged := run[|acts|].merger.merged;
      && (forall c | 0 <= c < n :: Merge.From(merged, c) == items)
      && Count(Untagged(merged), x) == n * Count(items, x)
  {
    var last := run[|acts|];
    var merged := last.merger.merged;
    RunKeepsInv(run, acts, n, items, |acts|);
    forall c | 0 <= c < n ensures Merge.From(merged, c) == items {
      assert Merge.ChannelSound(last.merger, c) && last.merger.forwarders[c].Exited?;
      assert last.fan.outputs[c].sent == items;
    }
    CountUntagged(merged, x, n);
    CountFromEqual(merged, items, x, n);
  }
}

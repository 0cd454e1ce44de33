/**
 Merge: one forwarder per input channel and a closer, over channels that are still being filled.

 Each forwarder is a program counter; what the producers do (feed a channel, close it) and
 cancellation may happen between any two steps.
 */
module Merge {
  import opened Channels

  datatype Forwarder<T> = Idle | Holding(item: T) | Exited

  /** `merged` is everything ever sent on the merged channel, each item with the channel it came
      from; the reader has taken the first `read` of them. */
  datatype Merger<T> = Merger(
    inputs: seq<Channel<T>>,
    forwarders: seq<Forwarder<T>>,
    wg: nat,
    merged: seq<(nat, T)>,
    read: nat,
    closed: bool,
    panicked: bool,
    cancelled: bool)

  datatype Action<T> =
    | Feed(c: nat, item: T) | CloseInput(c: nat)
    | Receive(c: nat) | Send(c: nat) | GiveUp(c: nat)
    | Close | Read | Cancel

  function NewMerger<T>(n: nat): Merger<T> {
    Merger(seq(n, i => Channel([], 0, false)), seq(n, i => Idle), n, [], 0, false, false, false)
  }

  /** A producer neither feeds nor closes a channel it has closed. */
  predicate Enabled<T>(s: Merger<T>, a: Action<T>) {
    match a
    case Feed(c, _) => c < |s.inputs| && !s.inputs[c].closed
    case CloseInput(c) => c < |s.inputs| && !s.inputs[c].closed
    case Receive(c) =>
      && c < |s.forwarders| && c < |s.inputs| && s.forwarders[c].Idle?
      && (s.inputs[c].taken < |s.inputs[c].sent| || s.inputs[c].closed)
    case Send(c) => c < |s.forwarders| && s.forwarders[c].Holding? && |s.merged| < s.read + |s.forwarders|
    case GiveUp(c) => c < |s.forwarders| && s.forwarders[c].Holding? && s.cancelled
    case Close => s.wg == 0 && !s.closed
    case Read => s.read < |s.merged|
    case Cancel => !s.cancelled
  }

  function Exit<T>(s: Merger<T>, c: nat): Merger<T>
    requires c < |s.forwarders|
  {
    s.(forwarders := s.forwarders[c := Exited],
       wg := if s.wg > 0 then s.wg - 1 else 0,
       panicked := s.panicked || s.wg == 0)
  }

  function Next<T>(s: Merger<T>, a: Action<T>): Merger<T>
    requires Enabled(s, a)
  {
    match a
    case Feed(c, item) => s.(inputs := s.inputs[c := s.inputs[c].(sent := s.inputs[c].sent + [item])])
    case CloseInput(c) => s.(inputs := s.inputs[c := s.inputs[c].(closed := true)])
    case Receive(c) =>
      var from := s.inputs[c];
      if from.taken < |from.sent| then
        s.(inputs := s.inputs[c := from.(taken := from.taken + 1)],
            forwarders := s.forwarders[c := Holding(from.sent[from.taken])])
      else Exit(s, c)
    case Send(c) =>
      s.(merged := s.merged + [(c, s.forwarders[c].item)],
         forwarders := s.forwarders[c := Idle],
         panicked := s.panicked || s.closed)
    case GiveUp(c) => Exit(s, c)
    case Close => s.(closed := true, panicked := s.panicked || s.closed)
    case Read => s.(read := s.read + 1)
    case Cancel => s.(cancelled := true)
  }

  ghost predicate IsRun<T(!new)>(run: seq<Merger<T>>, acts: seq<Action<T>>) {
    && |run| == |acts| + 1
    && forall i | 0 <= i < |acts| :: Enabled(run[i], acts[i]) && run[i + 1] == Next(run[i], acts[i])
  }

  predicate Finished<T>(s: Merger<T>) {
    s.closed && s.read == |s.merged|
  }

  // ------------------------------------------------------------ the invariant

  /** The items of one channel, in the order they were merged. */
  function From<T>(merged: seq<(nat, T)>, c: nat): seq<T> {
    if merged == [] then []
    else From(merged[..|merged| - 1], c) + if merged[|merged| - 1].0 == c then [merged[|merged| - 1].1] else []
  }

  function Held<T>(f: Forwarder<T>): seq<T> {
    if f.Holding? then [f.item] else []
  }

  /** One channel's story: what was merged of it and what its forwarder holds is what was received
      of it; a forwarder that was not cancelled leaves only an exhausted channel behind. */
  predicate ChannelSound<T(==)>(s: Merger<T>, c: nat)
    requires c < |s.forwarders| && c < |s.inputs|
  {
    var from := s.inputs[c];
    && from.taken <= |from.sent|
    && if s.forwarders[c].Exited? then
         && From(s.merged, c) <= from.sent
         && (!s.cancelled ==> Exhausted(from) && From(s.merged, c) == from.sent)
       else From(s.merged, c) + Held(s.forwarders[c]) == from.sent[..from.taken]
  }

  function Running<T>(fs: seq<Forwarder<T>>): (n: nat)
    ensures n <= |fs|
    ensures n == 0 <==> forall i | 0 <= i < |fs| :: fs[i].Exited?
  {
    if fs == [] then 0
    else
      assert Running(fs[1..]) == 0 ==> forall i | 0 < i < |fs| :: fs[i] == fs[1..][i - 1];
      (if fs[0].Exited? then 0 else 1) + Running(fs[1..])
  }

  lemma {:induction false} RunningUpdate<T>(fs: seq<Forwarder<T>>, c: nat, v: Forwarder<T>)
    requires c < |fs|
    ensures Running(fs[c := v]) == Running(fs) - (if fs[c].Exited? then 0 else 1) + (if v.Exited? then 0 else 1)
  {
    if c > 0 {
      RunningUpdate(fs[1..], c - 1, v);
      assert fs[c := v][1..] == fs[1..][c - 1 := v];
    }
  }

  predicate CloserSound<T>(s: Merger<T>) {
    && |s.inputs| == |s.forwarders|
    && s.wg == Running(s.forwarders) && (s.closed ==> s.wg == 0) && !s.panicked
    && s.read <= |s.merged| <= s.read + |s.forwarders|
    && forall i | 0 <= i < |s.merged| :: s.merged[i].0 < |s.forwarders|
  }

  predicate Inv<T(==)>(s: Merger<T>) {
    && CloserSound(s)
    && forall c {:trigger ChannelSound(s, c)} | 0 <= c < |s.inputs| :: ChannelSound(s, c)
  }

  lemma FromAppend<T>(merged: seq<(nat, T)>, x: (nat, T), c: nat)
    ensures From(merged + [x], c) == From(merged, c) + if x.0 == c then [x.1] else []
  {
    assert (merged + [x])[..|merged|] == merged;
  }

  lemma FeedKeepsChannel<T>(s: Merger<T>, d: nat, item: T, c: nat)
    requires Enabled(s, Feed(d, item)) && |s.inputs| == |s.forwarders| && c < |s.inputs| && ChannelSound(s, c)
    ensures ChannelSound(Next(s, Feed(d, item)), c)
  {
    var from, from' := s.inputs[c], Next(s, Feed(d, item)).inputs[c];
    assert from'.sent[..from.taken] == from.sent[..from.taken];
  }

  lemma ReceiveKeepsChannel<T>(s: Merger<T>, d: nat, c: nat)
    requires Enabled(s, Receive(d)) && |s.inputs| == |s.forwarders| && c < |s.inputs| && ChannelSound(s, c)
    ensures ChannelSound(Next(s, Receive(d)), c)
  {
    var from := s.inputs[c];
    if c == d {
      assert From(s.merged, c) + [] == From(s.merged, c);
      if from.taken < |from.sent| {
        assert from.sent[..from.taken + 1] == from.sent[..from.taken] + [from.sent[from.taken]];
      } else {
        assert from.sent[..from.taken] == from.sent;
      }
    }
  }

  lemma SendKeepsChannel<T>(s: Merger<T>, d: nat, c: nat)
    requires Enabled(s, Send(d)) && |s.inputs| == |s.forwarders| && c < |s.inputs| && ChannelSound(s, c)
    ensures ChannelSound(Next(s, Send(d)), c)
  {
    FromAppend(s.merged, (d, s.forwarders[d].item), c);
    assert From(s.merged, c) + [] == From(s.merged, c);
    if c == d {
      assert From(s.merged, c) + [s.forwarders[d].item] + [] == From(s.merged, c) + [s.forwarders[d].item];
    }
  }

  lemma StepKeepsChannel<T>(s: Merger<T>, a: Action<T>, c: nat)
    requires Enabled(s, a) && |s.inputs| == |s.forwarders| && c < |s.inputs| && ChannelSound(s, c)
    ensures |Next(s, a).inputs| == |Next(s, a).forwarders| == |s.inputs| && ChannelSound(Next(s, a), c)
  {
    match a
    case Feed(d, item) => FeedKeepsChannel(s, d, item, c);
    case Receive(d) => ReceiveKeepsChannel(s, d, c);
    case Send(d) => SendKeepsChannel(s, d, c);
    case GiveUp(d) =>
      if c == d {
        assert From(s.merged, c) <= From(s.merged, c) + Held(s.forwarders[c]) <= s.inputs[c].sent;
      }
    case _ =>
  }

  lemma StepKeepsCloser<T>(s: Merger<T>, a: Action<T>)
    requires CloserSound(s) && Enabled(s, a)
    ensures CloserSound(Next(s, a)) && |Next(s, a).inputs| == |s.inputs|
  {
    var s' := Next(s, a);
    if a.Receive? || a.Send? || a.GiveUp? {
      RunningUpdate(s.forwarders, a.c, s'.forwarders[a.c]);
      assert s'.forwarders == s.forwarders[a.c := s'.forwarders[a.c]];
    }
  }

  lemma StepKeepsInv<T>(s: Merger<T>, a: Action<T>)
    requires Inv(s) && Enabled(s, a)
    ensures Inv(Next(s, a)) && |Next(s, a).inputs| == |s.inputs|
  {
    StepKeepsCloser(s, a);
    forall c | 0 <= c < |s.inputs| ensures ChannelSound(Next(s, a), c) {
      assert ChannelSound(s, c);
      StepKeepsChannel(s, a, c);
    }
  }

  lemma {:induction false} AllIdle<T>(n: nat)
    ensures Running(seq<Forwarder<T>>(n, i => Idle)) == n
  {
    if n > 0 {
      AllIdle<T>(n - 1);
      assert seq<Forwarder<T>>(n, i => Idle)[1..] == seq<Forwarder<T>>(n - 1, i => Idle);
    }
  }

  lemma NewIsSound<T>(n: nat)
    ensures Inv(NewMerger<T>(n))
  {
    AllIdle<T>(n);
    forall c | 0 <= c < n ensures ChannelSound(NewMerger<T>(n), c) {
    }
  }

  lemma {:induction false} RunKeepsInv<T(!new)>(run: seq<Merger<T>>, acts: seq<Action<T>>, n: nat, i: nat)
    requires IsRun(run, acts) && run[0] == NewMerger(n) && i <= |acts|
    ensures Inv(run[i]) && |run[i].inputs| == n
  {
    if i > 0 {
      RunKeepsInv(run, acts, n, i - 1);
      StepKeepsInv(run[i - 1], acts[i - 1]);
    } else {
      NewIsSound<T>(n);
    }
  }

  // ------------------------------------------------------------ termination

  /** What a channel and its forwarder can still cause: three steps for each item waiting. */
  function Effort<T>(input: Channel<T>, f: Forwarder<T>): int {
    3 * (|input.sent| - input.taken) + match f { case Exited => 0 case Idle => 1 case Holding(_) => 3 }
  }

  function AllEffort<T>(inputs: seq<Channel<T>>, fs: seq<Forwarder<T>>): int
    requires |inputs| == |fs|
  {
    if fs == [] then 0 else Effort(inputs[0], fs[0]) + AllEffort(inputs[1..], fs[1..])
  }

  lemma {:induction false} EffortUpdate<T>(inputs: seq<Channel<T>>, fs: seq<Forwarder<T>>, c: nat, input: Channel<T>,
          f: Forwarder<T>)
    requires |inputs| == |fs| && c < |fs|
    ensures AllEffort(inputs[c := input], fs[c := f])
        == AllEffort(inputs, fs) - Effort(inputs[c], fs[c]) + Effort(input, f)
  {
    if c > 0 {
      EffortUpdate(inputs[1..], fs[1..], c - 1, input, f);
      assert inputs[c := input][1..] == inputs[1..][c - 1 := input] && fs[c := f][1..] == fs[1..][c - 1 := f];
    } else {
      assert inputs[c := input][1..] == inputs[1..] && fs[c := f][1..] == fs[1..];
    }
  }

  lemma {:induction false} EffortIsNatural<T>(inputs: seq<Channel<T>>, fs: seq<Forwarder<T>>)
    requires |inputs| == |fs| && forall c | 0 <= c < |inputs| :: inputs[c].taken <= |inputs[c].sent|
    ensures AllEffort(inputs, fs) >= 0
  {
    if fs != [] {
      EffortIsNatural(inputs[1..], fs[1..]);
    }
  }

  lemma {:induction false} FreshEffort<T>(n: nat)
    ensures AllEffort(NewMerger<T>(n).inputs, NewMerger<T>(n).forwarders) == n
  {
    if n > 0 {
      FreshEffort<T>(n - 1);
      assert NewMerger<T>(n).inputs[1..] == NewMerger<T>(n - 1).inputs;
      assert NewMerger<T>(n).forwarders[1..] == NewMerger<T>(n - 1).forwarders;
    }
  }

  /** The steps forwarders, closer and reader can still take unless more is fed. */
  function Budget<T>(s: Merger<T>): int
    requires |s.inputs| == |s.forwarders|
  {
    AllEffort(s.inputs, s.forwarders) + |s.merged| - s.read + (if s.closed then 0 else 1)
  }

  /** Is it the producers' step, or cancellation? */
  predicate Outside<T>(a: Action<T>) {
    a.Feed? || a.CloseInput? || a.Cancel?
  }

  lemma StepSpendsBudget<T>(s: Merger<T>, a: Action<T>)
    requires Enabled(s, a) && |s.inputs| == |s.forwarders|
    ensures |Next(s, a).inputs| == |Next(s, a).forwarders|
    ensures Budget(Next(s, a)) <= Budget(s) + (if a.Feed? then 3 else if Outside(a) then 0 else -1)
  {
    var s' := Next(s, a);
    if !a.Close? && !a.Read? && !a.Cancel? {
      EffortUpdate(s.inputs, s.forwarders, a.c, s'.inputs[a.c], s'.forwarders[a.c]);
      assert s'.inputs == s.inputs[a.c := s'.inputs[a.c]] && s'.forwarders == s.forwarders[a.c := s'.forwarders[a.c]];
    }
  }

  lemma BudgetIsNatural<T>(s: Merger<T>)
    requires Inv(s)
    ensures Budget(s) >= 0
  {
    forall c | 0 <= c < |s.inputs| ensures s.inputs[c].taken <= |s.inputs[c].sent| {
      assert ChannelSound(s, c);
    }
    EffortIsNatural(s.inputs, s.forwarders);
  }

  function Feeds<T>(acts: seq<Action<T>>): nat {
    if acts == [] then 0 else Feeds(acts[..|acts| - 1]) + if acts[|acts| - 1].Feed? then 1 else 0
  }

  /** The steps of forwarders, closer and reader. */
  function OwnSteps<T>(acts: seq<Action<T>>): nat {
    if acts == [] then 0 else OwnSteps(acts[..|acts| - 1]) + if Outside(acts[|acts| - 1]) then 0 else 1
  }

  lemma {:induction false} RunSpendsBudget<T(!new)>(run: seq<Merger<T>>, acts: seq<Action<T>>, n: nat, i: nat)
    requires IsRun(run, acts) && run[0] == NewMerger(n) && i <= |acts|
    ensures |run[i].inputs| == |run[i].forwarders|
    ensures Budget(run[i]) + OwnSteps(acts[..i]) <= n + 1 + 3 * Feeds(acts[..i])
  {
    if i > 0 {
      RunSpendsBudget(run, acts, n, i - 1);
      StepSpendsBudget(run[i - 1], acts[i - 1]);
      assert acts[..i][..i - 1] == acts[..i - 1];
    } else {
      FreshEffort<T>(n);
    }
  }

  /** An item waits for the reader exactly while there is one waiting for each input already. */
  lemma SendWaitsIff<T>(s: Merger<T>, c: nat)
    requires Inv(s) && c < |s.forwarders| && s.forwarders[c].Holding?
    ensures Enabled(s, Send(c)) <==> |s.merged| - s.read != |s.forwarders|
  {
  }

  /** Until everything is over, someone other than the producers can move, unless a forwarder waits
      for a channel that is empty and still open. */
  lemma NeverStuck<T>(s: Merger<T>) returns (a: Action<T>)
    requires Inv(s) && !Finished(s)
    ensures (Enabled(s, a) && !Outside(a))
        || (a.CloseInput? && Enabled(s, a) && s.inputs[a.c].taken == |s.inputs[a.c].sent|)
  {
    if s.read < |s.merged| {
      a := Read;
    } else if s.wg == 0 {
      a := Close;
    } else {
      var c: nat :| c < |s.forwarders| && !s.forwarders[c].Exited?;
      assert ChannelSound(s, c);
      a := if s.forwarders[c].Holding? then Send(c)
        else if s.inputs[c].taken < |s.inputs[c].sent| || s.inputs[c].closed then Receive(c)
        else CloseInput(c);
    }
  }

  /** Every schedule of a merge, whatever its producers do meanwhile: it takes at most three steps
      per item fed and n + 1 more; it never sends on or closes a closed channel; it keeps the order
      of each channel; with all inputs closed it is stuck only when the output is closed and
      drained; and uncancelled it then has merged every channel completely. */
  lemma EverySchedule<T(!new)>(run: seq<Merger<T>>, acts: seq<Action<T>>, n: nat)
    requires IsRun(run, acts) && run[0] == NewMerger(n)
    ensures OwnSteps(acts) <= 3 * Feeds(acts) + n + 1
    ensures var last := run[|acts|];
      && |last.inputs| == n && !last.panicked && |last.merged| <= last.read + n
      && ((forall c | 0 <= c < n :: last.inputs[c].closed) && (forall a | Enabled(last, a) :: a.Cancel?)
          ==> Finished(last))
      && (forall c | 0 <= c < n :: From(last.merged, c) <= last.inputs[c].sent)
      && (Finished(last) && !last.cancelled ==>
            forall c | 0 <= c < n :: Exhausted(last.inputs[c]) && From(last.merged, c) == last.inputs[c].sent)
  {
    var last := run[|acts|];
    RunKeepsInv(run, acts, n, |acts|);
    RunSpendsBudget(run, acts, n, |acts|);
    assert acts[..|acts|] == acts;
    BudgetIsNatural(last);
    forall c | 0 <= c < n ensures From(last.merged, c) <= last.inputs[c].sent {
      assert ChannelSound(last, c);
      assert From(last.merged, c) <= From(last.merged, c) + Held(last.forwarders[c]);
    }
    if Finished(last) && !last.cancelled {
      forall c | 0 <= c < n ensures Exhausted(last.inputs[c]) && From(last.merged, c) == last.inputs[c].sent {
        assert ChannelSound(last, c) && last.forwarders[c].Exited?;
      }
    }
    if !Finished(last) {
      var a := NeverStuck(last);
    }
  }
}

/**
 FanOut: one goroutine that receives each item of its input and sends it to every output in turn.

 `Broadcast` is the goroutine's loop. The machine after it is that loop among others: a producer
 filling the input, readers draining the outputs, buffers of capacity 16 that may be full, and
 cancellation, which may strike at any step. Sending on or closing a closed channel panics.
 */
module FanOut {
  import opened Channels
  import opened Options

  const OUTPUT_CAPACITY := 16

  // ------------------------------------------------------------ the broadcast loop

  /** Broadcasts every item to every output until the input is exhausted, or until the send number
      `stopAt` finds the context done. Each output holds what was ever sent on it: a prefix of the
      input, one item longer for the outputs that had their turn before the loop stopped. */
  method Broadcast<T>(input: seq<T>, numConsumers: nat, stopAt: Option<nat>)
    returns (outputs: seq<seq<T>>, full: nat, extra: nat)
    ensures |outputs| == numConsumers && full <= |input|
    ensures extra > 0 ==> extra < numConsumers && full < |input|
    ensures forall c | 0 <= c < numConsumers :: outputs[c] == input[..full + if c < extra then 1 else 0]
    ensures stopAt.None? || numConsumers == 0 ==> full == |input| && extra == 0
    ensures numConsumers > 0 && stopAt.Some? ==>
      || (full == |input| && extra == 0 && |input| * numConsumers <= stopAt.value)
      || (full < |input| && full * numConsumers + extra == stopAt.value)
  {
    outputs := seq(numConsumers, i => []);
    var sends := 0;
    full, extra := 0, 0;
    while full < |input|
      invariant |outputs| == numConsumers && full <= |input| && extra == 0
      invariant sends == full * numConsumers
      invariant stopAt.Some? && numConsumers > 0 ==> sends <= stopAt.value
      invariant forall c | 0 <= c < numConsumers :: outputs[c] == input[..full]
    {
      var ch := 0;
      while ch < numConsumers
        invariant 0 <= ch <= numConsumers == |outputs| && full < |input|
        invariant sends == full * numConsumers + ch
        invariant stopAt.Some? ==> sends <= stopAt.value || numConsumers == 0
        invariant forall c | 0 <= c < numConsumers :: outputs[c] == input[..full + if c < ch then 1 else 0]
      {
        if stopAt == Some(sends) {
          extra := ch;
          return;
        }
        outputs := outputs[ch := outputs[ch] + [input[full]]];
        sends := sends + 1;
        ch := ch + 1;
      }
      full := full + 1;
    }
  }

  // ------------------------------------------------------------ the goroutine among others

  datatype FanPc<T> = Ranging | Sending(item: T, ch: nat) | Closing(ch: nat) | Gone

  /** The producer has put the first `offered` items into the input, of which FanOut has received
      the first `taken`. */
  datatype Fan<T> = Fan(
    offered: nat,
    sourceClosed: bool,
    taken: nat,
    pc: FanPc<T>,
    outputs: seq<Channel<T>>,
    cancelled: bool,
    panicked: bool)

  datatype Action = Offer | CloseSource | Receive | Send | GiveUp | CloseNext | Take(c: nat) | Cancel

  function NewFan<T>(numConsumers: nat): Fan<T> {
    Fan(0, false, 0, Ranging, seq(numConsumers, i => Channel([], 0, false)), false, false)
  }

  /** A cancelled producer may close the input before all items are in. */
  predicate Enabled<T>(s: Fan<T>, a: Action, items: seq<T>) {
    match a
    case Offer => !s.sourceClosed && s.offered < |items|
    case CloseSource => !s.sourceClosed && (s.offered >= |items| || s.cancelled)
    case Receive => s.pc.Ranging? && (s.taken < s.offered <= |items| || (s.taken >= s.offered && s.sourceClosed))
    case Send =>
      && s.pc.Sending? && s.pc.ch < |s.outputs|
      && |s.outputs[s.pc.ch].sent| < s.outputs[s.pc.ch].taken + OUTPUT_CAPACITY
    case GiveUp => s.pc.Sending? && s.cancelled
    case CloseNext => s.pc.Closing?
    case Take(c) => c < |s.outputs| && s.outputs[c].taken < |s.outputs[c].sent|
    case Cancel => !s.cancelled
  }

  /** The program point before the send to output `ch`. */
  function At<T>(s: Fan<T>, item: T, ch: nat): FanPc<T> {
    if ch < |s.outputs| then Sending(item, ch) else Ranging
  }

  function Next<T>(s: Fan<T>, a: Action, items: seq<T>): Fan<T>
    requires Enabled(s, a, items)
  {
    match a
    case Offer => s.(offered := s.offered + 1)
    case CloseSource => s.(sourceClosed := true)
    case Receive =>
      if s.taken < s.offered then s.(taken := s.taken + 1, pc := At(s, items[s.taken], 0))
      else s.(pc := Closing(0))
    case Send =>
      var Sending(item, ch) := s.pc;
      var to := s.outputs[ch];
      s.(outputs := s.outputs[ch := to.(sent := to.sent + [item])],
         pc := At(s, item, ch + 1),
         panicked := s.panicked || to.closed)
    case GiveUp => s.(pc := Closing(0))
    case CloseNext =>
      var ch := s.pc.ch;
      if ch < |s.outputs| then
        var to := s.outputs[ch];
        s.(outputs := s.outputs[ch := to.(closed := true)], pc := Closing(ch + 1), panicked := s.panicked || to.closed)
      else s.(pc := Gone)
    case Take(c) => s.(outputs := s.outputs[c := s.outputs[c].(taken := s.outputs[c].taken + 1)])
    case Cancel => s.(cancelled := true)
  }

  ghost predicate IsRun<T(!new)>(run: seq<Fan<T>>, acts: seq<Action>, items: seq<T>) {
    && |run| == |acts| + 1
    && forall i | 0 <= i < |acts| :: Enabled(run[i], acts[i], items) && run[i + 1] == Next(run[i], acts[i], items)
  }

  // ------------------------------------------------------------ the invariant

  /** Every output holds a prefix of the items; the lengths never grow with the index of the
      consumer and differ by at most one. */
  predicate Staggered<T(==)>(outputs: seq<Channel<T>>, items: seq<T>) {
    && (forall c | 0 <= c < |outputs| :: outputs[c].sent <= items)
    && forall c, d | 0 <= c < d < |outputs| :: |outputs[d].sent| <= |outputs[c].sent| <= |outputs[d].sent| + 1
  }

  predicate SourceSound<T>(s: Fan<T>, items: seq<T>) {
    && s.taken <= s.offered <= |items|
    && (s.sourceClosed && !s.cancelled ==> s.offered == |items|)
  }

  /** What each output has been sent. */
  predicate SentSound<T(==)>(s: Fan<T>, items: seq<T>)
    requires SourceSound(s, items)
  {
    match s.pc
    case Ranging => forall c | 0 <= c < |s.outputs| :: s.outputs[c].sent == items[..s.taken]
    case Sending(item, ch) =>
      && ch < |s.outputs| && s.taken > 0 && item == items[s.taken - 1]
      && forall c | 0 <= c < |s.outputs| :: s.outputs[c].sent == items[..if c < ch then s.taken else s.taken - 1]
    case _ =>
      && Staggered(s.outputs, items)
      && (!s.cancelled ==> forall c | 0 <= c < |s.outputs| :: s.outputs[c].sent == items)
  }

  /** Which outputs are closed, and how full they are. */
  predicate OutputsSound<T>(s: Fan<T>) {
    && (s.pc.Closing? ==> s.pc.ch <= |s.outputs|)
    && forall c | 0 <= c < |s.outputs| :: OutputSound(s, s.outputs[c], c)
  }

  predicate OutputSound<T>(s: Fan<T>, output: Channel<T>, c: nat) {
    && output.taken <= |output.sent| <= output.taken + OUTPUT_CAPACITY
    && output.closed == (s.pc.Gone? || (s.pc.Closing? && c < s.pc.ch))
  }

  predicate Inv<T(==)>(s: Fan<T>, items: seq<T>) {
    SourceSound(s, items) && SentSound(s, items) && OutputsSound(s) && !s.panicked
  }

  lemma SentIsStaggered<T>(s: Fan<T>, items: seq<T>)
    requires SourceSound(s, items) && SentSound(s, items)
    ensures Staggered(s.outputs, items)
  {
  }

  lemma SendKeepsSent<T>(s: Fan<T>, items: seq<T>)
    requires SourceSound(s, items) && SentSound(s, items) && Enabled(s, Send, items)
    ensures SentSound(Next(s, Send, items), items)
  {
    var s' := Next(s, Send, items);
    assert items[..s.taken] == items[..s.taken - 1] + [items[s.taken - 1]];
    forall c | 0 <= c < |s.outputs|
      ensures s'.outputs[c].sent == items[..if c <= s.pc.ch then s.taken else s.taken - 1]
    {
    }
  }

  lemma ReceiveKeepsSent<T>(s: Fan<T>, items: seq<T>)
    requires Inv(s, items) && Enabled(s, Receive, items)
    ensures SentSound(Next(s, Receive, items), items)
  {
    if s.taken >= s.offered {
      SentIsStaggered(s, items);
      assert !s.cancelled ==> items[..s.taken] == items;
    }
  }

  lemma TakeKeepsSent<T>(s: Fan<T>, c: nat, items: seq<T>)
    requires Inv(s, items) && Enabled(s, Take(c), items)
    ensures SentSound(Next(s, Take(c), items), items)
  {
    var s' := Next(s, Take(c), items);
    assert forall d | 0 <= d < |s.outputs| :: s'.outputs[d].sent == s.outputs[d].sent;
  }

  lemma CloseKeepsSent<T>(s: Fan<T>, items: seq<T>)
    requires Inv(s, items) && Enabled(s, CloseNext, items)
    ensures SentSound(Next(s, CloseNext, items), items)
  {
    var s' := Next(s, CloseNext, items);
    assert forall d | 0 <= d < |s.outputs| :: s'.outputs[d].sent == s.outputs[d].sent;
  }

  lemma StepKeepsSent<T>(s: Fan<T>, a: Action, items: seq<T>)
    requires Inv(s, items) && Enabled(s, a, items)
    ensures SourceSound(Next(s, a, items), items) && SentSound(Next(s, a, items), items)
  {
    match a
    case Receive => ReceiveKeepsSent(s, items);
    case Send => SendKeepsSent(s, items);
    case GiveUp => SentIsStaggered(s, items);
    case CloseNext => CloseKeepsSent(s, items);
    case Take(c) => TakeKeepsSent(s, c, items);
    case _ =>
  }

  lemma StepKeepsOutputs<T>(s: Fan<T>, a: Action, items: seq<T>)
    requires Inv(s, items) && Enabled(s, a, items)
    ensures OutputsSound(Next(s, a, items)) && !Next(s, a, items).panicked
  {
    var s' := Next(s, a, items);
    forall c | 0 <= c < |s'.outputs| ensures OutputSound(s', s'.outputs[c], c) {
      assert OutputSound(s, s.outputs[c], c);
    }
  }

  lemma StepKeepsInv<T>(s: Fan<T>, a: Action, items: seq<T>)
    requires Inv(s, items) && Enabled(s, a, items)
    ensures Inv(Next(s, a, items), items) && |Next(s, a, items).outputs| == |s.outputs|
  {
    StepKeepsSent(s, a, items);
    StepKeepsOutputs(s, a, items);
  }

  lemma {:induction false} RunKeepsInv<T(!new)>(run: seq<Fan<T>>, acts: seq<Action>, numConsumers: nat, items: seq<T>,
          i: nat)
    requires IsRun(run, acts, items) && run[0] == NewFan(numConsumers) && i <= |acts|
    ensures Inv(run[i], items) && |run[i].outputs| == numConsumers
  {
    if i > 0 {
      RunKeepsInv(run, acts, numConsumers, items, i - 1);
      StepKeepsInv(run[i - 1], acts[i - 1], items);
    }
  }

  // ------------------------------------------------------------ termination

  /** The steps `n` sends can cause when an item in an output causes `w` more. */
  function Sends(n: nat, w: nat): nat {
    n * (w + 1)
  }

  function PcCost<T>(pc: FanPc<T>, n: nat, w: nat): int {
    match pc
    case Ranging => n + 2
    case Sending(_, ch) => (if ch < n then Sends(n - ch, w) else 0) + n + 2
    case Closing(ch) => n - ch + 1
    case Gone => 0
  }

  /** The steps the producer, FanOut and cancellation can still take, each item in an output
      counting for `w` steps of its reader. */
  function Control<T>(s: Fan<T>, items: seq<T>, w: nat): int {
    var n := |s.outputs|;
    (|items| - s.offered) + (if s.sourceClosed then 0 else 1) + (|items| - s.taken) * (Sends(n, w) + 1)
    + PcCost(s.pc, n, w) + (if s.cancelled then 0 else 1)
  }

  lemma OneSend(n: nat, w: nat)
    requires n > 0
    ensures Sends(n, w) == Sends(n - 1, w) + w + 1
  {
  }

  lemma OneItem(k: int, n: nat, w: nat)
    ensures (k - 1) * (Sends(n, w) + 1) == k * (Sends(n, w) + 1) - Sends(n, w) - 1
  {
  }

  /** Every step but a reader's spends control, a send by `w` more, which the reader then has. */
  lemma StepSpendsControl<T>(s: Fan<T>, a: Action, items: seq<T>, w: nat)
    requires Inv(s, items) && Enabled(s, a, items)
    ensures var s' := Next(s, a, items);
      && (a.Take? ==> Control(s', items, w) == Control(s, items, w))
      && (!a.Take? ==> Control(s', items, w) + 1 + (if a.Send? then w else 0) <= Control(s, items, w))
  {
    var n := |s.outputs|;
    match a
    case Receive =>
      OneItem(|items| - s.taken, n, w);
    case Send =>
      OneSend(n - s.pc.ch, w);
    case _ =>
  }

  lemma ControlIsNatural<T>(s: Fan<T>, items: seq<T>, w: nat)
    requires Inv(s, items)
    ensures Control(s, items, w) >= 0
  {
    Product(|items| - s.taken, Sends(|s.outputs|, w) + 1);
  }

  lemma Product(a: nat, b: nat)
    ensures a * b >= 0
  {
  }

  /** The items waiting in the outputs. */
  function Unread<T>(outputs: seq<Channel<T>>): int {
    if outputs == [] then 0 else |outputs[0].sent| - outputs[0].taken + Unread(outputs[1..])
  }

  lemma {:induction false} UnreadUpdate<T>(outputs: seq<Channel<T>>, c: nat, v: Channel<T>)
    requires c < |outputs|
    ensures Unread(outputs[c := v]) == Unread(outputs) - (|outputs[c].sent| - outputs[c].taken) + (|v.sent| - v.taken)
  {
    if c > 0 {
      UnreadUpdate(outputs[1..], c - 1, v);
      assert outputs[c := v][1..] == outputs[1..][c - 1 := v];
    }
  }

  lemma {:induction false} UnreadIsNatural<T>(outputs: seq<Channel<T>>)
    requires forall c | 0 <= c < |outputs| :: outputs[c].taken <= |outputs[c].sent|
    ensures Unread(outputs) >= 0
    ensures Unread(outputs) == 0 <==> forall c | 0 <= c < |outputs| :: outputs[c].taken == |outputs[c].sent|
  {
    if outputs != [] {
      UnreadIsNatural(outputs[1..]);
      assert forall c | 1 <= c < |outputs| :: outputs[1..][c - 1] == outputs[c];
    }
  }

  lemma {:induction false} NothingUnread<T>(n: nat)
    ensures Unread(seq<Channel<T>>(n, i => Channel([], 0, false))) == 0
  {
    if n > 0 {
      NothingUnread<T>(n - 1);
      assert seq<Channel<T>>(n, i => Channel([], 0, false))[1..] == seq<Channel<T>>(n - 1, i => Channel([], 0, false));
    }
  }

  lemma StepSpends<T>(s: Fan<T>, a: Action, items: seq<T>)
    requires Inv(s, items) && Enabled(s, a, items)
    ensures var s' := Next(s, a, items);
      Control(s', items, 1) + Unread(s'.outputs) < Control(s, items, 1) + Unread(s.outputs)
  {
    var s' := Next(s, a, items);
    StepSpendsControl(s, a, items, 1);
    if s'.outputs != s.outputs {
      var c := if a.Take? then a.c else s.pc.ch;
      assert s'.outputs == s.outputs[c := s'.outputs[c]];
      UnreadUpdate(s.outputs, c, s'.outputs[c]);
    }
  }

  lemma {:induction false} RunSpends<T(!new)>(run: seq<Fan<T>>, acts: seq<Action>, numConsumers: nat, items: seq<T>,
          i: nat)
    requires IsRun(run, acts, items) && run[0] == NewFan(numConsumers) && i <= |acts|
    ensures Control(run[i], items, 1) + Unread(run[i].outputs) + i
         <= |items| * (2 * numConsumers + 2) + numConsumers + 4
  {
    if i > 0 {
      RunSpends(run, acts, numConsumers, items, i - 1);
      RunKeepsInv(run, acts, numConsumers, items, i - 1);
      StepSpends(run[i - 1], acts[i - 1], items);
    } else {
      NothingUnread<T>(numConsumers);
      assert |items| * (2 * numConsumers + 2) == |items| * (Sends(numConsumers, 1) + 1) + |items|;
    }
  }

  /** FanOut is through and its readers have everything. */
  predicate Finished<T>(s: Fan<T>) {
    s.pc.Gone? && forall c | 0 <= c < |s.outputs| :: s.outputs[c].taken == |s.outputs[c].sent|
  }

  /** A send waits exactly while its output holds 16 items nobody has read. */
  lemma SendWaitsIff<T>(s: Fan<T>, items: seq<T>)
    requires Inv(s, items) && s.pc.Sending?
    ensures Enabled(s, Send, items) <==> |s.outputs[s.pc.ch].sent| - s.outputs[s.pc.ch].taken != 16
  {
  }

  /** Something other than cancellation can happen until then: a full output has a reader. */
  lemma NeverStuck<T>(s: Fan<T>, items: seq<T>) returns (a: Action)
    requires Inv(s, items) && !Finished(s)
    ensures Enabled(s, a, items) && !a.Cancel?
    ensures a.Take? ==> s.pc.Gone? || (s.pc.Sending? && a.c == s.pc.ch)
  {
    match s.pc
    case Ranging =>
      a := if s.taken < s.offered || s.sourceClosed then Receive
        else if s.offered < |items| then Offer
        else CloseSource;
    case Sending(_, ch) =>
      assert OutputSound(s, s.outputs[ch], ch);
      a := if |s.outputs[ch].sent| < s.outputs[ch].taken + OUTPUT_CAPACITY then Send else Take(ch);
    case Closing(_) => a := CloseNext;
    case Gone =>
      var c: nat :| c < |s.outputs| && s.outputs[c].taken != |s.outputs[c].sent|;
      assert OutputSound(s, s.outputs[c], c);
      a := Take(c);
  }

  /** Every schedule of FanOut, its producer and its readers ends; it is stuck only when FanOut has
      closed every output and the readers have drained them. No closed channel is sent on or closed
      again. At every point the outputs hold prefixes of the items whose lengths do not grow with
      the index and differ by at most one, with at most 16 items unread; uncancelled, FanOut leaves
      with every output complete. */
  lemma EverySchedule<T(!new)>(run: seq<Fan<T>>, acts: seq<Action>, numConsumers: nat, items: seq<T>)
    requires IsRun(run, acts, items) && run[0] == NewFan(numConsumers)
    ensures |acts| <= |items| * (2 * numConsumers + 2) + numConsumers + 4
    ensures var last := run[|acts|];
      && |last.outputs| == numConsumers
      && ((forall a | Enabled(last, a, items) :: a.Cancel?) ==> Finished(last))
      && !last.panicked && Staggered(last.outputs, items)
      && (forall c | 0 <= c < numConsumers ::
            && |last.outputs[c].sent| <= last.outputs[c].taken + 16
            && (last.pc.Gone? ==> last.outputs[c].closed && (!last.cancelled ==> last.outputs[c].sent == items)))
  {
    var last := run[|acts|];
    RunKeepsInv(run, acts, numConsumers, items, |acts|);
    RunSpends(run, acts, numConsumers, items, |acts|);
    ControlIsNatural(last, items, 1);
    assert forall c | 0 <= c < numConsumers :: OutputSound(last, last.outputs[c], c);
    UnreadIsNatural(last.outputs);
    SentIsStaggered(last, items);
    if !Finished(last) {
      var a := NeverStuck(last, items);
    }
  }
}

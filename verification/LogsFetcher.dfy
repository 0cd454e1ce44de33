/**
 FetchLogs against an append-only chain.

 A chain is a sequence of blocks of logs; a node asked for a range answers from the blocks up to the
 head it has seen, filtering by topics. `decodable` says whether the poller can decode the entry.
 */
module LogsFetcher {
  import opened Normalizer
  import opened Options

  datatype Log = Log(raw: RawLog, decodable: bool)

  type Chain = seq<seq<Log>>

  datatype Query = Outgoing | Incoming

  function Padded(addresses: seq<string>): seq<string> {
    seq(|addresses|, i requires 0 <= i < |addresses| => PadAddress(addresses[i]))
  }

  /** A node's topic filter: all positions must match, each with one of the listed values. */
  predicate Selects(q: Query, raw: RawLog, addresses: seq<string>) {
    && |raw.topics| >= 3 && raw.topics[0] == TRANSFER_TOPIC
    && (if q.Outgoing? then raw.topics[1] else raw.topics[2]) in Padded(addresses)
  }

  predicate Tracked(raw: RawLog, addresses: seq<string>) {
    Selects(Outgoing, raw, addresses) || Selects(Incoming, raw, addresses)
  }

  function Number(raw: RawLog): Option<nat> {
    ParseHexUint64(raw.blockNumber)
  }

  predicate Numbered(log: Log, b: nat) {
    Number(log.raw) == Some(b) && !log.raw.removed
  }

  /** Every log carries the number of its block, and none has been reorganised out. */
  ghost predicate WellFormed(chain: Chain) {
    forall b: nat, log {:trigger Numbered(log, b)} | b < |chain| && log in chain[b] :: Numbered(log, b)
  }

  // ------------------------------------------------------------ the two queries

  /** The logs of one block that a query selects. */
  function InBlock(block: seq<Log>, q: Query, addresses: seq<string>): seq<Log> {
    if block == [] then []
    else (if Selects(q, block[0].raw, addresses) then [block[0]] else []) + InBlock(block[1..], q, addresses)
  }

  /** eth_getLogs from block `from` up to `head`. */
  function GetLogs(chain: Chain, from: nat, head: nat, q: Query, addresses: seq<string>): seq<Log>
    requires head < |chain|
    decreases head + 1 - from
  {
    if from > head then [] else InBlock(chain[from], q, addresses) + GetLogs(chain, from + 1, head, q, addresses)
  }

  /** From block 0 means from the latest block. */
  function FirstBlock(from: nat, head: nat): nat {
    if from == 0 then head else from
  }

  /** Both answers; the head may have moved from `head` to `head'` between the queries. */
  function Fetched(chain: Chain, from: nat, head: nat, head': nat, addresses: seq<string>): seq<Log>
    requires head <= head' < |chain|
  {
    GetLogs(chain, FirstBlock(from, head), head, Outgoing, addresses)
        + GetLogs(chain, FirstBlock(from, head'), head', Incoming, addresses)
  }

  /** The highest block number that can be read off an answer, 0 if there is none. */
  ghost predicate IsMaxBlock(m: nat, logs: seq<Log>) {
    && (forall log | log in logs && Number(log.raw).Some? :: Number(log.raw).value <= m)
    && (m == 0 || exists log :: log in logs && Number(log.raw) == Some(m))
  }

  function Higher(m: nat, number: Option<nat>): nat {
    if number.Some? && number.value > m then number.value else m
  }

  lemma OneMoreLog(m: nat, logs: seq<Log>, log: Log)
    requires IsMaxBlock(m, logs)
    ensures IsMaxBlock(Higher(m, Number(log.raw)), logs + [log])
  {
    var m' := Higher(m, Number(log.raw));
    if m' > 0 {
      var top :| top in logs + [log] && Number(top.raw) == Some(m');
    }
  }

  method MaxBlock(logs: seq<Log>) returns (m: nat)
    ensures IsMaxBlock(m, logs)
  {
    m := 0;
    for i := 0 to |logs|
      invariant IsMaxBlock(m, logs[..i])
    {
      assert logs[..i + 1] == logs[..i] + [logs[i]];
      OneMoreLog(m, logs[..i], logs[i]);
      var number := Number(logs[i].raw);
      if number.Some? && number.value > m {
        m := number.value;
      }
    }
    assert logs[..|logs|] == logs;
  }

  /** Two queries, one after the other; either may fail, and then the whole poll does. */
  method FetchLogs(chain: Chain, addresses: seq<string>, from: nat, head: nat, head': nat, outgoingOk: bool,
          incomingOk: bool)
    returns (answer: Option<(seq<Log>, nat)>)
    requires head <= head' < |chain|
    ensures answer.Some? <==> outgoingOk && incomingOk
    ensures answer.Some?
        ==> answer.value.0 == Fetched(chain, from, head, head', addresses) && IsMaxBlock(answer.value.1, answer.value.0)
  {
    var maxBlock := 0;
    if !outgoingOk {
      return None;
    }
    var outLogs := GetLogs(chain, FirstBlock(from, head), head, Outgoing, addresses);
    var outBlock := MaxBlock(outLogs);
    if outBlock > maxBlock {
      maxBlock := outBlock;
    }
    if !incomingOk {
      return None;
    }
    var inLogs := GetLogs(chain, FirstBlock(from, head'), head', Incoming, addresses);
    var inBlock := MaxBlock(inLogs);
    if inBlock > maxBlock {
      maxBlock := inBlock;
    }
    answer := Some((outLogs + inLogs, maxBlock));
  }

  // ------------------------------------------------------------ what an answer holds

  lemma {:induction false} InBlockHolds(block: seq<Log>, q: Query, addresses: seq<string>, log: Log)
    ensures log in InBlock(block, q, addresses) <==> log in block && Selects(q, log.raw, addresses)
  {
    if block != [] {
      InBlockHolds(block[1..], q, addresses, log);
      assert block == [block[0]] + block[1..];
    }
  }

  lemma FirstOrLater(chain: Chain, from: nat, head: nat, log: Log)
    requires from <= head < |chain|
    ensures (exists b :: from <= b <= head && log in chain[b])
       <==> log in chain[from] || exists b :: from + 1 <= b <= head && log in chain[b]
  {
  }

  lemma {:induction false} GetLogsHolds(chain: Chain, from: nat, head: nat, q: Query, addresses: seq<string>, log: Log)
    requires head < |chain|
    ensures log in GetLogs(chain, from, head, q, addresses)
       <==> Selects(q, log.raw, addresses) && exists b :: from <= b <= head && log in chain[b]
    decreases head + 1 - from
  {
    if from <= head {
      InBlockHolds(chain[from], q, addresses, log);
      GetLogsHolds(chain, from + 1, head, q, addresses, log);
      FirstOrLater(chain, from, head, log);
    }
  }

  lemma AnswerHolds(chain: Chain, from: nat, head: nat, q: Query, addresses: seq<string>, b: nat, log: Log)
    requires head < |chain| && WellFormed(chain) && b < |chain| && log in chain[b]
    ensures log in GetLogs(chain, from, head, q, addresses) <==> from <= b <= head && Selects(q, log.raw, addresses)
  {
    GetLogsHolds(chain, from, head, q, addresses, log);
    forall b' | from <= b' <= head && log in chain[b'] ensures b' == b {
      assert Numbered(log, b') && Numbered(log, b);
    }
  }

  /** Exactly which logs of the chain an answer holds, by the number of their block. */
  lemma FetchedHolds(chain: Chain, from: nat, head: nat, head': nat, addresses: seq<string>, b: nat, log: Log)
    requires head <= head' < |chain| && WellFormed(chain) && b < |chain| && log in chain[b]
    ensures log in Fetched(chain, from, head, head', addresses) <==>
      || (FirstBlock(from, head) <= b <= head && Selects(Outgoing, log.raw, addresses))
      || (FirstBlock(from, head') <= b <= head' && Selects(Incoming, log.raw, addresses))
  {
    AnswerHolds(chain, FirstBlock(from, head), head, Outgoing, addresses, b, log);
    AnswerHolds(chain, FirstBlock(from, head'), head', Incoming, addresses, b, log);
  }

  /** Nothing else is in an answer. */
  lemma FetchedIsOnChain(chain: Chain, from: nat, head: nat, head': nat, addresses: seq<string>, log: Log)
    returns (b: nat)
    requires head <= head' < |chain| && WellFormed(chain) && log in Fetched(chain, from, head, head', addresses)
    ensures b <= head' && log in chain[b] && Number(log.raw) == Some(b) && !log.raw.removed
    ensures FirstBlock(from, head) <= b && Tracked(log.raw, addresses)
    ensures !Selects(Incoming, log.raw, addresses) ==> b <= head
  {
    GetLogsHolds(chain, FirstBlock(from, head), head, Outgoing, addresses, log);
    GetLogsHolds(chain, FirstBlock(from, head'), head', Incoming, addresses, log);
    if Selects(Outgoing, log.raw, addresses) && exists b :: FirstBlock(from, head) <= b <= head && log in chain[b] {
      b :| FirstBlock(from, head) <= b <= head && log in chain[b];
    } else {
      b :| FirstBlock(from, head') <= b <= head' && log in chain[b];
    }
    assert Numbered(log, b);
  }

  // ------------------------------------------------------------ one poll

  /** A poll from a known block misses nothing from there up to the block it reports. */
  ghost predicate PollComplete(chain: Chain, from: nat, head: nat, head': nat, addresses: seq<string>)
    requires head <= head' < |chain|
  {
    forall m: nat | IsMaxBlock(m, Fetched(chain, from, head, head', addresses)) && m < |chain| ::
      forall b, log | from <= b <= m && log in chain[b] && Tracked(log.raw, addresses) ::
        log in Fetched(chain, from, head, head', addresses)
  }

  /** On every chain, exactly when both queries saw the same head. */
  lemma PollCompleteIffSameHead(from: nat, head: nat, head': nat, addresses: seq<string>)
    requires 0 < from <= head <= head' < 0x1_0000_0000_0000_0000 && addresses != []
    ensures (forall chain: Chain | head' < |chain| && WellFormed(chain) ::
        PollComplete(chain, from, head, head', addresses)) <==> head == head'
  {
    if head == head' {
      forall chain: Chain | head' < |chain| && WellFormed(chain)
          ensures PollComplete(chain, from, head, head', addresses) {
        SameHeadIsComplete(chain, from, head, addresses);
      }
    } else {
      var chain := MissingOutgoing(from, head, head', addresses);
    }
  }

  lemma SameHeadIsComplete(chain: Chain, from: nat, head: nat, addresses: seq<string>)
    requires 0 < from && head < |chain| && WellFormed(chain)
    ensures PollComplete(chain, from, head, head, addresses)
  {
    var got := Fetched(chain, from, head, head, addresses);
    forall m: nat, b, log | IsMaxBlock(m, got) && m < |chain| && from <= b <= m && log in chain[b]
        && Tracked(log.raw, addresses)
      ensures log in got
    {
      MaxIsBelowHead(chain, from, head, head, addresses, m);
      FetchedHolds(chain, from, head, head, addresses, b, log);
    }
  }

  lemma MaxIsBelowHead(chain: Chain, from: nat, head: nat, head': nat, addresses: seq<string>, m: nat)
    requires head <= head' < |chain| && WellFormed(chain) && IsMaxBlock(m, Fetched(chain, from, head, head', addresses))
    ensures m <= head' && (m > 0 ==> FirstBlock(from, head) <= m)
  {
    if m > 0 {
      var log :| log in Fetched(chain, from, head, head', addresses) && Number(log.raw) == Some(m);
      var b := FetchedIsOnChain(chain, from, head, head', addresses, log);
    }
  }

  /** If the head moved between the queries, a block can be reported as seen although its outgoing
      log was never asked for. */
  lemma MissingOutgoing(from: nat, head: nat, head': nat, addresses: seq<string>) returns (chain: Chain)
    requires 0 < from <= head < head' < 0x1_0000_0000_0000_0000 && addresses != []
    ensures head' < |chain| && WellFormed(chain) && !PollComplete(chain, from, head, head', addresses)
  {
    var number, wallet := "0x" + Hex(head'), PadAddress(addresses[0]);
    HexRoundTrip(head');
    var received := Log(Transfer(number, "", wallet), true);
    var sent := Log(Transfer(number, wallet, ""), true);
    TransferSelected(number, addresses);
    chain := seq(head' + 1, b => if b == head' then [received, sent] else []);
    MissesSent(chain, from, head, head', addresses, received, sent);
  }

  function Transfer(number: string, from: string, to: string): RawLog {
    RawLog("0x1", number, "0xc", [TRANSFER_TOPIC, from, to], "0x", "0x0", false)
  }

  lemma TransferSelected(number: string, addresses: seq<string>)
    requires addresses != []
    ensures var wallet := PadAddress(addresses[0]);
      && Selects(Incoming, Transfer(number, "", wallet), addresses)
      && Selects(Outgoing, Transfer(number, wallet, ""), addresses)
      && !Selects(Incoming, Transfer(number, wallet, ""), addresses)
  {
    assert PadAddress(addresses[0]) == Padded(addresses)[0];
    assert forall i | 0 <= i < |addresses| :: Padded(addresses)[i] == PadAddress(addresses[i]) != "";
  }

  lemma MissesSent(chain: Chain, from: nat, head: nat, head': nat, addresses: seq<string>, received: Log, sent: Log)
    requires 0 < from <= head < head' < |chain| && WellFormed(chain)
    requires received in chain[head'] && sent in chain[head']
    requires Selects(Incoming, received.raw, addresses)
    requires Selects(Outgoing, sent.raw, addresses) && !Selects(Incoming, sent.raw, addresses)
    ensures !PollComplete(chain, from, head, head', addresses)
  {
    HeadIsReported(chain, from, head, head', addresses, received);
    FetchedHolds(chain, from, head, head', addresses, head', sent);
    assert sent in chain[head'] && Tracked(sent.raw, addresses);
  }

  lemma HeadIsReported(chain: Chain, from: nat, head: nat, head': nat, addresses: seq<string>, received: Log)
    requires 0 < from <= head < head' < |chain| && WellFormed(chain)
    requires received in chain[head'] && Selects(Incoming, received.raw, addresses)
    ensures IsMaxBlock(head', Fetched(chain, from, head, head', addresses))
  {
    var got := Fetched(chain, from, head, head', addresses);
    FetchedHolds(chain, from, head, head', addresses, head', received);
    assert Numbered(received, head');
    assert received in got && Number(received.raw) == Some(head');
    forall log | log in got ensures Number(log.raw).Some? && Number(log.raw).value <= head' {
      var b := FetchedIsOnChain(chain, from, head, head', addresses, log);
    }
  }
}

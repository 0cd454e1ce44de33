/**
 From a raw Ethereum log to a wallet event: the filter inside the watcher's stage, and the two
 address conversions that must agree with each other.
 */
module Normalizer {
  import opened Options

  const TRANSFER_TOPIC := "0x" + "ddf252ad1be2c89b" + "69c2b068fc378daa" + "952ba7f163c4a116" + "28f55a4df523b3ef"

  datatype RawLog = RawLog(
    txHash: string,
    blockNumber: string,
    address: string,
    topics: seq<string>,
    data: string,
    logIndex: string,
    removed: bool)

  /** The normalised event, without the fields the bus does not carry (row id, payload, clock). */
  datatype Event = Event(
    walletId: string,
    txHash: string,
    logIndex: string,
    blockNumber: nat,
    contractAddress: string,
    direction: string,
    amount: string,
    tokenSymbol: string)

  function LowerChar(c: char): char {
    if 'A' <= c <= 'Z' then c - 'A' + 'a' else c
  }

  function ToLower(s: string): (r: string)
    ensures |r| == |s| && forall i | 0 <= i < |s| :: r[i] == LowerChar(s[i])
  {
    seq(|s|, i requires 0 <= i < |s| => LowerChar(s[i]))
  }

  /** Only the 26 capital letters change, each into its own small letter. */
  lemma LowerCase(s: string, i: nat)
    requires i < |s|
    ensures ToLower(s)[i] == s[i] || (s[i] in "ABCDEFGHIJKLMNOPQRSTUVWXYZ" && ToLower(s)[i] as int == s[i] as int + 32)
    ensures !('A' <= ToLower(s)[i] <= 'Z')
  {
    if 'A' <= s[i] <= 'Z' {
      var k := s[i] as int - 'A' as int;
      assert "ABCDEFGHIJKLMNOPQRSTUVWXYZ"[k] == s[i];
    }
  }

  function TrimPrefix(s: string): string {
    if |s| >= 2 && s[..2] == "0x" then s[2..] else s
  }

  function HexDigit(c: char): Option<nat> {
    if '0' <= c <= '9' then Some((c - '0') as nat)
    else if 'a' <= c <= 'f' then Some((c - 'a') as nat + 10)
    else if 'A' <= c <= 'F' then Some((c - 'A') as nat + 10)
    else None
  }

  function HexValue(s: string): Option<nat> {
    if s == "" then Some(0)
    else
      var high, low := HexValue(s[..|s| - 1]), HexDigit(s[|s| - 1]);
      if high.Some? && low.Some? then Some(16 * high.value + low.value) else None
  }

  lemma HexDigitTable(n: nat)
    requires n < 16
    ensures HexDigit("0123456789abcdef"[n]) == Some(n) && HexDigit("0123456789ABCDEF"[n]) == Some(n)
  {
  }

  /** A text is a number exactly when all its characters are digits. */
  lemma {:induction false} HexValueIff(s: string)
    ensures HexValue(s).Some? <==> forall c | c in s :: HexDigit(c).Some?
  {
    if s != "" {
      HexValueIff(s[..|s| - 1]);
      assert s == s[..|s| - 1] + [s[|s| - 1]];
    }
  }

  /** The first digit is the most significant. */
  lemma {:induction false} HexValueOfFirst(c: char, s: string)
    requires HexDigit(c).Some? && HexValue(s).Some?
    ensures HexValue([c] + s) == Some(HexDigit(c).value * Power16(|s|) + HexValue(s).value)
  {
    if s == "" {
      assert [c] + s == [c] && [c][..0] == "";
    } else {
      var n := |s| - 1;
      HexValueOfFirst(c, s[..n]);
      assert ([c] + s)[..|s|] == [c] + s[..n];
      Scaled(HexDigit(c).value, Power16(n), HexValue(s[..n]).value);
    }
  }

  lemma Scaled(d: nat, p: nat, v: nat)
    ensures 16 * (d * p + v) == d * (16 * p) + 16 * v
  {
  }

  function Power16(n: nat): nat {
    if n == 0 then 1 else 16 * Power16(n - 1)
  }

  /** big.Int.SetString in base 16: an optional sign, then at least one digit; the result keeps the
      low 64 bits of the magnitude. */
  function ParseHexUint64(hex: string): (n: Option<nat>)
    ensures n.Some? ==> n.value < 0x1_0000_0000_0000_0000
  {
    ParseHexInt(TrimPrefix(hex))
  }

  function ParseHexInt(s: string): (n: Option<nat>)
    ensures n.Some? ==> n.value < 0x1_0000_0000_0000_0000
  {
    var digits := if s != "" && (s[0] == '+' || s[0] == '-') then s[1..] else s;
    if digits == "" then None
    else
      var v := HexValue(digits);
      if v.None? then None else Some(v.value % 0x1_0000_0000_0000_0000)
  }

  /** "%x": lower-case hex digits without leading zeros. */
  function Hex(n: nat): (s: string)
    ensures s != ""
  {
    if n < 16 then [HexChar(n)] else Hex(n / 16) + [HexChar(n % 16)]
  }

  function HexChar(n: nat): (c: char)
    requires n < 16
    ensures HexDigit(c) == Some(n) && c != '+' && c != '-'
  {
    if n < 10 then '0' + n as char else 'a' + (n - 10) as char
  }

  lemma {:induction false} HexThenValue(n: nat)
    ensures HexValue(Hex(n)) == Some(n) && Hex(n)[0] != '+' && Hex(n)[0] != '-'
  {
    if n < 16 {
      assert Hex(n)[..0] == "";
    } else {
      HexThenValue(n / 16);
      assert Hex(n)[..|Hex(n)| - 1] == Hex(n / 16);
    }
  }

  /** A block number written the way the poller writes it is read back as the same number. */
  lemma HexRoundTrip(n: nat)
    requires n < 0x1_0000_0000_0000_0000
    ensures ParseHexUint64("0x" + Hex(n)) == Some(n)
  {
    HexThenValue(n);
    Prefixed(Hex(n));
    PlainDigits(Hex(n), n);
  }

  lemma PlainDigits(s: string, n: nat)
    requires s != "" && s[0] != '+' && s[0] != '-' && HexValue(s) == Some(n) && n < 0x1_0000_0000_0000_0000
    ensures ParseHexInt(s) == Some(n)
  {
  }

  /** A sign is read and dropped, and only the low 64 bits of a number are kept. */
  lemma SignIsDropped(digits: string, sign: char)
    requires digits != "" && HexValue(digits).Some? && (sign == '+' || sign == '-')
    ensures ParseHexInt(digits) == ParseHexInt([sign] + digits)
         == Some(HexValue(digits).value % 0x1_0000_0000_0000_0000)
  {
    HexValueIff(digits);
    assert digits[0] in digits;
    assert ([sign] + digits)[1..] == digits;
  }

  lemma Prefixed(s: string)
    ensures TrimPrefix("0x" + s) == s
  {
    assert ("0x" + s)[..2] == "0x" && ("0x" + s)[2..] == s;
  }

  /** The last 40 hex characters of a topic, as an address; "" when it is too short. */
  function TopicToAddress(topic: string): (addr: string)
    ensures addr == "" || |addr| == 42
    ensures addr == "" <==> |topic| < if TrimPrefix(topic) == topic then 40 else 42
  {
    var t := TrimPrefix(topic);
    if |t| < 40 then "" else ToLower("0x" + t[|t| - 40..])
  }

  function Zeros(n: nat): (z: string)
    ensures |z| == n && forall i | 0 <= i < n :: z[i] == '0'
  {
    seq(n, i => '0')
  }

  /** Lower case, no prefix, zero-padded on the left to 64 characters, prefixed again. */
  function PadAddress(addr: string): string {
    var a := TrimPrefix(ToLower(addr));
    "0x" + (if |a| < 64 then Zeros(64 - |a|) + a else a)
  }

  predicate IsAddress(addr: string) {
    |addr| == 42 && ToLower(addr[..2]) == "0x"
  }

  /** Padding an address for the query and reading it back from the topic gives the address the
      tracked map is keyed by. */
  lemma PadThenRead(addr: string)
    requires IsAddress(addr)
    ensures TopicToAddress(PadAddress(addr)) == ToLower(addr)
  {
    var low := ToLower(addr);
    PadGives(addr);
    ReadGives(Zeros(24), low[2..]);
    LowerTwice(addr);
  }

  lemma LowerTwice(s: string)
    ensures ToLower(ToLower(s)) == ToLower(s)
  {
  }

  lemma ReadGives(zeros: string, digits: string)
    requires |zeros| == 24 && |digits| == 40
    ensures TopicToAddress("0x" + (zeros + digits)) == ToLower("0x" + digits)
  {
    assert TrimPrefix("0x" + (zeros + digits)) == zeros + digits;
    assert (zeros + digits)[24..] == digits;
  }

  lemma PadGives(addr: string)
    requires IsAddress(addr)
    ensures var low := ToLower(addr); low == "0x" + low[2..] && PadAddress(addr) == "0x" + (Zeros(24) + low[2..])
  {
    assert ToLower(addr)[..2] == ToLower(addr[..2]);
  }

  /** Two tracked addresses are queried alike only if they are one address. */
  lemma PaddingIsInjective(a: string, b: string)
    requires IsAddress(a) && IsAddress(b)
    ensures PadAddress(a) == PadAddress(b) <==> ToLower(a) == ToLower(b)
  {
    PadThenRead(a);
    PadThenRead(b);
  }

  lemma LowerConcat(s: string, t: string)
    requires ToLower(s) == s && ToLower(t) == t
    ensures ToLower(s + t) == s + t
  {
  }

  lemma TransferTopicIsLower()
    ensures ToLower(TRANSFER_TOPIC) == TRANSFER_TOPIC
  {
    var a, b, c, d := "ddf252ad1be2c89b", "69c2b068fc378daa", "952ba7f163c4a116", "28f55a4df523b3ef";
    assert ToLower("0x") == "0x" && ToLower(a) == a && ToLower(b) == b && ToLower(c) == c && ToLower(d) == d;
    LowerConcat("0x", a);
    LowerConcat("0x" + a, b);
    LowerConcat("0x" + a + b, c);
    LowerConcat("0x" + a + b + c, d);
  }

  function KnownToken(contract: string): Option<string> {
    if contract == "0xa0b86991c6218b36c1d19d4a2e9eb0ce3606eb48" then Some("USDC")
    else if contract == "0xdac17f958d2ee523a2206206994597c13d831ec7" then Some("USDT")
    else None
  }

  /** Whose event this is: the sender is looked up first. */
  function Party(raw: RawLog, tracked: map<string, string>): Option<(string, string)> {
    if |raw.topics| < 3 then None
    else
      var from, to := TopicToAddress(raw.topics[1]), TopicToAddress(raw.topics[2]);
      if from in tracked then Some((tracked[from], "outgoing"))
      else if to in tracked then Some((tracked[to], "incoming"))
      else None
  }

  /** None for a log to skip and for one that cannot be parsed: the watcher drops both. `amount` is
      the decimal text of the transferred amount, a floating-point computation left abstract. */
  function NormalizeTransferLog(raw: RawLog, tracked: map<string, string>, amount: string): Option<Event> {
    if raw.removed || |raw.topics| < 3 || ToLower(raw.topics[0]) != TRANSFER_TOPIC then None
    else
      var party, block := Party(raw, tracked), ParseHexUint64(raw.blockNumber);
      if party.None? || block.None? then None
      else
        var contract := ToLower(raw.address);
        Some(Event(party.value.0, raw.txHash, raw.logIndex, block.value, contract, party.value.1, amount,
                   if KnownToken(contract).Some? then KnownToken(contract).value else "UNKNOWN"))
  }

  /** Field by field, the event is the log's: the sender's if the sender is tracked, else the receiver's. */
  predicate Describes(e: Event, raw: RawLog, tracked: map<string, string>, amount: string) {
    && |raw.topics| >= 3
    && (var from, to := TopicToAddress(raw.topics[1]), TopicToAddress(raw.topics[2]);
        if from in tracked then e.walletId == tracked[from] && e.direction == "outgoing"
        else to in tracked && e.walletId == tracked[to] && e.direction == "incoming")
    && e.txHash == raw.txHash && e.logIndex == raw.logIndex && e.amount == amount
    && ParseHexUint64(raw.blockNumber) == Some(e.blockNumber)
    && e.contractAddress == ToLower(raw.address)
    && e.tokenSymbol == TokenOf(ToLower(raw.address))
  }

  /** The symbol of the two contracts the watcher knows. */
  function TokenOf(contract: string): string {
    match KnownToken(contract)
    case Some(symbol) => symbol
    case None => "UNKNOWN"
  }

  /** A log is kept exactly when it is a transfer of this chain, to or from a tracked address, with a block
      number that can be read. */
  lemma KeptIff(raw: RawLog, tracked: map<string, string>, amount: string)
    ensures NormalizeTransferLog(raw, tracked, amount).Some? <==>
      && !raw.removed && |raw.topics| >= 3 && ToLower(raw.topics[0]) == TRANSFER_TOPIC
      && (TopicToAddress(raw.topics[1]) in tracked || TopicToAddress(raw.topics[2]) in tracked)
      && ParseHexUint64(raw.blockNumber).Some?
    ensures var e := NormalizeTransferLog(raw, tracked, amount); e.Some? ==> Describes(e.value, raw, tracked, amount)
  {
  }

  /** What the node's filter selects is what the normaliser keeps: a log with a tracked address,
      padded, as sender (or, failing that, as receiver) becomes that wallet's event. */
  lemma FilterAgreesWithNormalizer(raw: RawLog, tracked: map<string, string>, amount: string, addr: string)
    requires IsAddress(addr) && ToLower(addr) in tracked
    requires !raw.removed && |raw.topics| >= 3 && ToLower(raw.topics[0]) == TRANSFER_TOPIC
        && ParseHexUint64(raw.blockNumber).Some?
    requires raw.topics[1] == PadAddress(addr) || raw.topics[2] == PadAddress(addr)
    ensures var e := NormalizeTransferLog(raw, tracked, amount);
      && e.Some?
      && (raw.topics[1] == PadAddress(addr)
          ==> e.value.walletId == tracked[ToLower(addr)] && e.value.direction == "outgoing")
      && (TopicToAddress(raw.topics[1]) !in tracked
          ==> e.value.walletId == tracked[ToLower(addr)] && e.value.direction == "incoming")
  {
    PadThenRead(addr);
  }

  /** A log between two tracked wallets makes one event, the sender's: a tracked receiver gets its
      incoming event if and only if the sender is not tracked. */
  lemma ReceiverGetsEventIffSenderUntracked(raw: RawLog, tracked: map<string, string>, amount: string, sender: string,
          receiver: string)
    requires IsAddress(sender) && IsAddress(receiver) && ToLower(receiver) in tracked
    requires !raw.removed && |raw.topics| >= 3 && ToLower(raw.topics[0]) == TRANSFER_TOPIC
        && ParseHexUint64(raw.blockNumber).Some?
    requires raw.topics[1] == PadAddress(sender) && raw.topics[2] == PadAddress(receiver)
    ensures var e := NormalizeTransferLog(raw, tracked, amount);
      && e.Some?
      && (e.value.direction == "incoming" && e.value.walletId == tracked[ToLower(receiver)]
          <==> ToLower(sender) !in tracked)
      && (ToLower(sender) in tracked
          ==> e.value.direction == "outgoing" && e.value.walletId == tracked[ToLower(sender)])
  {
    PadThenRead(sender);
    PadThenRead(receiver);
    assert "incoming" != "outgoing";
  }
}

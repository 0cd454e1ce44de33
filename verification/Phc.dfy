/**
 The PHC string of an argon2id hash: $argon2id$v=19$m=..,t=..,p=..$salt$key.

 The decoder is the code's: strings.Split on '$', fmt.Sscanf for the numeric fields (which skips
 leading blanks and ignores whatever follows the last number), base64 without padding.
 */
module Phc {
  import Base64
  import opened Options

  type UInt32 = n: nat | n < 0x1_0000_0000

  const VERSION := 19
  const UINT32_MAX := 0xffff_ffff
  const UINT8_MAX := 0xff
  const INT64_MAX := 0x7fff_ffff_ffff_ffff

  datatype Params = Params(memoryKiB: nat, time: nat, parallelism: nat, saltLen: UInt32, keyLen: UInt32)

  datatype Decoded =
    | Ok(params: Params, salt: seq<Base64.Byte>, key: seq<Base64.Byte>)
    | WrongFieldCount(fields: nat)
    | UnsupportedAlgorithm
    | MalformedVersion
    | UnsupportedVersion(version: int)
    | MalformedParams
    | BadSalt
    | BadKey

  // ------------------------------------------------------------ decimal numbers

  function Digit(n: nat): (c: char)
    requires n < 10
  {
    '0' + n as char
  }

  predicate IsDigit(c: char) {
    '0' <= c <= '9'
  }

  predicate AllDigits(s: string) {
    forall i | 0 <= i < |s| :: IsDigit(s[i])
  }

  function Decimal(n: nat): (s: string)
    ensures s != "" && AllDigits(s)
  {
    if n < 10 then [Digit(n)] else Decimal(n / 10) + [Digit(n % 10)]
  }

  function Value(s: string): nat
    requires AllDigits(s)
  {
    if s == "" then 0 else 10 * Value(s[..|s| - 1]) + (s[|s| - 1] - '0') as nat
  }

  predicate CanonicalNumber(s: string) {
    s != "" && AllDigits(s) && (s[0] == '0' ==> |s| == 1)
  }

  lemma {:induction false} DecimalThenValue(n: nat)
    ensures Value(Decimal(n)) == n && CanonicalNumber(Decimal(n)) && (n > 0 ==> Decimal(n)[0] != '0')
  {
    if n >= 10 {
      DecimalThenValue(n / 10);
      var s := Decimal(n);
      assert s[..|s| - 1] == Decimal(n / 10);
    }
  }

  lemma {:induction false} ValueThenDecimal(s: string)
    requires CanonicalNumber(s)
    ensures Decimal(Value(s)) == s
    ensures s[0] != '0' ==> Value(s) > 0
    decreases |s|
  {
    var rest := s[..|s| - 1];
    assert s == rest + [s[|s| - 1]];
    if |s| == 1 {
      assert Value(rest) == 0;
    } else {
      assert rest[0] == s[0];
      ValueThenDecimal(rest);
      assert Value(s) / 10 == Value(rest);
    }
  }

  // ------------------------------------------------------------ scanning

  predicate IsBlank(c: char) {
    || c == ' ' || c == '\t' || c == '\r' || 0x0b <= c as int <= 0x0c
    || c as int in {0x85, 0xa0, 0x1680, 0x2028, 0x2029, 0x202f, 0x205f, 0x3000} || 0x2000 <= c as int <= 0x200a
  }

  /** Sscanf's blanks before a number: a line feed is an error. */
  function SkipBlanks(s: string): Option<string> {
    if s == "" then Some(s)
    else if s[0] == '\n' then None
    else if IsBlank(s[0]) then SkipBlanks(s[1..])
    else Some(s)
  }

  function DigitRun(s: string): (n: nat)
    ensures n <= |s| && AllDigits(s[..n])
  {
    if s == "" || !IsDigit(s[0]) then 0
    else
      var n := DigitRun(s[1..]);
      assert s[..1 + n] == [s[0]] + s[1..][..n];
      1 + n
  }

  /** %d into an unsigned variable: the number and what follows it. */
  function ScanUint(s: string, max: nat): Option<(nat, string)> {
    var t := SkipBlanks(s);
    if t.None? then None
    else
      var n := DigitRun(t.value);
      if n == 0 || Value(t.value[..n]) > max then None else Some((Value(t.value[..n]), t.value[n..]))
  }

  /** %d into an int: one sign is allowed. */
  function ScanInt(s: string): Option<(int, string)> {
    var t := SkipBlanks(s);
    if t.None? then None
    else if t.value != "" && (t.value[0] == '+' || t.value[0] == '-') then ScanDigits(t.value[1..], t.value[0] == '-')
    else ScanDigits(t.value, false)
  }

  function ScanDigits(digits: string, negative: bool): Option<(int, string)> {
    var n := DigitRun(digits);
    if n == 0 then None
    else
      var magnitude: int := Value(digits[..n]);
      var v := if negative then -magnitude else magnitude;
      if -INT64_MAX - 1 <= v <= INT64_MAX then Some((v, digits[n..])) else None
  }

  function ScanLiteral(s: string, literal: string): Option<string> {
    if literal <= s then Some(s[|literal|..]) else None
  }

  function ScanVersion(s: string): Option<int> {
    var v := ScanLiteral(s, "v=");
    if v.None? then None
    else
      var n := ScanInt(v.value);
      if n.None? then None else Some(n.value.0)
  }

  /** A literal, then an unsigned number. */
  function ScanField(s: string, literal: string, max: nat): Option<(nat, string)> {
    var t := ScanLiteral(s, literal);
    if t.None? then None else ScanUint(t.value, max)
  }

  function ScanParams(s: string): Option<(nat, nat, nat)> {
    var m := ScanField(s, "m=", UINT32_MAX);
    if m.None? then None
    else
      var t := ScanField(m.value.1, ",t=", UINT32_MAX);
      if t.None? then None
      else
        var p := ScanField(t.value.1, ",p=", UINT8_MAX);
        if p.None? then None else Some((m.value.0, t.value.0, p.value.0))
  }

  lemma {:induction false} DigitRunStops(d: string, rest: string)
    requires AllDigits(d) && (rest == "" || !IsDigit(rest[0]))
    ensures DigitRun(d + rest) == |d|
  {
    if d != "" {
      DigitRunStops(d[1..], rest);
      assert (d + rest)[1..] == d[1..] + rest;
    } else {
      assert d + rest == rest;
    }
  }

  lemma ScanUintReads(d: string, rest: string, max: nat)
    requires d != "" && AllDigits(d) && Value(d) <= max && (rest == "" || !IsDigit(rest[0]))
    ensures ScanUint(d + rest, max) == Some((Value(d), rest))
  {
    DigitRunStops(d, rest);
    assert IsDigit((d + rest)[0]);
    assert (d + rest)[..|d|] == d && (d + rest)[|d|..] == rest;
  }

  lemma ScanFieldReads(literal: string, d: string, rest: string, max: nat)
    requires d != "" && AllDigits(d) && Value(d) <= max && (rest == "" || !IsDigit(rest[0]))
    ensures ScanField(literal + d + rest, literal, max) == Some((Value(d), rest))
  {
    assert literal + d + rest == literal + (d + rest);
    assert (literal + (d + rest))[|literal|..] == d + rest;
    ScanUintReads(d, rest, max);
  }

  function ParamsField(m: string, t: string, p: string): string {
    "m=" + m + (",t=" + t + (",p=" + p + ""))
  }

  lemma ScanParamsReads(m: string, t: string, p: string)
    requires m != "" && AllDigits(m) && t != "" && AllDigits(t) && p != "" && AllDigits(p)
    requires Value(m) <= UINT32_MAX && Value(t) <= UINT32_MAX && Value(p) <= UINT8_MAX
    ensures ScanParams(ParamsField(m, t, p)) == Some((Value(m), Value(t), Value(p)))
  {
    ScanFieldReads("m=", m, ",t=" + t + (",p=" + p + ""), UINT32_MAX);
    ScanFieldReads(",t=", t, ",p=" + p + "", UINT32_MAX);
    ScanFieldReads(",p=", p, "", UINT8_MAX);
  }

  // ------------------------------------------------------------ splitting

  function Split(s: string): (parts: seq<string>)
    ensures parts != []
  {
    if s == "" then [""]
    else if s[0] == '$' then [""] + Split(s[1..])
    else
      var rest := Split(s[1..]);
      [[s[0]] + rest[0]] + rest[1..]
  }

  function Join(parts: seq<string>): string
    requires parts != []
  {
    if |parts| == 1 then parts[0] else parts[0] + "$" + Join(parts[1..])
  }

  lemma {:induction false} SplitThenJoin(s: string)
    ensures Join(Split(s)) == s
  {
    if s != "" {
      SplitThenJoin(s[1..]);
      assert s == [s[0]] + s[1..];
      if s[0] == '$' {
        JoinAfter("", Split(s[1..]));
      } else {
        JoinLonger(s[0], Split(s[1..]));
      }
    }
  }

  lemma JoinAfter(a: string, parts: seq<string>)
    requires parts != []
    ensures Join([a] + parts) == a + "$" + Join(parts)
  {
    assert ([a] + parts)[1..] == parts;
  }

  lemma JoinLonger(c: char, parts: seq<string>)
    requires parts != []
    ensures Join([[c] + parts[0]] + parts[1..]) == [c] + Join(parts)
  {
    var longer := [[c] + parts[0]] + parts[1..];
    assert longer[1..] == parts[1..];
    assert |parts| > 1 ==> ([c] + parts[0]) + "$" + Join(parts[1..]) == [c] + (parts[0] + "$" + Join(parts[1..]));
  }

  lemma {:induction false} SplitField(a: string, rest: string)
    requires '$' !in a
    ensures Split(a + "$" + rest) == [a] + Split(rest)
  {
    var s := a + "$" + rest;
    if a == "" {
      assert s[1..] == rest;
    } else {
      SplitField(a[1..], rest);
      assert s[1..] == a[1..] + "$" + rest;
      assert a == [a[0]] + a[1..];
      assert s[0] == a[0] && a[0] in a;
    }
  }

  lemma {:induction false} SplitLast(a: string)
    requires '$' !in a
    ensures Split(a) == [a]
  {
    if a != "" {
      SplitLast(a[1..]);
      assert a == [a[0]] + a[1..];
      assert a[0] in a;
    }
  }

  // ------------------------------------------------------------ the codec

  function EncodePHC(memoryKiB: nat, time: nat, parallelism: nat, salt: seq<Base64.Byte>,
          key: seq<Base64.Byte>): string {
    Join(["", "argon2id", "v=" + Decimal(VERSION), ParamsField(Decimal(memoryKiB), Decimal(time), Decimal(parallelism)),
          Base64.Encode(salt), Base64.Encode(key)])
  }

  function DecodePHC(s: string): Decoded {
    DecodeFields(Split(s))
  }

  function DecodeFields(parts: seq<string>): Decoded {
    if |parts| != 6 then WrongFieldCount(|parts|)
    else if parts[1] != "argon2id" then UnsupportedAlgorithm
    else
      var version := ScanVersion(parts[2]);
      if version.None? then MalformedVersion
      else if version.value != VERSION then UnsupportedVersion(version.value)
      else
        var p := ScanParams(parts[3]);
        if p.None? then MalformedParams
        else
          var salt := Base64.Decode(parts[4]);
          if salt.None? then BadSalt
          else
            var key := Base64.Decode(parts[5]);
            if key.None? then BadKey
            else Ok(Params(p.value.0, p.value.1, p.value.2, |salt.value| % 0x1_0000_0000, |key.value| % 0x1_0000_0000),
                salt.value, key.value)
  }

  /** The layout of an encoding. */
  lemma Layout(memoryKiB: nat, time: nat, parallelism: nat, salt: seq<Base64.Byte>, key: seq<Base64.Byte>)
    ensures EncodePHC(memoryKiB, time, parallelism, salt, key)
         == "$argon2id$v=19$"
          + ("m=" + Decimal(memoryKiB) + (",t=" + Decimal(time) + (",p=" + Decimal(parallelism)))
             + "$" + (Base64.Encode(salt) + "$" + Base64.Encode(key)))
  {
    var params := ParamsField(Decimal(memoryKiB), Decimal(time), Decimal(parallelism));
    assert ",p=" + Decimal(parallelism) + "" == ",p=" + Decimal(parallelism);
    assert Decimal(VERSION) == Decimal(1) + ['9'] == "19";
    assert "v=" + Decimal(VERSION) == "v=19";
    JoinFields("argon2id", "v=19", params, Base64.Encode(salt), Base64.Encode(key));
  }

  lemma JoinFields(b: string, c: string, d: string, e: string, f: string)
    ensures Join(["", b, c, d, e, f]) == ("$" + b + "$" + c + "$") + (d + "$" + (e + "$" + f))
  {
    var tail := d + "$" + (e + "$" + f);
    assert [e, f][1..] == [f] && [d, e, f][1..] == [e, f] && [c, d, e, f][1..] == [d, e, f];
    assert [b, c, d, e, f][1..] == [c, d, e, f] && ["", b, c, d, e, f][1..] == [b, c, d, e, f];
    assert Join([f]) == f && Join([e, f]) == e + "$" + f && Join([d, e, f]) == tail;
    assert Join([c, d, e, f]) == c + "$" + tail && Join([b, c, d, e, f]) == b + "$" + (c + "$" + tail);
    assert "" + "$" + (b + "$" + (c + "$" + tail)) == ("$" + b + "$" + c + "$") + tail;
  }

  /** A string is accepted exactly when it has six fields, of which the second names the algorithm, the
      third scans to version 19, the fourth scans to the parameters and the last two decode; and which of
      these fails first decides the refusal. */
  lemma AcceptedIff(s: string)
    ensures var f, d := Split(s), DecodePHC(s);
      && (d.WrongFieldCount? <==> |f| != 6) && (d.WrongFieldCount? ==> d.fields == |f|)
      && (d.UnsupportedAlgorithm? <==> |f| == 6 && f[1] != "argon2id")
      && (|f| == 6 && f[1] == "argon2id" ==>
            && (d.MalformedVersion? <==> ScanVersion(f[2]).None?)
            && (d.UnsupportedVersion? <==> ScanVersion(f[2]).Some? && ScanVersion(f[2]).value != 19)
            && (ScanVersion(f[2]) == Some(19) ==>
                  && (d.MalformedParams? <==> ScanParams(f[3]).None?)
                  && (d.BadSalt? <==> ScanParams(f[3]).Some? && Base64.Decode(f[4]).None?)
                  && (d.BadKey? <==> ScanParams(f[3]).Some? && Base64.Decode(f[4]).Some? && Base64.Decode(f[5]).None?)
                  && (d.Ok? <==> ScanParams(f[3]).Some? && Base64.Decode(f[4]).Some? && Base64.Decode(f[5]).Some?)))
  {
  }

  lemma NoDollar(s: string)
    requires forall c | c in s :: Base64.Decode6(c).Some?
    ensures '$' !in s
  {
  }

  lemma {:induction false} SplitJoin(parts: seq<string>)
    requires parts != [] && forall i | 0 <= i < |parts| :: '$' !in parts[i]
    ensures Split(Join(parts)) == parts
    decreases |parts|
  {
    if |parts| == 1 {
      SplitLast(parts[0]);
    } else {
      SplitJoin(parts[1..]);
      SplitField(parts[0], Join(parts[1..]));
      assert parts == [parts[0]] + parts[1..];
    }
  }

  /** The fields of an encoding are the fields it was put together from. */
  lemma EncodedFields(memoryKiB: nat, time: nat, parallelism: nat, salt: seq<Base64.Byte>, key: seq<Base64.Byte>)
    ensures Split(EncodePHC(memoryKiB, time, parallelism, salt, key))
         == ["", "argon2id", "v=19", ParamsField(Decimal(memoryKiB), Decimal(time), Decimal(parallelism)),
             Base64.Encode(salt), Base64.Encode(key)]
  {
    assert Decimal(VERSION) == Decimal(1) + ['9'] == "19";
    Base64.RoundTrip(salt);
    Base64.RoundTrip(key);
    NoDollar(Base64.Encode(salt));
    NoDollar(Base64.Encode(key));
    var parts := ["", "argon2id", "v=19", ParamsField(Decimal(memoryKiB), Decimal(time), Decimal(parallelism)),
        Base64.Encode(salt), Base64.Encode(key)];
    assert "v=" + Decimal(VERSION) == "v=19";
    SplitJoin(parts);
  }

  lemma VersionReads()
    ensures ScanVersion("v=19") == Some(19)
  {
    var t := "19";
    assert "v=19"[2..] == t;
    assert DigitRun(t[2..]) == 0 && t[1..][1..] == t[2..];
    assert DigitRun(t[1..]) == 1;
    assert t[..2] == t && t[..2][..1] == "1" && "1"[..0] == "";
    assert Value("1") == 1;
    assert Value(t) == 19;
  }

  /** Decoding an encoding gives back the cost parameters, the salt and the key. */
  lemma RoundTrip(memoryKiB: nat, time: nat, parallelism: nat, salt: seq<Base64.Byte>, key: seq<Base64.Byte>)
    requires memoryKiB <= UINT32_MAX && time <= UINT32_MAX && parallelism <= UINT8_MAX
    ensures DecodePHC(EncodePHC(memoryKiB, time, parallelism, salt, key))
         == Ok(Params(memoryKiB, time, parallelism, |salt| % 0x1_0000_0000, |key| % 0x1_0000_0000), salt, key)
  {
    EncodedFields(memoryKiB, time, parallelism, salt, key);
    FieldsRoundTrip(memoryKiB, time, parallelism, salt, key);
  }

  lemma FieldsRoundTrip(memoryKiB: nat, time: nat, parallelism: nat, salt: seq<Base64.Byte>, key: seq<Base64.Byte>)
    requires memoryKiB <= UINT32_MAX && time <= UINT32_MAX && parallelism <= UINT8_MAX
    ensures DecodeFields(["", "argon2id", "v=19", ParamsField(Decimal(memoryKiB), Decimal(time), Decimal(parallelism)),
        Base64.Encode(salt), Base64.Encode(key)])
         == Ok(Params(memoryKiB, time, parallelism, |salt| % 0x1_0000_0000, |key| % 0x1_0000_0000), salt, key)
  {
    VersionReads();
    DecimalThenValue(memoryKiB);
    DecimalThenValue(time);
    DecimalThenValue(parallelism);
    ScanParamsReads(Decimal(memoryKiB), Decimal(time), Decimal(parallelism));
    Base64.RoundTrip(salt);
    Base64.RoundTrip(key);
  }

  // ------------------------------------------------------------ what else is accepted

  /** m=N,t=N,p=N with plain decimal numbers and nothing else. */
  ghost predicate CanonicalParams(s: string) {
    exists m, t, p :: CanonicalNumber(m) && CanonicalNumber(t) && CanonicalNumber(p) && s == ParamsField(m, t, p)
  }

  /** The documented layout, to the letter: nothing before the first '$', the version written
      plainly, plain numbers, base64 without line breaks or stray bits. */
  ghost predicate Canonical(s: string) {
    var parts := Split(s);
    && |parts| == 6 && parts[0] == "" && parts[2] == "v=19" && CanonicalParams(parts[3])
    && Base64.Canonical(parts[4]) && Base64.Canonical(parts[5])
  }

  function Reencoded(d: Decoded): string
    requires d.Ok?
  {
    EncodePHC(d.params.memoryKiB, d.params.time, d.params.parallelism, d.salt, d.key)
  }

  /** Many strings stand for one hash: the decoder is not as strict as its comment says. Whatever
      is put before the first '$' of an encoding is ignored. */
  lemma NotStrict(prefix: string, memoryKiB: nat, time: nat, parallelism: nat, salt: seq<Base64.Byte>,
          key: seq<Base64.Byte>)
    requires memoryKiB <= UINT32_MAX && time <= UINT32_MAX && parallelism <= UINT8_MAX
    requires '$' !in prefix
    ensures DecodePHC(prefix + EncodePHC(memoryKiB, time, parallelism, salt, key))
         == Ok(Params(memoryKiB, time, parallelism, |salt| % 0x1_0000_0000, |key| % 0x1_0000_0000), salt, key)
  {
    var rest := Join(["argon2id", "v=" + Decimal(VERSION),
                      ParamsField(Decimal(memoryKiB), Decimal(time), Decimal(parallelism)),
                      Base64.Encode(salt), Base64.Encode(key)]);
    var s := EncodePHC(memoryKiB, time, parallelism, salt, key);
    assert s == "" + "$" + rest;
    assert prefix + s == prefix + "$" + rest;
    FirstFieldIsIgnored(prefix, rest);
    RoundTrip(memoryKiB, time, parallelism, salt, key);
  }

  /** More generally, any four texts that scan and decode, behind any first field, stand for what they
      scan and decode to; the lemmas after this one give texts the encoder never writes. */
  lemma FieldsDecode(first: string, version: string, params: string, saltText: string, keyText: string)
    requires '$' !in first && '$' !in version && '$' !in params && '$' !in saltText && '$' !in keyText
    requires ScanVersion(version) == Some(VERSION) && ScanParams(params).Some?
    requires Base64.Decode(saltText).Some? && Base64.Decode(keyText).Some?
    ensures var r, salt, key := ScanParams(params).value, Base64.Decode(saltText).value, Base64.Decode(keyText).value;
      DecodePHC(Join([first, "argon2id", version, params, saltText, keyText]))
      == Ok(Params(r.0, r.1, r.2, |salt| % 0x1_0000_0000, |key| % 0x1_0000_0000), salt, key)
  {
    var parts := [first, "argon2id", version, params, saltText, keyText];
    assert '$' !in "argon2id";
    SplitJoin(parts);
  }

  /** Text after the last number of either field is ignored. */
  lemma TextAfterNumbersIsIgnored(m: string, t: string, p: string, rest: string)
    requires m != "" && AllDigits(m) && t != "" && AllDigits(t) && p != "" && AllDigits(p)
    requires Value(m) <= UINT32_MAX && Value(t) <= UINT32_MAX && Value(p) <= UINT8_MAX
    requires rest == "" || !IsDigit(rest[0])
    ensures ScanParams("m=" + m + (",t=" + t + (",p=" + p + rest))) == ScanParams(ParamsField(m, t, p))
    ensures ScanVersion("v=19" + rest) == ScanVersion("v=19")
  {
    ScanParamsReads(m, t, p);
    ScanFieldReads("m=", m, ",t=" + t + (",p=" + p + rest), UINT32_MAX);
    ScanFieldReads(",t=", t, ",p=" + p + rest, UINT32_MAX);
    ScanFieldReads(",p=", p, rest, UINT8_MAX);
    VersionReads();
    TextAfterVersion(rest);
  }

  lemma TextAfterVersion(rest: string)
    requires rest == "" || !IsDigit(rest[0])
    ensures ScanVersion("v=19" + rest) == Some(19)
  {
    var s := "v=19" + rest;
    assert s[2..] == "19" + rest;
    DigitRunStops("19", rest);
    assert ("19" + rest)[..2] == "19";
    VersionReads();
    assert "v=19"[2..] == "19";
    DigitRunStops("19", "");
    assert "19" + "" == "19" && "19"[..2] == "19";
  }

  /** An unsigned number is refused when it is missing, signed, or too large for its variable. */
  lemma NumberIsRefused(d: string, rest: string, max: nat)
    requires AllDigits(d) && (rest == "" || !IsDigit(rest[0]))
    requires (d != "" && Value(d) > max) || (d == "" && rest != "" && !IsBlank(rest[0]))
    ensures ScanUint(d + rest, max) == None
  {
    var s := d + rest;
    if d == "" {
      assert s == rest;
      assert rest[0] != '\n' ==> DigitRun(rest) == 0;
    } else {
      assert s[0] == d[0];
      DigitRunStops(d, rest);
      assert s[..|d|] == d;
    }
  }

  /** The version alone may carry a sign. */
  lemma SignIsAccepted(d: string)
    requires d != "" && AllDigits(d) && Value(d) <= INT64_MAX
    ensures ScanInt(d) == Some((Value(d) as int, "")) && ScanInt("+" + d) == Some((Value(d) as int, ""))
    ensures ScanInt("-" + d) == Some((-(Value(d) as int), ""))
  {
    AllScanned(d);
    NotBlank(d);
    Signed('+', d);
    Signed('-', d);
  }

  lemma AllScanned(d: string)
    requires d != "" && AllDigits(d) && Value(d) <= INT64_MAX
    ensures ScanDigits(d, false) == Some((Value(d) as int, "")) && ScanDigits(d, true) == Some((-(Value(d) as int), ""))
  {
    DigitRunStops(d, "");
    assert d + "" == d;
    var n := DigitRun(d);
    assert d[..n] == d && d[n..] == "";
  }

  lemma NotBlank(s: string)
    requires s != "" && (s[0] == '+' || s[0] == '-' || IsDigit(s[0]))
    ensures SkipBlanks(s) == Some(s)
  {
  }

  lemma Signed(sign: char, d: string)
    requires sign == '+' || sign == '-'
    ensures ScanInt([sign] + d) == ScanDigits(d, sign == '-')
  {
    NotBlank([sign] + d);
    assert ([sign] + d)[1..] == d;
  }

  /** Leading zeros change no number. */
  lemma {:induction false} LeadingZeroIsIgnored(d: string)
    requires AllDigits(d)
    ensures AllDigits("0" + d) && Value("0" + d) == Value(d)
  {
    if d == "" {
      assert ("0" + d)[..0] == "";
    } else {
      LeadingZeroIsIgnored(d[..|d| - 1]);
      assert ("0" + d)[..|d|] == "0" + d[..|d| - 1];
    }
  }

  /** Any blank before a number, in the version field as in the parameters, is skipped. */
  lemma BlankIsSkipped(c: char, literal: string, s: string, max: nat)
    requires IsBlank(c)
    ensures ScanField(literal + [c] + s, literal, max) == ScanField(literal + s, literal, max)
    ensures ScanVersion("v=" + [c] + s) == ScanVersion("v=" + s)
  {
    BlankAfter("v=", c, s);
    BlankAfter(literal, c, s);
  }

  lemma BlankAfter(literal: string, c: char, s: string)
    requires IsBlank(c)
    ensures ScanLiteral(literal + [c] + s, literal) == Some([c] + s) && ScanLiteral(literal + s, literal) == Some(s)
    ensures SkipBlanks([c] + s) == SkipBlanks(s)
  {
    assert (literal + [c] + s)[|literal|..] == [c] + s && (literal + s)[|literal|..] == s;
    assert literal <= literal + [c] + s && literal <= literal + s;
    assert ([c] + s)[1..] == s;
  }

  lemma FirstFieldUnused(a: string, b: string, rest: seq<string>)
    ensures DecodeFields([a] + rest) == DecodeFields([b] + rest)
  {
    var p, q := [a] + rest, [b] + rest;
    assert forall i | 1 <= i < |p| :: p[i] == q[i];
  }

  lemma FirstFieldIsIgnored(a: string, rest: string)
    requires '$' !in a
    ensures DecodePHC(a + "$" + rest) == DecodePHC("" + "$" + rest)
  {
    SplitField(a, rest);
    SplitField("", rest);
    FirstFieldUnused(a, "", Split(rest));
  }

  /** An accepted string is what the encoder writes for its content exactly when it follows the
      documented layout to the letter. */
  lemma ReencodingIffCanonical(s: string)
    requires DecodePHC(s).Ok?
    ensures Reencoded(DecodePHC(s)) == s <==> Canonical(s)
  {
    if Reencoded(DecodePHC(s)) == s {
      ReencodedIsCanonical(s);
    }
    if Canonical(s) {
      CanonicalIsReencoded(s);
    }
  }

  lemma ReencodedIsCanonical(s: string)
    requires DecodePHC(s).Ok? && Reencoded(DecodePHC(s)) == s
    ensures Canonical(s)
  {
    var d, parts := DecodePHC(s), Split(s);
    var m, t, p := Decimal(d.params.memoryKiB), Decimal(d.params.time), Decimal(d.params.parallelism);
    EncodedFields(d.params.memoryKiB, d.params.time, d.params.parallelism, d.salt, d.key);
    assert parts == ["", "argon2id", "v=19", ParamsField(m, t, p), Base64.Encode(d.salt), Base64.Encode(d.key)];
    DecimalThenValue(d.params.memoryKiB);
    DecimalThenValue(d.params.time);
    DecimalThenValue(d.params.parallelism);
    assert CanonicalParams(ParamsField(m, t, p));
    Base64.CanonicalIffRoundTrip(parts[4]);
    Base64.CanonicalIffRoundTrip(parts[5]);
  }

  lemma CanonicalIsReencoded(s: string)
    requires DecodePHC(s).Ok? && Canonical(s)
    ensures Reencoded(DecodePHC(s)) == s
  {
    var d, parts := DecodePHC(s), Split(s);
    CanonicalFields(d.params.memoryKiB, d.params.time, d.params.parallelism, d.salt, d.key, parts);
    FieldsDetermineEncoding(d.params.memoryKiB, d.params.time, d.params.parallelism, d.salt, d.key, s);
  }

  lemma CanonicalFields(memoryKiB: nat, time: nat, parallelism: nat, salt: seq<Base64.Byte>, key: seq<Base64.Byte>,
          parts: seq<string>)
    requires |parts| == 6 && CanonicalParams(parts[3]) && ScanParams(parts[3]) == Some((memoryKiB, time, parallelism))
    requires Base64.Canonical(parts[4]) && Base64.Decode(parts[4]) == Some(salt)
    requires Base64.Canonical(parts[5]) && Base64.Decode(parts[5]) == Some(key)
    ensures parts[3] == ParamsField(Decimal(memoryKiB), Decimal(time), Decimal(parallelism))
    ensures parts[4] == Base64.Encode(salt) && parts[5] == Base64.Encode(key)
  {
    CanonicalParamsAreReprinted(parts[3]);
    CanonicalBytesAreReencoded(parts[4], salt);
    CanonicalBytesAreReencoded(parts[5], key);
  }

  lemma CanonicalBytesAreReencoded(s: string, b: seq<Base64.Byte>)
    requires Base64.Canonical(s) && Base64.Decode(s) == Some(b)
    ensures Base64.Encode(b) == s
  {
    Base64.CanonicalIffRoundTrip(s);
  }

  lemma CanonicalParamsAreReprinted(s: string)
    requires CanonicalParams(s) && ScanParams(s).Some?
    ensures var r := ScanParams(s).value; ParamsField(Decimal(r.0), Decimal(r.1), Decimal(r.2)) == s
  {
    var m, t, p :| CanonicalNumber(m) && CanonicalNumber(t) && CanonicalNumber(p) && s == ParamsField(m, t, p);
    ParamsFieldIsReprinted(m, t, p);
  }

  lemma FieldsDetermineEncoding(memoryKiB: nat, time: nat, parallelism: nat, salt: seq<Base64.Byte>,
          key: seq<Base64.Byte>, s: string)
    requires var parts := Split(s);
      && |parts| == 6 && parts[0] == "" && parts[1] == "argon2id" && parts[2] == "v=19"
      && parts[3] == ParamsField(Decimal(memoryKiB), Decimal(time), Decimal(parallelism))
      && parts[4] == Base64.Encode(salt) && parts[5] == Base64.Encode(key)
    ensures EncodePHC(memoryKiB, time, parallelism, salt, key) == s
  {
    var parts := Split(s);
    EncodedFields(memoryKiB, time, parallelism, salt, key);
    assert Split(EncodePHC(memoryKiB, time, parallelism, salt, key)) == parts;
    SplitThenJoin(s);
    SplitThenJoin(EncodePHC(memoryKiB, time, parallelism, salt, key));
  }

  /** Scanning plain numbers succeeds only within range, and printing them again changes nothing. */
  lemma ParamsFieldIsReprinted(m: string, t: string, p: string)
    requires CanonicalNumber(m) && CanonicalNumber(t) && CanonicalNumber(p) && ScanParams(ParamsField(m, t, p)).Some?
    ensures var r := ScanParams(ParamsField(m, t, p)).value;
      ParamsField(Decimal(r.0), Decimal(r.1), Decimal(r.2)) == ParamsField(m, t, p)
  {
    var afterT := ",p=" + p + "";
    var afterM := ",t=" + t + afterT;
    ScanFieldInRange("m=", m, afterM, UINT32_MAX);
    ScanFieldReads("m=", m, afterM, UINT32_MAX);
    ScanFieldInRange(",t=", t, afterT, UINT32_MAX);
    ScanFieldReads(",t=", t, afterT, UINT32_MAX);
    ScanFieldInRange(",p=", p, "", UINT8_MAX);
    ScanFieldReads(",p=", p, "", UINT8_MAX);
    ValueThenDecimal(m);
    ValueThenDecimal(t);
    ValueThenDecimal(p);
  }

  lemma ScanFieldInRange(literal: string, d: string, rest: string, max: nat)
    requires d != "" && AllDigits(d) && (rest == "" || !IsDigit(rest[0]))
        && ScanField(literal + d + rest, literal, max).Some?
    ensures Value(d) <= max
  {
    assert literal + d + rest == literal + (d + rest);
    assert (literal + (d + rest))[|literal|..] == d + rest;
    DigitRunStops(d, rest);
    assert IsDigit((d + rest)[0]);
    assert (d + rest)[..|d|] == d;
  }
}

/**
 Unpadded standard base64 (RFC 4648, sections 3.2 and 4), decoded the way Go's RawStdEncoding does:
 carriage returns and line feeds are skipped, unused trailing bits are ignored.
 */
module Base64 {
  import opened Options

  type Byte = b: nat | b < 256
  type Sextet = n: nat | n < 64

  function Encode6(n: Sextet): (c: char)
    ensures Decode6(c) == Some(n)
  {
    if n < 26 then 'A' + n as char
    else if n < 52 then 'a' + (n - 26) as char
    else if n < 62 then '0' + (n - 52) as char
    else if n == 62 then '+' else '/'
  }

  function Decode6(c: char): (n: Option<Sextet>)
    ensures n.Some? ==> c != '$' && c != '\r' && c != '\n'
  {
    if 'A' <= c <= 'Z' then Some((c - 'A') as nat)
    else if 'a' <= c <= 'z' then Some((c - 'a') as nat + 26)
    else if '0' <= c <= '9' then Some((c - '0') as nat + 52)
    else if c == '+' then Some(62)
    else if c == '/' then Some(63)
    else None
  }

  lemma DecodeThenEncode6(c: char)
    requires Decode6(c).Some?
    ensures Encode6(Decode6(c).value) == c
  {
  }

  /** The alphabet of RFC 4648, section 4. */
  lemma Alphabet(n: Sextet)
    ensures n < 26 ==> Encode6(n) == "ABCDEFGHIJKLMNOPQRSTUVWXYZ"[n]
    ensures 26 <= n < 52 ==> Encode6(n) == "abcdefghijklmnopqrstuvwxyz"[n - 26]
    ensures 52 <= n ==> Encode6(n) == "0123456789+/"[n - 52]
  {
  }

  function Sextet0(b0: Byte): Sextet { b0 / 4 }
  function Sextet1(b0: Byte, b1: Byte): Sextet { (b0 % 4) as int * 16 + b1 / 16 }
  function Sextet2(b1: Byte, b2: Byte): Sextet { (b1 % 16) as int * 4 + b2 / 64 }
  function Sextet3(b2: Byte): Sextet { b2 % 64 }

  function Byte0(x0: Sextet, x1: Sextet): Byte { x0 as int * 4 + x1 / 16 }
  function Byte1(x1: Sextet, x2: Sextet): Byte { (x1 % 16) as int * 16 + x2 / 4 }
  function Byte2(x2: Sextet, x3: Sextet): Byte { (x2 % 4) as int * 64 + x3 }

  /** The sextets of a byte string: 24 bits at a time, the last group padded with zero bits. */
  function ToSextets(b: seq<Byte>): seq<Sextet> {
    if b == [] then []
    else if |b| == 1 then [Sextet0(b[0]), Sextet1(b[0], 0)]
    else if |b| == 2 then [Sextet0(b[0]), Sextet1(b[0], b[1]), Sextet2(b[1], 0)]
    else [Sextet0(b[0]), Sextet1(b[0], b[1]), Sextet2(b[1], b[2]), Sextet3(b[2])] + ToSextets(b[3..])
  }

  /** The bytes of a sextet string; one sextet alone cannot hold a byte. */
  function FromSextets(x: seq<Sextet>): Option<seq<Byte>> {
    if x == [] then Some([])
    else if |x| == 1 then None
    else if |x| == 2 then Some([Byte0(x[0], x[1])])
    else if |x| == 3 then Some([Byte0(x[0], x[1]), Byte1(x[1], x[2])])
    else
      var rest := FromSextets(x[4..]);
      if rest.None? then None
      else Some([Byte0(x[0], x[1]), Byte1(x[1], x[2]), Byte2(x[2], x[3])] + rest.value)
  }

  /** The bits of the last sextet that no byte uses are zero. */
  predicate NoStrayBits(x: seq<Sextet>) {
    if |x| < 2 then true
    else if |x| == 2 then x[1] % 16 == 0
    else if |x| == 3 then x[2] % 4 == 0
    else NoStrayBits(x[4..])
  }

  /** A group of three bytes and its four sextets are one 24-bit number, most significant first. */
  lemma GroupIsOneNumber(b0: Byte, b1: Byte, b2: Byte)
    ensures 0x1_0000 * b0 + 0x100 * b1 + b2
         == 0x4_0000 * Sextet0(b0) + 0x1000 * Sextet1(b0, b1) + 0x40 * Sextet2(b1, b2) + Sextet3(b2)
  {
  }

  lemma GroupToBytes(b0: Byte, b1: Byte, b2: Byte)
    ensures Byte0(Sextet0(b0), Sextet1(b0, b1)) == b0
    ensures Byte1(Sextet1(b0, b1), Sextet2(b1, b2)) == b1
    ensures Byte2(Sextet2(b1, b2), Sextet3(b2)) == b2
    ensures Sextet1(b0, 0) % 16 == 0 && Sextet2(b1, 0) % 4 == 0
  {
  }

  lemma GroupToSextets(x0: Sextet, x1: Sextet, x2: Sextet, x3: Sextet)
    ensures Sextet0(Byte0(x0, x1)) == x0
    ensures Sextet1(Byte0(x0, x1), Byte1(x1, x2)) == x1
    ensures Sextet2(Byte1(x1, x2), Byte2(x2, x3)) == x2
    ensures Sextet3(Byte2(x2, x3)) == x3
    ensures Sextet1(Byte0(x0, x1), 0) == x1 <==> x1 % 16 == 0
    ensures Sextet2(Byte1(x1, x2), 0) == x2 <==> x2 % 4 == 0
  {
  }

  lemma Pair(x0: Sextet, x1: Sextet, b0: Byte)
    requires Byte0(x0, x1) == b0
    ensures FromSextets([x0, x1]) == Some([b0]) && (NoStrayBits([x0, x1]) <==> x1 % 16 == 0)
  {
  }

  lemma Triple(x0: Sextet, x1: Sextet, x2: Sextet, b0: Byte, b1: Byte)
    requires Byte0(x0, x1) == b0 && Byte1(x1, x2) == b1
    ensures FromSextets([x0, x1, x2]) == Some([b0, b1]) && (NoStrayBits([x0, x1, x2]) <==> x2 % 4 == 0)
  {
  }

  lemma Single(b0: Byte, x0: Sextet, x1: Sextet)
    requires Sextet0(b0) == x0 && Sextet1(b0, 0) == x1
    ensures ToSextets([b0]) == [x0, x1]
  {
  }

  lemma Double(b0: Byte, b1: Byte, x0: Sextet, x1: Sextet, x2: Sextet)
    requires Sextet0(b0) == x0 && Sextet1(b0, b1) == x1 && Sextet2(b1, 0) == x2
    ensures ToSextets([b0, b1]) == [x0, x1, x2]
  {
  }

  lemma OneByte(b0: Byte)
    ensures FromSextets(ToSextets([b0])) == Some([b0]) && NoStrayBits(ToSextets([b0]))
  {
    GroupToBytes(b0, 0, 0);
    Single(b0, Sextet0(b0), Sextet1(b0, 0));
    Pair(Sextet0(b0), Sextet1(b0, 0), b0);
  }

  lemma TwoBytes(b0: Byte, b1: Byte)
    ensures FromSextets(ToSextets([b0, b1])) == Some([b0, b1]) && NoStrayBits(ToSextets([b0, b1]))
  {
    GroupToBytes(b0, b1, 0);
    Double(b0, b1, Sextet0(b0), Sextet1(b0, b1), Sextet2(b1, 0));
    Triple(Sextet0(b0), Sextet1(b0, b1), Sextet2(b1, 0), b0, b1);
  }

  lemma TwoSextets(x0: Sextet, x1: Sextet)
    ensures FromSextets([x0, x1]).Some?
        && (ToSextets(FromSextets([x0, x1]).value) == [x0, x1] <==> NoStrayBits([x0, x1]))
  {
    var b0 := Byte0(x0, x1);
    GroupToSextets(x0, x1, 0, 0);
    Pair(x0, x1, b0);
    Single(b0, x0, Sextet1(b0, 0));
    assert [x0, Sextet1(b0, 0)][1] == Sextet1(b0, 0);
  }

  lemma ThreeSextets(x0: Sextet, x1: Sextet, x2: Sextet)
    ensures FromSextets([x0, x1, x2]).Some?
        && (ToSextets(FromSextets([x0, x1, x2]).value) == [x0, x1, x2] <==> NoStrayBits([x0, x1, x2]))
  {
    var b0, b1 := Byte0(x0, x1), Byte1(x1, x2);
    GroupToSextets(x0, x1, x2, 0);
    Triple(x0, x1, x2, b0, b1);
    Double(b0, b1, x0, x1, Sextet2(b1, 0));
    assert [x0, x1, Sextet2(b1, 0)][2] == Sextet2(b1, 0);
  }

  lemma FullGroup(b0: Byte, b1: Byte, b2: Byte, rest: seq<Byte>)
    ensures ToSextets([b0, b1, b2] + rest)
        == [Sextet0(b0), Sextet1(b0, b1), Sextet2(b1, b2), Sextet3(b2)] + ToSextets(rest)
  {
    assert ([b0, b1, b2] + rest)[3..] == rest;
  }

  lemma FullQuartet(x0: Sextet, x1: Sextet, x2: Sextet, x3: Sextet, rest: seq<Sextet>)
    ensures var x := [x0, x1, x2, x3] + rest;
      && FromSextets(x).Some? == FromSextets(rest).Some?
      && (FromSextets(rest).Some?
          ==> FromSextets(x).value == [Byte0(x0, x1), Byte1(x1, x2), Byte2(x2, x3)] + FromSextets(rest).value)
      && (NoStrayBits(x) <==> NoStrayBits(rest))
  {
    assert ([x0, x1, x2, x3] + rest)[4..] == rest;
  }

  lemma {:induction false} SextetsRoundTrip(b: seq<Byte>)
    ensures FromSextets(ToSextets(b)) == Some(b) && NoStrayBits(ToSextets(b))
    decreases |b|
  {
    if |b| == 1 {
      OneByte(b[0]);
      assert b == [b[0]];
    } else if |b| == 2 {
      TwoBytes(b[0], b[1]);
      assert b == [b[0], b[1]];
    } else if |b| >= 3 {
      var rest := b[3..];
      SextetsRoundTrip(rest);
      FullGroup(b[0], b[1], b[2], rest);
      FullQuartet(Sextet0(b[0]), Sextet1(b[0], b[1]), Sextet2(b[1], b[2]), Sextet3(b[2]), ToSextets(rest));
      GroupToBytes(b[0], b[1], b[2]);
      assert b == [b[0], b[1], b[2]] + rest;
    }
  }

  /** The other way round holds exactly for inputs without stray bits. */
  lemma {:induction false} BytesRoundTrip(x: seq<Sextet>)
    requires FromSextets(x).Some?
    ensures ToSextets(FromSextets(x).value) == x <==> NoStrayBits(x)
    decreases |x|
  {
    if |x| == 2 {
      TwoSextets(x[0], x[1]);
      assert x == [x[0], x[1]];
    } else if |x| == 3 {
      ThreeSextets(x[0], x[1], x[2]);
      assert x == [x[0], x[1], x[2]];
    } else if |x| >= 4 {
      var rest := x[4..];
      assert x == [x[0], x[1], x[2], x[3]] + rest;
      FullQuartet(x[0], x[1], x[2], x[3], rest);
      BytesRoundTrip(rest);
      FullGroup(Byte0(x[0], x[1]), Byte1(x[1], x[2]), Byte2(x[2], x[3]), FromSextets(rest).value);
      GroupToSextets(x[0], x[1], x[2], x[3]);
      SameTail([x[0], x[1], x[2], x[3]], ToSextets(FromSextets(rest).value), rest);
    }
  }

  lemma SameTail(head: seq<Sextet>, s: seq<Sextet>, t: seq<Sextet>)
    ensures head + s == head + t <==> s == t
  {
    assert (head + s)[|head|..] == s && (head + t)[|head|..] == t;
  }

  function Chars(x: seq<Sextet>): (s: string)
    ensures |s| == |x| && forall i | 0 <= i < |x| :: s[i] == Encode6(x[i])
  {
    seq(|x|, i requires 0 <= i < |x| => Encode6(x[i]))
  }

  /** The sextets of the characters, line breaks skipped; None at any other foreign character. */
  function Sextets(s: string): Option<seq<Sextet>> {
    if s == "" then Some([])
    else
      var rest := Sextets(s[1..]);
      if s[0] == '\r' || s[0] == '\n' then rest
      else if rest.None? || Decode6(s[0]).None? then None
      else Some([Decode6(s[0]).value] + rest.value)
  }

  predicate NoBreaks(s: string) {
    '\r' !in s && '\n' !in s
  }

  lemma {:induction false} CharsRoundTrip(x: seq<Sextet>)
    ensures Sextets(Chars(x)) == Some(x)
  {
    if x != [] {
      CharsRoundTrip(x[1..]);
      assert Chars(x)[1..] == Chars(x[1..]);
      assert Decode6(Chars(x)[0]) == Some(x[0]);
      assert x == [x[0]] + x[1..];
    }
  }

  lemma {:induction false} SextetsThenChars(s: string)
    requires Sextets(s).Some?
    ensures |Sextets(s).value| <= |s| && (NoBreaks(s) <==> |Sextets(s).value| == |s|)
    ensures NoBreaks(s) ==> Chars(Sextets(s).value) == s
  {
    if s != "" {
      SextetsThenChars(s[1..]);
      assert s == [s[0]] + s[1..];
      assert NoBreaks(s) <==> NoBreaks(s[1..]) && s[0] != '\r' && s[0] != '\n';
      if NoBreaks(s) {
        DecodeThenEncode6(s[0]);
        assert Chars(Sextets(s).value) == [s[0]] + Chars(Sextets(s[1..]).value);
      }
    }
  }

  function Encode(b: seq<Byte>): string {
    Chars(ToSextets(b))
  }

  function Decode(s: string): Option<seq<Byte>> {
    var x := Sextets(s);
    if x.None? then None else FromSextets(x.value)
  }

  lemma RoundTrip(b: seq<Byte>)
    ensures Decode(Encode(b)) == Some(b)
    ensures forall c | c in Encode(b) :: Decode6(c).Some?
  {
    CharsRoundTrip(ToSextets(b));
    SextetsRoundTrip(b);
  }

  /** Four letters for three bytes, and no padding. */
  lemma {:induction false} EncodedLength(b: seq<Byte>)
    ensures |Encode(b)| == |b| / 3 * 4 + (if |b| % 3 == 0 then 0 else |b| % 3 + 1)
  {
    if |b| >= 3 {
      EncodedLength(b[3..]);
    }
  }

  /** How many characters of a text are not line breaks. */
  function Letters(s: string): nat {
    if s == "" then 0 else (if s[0] == '\r' || s[0] == '\n' then 0 else 1) + Letters(s[1..])
  }

  lemma {:induction false} SextetsIff(s: string)
    ensures Sextets(s).Some? <==> forall c | c in s :: c == '\r' || c == '\n' || Decode6(c).Some?
    ensures Sextets(s).Some? ==> |Sextets(s).value| == Letters(s)
  {
    if s != "" {
      SextetsIff(s[1..]);
      assert s == [s[0]] + s[1..];
    }
  }

  lemma LongIff(x: seq<Sextet>)
    requires |x| >= 4
    ensures FromSextets(x).Some? <==> FromSextets(x[4..]).Some?
  {
  }

  lemma {:induction false} FromSextetsIff(x: seq<Sextet>)
    ensures FromSextets(x).Some? <==> |x| % 4 != 1
  {
    if |x| >= 4 {
      FromSextetsIff(x[4..]);
      LongIff(x);
    }
  }

  /** A text is refused exactly when it holds a character that is neither a letter nor a line break, or
      when one letter is left over at its end. */
  lemma DecodesIff(s: string)
    ensures Decode(s).Some? <==>
      (forall c | c in s :: c == '\r' || c == '\n' || Decode6(c).Some?) && Letters(s) % 4 != 1
  {
    SextetsIff(s);
    if Sextets(s).Some? {
      FromSextetsIff(Sextets(s).value);
    }
  }

  /** What Decode accepts but Encode would never write: line breaks and stray bits. */
  predicate Canonical(s: string) {
    NoBreaks(s) && Sextets(s).Some? && NoStrayBits(Sextets(s).value)
  }

  lemma CanonicalIffRoundTrip(s: string)
    requires Decode(s).Some?
    ensures Encode(Decode(s).value) == s <==> Canonical(s)
  {
    var x := Sextets(s).value;
    BytesRoundTrip(x);
    SextetsThenChars(s);
    var y := ToSextets(Decode(s).value);
    if Encode(Decode(s).value) == s {
      RoundTrip(Decode(s).value);
      CharsRoundTrip(y);
      SextetsRoundTrip(Decode(s).value);
    }
  }

  /** Line breaks of either kind are skipped wherever they stand. */
  lemma {:induction false} LineBreakIsSkipped(s: string, c: char, t: string)
    requires c == '\r' || c == '\n'
    ensures Sextets(s + [c] + t) == Sextets(s + t) && Decode(s + [c] + t) == Decode(s + t)
  {
    var u, v := s + [c] + t, s + t;
    if s == "" {
      assert u[1..] == t && v == t;
    } else {
      LineBreakIsSkipped(s[1..], c, t);
      assert u[1..] == s[1..] + [c] + t && v[1..] == s[1..] + t;
    }
  }

  /** Bits of the last letter that belong to no byte are ignored: sixteen texts stand for one byte. */
  lemma StrayBitsAreIgnored(b: Byte, stray: nat)
    requires stray < 16
    ensures Decode([Encode6(Sextet0(b)), Encode6(Sextet1(b, 0) + stray)]) == Some([b])
  {
    var x0, x1 := Sextet0(b), Sextet1(b, 0) + stray;
    assert [Encode6(x0), Encode6(x1)] == Chars([x0, x1]);
    CharsRoundTrip([x0, x1]);
  }
}

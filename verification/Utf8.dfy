/**
 UTF-8 as section 3 of RFC 3629 defines it, over Dafny characters, which are
 Unicode scalar values, and the clamping loop the relay applies to text it
 echoes.
 */
module Utf8 {
  import opened Basics

  function EncodeChar(c: char): (b: Bytes)
    ensures 1 <= |b| <= 4
  {
    var v := c as int;
    if v < 0x80 then [v]
    else if v < 0x800 then [0xC0 + v / 0x40, 0x80 + v % 0x40]
    else if v < 0x10000 then [0xE0 + v / 0x1000, 0x80 + v / 0x40 % 0x40, 0x80 + v % 0x40]
    else [0xF0 + v / 0x40000, 0x80 + v / 0x1000 % 0x40, 0x80 + v / 0x40 % 0x40, 0x80 + v % 0x40]
  }

  function Encode(s: string): Bytes {
    if s == [] then [] else EncodeChar(s[0]) + Encode(s[1..])
  }

  /** Examples of section 7 of RFC 3629: one, two, three and four octets. */
  lemma KnownEncodings()
    ensures EncodeChar('A') == [0x41] && EncodeChar('\U{0391}') == [0xCE, 0x91]
    ensures EncodeChar('\U{2262}') == [0xE2, 0x89, 0xA2] && EncodeChar('\U{233B4}') == [0xF0, 0xA3, 0x8E, 0xB4]
  {
  }

  predicate IsContinuation(b: byte) {
    0x80 <= b < 0xC0
  }

  /** How many octets a leading octet announces, or none if it cannot lead. */
  function Width(lead: byte): nat {
    if lead < 0x80 then 1
    else if 0xC2 <= lead < 0xE0 then 2
    else if 0xE0 <= lead < 0xF0 then 3
    else if 0xF0 <= lead < 0xF5 then 4
    else 0
  }

  predicate Continues(b: Bytes, w: nat)
    requires w <= |b|
  {
    forall i :: 1 <= i < w ==> IsContinuation(b[i])
  }

  function Value(a: int, b: int, c: int, d: int): int {
    a * 0x40000 + b * 0x1000 + c * 0x40 + d
  }

  /** The scalar value the octets begin with: shortest form, no surrogate, at most U+10FFFF. */
  function FirstChar(b: Bytes): Option<char>
    requires b != []
  {
    var w := Width(b[0]);
    if w == 0 || |b| < w || !Continues(b, w) then None
    else if w == 1 then Some(b[0] as char)
    else if w == 2 then Some(Value(0, 0, b[0] - 0xC0, b[1] - 0x80) as char)
    else if w == 3 then
      var v := Value(0, b[0] - 0xE0, b[1] - 0x80, b[2] - 0x80);
      if v < 0x800 || 0xD800 <= v < 0xE000 then None else Some(v as char)
    else
      var v := Value(b[0] - 0xF0, b[1] - 0x80, b[2] - 0x80, b[3] - 0x80);
      if v < 0x10000 || 0x110000 <= v then None else Some(v as char)
  }

  function Decode(b: Bytes): Option<string> {
    if b == [] then Some([])
    else
      match FirstChar(b)
      case None => None
      case Some(c) =>
        match Decode(b[Width(b[0])..])
        case None => None
        case Some(rest) => Some([c] + rest)
  }

  predicate WellFormed(b: Bytes) {
    Decode(b).Some?
  }

  lemma Digits(v: nat)
    requires v < 0x110000
    ensures Value(0, 0, v / 0x40, v % 0x40) == v
    ensures Value(0, v / 0x1000, v / 0x40 % 0x40, v % 0x40) == v
    ensures Value(v / 0x40000, v / 0x1000 % 0x40, v / 0x40 % 0x40, v % 0x40) == v
  {
    assert v / 0x1000 == v / 0x40 / 0x40;
    assert v / 0x40000 == v / 0x1000 / 0x40;
  }

  lemma FirstOfEncoded(c: char, rest: Bytes)
    ensures FirstChar(EncodeChar(c) + rest) == Some(c)
    ensures Width((EncodeChar(c) + rest)[0]) == |EncodeChar(c)|
  {
    hide Value;
    var b := EncodeChar(c) + rest;
    Digits(c as int);
  }

  lemma EncodeCons(c: char, s: string)
    ensures Encode([c] + s) == EncodeChar(c) + Encode(s)
  {
    assert ([c] + s)[1..] == s;
  }

  lemma DecodeCons(c: char, rest: Bytes)
    ensures Decode(EncodeChar(c) + rest)
         == match Decode(rest)
            case None => None
            case Some(s) => Some([c] + s)
  {
    hide FirstChar, EncodeChar;
    FirstOfEncoded(c, rest);
    assert (EncodeChar(c) + rest)[|EncodeChar(c)|..] == rest;
  }

  lemma {:induction false} DecodeEncode(s: string)
    ensures Decode(Encode(s)) == Some(s)
  {
    if s != [] {
      hide Encode, Decode, EncodeChar;
      assert s == [s[0]] + s[1..];
      EncodeCons(s[0], s[1..]);
      DecodeCons(s[0], Encode(s[1..]));
      DecodeEncode(s[1..]);
    }
  }

  lemma EncodeFirst(b: Bytes)
    requires b != [] && FirstChar(b).Some?
    ensures Width(b[0]) <= |b| && EncodeChar(FirstChar(b).value) == b[..Width(b[0])]
  {
    var w := Width(b[0]);
    assert w >= 2 ==> IsContinuation(b[1]);
    assert w >= 3 ==> IsContinuation(b[2]);
    assert w >= 4 ==> IsContinuation(b[3]);
    if w == 2 {
      Parts(0, 0, b[0] - 0xC0, b[1] - 0x80);
    } else if w == 3 {
      Parts(0, b[0] - 0xE0, b[1] - 0x80, b[2] - 0x80);
    } else if w == 4 {
      Parts(b[0] - 0xF0, b[1] - 0x80, b[2] - 0x80, b[3] - 0x80);
    }
  }

  lemma Digit(high: nat, low: nat)
    requires low < 0x40
    ensures (high * 0x40 + low) / 0x40 == high && (high * 0x40 + low) % 0x40 == low
  {
  }

  lemma Parts(a: nat, b: nat, c: nat, d: nat)
    requires b < 0x40 && c < 0x40 && d < 0x40
    ensures var v := Value(a, b, c, d);
            && v % 0x40 == d && v / 0x40 % 0x40 == c && v / 0x1000 % 0x40 == b && v / 0x40000 == a
            && v / 0x1000 == a * 0x40 + b && v / 0x40 == a * 0x1000 + b * 0x40 + c
  {
    var v := Value(a, b, c, d);
    var three := a * 0x40 + b;
    var two := three * 0x40 + c;
    assert v == two * 0x40 + d;
    Digit(two, d);
    Digit(three, c);
    Digit(a, b);
    assert v / 0x1000 == v / 0x40 / 0x40 && v / 0x40000 == v / 0x40 / 0x40 / 0x40;
  }

  /** Decoding accepts exactly the encodings of strings. */
  lemma {:induction false} EncodeDecode(b: Bytes)
    requires WellFormed(b)
    ensures Encode(Decode(b).value) == b
  {
    if b != [] {
      hide FirstChar, EncodeChar, Width, Encode;
      EncodeFirst(b);
      var rest := b[Width(b[0])..];
      EncodeDecode(rest);
      EncodeCons(FirstChar(b).value, Decode(rest).value);
    } else {
      assert Encode([]) == [];
    }
  }

  lemma EncodeAppendCons(c: char, s: string, t: string)
    requires Encode(s + t) == Encode(s) + Encode(t)
    ensures Encode(([c] + s) + t) == Encode([c] + s) + Encode(t)
  {
    hide Encode, EncodeChar;
    Associative([c], s, t);
    EncodeCons(c, s + t);
    EncodeCons(c, s);
    Associative(EncodeChar(c), Encode(s), Encode(t));
  }

  lemma {:induction false} EncodeAppend(s: string, t: string)
    ensures Encode(s + t) == Encode(s) + Encode(t)
  {
    if s == [] {
      assert s + t == t;
    } else {
      hide Encode;
      EncodeAppend(s[1..], t);
      EncodeAppendCons(s[0], s[1..], t);
      Rejoined(s);
    }
  }

  // Clamping

  predicate IsCharBoundary(b: Bytes, k: nat)
    requires k <= |b|
  {
    k == 0 || k == |b| || !IsContinuation(b[k])
  }

  lemma FirstWidth(b: Bytes)
    requires b != [] && FirstChar(b).Some?
    ensures 1 <= Width(b[0]) <= |b| && !IsContinuation(b[0])
    ensures forall i :: 1 <= i < Width(b[0]) ==> IsContinuation(b[i])
    ensures forall k :: Width(b[0]) <= k <= |b| ==> FirstChar(b[..k]) == FirstChar(b)
    ensures forall k :: 1 <= k < Width(b[0]) ==> FirstChar(b[..k]) == None
  {
  }

  /** The boundaries of well-formed text are where its well-formed prefixes end. */
  lemma {:induction false} BoundaryIsWellFormed(b: Bytes, k: nat)
    requires WellFormed(b) && k <= |b|
    ensures IsCharBoundary(b, k) <==> WellFormed(b[..k])
    decreases |b|
  {
    if k == 0 {
      assert b[..k] == [];
    } else {
      hide FirstChar;
      FirstWidth(b);
      var w := Width(b[0]);
      if k < w {
        assert b[..k][0] == b[0];
      } else {
        BoundaryIsWellFormed(b[w..], k - w);
        assert b[..k][w..] == b[w..][..k - w];
      }
    }
  }

  /** Clamps text to a limit: the longest well-formed prefix that is within it. */
  method Clamp(text: Bytes, limit: nat) returns (kept: Bytes)
    requires WellFormed(text)
    ensures kept <= text && |kept| <= limit && WellFormed(kept)
    ensures forall k :: |kept| < k <= |text| && k <= limit ==> !WellFormed(text[..k])
  {
    kept := text;
    if |text| > limit {
      var end := limit;
      while end > 0 && !IsCharBoundary(text, end)
        invariant 0 <= end <= limit
        invariant forall k :: end < k <= limit ==> !WellFormed(text[..k])
      {
        BoundaryIsWellFormed(text, end);
        end := end - 1;
      }
      BoundaryIsWellFormed(text, end);
      kept := text[..end];
    }
  }

  /** A well-formed prefix of an encoding decodes to a prefix of the string. */
  lemma {:induction false} PrefixDecodes(s: string, k: nat)
    requires k <= |Encode(s)| && WellFormed(Encode(s)[..k])
    ensures Decode(Encode(s)[..k]).value <= s
  {
    var b := Encode(s)[..k];
    if b != [] {
      hide FirstChar, EncodeChar;
      FirstOfEncoded(s[0], Encode(s[1..]));
      DecodeEncode(s);
      FirstWidth(Encode(s));
      var w := |EncodeChar(s[0])|;
      assert Encode(s)[..k][..1] == Encode(s)[..1];
      assert b[w..] == Encode(s[1..])[..k - w] by { PrefixRest(s, k); }
      PrefixDecodes(s[1..], k - w);
    }
  }

  lemma PrefixRest(s: string, k: nat)
    requires s != [] && |EncodeChar(s[0])| <= k <= |Encode(s)|
    ensures Encode(s)[..k][|EncodeChar(s[0])|..] == Encode(s[1..])[..k - |EncodeChar(s[0])|]
  {
    hide EncodeChar;
  }

  lemma EncodePrefix(s: string, n: nat)
    requires n <= |s|
    ensures Encode(s[..n]) <= Encode(s) && WellFormed(Encode(s[..n]))
  {
    hide Encode, Decode;
    EncodeAppend(s[..n], s[n..]);
    assert s[..n] + s[n..] == s;
    DecodeEncode(s[..n]);
  }

  lemma StrictlyLonger(s: string, n: nat)
    requires n < |s|
    ensures |Encode(s[..n])| < |Encode(s[..n + 1])|
  {
    EncodeAppend(s[..n], [s[n]]);
    assert s[..n + 1] == s[..n] + [s[n]];
    assert Encode([s[n]]) == EncodeChar(s[n]) + Encode([]);
  }

  /** The same clamp seen from the string: as many whole characters as fit. */
  method ClampText(text: string, limit: nat) returns (kept: string)
    ensures kept <= text && |Encode(kept)| <= limit
    ensures kept == text || |Encode(text[..|kept| + 1])| > limit
  {
    hide Encode, Decode, EncodeChar;
    DecodeEncode(text);
    var bytes := Clamp(Encode(text), limit);
    assert bytes == Encode(text)[..|bytes|];
    PrefixDecodes(text, |bytes|);
    EncodeDecode(bytes);
    kept := Decode(bytes).value;
    if |kept| < |text| {
      StrictlyLonger(text, |kept|);
      assert text[..|kept|] == kept;
      EncodePrefix(text, |kept| + 1);
      assert Encode(text)[..|Encode(text[..|kept| + 1])|] == Encode(text[..|kept| + 1]);
    }
  }
}

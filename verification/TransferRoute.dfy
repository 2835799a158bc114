/**
 The transfer route: the path the extension builds, percent-encoded as section 2.1
 of RFC 3986 describes, and the parser the relay reads it with.
 */
module TransferRoute {
  import opened Basics
  import opened StoreModel
  import opened FrameBudget
  import Utf8

  const ROUTE_PREFIX := "/blob/"

  datatype Target = Target(room: RoomId, digest: string)

  // Building the path

  /** The characters the extension's percent-encoding leaves alone, before dots are replaced. */
  predicate IsUnescaped(c: char) {
    'A' <= c <= 'Z' || 'a' <= c <= 'z' || '0' <= c <= '9' || c in "-_.!~*'()"
  }

  function HexDigit(n: nat): char
    requires n < 16
  {
    if n < 10 then '0' + n as char else 'A' + (n - 10) as char
  }

  function Escape(b: byte): string {
    ['%', HexDigit(b / 16), HexDigit(b % 16)]
  }

  function EscapeAll(b: Bytes): string {
    if b == [] then [] else Escape(b[0]) + EscapeAll(b[1..])
  }

  function EncodeUriComponent(s: string): string {
    if s == [] then []
    else (if IsUnescaped(s[0]) then [s[0]] else EscapeAll(Utf8.EncodeChar(s[0]))) + EncodeUriComponent(s[1..])
  }

  function DotEscaped(c: char): string {
    if c == '.' then "%2E" else [c]
  }

  function ReplaceDots(s: string): string {
    if s == [] then [] else DotEscaped(s[0]) + ReplaceDots(s[1..])
  }

  function PathSegment(s: string): string {
    ReplaceDots(EncodeUriComponent(s))
  }

  function Path(room: RoomId, digest: string): string {
    ROUTE_PREFIX + PathSegment(room.project) + "/" + PathSegment(room.task) + "/" + digest
  }

  // Reading it

  function HexValue(b: byte): (r: Option<byte>)
    ensures r.Some? ==> r.value < 16
  {
    if '0' as int <= b <= '9' as int then Some(b - '0' as int)
    else if 'a' as int <= b <= 'f' as int then Some(b - 'a' as int + 10)
    else if 'A' as int <= b <= 'F' as int then Some(b - 'A' as int + 10)
    else None
  }

  function Prepend(out: Bytes, rest: Option<Bytes>): Option<Bytes> {
    if rest.None? then None else Some(out + rest.value)
  }

  /** The octets a percent-encoded text stands for. */
  function Unescaped(b: Bytes): Option<Bytes> {
    if b == [] then Some([])
    else if b[0] != '%' as int then Prepend([b[0]], Unescaped(b[1..]))
    else if |b| < 3 || HexValue(b[1]).None? || HexValue(b[2]).None? then None
    else Prepend([HexByte(b[1], b[2])], Unescaped(b[3..]))
  }

  function HexByte(high: byte, low: byte): byte
    requires HexValue(high).Some? && HexValue(low).Some?
  {
    var h: int := HexValue(high).value;
    h * 16 + HexValue(low).value
  }

  function Decoded(value: string): Option<string> {
    match Unescaped(Utf8.Encode(value))
    case None => None
    case Some(bytes) => Utf8.Decode(bytes)
  }

  /** Every percent sign begins an escape: two hexadecimal digits follow it. */
  predicate WellEscaped(b: Bytes) {
    forall i :: 0 <= i < |b| && b[i] == '%' as int ==>
      i + 2 < |b| && HexValue(b[i + 1]).Some? && HexValue(b[i + 2]).Some?
  }

  /** A text is refused exactly for an escape that is not one. */
  lemma {:induction false} UnescapesExactly(b: Bytes)
    ensures Unescaped(b).Some? <==> WellEscaped(b)
    decreases |b|
  {
    if b == [] {
    } else if b[0] != '%' as int {
      UnescapesExactly(b[1..]);
      EscapesBehind(b, 1);
    } else if |b| >= 3 && HexValue(b[1]).Some? && HexValue(b[2]).Some? {
      UnescapesExactly(b[3..]);
      EscapesBehind(b, 3);
    }
  }

  lemma EscapesBehind(b: Bytes, n: nat)
    requires n <= |b| && n in {1, 3} && forall i :: 1 <= i < n ==> b[i] != '%' as int
    requires b[0] == '%' as int ==> n == 3 && HexValue(b[1]).Some? && HexValue(b[2]).Some?
    ensures WellEscaped(b[n..]) <==> WellEscaped(b)
  {
    var rest := b[n..];
    if WellEscaped(b) {
      forall i | 0 <= i < |rest| && rest[i] == '%' as int
        ensures i + 2 < |rest| && HexValue(rest[i + 1]).Some? && HexValue(rest[i + 2]).Some?
      {
        assert b[i + n] == '%' as int;
      }
    }
    if WellEscaped(rest) {
      forall i | 0 <= i < |b| && b[i] == '%' as int
        ensures i + 2 < |b| && HexValue(b[i + 1]).Some? && HexValue(b[i + 2]).Some?
      {
        assert i >= n ==> rest[i - n] == '%' as int;
      }
    }
  }

  /** The decoding loop: an index that steps over one octet or one escape. */
  method PercentDecode(value: string) returns (decoded: Option<string>)
    ensures decoded == Decoded(value)
  {
    var bytes := Utf8.Encode(value);
    var out := [];
    var index := 0;
    assert bytes[0..] == bytes;
    PrependNothing(Unescaped(bytes));
    while index < |bytes|
      invariant index <= |bytes|
      invariant Unescaped(bytes) == Prepend(out, Unescaped(bytes[index..]))
    {
      ghost var left := bytes[index..];
      if bytes[index] == '%' as int {
        if index + 2 >= |bytes| || HexValue(bytes[index + 1]).None? || HexValue(bytes[index + 2]).None? {
          return None;
        }
        assert left[3..] == bytes[index + 3..];
        PrependPrepend(out, [HexByte(bytes[index + 1], bytes[index + 2])], Unescaped(bytes[index + 3..]));
        out := out + [HexByte(bytes[index + 1], bytes[index + 2])];
        index := index + 3;
      } else {
        assert left[1..] == bytes[index + 1..];
        PrependPrepend(out, [bytes[index]], Unescaped(bytes[index + 1..]));
        out := out + [bytes[index]];
        index := index + 1;
      }
    }
    assert bytes[index..] == [] && out + [] == out;
    return Utf8.Decode(out);
  }

  lemma PrependNothing(rest: Option<Bytes>)
    ensures Prepend([], rest) == rest
  {
    if rest.Some? {
      assert [] + rest.value == rest.value;
    }
  }

  lemma PrependPrepend(a: Bytes, b: Bytes, rest: Option<Bytes>)
    ensures Prepend(a, Prepend(b, rest)) == Prepend(a + b, rest)
  {
    if rest.Some? {
      assert a + (b + rest.value) == a + b + rest.value;
    }
  }

  function Split(s: string): (parts: seq<string>)
    ensures parts != []
  {
    if s == [] then [[]]
    else if s[0] == '/' then [[]] + Split(s[1..])
    else
      var rest := Split(s[1..]);
      [[s[0]] + rest[0]] + rest[1..]
  }

  /** Exactly three segments behind the prefix, the first two decodable and not empty. */
  function ParseTarget(path: string): Option<Target> {
    if !(ROUTE_PREFIX <= path) then None
    else
      var segments := Split(path[|ROUTE_PREFIX|..]);
      if |segments| != 3 then None
      else
        var project, task := Decoded(segments[0]), Decoded(segments[1]);
        if project.None? || task.None? || project.value == [] || task.value == [] then None
        else Some(Target(RoomId(project.value, task.value), segments[2]))
  }

  // The two agree

  lemma ReplaceDotsCons(c: char, s: string)
    ensures ReplaceDots([c] + s) == DotEscaped(c) + ReplaceDots(s)
  {
    assert ([c] + s)[1..] == s;
  }

  lemma ReplaceDotsAppendCons(c: char, s: string, t: string)
    requires ReplaceDots(s + t) == ReplaceDots(s) + ReplaceDots(t)
    ensures ReplaceDots(([c] + s) + t) == ReplaceDots([c] + s) + ReplaceDots(t)
  {
    hide ReplaceDots, DotEscaped;
    Associative([c], s, t);
    ReplaceDotsCons(c, s + t);
    ReplaceDotsCons(c, s);
    Associative(DotEscaped(c), ReplaceDots(s), ReplaceDots(t));
  }

  lemma {:induction false} ReplaceDotsAppend(s: string, t: string)
    ensures ReplaceDots(s + t) == ReplaceDots(s) + ReplaceDots(t)
  {
    if s == [] {
      assert s + t == t;
    } else {
      hide ReplaceDots;
      ReplaceDotsAppend(s[1..], t);
      ReplaceDotsAppendCons(s[0], s[1..], t);
      Rejoined(s);
    }
  }

  /** What one character becomes in a path. */
  function Segment(c: char): string {
    if c == '.' then "%2E" else if IsUnescaped(c) then [c] else EscapeAll(Utf8.EncodeChar(c))
  }

  lemma {:induction false} EscapesKept(b: Bytes)
    ensures ReplaceDots(EscapeAll(b)) == EscapeAll(b)
    ensures '/' !in EscapeAll(b)
  {
    if b != [] {
      EscapesKept(b[1..]);
      ReplaceDotsAppend(Escape(b[0]), EscapeAll(b[1..]));
      var e := Escape(b[0]);
      assert ReplaceDots(e) == e by {
        assert e[1..] == [e[1], e[2]] && e[1..][1..] == [e[2]] && e[1..][1..][1..] == [];
        assert ReplaceDots(e[1..][1..]) == [e[2]];
      }
    }
  }

  lemma PathSegmentFirst(s: string)
    requires s != []
    ensures PathSegment(s) == Segment(s[0]) + PathSegment(s[1..])
  {
    hide EscapeAll, Utf8.EncodeChar;
    var first := if IsUnescaped(s[0]) then [s[0]] else EscapeAll(Utf8.EncodeChar(s[0]));
    ReplaceDotsAppend(first, EncodeUriComponent(s[1..]));
    EscapesKept(Utf8.EncodeChar(s[0]));
    if IsUnescaped(s[0]) {
      assert first[1..] == [];
      assert ReplaceDots(first) == Segment(s[0]);
    }
  }

  // Percent-decoding one character's worth

  lemma AsciiEncoded(c: char, s: string)
    requires c < '\U{80}'
    ensures Utf8.Encode([c] + s) == [c as int] + Utf8.Encode(s)
  {
    assert ([c] + s)[1..] == s;
  }

  lemma HexRoundTrip(n: nat)
    requires n < 16
    ensures HexDigit(n) < '\U{80}' && HexValue(HexDigit(n) as int) == Some(n)
  {
  }

  lemma EscapeRoundTrip(b: byte, rest: string)
    ensures Unescaped(Utf8.Encode(Escape(b) + rest)) == Prepend([b], Unescaped(Utf8.Encode(rest)))
  {
    hide HexDigit, HexValue, Utf8.Encode;
    var high, low := HexDigit(b / 16), HexDigit(b % 16);
    HexRoundTrip(b / 16);
    HexRoundTrip(b % 16);
    AsciiEncoded(low, rest);
    AsciiEncoded(high, [low] + rest);
    AsciiEncoded('%', [high] + ([low] + rest));
    assert Escape(b) + rest == ['%'] + ([high] + ([low] + rest));
    var all := ['%' as int] + ([high as int] + ([low as int] + Utf8.Encode(rest)));
    assert all[3..] == Utf8.Encode(rest);
    assert HexByte(high as int, low as int) == b;
  }

  lemma {:induction false} EscapesRoundTrip(b: Bytes, rest: string)
    ensures Unescaped(Utf8.Encode(EscapeAll(b) + rest)) == Prepend(b, Unescaped(Utf8.Encode(rest)))
  {
    if b == [] {
      assert EscapeAll(b) + rest == rest;
      PrependNothing(Unescaped(Utf8.Encode(rest)));
    } else {
      hide Escape, Utf8.Encode, Unescaped;
      EscapesRoundTrip(b[1..], rest);
      EscapeRoundTrip(b[0], EscapeAll(b[1..]) + rest);
      assert EscapeAll(b) + rest == Escape(b[0]) + (EscapeAll(b[1..]) + rest);
      PrependPrepend([b[0]], b[1..], Unescaped(Utf8.Encode(rest)));
      assert [b[0]] + b[1..] == b;
    }
  }

  lemma SegmentRoundTrip(c: char, rest: string)
    ensures Unescaped(Utf8.Encode(Segment(c) + rest)) == Prepend(Utf8.EncodeChar(c), Unescaped(Utf8.Encode(rest)))
  {
    hide Utf8.Encode, EscapeAll, Escape;
    if c == '.' {
      assert Escape(0x2E) == "%2E" by { DotEscape(); }
      EscapeRoundTrip(0x2E, rest);
    } else if IsUnescaped(c) {
      AsciiEncoded(c, rest);
      assert ([c as int] + Utf8.Encode(rest))[1..] == Utf8.Encode(rest);
    } else {
      EscapesRoundTrip(Utf8.EncodeChar(c), rest);
    }
  }

  lemma DotEscape()
    ensures Escape(0x2E) == "%2E"
  {
  }

  /** A path segment decodes to the component it was made from. */
  lemma {:induction false} PathSegmentRoundTrip(s: string)
    ensures Unescaped(Utf8.Encode(PathSegment(s))) == Some(Utf8.Encode(s))
  {
    if s != [] {
      hide PathSegment, Segment, Unescaped, Utf8.EncodeChar;
      PathSegmentFirst(s);
      SegmentRoundTrip(s[0], PathSegment(s[1..]));
      PathSegmentRoundTrip(s[1..]);
    }
  }

  /** No segment holds a separator, and only an empty component makes an empty one. */
  lemma {:induction false} PathSegmentPlain(s: string)
    ensures '/' !in PathSegment(s)
    ensures PathSegment(s) == [] <==> s == []
  {
    if s != [] {
      hide PathSegment;
      PathSegmentFirst(s);
      PathSegmentPlain(s[1..]);
      EscapesKept(Utf8.EncodeChar(s[0]));
    }
  }

  lemma {:induction false} SplitAt(a: string, rest: string)
    requires '/' !in a
    ensures Split(a) == [a]
    ensures Split(a + "/" + rest) == [a] + Split(rest)
  {
    if a == [] {
      assert a + "/" + rest == "/" + rest;
      assert ("/" + rest)[1..] == rest;
    } else {
      SplitAt(a[1..], rest);
      assert (a + "/" + rest)[1..] == a[1..] + "/" + rest;
      assert [a[0]] + a[1..] == a;
    }
  }

  /** The relay reads back the room and the digest the extension addressed, if the room has both components. */
  lemma RouteRoundTrip(room: RoomId, digest: string)
    requires ValidDigest(digest)
    ensures ParseTarget(Path(room, digest))
         == if room.project == [] || room.task == [] then None else Some(Target(room, digest))
  {
    hide Split, PathSegment, Decoded;
    var project, task := PathSegment(room.project), PathSegment(room.task);
    assert '/' !in digest;
    PathSegmentPlain(room.project);
    PathSegmentPlain(room.task);
    SplitAt(digest, []);
    SplitAt(task, digest);
    SplitAt(project, task + "/" + digest);
    assert Path(room, digest)[|ROUTE_PREFIX|..] == project + "/" + (task + "/" + digest);
    DecodesTo(room.project);
    DecodesTo(room.task);
  }

  lemma DecodesTo(s: string)
    ensures Decoded(PathSegment(s)) == Some(s)
  {
    hide PathSegment, Unescaped, Utf8.Encode, Utf8.Decode;
    PathSegmentRoundTrip(s);
    Utf8.DecodeEncode(s);
  }
}

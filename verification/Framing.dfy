/**
 Length-prefixed frames over a byte stream: writing one, and reassembling them
 from chunks that end anywhere. How a payload decodes is a parameter.
 */
module Framing {
  import opened Basics
  import opened Octets
  import opened FrameBudget

  const LENGTH_PREFIX_BYTES: nat := 4

  datatype Decoded<V> = Value(value: V) | Garbled(detail: string)

  datatype Failure = ZeroLength | TooLong(declared: nat) | Undecodable(declared: nat, detail: string)

  /** What a stream begins with. */
  datatype Front<V> = Incomplete | Broken(failure: Failure) | Frame(value: V, end: nat)

  /** The values a stream holds, what is left waiting for more, and why it cannot be trusted any further. */
  datatype Parsed<V> = Parsed(values: seq<V>, rest: Bytes, failure: Option<Failure>)

  function FrontOf<V>(decode: Bytes -> Decoded<V>, b: Bytes): (front: Front<V>)
    ensures front.Frame? ==> 4 < front.end <= |b|
    ensures front.Incomplete? ==> |b| <= 65539
  {
    if |b| < 4 then Incomplete
    else
      var declared := FromBigEndian(b[..4]);
      if declared == 0 then Broken(ZeroLength)
      else if declared > MAX_FRAME_BYTES then Broken(TooLong(declared))
      else if |b| < 4 + declared then Incomplete
      else
        match decode(b[4..4 + declared])
        case Garbled(detail) => Broken(Undecodable(declared, detail))
        case Value(value) => Frame(value, 4 + declared)
  }

  /** The whole stream in one pass. */
  function Parse<V>(decode: Bytes -> Decoded<V>, b: Bytes): Parsed<V>
    decreases |b|
  {
    match FrontOf(decode, b)
    case Incomplete => Parsed([], b, None)
    case Broken(failure) => Parsed([], [], Some(failure))
    case Frame(value, end) => After([value], Parse(decode, b[end..]))
  }

  function After<V>(values: seq<V>, p: Parsed<V>): Parsed<V> {
    Parsed(values + p.values, p.rest, p.failure)
  }

  lemma AfterAfter<V>(a: seq<V>, b: seq<V>, p: Parsed<V>)
    ensures After(a, After(b, p)) == After(a + b, p)
  {
    assert a + (b + p.values) == a + b + p.values;
  }

  /** What is kept waiting is an incomplete frame: at most a prefix and all but one byte of a payload. */
  lemma {:induction false} RestIsBounded<V>(decode: Bytes -> Decoded<V>, b: Bytes)
    ensures |Parse(decode, b).rest| <= 65539
    decreases |b|
  {
    hide FrontOf;
    match FrontOf(decode, b)
    case Frame(value, end) => RestIsBounded(decode, b[end..]);
    case _ =>
  }

  lemma FrontAppend<V>(decode: Bytes -> Decoded<V>, a: Bytes, b: Bytes)
    requires !FrontOf(decode, a).Incomplete?
    ensures FrontOf(decode, a + b) == FrontOf(decode, a)
  {
    assert (a + b)[..4] == a[..4];
    var declared := FromBigEndian(a[..4]);
    if declared <= |a| - 4 {
      assert (a + b)[4..4 + declared] == a[4..4 + declared];
    }
  }

  /** Reading on from what was left is reading the whole. */
  lemma {:induction false} ParseAppend<V>(decode: Bytes -> Decoded<V>, a: Bytes, b: Bytes)
    ensures var first := Parse(decode, a);
            Parse(decode, a + b) == if first.failure.Some? then first
                                    else After(first.values, Parse(decode, first.rest + b))
    decreases |a|
  {
    hide FrontOf;
    match FrontOf(decode, a)
    case Incomplete =>
    case Broken(_) => FrontAppend(decode, a, b);
    case Frame(value, end) =>
      FrontAppend(decode, a, b);
      ParseAppend(decode, a[end..], b);
      assert (a + b)[end..] == a[end..] + b;
      AfterAfter([value], Parse(decode, a[end..]).values, Parse(decode, Parse(decode, a[end..]).rest + b));
  }

  class FrameAccumulator<V> {
    const decode: Bytes -> Decoded<V>
    var buffer: Bytes
    var failure: Option<Failure>
    /** Everything ever pushed, and everything ever returned. */
    ghost var stream: Bytes
    ghost var returned: seq<V>

    /** However the stream was cut, the outcome is the one-pass parse of the whole. */
    ghost predicate Valid()
      reads this
    {
      Parse(decode, stream) == Parsed(returned, buffer, failure)
    }

    constructor (decode: Bytes -> Decoded<V>)
      ensures Valid() && this.decode == decode && stream == [] && returned == [] && failure.None?
    {
      this.decode := decode;
      buffer, failure, stream, returned := [], None, [], [];
    }

    /** Appends a chunk and extracts every frame it completed. */
    method Push(chunk: Bytes) returns (values: seq<V>, failed: Option<Failure>)
      requires Valid()
      modifies this
      ensures Valid() && stream == old(stream) + chunk && returned == old(returned) + values && failed == failure
      ensures |buffer| <= 65539
    {
      ParseAppend(decode, stream, chunk);
      RestIsBounded(decode, stream + chunk);
      stream := stream + chunk;
      if failure.Some? {
        return [], failure;
      }
      var whole := if |buffer| == 0 then chunk else buffer + chunk;
      assert whole == buffer + chunk;
      buffer, failure, values := Extract(decode, whole);
      failed := failure;
      returned := returned + values;
    }
  }

  /** The front of what follows an offset, read from the buffer in place. */
  lemma FrontAt<V>(decode: Bytes -> Decoded<V>, buffer: Bytes, offset: nat, declared: nat)
    requires offset + 4 <= |buffer| && declared == FromBigEndian(buffer[offset..offset + 4])
    ensures FrontOf(decode, buffer[offset..])
         == if declared == 0 then Broken(ZeroLength)
            else if declared > MAX_FRAME_BYTES then Broken(TooLong(declared))
            else if |buffer| < offset + 4 + declared then Incomplete
            else match decode(buffer[offset + 4..offset + 4 + declared])
                 case Garbled(detail) => Broken(Undecodable(declared, detail))
                 case Value(value) => Frame(value, 4 + declared)
  {
    hide FromBigEndian;
    var left := buffer[offset..];
    assert left[..4] == buffer[offset..offset + 4];
    if offset + 4 + declared <= |buffer| {
      assert left[4..4 + declared] == buffer[offset + 4..offset + 4 + declared];
    }
  }

  /** Reading one frame more. */
  lemma ParseNext<V>(decode: Bytes -> Decoded<V>, buffer: Bytes, offset: nat, value: V, end: nat, values: seq<V>)
    requires offset <= end <= |buffer| && FrontOf(decode, buffer[offset..]) == Frame(value, end - offset)
    ensures After(values, Parse(decode, buffer[offset..])) == After(values + [value], Parse(decode, buffer[end..]))
  {
    hide FrontOf, After;
    assert buffer[offset..][end - offset..] == buffer[end..];
    AfterAfter(values, [value], Parse(decode, buffer[end..]));
  }

  /** Nothing more can be read. */
  lemma ParseStops<V>(decode: Bytes -> Decoded<V>, b: Bytes, values: seq<V>)
    requires !FrontOf(decode, b).Frame?
    ensures After(values, Parse(decode, b))
         == match FrontOf(decode, b)
            case Incomplete => Parsed(values, b, None)
            case Broken(failure) => Parsed(values, [], Some(failure))
  {
    hide FrontOf;
  }

  lemma ParseShort<V>(decode: Bytes -> Decoded<V>, b: Bytes, values: seq<V>)
    requires |b| < 4
    ensures After(values, Parse(decode, b)) == Parsed(values, b, None)
  {
  }

  lemma ParseFromStart<V>(decode: Bytes -> Decoded<V>, b: Bytes)
    ensures Parse(decode, b) == After([], Parse(decode, b[0..]))
  {
    hide Parse;
    assert b[0..] == b;
  }

  /** The loop of a push: walks the buffer frame by frame. */
  method Extract<V>(decode: Bytes -> Decoded<V>, buffer: Bytes)
    returns (rest: Bytes, failure: Option<Failure>, values: seq<V>)
    ensures Parsed(values, rest, failure) == Parse(decode, buffer)
  {
    hide FromBigEndian, FrontOf, Parse, After;
    values := [];
    ParseFromStart(decode, buffer);
    var offset := 0;
    while |buffer| - offset >= LENGTH_PREFIX_BYTES
      invariant offset <= |buffer|
      invariant Parse(decode, buffer) == After(values, Parse(decode, buffer[offset..]))
    {
      var declared := FromBigEndian(buffer[offset..offset + LENGTH_PREFIX_BYTES]);
      FrontAt(decode, buffer, offset, declared);
      if !FrontOf(decode, buffer[offset..]).Frame? {
        ParseStops(decode, buffer[offset..], values);
      }
      if declared == 0 {
        return [], Some(ZeroLength), values;
      }
      if declared > MAX_FRAME_BYTES {
        return [], Some(TooLong(declared)), values;
      }
      var end := offset + LENGTH_PREFIX_BYTES + declared;
      if |buffer| < end {
        break;
      }
      var decoded := decode(buffer[offset + LENGTH_PREFIX_BYTES..end]);
      if decoded.Garbled? {
        return [], Some(Undecodable(declared, decoded.detail)), values;
      }
      ParseNext(decode, buffer, offset, decoded.value, end, values);
      values := values + [decoded.value];
      offset := end;
    }
    if |buffer| - offset < LENGTH_PREFIX_BYTES {
      ParseShort(decode, buffer[offset..], values);
    }
    return buffer[offset..], None, values;
  }

  /** The chunks of a stream, joined. */
  function Joined(chunks: seq<Bytes>): Bytes {
    if chunks == [] then [] else Joined(chunks[..|chunks| - 1]) + chunks[|chunks| - 1]
  }

  /** A socket's chunks pushed one after another: how the stream was cut does not show. */
  method Reassemble<V>(decode: Bytes -> Decoded<V>, chunks: seq<Bytes>)
    returns (values: seq<V>, failure: Option<Failure>)
    ensures values == Parse(decode, Joined(chunks)).values
    ensures failure == Parse(decode, Joined(chunks)).failure
  {
    hide Parse;
    var accumulator := new FrameAccumulator(decode);
    values, failure := [], None;
    for i := 0 to |chunks|
      invariant fresh(accumulator) && accumulator.Valid() && accumulator.decode == decode
      invariant accumulator.stream == Joined(chunks[..i])
      invariant accumulator.returned == values && accumulator.failure == failure
    {
      var more;
      more, failure := accumulator.Push(chunks[i]);
      values := values + more;
      assert chunks[..i + 1][..i] == chunks[..i];
    }
    assert chunks[..|chunks|] == chunks;
  }

  // Writing

  function Framed(payload: Bytes): Bytes {
    BigEndian(|payload|, 4) + payload
  }

  /** Everything a list of payloads puts on the wire. */
  function FramedAll(payloads: seq<Bytes>): Bytes {
    if payloads == [] then [] else Framed(payloads[0]) + FramedAll(payloads[1..])
  }

  predicate Fits(payload: Bytes) {
    1 <= |payload| <= MAX_FRAME_BYTES
  }

  lemma PrefixOfFramed(payload: Bytes)
    requires |payload| <= MAX_FRAME_BYTES
    ensures FromBigEndian(Framed(payload)[..4]) == |payload| && Framed(payload)[4..] == payload
    ensures Framed(payload)[0] == 0
  {
    assert Values(3) == 0x100_0000;
    BigEndianRoundTrip(|payload|, 4);
    assert Framed(payload)[..4] == BigEndian(|payload|, 4);
    assert BigEndian(|payload|, 4)[0] == |payload| / 256 / 256 / 256 % 256;
  }

  lemma FramedFront<V>(decode: Bytes -> Decoded<V>, payload: Bytes, rest: Bytes)
    requires |payload| <= MAX_FRAME_BYTES
    ensures FrontOf(decode, Framed(payload) + rest)
         == if payload == [] then Broken(ZeroLength)
            else match decode(payload)
                 case Garbled(detail) => Broken(Undecodable(|payload|, detail))
                 case Value(value) => Frame(value, 4 + |payload|)
  {
    hide FromBigEndian, BigEndian;
    var b := Framed(payload) + rest;
    PrefixOfFramed(payload);
    assert b[..4] == Framed(payload)[..4];
    assert b[4..4 + |payload|] == Framed(payload)[4..];
  }

  /** Frames written one after another parse back into exactly the values of their payloads. */
  lemma {:induction false} FramesRoundTrip<V>(decode: Bytes -> Decoded<V>, payloads: seq<Bytes>, values: seq<V>,
                                              rest: Bytes)
    requires |payloads| == |values|
    requires forall i :: 0 <= i < |payloads| ==> Fits(payloads[i]) && decode(payloads[i]) == Value(values[i])
    ensures Parse(decode, FramedAll(payloads) + rest) == After(values, Parse(decode, rest))
    decreases |payloads|
  {
    if payloads == [] {
      assert FramedAll(payloads) + rest == rest;
    } else {
      hide FrontOf, Framed;
      var tail := FramedAll(payloads[1..]) + rest;
      assert FramedAll(payloads) + rest == Framed(payloads[0]) + tail;
      FramedFront(decode, payloads[0], tail);
      FramesRoundTrip(decode, payloads[1..], values[1..], rest);
      assert (Framed(payloads[0]) + tail)[4 + |payloads[0]|..] == tail by { FramedLength(payloads[0]); }
      AfterAfter([values[0]], values[1..], Parse(decode, rest));
      assert [values[0]] + values[1..] == values;
    }
  }

  /** After good frames, the first bad one ends the stream for good: an empty one, one that declares too much, or one
      that does not decode, whatever follows it. */
  lemma FirstBadFrameEnds<V>(decode: Bytes -> Decoded<V>, payloads: seq<Bytes>, values: seq<V>, bad: Bytes, rest: Bytes)
    requires |payloads| == |values|
    requires forall i :: 0 <= i < |payloads| ==> Fits(payloads[i]) && decode(payloads[i]) == Value(values[i])
    ensures |bad| <= MAX_FRAME_BYTES && (bad == [] || decode(bad).Garbled?) ==>
              Parse(decode, FramedAll(payloads) + (Framed(bad) + rest))
              == Parsed(values, [], Some(if bad == [] then ZeroLength else Undecodable(|bad|, decode(bad).detail)))
    ensures MAX_FRAME_BYTES < |bad| < 0x1_0000_0000 ==>
              Parse(decode, FramedAll(payloads) + (BigEndian(|bad|, 4) + rest))
              == Parsed(values, [], Some(TooLong(|bad|)))
  {
    hide FrontOf, Framed, BigEndian, FramedAll;
    if |bad| <= MAX_FRAME_BYTES && (bad == [] || decode(bad).Garbled?) {
      FramedFront(decode, bad, rest);
      FramesRoundTrip(decode, payloads, values, Framed(bad) + rest);
    }
    if MAX_FRAME_BYTES < |bad| < 0x1_0000_0000 {
      TooLongFront(decode, |bad|, rest);
      FramesRoundTrip(decode, payloads, values, BigEndian(|bad|, 4) + rest);
    }
  }

  lemma TooLongFront<V>(decode: Bytes -> Decoded<V>, declared: nat, rest: Bytes)
    requires MAX_FRAME_BYTES < declared < 0x1_0000_0000
    ensures FrontOf(decode, BigEndian(declared, 4) + rest) == Broken(TooLong(declared))
  {
    hide FromBigEndian, BigEndian;
    FourOctets();
    BigEndianRoundTrip(declared, 4);
    assert (BigEndian(declared, 4) + rest)[..4] == BigEndian(declared, 4);
  }

  lemma FourOctets()
    ensures Values(4) == 0x1_0000_0000
  {
    assert Values(3) == 0x100_0000;
  }

  lemma FramedLength(payload: Bytes)
    ensures |Framed(payload)| == 4 + |payload|
  {
  }

  /** Why a frame was not written. */
  datatype Refusal = TargetedAnnounce | OverCap

  datatype Encoded = Written(bytes: Bytes) | Refused(reason: Refusal)

  /** Writes the prefix and the payload into a fresh buffer; the first octet is the zero that marks a frame. */
  method EncodeFrame(payload: Bytes, targetedAnnounce: bool) returns (encoded: Encoded)
    ensures encoded.Refused? <==> targetedAnnounce || |payload| > MAX_FRAME_BYTES
    ensures encoded.Refused? ==> encoded.reason == if targetedAnnounce then TargetedAnnounce else OverCap
    ensures encoded.Written? ==> encoded.bytes == Framed(payload) && encoded.bytes[0] == 0
  {
    if targetedAnnounce {
      return Refused(TargetedAnnounce);
    }
    if |payload| > MAX_FRAME_BYTES {
      return Refused(OverCap);
    }
    hide BigEndian, FromBigEndian;
    PrefixOfFramed(payload);
    var framed := new byte[LENGTH_PREFIX_BYTES + |payload|](_ => 0);
    SetUint32(framed, |payload|);
    Fill(framed, LENGTH_PREFIX_BYTES, payload);
    assert framed[..] == framed[..4] + framed[4..];
    return Written(framed[..]);
  }

  /** A big-endian number in the first four octets. */
  method SetUint32(a: array<byte>, n: nat)
    requires a.Length >= 4 && n < 0x1_0000_0000
    modifies a
    ensures a[..4] == BigEndian(n, 4)
    ensures a[4..] == old(a[4..])
  {
    a[0], a[1], a[2], a[3] := n / 0x100_0000, n / 0x1_0000 % 0x100, n / 0x100 % 0x100, n % 0x100;
    assert n / 256 / 256 == n / 0x1_0000 && n / 256 / 256 / 256 == n / 0x100_0000;
    assert BigEndian(n, 4) == BigEndian(n / 256 / 256, 2) + [n / 256 % 256, n % 256];
  }

  /** Copies bytes to the end of a buffer. */
  method Fill(a: array<byte>, offset: nat, bytes: Bytes)
    requires a.Length == offset + |bytes|
    modifies a
    ensures a[..offset] == old(a[..offset]) && a[offset..] == bytes
  {
    for i := 0 to |bytes|
      invariant a[..offset] == old(a[..offset])
      invariant a[offset..offset + i] == bytes[..i]
    {
      a[offset + i] := bytes[i];
    }
  }
}

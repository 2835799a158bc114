/**
 The frames the relay writes, as MessagePack maps, and the arithmetic that keeps
 every delivery it accepts within the frame cap.
 */
module FrameBudget {
  import opened Basics
  import opened MessagePack
  import opened Registry
  import Utf8

  const MAX_FRAME_BYTES: nat := 65536
  const MAX_IDENTIFIER_BYTES: nat := 64
  const MAX_CORRELATION_BYTES: nat := 128
  const DIGEST_CHARS: nat := 43
  const MESSAGE_ENVELOPE_HEADROOM: nat := 512
  const MAX_BODY_BYTES: nat := MAX_FRAME_BYTES - MESSAGE_ENVELOPE_HEADROOM
  const MAX_DIAGNOSTIC_BYTES: nat := 1024

  datatype ErrorCode =
    | UnsupportedFrame | UnsupportedProtocol | InvalidHello | DuplicateHello | InvalidIdentifier
    | MalformedFrame | FrameTooLarge | HelloTimeout | IdleTimeout | PeerReplaced

  datatype ReserveStatus = Granted | PayloadTooLarge | RoomFull | StoreFull

  datatype ServerFrame =
    | Message(id: string, from: string, body: string, replyTo: Option<string>, attachment: Option<string>)
    | Notice(id: string, from: string, body: string, replyTo: Option<string>, attachment: Option<string>)
    | Receipt(id: string, to: string, status: ReceiptStatus)
    | Accepted(id: string, delivered: nat, shed: nat)
    | Reserved(requestId: string, granted: ReserveStatus, expiresIn: Option<nat>)
    | Peers(requestId: string, peers: seq<string>)
    | Pong
    | Error(code: ErrorCode, message: string, named: Option<string>)

  // Validation

  /** White space as Unicode defines the property. */
  predicate IsWhitespace(c: char) {
    || '\U{9}' <= c <= '\U{D}' || c == ' ' || c == '\U{85}' || c == '\U{A0}' || c == '\U{1680}'
    || '\U{2000}' <= c <= '\U{200A}' || c == '\U{2028}' || c == '\U{2029}' || c == '\U{202F}'
    || c == '\U{205F}' || c == '\U{3000}'
  }

  predicate ValidIdentifier(s: string) {
    && s != [] && Len(s) <= MAX_IDENTIFIER_BYTES
    && '/' !in s && '@' !in s
    && !IsWhitespace(s[0]) && !IsWhitespace(s[|s| - 1])
  }

  predicate ValidCorrelation(s: string) {
    s != [] && Len(s) <= MAX_CORRELATION_BYTES
  }

  predicate IsBase64Url(c: char) {
    'A' <= c <= 'Z' || 'a' <= c <= 'z' || '0' <= c <= '9' || c == '-' || c == '_'
  }

  predicate ValidDigest(s: string) {
    |s| == DIGEST_CHARS && forall c :: c in s ==> IsBase64Url(c)
  }

  predicate BodyOverBudget(body: string) {
    Len(body) > MAX_BODY_BYTES
  }

  // Frames as maps

  function Optional(key: string, value: Option<string>): seq<Field> {
    match value
    case None => []
    case Some(text) => [Field(key, Text(text))]
  }

  function StatusText(status: ReceiptStatus): string {
    match status
    case Routed => "routed"
    case PeerOffline => "peer_offline"
    case RecipientBackpressure => "recipient_backpressure"
    case InvalidTarget => "invalid_target"
  }

  function ReserveText(status: ReserveStatus): string {
    match status
    case Granted => "granted"
    case PayloadTooLarge => "payload_too_large"
    case RoomFull => "room_full"
    case StoreFull => "store_full"
  }

  function CodeText(code: ErrorCode): string {
    match code
    case UnsupportedFrame => "unsupported_frame"
    case UnsupportedProtocol => "unsupported_protocol"
    case InvalidHello => "invalid_hello"
    case DuplicateHello => "duplicate_hello"
    case InvalidIdentifier => "invalid_identifier"
    case MalformedFrame => "malformed_frame"
    case FrameTooLarge => "frame_too_large"
    case HelloTimeout => "hello_timeout"
    case IdleTimeout => "idle_timeout"
    case PeerReplaced => "peer_replaced"
  }

  function Delivery(kind: string, id: string, from: string, body: string,
                    replyTo: Option<string>, attachment: Option<string>): (fields: seq<Field>)
    ensures |fields| <= 6
  {
    [Field("type", Text(kind)), Field("id", Text(id)), Field("from", Text(from)), Field("body", Text(body))]
    + Optional("reply_to", replyTo) + Optional("attachment", attachment)
  }

  /** The fields of a frame in the order they are written; an absent optional one is left out. */
  function Fields(frame: ServerFrame): (fields: seq<Field>)
    requires !frame.Peers?
    ensures |fields| <= 6
  {
    match frame
    case Message(id, from, body, replyTo, attachment) => Delivery("message", id, from, body, replyTo, attachment)
    case Notice(id, from, body, replyTo, attachment) => Delivery("notice", id, from, body, replyTo, attachment)
    case Receipt(id, to, status) =>
      [Field("type", Text("receipt")), Field("id", Text(id)), Field("to", Text(to)),
       Field("status", Text(StatusText(status)))]
    case Accepted(id, delivered, shed) =>
      [Field("type", Text("accepted")), Field("id", Text(id)), Field("delivered", Number(delivered)),
       Field("shed", Number(shed))]
    case Reserved(requestId, granted, expiresIn) =>
      [Field("type", Text("reserved")), Field("request_id", Text(requestId)),
       Field("status", Text(ReserveText(granted)))]
      + (match expiresIn case None => [] case Some(n) => [Field("expires_in", Number(n))])
    case Pong => [Field("type", Text("pong"))]
    case Error(code, message, named) =>
      [Field("type", Text("error")), Field("code", Text(CodeText(code))), Field("message", Text(message))]
      + Optional("request_id", named)
  }

  function Pack(frame: ServerFrame): Bytes
    requires !frame.Peers?
  {
    PackMap(Fields(frame))
  }

  // Sizes

  predicate IsAscii(s: string) {
    forall i :: 0 <= i < |s| ==> s[i] < '\U{80}'
  }

  lemma {:induction false} AsciiLen(s: string)
    requires IsAscii(s)
    ensures Len(s) == |s|
  {
    if s != [] {
      AsciiLen(s[1..]);
    }
  }

  lemma DigestLen(s: string)
    requires ValidDigest(s)
    ensures Len(s) == 43
  {
    assert forall i :: 0 <= i < |s| ==> IsBase64Url(s[i]);
    AsciiLen(s);
  }

  /** Where the rules for names and tokens draw their lines. */
  lemma NamesAtTheLimit(n: nat)
    ensures var s := seq(n, _ => 'a');
            (ValidIdentifier(s) <==> 1 <= n <= 64) && (ValidCorrelation(s) <==> 1 <= n <= 128)
    ensures ValidIdentifier("a b") && !ValidIdentifier(" a") && !ValidIdentifier("a ")
    ensures !ValidIdentifier("a/b") && !ValidIdentifier("a@b") && ValidCorrelation("a/b @")
  {
    hide Len;
    AsciiLen(seq(n, _ => 'a'));
    AsciiLen("a b");
    AsciiLen("a/b @");
    var spaced, slashed, tagged := " a", "a/b", "a@b";
    assert spaced[0] == ' ' && slashed[1] == '/' && tagged[1] == '@' && "a "[1] == ' ';
  }

  /** What a string costs on the wire. */
  function StrSize(n: nat): nat {
    n + if n < 32 then 1 else if n < 0x100 then 2 else if n < 0x1_0000 then 3 else 5
  }

  lemma PackedStrSize(s: string)
    ensures |PackStr(s)| == StrSize(Len(s))
  {
  }

  lemma KeySize(key: string)
    requires IsAscii(key) && |key| < 32
    ensures |PackStr(key)| == |key| + 1
  {
    AsciiLen(key);
  }

  function FieldSize(field: Field): nat {
    |PackField(field)|
  }

  function OptionalSize(key: string, value: Option<string>): nat {
    if value.None? then 0 else |key| + 1 + StrSize(Len(value.value))
  }

  lemma OptionalFieldSize(key: string, value: Option<string>, rest: seq<Field>)
    requires IsAscii(key) && |key| < 32
    ensures |PackFields(Optional(key, value) + rest)| == OptionalSize(key, value) + |PackFields(rest)|
  {
    match value
    case None => assert Optional(key, value) + rest == rest;
    case Some(text) =>
      KeySize(key);
      PackedStrSize(text);
      assert (Optional(key, value) + rest)[1..] == rest;
  }

  lemma TextFieldSize(key: string, text: string, rest: seq<Field>)
    requires IsAscii(key) && |key| < 32
    ensures |PackFields([Field(key, Text(text))] + rest)| == |key| + 1 + StrSize(Len(text)) + |PackFields(rest)|
  {
    KeySize(key);
    PackedStrSize(text);
    assert ([Field(key, Text(text))] + rest)[1..] == rest;
  }

  lemma DeliverySize(kind: string, id: string, from: string, body: string,
                     replyTo: Option<string>, attachment: Option<string>)
    requires IsAscii(kind) && |kind| < 32
    ensures |PackMap(Delivery(kind, id, from, body, replyTo, attachment))|
         == 1 + (5 + |kind| + 1) + (3 + StrSize(Len(id))) + (5 + StrSize(Len(from))) + (5 + StrSize(Len(body)))
            + OptionalSize("reply_to", replyTo) + OptionalSize("attachment", attachment)
  {
    hide PackStr, StrSize, PackFields, Len;
    var tail := Optional("attachment", attachment);
    OptionalFieldSize("attachment", attachment, []);
    assert tail + [] == tail && |PackFields([])| == 0 by { NoFields(); }
    var options := Optional("reply_to", replyTo) + tail;
    OptionalFieldSize("reply_to", replyTo, tail);
    var three := [Field("body", Text(body))] + options;
    TextFieldSize("body", body, options);
    var two := [Field("from", Text(from))] + three;
    TextFieldSize("from", from, three);
    var one := [Field("id", Text(id))] + two;
    TextFieldSize("id", id, two);
    TextFieldSize("type", kind, one);
    assert StrSize(Len(kind)) == |kind| + 1 by { AsciiLen(kind); ShortStr(|kind|); }
    assert Delivery(kind, id, from, body, replyTo, attachment) == [Field("type", Text(kind))] + one;
  }

  lemma NoFields()
    ensures PackFields([]) == []
  {
  }

  lemma ShortStr(n: nat)
    requires n < 32
    ensures StrSize(n) == n + 1
  {
  }

  /** What a `send` or an `announce` has passed by the time the relay builds its delivery. */
  predicate Relayable(id: string, body: string, replyTo: Option<string>, attachment: Option<string>) {
    Enveloped(id, replyTo, attachment) && !BodyOverBudget(body)
  }

  /** The recoverable checks both pass before their bodies are weighed. */
  predicate Enveloped(id: string, replyTo: Option<string>, attachment: Option<string>) {
    && ValidCorrelation(id)
    && (replyTo.Some? ==> ValidCorrelation(replyTo.value))
    && (attachment.Some? ==> ValidDigest(attachment.value))
  }

  lemma OptionalSizes(id: string, body: string, replyTo: Option<string>, attachment: Option<string>)
    requires Relayable(id, body, replyTo, attachment)
    ensures OptionalSize("reply_to", replyTo) <= 9 + 130
    ensures OptionalSize("attachment", attachment) == if attachment.Some? then 56 else 0
    ensures StrSize(Len(id)) <= 130 && StrSize(Len(body)) <= 65027
  {
    hide Len;
    if attachment.Some? {
      DigestLen(attachment.value);
    }
  }

  /** Every delivery fits, with 91 bytes to spare, and a notice is one byte smaller than a message. */
  lemma DeliveryFits(id: string, from: string, body: string, replyTo: Option<string>, attachment: Option<string>)
    requires Relayable(id, body, replyTo, attachment) && ValidIdentifier(from)
    ensures |Pack(Message(id, from, body, replyTo, attachment))| <= MAX_FRAME_BYTES - 91
    ensures |Pack(Notice(id, from, body, replyTo, attachment))|
         == |Pack(Message(id, from, body, replyTo, attachment))| - 1
  {
    hide Len, PackMap, Relayable;
    DeliverySize("message", id, from, body, replyTo, attachment);
    DeliverySize("notice", id, from, body, replyTo, attachment);
    OptionalSizes(id, body, replyTo, attachment);
  }

  /** The 91 bytes are exact: a delivery with every field at its limit leaves no more. */
  lemma LargestDelivery(id: string, from: string, body: string, replyTo: string, attachment: string)
    requires Relayable(id, body, Some(replyTo), Some(attachment)) && ValidIdentifier(from)
    requires Len(id) == 128 && Len(from) == 64 && Len(body) == 65024 && Len(replyTo) == 128
    ensures |Pack(Message(id, from, body, Some(replyTo), Some(attachment)))| == MAX_FRAME_BYTES - 91
  {
    hide Len, PackMap, Relayable;
    DeliverySize("message", id, from, body, Some(replyTo), Some(attachment));
    OptionalSizes(id, body, Some(replyTo), Some(attachment));
  }

  lemma ConsSize(first: Field, rest: seq<Field>)
    ensures |PackFields([first] + rest)| == FieldSize(first) + |PackFields(rest)|
  {
    assert ([first] + rest)[1..] == rest;
  }

  lemma ThreeSize(first: Field, second: Field, third: Field, rest: seq<Field>)
    ensures |PackFields([first, second, third] + rest)|
         == FieldSize(first) + FieldSize(second) + FieldSize(third) + |PackFields(rest)|
  {
    hide FieldSize, PackFields;
    ConsSize(third, rest);
    ConsSize(second, [third] + rest);
    ConsSize(first, [second] + ([third] + rest));
    assert [first, second, third] + rest == [first] + ([second] + ([third] + rest));
  }

  lemma CodeTextIsShort(code: ErrorCode)
    ensures IsAscii(CodeText(code)) && |CodeText(code)| <= 20
  {
    match code
    case UnsupportedFrame => assert IsAscii("unsupported_frame");
    case UnsupportedProtocol => assert IsAscii("unsupported_protocol");
    case InvalidHello => assert IsAscii("invalid_hello");
    case DuplicateHello => assert IsAscii("duplicate_hello");
    case InvalidIdentifier => assert IsAscii("invalid_identifier");
    case MalformedFrame => assert IsAscii("malformed_frame");
    case FrameTooLarge => assert IsAscii("frame_too_large");
    case HelloTimeout => assert IsAscii("hello_timeout");
    case IdleTimeout => assert IsAscii("idle_timeout");
    case PeerReplaced => assert IsAscii("peer_replaced");
  }

  lemma StatusTextIsShort(status: ReceiptStatus)
    ensures IsAscii(StatusText(status)) && |StatusText(status)| <= 22
  {
  }

  lemma LabelSize(key: string, text: string)
    requires IsAscii(key) && |key| < 32 && IsAscii(text) && |text| < 32
    ensures FieldSize(Field(key, Text(text))) == |key| + |text| + 2
  {
    KeySize(key);
    KeySize(text);
  }

  lemma TextSize(key: string, text: string)
    requires IsAscii(key) && |key| < 32
    ensures FieldSize(Field(key, Text(text))) == |key| + 1 + StrSize(Len(text))
  {
    KeySize(key);
    PackedStrSize(text);
  }

  /** Receipts fit, whether their target was valid or clamped. */
  lemma ReceiptFits(id: string, to: string, status: ReceiptStatus)
    requires ValidCorrelation(id) && Len(to) <= MAX_IDENTIFIER_BYTES
    ensures |Pack(Receipt(id, to, status))| <= 246
  {
    hide FieldSize, Len, PackFields, StatusText;
    var state := Field("status", Text(StatusText(status)));
    ThreeSize(Field("type", Text("receipt")), Field("id", Text(id)), Field("to", Text(to)), [state]);
    LabelSize("type", "receipt");
    TextSize("id", id);
    TextSize("to", to);
    StatusTextIsShort(status);
    LabelSize("status", StatusText(status));
    ConsSize(state, []);
    assert [state] + [] == [state];
    assert |PackFields([])| == 0 by { NoFields(); }
    assert Fields(Receipt(id, to, status))
        == [Field("type", Text("receipt")), Field("id", Text(id)), Field("to", Text(to))] + [state];
  }

  /** A closing diagnostic fits once its text is capped. */
  lemma DiagnosticFits(code: ErrorCode, message: string)
    requires Len(message) <= MAX_DIAGNOSTIC_BYTES
    ensures |Pack(Error(code, message, None))| <= 1073
  {
    hide FieldSize, Len, PackFields, CodeText;
    ThreeSize(Field("type", Text("error")), Field("code", Text(CodeText(code))), Field("message", Text(message)), []);
    LabelSize("type", "error");
    CodeTextIsShort(code);
    LabelSize("code", CodeText(code));
    TextSize("message", message);
    assert |PackFields([])| == 0 by { NoFields(); }
    assert Fields(Error(code, message, None))
        == [Field("type", Text("error")), Field("code", Text(CodeText(code))), Field("message", Text(message))] + [];
  }

  /** As many whole characters of a text as a limit in bytes allows. */
  predicate Clamped(text: string, kept: string, limit: nat) {
    kept <= text && Len(kept) <= limit && (kept == text || Len(text[..|kept| + 1]) > limit)
  }

  /** Clamps a rejected target before it is echoed. */
  method BoundedTarget(to: string) returns (bounded: string)
    ensures Clamped(to, bounded, MAX_IDENTIFIER_BYTES)
    ensures forall id, status :: ValidCorrelation(id) ==> |Pack(Receipt(id, bounded, status))| <= MAX_FRAME_BYTES
  {
    hide Pack;
    bounded := Utf8.ClampText(to, MAX_IDENTIFIER_BYTES);
    forall id, status | ValidCorrelation(id) ensures |Pack(Receipt(id, bounded, status))| <= MAX_FRAME_BYTES {
      ReceiptFits(id, bounded, status);
    }
  }

  /** Truncates diagnostic text before it is queued or written. */
  method CapDiagnostic(message: string) returns (capped: string)
    ensures Clamped(message, capped, MAX_DIAGNOSTIC_BYTES)
    ensures forall code :: |Pack(Error(code, capped, None))| <= MAX_FRAME_BYTES
  {
    hide Pack;
    capped := Utf8.ClampText(message, MAX_DIAGNOSTIC_BYTES);
    forall code ensures |Pack(Error(code, capped, None))| <= MAX_FRAME_BYTES {
      DiagnosticFits(code, capped);
    }
  }
}

/**
 What a frame says once it has been written and read back: each value under its own
 key, and nothing under a key that was left out.
 */
module FrameFields {
  import opened Basics
  import opened MessagePack
  import opened Registry
  import opened FrameBudget
  import Utf8

  /** The value under a key, as a reader of the map finds it. */
  function Lookup(fields: seq<Field>, key: string): Option<Value> {
    if fields == [] then None
    else if fields[0].key == key then Some(fields[0].value)
    else Lookup(fields[1..], key)
  }

  /** What a packed frame holds under a key. */
  function Under(bytes: Bytes, key: string): Option<Value> {
    match Unpack(bytes)
    case None => None
    case Some(fields) => Lookup(fields, key)
  }

  function TextOf(text: Option<string>): Option<Value> {
    match text
    case None => None
    case Some(t) => Some(Text(t))
  }

  function NumberOf(number: Option<nat>): Option<Value> {
    match number
    case None => None
    case Some(n) => Some(Number(n))
  }

  predicate Fits(text: string) {
    Storable(Text(text))
  }

  predicate OptionFits(text: Option<string>) {
    text.Some? ==> Fits(text.value)
  }

  lemma LookupCons(field: Field, rest: seq<Field>, key: string)
    ensures Lookup([field] + rest, key) == if field.key == key then Some(field.value) else Lookup(rest, key)
  {
    assert ([field] + rest)[1..] == rest;
  }

  lemma LookupOptional(name: string, value: Option<string>, rest: seq<Field>, key: string)
    ensures Lookup(Optional(name, value) + rest, key)
         == if name == key && value.Some? then TextOf(value) else Lookup(rest, key)
  {
    match value
    case None => assert Optional(name, value) + rest == rest;
    case Some(text) => LookupCons(Field(name, Text(text)), rest, key);
  }

  // Deliveries

  lemma DeliveryLookup(kind: string, id: string, from: string, body: string, replyTo: Option<string>,
                       attachment: Option<string>, key: string)
    ensures Lookup(Delivery(kind, id, from, body, replyTo, attachment), key)
         == if key == "type" then Some(Text(kind))
            else if key == "id" then Some(Text(id))
            else if key == "from" then Some(Text(from))
            else if key == "body" then Some(Text(body))
            else if key == "reply_to" then TextOf(replyTo)
            else if key == "attachment" then TextOf(attachment)
            else None
  {
    hide Lookup, Optional;
    var tail := Optional("attachment", attachment) + [];
    LookupOptional("attachment", attachment, [], key);
    assert Lookup([], key) == None by { LookupNothing(key); }
    var options := Optional("reply_to", replyTo) + tail;
    LookupOptional("reply_to", replyTo, tail, key);
    var three := [Field("body", Text(body))] + options;
    LookupCons(Field("body", Text(body)), options, key);
    var two := [Field("from", Text(from))] + three;
    LookupCons(Field("from", Text(from)), three, key);
    var one := [Field("id", Text(id))] + two;
    LookupCons(Field("id", Text(id)), two, key);
    LookupCons(Field("type", Text(kind)), one, key);
    assert Delivery(kind, id, from, body, replyTo, attachment) == [Field("type", Text(kind))] + one;
  }

  lemma LookupNothing(key: string)
    ensures Lookup([], key) == None
  {
  }

  lemma OptionalFits(key: string, value: Option<string>)
    requires Fits(key) && OptionFits(value)
    ensures AllStorable(Optional(key, value))
  {
  }

  lemma BothStorable(a: seq<Field>, b: seq<Field>)
    requires AllStorable(a) && AllStorable(b)
    ensures AllStorable(a + b)
  {
  }

  lemma LabelsFit()
    ensures Fits("type") && Fits("id") && Fits("from") && Fits("body") && Fits("reply_to") && Fits("attachment")
    ensures Fits("message") && Fits("notice") && Fits("receipt") && Fits("accepted") && Fits("reserved")
    ensures Fits("pong") && Fits("error") && Fits("to") && Fits("status") && Fits("delivered") && Fits("shed")
    ensures Fits("request_id") && Fits("expires_in") && Fits("code")
  {
    hide Len;
    AsciiLen("type"); AsciiLen("id"); AsciiLen("from"); AsciiLen("body"); AsciiLen("reply_to"); AsciiLen("attachment");
    AsciiLen("message"); AsciiLen("notice"); AsciiLen("receipt"); AsciiLen("accepted"); AsciiLen("reserved");
    AsciiLen("pong"); AsciiLen("error"); AsciiLen("to"); AsciiLen("status"); AsciiLen("delivered"); AsciiLen("shed");
    AsciiLen("request_id"); AsciiLen("expires_in"); AsciiLen("code");
  }

  lemma DeliveryStorable(kind: string, id: string, from: string, body: string, replyTo: Option<string>,
                         attachment: Option<string>)
    requires Fits(kind) && Fits(id) && Fits(from) && Fits(body) && OptionFits(replyTo) && OptionFits(attachment)
    ensures AllStorable(Delivery(kind, id, from, body, replyTo, attachment))
  {
    hide Len;
    LabelsFit();
    var four :=
      [Field("type", Text(kind)), Field("id", Text(id)), Field("from", Text(from)), Field("body", Text(body))];
    OptionalFits("reply_to", replyTo);
    OptionalFits("attachment", attachment);
    assert AllStorable(four);
    hide AllStorable;
    BothStorable(four, Optional("reply_to", replyTo));
    BothStorable(four + Optional("reply_to", replyTo), Optional("attachment", attachment));
  }

  lemma UnderPacked(fields: seq<Field>, key: string)
    requires |fields| < 16 && AllStorable(fields)
    ensures Under(PackMap(fields), key) == Lookup(fields, key)
  {
    hide PackMap, Unpack, AllStorable;
    MapRoundTrip(fields);
  }

  /** A delivery says who sent what: under every key, exactly what was submitted. */
  lemma DeliverySays(id: string, from: string, body: string, replyTo: Option<string>, attachment: Option<string>,
                     key: string)
    requires Fits(id) && Fits(from) && Fits(body) && OptionFits(replyTo) && OptionFits(attachment)
    ensures Under(Pack(Message(id, from, body, replyTo, attachment)), key)
         == if key == "type" then Some(Text("message"))
            else if key == "id" then Some(Text(id))
            else if key == "from" then Some(Text(from))
            else if key == "body" then Some(Text(body))
            else if key == "reply_to" then TextOf(replyTo)
            else if key == "attachment" then TextOf(attachment)
            else None
    ensures Under(Pack(Notice(id, from, body, replyTo, attachment)), key)
         == if key == "type" then Some(Text("notice"))
            else Under(Pack(Message(id, from, body, replyTo, attachment)), key)
  {
    hide Under, PackMap, Lookup, AllStorable, Delivery, Storable;
    LabelsFit();
    DeliveryStorable("message", id, from, body, replyTo, attachment);
    DeliveryStorable("notice", id, from, body, replyTo, attachment);
    DeliveryLookup("message", id, from, body, replyTo, attachment, key);
    DeliveryLookup("notice", id, from, body, replyTo, attachment, key);
    UnderPacked(Delivery("message", id, from, body, replyTo, attachment), key);
    UnderPacked(Delivery("notice", id, from, body, replyTo, attachment), key);
  }

  // The relay's answers

  lemma ThreeLookup(a: Field, b: Field, c: Field, rest: seq<Field>, key: string)
    ensures Lookup([a, b, c] + rest, key)
         == if key == a.key then Some(a.value)
            else if key == b.key then Some(b.value)
            else if key == c.key then Some(c.value)
            else Lookup(rest, key)
  {
    hide Lookup;
    LookupCons(c, rest, key);
    LookupCons(b, [c] + rest, key);
    LookupCons(a, [b] + ([c] + rest), key);
    assert [a, b, c] + rest == [a] + ([b] + ([c] + rest));
  }

  /** A frame of three fields and at most one more. */
  lemma UnderThree(a: Field, b: Field, c: Field, rest: seq<Field>, key: string)
    requires |rest| <= 1 && AllStorable([a, b, c] + rest)
    ensures Under(PackMap([a, b, c] + rest), key)
         == if key == a.key then Some(a.value)
            else if key == b.key then Some(b.value)
            else if key == c.key then Some(c.value)
            else if rest != [] && key == rest[0].key then Some(rest[0].value)
            else None
  {
    hide Under, PackMap, AllStorable;
    UnderPacked([a, b, c] + rest, key);
    ThreeLookup(a, b, c, rest, key);
    if rest != [] {
      assert rest == [rest[0]] + [];
      LookupCons(rest[0], [], key);
    }
  }

  lemma StatusFits(status: ReceiptStatus)
    ensures Fits(StatusText(status))
  {
    hide Len;
    StatusTextIsShort(status);
    AsciiLen(StatusText(status));
  }

  lemma CodeFits(code: ErrorCode)
    ensures Fits(CodeText(code))
  {
    hide Len, CodeText;
    CodeTextIsShort(code);
    AsciiLen(CodeText(code));
  }

  lemma ReserveTextFits(status: ReserveStatus)
    ensures Fits(ReserveText(status))
  {
    hide Len;
    assert IsAscii(ReserveText(status)) && |ReserveText(status)| <= 20;
    AsciiLen(ReserveText(status));
  }

  lemma ReceiptSays(id: string, to: string, status: ReceiptStatus, key: string)
    requires Fits(id) && Fits(to)
    ensures Under(Pack(Receipt(id, to, status)), key)
         == if key == "type" then Some(Text("receipt"))
            else if key == "id" then Some(Text(id))
            else if key == "to" then Some(Text(to))
            else if key == "status" then Some(Text(StatusText(status)))
            else None
  {
    hide Under, PackMap, StatusText, Len;
    LabelsFit();
    StatusFits(status);
    var rest := [Field("status", Text(StatusText(status)))];
    var all := [Field("type", Text("receipt")), Field("id", Text(id)), Field("to", Text(to))] + rest;
    assert Fields(Receipt(id, to, status)) == all;
    UnderThree(Field("type", Text("receipt")), Field("id", Text(id)), Field("to", Text(to)), rest, key);
  }

  lemma AcceptedSays(id: string, delivered: nat, shed: nat, key: string)
    requires Fits(id) && Storable(Number(delivered)) && Storable(Number(shed))
    ensures Under(Pack(Accepted(id, delivered, shed)), key)
         == if key == "type" then Some(Text("accepted"))
            else if key == "id" then Some(Text(id))
            else if key == "delivered" then Some(Number(delivered))
            else if key == "shed" then Some(Number(shed))
            else None
  {
    hide Under, PackMap, Len;
    LabelsFit();
    var taken, rest := Field("delivered", Number(delivered)), [Field("shed", Number(shed))];
    var all := [Field("type", Text("accepted")), Field("id", Text(id)), taken] + rest;
    assert Fields(Accepted(id, delivered, shed)) == all;
    UnderThree(Field("type", Text("accepted")), Field("id", Text(id)), taken, rest, key);
  }

  lemma ReservedSays(requestId: string, granted: ReserveStatus, expiresIn: Option<nat>, key: string)
    requires Fits(requestId) && (expiresIn.Some? ==> Storable(Number(expiresIn.value)))
    ensures Under(Pack(Reserved(requestId, granted, expiresIn)), key)
         == if key == "type" then Some(Text("reserved"))
            else if key == "request_id" then Some(Text(requestId))
            else if key == "status" then Some(Text(ReserveText(granted)))
            else if key == "expires_in" then NumberOf(expiresIn)
            else None
  {
    hide Under, PackMap, Len, ReserveText;
    LabelsFit();
    ReserveTextFits(granted);
    var state := Field("status", Text(ReserveText(granted)));
    var rest := match expiresIn case None => [] case Some(n) => [Field("expires_in", Number(n))];
    var all := [Field("type", Text("reserved")), Field("request_id", Text(requestId)), state] + rest;
    assert Fields(Reserved(requestId, granted, expiresIn)) == all;
    UnderThree(Field("type", Text("reserved")), Field("request_id", Text(requestId)), state, rest, key);
  }

  lemma ErrorSays(code: ErrorCode, message: string, named: Option<string>, key: string)
    requires Fits(message) && OptionFits(named)
    ensures Under(Pack(Error(code, message, named)), key)
         == if key == "type" then Some(Text("error"))
            else if key == "code" then Some(Text(CodeText(code)))
            else if key == "message" then Some(Text(message))
            else if key == "request_id" then TextOf(named)
            else None
  {
    hide Under, PackMap, Len, CodeText;
    LabelsFit();
    CodeFits(code);
    var what := Field("code", Text(CodeText(code)));
    var rest := Optional("request_id", named);
    var all := [Field("type", Text("error")), what, Field("message", Text(message))] + rest;
    assert Fields(Error(code, message, named)) == all;
    UnderThree(Field("type", Text("error")), what, Field("message", Text(message)), rest, key);
  }

  lemma PongSays(key: string)
    ensures Under(Pack(Pong), key) == if key == "type" then Some(Text("pong")) else None
  {
    hide Under, PackMap, Len;
    LabelsFit();
    UnderPacked(Fields(Pong), key);
  }

  /** No two statuses, and no two codes, are written alike. */
  lemma TextsDiffer()
    ensures forall a, b :: StatusText(a) == StatusText(b) ==> a == b
    ensures forall a, b :: ReserveText(a) == ReserveText(b) ==> a == b
  {
    forall a, b | StatusText(a) == StatusText(b) ensures a == b {
      assert StatusText(a)[0] == StatusText(b)[0] && |StatusText(a)| == |StatusText(b)|;
    }
    forall a, b | ReserveText(a) == ReserveText(b) ensures a == b {
      assert ReserveText(a)[0] == ReserveText(b)[0] && |ReserveText(a)| == |ReserveText(b)|;
    }
  }

  lemma CodesDiffer(a: ErrorCode, b: ErrorCode)
    requires CodeText(a) == CodeText(b)
    ensures a == b
  {
    assert CodeText(a)[0] == CodeText(b)[0] && |CodeText(a)| == |CodeText(b)|;
  }

  /** The octets of the shortest frame, as the MessagePack specification lays them out. */
  lemma PongBytes()
    ensures Pack(Pong) == [0x81, 0xA4, 0x74, 0x79, 0x70, 0x65, 0xA4, 0x70, 0x6F, 0x6E, 0x67]
  {
    hide PackStr;
    ShortText("type");
    ShortText("pong");
    var field := Field("type", Text("pong"));
    assert PackFields([field]) == PackField(field) + [] by { assert [field][1..] == []; }
  }

  lemma ShortText(s: string)
    requires |s| == 4 && IsAscii(s)
    ensures PackStr(s) == [0xA4, s[0] as int, s[1] as int, s[2] as int, s[3] as int]
  {
    AsciiLen(s);
    hide Len;
    assert Utf8.Encode(s) == [s[0] as int, s[1] as int, s[2] as int, s[3] as int] by {
      assert s[1..][1..] == s[2..] && s[2..][1..] == s[3..] && s[3..][1..] == [];
      assert Utf8.Encode(s[3..]) == [s[3] as int];
      assert Utf8.Encode(s[2..]) == [s[2] as int] + Utf8.Encode(s[3..]);
      assert Utf8.Encode(s[1..]) == [s[1] as int] + Utf8.Encode(s[2..]);
    }
  }
}

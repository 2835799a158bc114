/**
 The part of the MessagePack format the relay's frames use: maps from strings to
 strings and unsigned integers, and a reader that gets them back.
 */
module MessagePack {
  import opened Basics
  import opened Octets
  import Utf8

  /** The length of a string in octets. */
  function Len(s: string): nat {
    |Utf8.Encode(s)|
  }

  datatype Value = Text(text: string) | Number(number: nat)
  datatype Field = Field(key: string, value: Value)

  /** The str format family: the shortest header that can hold the length. */
  function PackStr(s: string): Bytes {
    var n := Len(s);
    (if n < 32 then [0xA0 + n]
     else if n < 0x100 then [0xD9] + BigEndian(n, 1)
     else if n < 0x1_0000 then [0xDA] + BigEndian(n, 2)
     else [0xDB] + BigEndian(n, 4)) + Utf8.Encode(s)
  }

  /** The int format family, for values that are never negative. */
  function PackUint(n: nat): Bytes {
    if n < 0x80 then [n]
    else if n < 0x100 then [0xCC] + BigEndian(n, 1)
    else if n < 0x1_0000 then [0xCD] + BigEndian(n, 2)
    else if n < 0x1_0000_0000 then [0xCE] + BigEndian(n, 4)
    else [0xCF] + BigEndian(n, 8)
  }

  function PackValue(v: Value): Bytes {
    match v
    case Text(text) => PackStr(text)
    case Number(number) => PackUint(number)
  }

  function PackField(field: Field): Bytes {
    PackStr(field.key) + PackValue(field.value)
  }

  function PackFields(fields: seq<Field>): Bytes {
    if fields == [] then [] else PackField(fields[0]) + PackFields(fields[1..])
  }

  /** A fixmap; every frame has fewer than sixteen fields. */
  function PackMap(fields: seq<Field>): Bytes
    requires |fields| < 16
  {
    [0x80 + |fields|] + PackFields(fields)
  }

  // Reading back

  /** What one read got, and what it left. */
  datatype Read<T> = Bad | Got(value: T, rest: Bytes)

  function ReadText(b: Bytes, n: nat): Read<string> {
    if |b| < n || Utf8.Decode(b[..n]).None? then Bad else Got(Utf8.Decode(b[..n]).value, b[n..])
  }

  function ReadStr(b: Bytes): Read<string> {
    if b == [] then Bad
    else if 0xA0 <= b[0] < 0xC0 then ReadText(b[1..], b[0] - 0xA0)
    else if b[0] == 0xD9 && |b| >= 2 then ReadText(b[2..], FromBigEndian(b[1..2]))
    else if b[0] == 0xDA && |b| >= 3 then ReadText(b[3..], FromBigEndian(b[1..3]))
    else if b[0] == 0xDB && |b| >= 5 then ReadText(b[5..], FromBigEndian(b[1..5]))
    else Bad
  }

  function ReadUint(b: Bytes): Read<nat> {
    if b == [] then Bad
    else if b[0] < 0x80 then Got(b[0], b[1..])
    else if b[0] == 0xCC && |b| >= 2 then Got(FromBigEndian(b[1..2]), b[2..])
    else if b[0] == 0xCD && |b| >= 3 then Got(FromBigEndian(b[1..3]), b[3..])
    else if b[0] == 0xCE && |b| >= 5 then Got(FromBigEndian(b[1..5]), b[5..])
    else if b[0] == 0xCF && |b| >= 9 then Got(FromBigEndian(b[1..9]), b[9..])
    else Bad
  }

  function ReadValue(b: Bytes): Read<Value> {
    match ReadStr(b)
    case Got(text, rest) => Got(Text(text), rest)
    case Bad =>
      match ReadUint(b)
      case Got(n, rest) => Got(Number(n), rest)
      case Bad => Bad
  }

  function ReadField(b: Bytes): Read<Field> {
    match ReadStr(b)
    case Bad => Bad
    case Got(key, afterKey) =>
      match ReadValue(afterKey)
      case Bad => Bad
      case Got(value, rest) => Got(Field(key, value), rest)
  }

  function ReadFields(b: Bytes, n: nat): Read<seq<Field>>
    decreases n
  {
    if n == 0 then Got([], b)
    else
      match ReadField(b)
      case Bad => Bad
      case Got(field, rest) =>
        match ReadFields(rest, n - 1)
        case Bad => Bad
        case Got(fields, end) => Got([field] + fields, end)
  }

  /** One map and nothing after it. */
  function Unpack(b: Bytes): Option<seq<Field>> {
    if b == [] || !(0x80 <= b[0] < 0x90) then None
    else
      match ReadFields(b[1..], b[0] - 0x80)
      case Got(fields, rest) => if rest == [] then Some(fields) else None
      case Bad => None
  }

  predicate Storable(v: Value) {
    match v
    case Text(text) => Len(text) < 0x1_0000_0000
    case Number(number) => number < 0x1_0000_0000_0000_0000
  }

  predicate AllStorable(fields: seq<Field>) {
    forall i :: 0 <= i < |fields| ==> Storable(Text(fields[i].key)) && Storable(fields[i].value)
  }

  lemma Widths()
    ensures Values(1) == 0x100 && Values(2) == 0x1_0000
    ensures Values(4) == 0x1_0000_0000 && Values(8) == 0x1_0000_0000_0000_0000
  {
    assert Values(3) == 0x100_0000;
    assert Values(6) == 0x1_0000_0000_0000;
  }

  lemma TextRoundTrip(s: string, rest: Bytes)
    ensures ReadText(Utf8.Encode(s) + rest, Len(s)) == Got(s, rest)
  {
    Utf8.DecodeEncode(s);
    assert (Utf8.Encode(s) + rest)[..Len(s)] == Utf8.Encode(s);
  }

  /** A header octet, a big-endian number, and what follows. */
  lemma Headed(mark: byte, n: nat, width: nat, rest: Bytes)
    requires n < Values(width)
    ensures var b := [mark] + BigEndian(n, width) + rest;
            |b| > width && b[0] == mark && FromBigEndian(b[1..width + 1]) == n && b[width + 1..] == rest
  {
    BigEndianRoundTrip(n, width);
    var b := [mark] + BigEndian(n, width) + rest;
    assert b[1..width + 1] == BigEndian(n, width);
  }

  lemma StrRoundTrip(s: string, rest: Bytes)
    requires Storable(Text(s))
    ensures ReadStr(PackStr(s) + rest) == Got(s, rest)
  {
    hide ReadText, BigEndian, FromBigEndian;
    var text := Utf8.Encode(s) + rest;
    var n := Len(s);
    TextRoundTrip(s, rest);
    Widths();
    if n < 32 {
      assert PackStr(s) + rest == [0xA0 + n] + text;
    } else if n < 0x100 {
      Headed(0xD9, n, 1, text);
      assert PackStr(s) + rest == [0xD9] + BigEndian(n, 1) + text;
    } else if n < 0x1_0000 {
      Headed(0xDA, n, 2, text);
      assert PackStr(s) + rest == [0xDA] + BigEndian(n, 2) + text;
    } else {
      Headed(0xDB, n, 4, text);
      assert PackStr(s) + rest == [0xDB] + BigEndian(n, 4) + text;
    }
  }

  lemma UintRoundTrip(n: nat, rest: Bytes)
    requires Storable(Number(n))
    ensures ReadUint(PackUint(n) + rest) == Got(n, rest)
    ensures ReadStr(PackUint(n) + rest) == Bad
  {
    hide BigEndian, FromBigEndian, ReadText;
    Widths();
    if n < 0x80 {
      assert (PackUint(n) + rest)[1..] == rest;
    } else if n < 0x100 {
      Headed(0xCC, n, 1, rest);
    } else if n < 0x1_0000 {
      Headed(0xCD, n, 2, rest);
    } else if n < 0x1_0000_0000 {
      Headed(0xCE, n, 4, rest);
    } else {
      Headed(0xCF, n, 8, rest);
    }
  }

  lemma ValueRoundTrip(v: Value, rest: Bytes)
    requires Storable(v)
    ensures ReadValue(PackValue(v) + rest) == Got(v, rest)
  {
    hide PackStr, PackUint, ReadStr, ReadUint;
    match v
    case Text(text) => StrRoundTrip(text, rest);
    case Number(number) => UintRoundTrip(number, rest);
  }

  lemma FieldRoundTrip(field: Field, rest: Bytes)
    requires Storable(Text(field.key)) && Storable(field.value)
    ensures ReadField(PackField(field) + rest) == Got(field, rest)
  {
    hide PackStr, PackValue, ReadStr, ReadValue;
    StrRoundTrip(field.key, PackValue(field.value) + rest);
    ValueRoundTrip(field.value, rest);
    assert PackField(field) + rest == PackStr(field.key) + (PackValue(field.value) + rest);
  }

  lemma ConsRoundTrip(field: Field, more: seq<Field>, rest: Bytes)
    requires Storable(Text(field.key)) && Storable(field.value)
    requires ReadFields(PackFields(more) + rest, |more|) == Got(more, rest)
    ensures ReadFields(PackFields([field] + more) + rest, |more| + 1) == Got([field] + more, rest)
  {
    hide PackField, ReadField, Storable;
    FieldRoundTrip(field, PackFields(more) + rest);
    assert ([field] + more)[1..] == more;
    assert PackFields([field] + more) + rest == PackField(field) + (PackFields(more) + rest);
  }

  lemma {:induction false} FieldsRoundTrip(fields: seq<Field>, rest: Bytes)
    requires AllStorable(fields)
    ensures ReadFields(PackFields(fields) + rest, |fields|) == Got(fields, rest)
  {
    if fields == [] {
      assert PackFields(fields) + rest == rest;
    } else {
      hide Storable, ReadFields, PackFields;
      FieldsRoundTrip(fields[1..], rest);
      ConsRoundTrip(fields[0], fields[1..], rest);
      assert fields == [fields[0]] + fields[1..];
    }
  }

  /** What is written can be read back, so no two field lists share an encoding. */
  lemma MapRoundTrip(fields: seq<Field>)
    requires |fields| < 16 && AllStorable(fields)
    ensures Unpack(PackMap(fields)) == Some(fields)
  {
    hide PackFields, ReadFields;
    FieldsRoundTrip(fields, []);
    assert PackMap(fields)[1..] == PackFields(fields) + [];
  }
}

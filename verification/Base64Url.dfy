/**
 Addresses: the unpadded base64url of section 5 of RFC 4648, which the relay
 writes by hand, and the names of room directories.
 */
module Base64Url {
  import opened Basics
  import opened Octets
  import opened StoreModel
  import opened FrameBudget
  import opened MessagePack
  import Utf8

  /** The alphabet: upper case, lower case, digits, `-` and `_`, in this order. */
  function Letter(i: nat): char
    requires i < 64
  {
    if i < 26 then 'A' + i as char
    else if i < 52 then 'a' + (i - 26) as char
    else if i < 62 then '0' + (i - 52) as char
    else if i == 62 then '-'
    else '_'
  }

  function Index(c: char): nat
    requires IsBase64Url(c)
  {
    if 'A' <= c <= 'Z' then (c - 'A') as nat
    else if 'a' <= c <= 'z' then (c - 'a') as nat + 26
    else if '0' <= c <= '9' then (c - '0') as nat + 52
    else if c == '-' then 62
    else 63
  }

  lemma LetterIndex(i: nat)
    requires i < 64
    ensures IsBase64Url(Letter(i)) && Index(Letter(i)) == i
  {
  }

  /** Up to three octets as one number, the missing ones zero. */
  function Packed(g: Bytes): nat
    requires 1 <= |g| <= 3
  {
    Pack3(g[0], if |g| > 1 then g[1] else 0, if |g| > 2 then g[2] else 0)
  }

  function Pack3(a: nat, b: nat, c: nat): nat {
    a * 0x1_0000 + b * 0x100 + c
  }

  /** The i-th six bits of a packed group, from the top. */
  function Sextet(packed: nat, i: nat): (n: nat)
    requires i <= 3
    ensures n < 64
  {
    if i == 0 then packed / 0x4_0000 % 64
    else if i == 1 then packed / 0x1000 % 64
    else if i == 2 then packed / 0x40 % 64
    else packed % 64
  }

  function Letters(packed: nat, n: nat): (s: string)
    requires n <= 4
    ensures |s| == n
  {
    if n == 0 then [] else Letters(packed, n - 1) + [Letter(Sextet(packed, n - 1))]
  }

  function Encode(b: Bytes): string {
    if b == [] then []
    else
      var g := if |b| < 3 then b else b[..3];
      Letters(Packed(g), |g| + 1) + Encode(b[|g|..])
  }

  /** The inner loop: one letter for every six bits, less those that would only be padding. */
  method EncodeGroup(group: Bytes) returns (letters: string)
    requires 1 <= |group| <= 3
    ensures letters == Letters(Packed(group), |group| + 1)
  {
    hide Sextet, Letter, Packed;
    letters := [];
    var packed := Packed(group);
    for i := 0 to |group| + 1
      invariant letters == Letters(packed, i)
    {
      letters := letters + [Letter(Sextet(packed, i))];
    }
  }

  lemma EncodeOneGroup(b: Bytes, n: nat)
    requires 1 <= n <= |b| && (n == 3 || n == |b| < 3)
    ensures Encode(b) == Letters(Packed(b[..n]), n + 1) + Encode(b[n..])
  {
    hide Letters, Packed;
    assert n == |b| ==> b[..n] == b;
  }

  /** The encoder's outer loop, over groups of three. */
  method Base64(bytes: Bytes) returns (out: string)
    ensures out == Encode(bytes)
  {
    hide Letters, Packed, Encode;
    out := [];
    var at := 0;
    assert bytes[0..] == bytes;
    while at < |bytes|
      invariant at <= |bytes|
      invariant out + Encode(bytes[at..]) == Encode(bytes)
    {
      var end := if |bytes| - at < 3 then |bytes| else at + 3;
      var letters := EncodeGroup(bytes[at..end]);
      EncodeOneGroup(bytes[at..], end - at);
      assert bytes[at..][..end - at] == bytes[at..end] && bytes[at..][end - at..] == bytes[end..];
      assert out + (letters + Encode(bytes[end..])) == out + letters + Encode(bytes[end..]);
      out, at := out + letters, end;
    }
    assert bytes[at..] == [];
    EncodeNothing();
  }

  lemma EncodeNothing()
    ensures Encode([]) == []
  {
  }

  /** The alphabet by the codes its ranges begin and end with; within a range each letter follows the one before. */
  lemma LettersInOrder(i: nat)
    ensures Letter(0) == 'A' && Letter(25) == 'Z' && Letter(26) == 'a' && Letter(51) == 'z'
    ensures Letter(52) == '0' && Letter(61) == '9' && Letter(62) == '-' && Letter(63) == '_'
    ensures i < 61 && i != 25 && i != 51 ==> Letter(i + 1) as int == Letter(i) as int + 1
  {
  }

  lemma FourLetters(packed: nat)
    ensures Letters(packed, 4)
         == [Letter(Sextet(packed, 0)), Letter(Sextet(packed, 1)), Letter(Sextet(packed, 2)), Letter(Sextet(packed, 3))]
    ensures Letters(packed, 3) == Letters(packed, 4)[..3] && Letters(packed, 2) == Letters(packed, 4)[..2]
  {
    hide Letter, Sextet;
    assert Letters(packed, 1) == [Letter(Sextet(packed, 0))];
    assert Letters(packed, 2) == Letters(packed, 1) + [Letter(Sextet(packed, 1))];
    assert Letters(packed, 3) == Letters(packed, 2) + [Letter(Sextet(packed, 2))];
  }

  /** The test vectors of section 10 of RFC 4648, without their padding. */
  lemma KnownAddresses()
    ensures Encode([]) == "" && Encode([0x66]) == "Zg" && Encode([0x66, 0x6F]) == "Zm8"
    ensures Encode([0x66, 0x6F, 0x6F]) == "Zm9v"
    ensures Encode([0x66, 0x6F, 0x6F, 0x62, 0x61, 0x72]) == "Zm9vYmFy"
  {
    hide Letters, Encode;
    EncodeNothing();
    KnownLetters(0x66_0000, 25, 32, 0, 0);
    KnownLetters(0x66_6F00, 25, 38, 60, 0);
    KnownLetters(0x66_6F6F, 25, 38, 61, 47);
    KnownLetters(0x62_6172, 24, 38, 5, 50);
    KnownGroups();
  }

  lemma KnownLetters(packed: nat, a: nat, b: nat, c: nat, d: nat)
    requires a < 64 && b < 64 && c < 64 && d < 64 && packed == Pack4(a, b, c, d)
    ensures Letters(packed, 4) == [Letter(a), Letter(b), Letter(c), Letter(d)]
    ensures Letters(packed, 3) == [Letter(a), Letter(b), Letter(c)] && Letters(packed, 2) == [Letter(a), Letter(b)]
  {
    hide Letter, Letters;
    FourLetters(packed);
    SextetsOf(a, b, c, d);
  }

  lemma SextetsOf(a: nat, b: nat, c: nat, d: nat)
    requires a < 64 && b < 64 && c < 64 && d < 64
    ensures var packed := Pack4(a, b, c, d);
            Sextet(packed, 0) == a && Sextet(packed, 1) == b && Sextet(packed, 2) == c && Sextet(packed, 3) == d
  {
    var two, three := a * 0x40 + b, (a * 0x40 + b) * 0x40 + c;
    var packed := three * 0x40 + d;
    assert packed == Pack4(a, b, c, d);
    assert packed / 0x40 == three;
    assert packed / 0x1000 == two;
    assert packed / 0x4_0000 == a;
  }

  lemma OneGroup(g: Bytes)
    requires 1 <= |g| <= 3
    ensures Encode(g) == Letters(Packed(g), |g| + 1)
  {
    hide Letters, Packed, Encode;
    EncodeOneGroup(g, |g|);
    EncodeNothing();
    assert g[..|g|] == g && g[|g|..] == [];
  }

  lemma KnownGroups()
    ensures Encode([0x66]) == Letters(0x66_0000, 2) && Encode([0x66, 0x6F]) == Letters(0x66_6F00, 3)
    ensures Encode([0x66, 0x6F, 0x6F]) == Letters(0x66_6F6F, 4)
    ensures Encode([0x66, 0x6F, 0x6F, 0x62, 0x61, 0x72]) == Letters(0x66_6F6F, 4) + Letters(0x62_6172, 4)
  {
    hide Letters, Encode;
    OneGroup([0x66]);
    OneGroup([0x66, 0x6F]);
    OneGroup([0x66, 0x6F, 0x6F]);
    OneGroup([0x62, 0x61, 0x72]);
    var foobar := [0x66, 0x6F, 0x6F, 0x62, 0x61, 0x72];
    assert foobar[..3] == [0x66, 0x6F, 0x6F] && foobar[3..] == [0x62, 0x61, 0x72];
    EncodeOneGroup(foobar, 3);
  }

  // Reading back

  function SextetOf(s: string, i: nat): nat {
    if i < |s| && IsBase64Url(s[i]) then Index(s[i]) else 0
  }

  function Pack4(a: nat, b: nat, c: nat, d: nat): nat {
    a * 0x4_0000 + b * 0x1000 + c * 0x40 + d
  }

  function Unpacked(packed: nat, n: nat): Bytes
    requires 1 <= n <= 3
  {
    var a, b, c := packed / 0x1_0000 % 256, packed / 0x100 % 256, packed % 256;
    if n == 1 then [a] else if n == 2 then [a, b] else [a, b, c]
  }

  function Group(s: string): Bytes
    requires 2 <= |s| <= 4
  {
    Unpacked(Pack4(SextetOf(s, 0), SextetOf(s, 1), SextetOf(s, 2), SextetOf(s, 3)), |s| - 1)
  }

  function Decode(s: string): Bytes {
    if |s| < 2 then []
    else if |s| <= 4 then Group(s)
    else Group(s[..4]) + Decode(s[4..])
  }

  lemma {:induction false} LettersAt(packed: nat, n: nat, i: nat)
    requires i < n <= 4
    ensures Letters(packed, n)[i] == Letter(Sextet(packed, i)) && SextetOf(Letters(packed, n), i) == Sextet(packed, i)
  {
    hide Letter, Index, Sextet;
    LetterIndex(Sextet(packed, i));
    if i < n - 1 {
      LettersAt(packed, n - 1, i);
    }
  }

  lemma Sextets(packed: nat)
    requires packed < 0x100_0000
    ensures packed == Pack4(Sextet(packed, 0), Sextet(packed, 1), Sextet(packed, 2), Sextet(packed, 3))
  {
    var q, r := packed / 0x40, packed % 0x40;
    var p, s := q / 0x40, q % 0x40;
    assert packed == p * 0x1000 + s * 0x40 + r;
    assert packed / 0x1000 == p;
    assert packed / 0x4_0000 == p / 0x40;
  }

  lemma Octets3(a: nat, b: nat, c: nat)
    requires a < 256 && b < 256 && c < 256
    ensures var p := Pack3(a, b, c);
            p < 0x100_0000 && p / 0x1_0000 % 256 == a && p / 0x100 % 256 == b && p % 256 == c
  {
    var p := Pack3(a, b, c);
    assert p / 0x100 == a * 0x100 + b;
    assert p / 0x1_0000 == a;
  }

  lemma Multiple(n: nat)
    ensures n * 64 % 64 == 0 && n * 64 / 64 == n
  {
  }

  /** A short group leaves its last sextets empty. */
  lemma EmptySextets(a: nat, b: nat)
    ensures Sextet(Pack3(a, b, 0), 3) == 0 && Sextet(Pack3(a, 0, 0), 3) == 0 && Sextet(Pack3(a, 0, 0), 2) == 0
  {
    Multiple(a * 0x400 + b * 4);
    Multiple(a * 0x400);
    Multiple(a * 0x10);
  }

  lemma GroupSextets(g: Bytes)
    requires 1 <= |g| <= 3
    ensures var s, packed := Letters(Packed(g), |g| + 1), Packed(g);
            packed == Pack4(SextetOf(s, 0), SextetOf(s, 1), SextetOf(s, 2), SextetOf(s, 3))
  {
    hide Letter, Index, Sextet, SextetOf, Pack3, Pack4, Letters;
    var packed := Packed(g);
    var s := Letters(packed, |g| + 1);
    Octets3(g[0], if |g| > 1 then g[1] else 0, if |g| > 2 then g[2] else 0);
    Sextets(packed);
    LettersAt(packed, |g| + 1, 0);
    LettersAt(packed, |g| + 1, 1);
    if |g| > 1 {
      LettersAt(packed, |g| + 1, 2);
      EmptySextets(g[0], g[1]);
    } else {
      EmptySextets(g[0], 0);
      NoSextet(s, 2);
    }
    if |g| > 2 {
      LettersAt(packed, |g| + 1, 3);
    } else {
      NoSextet(s, 3);
    }
  }

  lemma NoSextet(s: string, i: nat)
    requires |s| <= i
    ensures SextetOf(s, i) == 0
  {
  }

  lemma UnpackedPacked(g: Bytes)
    requires 1 <= |g| <= 3
    ensures Unpacked(Packed(g), |g|) == g
  {
    hide Pack3;
    Octets3(g[0], if |g| > 1 then g[1] else 0, if |g| > 2 then g[2] else 0);
  }

  lemma GroupRoundTrip(g: Bytes)
    requires 1 <= |g| <= 3
    ensures Group(Letters(Packed(g), |g| + 1)) == g
  {
    hide SextetOf, Packed, Pack4, Letters, Unpacked;
    GroupSextets(g);
    UnpackedPacked(g);
  }

  /** Reading an encoding back gives the octets, so the encoding is injective. */
  lemma {:induction false} DecodeEncode(b: Bytes)
    ensures Decode(Encode(b)) == b
  {
    if b != [] {
      hide Group, Letters, Packed;
      var n := if |b| < 3 then |b| else 3;
      var rest := b[n..];
      EncodeOneGroup(b, n);
      GroupRoundTrip(b[..n]);
      DecodeEncode(rest);
      var letters := Letters(Packed(b[..n]), n + 1);
      if rest == [] {
        EncodeNothing();
        assert Encode(b) == letters;
      } else {
        EncodedLength(rest);
        assert Encode(b)[..4] == letters && Encode(b)[4..] == Encode(rest);
      }
    }
  }

  lemma {:induction false} EncodedLength(b: Bytes)
    ensures |Encode(b)| == |b| / 3 * 4 + if |b| % 3 == 0 then 0 else |b| % 3 + 1
  {
    hide Packed;
    if |b| >= 3 {
      EncodedLength(b[3..]);
    }
  }

  lemma {:induction false} EncodedAlphabet(b: Bytes)
    ensures forall c :: c in Encode(b) ==> IsBase64Url(c)
  {
    if b != [] {
      hide Letters, Packed, IsBase64Url;
      var n := if |b| < 3 then |b| else 3;
      EncodeOneGroup(b, n);
      LettersAlphabet(Packed(b[..n]), n + 1);
      EncodedAlphabet(b[n..]);
    }
  }

  lemma {:induction false} LettersAlphabet(packed: nat, n: nat)
    requires n <= 4
    ensures forall c :: c in Letters(packed, n) ==> IsBase64Url(c)
  {
    if n > 0 {
      LettersAlphabet(packed, n - 1);
      LetterIndex(Sextet(packed, n - 1));
    }
  }

  /** A 32-octet hash always encodes to a valid address, and different hashes to different ones. */
  lemma AddressesAreFaithful(a: Bytes, b: Bytes)
    requires |a| == 32
    ensures |Encode(a)| == 43 && ValidDigest(Encode(a))
    ensures Encode(a) == Encode(b) ==> a == b
  {
    hide Encode, Decode;
    EncodedLength(a);
    EncodedAlphabet(a);
    DecodeEncode(a);
    DecodeEncode(b);
  }

  // Room directories

  /** What is hashed to name a room's directory: each component behind its length. */
  function RoomBytes(room: RoomId): Bytes {
    LittleEndian(Len(room.project), 8) + Utf8.Encode(room.project)
    + LittleEndian(Len(room.task), 8) + Utf8.Encode(room.task)
  }

  predicate Addressable(room: RoomId) {
    Len(room.project) < Values(8) && Len(room.task) < Values(8)
  }

  lemma PrefixedSplits(a: Bytes, b: Bytes, x: Bytes, y: Bytes)
    requires |a| < Values(8) && |b| < Values(8)
    requires LittleEndian(|a|, 8) + a + x == LittleEndian(|b|, 8) + b + y
    ensures a == b && x == y
  {
    hide LittleEndian, FromLittleEndian, Values;
    var whole := LittleEndian(|a|, 8) + a + x;
    assert whole[..8] == LittleEndian(|a|, 8) == LittleEndian(|b|, 8);
    LittleEndianRoundTrip(|a|, 8);
    LittleEndianRoundTrip(|b|, 8);
    assert whole[8..8 + |a|] == a == b;
    assert whole[8 + |a|..] == x == y;
  }

  lemma RoomBytesInjective(r: RoomId, q: RoomId)
    requires Addressable(r) && Addressable(q) && RoomBytes(r) == RoomBytes(q)
    ensures r == q
  {
    hide LittleEndian, Values;
    var rt := LittleEndian(Len(r.task), 8) + Utf8.Encode(r.task);
    var qt := LittleEndian(Len(q.task), 8) + Utf8.Encode(q.task);
    assert RoomBytes(r) == LittleEndian(Len(r.project), 8) + Utf8.Encode(r.project) + rt;
    assert RoomBytes(q) == LittleEndian(Len(q.project), 8) + Utf8.Encode(q.project) + qt;
    PrefixedSplits(Utf8.Encode(r.project), Utf8.Encode(q.project), rt, qt);
    assert rt == rt + [] && qt == qt + [];
    PrefixedSplits(Utf8.Encode(r.task), Utf8.Encode(q.task), [], []);
    Utf8.DecodeEncode(r.project);
    Utf8.DecodeEncode(q.project);
    Utf8.DecodeEncode(r.task);
    Utf8.DecodeEncode(q.task);
  }

  function DirectoryName(hash: Bytes -> Bytes, room: RoomId): string {
    Encode(hash(RoomBytes(room)))
  }

  /** Distinct rooms have distinct directories, whatever their names contain. */
  lemma RoomsHaveOwnDirectories(hash: Bytes -> Bytes, r: RoomId, q: RoomId)
    requires forall a, b :: hash(a) == hash(b) ==> a == b
    requires Addressable(r) && Addressable(q) && r != q
    ensures DirectoryName(hash, r) != DirectoryName(hash, q)
  {
    hide Encode, Decode, RoomBytes;
    DecodeEncode(hash(RoomBytes(r)));
    DecodeEncode(hash(RoomBytes(q)));
    if RoomBytes(r) == RoomBytes(q) {
      RoomBytesInjective(r, q);
    }
  }
}

/** b4a.toString on one chunk: UTF-8 decoding that replaces ill-formed input. readJSON and wire decode each
    chunk on its own, so this says exactly which chunk boundaries are harmless. */
module Utf8 {
  import opened Wire

  /** How many bytes a character starting with b takes; 0 when no character starts with b. */
  function Width(b: Byte): (n: nat)
    ensures n <= 4
  {
    if b < 0x80 then 1 else if b < 0xc2 then 0 else if b < 0xe0 then 2 else if b < 0xf0 then 3 else if b < 0xf5 then 4
        else 0
  }

  predicate Continuation(b: Byte) {
    0x80 <= b < 0xc0
  }

  predicate StartsCharacter(bs: Bytes) {
    && bs != [] && 0 < Width(bs[0]) <= |bs|
    && (forall i | 0 < i < Width(bs[0]) :: Continuation(bs[i]))
    && (Width(bs[0]) > 1 ==> Allowed(bs[0], bs[1]))
  }

  /** No overlong forms, no surrogates and nothing past U+10FFFF. */
  predicate Allowed(first: Byte, second: Byte) {
    && (first == 0xe0 ==> second >= 0xa0)
    && (first == 0xed ==> second < 0xa0)
    && (first == 0xf0 ==> second >= 0x90)
    && (first == 0xf4 ==> second < 0x90)
  }

  /** A decoded character keeps its bytes; ill-formed input becomes U+FFFD. */
  datatype Character = Character(bytes: Bytes) | Replacement

  function Decode(bs: Bytes): seq<Character> {
    if bs == [] then []
    else if StartsCharacter(bs) then
      [Character(bs[..Width(bs[0])])] + Decode(bs[Width(bs[0])..])
    else [Replacement] + Decode(bs[1..])
  }

  predicate WellFormed(bs: Bytes) {
    bs == [] || (StartsCharacter(bs) && WellFormed(bs[Width(bs[0])..]))
  }

  /** A character of well-formed text. */
  predicate IsCharacter(c: Character) {
    c.Character? && StartsCharacter(c.bytes) && |c.bytes| == Width(c.bytes[0])
  }

  /** k does not fall inside a character. */
  predicate Boundary(bs: Bytes, k: nat)
    requires k <= |bs|
  {
    k == |bs| || !Continuation(bs[k])
  }

  /** An incomplete character, or the rest of one, decodes to replacements only. */
  lemma {:induction false} PartDecodes(bs: Bytes)
    requires bs != [] && (Continuation(bs[0]) || |bs| < Width(bs[0]))
    requires forall i | 0 < i < |bs| :: Continuation(bs[i])
    ensures |Decode(bs)| == |bs| && Decode(bs)[0] == Replacement
  {
    if |bs| > 1 {
      PartDecodes(bs[1..]);
    }
  }

  lemma {:induction false} ContinuationsThen(part: Bytes, rest: Bytes)
    requires forall i | 0 <= i < |part| :: Continuation(part[i])
    ensures |Decode(part + rest)| == |part| + |Decode(rest)|
  {
    if part == [] {
      assert part + rest == rest;
    } else {
      assert (part + rest)[1..] == part[1..] + rest;
      ContinuationsThen(part[1..], rest);
    }
  }

  lemma DecodeCharacter(bs: Bytes)
    requires StartsCharacter(bs)
    ensures Decode(bs) == [Character(bs[..Width(bs[0])])] + Decode(bs[Width(bs[0])..])
  {
  }

  lemma Cancel(c: Character, a: seq<Character>, b: seq<Character>, all: seq<Character>)
    ensures [c] + a + b == [c] + all <==> a + b == all
  {
    assert ([c] + a + b)[1..] == a + b;
    assert ([c] + all)[1..] == all;
    assert [c] + a + b == [c] + (a + b);
  }

  /** Well-formed bytes start a character, and so does any part of them that holds all of it. */
  lemma FrontStarts(bs: Bytes, k: nat)
    requires WellFormed(bs) && bs != [] && k <= |bs|
    ensures StartsCharacter(bs) && Width(bs[0]) > 0
    ensures Width(bs[0]) <= k ==> bs[..k] != [] && bs[..k][0] == bs[0] && StartsCharacter(bs[..k])
  {
  }

  lemma SlicesLater(bs: Bytes, k: nat, w: nat)
    requires w <= k <= |bs|
    ensures bs[..k][w..] == bs[w..][..k - w] && bs[k..] == bs[w..][k - w..] && bs[..k][..w] == bs[..w]
  {
  }

  lemma SlicesInside(bs: Bytes, k: nat, w: nat)
    requires k <= w <= |bs|
    ensures bs[k..] == bs[k..w] + bs[w..]
  {
  }

  /** A cut past the first character is harmless for the whole exactly when it is for the rest. */
  lemma CutLater(bs: Bytes, k: nat)
    requires WellFormed(bs) && bs != [] && Width(bs[0]) <= k <= |bs|
    ensures var w := Width(bs[0]);
            Decode(bs[..k]) + Decode(bs[k..]) == Decode(bs) <==>
            Decode(bs[w..][..k - w]) + Decode(bs[w..][k - w..]) == Decode(bs[w..])
  {
    hide Decode, WellFormed, StartsCharacter, Width;
    var w, front := Width(bs[0]), bs[..k];
    FrontStarts(bs, k);
    SlicesLater(bs, k, w);
    DecodeCharacter(bs);
    DecodeCharacter(front);
    Cancel(Character(bs[..w]), Decode(front[w..]), Decode(bs[k..]), Decode(bs[w..]));
  }

  /** A cut inside the first character turns each of its bytes into a replacement. */
  lemma CutInside(bs: Bytes, k: nat)
    requires WellFormed(bs) && bs != [] && 0 < k < Width(bs[0])
    ensures |Decode(bs[..k]) + Decode(bs[k..])| > |Decode(bs)|
  {
    hide Decode, WellFormed;
    var w := Width(bs[0]);
    WellFormedWidth(bs);
    FrontStarts(bs, 0);
    PartDecodes(bs[..k]);
    SlicesInside(bs, k, w);
    ContinuationsThen(bs[k..w], bs[w..]);
    DecodeCharacter(bs);
  }

  lemma WellFormedWidth(bs: Bytes)
    requires WellFormed(bs) && bs != []
    ensures 0 < Width(bs[0]) <= |bs|
  {
  }

  /** Decoding the two halves of well-formed text separately gives the text exactly when the cut is not
      inside a character. */
  lemma {:induction false} SplitExactlyAtBoundaries(bs: Bytes, k: nat)
    requires WellFormed(bs) && k <= |bs|
    ensures Decode(bs[..k]) + Decode(bs[k..]) == Decode(bs) <==> Boundary(bs, k)
    decreases |bs|
  {
    hide Decode;
    if k == 0 {
      assert bs[..0] == [] && bs[0..] == bs;
      DecodeNothing();
    } else if Width(bs[0]) <= k {
      SplitExactlyAtBoundaries(bs[Width(bs[0])..], k - Width(bs[0]));
      CutLater(bs, k);
    } else {
      CutInside(bs, k);
    }
  }

  lemma DecodeNothing()
    ensures Decode([]) == []
  {
  }

  // ----- any number of chunks -----

  function Joined(chunks: seq<Bytes>): Bytes {
    if chunks == [] then [] else chunks[0] + Joined(chunks[1..])
  }

  /** What a handler that converts every chunk on its own accumulates. */
  function DecodeEach(chunks: seq<Bytes>): seq<Character> {
    if chunks == [] then [] else Decode(chunks[0]) + DecodeEach(chunks[1..])
  }

  lemma {:induction false} WellFormedDecodes(bs: Bytes)
    ensures WellFormed(bs) <==> Replacement !in Decode(bs)
    decreases |bs|
  {
    if bs != [] && StartsCharacter(bs) {
      WellFormedDecodes(bs[Width(bs[0])..]);
    }
  }

  lemma DecodeFront(a: Bytes, b: Bytes)
    requires StartsCharacter(a)
    ensures Decode(a + b) == [Character(a[..Width(a[0])])] + Decode(a[Width(a[0])..] + b)
  {
    hide Decode;
    var w, whole := Width(a[0]), a + b;
    assert forall i | 0 <= i < w :: whole[i] == a[i];
    assert whole[w..] == a[w..] + b && whole[..w] == a[..w];
    DecodeCharacter(whole);
  }

  lemma {:induction false} DecodeAppend(a: Bytes, b: Bytes)
    requires WellFormed(a)
    ensures Decode(a + b) == Decode(a) + Decode(b)
    decreases |a|
  {
    if a == [] {
      assert a + b == b;
    } else {
      hide Decode, Width, StartsCharacter;
      var rest := a[Width(a[0])..];
      DecodeAppend(rest, b);
      DecodeFront(a, b);
      DecodeCharacter(a);
      Cancel(Character(a[..Width(a[0])]), Decode(rest), Decode(b), Decode(rest + b));
    }
  }

  /** Well-formed text converted chunk by chunk is that text if and only if every chunk is well-formed by
      itself, as chunks of ASCII always are. */
  lemma {:induction false} ChunksDecodeExactly(chunks: seq<Bytes>)
    requires WellFormed(Joined(chunks))
    ensures DecodeEach(chunks) == Decode(Joined(chunks)) <==> forall i | 0 <= i < |chunks| :: WellFormed(chunks[i])
  {
    WellFormedDecodes(Joined(chunks));
    if DecodeEach(chunks) == Decode(Joined(chunks)) {
      forall i | 0 <= i < |chunks| ensures WellFormed(chunks[i]) {
        EachInside(chunks, i);
        WellFormedDecodes(chunks[i]);
      }
    }
    if forall i | 0 <= i < |chunks| :: WellFormed(chunks[i]) {
      WellFormedChunks(chunks);
    }
  }

  lemma {:induction false} EachInside(chunks: seq<Bytes>, i: nat)
    requires i < |chunks|
    ensures forall c | c in Decode(chunks[i]) :: c in DecodeEach(chunks)
  {
    if i > 0 {
      EachInside(chunks[1..], i - 1);
    }
  }

  lemma {:induction false} WellFormedChunks(chunks: seq<Bytes>)
    requires forall i | 0 <= i < |chunks| :: WellFormed(chunks[i])
    ensures DecodeEach(chunks) == Decode(Joined(chunks))
  {
    if chunks != [] {
      WellFormedChunks(chunks[1..]);
      DecodeAppend(chunks[0], Joined(chunks[1..]));
    }
  }

  lemma {:induction false} AsciiWellFormed(bs: Bytes)
    requires forall i | 0 <= i < |bs| :: bs[i] < 0x80
    ensures WellFormed(bs)
  {
    if bs != [] {
      AsciiWellFormed(bs[1..]);
    }
  }

  // ----- code points -----

  /** A Unicode scalar value. */
  predicate IsScalar(n: int) {
    0 <= n < 0xD800 || 0xE000 <= n < 0x11_0000
  }

  /** The bytes of a scalar value, from the table in section 3 of RFC 3629. */
  function Utf8Bytes(n: int): Bytes
    requires IsScalar(n)
  {
    if n < 0x80 then [n]
    else if n < 0x800 then [0xC0 + n / 0x40, 0x80 + n % 0x40]
    else if n < 0x1_0000 then [0xE0 + n / 0x1000, 0x80 + n / 0x40 % 0x40, 0x80 + n % 0x40]
    else [0xF0 + n / 0x4_0000, 0x80 + n / 0x1000 % 0x40, 0x80 + n / 0x40 % 0x40, 0x80 + n % 0x40]
  }

  /** The number whose digits to base 64 are high, and then the six low bits of each continuation byte. */
  function Base64(high: int, rest: Bytes): int {
    if rest == [] then high
    else
      var last := |rest| - 1;
      Base64(high, rest[..last]) * 0x40 + (rest[last] as int - 0x80)
  }

  /** The scalar value of a character. */
  function ScalarOf(bs: Bytes): (n: int)
    requires bs != []
  {
    var high := bs[0] as int - if |bs| == 1 then 0 else if |bs| == 2 then 0xC0 else if |bs| == 3 then 0xE0 else 0xF0;
    Base64(high, bs[1..])
  }

  lemma Base64Of(high: int, b: Byte, c: Byte, d: Byte)
    ensures Base64(high, []) == high
    ensures Base64(high, [b]) == high * 0x40 + (b as int - 0x80)
    ensures Base64(high, [b, c]) == Base64(high, [b]) * 0x40 + (c as int - 0x80)
    ensures Base64(high, [b, c, d]) == Base64(high, [b, c]) * 0x40 + (d as int - 0x80)
  {
    assert [b][..0] == [] && [b, c][..1] == [b] && [b, c, d][..2] == [b, c];
  }

  lemma LowBits(q: int, r: int)
    requires q >= 0 && 0 <= r < 0x40
    ensures (q * 0x40 + r) / 0x40 == q && (q * 0x40 + r) % 0x40 == r
    ensures q / 0x40 == (q * 0x40 + r) / 0x1000 && q / 0x1000 == (q * 0x40 + r) / 0x4_0000
  {
  }

  /** Every character the decoder accepts is the encoding of one scalar value, */
  lemma CharacterIsScalar(bs: Bytes)
    requires IsCharacter(Character(bs))
    ensures IsScalar(ScalarOf(bs)) && Utf8Bytes(ScalarOf(bs)) == bs
  {
    var a := bs[0] as int;
    if |bs| == 1 {
      assert bs[1..] == [] && bs == [bs[0]];
    } else if |bs| == 2 {
      assert bs[1..] == [bs[1]] && bs == [bs[0], bs[1]];
      Base64Of(a - 0xC0, bs[1], 0, 0);
      LowBits(a - 0xC0, bs[1] as int - 0x80);
    } else if |bs| == 3 {
      assert bs[1..] == [bs[1], bs[2]] && bs == [bs[0], bs[1], bs[2]];
      ThreeBytes(bs);
    } else {
      assert bs[1..] == [bs[1], bs[2], bs[3]] && bs == [bs[0], bs[1], bs[2], bs[3]];
      FourBytes(bs);
    }
  }

  lemma ThreeBytes(bs: Bytes)
    requires IsCharacter(Character(bs)) && |bs| == 3 && bs[1..] == [bs[1], bs[2]] && bs == [bs[0], bs[1], bs[2]]
    ensures IsScalar(ScalarOf(bs)) && Utf8Bytes(ScalarOf(bs)) == bs
  {
    var a, b, c := bs[0] as int - 0xE0, bs[1] as int - 0x80, bs[2] as int - 0x80;
    hide Base64;
    Base64Of(a, bs[1], bs[2], 0);
    LowBits(a, b);
    LowBits(a * 0x40 + b, c);
  }

  lemma FourBytes(bs: Bytes)
    requires IsCharacter(Character(bs)) && |bs| == 4
    requires bs[1..] == [bs[1], bs[2], bs[3]] && bs == [bs[0], bs[1], bs[2], bs[3]]
    ensures IsScalar(ScalarOf(bs)) && Utf8Bytes(ScalarOf(bs)) == bs
  {
    var a, b, c, d := bs[0] as int - 0xF0, bs[1] as int - 0x80, bs[2] as int - 0x80, bs[3] as int - 0x80;
    hide Base64;
    Base64Of(a, bs[1], bs[2], bs[3]);
    LowBits(a, b);
    LowBits(a * 0x40 + b, c);
    LowBits((a * 0x40 + b) * 0x40 + c, d);
  }

  lemma HighBits(n: int)
    requires n >= 0
    ensures n == n / 0x40 * 0x40 + n % 0x40 && n / 0x1000 == n / 0x40 / 0x40 && n / 0x4_0000 == n / 0x1000 / 0x40
  {
  }

  /** and every scalar value is encoded as such a character: the decoder knows UTF-8, and nothing else. */
  lemma ScalarIsCharacter(n: int)
    requires IsScalar(n)
    ensures IsCharacter(Character(Utf8Bytes(n))) && ScalarOf(Utf8Bytes(n)) == n
  {
    var bs := Utf8Bytes(n);
    if |bs| == 1 {
      assert bs[1..] == [];
    } else if |bs| == 2 {
      assert bs[1..] == [bs[1]];
      HighBits(n);
      Base64Of(n / 0x40, bs[1], 0, 0);
    } else if |bs| == 3 {
      ScalarOfThree(n);
    } else {
      ScalarOfFour(n);
    }
  }

  lemma ScalarOfThree(n: int)
    requires IsScalar(n) && 0x800 <= n < 0x1_0000
    ensures IsCharacter(Character(Utf8Bytes(n))) && ScalarOf(Utf8Bytes(n)) == n
  {
    HighBits(n);
    HighBits(n / 0x40);
    var bs := Utf8Bytes(n);
    assert bs[1..] == [bs[1], bs[2]];
    hide Base64;
    Base64Of(n / 0x1000, bs[1], bs[2], 0);
  }

  lemma ScalarOfFour(n: int)
    requires IsScalar(n) && n >= 0x1_0000
    ensures IsCharacter(Character(Utf8Bytes(n))) && ScalarOf(Utf8Bytes(n)) == n
  {
    HighBits(n);
    HighBits(n / 0x40);
    HighBits(n / 0x1000);
    var bs := Utf8Bytes(n);
    assert bs[1..] == [bs[1], bs[2], bs[3]];
    hide Base64;
    Base64Of(n / 0x4_0000, bs[1], bs[2], bs[3]);
  }

  /** The UTF-8 of a string. */
  function StringBytes(s: string): Bytes {
    if s == "" then [] else Utf8Bytes(s[0] as int) + StringBytes(s[1..])
  }

  lemma {:induction false} StringIsText(s: string)
    ensures WellFormed(StringBytes(s)) && |Decode(StringBytes(s))| == |s|
    ensures forall i | 0 <= i < |s| :: Decode(StringBytes(s))[i] == Character(Utf8Bytes(s[i] as int))
  {
    if s != "" {
      var first, rest := Utf8Bytes(s[0] as int), StringBytes(s[1..]);
      StringIsText(s[1..]);
      ScalarIsCharacter(s[0] as int);
      hide Utf8Bytes, StartsCharacter, Width;
      DecodeFront(first, rest);
      FrontWellFormed(first, rest);
      assert first[..|first|] == first && first[|first|..] + rest == rest;
    }
  }

  lemma FrontWellFormed(first: Bytes, rest: Bytes)
    requires IsCharacter(Character(first)) && WellFormed(rest)
    ensures WellFormed(first + rest)
  {
    assert (first + rest)[|first|..] == rest;
  }

  /** Different strings have different bytes. */
  lemma StringBytesInjective(s: string, t: string)
    requires StringBytes(s) == StringBytes(t)
    ensures s == t
  {
    StringIsText(s);
    StringIsText(t);
    hide Utf8Bytes, StringBytes;
    forall i | 0 <= i < |s| ensures s[i] == t[i] {
      ScalarIsCharacter(s[i] as int);
      ScalarIsCharacter(t[i] as int);
    }
  }
}

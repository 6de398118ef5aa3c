/** The bytes on the wire: compact-encoding's primitives, arrays of items and length-framed items. The
    library is not part of the repository, so these definitions are modelling assumptions (see README). */
module Wire {
  import opened Wrappers

  type Byte = x: int | 0 <= x < 0x100
  type Bytes = seq<Byte>

  datatype Error = OutOfBounds | ArrayTooBig | UnknownEnum

  /** What is left after reading a value from the front of some bytes. */
  datatype Parsed<+T> = Ok(value: T, rest: Bytes) | Err(error: Error) {
    predicate IsFailure() {
      Err?
    }

    function PropagateFailure<U>(): Parsed<U>
      requires Err?
    {
      Err(error)
    }

    function Extract(): (T, Bytes)
      requires Ok?
    {
      (value, rest)
    }
  }

  const U64 := 0x1_0000_0000_0000_0000

  // ----- compact-encoding primitives -----

  function Pow256(k: nat): nat {
    if k == 0 then 1 else 0x100 * Pow256(k - 1)
  }

  /** The k low bytes of n, least significant first. */
  function LittleEndian(n: nat, k: nat): (bs: Bytes)
    ensures |bs| == k
  {
    if k == 0 then [] else [n % 0x100] + LittleEndian(n / 0x100, k - 1)
  }

  function FromLittleEndian(bs: Bytes): nat {
    if bs == [] then 0 else bs[0] + 0x100 * FromLittleEndian(bs[1..])
  }

  /** How many bytes follow the first byte of a uint. */
  function UintTail(first: Byte): nat {
    if first <= 0xfc then 0 else if first == 0xfd then 2 else if first == 0xfe then 4 else 8
  }

  function UintSize(n: nat): nat {
    if n <= 0xfc then 1 else if n <= 0xffff then 3 else if n <= 0xffff_ffff then 5 else 9
  }

  function UintMarker(n: nat): Byte {
    if n <= 0xfc then n else if n <= 0xffff then 0xfd else if n <= 0xffff_ffff then 0xfe else 0xff
  }

  function UintBytes(n: nat): (bs: Bytes)
    ensures |bs| == UintSize(n)
  {
    [UintMarker(n)] + LittleEndian(n, UintTail(UintMarker(n)))
  }

  function ParseUint(bs: Bytes): (p: Parsed<nat>)
    ensures p.Ok? ==> |p.rest| < |bs|
  {
    if bs == [] then Err(OutOfBounds)
    else
      var k := UintTail(bs[0]);
      if |bs| - 1 < k then Err(OutOfBounds)
      else Ok(if k == 0 then bs[0] else FromLittleEndian(bs[1..1 + k]), bs[1 + k..])
  }

  /** Strings and buffers: a length, then that many bytes. */
  function BlockBytes(b: Bytes): (bs: Bytes)
    ensures |bs| == UintSize(|b|) + |b|
  {
    UintBytes(|b|) + b
  }

  function ParseBlock(bs: Bytes): (p: Parsed<Bytes>)
    ensures p.Ok? ==> |p.rest| < |bs|
  {
    var (n, r) :- ParseUint(bs);
    if |r| < n then Err(OutOfBounds) else Ok(r[..n], r[n..])
  }

  lemma {:induction false} LittleEndianRoundTrip(n: nat, k: nat)
    requires n < Pow256(k)
    ensures FromLittleEndian(LittleEndian(n, k)) == n
  {
    if k > 0 {
      LittleEndianRoundTrip(n / 0x100, k - 1);
      assert LittleEndian(n, k)[1..] == LittleEndian(n / 0x100, k - 1);
    }
  }

  lemma Pow256Widths()
    ensures Pow256(2) == 0x1_0000 && Pow256(4) == 0x1_0000_0000 && Pow256(8) == U64
  {
    assert Pow256(3) == 0x100_0000;
    assert Pow256(6) == 0x100 * (0x100 * Pow256(4));
  }

  lemma UintRoundTrip(n: nat, rest: Bytes)
    requires n < U64
    ensures ParseUint(UintBytes(n) + rest) == Ok(n, rest)
  {
    var k := UintTail(UintMarker(n));
    var bs := UintBytes(n) + rest;
    Pow256Widths();
    if k > 0 {
      LittleEndianRoundTrip(n, k);
    }
    assert bs[1..1 + k] == LittleEndian(n, k);
    assert bs[1 + k..] == rest;
  }

  lemma UintStable(bs: Bytes, more: Bytes)
    requires ParseUint(bs).Ok?
    ensures ParseUint(bs + more) == Ok(ParseUint(bs).value, ParseUint(bs).rest + more)
  {
    var k := UintTail(bs[0]);
    assert (bs + more)[1..1 + k] == bs[1..1 + k];
    assert (bs + more)[1 + k..] == bs[1 + k..] + more;
  }

  lemma BlockRoundTrip(b: Bytes, rest: Bytes)
    requires |b| < U64
    ensures ParseBlock(BlockBytes(b) + rest) == Ok(b, rest)
  {
    UintRoundTrip(|b|, b + rest);
    assert BlockBytes(b) + rest == UintBytes(|b|) + (b + rest);
    assert (b + rest)[..|b|] == b && (b + rest)[|b|..] == rest;
  }

  lemma BlockStable(bs: Bytes, more: Bytes)
    requires ParseBlock(bs).Ok?
    ensures ParseBlock(bs + more) == Ok(ParseBlock(bs).value, ParseBlock(bs).rest + more)
  {
    UintStable(bs, more);
    var n, r := ParseUint(bs).value, ParseUint(bs).rest;
    assert (r + more)[..n] == r[..n];
    assert (r + more)[n..] == r[n..] + more;
  }

  // ----- laws of a reader -----

  /** Reading with dec undoes writing bs for item, whatever follows. */
  ghost predicate Reads<T(!new)>(dec: Bytes -> Parsed<T>, bs: Bytes, item: T) {
    forall rest: Bytes :: dec(bs + rest) == Ok(item, rest)
  }

  /** What one reader makes of bytes does not change when more bytes follow. */
  ghost predicate IsStable<T(!new)>(dec: Bytes -> Parsed<T>) {
    forall bs: Bytes, more: Bytes ::
      dec(bs).Ok? ==> dec(bs + more) == Ok(dec(bs).value, dec(bs).rest + more)
  }

  /** Reading undoes writing and nothing read depends on what follows. */
  ghost predicate Lawful<T(!new)>(dec: Bytes -> Parsed<T>, enc: T -> Bytes, fits: T -> bool) {
    IsStable(dec) && forall m: T :: fits(m) ==> Reads(dec, enc(m), m)
  }

  lemma Join(a: Bytes, b: Bytes, c: Bytes)
    ensures a + b + c == a + (b + c)
  {
  }

  lemma Join3(w: Bytes, a: Bytes, b: Bytes, c: Bytes)
    ensures w + a + b + c == w + (a + b + c)
  {
  }

  lemma Join4(w: Bytes, a: Bytes, b: Bytes, c: Bytes, d: Bytes)
    ensures w + a + b + c + d == w + (a + b + c + d)
  {
  }

  lemma Join5(w: Bytes, a: Bytes, b: Bytes, c: Bytes, d: Bytes, e: Bytes)
    ensures w + a + b + c + d + e == w + (a + b + c + d + e)
  {
  }

  lemma BlockReads(b: Bytes)
    requires |b| < U64
    ensures Reads(ParseBlock, BlockBytes(b), b)
  {
    forall rest: Bytes ensures ParseBlock(BlockBytes(b) + rest) == Ok(b, rest) {
      BlockRoundTrip(b, rest);
    }
  }

  lemma UintReads(n: nat)
    requires n < U64
    ensures Reads(ParseUint, UintBytes(n), n)
  {
    forall rest: Bytes ensures ParseUint(UintBytes(n) + rest) == Ok(n, rest) {
      UintRoundTrip(n, rest);
    }
  }

  // ----- enums, optional fields, flag words -----

  /** An index outside 1..size reads as 0, the unknown value. */
  function ParseEnum(size: nat, bs: Bytes): (p: Parsed<nat>)
    ensures p.Ok? ==> p.value <= size
  {
    var (n, r) :- ParseUint(bs);
    Ok(if n <= size then n else 0, r)
  }

  function EnumParser(size: nat): Bytes -> Parsed<nat> {
    bs => ParseEnum(size, bs)
  }

  lemma EnumReads(size: nat, index: nat)
    requires index <= size < U64
    ensures Reads(EnumParser(size), UintBytes(index), index)
  {
    forall rest: Bytes ensures EnumParser(size)(UintBytes(index) + rest) == Ok(index, rest) {
      UintRoundTrip(index, rest);
    }
  }

  lemma EnumStable(size: nat, bs: Bytes, more: Bytes)
    requires ParseEnum(size, bs).Ok?
    ensures ParseEnum(size, bs + more) == Ok(ParseEnum(size, bs).value, ParseEnum(size, bs).rest + more)
  {
    UintStable(bs, more);
  }

  function OptBytes(o: Option<Bytes>): Bytes {
    if o.Some? then BlockBytes(o.value) else []
  }

  predicate OptFits(o: Option<Bytes>) {
    o.Some? ==> |o.value| < U64
  }

  function ParseOpt(present: bool, bs: Bytes): Parsed<Option<Bytes>> {
    if present then
      var (b, r) :- ParseBlock(bs);
      Ok(Some(b), r)
    else Ok(None, bs)
  }

  /** The reader of an optional field, given the flag word. */
  function OptParser(flags: nat, bit: nat): Bytes -> Parsed<Option<Bytes>>
    requires bit > 0
  {
    bs => ParseOpt(Has(flags, bit), bs)
  }

  lemma OptReads(o: Option<Bytes>, flags: nat, bit: nat)
    requires bit > 0 && Has(flags, bit) == o.Some?
    requires OptFits(o)
    ensures Reads(OptParser(flags, bit), OptBytes(o), o)
  {
    forall rest: Bytes ensures OptParser(flags, bit)(OptBytes(o) + rest) == Ok(o, rest) {
      if o.Some? {
        BlockRoundTrip(o.value, rest);
      } else {
        assert [] + rest == rest;
      }
    }
  }

  lemma OptStable(present: bool, bs: Bytes, more: Bytes)
    requires ParseOpt(present, bs).Ok?
    ensures ParseOpt(present, bs + more) == Ok(ParseOpt(present, bs).value, ParseOpt(present, bs).rest + more)
  {
    if present {
      BlockStable(bs, more);
    }
  }

  /** The flag bit an optional field contributes. */
  function Bit(o: Option<Bytes>, bit: nat): nat {
    if o.Some? then bit else 0
  }

  /** flags & bit != 0, for bit a power of two. */
  predicate Has(flags: nat, bit: nat)
    requires bit > 0
  {
    flags / bit % 2 == 1
  }

  // ----- arrays and frames -----

  /** Length-prefixed blocks in a row: the strings of a string array, or the frames of a struct array. */
  function Blocks(contents: seq<Bytes>): Bytes {
    if contents == [] then [] else BlockBytes(contents[0]) + Blocks(contents[1..])
  }

  function ArrayBytes(contents: seq<Bytes>): Bytes {
    UintBytes(|contents|) + Blocks(contents)
  }

  function ParseEach<T>(dec: Bytes -> Parsed<T>, n: nat, bs: Bytes): (p: Parsed<seq<T>>)
    ensures p.Ok? ==> |p.value| == n
  {
    if n == 0 then Ok([], bs)
    else
      var (item, r) :- dec(bs);
      var (items, r') :- ParseEach(dec, n - 1, r);
      Ok([item] + items, r')
  }

  /** max is compact-encoding's MaxArrayLength; only the reader checks it. */
  function ParseArray<T>(max: nat, dec: Bytes -> Parsed<T>, bs: Bytes): Parsed<seq<T>> {
    var (n, r) :- ParseUint(bs);
    if n > max then Err(ArrayTooBig) else ParseEach(dec, n, r)
  }

  /** Read a length, give dec exactly that many bytes, and resume after them whatever dec left over. */
  function ParseFrame<T>(dec: Bytes -> Parsed<T>, bs: Bytes): Parsed<T> {
    var (content, r) :- ParseBlock(bs);
    var (item, _) :- dec(content);
    Ok(item, r)
  }

  lemma {:induction false} EachRoundTrip<T(!new)>(dec: Bytes -> Parsed<T>, contents: seq<Bytes>, items: seq<T>,
                                           rest: Bytes)
    requires |contents| == |items|
    requires forall i | 0 <= i < |items| :: Reads(dec, BlockBytes(contents[i]), items[i])
    ensures ParseEach(dec, |items|, Blocks(contents) + rest) == Ok(items, rest)
    decreases |items|
  {
    if items == [] {
      assert [] + rest == rest;
    } else {
      var later := Blocks(contents[1..]) + rest;
      Join(BlockBytes(contents[0]), Blocks(contents[1..]), rest);
      assert Reads(dec, BlockBytes(contents[0]), items[0]);
      EachRoundTrip(dec, contents[1..], items[1..], rest);
      assert items == [items[0]] + items[1..];
    }
  }

  /** An array reads back exactly when it is no longer than the reader's limit. */
  lemma ArrayRoundTrip<T(!new)>(max: nat, dec: Bytes -> Parsed<T>, contents: seq<Bytes>, items: seq<T>, rest: Bytes)
    requires |contents| == |items| < U64
    requires forall i | 0 <= i < |items| :: Reads(dec, BlockBytes(contents[i]), items[i])
    ensures ParseArray(max, dec, ArrayBytes(contents) + rest)
            == if |items| <= max then Ok(items, rest) else Err(ArrayTooBig)
  {
    Join(UintBytes(|items|), Blocks(contents), rest);
    UintRoundTrip(|items|, Blocks(contents) + rest);
    EachRoundTrip(dec, contents, items, rest);
  }

  lemma {:induction false} EachStable<T(!new)>(dec: Bytes -> Parsed<T>, n: nat, bs: Bytes, more: Bytes)
    requires IsStable(dec) && ParseEach(dec, n, bs).Ok?
    ensures ParseEach(dec, n, bs + more) == Ok(ParseEach(dec, n, bs).value, ParseEach(dec, n, bs).rest + more)
  {
    if n > 0 {
      EachStable(dec, n - 1, dec(bs).rest, more);
    }
  }

  lemma ArrayStable<T(!new)>(max: nat, dec: Bytes -> Parsed<T>, bs: Bytes, more: Bytes)
    requires IsStable(dec) && ParseArray(max, dec, bs).Ok?
    ensures ParseArray(max, dec, bs + more) == Ok(ParseArray(max, dec, bs).value, ParseArray(max, dec, bs).rest + more)
  {
    UintStable(bs, more);
    EachStable(dec, ParseUint(bs).value, ParseUint(bs).rest, more);
  }

  lemma {:induction false} BlocksConcat(a: seq<Bytes>, b: seq<Bytes>)
    ensures Blocks(a + b) == Blocks(a) + Blocks(b)
  {
    if a == [] {
      assert a + b == b;
    } else {
      BlocksConcat(a[1..], b);
      assert (a + b)[1..] == a[1..] + b;
      Join(BlockBytes(a[0]), Blocks(a[1..]), Blocks(b));
    }
  }

  /** The order the encoding loops work in: the first i blocks, then block i, then the others. */
  lemma BlocksStep(contents: seq<Bytes>, i: nat)
    requires i < |contents|
    ensures Blocks(contents[..i + 1]) == Blocks(contents[..i]) + BlockBytes(contents[i])
    ensures |Blocks(contents[..i + 1])| <= |Blocks(contents)|
  {
    assert contents[..i + 1] == contents[..i] + [contents[i]];
    BlocksConcat(contents[..i], [contents[i]]);
    var one := [contents[i]];
    assert one[1..] == [];
    assert Blocks(one) == BlockBytes(contents[i]) + [];
    assert contents == contents[..i + 1] + contents[i + 1..];
    BlocksConcat(contents[..i + 1], contents[i + 1..]);
  }

  /** One more item at the end: the order the decoding loops work in. */
  lemma {:induction false} ParseEachAppend<T>(dec: Bytes -> Parsed<T>, n: nat, bs: Bytes)
    ensures var p := ParseEach(dec, n, bs);
            p.Err? ==> ParseEach(dec, n + 1, bs) == Err(p.error)
    ensures var p := ParseEach(dec, n, bs);
            p.Ok? ==>
              var q := dec(p.rest);
              ParseEach(dec, n + 1, bs) == if q.Ok? then Ok(p.value + [q.value], q.rest) else Err(q.error)
  {
    if n == 0 {
      var q := dec(bs);
      assert ParseEach(dec, 0, bs) == Ok([], bs);
      if q.Ok? {
        assert ParseEach(dec, 0, q.rest) == Ok([], q.rest);
        assert [q.value] + [] == [] + [q.value];
      }
    } else if dec(bs).Ok? {
      ParseEachAppend(dec, n - 1, dec(bs).rest);
      var p := ParseEach(dec, n - 1, dec(bs).rest);
      if p.Ok? && dec(p.rest).Ok? {
        assert [dec(bs).value] + (p.value + [dec(p.rest).value]) == [dec(bs).value] + p.value + [dec(p.rest).value];
      }
    }
  }

  /** An error among the first items is the array's error. */
  lemma {:induction false} ParseEachError<T>(dec: Bytes -> Parsed<T>, m: nat, n: nat, bs: Bytes)
    requires m <= n && ParseEach(dec, m, bs).Err?
    ensures ParseEach(dec, n, bs) == Err(ParseEach(dec, m, bs).error)
  {
    if m < n {
      ParseEachError(dec, m, n - 1, bs);
      ParseEachAppend(dec, n - 1, bs);
    }
  }

  /** A frame reads back its struct even when its declared length covers trailing bytes. */
  lemma FrameReads<T>(dec: Bytes -> Parsed<T>, content: Bytes, item: T, rest: Bytes)
    requires |content| < U64 && dec(content).Ok? && dec(content).value == item
    ensures ParseFrame(dec, BlockBytes(content) + rest) == Ok(item, rest)
  {
    BlockRoundTrip(content, rest);
  }

  lemma FrameStable<T>(dec: Bytes -> Parsed<T>, bs: Bytes, more: Bytes)
    requires ParseFrame(dec, bs).Ok?
    ensures ParseFrame(dec, bs + more) == Ok(ParseFrame(dec, bs).value, ParseFrame(dec, bs).rest + more)
  {
    BlockStable(bs, more);
  }

  /** A uint reads the same when what follows it is cut short. */
  lemma UintFront(bs: Bytes, n: nat)
    requires ParseUint(bs).Ok? && n <= |ParseUint(bs).rest|
    ensures var r := ParseUint(bs).rest;
            ParseUint(bs[..|bs| - |r| + n]) == Ok(ParseUint(bs).value, r[..n])
  {
    var k := 1 + UintTail(bs[0]);
    var front := bs[..k + n];
    assert front[1..k] == bs[1..k];
    assert front[k..] == bs[k..][..n];
  }

  /** Whatever the bytes, valid or not, and whatever the inner reader: once the length check passes, a
      frame is read from inside its declared length alone and reading resumes just after it, so what
      follows the frame cannot influence the item, or whether it reads. */
  lemma FrameContained<T>(dec: Bytes -> Parsed<T>, bs: Bytes, other: Bytes)
    requires ParseBlock(bs).Ok?
    ensures var frame := bs[..|bs| - |ParseBlock(bs).rest|];
            var p := dec(ParseBlock(bs).value);
            ParseFrame(dec, frame + other) == if p.Ok? then Ok(p.value, other) else Err(p.error)
  {
    var n := ParseUint(bs).value;
    var content := ParseUint(bs).rest[..n];
    UintFront(bs, n);
    var frame := bs[..|bs| - |ParseBlock(bs).rest|];
    assert content[..n] == content && content[n..] == [];
    assert ParseBlock(frame) == Ok(content, []);
    BlockStable(frame, other);
    assert [] + other == other;
  }
}

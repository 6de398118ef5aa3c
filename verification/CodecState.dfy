/** The cursor both codecs share: cenc.State in Go, the compact-encoding state in JavaScript, and the
    primitive codecs that move it. The library itself is not part of the repository, so these
    primitives are modelling assumptions (see README). */
module CodecState {
  import opened Wire
  import opened Wrappers

  class State {
    var buffer: array<Byte>
    var Start: nat
    var End: nat
    /** The bytes written so far, kept equal to buffer[..Start] by every writing method. */
    ghost var out: Bytes
    /** The bytes still to be read, kept equal to buffer[Start..End] by every reading method. */
    ghost var left: Bytes
    // cenc.MaxArrayLength
    const max: nat

    /** A state with no buffer yet; Preencode grows End. */
    constructor (max: nat)
      ensures fresh(buffer) && buffer.Length == 0 && Start == 0 && End == 0 && this.max == max
    {
      out, left := [], [];
      this.max := max;
      buffer := new Byte[0];
      Start, End := 0, 0;
    }

    /** A state over received bytes. */
    constructor Over(data: Bytes, max: nat)
      ensures Readable() && fresh(buffer) && Start == 0 && left == data && this.max == max
    {
      out, left := [], data;
      this.max := max;
      var b := new Byte[|data|](i requires 0 <= i < |data| => data[i]);
      buffer := b;
      Start, End := 0, |data|;
    }

    /** Reserve the bytes Preencode asked for. */
    method Allocate()
      modifies this`buffer, this`Start, this`out
      ensures fresh(buffer) && Writable() && Start == 0 && buffer.Length == End && out == []
    {
      out := [];
      buffer := new Byte[End];
      Start := 0;
    }

    ghost predicate Ready()
      reads this
    {
      Start <= End <= buffer.Length
    }

    ghost predicate Readable()
      reads this, buffer
    {
      Ready() && left == buffer[Start..End]
    }

    ghost predicate Writable()
      reads this, buffer
    {
      Ready() && out == buffer[..Start]
    }

    /** Since the old state, exactly bs was written at the cursor. */
    twostate predicate Wrote(bs: Bytes)
      reads this, buffer
    {
      Writable() && out == old(out) + bs
    }

    // ----- uint -----

    method PreencodeUint(n: nat)
      modifies this`End
      ensures End == old(End) + UintSize(n)
    {
      End := End + (if n <= 0xfc then 1 else if n <= 0xffff then 3 else if n <= 0xffff_ffff then 5 else 9);
    }

    method EncodeUint(n: nat) returns (err: Outcome<Error>)
      requires Writable()
      modifies this`Start, this`out, buffer
      ensures err.Pass? <==> old(Start) + UintSize(n) <= End
      ensures err.Pass? ==> Wrote(UintBytes(n))
      ensures err.Fail? ==> err.error == OutOfBounds && Writable()
    {
      var k := if n <= 0xfc then 0 else if n <= 0xffff then 2 else if n <= 0xffff_ffff then 4 else 8;
      if End - Start < 1 + k {
        return Fail(OutOfBounds);
      }
      ghost var before := out;
      Put(if k == 0 then n else if k == 2 then 0xfd else if k == 4 then 0xfe else 0xff);
      PutLittleEndian(n, k);
      assert out == before + UintBytes(n);
      return Pass;
    }

    method Put(b: Byte)
      requires Writable() && Start < End
      modifies this`Start, this`out, buffer
      ensures Wrote([b])
    {
      buffer[Start] := b;
      Start := Start + 1;
      out := out + [b];
    }

    method PutLittleEndian(n: nat, k: nat)
      requires Writable() && k <= End - Start
      modifies this`Start, this`out, buffer
      ensures Wrote(LittleEndian(n, k))
    {
      var m := n;
      ghost var written: Bytes := [];
      for i := 0 to k
        invariant Writable() && k - i <= End - Start
        invariant |written| == i && Wrote(written)
        invariant written + LittleEndian(m, k - i) == LittleEndian(n, k)
      {
        ghost var tail := LittleEndian(m / 0x100, k - i - 1);
        ghost var before := out;
        Put(m % 0x100);
        assert written + ([m % 0x100] + tail) == written + [m % 0x100] + tail;
        assert out == before + [m % 0x100];
        written := written + [m % 0x100];
        m := m / 0x100;
      }
    }

    method DecodeUint() returns (r: Result<nat, Error>)
      requires Readable()
      modifies this`Start, this`left
      ensures Readable()
      ensures r.Success? ==> ParseUint(old(left)) == Ok(r.value, left)
      ensures r.Failure? ==> ParseUint(old(left)) == Err(r.error)
    {
      ghost var bs := left;
      if Start >= End {
        return Failure(OutOfBounds);
      }
      var first := buffer[Start];
      var k := if first <= 0xfc then 0 else if first == 0xfd then 2 else if first == 0xfe then 4 else 8;
      Start := Start + 1;
      left := left[1..];
      if k == 0 {
        return Success(first);
      }
      if End - Start < k {
        return Failure(OutOfBounds);
      }
      var n := GetLittleEndian(k);
      assert bs[1..1 + k] == left[..k];
      Start := Start + k;
      left := left[k..];
      assert left == bs[1 + k..];
      return Success(n);
    }

    method GetLittleEndian(k: nat) returns (n: nat)
      requires Readable() && k <= End - Start
      ensures n == FromLittleEndian(left[..k])
    {
      n := 0;
      var i := k;
      while i > 0
        invariant 0 <= i <= k
        invariant n == FromLittleEndian(left[i..k])
      {
        i := i - 1;
        var byte := buffer[Start + i];
        ghost var more := left[i + 1..k];
        assert byte == left[i];
        assert left[i..k] == [byte] + more;
        assert ([byte] + more)[1..] == more;
        n := byte + 0x100 * n;
      }
    }

    // ----- strings and buffers -----

    method PreencodeBlock(b: Bytes)
      modifies this`End
      ensures End == old(End) + UintSize(|b|) + |b|
    {
      PreencodeUint(|b|);
      End := End + |b|;
    }

    method EncodeBlock(b: Bytes) returns (err: Outcome<Error>)
      requires Writable()
      modifies this`Start, this`out, buffer
      ensures err.Pass? <==> old(Start) + |BlockBytes(b)| <= End
      ensures err.Pass? ==> Wrote(BlockBytes(b))
      ensures err.Fail? ==> err.error == OutOfBounds && Writable()
    {
      ghost var before := out;
      :- EncodeUint(|b|);
      if End - Start < |b| {
        return Fail(OutOfBounds);
      }
      forall i | 0 <= i < |b| {
        buffer[Start + i] := b[i];
      }
      Start := Start + |b|;
      out := out + b;
      assert out == before + BlockBytes(b);
      return Pass;
    }

    method DecodeBlock() returns (block: Result<Bytes, Error>)
      requires Readable()
      modifies this`Start, this`left
      ensures Readable()
      ensures block.Success? ==> ParseBlock(old(left)) == Ok(block.value, left)
      ensures block.Failure? ==> ParseBlock(old(left)) == Err(block.error)
    {
      var n :- DecodeUint();
      if End - Start < n {
        return Failure(OutOfBounds);
      }
      var b := buffer[Start..Start + n];
      assert b == left[..n];
      Start := Start + n;
      left := left[n..];
      return Success(b);
    }
  }
}

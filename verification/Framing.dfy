/** Newline-delimited frames over a byte stream: the readJSON and writeJSON of the examples. A text is the
    characters it decodes to. */
module Framing {
  import opened Utf8
  import opened Wire

  type Text = seq<Character>

  const NEWLINE := Character([0x0A])

  /** The first newline at or after i, or |s| if there is none. */
  function IndexOfNewline(s: Text, i: nat := 0): (k: nat)
    requires i <= |s|
    ensures i <= k <= |s| && (forall j | i <= j < k :: s[j] != NEWLINE) && (k < |s| ==> s[k] == NEWLINE)
    decreases |s| - i
  {
    if i == |s| || s[i] == NEWLINE then i else IndexOfNewline(s, i + 1)
  }

  /** The complete lines of s, without their newlines. */
  function Lines(s: Text): seq<Text>
    decreases |s|
  {
    var k := IndexOfNewline(s);
    if k == |s| then [] else [s[..k]] + Lines(s[k + 1..])
  }

  /** What follows the last newline of s. */
  function Remainder(s: Text): (r: Text)
    ensures NEWLINE !in r
    decreases |s|
  {
    var k := IndexOfNewline(s);
    if k == |s| then s else Remainder(s[k + 1..])
  }

  function NonEmpty(lines: seq<Text>): seq<Text> {
    if lines == [] then []
    else (if lines[0] == [] then [] else [lines[0]]) + NonEmpty(lines[1..])
  }

  /** writeJSON: JSON text holds no newline, so each message is one line. */
  function Frame(text: Text): Text {
    text + [NEWLINE]
  }

  function FrameAll(texts: seq<Text>): Text {
    if texts == [] then [] else Frame(texts[0]) + FrameAll(texts[1..])
  }

  /** kept is the lines that are not empty, in order. */
  ghost predicate Kept(lines: seq<Text>, kept: seq<Text>, index: seq<nat>) {
    && |kept| == |index|
    && (forall i, j | 0 <= i < j < |index| :: index[i] < index[j])
    && (forall i | 0 <= i < |index| :: index[i] < |lines| && kept[i] == lines[index[i]])
    && forall i | 0 <= i < |lines| :: i in index <==> lines[i] != []
  }

  predicate OneLiners(lines: seq<Text>) {
    forall i | 0 <= i < |lines| :: NEWLINE !in lines[i]
  }

  /** s is complete lines and then rest, which is on no line yet; delivered is those of the lines that are not empty. */
  ghost predicate Read(s: Text, delivered: seq<Text>, rest: Text) {
    && NEWLINE !in rest
    && exists lines, index ::
         && FrameAll(lines) + rest == s && OneLiners(lines)
         && Kept(lines, delivered, index)
  }

  /** The closure readJSON keeps for one socket. */
  class Reader {
    var buf: Text

    constructor ()
      ensures buf == []
    {
      buf := [];
    }

    /** One 'data' event: the lines handed to the callback. Each chunk is converted on its own. */
    method OnData(data: Bytes) returns (delivered: seq<Text>)
      modifies this
      ensures delivered == NonEmpty(Lines(old(buf) + Decode(data)))
      ensures buf == Remainder(old(buf) + Decode(data))
      ensures Read(old(buf) + Decode(data), delivered, buf)
    {
      hide Lines, Remainder, NonEmpty, Decode, Read;
      buf := buf + Decode(data);
      LinesRead(buf);
      delivered := [];
      ghost var whole := buf;
      var nl := IndexOfNewline(buf);
      while nl != |buf|
        invariant nl == IndexOfNewline(buf)
        invariant delivered + NonEmpty(Lines(buf)) == NonEmpty(Lines(whole))
        invariant Remainder(buf) == Remainder(whole)
        decreases |buf|
      {
        TakeLine(buf, nl, delivered);
        var line := buf[..nl];
        buf := buf[nl + 1..];
        if line != [] {
          delivered := delivered + [line];
        }
        nl := IndexOfNewline(buf);
      }
      NoLine(buf, delivered);
    }
  }

  /** The lines of a text and what follows them are the text. */
  lemma {:induction false} LinesWhole(s: Text)
    ensures FrameAll(Lines(s)) + Remainder(s) == s && OneLiners(Lines(s))
    decreases |s|
  {
    hide Lines, Remainder, FrameAll, OneLiners;
    var k := IndexOfNewline(s);
    if k < |s| {
      var line, rest := s[..k], s[k + 1..];
      LinesWhole(rest);
      assert s == line + [NEWLINE] + rest;
      LinesCons(line, rest);
      FramesCons(line, Lines(rest));
      Joined3(line + [NEWLINE], FrameAll(Lines(rest)), Remainder(rest));
    } else {
      LastLine(s);
    }
  }

  lemma LastLine(s: Text)
    requires IndexOfNewline(s) == |s|
    ensures OneLiners(Lines(s)) && FrameAll(Lines(s)) + Remainder(s) == s
  {
    assert [] + s == s;
  }

  lemma FramesCons(line: Text, lines: seq<Text>)
    ensures FrameAll([line] + lines) == line + [NEWLINE] + FrameAll(lines)
    ensures OneLiners([line] + lines) <==> NEWLINE !in line && OneLiners(lines)
  {
    assert forall i | 0 < i <= |lines| :: ([line] + lines)[i] == lines[i - 1];
    assert ([line] + lines)[0] == line;
    assert ([line] + lines)[1..] == lines;
  }

  lemma {:induction false} KeptNonEmpty(lines: seq<Text>) returns (index: seq<nat>)
    ensures Kept(lines, NonEmpty(lines), index)
  {
    if lines == [] {
      index := [];
    } else {
      var later := KeptNonEmpty(lines[1..]);
      var shifted := seq(|later|, i requires 0 <= i < |later| => later[i] + 1);
      ShiftedKept(lines, NonEmpty(lines[1..]), later, shifted);
      index := if lines[0] == [] then shifted else [0] + shifted;
      assert [] + NonEmpty(lines[1..]) == NonEmpty(lines[1..]);
    }
  }

  /** The same places, counted from one line earlier. */
  ghost predicate Shifted(later: seq<nat>, shifted: seq<nat>) {
    |shifted| == |later| && forall i | 0 <= i < |later| :: shifted[i] == later[i] + 1
  }

  lemma ShiftedAt(lines: seq<Text>, kept: seq<Text>, later: seq<nat>, shifted: seq<nat>, i: nat)
    requires lines != [] && Kept(lines[1..], kept, later) && Shifted(later, shifted)
    requires 0 < i < |lines|
    ensures i in shifted <==> lines[i] != []
  {
    assert lines[1..][i - 1] == lines[i];
    if lines[i] != [] {
      var j :| 0 <= j < |later| && later[j] == i - 1;
      assert shifted[j] == i;
    }
  }

  lemma ShiftedInOrder(lines: seq<Text>, kept: seq<Text>, later: seq<nat>, shifted: seq<nat>)
    requires lines != [] && Kept(lines[1..], kept, later) && Shifted(later, shifted)
    ensures |kept| == |shifted| && forall i, j | 0 <= i < j < |shifted| :: shifted[i] < shifted[j]
    ensures forall i | 0 <= i < |shifted| :: 0 < shifted[i] < |lines| && kept[i] == lines[shifted[i]]
  {
    forall i | 0 <= i < |shifted| ensures 0 < shifted[i] < |lines| && kept[i] == lines[shifted[i]] {
      assert later[i] < |lines[1..]| && lines[1..][later[i]] == lines[later[i] + 1];
    }
  }

  lemma ShiftedKept(lines: seq<Text>, kept: seq<Text>, later: seq<nat>, shifted: seq<nat>)
    requires lines != [] && Kept(lines[1..], kept, later) && Shifted(later, shifted)
    ensures lines[0] == [] ==> Kept(lines, kept, shifted)
    ensures lines[0] != [] ==> Kept(lines, [lines[0]] + kept, [0] + shifted)
  {
    ShiftedInOrder(lines, kept, later, shifted);
    forall i | 0 < i < |lines| ensures i in shifted <==> lines[i] != [] {
      ShiftedAt(lines, kept, later, shifted, i);
    }
    if lines[0] != [] {
      hide Kept;
      WithFirst(lines, kept, shifted);
    } else {
      WithoutFirst(lines, kept, shifted);
    }
  }

  lemma WithoutFirst(lines: seq<Text>, kept: seq<Text>, shifted: seq<nat>)
    requires lines != [] && lines[0] == [] && |kept| == |shifted|
    requires forall i, j | 0 <= i < j < |shifted| :: shifted[i] < shifted[j]
    requires forall i | 0 <= i < |shifted| :: 0 < shifted[i] < |lines| && kept[i] == lines[shifted[i]]
    requires forall i | 0 < i < |lines| :: i in shifted <==> lines[i] != []
    ensures Kept(lines, kept, shifted)
  {
  }

  lemma WithFirst(lines: seq<Text>, kept: seq<Text>, shifted: seq<nat>)
    requires lines != [] && lines[0] != [] && |kept| == |shifted|
    requires forall i, j | 0 <= i < j < |shifted| :: shifted[i] < shifted[j]
    requires forall i | 0 <= i < |shifted| :: 0 < shifted[i] < |lines| && kept[i] == lines[shifted[i]]
    requires forall i | 0 < i < |lines| :: i in shifted <==> lines[i] != []
    ensures Kept(lines, [lines[0]] + kept, [0] + shifted)
  {
    var index := [0] + shifted;
    forall i | 0 <= i < |lines| ensures i in index <==> lines[i] != [] {
      assert i in index <==> i == 0 || i in shifted;
    }
  }

  lemma LinesRead(s: Text)
    ensures Read(s, NonEmpty(Lines(s)), Remainder(s))
  {
    LinesWhole(s);
    var index := KeptNonEmpty(Lines(s));
  }

  lemma TakeLine(buf: Text, nl: nat, delivered: seq<Text>)
    requires nl == IndexOfNewline(buf) < |buf|
    ensures delivered + NonEmpty(Lines(buf)) ==
            (if buf[..nl] == [] then delivered else delivered + [buf[..nl]]) + NonEmpty(Lines(buf[nl + 1..]))
    ensures Remainder(buf) == Remainder(buf[nl + 1..])
  {
    hide Lines, NonEmpty;
    var line, rest := buf[..nl], Lines(buf[nl + 1..]);
    FirstLine(buf);
    NonEmptyCons(line, rest);
    Append(delivered, if line == [] then [] else [line], NonEmpty(rest));
  }

  lemma FirstLine(buf: Text)
    requires IndexOfNewline(buf) < |buf|
    ensures Lines(buf) == [buf[..IndexOfNewline(buf)]] + Lines(buf[IndexOfNewline(buf) + 1..])
  {
  }

  lemma NonEmptyCons(line: Text, rest: seq<Text>)
    ensures NonEmpty([line] + rest) == (if line == [] then [] else [line]) + NonEmpty(rest)
  {
    assert ([line] + rest)[1..] == rest;
  }

  lemma Append(a: seq<Text>, b: seq<Text>, c: seq<Text>)
    ensures a + (b + c) == a + b + c && a + [] == a
  {
  }

  lemma NoLine(buf: Text, delivered: seq<Text>)
    requires IndexOfNewline(buf) == |buf|
    ensures delivered + NonEmpty(Lines(buf)) == delivered && Remainder(buf) == buf
  {
  }

  /** Every 'data' event of a stream, in order: the lines of what the chunks decode to, one by one. */
  method ReadAll(chunks: seq<Bytes>) returns (delivered: seq<Text>, rest: Text)
    ensures delivered == NonEmpty(Lines(DecodeEach(chunks)))
    ensures rest == Remainder(DecodeEach(chunks))
  {
    hide Lines, Remainder, NonEmpty, Decode;
    var reader := new Reader();
    delivered := [];
    NothingRead();
    for i := 0 to |chunks|
      invariant delivered == NonEmpty(Lines(DecodeEach(chunks[..i])))
      invariant reader.buf == Remainder(DecodeEach(chunks[..i]))
    {
      ghost var s, t := DecodeEach(chunks[..i]), Decode(chunks[i]);
      var more := reader.OnData(chunks[i]);
      delivered := delivered + more;
      DecodeEachSnoc(chunks[..i], chunks[i]);
      assert chunks[..i] + [chunks[i]] == chunks[..i + 1];
      LinesAppend(s, t);
      NonEmptyAppend(Lines(s), Lines(Remainder(s) + t));
    }
    assert chunks[..|chunks|] == chunks;
    rest := reader.buf;
  }

  lemma NothingRead()
    ensures NonEmpty(Lines(DecodeEach([]))) == [] && Remainder(DecodeEach([])) == []
  {
  }

  lemma {:induction false} DecodeEachSnoc(chunks: seq<Bytes>, last: Bytes)
    ensures DecodeEach(chunks + [last]) == DecodeEach(chunks) + Decode(last)
  {
    hide Decode;
    if chunks == [] {
      assert [last] == chunks + [last];
      assert [last][1..] == [];
      assert Decode(last) + [] == [] + Decode(last);
    } else {
      DecodeEachSnoc(chunks[1..], last);
      assert (chunks + [last])[1..] == chunks[1..] + [last];
      Joined3(Decode(chunks[0]), DecodeEach(chunks[1..]), Decode(last));
    }
  }

  lemma Joined3(a: Text, b: Text, c: Text)
    ensures a + b + c == a + (b + c)
  {
  }

  lemma {:induction false} NonEmptyAppend(a: seq<Text>, b: seq<Text>)
    ensures NonEmpty(a + b) == NonEmpty(a) + NonEmpty(b)
  {
    if a == [] {
      assert a + b == b;
    } else {
      hide NonEmpty;
      NonEmptyAppend(a[1..], b);
      NonEmptyCons(a[0], a[1..]);
      NonEmptyCons(a[0], a[1..] + b);
      assert [a[0]] + a[1..] == a && [a[0]] + (a[1..] + b) == a + b;
      Append(if a[0] == [] then [] else [a[0]], NonEmpty(a[1..]), NonEmpty(b));
    }
  }

  lemma {:induction false} IndexUnique(s: Text, i: nat, k: nat)
    requires i <= k <= |s| && (forall j | i <= j < k :: s[j] != NEWLINE) && (k < |s| ==> s[k] == NEWLINE)
    ensures IndexOfNewline(s, i) == k
    decreases k - i
  {
    if i < k {
      IndexUnique(s, i + 1, k);
    }
  }

  lemma LinesCons(line: Text, rest: Text)
    requires NEWLINE !in line
    ensures Lines(line + [NEWLINE] + rest) == [line] + Lines(rest)
    ensures Remainder(line + [NEWLINE] + rest) == Remainder(rest)
  {
    var s := line + [NEWLINE] + rest;
    IndexUnique(s, 0, |line|);
    assert s[..|line|] == line && s[|line| + 1..] == rest;
  }

  /** Reading can stop and resume anywhere: the lines of s + t are those of s, then those of the
      remainder of s followed by t. */
  lemma {:induction false} LinesAppend(s: Text, t: Text)
    ensures Lines(s + t) == Lines(s) + Lines(Remainder(s) + t)
    ensures Remainder(s + t) == Remainder(Remainder(s) + t)
    decreases |s|
  {
    var k := IndexOfNewline(s);
    if k < |s| {
      hide Lines, Remainder;
      var line, rest := s[..k], s[k + 1..];
      assert s == line + [NEWLINE] + rest;
      LinesAppend(rest, t);
      LinesCons(line, rest);
      LinesCons(line, rest + t);
      Joined3(line + [NEWLINE], rest, t);
      Append([line], Lines(rest), Lines(Remainder(rest) + t));
    }
  }

  /** Frames come back one for one, and nothing is left over. */
  lemma {:induction false} FramesRoundTrip(texts: seq<Text>)
    requires forall i | 0 <= i < |texts| :: texts[i] != [] && NEWLINE !in texts[i]
    ensures NonEmpty(Lines(FrameAll(texts))) == texts && Remainder(FrameAll(texts)) == []
  {
    if texts != [] {
      FramesRoundTrip(texts[1..]);
      LinesCons(texts[0], FrameAll(texts[1..]));
      assert ([texts[0]] + Lines(FrameAll(texts[1..])))[1..] == Lines(FrameAll(texts[1..]));
    }
  }

  // ----- bytes -----

  predicate IsText(t: Text) {
    forall i | 0 <= i < |t| :: IsCharacter(t[i])
  }

  /** b4a.from: the UTF-8 of a text. */
  function Encode(t: Text): Bytes {
    if t == [] then [] else (if t[0].Character? then t[0].bytes else [0xEF, 0xBF, 0xBD]) + Encode(t[1..])
  }

  lemma {:induction false} EncodeDecodes(t: Text)
    requires IsText(t)
    ensures Decode(Encode(t)) == t && WellFormed(Encode(t))
  {
    if t != [] {
      EncodeDecodes(t[1..]);
      DecodeFront(t[0].bytes, Encode(t[1..]));
      assert t[0].bytes[..|t[0].bytes|] == t[0].bytes;
      assert t[0].bytes[|t[0].bytes|..] + Encode(t[1..]) == Encode(t[1..]);
      assert [t[0]] + t[1..] == t;
    }
    WellFormedDecodes(Encode(t));
  }

  lemma {:induction false} FramesAreText(texts: seq<Text>)
    requires forall i | 0 <= i < |texts| :: IsText(texts[i])
    ensures IsText(FrameAll(texts))
  {
    if texts != [] {
      FramesAreText(texts[1..]);
    }
  }

  /** A chunk that ends with the newline byte decodes to text that ends with a newline, whatever precedes it. */
  lemma {:induction false} LastNewline(bs: Bytes)
    requires bs != [] && bs[|bs| - 1] == 0x0A
    ensures Decode(bs) != [] && Decode(bs)[|Decode(bs)| - 1] == NEWLINE
    decreases |bs|
  {
    var w := if StartsCharacter(bs) then Width(bs[0]) else 1;
    if w < |bs| {
      LastNewline(bs[w..]);
    } else {
      assert w == 1 && bs == [0x0A];
      assert bs[..1] == bs;
    }
  }

  lemma {:induction false} EachLastNewline(chunks: seq<Bytes>)
    requires Joined(chunks) != [] && Joined(chunks)[|Joined(chunks)| - 1] == 0x0A
    ensures DecodeEach(chunks) != [] && DecodeEach(chunks)[|DecodeEach(chunks)| - 1] == NEWLINE
  {
    hide Decode;
    if Joined(chunks[1..]) == [] {
      NothingJoined(chunks[1..]);
      LastNewline(chunks[0]);
    } else {
      EachLastNewline(chunks[1..]);
    }
  }

  lemma {:induction false} NothingJoined(chunks: seq<Bytes>)
    requires Joined(chunks) == []
    ensures DecodeEach(chunks) == [] && forall i | 0 <= i < |chunks| :: chunks[i] == []
  {
    if chunks != [] {
      NothingJoined(chunks[1..]);
    }
  }

  lemma {:induction false} NothingRemains(s: Text)
    requires s != [] && s[|s| - 1] == NEWLINE
    ensures Remainder(s) == []
    decreases |s|
  {
    var k := IndexOfNewline(s);
    if k < |s| - 1 {
      NothingRemains(s[k + 1..]);
    }
  }

  ghost predicate OnLine(lines: seq<Text>, c: Character) {
    exists i :: 0 <= i < |lines| && c in lines[i]
  }

  lemma OnLineCons(line: Text, later: seq<Text>, c: Character)
    ensures OnLine((if line == [] then [] else [line]) + later, c) <==> c in line || OnLine(later, c)
  {
    var all: seq<Text> := (if line == [] then [] else [line]) + later;
    if c in line {
      assert all[0] == line;
    }
    if i :| 0 <= i < |later| && c in later[i] {
      assert all[|all| - |later| + i] == later[i];
    }
  }

  /** No character but the newlines is lost: it is on a delivered line or in what remains. */
  lemma {:induction false} CharactersSurvive(s: Text, c: Character)
    requires c in s && c != NEWLINE
    ensures c in Remainder(s) || OnLine(NonEmpty(Lines(s)), c)
    decreases |s|
  {
    var k := IndexOfNewline(s);
    if k == |s| {
      NoLine(s, []);
    } else {
      hide Lines, NonEmpty, Remainder, OnLine;
      var line, rest := s[..k], s[k + 1..];
      assert s == line + [NEWLINE] + rest;
      TakeLine(s, k, []);
      FirstLine(s);
      NonEmptyCons(line, Lines(rest));
      OnLineCons(line, NonEmpty(Lines(rest)), c);
      if c in rest {
        CharactersSurvive(rest, c);
      }
    }
  }

  lemma FramesEnd(texts: seq<Text>)
    requires texts != []
    ensures Encode(FrameAll(texts)) != [] && Encode(FrameAll(texts))[|Encode(FrameAll(texts))| - 1] == 0x0A
  {
    AllEndsWithNewline(texts);
    EncodeEnds(FrameAll(texts));
  }

  lemma {:induction false} AllEndsWithNewline(texts: seq<Text>)
    requires texts != []
    ensures FrameAll(texts) != [] && FrameAll(texts)[|FrameAll(texts)| - 1] == NEWLINE
  {
    if |texts| > 1 {
      AllEndsWithNewline(texts[1..]);
    } else {
      assert texts[1..] == [];
    }
  }

  lemma {:induction false} EncodeEnds(t: Text)
    requires t != [] && t[|t| - 1] == NEWLINE
    ensures Encode(t) != [] && Encode(t)[|Encode(t)| - 1] == 0x0A
  {
    if |t| > 1 {
      EncodeEnds(t[1..]);
    } else {
      assert t[1..] == [];
    }
  }

  /** Messages framed by writeJSON, written as UTF-8 and cut into chunks at any bytes, are delivered exactly and in
      order if and only if every chunk is well-formed by itself, that is, no cut is inside a character. */
  method Deliver(texts: seq<Text>, chunks: seq<Bytes>) returns (delivered: seq<Text>)
    requires forall i | 0 <= i < |texts| :: texts[i] != [] && NEWLINE !in texts[i] && IsText(texts[i])
    requires Joined(chunks) == Encode(FrameAll(texts))
    ensures delivered == texts <==> forall i | 0 <= i < |chunks| :: WellFormed(chunks[i])
  {
    var rest;
    delivered, rest := ReadAll(chunks);
    FramesRoundTrip(texts);
    FramesAreText(texts);
    EncodeDecodes(FrameAll(texts));
    ChunksDecodeExactly(chunks);
    if delivered == texts {
      NoReplacement(texts, chunks);
    }
  }

  /** If what is delivered is well-formed, so was every chunk. */
  lemma NoReplacement(texts: seq<Text>, chunks: seq<Bytes>)
    requires forall i | 0 <= i < |texts| :: IsText(texts[i])
    requires Joined(chunks) == Encode(FrameAll(texts))
    requires NonEmpty(Lines(DecodeEach(chunks))) == texts
    ensures forall i | 0 <= i < |chunks| :: WellFormed(chunks[i])
  {
    hide Decode, Lines, Encode;
    var s := DecodeEach(chunks);
    if texts == [] {
      assert FrameAll(texts) == [] && Joined(chunks) == [] by { EncodeNothing(); }
      NothingJoined(chunks);
    } else {
      FramesEnd(texts);
      EachLastNewline(chunks);
      NothingRemains(s);
      if Replacement in s {
        CharactersSurvive(s, Replacement);
      }
      forall i | 0 <= i < |chunks| ensures WellFormed(chunks[i]) {
        EachInside(chunks, i);
        WellFormedDecodes(chunks[i]);
      }
    }
  }

  lemma EncodeNothing()
    ensures Encode([]) == []
  {
  }
}

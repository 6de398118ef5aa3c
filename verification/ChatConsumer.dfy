/** The chat generator of index.js, at the other end of the response stream: every chunk that Go sends crosses the
    two codecs, and the loop yields what JavaScript reads. */
module ChatConsumer {
  import opened ChatStreams
  import opened Utf8
  import opened Wire
  import opened Wrappers
  import CrossCodec
  import Go = GoSchema
  import Js = JsMessages
  import Messages

  /** The object that is yielded; content is None when it is null or left out. */
  datatype Yielded = Yielded(kind: Option<string>, content: Option<Bytes>, done: bool)

  /** The chunk as Go builds it. */
  method Build(chunk: Chunk) returns (g: Go.BareclawChatChunk)
    ensures fresh(g)
    ensures chunk.Content? ==> g.Type == "content" && g.Content == StringBytes(chunk.text)
    ensures chunk.Done? ==> g.Type == "done" && g.Content == []
    ensures chunk.Error? ==> g.Type == "error" && g.Content == StringBytes(chunk.text)
  {
    g := new Go.BareclawChatChunk();
    match chunk
    case Content(text) => g.Type, g.Content := "content", StringBytes(text);
    case Done => g.Type := "done";
    case Error(text) => g.Type, g.Content := "error", StringBytes(text);
  }

  /** The chunk's text fits a string of the codec. */
  predicate Sendable(chunk: Chunk) {
    chunk.Done? || |StringBytes(chunk.text)| < U64
  }

  /** m has the chunk's kind, and the chunk's text as its content: null when it is empty or there is none. */
  predicate Carries(m: Js.ChatChunk, chunk: Chunk) {
    && (m.kind == Some("content") <==> chunk.Content?)
    && (m.kind == Some("done") <==> chunk.Done?)
    && (m.kind == Some("error") <==> chunk.Error?)
    && Js.OrEmpty(m.content) == (if chunk.Done? then [] else StringBytes(chunk.text))
    && m.content != Some([])
  }

  /** A chunk is built in Go, marshalled, and read in JavaScript. */
  method Transmit(chunk: Chunk, max: nat) returns (m: Js.ChatChunk)
    requires Sendable(chunk)
    ensures Carries(m, chunk)
  {
    hide StringBytes;
    var g := Build(chunk);
    var received := CrossCodec.GoToJsChatChunk(g, max);
    m := received.value;
  }

  method Receive(chunks: seq<Chunk>, max: nat) returns (stream: seq<Js.ChatChunk>)
    requires forall k | 0 <= k < |chunks| :: Sendable(chunks[k])
    ensures |stream| == |chunks| && forall k | 0 <= k < |chunks| :: Carries(stream[k], chunks[k])
  {
    hide Carries, Sendable;
    stream := [];
    for i := 0 to |chunks|
      invariant |stream| == i && forall k | 0 <= k < i :: Carries(stream[k], chunks[k])
    {
      var m := Transmit(chunks[i], max);
      stream := stream + [m];
    }
  }

  predicate Terminal(m: Js.ChatChunk) {
    m.kind == Some("done") || m.kind == Some("error")
  }

  /** The generator's loop: every chunk is yielded as it was read, up to and including the first terminal one; a
      done chunk is yielded without content. complete says whether the loop broke out there. */
  method Loop(stream: seq<Js.ChatChunk>) returns (yielded: seq<Yielded>, complete: bool)
    ensures |yielded| <= |stream|
    ensures forall k | 0 <= k < |yielded| ::
              && yielded[k].kind == stream[k].kind && (yielded[k].done <==> Terminal(stream[k]))
              && yielded[k].content == if stream[k].kind == Some("done") then None else stream[k].content
    ensures forall k | 0 <= k < |yielded| - 1 :: !Terminal(stream[k])
    ensures complete <==> yielded != [] && Terminal(stream[|yielded| - 1])
    ensures complete || |yielded| == |stream|
  {
    yielded, complete := [], false;
    for i := 0 to |stream|
      invariant !complete && |yielded| == i
      invariant forall k | 0 <= k < i ::
                  !Terminal(stream[k]) && yielded[k] == Yielded(stream[k].kind, stream[k].content, false)
    {
      var m := stream[i];
      var done := m.kind == Some("done") || m.kind == Some("error");
      if done {
        yielded := yielded + [if m.kind == Some("error") then Yielded(m.kind, m.content, done)
                              else Yielded(m.kind, None, done)];
        complete := true;
        return;
      }
      yielded := yielded + [Yielded(m.kind, m.content, done)];
    }
  }

  /** What the caller of chat sees of a stream: its chunks up to and including the first that is not content, each
      with its own kind and, content and error alike, its own text, which is null when it is empty. */
  method Consume(chunks: seq<Chunk>, max: nat) returns (yielded: seq<Yielded>, complete: bool)
    requires forall k | 0 <= k < |chunks| :: Sendable(chunks[k])
    ensures |yielded| <= |chunks| && UpToEnd(chunks) == chunks[..|yielded|]
    ensures forall k | 0 <= k < |yielded| ::
              && (yielded[k].kind == Some("content") <==> chunks[k].Content?)
              && (yielded[k].kind == Some("done") <==> chunks[k].Done?)
              && (yielded[k].kind == Some("error") <==> chunks[k].Error?)
              && (yielded[k].done <==> !chunks[k].Content?)
    ensures forall k | 0 <= k < |yielded| ::
              && Js.OrEmpty(yielded[k].content) == (if chunks[k].Done? then [] else StringBytes(chunks[k].text))
              && yielded[k].content != Some([])
    ensures forall k | 0 <= k < |yielded| - 1 :: !yielded[k].done
    ensures complete <==> exists k :: 0 <= k < |chunks| && !chunks[k].Content?
    ensures complete ==> yielded != [] && yielded[|yielded| - 1].done
  {
    hide StringBytes, Sendable;
    var stream := Receive(chunks, max);
    yielded, complete := Loop(stream);
    var n := |yielded|;
    assert forall k | 0 <= k < |chunks| :: Terminal(stream[k]) <==> !chunks[k].Content?;
    UpToFirst(chunks, if complete then n - 1 else n);
    assert chunks[..|chunks|] == chunks;
  }
}

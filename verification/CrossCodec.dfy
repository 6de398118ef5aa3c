/** The two generated codecs against each other. For every struct the Go and the JavaScript encoder write
    the same bytes exactly when the messages correspond: Go's empty string is JavaScript's null, undefined
    or empty string, and in a required buffer field null is the empty buffer. */
module CrossCodec {
  import opened Wrappers
  import opened Wire
  import opened CodecState
  import Messages
  import Go = GoSchema
  import Js = JsMessages
  import Hrpc

  predicate ChatRequestMatches(g: Go.BareclawChatRequest, j: Js.ChatRequest)
    reads g
  {
    && g.SessionId == j.sessionId
    && g.Message == j.message
    && g.Model == Js.OrEmpty(j.model)
  }

  lemma ChatRequestSameBytes(g: Go.BareclawChatRequest, j: Js.ChatRequest)
    requires Messages.ChatRequest.Fits(g.Sent()) && Messages.ChatRequest.Fits(j.Sent())
    ensures Messages.ChatRequest.Encoded(g.Sent()) == Messages.ChatRequest.Encoded(j.Sent()) <==>
            ChatRequestMatches(g, j)
  {
    Messages.ChatRequest.Laws();
    if Messages.ChatRequest.Encoded(g.Sent()) == Messages.ChatRequest.Encoded(j.Sent()) {
      Messages.EncodedInjective(Messages.ChatRequest.Parse, Messages.ChatRequest.Encoded, Messages.ChatRequest.Fits,
          g.Sent(), j.Sent());
    }
  }

  predicate ChatChunkMatches(g: Go.BareclawChatChunk, j: Js.ChatChunk)
    reads g
  {
    && Some(g.Type) == j.kind
    && g.Content == Js.OrEmpty(j.content)
  }

  lemma ChatChunkSameBytes(g: Go.BareclawChatChunk, j: Js.ChatChunk)
    requires Messages.ChatChunk.Fits(g.Sent()) && Messages.ChatChunk.Fits(j.Sent())
    ensures Messages.ChatChunk.Encoded(g.Sent()) == Messages.ChatChunk.Encoded(j.Sent()) <==> ChatChunkMatches(g, j)
  {
    Messages.ChatChunk.Laws();
    if Messages.ChatChunk.Encoded(g.Sent()) == Messages.ChatChunk.Encoded(j.Sent()) {
      Messages.EncodedInjective(Messages.ChatChunk.Parse, Messages.ChatChunk.Encoded, Messages.ChatChunk.Fits,
          g.Sent(), j.Sent());
    }
  }

  predicate SessionScopeMatches(g: Go.BareclawSessionScope, j: Js.SessionScope)
    reads g
  {
    && g.AgentId == Js.OrEmpty(j.agentId)
    && g.Channel == Js.OrEmpty(j.channel)
    && g.Account == Js.OrEmpty(j.account)
    && g.Peer == Js.OrEmpty(j.peer)
  }

  lemma SessionScopeSameBytes(g: Go.BareclawSessionScope, j: Js.SessionScope)
    requires Messages.SessionScope.Fits(g.Sent()) && Messages.SessionScope.Fits(j.Sent())
    ensures Messages.SessionScope.Encoded(g.Sent()) == Messages.SessionScope.Encoded(j.Sent()) <==>
            SessionScopeMatches(g, j)
  {
    Messages.SessionScope.Laws();
    if Messages.SessionScope.Encoded(g.Sent()) == Messages.SessionScope.Encoded(j.Sent()) {
      Messages.EncodedInjective(Messages.SessionScope.Parse, Messages.SessionScope.Encoded,
          Messages.SessionScope.Fits, g.Sent(), j.Sent());
    }
  }

  predicate SessionKeyMatches(g: Go.BareclawSessionKey, j: Js.SessionKey)
    reads g
  {
    && g.Key == j.key
  }

  lemma SessionKeySameBytes(g: Go.BareclawSessionKey, j: Js.SessionKey)
    requires Messages.SessionKey.Fits(g.Sent()) && Messages.SessionKey.Fits(j.Sent())
    ensures Messages.SessionKey.Encoded(g.Sent()) == Messages.SessionKey.Encoded(j.Sent()) <==> SessionKeyMatches(g, j)
  {
    Messages.SessionKey.Laws();
    if Messages.SessionKey.Encoded(g.Sent()) == Messages.SessionKey.Encoded(j.Sent()) {
      Messages.EncodedInjective(Messages.SessionKey.Parse, Messages.SessionKey.Encoded, Messages.SessionKey.Fits,
          g.Sent(), j.Sent());
    }
  }

  predicate SessionListMatches(g: Go.BareclawSessionList, j: Js.SessionList)
    reads g
  {
    && g.Keys == j.keys
  }

  lemma SessionListSameBytes(g: Go.BareclawSessionList, j: Js.SessionList)
    requires Messages.SessionList.Fits(g.Sent()) && Messages.SessionList.Fits(j.Sent())
    ensures Messages.SessionList.Encoded(g.Sent()) == Messages.SessionList.Encoded(j.Sent()) <==>
            SessionListMatches(g, j)
  {
    var max := |g.Keys| + |j.keys|;
    Messages.SessionList.Laws(max);
    if Messages.SessionList.Encoded(g.Sent()) == Messages.SessionList.Encoded(j.Sent()) {
      Messages.EncodedInjective(Messages.SessionList.Parser(max), Messages.SessionList.Encoded,
          Messages.SessionList.Within(max), g.Sent(), j.Sent());
    }
  }

  predicate SessionBlobMatches(g: Go.BareclawSessionBlob, j: Js.SessionBlob)
    reads g
  {
    && g.Key == j.key
    && g.Data == Js.OrEmpty(j.data)
  }

  lemma SessionBlobSameBytes(g: Go.BareclawSessionBlob, j: Js.SessionBlob)
    requires Messages.SessionBlob.Fits(g.Sent()) && Messages.SessionBlob.Fits(j.Sent())
    ensures Messages.SessionBlob.Encoded(g.Sent()) == Messages.SessionBlob.Encoded(j.Sent()) <==>
            SessionBlobMatches(g, j)
  {
    Messages.SessionBlob.Laws();
    if Messages.SessionBlob.Encoded(g.Sent()) == Messages.SessionBlob.Encoded(j.Sent()) {
      Messages.EncodedInjective(Messages.SessionBlob.Parse, Messages.SessionBlob.Encoded, Messages.SessionBlob.Fits,
          g.Sent(), j.Sent());
    }
  }

  predicate StateBlobMatches(g: Go.BareclawStateBlob, j: Js.StateBlob)
    reads g
  {
    && |g.Sessions| == |j.sessions|
    && (forall i | 0 <= i < |g.Sessions| ::
         g.Sessions[i].key == j.sessions[i].key && g.Sessions[i].data == Js.OrEmpty(j.sessions[i].data))
  }

  lemma StateBlobSameBytes(g: Go.BareclawStateBlob, j: Js.StateBlob)
    requires Messages.StateBlob.Fits(g.Sent()) && Messages.StateBlob.Fits(j.Sent())
    ensures Messages.StateBlob.Encoded(g.Sent()) == Messages.StateBlob.Encoded(j.Sent()) <==> StateBlobMatches(g, j)
  {
    var max := |g.Sessions| + |j.sessions|;
    Messages.StateBlob.Laws(max);
    if Messages.StateBlob.Encoded(g.Sent()) == Messages.StateBlob.Encoded(j.Sent()) {
      Messages.EncodedInjective(Messages.StateBlob.Parser(max), Messages.StateBlob.Encoded,
          Messages.StateBlob.Within(max), g.Sent(), j.Sent());
    }
    if g.Sent() == j.Sent() {
      forall i | 0 <= i < |g.Sessions|
        ensures g.Sessions[i].key == j.sessions[i].key && g.Sessions[i].data == Js.OrEmpty(j.sessions[i].data)
      {
        assert g.Sessions[i] == j.Sent().sessions[i];
      }
    }
    if StateBlobMatches(g, j) {
      assert g.Sessions == j.Sent().sessions;
    }
  }

  predicate ToolDefMatches(g: Go.BareclawToolDef, j: Js.ToolDef)
    reads g
  {
    && g.Name == j.name
    && g.Description == j.description
    && g.InputSchema == j.inputSchema
  }

  lemma ToolDefSameBytes(g: Go.BareclawToolDef, j: Js.ToolDef)
    requires Messages.ToolDef.Fits(g.Sent()) && Messages.ToolDef.Fits(j.Sent())
    ensures Messages.ToolDef.Encoded(g.Sent()) == Messages.ToolDef.Encoded(j.Sent()) <==> ToolDefMatches(g, j)
  {
    Messages.ToolDef.Laws();
    if Messages.ToolDef.Encoded(g.Sent()) == Messages.ToolDef.Encoded(j.Sent()) {
      Messages.EncodedInjective(Messages.ToolDef.Parse, Messages.ToolDef.Encoded, Messages.ToolDef.Fits, g.Sent(),
          j.Sent());
    }
  }

  predicate ToolCallMatches(g: Go.BareclawToolCall, j: Js.ToolCall)
    reads g
  {
    && g.CallId == j.callId
    && g.Name == j.name
    && g.Input == Js.OrEmpty(j.input)
  }

  lemma ToolCallSameBytes(g: Go.BareclawToolCall, j: Js.ToolCall)
    requires Messages.ToolCall.Fits(g.Sent()) && Messages.ToolCall.Fits(j.Sent())
    ensures Messages.ToolCall.Encoded(g.Sent()) == Messages.ToolCall.Encoded(j.Sent()) <==> ToolCallMatches(g, j)
  {
    Messages.ToolCall.Laws();
    if Messages.ToolCall.Encoded(g.Sent()) == Messages.ToolCall.Encoded(j.Sent()) {
      Messages.EncodedInjective(Messages.ToolCall.Parse, Messages.ToolCall.Encoded, Messages.ToolCall.Fits, g.Sent(),
          j.Sent());
    }
  }

  predicate ToolResultMatches(g: Go.BareclawToolResult, j: Js.ToolResult)
    reads g
  {
    && g.CallId == j.callId
    && g.Output == j.output
    && g.ErrMsg == Js.OrEmpty(j.errMsg)
  }

  lemma ToolResultSameBytes(g: Go.BareclawToolResult, j: Js.ToolResult)
    requires Messages.ToolResult.Fits(g.Sent()) && Messages.ToolResult.Fits(j.Sent())
    ensures Messages.ToolResult.Encoded(g.Sent()) == Messages.ToolResult.Encoded(j.Sent()) <==> ToolResultMatches(g, j)
  {
    Messages.ToolResult.Laws();
    if Messages.ToolResult.Encoded(g.Sent()) == Messages.ToolResult.Encoded(j.Sent()) {
      Messages.EncodedInjective(Messages.ToolResult.Parse, Messages.ToolResult.Encoded, Messages.ToolResult.Fits,
          g.Sent(), j.Sent());
    }
  }

  predicate StateChunkMatches(g: Go.BareclawStateChunk, j: Js.StateChunk)
    reads g
  {
    && g.SessionKey == j.sessionKey
    && Some(g.Field) == j.field
    && g.Data == Js.OrEmpty(j.data)
  }

  lemma StateChunkSameBytes(g: Go.BareclawStateChunk, j: Js.StateChunk)
    requires Messages.StateChunk.Fits(g.Sent()) && Messages.StateChunk.Fits(j.Sent())
    ensures Messages.StateChunk.Encoded(g.Sent()) == Messages.StateChunk.Encoded(j.Sent()) <==> StateChunkMatches(g, j)
  {
    Messages.StateChunk.Laws();
    if Messages.StateChunk.Encoded(g.Sent()) == Messages.StateChunk.Encoded(j.Sent()) {
      Messages.EncodedInjective(Messages.StateChunk.Parse, Messages.StateChunk.Encoded, Messages.StateChunk.Fits,
          g.Sent(), j.Sent());
    }
  }

  // ----- end to end: what one side sends, the other reads -----

  // from JavaScript to Go every struct arrives as its match, unless an enum field holds no known name or an array
  // is longer than a reader accepts

  method JsToGoChatRequest(m: Js.ChatRequest, max: nat) returns (r: Result<Go.BareclawChatRequest, Error>)
    requires Messages.ChatRequest.Fits(m.Sent())
    ensures r.Success?
    ensures r.Success? ==> fresh(r.value) && ChatRequestMatches(r.value, m)
  {
    hide UintBytes, BlockBytes, ParseUint, ParseBlock, Messages.ChatRequest.Encoded, Messages.ChatRequest.Parse;
    var s := new State(max);
    Js.PreencodeChatRequest(s, m);
    s.Allocate();
    Js.EncodeChatRequest(s, m);
    ghost var bytes := Messages.ChatRequest.Encoded(m.Sent());
    assert s.buffer[..] == s.out == bytes;
    Messages.ChatRequest.RoundTrip(m.Sent(), []);
    assert bytes + [] == bytes;
    var g := new Go.BareclawChatRequest();
    var state := new State.Over(s.buffer[..], max);
    var err := g.Decode(state);
    return Success(g);
  }

  method JsToGoChatChunk(m: Js.ChatChunk, max: nat) returns (r: Result<Go.BareclawChatChunk, Error>)
    requires |Js.OrEmpty(m.content)| < U64
    ensures r.Success? <==> m.Sent().kind != 0
    ensures r.Success? ==> fresh(r.value) && ChatChunkMatches(r.value, m)
    ensures r.Failure? ==> r.error == UnknownEnum
  {
    hide UintBytes, BlockBytes, ParseUint, ParseBlock, Messages.ChatChunk.Encoded, Messages.ChatChunk.Parse;
    var s := new State(max);
    Js.PreencodeChatChunk(s, m);
    s.Allocate();
    var sent := Js.EncodeChatChunk(s, m);
    if sent.Fail? {
      return Failure(sent.error);
    }
    ghost var bytes := Messages.ChatChunk.Encoded(m.Sent());
    assert s.buffer[..] == s.out == bytes;
    Messages.ChatChunk.RoundTrip(m.Sent(), []);
    assert bytes + [] == bytes;
    var g := new Go.BareclawChatChunk();
    var state := new State.Over(s.buffer[..], max);
    var err := g.Decode(state);
    return Success(g);
  }

  method JsToGoSessionScope(m: Js.SessionScope, max: nat) returns (r: Result<Go.BareclawSessionScope, Error>)
    requires Messages.SessionScope.Fits(m.Sent())
    ensures r.Success?
    ensures r.Success? ==> fresh(r.value) && SessionScopeMatches(r.value, m)
  {
    hide UintBytes, BlockBytes, ParseUint, ParseBlock, Messages.SessionScope.Encoded, Messages.SessionScope.Parse;
    var s := new State(max);
    Js.PreencodeSessionScope(s, m);
    s.Allocate();
    Js.EncodeSessionScope(s, m);
    ghost var bytes := Messages.SessionScope.Encoded(m.Sent());
    assert s.buffer[..] == s.out == bytes;
    Messages.SessionScope.RoundTrip(m.Sent(), []);
    assert bytes + [] == bytes;
    var g := new Go.BareclawSessionScope();
    var state := new State.Over(s.buffer[..], max);
    var err := g.Decode(state);
    return Success(g);
  }

  method JsToGoSessionKey(m: Js.SessionKey, max: nat) returns (r: Result<Go.BareclawSessionKey, Error>)
    requires Messages.SessionKey.Fits(m.Sent())
    ensures r.Success?
    ensures r.Success? ==> fresh(r.value) && SessionKeyMatches(r.value, m)
  {
    hide UintBytes, BlockBytes, ParseUint, ParseBlock, Messages.SessionKey.Encoded, Messages.SessionKey.Parse;
    var s := new State(max);
    Js.PreencodeSessionKey(s, m);
    s.Allocate();
    Js.EncodeSessionKey(s, m);
    ghost var bytes := Messages.SessionKey.Encoded(m.Sent());
    assert s.buffer[..] == s.out == bytes;
    Messages.SessionKey.RoundTrip(m.Sent(), []);
    assert bytes + [] == bytes;
    var g := new Go.BareclawSessionKey();
    var state := new State.Over(s.buffer[..], max);
    var err := g.Decode(state);
    return Success(g);
  }

  method JsToGoSessionList(m: Js.SessionList, max: nat) returns (r: Result<Go.BareclawSessionList, Error>)
    requires Messages.SessionList.Fits(m.Sent())
    ensures r.Success? <==> |m.keys| <= max
    ensures r.Success? ==> fresh(r.value) && SessionListMatches(r.value, m)
    ensures r.Failure? ==> r.error == ArrayTooBig
  {
    hide UintBytes, BlockBytes, ParseUint, ParseBlock, Messages.SessionList.Encoded, Messages.SessionList.Parse;
    var s := new State(max);
    Js.PreencodeSessionList(s, m);
    s.Allocate();
    Js.EncodeSessionList(s, m);
    ghost var bytes := Messages.SessionList.Encoded(m.Sent());
    assert s.buffer[..] == s.out == bytes;
    Messages.SessionList.RoundTrip(max, m.Sent(), []);
    assert bytes + [] == bytes;
    var g := new Go.BareclawSessionList();
    var state := new State.Over(s.buffer[..], max);
    var err := g.Decode(state);
    if err.Failure? {
      return Failure(err.error);
    }
    return Success(g);
  }

  method JsToGoSessionBlob(m: Js.SessionBlob, max: nat) returns (r: Result<Go.BareclawSessionBlob, Error>)
    requires Messages.SessionBlob.Fits(m.Sent())
    ensures r.Success?
    ensures r.Success? ==> fresh(r.value) && SessionBlobMatches(r.value, m)
  {
    hide UintBytes, BlockBytes, ParseUint, ParseBlock, Messages.SessionBlob.Encoded, Messages.SessionBlob.Parse;
    var s := new State(max);
    Js.PreencodeSessionBlob(s, m);
    s.Allocate();
    Js.EncodeSessionBlob(s, m);
    ghost var bytes := Messages.SessionBlob.Encoded(m.Sent());
    assert s.buffer[..] == s.out == bytes;
    Messages.SessionBlob.RoundTrip(m.Sent(), []);
    assert bytes + [] == bytes;
    var g := new Go.BareclawSessionBlob();
    var state := new State.Over(s.buffer[..], max);
    var err := g.Decode(state);
    return Success(g);
  }

  method JsToGoStateBlob(m: Js.StateBlob, max: nat) returns (r: Result<Go.BareclawStateBlob, Error>)
    requires Messages.StateBlob.Fits(m.Sent())
    ensures r.Success? <==> |m.sessions| <= max
    ensures r.Success? ==> fresh(r.value) && StateBlobMatches(r.value, m)
    ensures r.Failure? ==> r.error == ArrayTooBig
  {
    hide UintBytes, BlockBytes, ParseUint, ParseBlock, Messages.StateBlob.Encoded, Messages.StateBlob.Parse;
    var s := new State(max);
    Js.PreencodeStateBlob(s, m);
    s.Allocate();
    Js.EncodeStateBlob(s, m);
    ghost var bytes := Messages.StateBlob.Encoded(m.Sent());
    assert s.buffer[..] == s.out == bytes;
    Messages.StateBlob.RoundTrip(max, m.Sent(), []);
    assert bytes + [] == bytes;
    var g := new Go.BareclawStateBlob();
    var state := new State.Over(s.buffer[..], max);
    var err := g.Decode(state);
    if err.Failure? {
      return Failure(err.error);
    }
    assert g.Sent() == m.Sent();
    forall i | 0 <= i < |g.Sessions|
      ensures g.Sessions[i].key == m.sessions[i].key && g.Sessions[i].data == Js.OrEmpty(m.sessions[i].data)
    {
      assert g.Sessions[i] == m.Sent().sessions[i];
    }
    return Success(g);
  }

  method JsToGoToolDef(m: Js.ToolDef, max: nat) returns (r: Result<Go.BareclawToolDef, Error>)
    requires Messages.ToolDef.Fits(m.Sent())
    ensures r.Success?
    ensures r.Success? ==> fresh(r.value) && ToolDefMatches(r.value, m)
  {
    hide UintBytes, BlockBytes, ParseUint, ParseBlock, Messages.ToolDef.Encoded, Messages.ToolDef.Parse;
    var s := new State(max);
    Js.PreencodeToolDef(s, m);
    s.Allocate();
    Js.EncodeToolDef(s, m);
    ghost var bytes := Messages.ToolDef.Encoded(m.Sent());
    assert s.buffer[..] == s.out == bytes;
    Messages.ToolDef.RoundTrip(m.Sent(), []);
    assert bytes + [] == bytes;
    var g := new Go.BareclawToolDef();
    var state := new State.Over(s.buffer[..], max);
    var err := g.Decode(state);
    return Success(g);
  }

  method JsToGoToolCall(m: Js.ToolCall, max: nat) returns (r: Result<Go.BareclawToolCall, Error>)
    requires Messages.ToolCall.Fits(m.Sent())
    ensures r.Success?
    ensures r.Success? ==> fresh(r.value) && ToolCallMatches(r.value, m)
  {
    hide UintBytes, BlockBytes, ParseUint, ParseBlock, Messages.ToolCall.Encoded, Messages.ToolCall.Parse;
    var s := new State(max);
    Js.PreencodeToolCall(s, m);
    s.Allocate();
    Js.EncodeToolCall(s, m);
    ghost var bytes := Messages.ToolCall.Encoded(m.Sent());
    assert s.buffer[..] == s.out == bytes;
    Messages.ToolCall.RoundTrip(m.Sent(), []);
    assert bytes + [] == bytes;
    var g := new Go.BareclawToolCall();
    var state := new State.Over(s.buffer[..], max);
    var err := g.Decode(state);
    return Success(g);
  }

  method JsToGoToolResult(m: Js.ToolResult, max: nat) returns (r: Result<Go.BareclawToolResult, Error>)
    requires Messages.ToolResult.Fits(m.Sent())
    ensures r.Success?
    ensures r.Success? ==> fresh(r.value) && ToolResultMatches(r.value, m)
  {
    hide UintBytes, BlockBytes, ParseUint, ParseBlock, Messages.ToolResult.Encoded, Messages.ToolResult.Parse;
    var s := new State(max);
    Js.PreencodeToolResult(s, m);
    s.Allocate();
    Js.EncodeToolResult(s, m);
    ghost var bytes := Messages.ToolResult.Encoded(m.Sent());
    assert s.buffer[..] == s.out == bytes;
    Messages.ToolResult.RoundTrip(m.Sent(), []);
    assert bytes + [] == bytes;
    var g := new Go.BareclawToolResult();
    var state := new State.Over(s.buffer[..], max);
    var err := g.Decode(state);
    return Success(g);
  }

  method JsToGoStateChunk(m: Js.StateChunk, max: nat) returns (r: Result<Go.BareclawStateChunk, Error>)
    requires |m.sessionKey| < U64 && |Js.OrEmpty(m.data)| < U64
    ensures r.Success? <==> m.Sent().field != 0
    ensures r.Success? ==> fresh(r.value) && StateChunkMatches(r.value, m)
    ensures r.Failure? ==> r.error == UnknownEnum
  {
    hide UintBytes, BlockBytes, ParseUint, ParseBlock, Messages.StateChunk.Encoded, Messages.StateChunk.Parse;
    var s := new State(max);
    Js.PreencodeStateChunk(s, m);
    s.Allocate();
    var sent := Js.EncodeStateChunk(s, m);
    if sent.Fail? {
      return Failure(sent.error);
    }
    ghost var bytes := Messages.StateChunk.Encoded(m.Sent());
    assert s.buffer[..] == s.out == bytes;
    Messages.StateChunk.RoundTrip(m.Sent(), []);
    assert bytes + [] == bytes;
    var g := new Go.BareclawStateChunk();
    var state := new State.Over(s.buffer[..], max);
    var err := g.Decode(state);
    return Success(g);
  }

  // from Go to JavaScript what is empty arrives as null, and all else as it was

  method GoToJsChatRequest(g: Go.BareclawChatRequest, max: nat) returns (m: Result<Js.ChatRequest, Error>)
    requires Messages.ChatRequest.Fits(g.Sent())
    ensures m.Success?
    ensures m.Success? ==>
              && m.value.sessionId == g.SessionId
              && m.value.message == g.Message
              && m.value.model == Go.Text(g.Model)
  {
    hide UintBytes, BlockBytes, ParseUint, ParseBlock, Messages.ChatRequest.Encoded, Messages.ChatRequest.Parse;
    ghost var sent := g.Sent();
    var marshalled := Hrpc.Marshal(Hrpc.OfChatRequest(g), max);
    var data := marshalled.value;
    assert data == Messages.ChatRequest.Encoded(sent);
    Messages.ChatRequest.RoundTrip(sent, []);
    assert data + [] == data;
    var state := new State.Over(data, max);
    m := Js.DecodeChatRequest(state);
  }

  method GoToJsChatChunk(g: Go.BareclawChatChunk, max: nat) returns (m: Result<Js.ChatChunk, Error>)
    requires |g.Content| < U64
    ensures m.Success? <==> g.Sent().kind != 0
    ensures m.Success? ==>
              && m.value.kind == Some(g.Type)
              && m.value.content == Go.Text(g.Content)
    ensures m.Failure? ==> m.error == UnknownEnum
  {
    hide UintBytes, BlockBytes, ParseUint, ParseBlock, Messages.ChatChunk.Encoded, Messages.ChatChunk.Parse;
    ghost var sent := g.Sent();
    var data :- Hrpc.Marshal(Hrpc.OfChatChunk(g), max);
    assert data == Messages.ChatChunk.Encoded(sent);
    Messages.ChatChunk.RoundTrip(sent, []);
    assert data + [] == data;
    var state := new State.Over(data, max);
    m := Js.DecodeChatChunk(state);
  }

  method GoToJsSessionScope(g: Go.BareclawSessionScope, max: nat) returns (m: Result<Js.SessionScope, Error>)
    requires Messages.SessionScope.Fits(g.Sent())
    ensures m.Success?
    ensures m.Success? ==>
              && m.value.agentId == Go.Text(g.AgentId)
              && m.value.channel == Go.Text(g.Channel)
              && m.value.account == Go.Text(g.Account)
              && m.value.peer == Go.Text(g.Peer)
  {
    hide UintBytes, BlockBytes, ParseUint, ParseBlock, Messages.SessionScope.Encoded, Messages.SessionScope.Parse;
    ghost var sent := g.Sent();
    var marshalled := Hrpc.Marshal(Hrpc.OfSessionScope(g), max);
    var data := marshalled.value;
    assert data == Messages.SessionScope.Encoded(sent);
    Messages.SessionScope.RoundTrip(sent, []);
    assert data + [] == data;
    var state := new State.Over(data, max);
    m := Js.DecodeSessionScope(state);
  }

  method GoToJsSessionKey(g: Go.BareclawSessionKey, max: nat) returns (m: Result<Js.SessionKey, Error>)
    requires Messages.SessionKey.Fits(g.Sent())
    ensures m.Success?
    ensures m.Success? ==> m.value.key == g.Key
  {
    hide UintBytes, BlockBytes, ParseUint, ParseBlock, Messages.SessionKey.Encoded, Messages.SessionKey.Parse;
    ghost var sent := g.Sent();
    var marshalled := Hrpc.Marshal(Hrpc.OfSessionKey(g), max);
    var data := marshalled.value;
    assert data == Messages.SessionKey.Encoded(sent);
    Messages.SessionKey.RoundTrip(sent, []);
    assert data + [] == data;
    var state := new State.Over(data, max);
    m := Js.DecodeSessionKey(state);
  }

  method GoToJsSessionList(g: Go.BareclawSessionList, max: nat) returns (m: Result<Js.SessionList, Error>)
    requires Messages.SessionList.Fits(g.Sent())
    ensures m.Success? <==> |g.Keys| <= max
    ensures m.Success? ==> m.value.keys == g.Keys
    ensures m.Failure? ==> m.error == ArrayTooBig
  {
    hide UintBytes, BlockBytes, ParseUint, ParseBlock, Messages.SessionList.Encoded, Messages.SessionList.Parse;
    ghost var sent := g.Sent();
    var marshalled := Hrpc.Marshal(Hrpc.OfSessionList(g), max);
    var data := marshalled.value;
    assert data == Messages.SessionList.Encoded(sent);
    Messages.SessionList.RoundTrip(max, sent, []);
    assert data + [] == data;
    var state := new State.Over(data, max);
    m := Js.DecodeSessionList(state);
  }

  method GoToJsSessionBlob(g: Go.BareclawSessionBlob, max: nat) returns (m: Result<Js.SessionBlob, Error>)
    requires Messages.SessionBlob.Fits(g.Sent())
    ensures m.Success?
    ensures m.Success? ==>
              && m.value.key == g.Key
              && m.value.data == Go.Text(g.Data)
  {
    hide UintBytes, BlockBytes, ParseUint, ParseBlock, Messages.SessionBlob.Encoded, Messages.SessionBlob.Parse;
    ghost var sent := g.Sent();
    var marshalled := Hrpc.Marshal(Hrpc.OfSessionBlob(g), max);
    var data := marshalled.value;
    assert data == Messages.SessionBlob.Encoded(sent);
    Messages.SessionBlob.RoundTrip(sent, []);
    assert data + [] == data;
    var state := new State.Over(data, max);
    m := Js.DecodeSessionBlob(state);
  }

  method GoToJsStateBlob(g: Go.BareclawStateBlob, max: nat) returns (m: Result<Js.StateBlob, Error>)
    requires Messages.StateBlob.Fits(g.Sent())
    ensures m.Success? <==> |g.Sessions| <= max
    ensures m.Success? ==>
              && |m.value.sessions| == |g.Sessions|
              && forall i | 0 <= i < |g.Sessions| ::
                   && m.value.sessions[i].key == g.Sessions[i].key
                   && m.value.sessions[i].data == Go.Text(g.Sessions[i].data)
    ensures m.Failure? ==> m.error == ArrayTooBig
  {
    hide UintBytes, BlockBytes, ParseUint, ParseBlock, Messages.StateBlob.Encoded, Messages.StateBlob.Parse;
    ghost var sent := g.Sent();
    var marshalled := Hrpc.Marshal(Hrpc.OfStateBlob(g), max);
    var data := marshalled.value;
    assert data == Messages.StateBlob.Encoded(sent);
    Messages.StateBlob.RoundTrip(max, sent, []);
    assert data + [] == data;
    var state := new State.Over(data, max);
    m := Js.DecodeStateBlob(state);
  }

  method GoToJsToolDef(g: Go.BareclawToolDef, max: nat) returns (m: Result<Js.ToolDef, Error>)
    requires Messages.ToolDef.Fits(g.Sent())
    ensures m.Success?
    ensures m.Success? ==>
              && m.value.name == g.Name
              && m.value.description == g.Description
              && m.value.inputSchema == Js.Truthy(g.InputSchema)
  {
    hide UintBytes, BlockBytes, ParseUint, ParseBlock, Messages.ToolDef.Encoded, Messages.ToolDef.Parse;
    ghost var sent := g.Sent();
    var marshalled := Hrpc.Marshal(Hrpc.OfToolDef(g), max);
    var data := marshalled.value;
    assert data == Messages.ToolDef.Encoded(sent);
    Messages.ToolDef.RoundTrip(sent, []);
    assert data + [] == data;
    var state := new State.Over(data, max);
    m := Js.DecodeToolDef(state);
  }

  method GoToJsToolCall(g: Go.BareclawToolCall, max: nat) returns (m: Result<Js.ToolCall, Error>)
    requires Messages.ToolCall.Fits(g.Sent())
    ensures m.Success?
    ensures m.Success? ==>
              && m.value.callId == g.CallId
              && m.value.name == g.Name
              && m.value.input == Go.Text(g.Input)
  {
    hide UintBytes, BlockBytes, ParseUint, ParseBlock, Messages.ToolCall.Encoded, Messages.ToolCall.Parse;
    ghost var sent := g.Sent();
    var marshalled := Hrpc.Marshal(Hrpc.OfToolCall(g), max);
    var data := marshalled.value;
    assert data == Messages.ToolCall.Encoded(sent);
    Messages.ToolCall.RoundTrip(sent, []);
    assert data + [] == data;
    var state := new State.Over(data, max);
    m := Js.DecodeToolCall(state);
  }

  method GoToJsToolResult(g: Go.BareclawToolResult, max: nat) returns (m: Result<Js.ToolResult, Error>)
    requires Messages.ToolResult.Fits(g.Sent())
    ensures m.Success?
    ensures m.Success? ==>
              && m.value.callId == g.CallId
              && m.value.output == Js.Truthy(g.Output)
              && m.value.errMsg == Go.Text(g.ErrMsg)
  {
    hide UintBytes, BlockBytes, ParseUint, ParseBlock, Messages.ToolResult.Encoded, Messages.ToolResult.Parse;
    ghost var sent := g.Sent();
    var marshalled := Hrpc.Marshal(Hrpc.OfToolResult(g), max);
    var data := marshalled.value;
    assert data == Messages.ToolResult.Encoded(sent);
    Messages.ToolResult.RoundTrip(sent, []);
    assert data + [] == data;
    var state := new State.Over(data, max);
    m := Js.DecodeToolResult(state);
  }

  method GoToJsStateChunk(g: Go.BareclawStateChunk, max: nat) returns (m: Result<Js.StateChunk, Error>)
    requires |g.SessionKey| < U64 && |g.Data| < U64
    ensures m.Success? <==> g.Sent().field != 0
    ensures m.Success? ==>
              && m.value.sessionKey == g.SessionKey
              && m.value.field == Some(g.Field)
              && m.value.data == Go.Text(g.Data)
    ensures m.Failure? ==> m.error == UnknownEnum
  {
    hide UintBytes, BlockBytes, ParseUint, ParseBlock, Messages.StateChunk.Encoded, Messages.StateChunk.Parse;
    ghost var sent := g.Sent();
    var data :- Hrpc.Marshal(Hrpc.OfStateChunk(g), max);
    assert data == Messages.StateChunk.Encoded(sent);
    Messages.StateChunk.RoundTrip(sent, []);
    assert data + [] == data;
    var state := new State.Over(data, max);
    m := Js.DecodeStateChunk(state);
  }
}

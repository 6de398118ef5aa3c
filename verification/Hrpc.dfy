/** hrpc's encode and decode (go/hrpc/hrpc.go): marshalling of any message, and the shortcut that leaves
    the receiver alone when a payload is empty. */
module Hrpc {
  import opened Wrappers
  import opened Wire
  import opened CodecState
  import opened GoSchema
  import Messages

  /** The "any" argument: a pointer to one of the generated structs. */
  datatype Any =
    | Empty(empty: BareclawEmpty)
    | OfChatRequest(chatRequest: BareclawChatRequest)
    | OfChatChunk(chatChunk: BareclawChatChunk)
    | OfSessionScope(sessionScope: BareclawSessionScope)
    | OfSessionKey(sessionKey: BareclawSessionKey)
    | OfSessionList(sessionList: BareclawSessionList)
    | OfSessionBlob(sessionBlob: BareclawSessionBlob)
    | OfStateBlob(stateBlob: BareclawStateBlob)
    | OfToolDef(toolDef: BareclawToolDef)
    | OfToolCall(toolCall: BareclawToolCall)
    | OfToolResult(toolResult: BareclawToolResult)
    | OfStateChunk(stateChunk: BareclawStateChunk)
  {
    function Ref(): object {
      match this
      case Empty(m) => m
      case OfChatRequest(m) => m
      case OfChatChunk(m) => m
      case OfSessionScope(m) => m
      case OfSessionKey(m) => m
      case OfSessionList(m) => m
      case OfSessionBlob(m) => m
      case OfStateBlob(m) => m
      case OfToolDef(m) => m
      case OfToolCall(m) => m
      case OfToolResult(m) => m
      case OfStateChunk(m) => m
    }

    function Encoded(): Bytes
      reads Ref()
    {
      match this
      case Empty(_) => []
      case OfChatRequest(m) => Messages.ChatRequest.Encoded(m.Sent())
      case OfChatChunk(m) => Messages.ChatChunk.Encoded(m.Sent())
      case OfSessionScope(m) => Messages.SessionScope.Encoded(m.Sent())
      case OfSessionKey(m) => Messages.SessionKey.Encoded(m.Sent())
      case OfSessionList(m) => Messages.SessionList.Encoded(m.Sent())
      case OfSessionBlob(m) => Messages.SessionBlob.Encoded(m.Sent())
      case OfStateBlob(m) => Messages.StateBlob.Encoded(m.Sent())
      case OfToolDef(m) => Messages.ToolDef.Encoded(m.Sent())
      case OfToolCall(m) => Messages.ToolCall.Encoded(m.Sent())
      case OfToolResult(m) => Messages.ToolResult.Encoded(m.Sent())
      case OfStateChunk(m) => Messages.StateChunk.Encoded(m.Sent())
    }

    /** No enum field holds a string outside its enum. */
    predicate Known()
      reads Ref()
    {
      match this
      case OfChatChunk(m) => m.Sent().kind != 0
      case OfStateChunk(m) => m.Sent().field != 0
      case _ => true
    }

    /** The schema decoder of this kind of message fails on the bytes. */
    predicate Refuses(data: Bytes, max: nat) {
      match this
      case Empty(_) => false
      case OfChatRequest(_) => Messages.ChatRequest.Parse(data).Err?
      case OfChatChunk(_) => Messages.ChatChunk.Parse(data).Err?
      case OfSessionScope(_) => Messages.SessionScope.Parse(data).Err?
      case OfSessionKey(_) => Messages.SessionKey.Parse(data).Err?
      case OfSessionList(_) => Messages.SessionList.Parse(max, data).Err?
      case OfSessionBlob(_) => Messages.SessionBlob.Parse(data).Err?
      case OfStateBlob(_) => Messages.StateBlob.Parse(max, data).Err?
      case OfToolDef(_) => Messages.ToolDef.Parse(data).Err?
      case OfToolCall(_) => Messages.ToolCall.Parse(data).Err?
      case OfToolResult(_) => Messages.ToolResult.Parse(data).Err?
      case OfStateChunk(_) => Messages.StateChunk.Parse(data).Err?
    }
  }

  method Preencode(v: Any, s: State)
    modifies s`End
    ensures s.End == old(s.End) + |v.Encoded()|
  {
    match v
    case Empty(m) => m.Preencode(s);
    case OfChatRequest(m) => m.Preencode(s);
    case OfChatChunk(m) => m.Preencode(s);
    case OfSessionScope(m) => m.Preencode(s);
    case OfSessionKey(m) => m.Preencode(s);
    case OfSessionList(m) => m.Preencode(s);
    case OfSessionBlob(m) => m.Preencode(s);
    case OfStateBlob(m) => m.Preencode(s);
    case OfToolDef(m) => m.Preencode(s);
    case OfToolCall(m) => m.Preencode(s);
    case OfToolResult(m) => m.Preencode(s);
    case OfStateChunk(m) => m.Preencode(s);
  }

  method Encode(v: Any, s: State) returns (err: Outcome<Error>)
    requires s.Writable() && |s.out| + |v.Encoded()| <= s.End
    modifies s`Start, s`out, s.buffer
    ensures err.Pass? <==> old(v.Known())
    ensures err.Pass? ==> s.Wrote(old(v.Encoded()))
    ensures err.Fail? ==> err.error == UnknownEnum
  {
    hide UintBytes, BlockBytes, OptBytes, ArrayBytes;
    match v
    case Empty(m) =>
      err := m.Encode(s);
      assert s.out == s.out + [];
    case OfChatRequest(m) => err := m.Encode(s);
    case OfChatChunk(m) => err := m.Encode(s);
    case OfSessionScope(m) => err := m.Encode(s);
    case OfSessionKey(m) => err := m.Encode(s);
    case OfSessionList(m) => err := m.Encode(s);
    case OfSessionBlob(m) => err := m.Encode(s);
    case OfStateBlob(m) => err := m.Encode(s);
    case OfToolDef(m) => err := m.Encode(s);
    case OfToolCall(m) => err := m.Encode(s);
    case OfToolResult(m) => err := m.Encode(s);
    case OfStateChunk(m) => err := m.Encode(s);
  }

  /** A buffer of the size Preencode computes. */
  method Reserve(v: Any, max: nat) returns (s: State)
    ensures fresh(s) && fresh(s.buffer) && s.Writable() && s.out == []
    ensures s.End == s.buffer.Length == |v.Encoded()|
  {
    hide UintBytes, BlockBytes, OptBytes, ArrayBytes;
    s := new State(max);
    Preencode(v, s);
    s.Allocate();
  }

  /** cenc.Marshal: the result is exactly the message's encoding, and the buffer is exactly filled. */
  method Marshal(v: Any, max: nat) returns (data: Result<Bytes, Error>)
    ensures data.Success? <==> v.Known()
    ensures data.Success? ==> data.value == v.Encoded()
    ensures data.Failure? ==> data.error == UnknownEnum
  {
    hide UintBytes, BlockBytes;
    ghost var bytes := v.Encoded();
    var s := Reserve(v, max);
    var err := Encode(v, s);
    if err.Fail? {
      return Failure(err.error);
    }
    assert s.out == [] + bytes == bytes;
    assert s.buffer[..] == s.out;
    return Success(s.buffer[..]);
  }

  // ----- decode -----

  /** Only the empty message encodes to nothing, and every struct's own decoder refuses an empty payload: decode's
      shortcut never swallows a struct. */
  lemma OnlyEmptyIsEmpty(v: Any, max: nat)
    ensures v.Encoded() == [] <==> v.Empty?
    ensures v.Refuses([], max) <==> !v.Empty?
  {
  }

  // decode for each kind of receiver: an empty payload leaves it as it was, any other goes to its schema decoder

  method DecodeChatRequest(data: Bytes, v: BareclawChatRequest, max: nat) returns (err: Result<(), Error>)
    modifies v
    ensures data == [] ==> err.Success? && unchanged(v)
    ensures data != [] && err.Failure? ==> Messages.ChatRequest.Parse(data) == Err(err.error)
    ensures data != [] && err.Success? ==>
              var p := Messages.ChatRequest.Parse(data);
              && p.Ok?
              && v.SessionId == p.value.sessionId
              && v.Message == p.value.message
              && v.Model == Got(p.value.model, old(v.Model))
  {
    hide ParseUint, ParseBlock, Messages.ChatRequest.Parse;
    if |data| == 0 {
      return Success(());
    }
    var s := new State.Over(data, max);
    err := v.Decode(s);
  }

  method DecodeChatChunk(data: Bytes, v: BareclawChatChunk, max: nat) returns (err: Result<(), Error>)
    modifies v
    ensures data == [] ==> err.Success? && unchanged(v)
    ensures data != [] && err.Failure? ==> Messages.ChatChunk.Parse(data) == Err(err.error)
    ensures data != [] && err.Success? ==>
              var p := Messages.ChatChunk.Parse(data);
              && p.Ok?
              && v.Type == ChunkTypeName(p.value.kind)
              && v.Content == Got(p.value.content, old(v.Content))
  {
    hide ParseUint, ParseBlock, Messages.ChatChunk.Parse;
    if |data| == 0 {
      return Success(());
    }
    var s := new State.Over(data, max);
    err := v.Decode(s);
  }

  method DecodeSessionScope(data: Bytes, v: BareclawSessionScope, max: nat) returns (err: Result<(), Error>)
    modifies v
    ensures data == [] ==> err.Success? && unchanged(v)
    ensures data != [] && err.Failure? ==> Messages.SessionScope.Parse(data) == Err(err.error)
    ensures data != [] && err.Success? ==>
              var p := Messages.SessionScope.Parse(data);
              && p.Ok?
              && v.AgentId == Got(p.value.agentId, old(v.AgentId))
              && v.Channel == Got(p.value.channel, old(v.Channel))
              && v.Account == Got(p.value.account, old(v.Account))
              && v.Peer == Got(p.value.peer, old(v.Peer))
  {
    hide ParseUint, ParseBlock, Messages.SessionScope.Parse;
    if |data| == 0 {
      return Success(());
    }
    var s := new State.Over(data, max);
    err := v.Decode(s);
  }

  method DecodeSessionKey(data: Bytes, v: BareclawSessionKey, max: nat) returns (err: Result<(), Error>)
    modifies v
    ensures data == [] ==> err.Success? && unchanged(v)
    ensures data != [] && err.Failure? ==> Messages.SessionKey.Parse(data) == Err(err.error)
    ensures data != [] && err.Success? ==>
              var p := Messages.SessionKey.Parse(data);
              && p.Ok?
              && v.Key == p.value.key
  {
    hide ParseUint, ParseBlock, Messages.SessionKey.Parse;
    if |data| == 0 {
      return Success(());
    }
    var s := new State.Over(data, max);
    err := v.Decode(s);
  }

  method DecodeSessionList(data: Bytes, v: BareclawSessionList, max: nat) returns (err: Result<(), Error>)
    modifies v
    ensures data == [] ==> err.Success? && unchanged(v)
    ensures data != [] && err.Failure? ==> Messages.SessionList.Parse(max, data) == Err(err.error)
    ensures data != [] && err.Success? ==>
              var p := Messages.SessionList.Parse(max, data);
              p.Ok? && v.Sent() == p.value
  {
    hide ParseUint, ParseBlock, Messages.SessionList.Parse;
    if |data| == 0 {
      return Success(());
    }
    var s := new State.Over(data, max);
    err := v.Decode(s);
  }

  method DecodeSessionBlob(data: Bytes, v: BareclawSessionBlob, max: nat) returns (err: Result<(), Error>)
    modifies v
    ensures data == [] ==> err.Success? && unchanged(v)
    ensures data != [] && err.Failure? ==> Messages.SessionBlob.Parse(data) == Err(err.error)
    ensures data != [] && err.Success? ==>
              var p := Messages.SessionBlob.Parse(data);
              && p.Ok?
              && v.Key == p.value.key
              && v.Data == p.value.data
  {
    hide ParseUint, ParseBlock, Messages.SessionBlob.Parse;
    if |data| == 0 {
      return Success(());
    }
    var s := new State.Over(data, max);
    err := v.Decode(s);
  }

  method DecodeStateBlob(data: Bytes, v: BareclawStateBlob, max: nat) returns (err: Result<(), Error>)
    modifies v
    ensures data == [] ==> err.Success? && unchanged(v)
    ensures data != [] && err.Failure? ==> Messages.StateBlob.Parse(max, data) == Err(err.error)
    ensures data != [] && err.Success? ==>
              var p := Messages.StateBlob.Parse(max, data);
              p.Ok? && v.Sent() == p.value
  {
    hide ParseUint, ParseBlock, Messages.StateBlob.Parse;
    if |data| == 0 {
      return Success(());
    }
    var s := new State.Over(data, max);
    err := v.Decode(s);
  }

  method DecodeToolDef(data: Bytes, v: BareclawToolDef, max: nat) returns (err: Result<(), Error>)
    modifies v
    ensures data == [] ==> err.Success? && unchanged(v)
    ensures data != [] && err.Failure? ==> Messages.ToolDef.Parse(data) == Err(err.error)
    ensures data != [] && err.Success? ==>
              var p := Messages.ToolDef.Parse(data);
              && p.Ok?
              && v.Name == p.value.name
              && v.Description == p.value.description
              && v.InputSchema == (if p.value.inputSchema.Some? then p.value.inputSchema else old(v.InputSchema))
  {
    hide ParseUint, ParseBlock, Messages.ToolDef.Parse;
    if |data| == 0 {
      return Success(());
    }
    var s := new State.Over(data, max);
    err := v.Decode(s);
  }

  method DecodeToolCall(data: Bytes, v: BareclawToolCall, max: nat) returns (err: Result<(), Error>)
    modifies v
    ensures data == [] ==> err.Success? && unchanged(v)
    ensures data != [] && err.Failure? ==> Messages.ToolCall.Parse(data) == Err(err.error)
    ensures data != [] && err.Success? ==>
              var p := Messages.ToolCall.Parse(data);
              && p.Ok?
              && v.CallId == p.value.callId
              && v.Name == p.value.name
              && v.Input == p.value.input
  {
    hide ParseUint, ParseBlock, Messages.ToolCall.Parse;
    if |data| == 0 {
      return Success(());
    }
    var s := new State.Over(data, max);
    err := v.Decode(s);
  }

  method DecodeToolResult(data: Bytes, v: BareclawToolResult, max: nat) returns (err: Result<(), Error>)
    modifies v
    ensures data == [] ==> err.Success? && unchanged(v)
    ensures data != [] && err.Failure? ==> Messages.ToolResult.Parse(data) == Err(err.error)
    ensures data != [] && err.Success? ==>
              var p := Messages.ToolResult.Parse(data);
              && p.Ok?
              && v.CallId == p.value.callId
              && v.Output == (if p.value.output.Some? then p.value.output else old(v.Output))
              && v.ErrMsg == Got(p.value.errMsg, old(v.ErrMsg))
  {
    hide ParseUint, ParseBlock, Messages.ToolResult.Parse;
    if |data| == 0 {
      return Success(());
    }
    var s := new State.Over(data, max);
    err := v.Decode(s);
  }

  method DecodeStateChunk(data: Bytes, v: BareclawStateChunk, max: nat) returns (err: Result<(), Error>)
    modifies v
    ensures data == [] ==> err.Success? && unchanged(v)
    ensures data != [] && err.Failure? ==> Messages.StateChunk.Parse(data) == Err(err.error)
    ensures data != [] && err.Success? ==>
              var p := Messages.StateChunk.Parse(data);
              && p.Ok?
              && v.SessionKey == p.value.sessionKey
              && v.Field == StateFieldName(p.value.field)
              && v.Data == p.value.data
  {
    hide ParseUint, ParseBlock, Messages.StateChunk.Parse;
    if |data| == 0 {
      return Success(());
    }
    var s := new State.Over(data, max);
    err := v.Decode(s);
  }

  /** decode of any receiver. */
  method Decode(data: Bytes, v: Any, max: nat) returns (err: Result<(), Error>)
    modifies v.Ref()
    ensures data == [] ==> err.Success? && unchanged(v.Ref())
    ensures data != [] ==> (err.Failure? <==> v.Refuses(data, max))
  {
    match v
    case Empty(_) => err := Success(());
    case OfChatRequest(m) => err := DecodeChatRequest(data, m, max);
    case OfChatChunk(m) => err := DecodeChatChunk(data, m, max);
    case OfSessionScope(m) => err := DecodeSessionScope(data, m, max);
    case OfSessionKey(m) => err := DecodeSessionKey(data, m, max);
    case OfSessionList(m) => err := DecodeSessionList(data, m, max);
    case OfSessionBlob(m) => err := DecodeSessionBlob(data, m, max);
    case OfStateBlob(m) => err := DecodeStateBlob(data, m, max);
    case OfToolDef(m) => err := DecodeToolDef(data, m, max);
    case OfToolCall(m) => err := DecodeToolCall(data, m, max);
    case OfToolResult(m) => err := DecodeToolResult(data, m, max);
    case OfStateChunk(m) => err := DecodeStateChunk(data, m, max);
  }

  // encode, then decode into a zero receiver: for every kind of message, the same message, unless an enum field
  // holds no known name or an array is longer than a reader accepts

  method TransferChatRequest(v: BareclawChatRequest, max: nat) returns (r: Result<BareclawChatRequest, Error>)
    requires Messages.ChatRequest.Fits(v.Sent())
    ensures r.Success?
    ensures r.Success? ==> fresh(r.value) && r.value.Sent() == v.Sent()
  {
    hide UintBytes, BlockBytes, ParseUint, ParseBlock, Messages.ChatRequest.Encoded, Messages.ChatRequest.Parse;
    ghost var sent := v.Sent();
    var marshalled := Marshal(OfChatRequest(v), max);
    var data := marshalled.value;
    var w := new BareclawChatRequest();
    Messages.ChatRequest.RoundTrip(sent, []);
    assert data + [] == data;
    OnlyEmptyIsEmpty(OfChatRequest(v), max);
    var err := DecodeChatRequest(data, w, max);
    return Success(w);
  }

  method TransferChatChunk(v: BareclawChatChunk, max: nat) returns (r: Result<BareclawChatChunk, Error>)
    requires |v.Content| < U64
    ensures r.Success? <==> v.Sent().kind != 0
    ensures r.Success? ==> fresh(r.value) && r.value.Sent() == v.Sent()
  {
    hide UintBytes, BlockBytes, ParseUint, ParseBlock, Messages.ChatChunk.Encoded, Messages.ChatChunk.Parse;
    ghost var sent := v.Sent();
    var data :- Marshal(OfChatChunk(v), max);
    var w := new BareclawChatChunk();
    Messages.ChatChunk.RoundTrip(sent, []);
    assert data + [] == data;
    OnlyEmptyIsEmpty(OfChatChunk(v), max);
    var err := DecodeChatChunk(data, w, max);
    return Success(w);
  }

  method TransferSessionScope(v: BareclawSessionScope, max: nat) returns (r: Result<BareclawSessionScope, Error>)
    requires Messages.SessionScope.Fits(v.Sent())
    ensures r.Success?
    ensures r.Success? ==> fresh(r.value) && r.value.Sent() == v.Sent()
  {
    hide UintBytes, BlockBytes, ParseUint, ParseBlock, Messages.SessionScope.Encoded, Messages.SessionScope.Parse;
    ghost var sent := v.Sent();
    var marshalled := Marshal(OfSessionScope(v), max);
    var data := marshalled.value;
    var w := new BareclawSessionScope();
    Messages.SessionScope.RoundTrip(sent, []);
    assert data + [] == data;
    OnlyEmptyIsEmpty(OfSessionScope(v), max);
    var err := DecodeSessionScope(data, w, max);
    return Success(w);
  }

  method TransferSessionKey(v: BareclawSessionKey, max: nat) returns (r: Result<BareclawSessionKey, Error>)
    requires Messages.SessionKey.Fits(v.Sent())
    ensures r.Success?
    ensures r.Success? ==> fresh(r.value) && r.value.Sent() == v.Sent()
  {
    hide UintBytes, BlockBytes, ParseUint, ParseBlock, Messages.SessionKey.Encoded, Messages.SessionKey.Parse;
    ghost var sent := v.Sent();
    var marshalled := Marshal(OfSessionKey(v), max);
    var data := marshalled.value;
    var w := new BareclawSessionKey();
    Messages.SessionKey.RoundTrip(sent, []);
    assert data + [] == data;
    OnlyEmptyIsEmpty(OfSessionKey(v), max);
    var err := DecodeSessionKey(data, w, max);
    return Success(w);
  }

  method TransferSessionList(v: BareclawSessionList, max: nat) returns (r: Result<BareclawSessionList, Error>)
    requires Messages.SessionList.Fits(v.Sent())
    ensures r.Success? <==> |v.Keys| <= max
    ensures r.Success? ==> fresh(r.value) && r.value.Sent() == v.Sent()
  {
    hide UintBytes, BlockBytes, ParseUint, ParseBlock, Messages.SessionList.Encoded, Messages.SessionList.Parse;
    ghost var sent := v.Sent();
    var marshalled := Marshal(OfSessionList(v), max);
    var data := marshalled.value;
    var w := new BareclawSessionList();
    Messages.SessionList.RoundTrip(max, sent, []);
    assert data + [] == data;
    OnlyEmptyIsEmpty(OfSessionList(v), max);
    var err := DecodeSessionList(data, w, max);
    if err.Failure? {
      return Failure(err.error);
    }
    return Success(w);
  }

  method TransferSessionBlob(v: BareclawSessionBlob, max: nat) returns (r: Result<BareclawSessionBlob, Error>)
    requires Messages.SessionBlob.Fits(v.Sent())
    ensures r.Success?
    ensures r.Success? ==> fresh(r.value) && r.value.Sent() == v.Sent()
  {
    hide UintBytes, BlockBytes, ParseUint, ParseBlock, Messages.SessionBlob.Encoded, Messages.SessionBlob.Parse;
    ghost var sent := v.Sent();
    var marshalled := Marshal(OfSessionBlob(v), max);
    var data := marshalled.value;
    var w := new BareclawSessionBlob();
    Messages.SessionBlob.RoundTrip(sent, []);
    assert data + [] == data;
    OnlyEmptyIsEmpty(OfSessionBlob(v), max);
    var err := DecodeSessionBlob(data, w, max);
    return Success(w);
  }

  method TransferStateBlob(v: BareclawStateBlob, max: nat) returns (r: Result<BareclawStateBlob, Error>)
    requires Messages.StateBlob.Fits(v.Sent())
    ensures r.Success? <==> |v.Sessions| <= max
    ensures r.Success? ==> fresh(r.value) && r.value.Sent() == v.Sent()
  {
    hide UintBytes, BlockBytes, ParseUint, ParseBlock, Messages.StateBlob.Encoded, Messages.StateBlob.Parse;
    ghost var sent := v.Sent();
    var marshalled := Marshal(OfStateBlob(v), max);
    var data := marshalled.value;
    var w := new BareclawStateBlob();
    Messages.StateBlob.RoundTrip(max, sent, []);
    assert data + [] == data;
    OnlyEmptyIsEmpty(OfStateBlob(v), max);
    var err := DecodeStateBlob(data, w, max);
    if err.Failure? {
      return Failure(err.error);
    }
    return Success(w);
  }

  method TransferToolDef(v: BareclawToolDef, max: nat) returns (r: Result<BareclawToolDef, Error>)
    requires Messages.ToolDef.Fits(v.Sent())
    ensures r.Success?
    ensures r.Success? ==> fresh(r.value) && r.value.Sent() == v.Sent()
  {
    hide UintBytes, BlockBytes, ParseUint, ParseBlock, Messages.ToolDef.Encoded, Messages.ToolDef.Parse;
    ghost var sent := v.Sent();
    var marshalled := Marshal(OfToolDef(v), max);
    var data := marshalled.value;
    var w := new BareclawToolDef();
    Messages.ToolDef.RoundTrip(sent, []);
    assert data + [] == data;
    OnlyEmptyIsEmpty(OfToolDef(v), max);
    var err := DecodeToolDef(data, w, max);
    return Success(w);
  }

  method TransferToolCall(v: BareclawToolCall, max: nat) returns (r: Result<BareclawToolCall, Error>)
    requires Messages.ToolCall.Fits(v.Sent())
    ensures r.Success?
    ensures r.Success? ==> fresh(r.value) && r.value.Sent() == v.Sent()
  {
    hide UintBytes, BlockBytes, ParseUint, ParseBlock, Messages.ToolCall.Encoded, Messages.ToolCall.Parse;
    ghost var sent := v.Sent();
    var marshalled := Marshal(OfToolCall(v), max);
    var data := marshalled.value;
    var w := new BareclawToolCall();
    Messages.ToolCall.RoundTrip(sent, []);
    assert data + [] == data;
    OnlyEmptyIsEmpty(OfToolCall(v), max);
    var err := DecodeToolCall(data, w, max);
    return Success(w);
  }

  method TransferToolResult(v: BareclawToolResult, max: nat) returns (r: Result<BareclawToolResult, Error>)
    requires Messages.ToolResult.Fits(v.Sent())
    ensures r.Success?
    ensures r.Success? ==> fresh(r.value) && r.value.Sent() == v.Sent()
  {
    hide UintBytes, BlockBytes, ParseUint, ParseBlock, Messages.ToolResult.Encoded, Messages.ToolResult.Parse;
    ghost var sent := v.Sent();
    var marshalled := Marshal(OfToolResult(v), max);
    var data := marshalled.value;
    var w := new BareclawToolResult();
    Messages.ToolResult.RoundTrip(sent, []);
    assert data + [] == data;
    OnlyEmptyIsEmpty(OfToolResult(v), max);
    var err := DecodeToolResult(data, w, max);
    return Success(w);
  }

  method TransferStateChunk(v: BareclawStateChunk, max: nat) returns (r: Result<BareclawStateChunk, Error>)
    requires |v.SessionKey| < U64 && |v.Data| < U64
    ensures r.Success? <==> v.Sent().field != 0
    ensures r.Success? ==> fresh(r.value) && r.value.Sent() == v.Sent()
  {
    hide UintBytes, BlockBytes, ParseUint, ParseBlock, Messages.StateChunk.Encoded, Messages.StateChunk.Parse;
    ghost var sent := v.Sent();
    var data :- Marshal(OfStateChunk(v), max);
    var w := new BareclawStateChunk();
    Messages.StateChunk.RoundTrip(sent, []);
    assert data + [] == data;
    OnlyEmptyIsEmpty(OfStateChunk(v), max);
    var err := DecodeStateChunk(data, w, max);
    return Success(w);
  }
}

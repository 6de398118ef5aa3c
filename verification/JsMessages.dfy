/** The JavaScript half of the codec (spec/hrpc/messages.js). An object field that may be null or
    undefined is an Option; a required field the encoder dereferences is not. */
module JsMessages {
  import opened Wrappers
  import opened Wire
  import opened CodecState
  import Messages

  /** if (x): null, undefined and the empty string are falsy; applied to a buffer that was read, a
      zero-length buffer comes back as null. */
  function Truthy(o: Option<Bytes>): Option<Bytes> {
    if o.Some? && o.value != [] then o else None
  }

  /** c.buffer writes null as a zero-length buffer. */
  function OrEmpty(o: Option<Bytes>): Bytes {
    if o.Some? then o.value else []
  }

  // ----- c.uint, c.string and c.buffer: c.encode allocates what preencode added up, so they do not check -----

  method WriteUint(state: State, n: nat)
    requires state.Writable() && |state.out| + UintSize(n) <= state.End
    modifies state`Start, state`out, state.buffer
    ensures state.Wrote(UintBytes(n))
  {
    var err := state.EncodeUint(n);
  }

  method WriteBlock(state: State, b: Bytes)
    requires state.Writable() && |state.out| + |BlockBytes(b)| <= state.End
    modifies state`Start, state`out, state.buffer
    ensures state.Wrote(BlockBytes(b))
  {
    var err := state.EncodeBlock(b);
  }

  method WriteIfTruthy(state: State, o: Option<Bytes>)
    requires state.Writable() && |state.out| + |OptBytes(Truthy(o))| <= state.End
    modifies state`Start, state`out, state.buffer
    ensures state.Wrote(OptBytes(Truthy(o)))
  {
    if Truthy(o).Some? {
      WriteBlock(state, o.value);
    }
  }

  method PreencodeBuffer(state: State, b: Option<Bytes>)
    modifies state`End
    ensures state.End == old(state.End) + |BlockBytes(OrEmpty(b))|
  {
    if b.Some? {
      state.PreencodeBlock(b.value);
    } else {
      state.End := state.End + 1;
    }
  }

  method WriteBuffer(state: State, b: Option<Bytes>)
    requires state.Writable() && |state.out| + |BlockBytes(OrEmpty(b))| <= state.End
    modifies state`Start, state`out, state.buffer
    ensures state.Wrote(BlockBytes(OrEmpty(b)))
  {
    if b.Some? {
      WriteBlock(state, b.value);
    } else {
      state.Put(0);
      assert BlockBytes([]) == [0];
    }
  }

  method ReadBuffer(state: State) returns (b: Result<Option<Bytes>, Error>)
    requires state.Readable()
    modifies state`Start, state`left
    ensures state.Readable()
    ensures b.Success? ==>
              var p := ParseBlock(old(state.left));
              p.Ok? && state.left == p.rest && b.value == Truthy(Some(p.value))
    ensures b.Failure? ==> ParseBlock(old(state.left)) == Err(b.error)
  {
    var bytes :- state.DecodeBlock();
    return Success(if bytes == [] then None else Some(bytes));
  }

  method ReadStringIf(state: State, present: bool) returns (o: Result<Option<Bytes>, Error>)
    requires state.Readable()
    modifies state`Start, state`left
    ensures state.Readable()
    ensures o.Success? ==> ParseOpt(present, old(state.left)) == Ok(o.value, state.left)
    ensures o.Failure? ==> ParseOpt(present, old(state.left)) == Err(o.error)
  {
    if !present {
      return Success(None);
    }
    var s :- state.DecodeBlock();
    return Success(Some(s));
  }

  method ReadBufferIf(state: State, present: bool) returns (o: Result<Option<Bytes>, Error>)
    requires state.Readable()
    modifies state`Start, state`left
    ensures state.Readable()
    ensures o.Success? ==>
              var p := ParseOpt(present, old(state.left));
              p.Ok? && state.left == p.rest && o.value == Truthy(p.value)
    ensures o.Failure? ==> ParseOpt(present, old(state.left)) == Err(o.error)
  {
    if !present {
      return Success(None);
    }
    o := ReadBuffer(state);
  }

  // ----- ChunkType: a string; null when an index read off the wire is unknown -----

  function ChunkTypeIndex(t: Option<string>): (n: nat)
    ensures n <= 4
  {
    if t.None? then 0 else if t.value == "content" then 1 else if t.value == "thinking" then 2
        else if t.value == "done" then 3 else if t.value == "error" then 4 else 0
  }

  function ChunkTypeName(n: nat): Option<string> {
    if n == 1 then Some("content") else if n == 2 then Some("thinking") else if n == 3 then Some("done")
        else if n == 4 then Some("error") else None
  }

  method EncodeChunkType(state: State, t: Option<string>) returns (err: Outcome<Error>)
    requires state.Writable() && |state.out| + 1 <= state.End
    modifies state`Start, state`out, state.buffer
    ensures err.Pass? <==> ChunkTypeIndex(t) != 0
    ensures err.Pass? ==> state.Wrote(UintBytes(ChunkTypeIndex(t)))
    ensures err.Fail? ==> err.error == UnknownEnum
  {
    if ChunkTypeIndex(t) == 0 {
      return Fail(UnknownEnum);
    }
    WriteUint(state, ChunkTypeIndex(t));
    return Pass;
  }

  method DecodeChunkType(state: State) returns (t: Result<Option<string>, Error>)
    requires state.Readable()
    modifies state`Start, state`left
    ensures state.Readable()
    ensures var p := ParseEnum(4, old(state.left));
            if p.Ok? then t == Success(ChunkTypeName(p.value)) && state.left == p.rest else t == Failure(p.error)
  {
    var n :- state.DecodeUint();
    return Success(ChunkTypeName(n));
  }

  // ----- StateField: a string; null when an index read off the wire is unknown -----

  function StateFieldIndex(t: Option<string>): (n: nat)
    ensures n <= 2
  {
    if t.None? then 0 else if t.value == "history" then 1 else if t.value == "summary" then 2 else 0
  }

  function StateFieldName(n: nat): Option<string> {
    if n == 1 then Some("history") else if n == 2 then Some("summary") else None
  }

  method EncodeStateField(state: State, t: Option<string>) returns (err: Outcome<Error>)
    requires state.Writable() && |state.out| + 1 <= state.End
    modifies state`Start, state`out, state.buffer
    ensures err.Pass? <==> StateFieldIndex(t) != 0
    ensures err.Pass? ==> state.Wrote(UintBytes(StateFieldIndex(t)))
    ensures err.Fail? ==> err.error == UnknownEnum
  {
    if StateFieldIndex(t) == 0 {
      return Fail(UnknownEnum);
    }
    WriteUint(state, StateFieldIndex(t));
    return Pass;
  }

  method DecodeStateField(state: State) returns (t: Result<Option<string>, Error>)
    requires state.Readable()
    modifies state`Start, state`left
    ensures state.Readable()
    ensures var p := ParseEnum(2, old(state.left));
            if p.Ok? then t == Success(StateFieldName(p.value)) && state.left == p.rest else t == Failure(p.error)
  {
    var n :- state.DecodeUint();
    return Success(StateFieldName(n));
  }

  // ----- structs -----

  // encoding1
  datatype ChatRequest = ChatRequest(sessionId: Bytes, message: Bytes, model: Option<Bytes>) {
    /** The message as it travels. */
    function Sent(): Messages.ChatRequest {
      Messages.ChatRequest(sessionId, message, Truthy(model))
    }

    /** What reading w off the wire returns. */
    static function Read(w: Messages.ChatRequest): ChatRequest {
      ChatRequest(w.sessionId, w.message, w.model)
    }
  }

  method PreencodeChatRequest(state: State, m: ChatRequest)
    modifies state`End
    ensures state.End == old(state.End) + |Messages.ChatRequest.Encoded(m.Sent())|
  {
    state.PreencodeBlock(m.sessionId);
    state.PreencodeBlock(m.message);
    state.End := state.End + 1; // the flag word always takes one byte
    if Truthy(m.model).Some? {
      state.PreencodeBlock(m.model.value);
    }
  }

  method EncodeChatRequest(state: State, m: ChatRequest)
    requires state.Writable()
    requires |state.out| + |Messages.ChatRequest.Encoded(m.Sent())| <= state.End
    modifies state`Start, state`out, state.buffer
    ensures state.Wrote(Messages.ChatRequest.Encoded(m.Sent()))
  {
    hide UintBytes, BlockBytes;
    ghost var w := state.out;
    var flags := (if Truthy(m.model).Some? then 1 else 0);
    WriteBlock(state, m.sessionId);
    WriteBlock(state, m.message);
    WriteUint(state, flags);
    if Truthy(m.model).Some? {
      WriteBlock(state, m.model.value);
    }
    Join4(w, BlockBytes(m.sessionId), BlockBytes(m.message), UintBytes(flags), OptBytes(Truthy(m.model)));
  }

  method DecodeChatRequest(state: State) returns (r: Result<ChatRequest, Error>)
    requires state.Readable()
    modifies state`Start, state`left
    ensures state.Readable()
    ensures r.Success? ==>
              var p := Messages.ChatRequest.Parse(old(state.left));
              p.Ok? && state.left == p.rest && r.value == ChatRequest.Read(p.value)
    ensures r.Failure? ==> Messages.ChatRequest.Parse(old(state.left)) == Err(r.error)
  {
    hide ParseUint, ParseBlock, ParseEnum, Has;
    var sessionId :- state.DecodeBlock();
    var message :- state.DecodeBlock();
    var flags :- state.DecodeUint();
    var model :- ReadStringIf(state, Has(flags, 1));
    return Success(ChatRequest(sessionId, message, model));
  }

  // encoding3
  datatype ChatChunk = ChatChunk(kind: Option<string>, content: Option<Bytes>) {
    /** The message as it travels. */
    function Sent(): Messages.ChatChunk {
      Messages.ChatChunk(ChunkTypeIndex(kind), Truthy(content))
    }

    /** What reading w off the wire returns. */
    static function Read(w: Messages.ChatChunk): ChatChunk {
      ChatChunk(ChunkTypeName(w.kind), w.content)
    }
  }

  method PreencodeChatChunk(state: State, m: ChatChunk)
    modifies state`End
    ensures state.End == old(state.End) + |Messages.ChatChunk.Encoded(m.Sent())|
  {
    state.End := state.End + 1; // at most 4, so always one byte
    state.End := state.End + 1; // the flag word always takes one byte
    if Truthy(m.content).Some? {
      state.PreencodeBlock(m.content.value);
    }
  }

  method EncodeChatChunk(state: State, m: ChatChunk) returns (err: Outcome<Error>)
    requires state.Writable()
    requires |state.out| + |Messages.ChatChunk.Encoded(m.Sent())| <= state.End
    modifies state`Start, state`out, state.buffer
    ensures err.Pass? <==> m.Sent().kind != 0
    ensures err.Pass? ==> state.Wrote(Messages.ChatChunk.Encoded(m.Sent()))
    ensures err.Fail? ==> err.error == UnknownEnum
  {
    hide UintBytes, BlockBytes;
    ghost var w := state.out;
    var flags := (if Truthy(m.content).Some? then 1 else 0);
    :- EncodeChunkType(state, m.kind);
    WriteUint(state, flags);
    if Truthy(m.content).Some? {
      WriteBlock(state, m.content.value);
    }
    Join3(w, UintBytes(m.Sent().kind), UintBytes(flags), OptBytes(Truthy(m.content)));
    return Pass;
  }

  method DecodeChatChunk(state: State) returns (r: Result<ChatChunk, Error>)
    requires state.Readable()
    modifies state`Start, state`left
    ensures state.Readable()
    ensures r.Success? ==>
              var p := Messages.ChatChunk.Parse(old(state.left));
              p.Ok? && state.left == p.rest && r.value == ChatChunk.Read(p.value)
    ensures r.Failure? ==> Messages.ChatChunk.Parse(old(state.left)) == Err(r.error)
  {
    hide ParseUint, ParseBlock, ParseEnum, Has;
    var kind :- DecodeChunkType(state);
    var flags :- state.DecodeUint();
    var content :- ReadStringIf(state, Has(flags, 1));
    return Success(ChatChunk(kind, content));
  }

  // encoding4
  datatype SessionScope = SessionScope(agentId: Option<Bytes>, channel: Option<Bytes>, account: Option<Bytes>,
                                       peer: Option<Bytes>) {
    /** The message as it travels. */
    function Sent(): Messages.SessionScope {
      Messages.SessionScope(Truthy(agentId), Truthy(channel), Truthy(account), Truthy(peer))
    }

    /** What reading w off the wire returns. */
    static function Read(w: Messages.SessionScope): SessionScope {
      SessionScope(w.agentId, w.channel, w.account, w.peer)
    }
  }

  method PreencodeSessionScope(state: State, m: SessionScope)
    modifies state`End
    ensures state.End == old(state.End) + |Messages.SessionScope.Encoded(m.Sent())|
  {
    state.End := state.End + 1; // the flag word always takes one byte
    if Truthy(m.agentId).Some? {
      state.PreencodeBlock(m.agentId.value);
    }
    if Truthy(m.channel).Some? {
      state.PreencodeBlock(m.channel.value);
    }
    if Truthy(m.account).Some? {
      state.PreencodeBlock(m.account.value);
    }
    if Truthy(m.peer).Some? {
      state.PreencodeBlock(m.peer.value);
    }
  }

  method EncodeSessionScope(state: State, m: SessionScope)
    requires state.Writable()
    requires |state.out| + |Messages.SessionScope.Encoded(m.Sent())| <= state.End
    modifies state`Start, state`out, state.buffer
    ensures state.Wrote(Messages.SessionScope.Encoded(m.Sent()))
  {
    hide UintBytes, BlockBytes, OptBytes;
    ghost var w := state.out;
    var flags := (if Truthy(m.agentId).Some? then 1 else 0) + (if Truthy(m.channel).Some? then 2 else 0)
        + (if Truthy(m.account).Some? then 4 else 0) + (if Truthy(m.peer).Some? then 8 else 0);
    assert flags == m.Sent().Flags() < 0x10;
    hide Truthy;
    WriteUint(state, flags);
    WriteIfTruthy(state, m.agentId);
    WriteIfTruthy(state, m.channel);
    WriteIfTruthy(state, m.account);
    WriteIfTruthy(state, m.peer);
    Join5(w, UintBytes(flags), OptBytes(Truthy(m.agentId)), OptBytes(Truthy(m.channel)), OptBytes(Truthy(m.account)),
        OptBytes(Truthy(m.peer)));
  }

  method DecodeSessionScope(state: State) returns (r: Result<SessionScope, Error>)
    requires state.Readable()
    modifies state`Start, state`left
    ensures state.Readable()
    ensures r.Success? ==>
              var p := Messages.SessionScope.Parse(old(state.left));
              p.Ok? && state.left == p.rest && r.value == SessionScope.Read(p.value)
    ensures r.Failure? ==> Messages.SessionScope.Parse(old(state.left)) == Err(r.error)
  {
    hide ParseUint, ParseBlock, ParseEnum, Has;
    var flags :- state.DecodeUint();
    var agentId :- ReadStringIf(state, Has(flags, 1));
    var channel :- ReadStringIf(state, Has(flags, 2));
    var account :- ReadStringIf(state, Has(flags, 4));
    var peer :- ReadStringIf(state, Has(flags, 8));
    return Success(SessionScope(agentId, channel, account, peer));
  }

  // encoding5
  datatype SessionKey = SessionKey(key: Bytes) {
    /** The message as it travels. */
    function Sent(): Messages.SessionKey {
      Messages.SessionKey(key)
    }

    /** What reading w off the wire returns. */
    static function Read(w: Messages.SessionKey): SessionKey {
      SessionKey(w.key)
    }
  }

  method PreencodeSessionKey(state: State, m: SessionKey)
    modifies state`End
    ensures state.End == old(state.End) + |Messages.SessionKey.Encoded(m.Sent())|
  {
    state.PreencodeBlock(m.key);
  }

  method EncodeSessionKey(state: State, m: SessionKey)
    requires state.Writable()
    requires |state.out| + |Messages.SessionKey.Encoded(m.Sent())| <= state.End
    modifies state`Start, state`out, state.buffer
    ensures state.Wrote(Messages.SessionKey.Encoded(m.Sent()))
  {
    hide UintBytes, BlockBytes;
    WriteBlock(state, m.key);
  }

  method DecodeSessionKey(state: State) returns (r: Result<SessionKey, Error>)
    requires state.Readable()
    modifies state`Start, state`left
    ensures state.Readable()
    ensures r.Success? ==>
              var p := Messages.SessionKey.Parse(old(state.left));
              p.Ok? && state.left == p.rest && r.value == SessionKey.Read(p.value)
    ensures r.Failure? ==> Messages.SessionKey.Parse(old(state.left)) == Err(r.error)
  {
    hide ParseUint, ParseBlock, ParseEnum, Has;
    var key :- state.DecodeBlock();
    return Success(SessionKey(key));
  }

  // encoding7
  datatype SessionBlob = SessionBlob(key: Bytes, data: Option<Bytes>) {
    /** The message as it travels. */
    function Sent(): Messages.SessionBlob {
      Messages.SessionBlob(key, OrEmpty(data))
    }

    /** What reading w off the wire returns. */
    static function Read(w: Messages.SessionBlob): SessionBlob {
      SessionBlob(w.key, Truthy(Some(w.data)))
    }
  }

  method PreencodeSessionBlob(state: State, m: SessionBlob)
    modifies state`End
    ensures state.End == old(state.End) + |Messages.SessionBlob.Encoded(m.Sent())|
  {
    state.PreencodeBlock(m.key);
    PreencodeBuffer(state, m.data);
  }

  method EncodeSessionBlob(state: State, m: SessionBlob)
    requires state.Writable()
    requires |state.out| + |Messages.SessionBlob.Encoded(m.Sent())| <= state.End
    modifies state`Start, state`out, state.buffer
    ensures state.Wrote(Messages.SessionBlob.Encoded(m.Sent()))
  {
    hide UintBytes, BlockBytes;
    ghost var w := state.out;
    WriteBlock(state, m.key);
    WriteBuffer(state, m.data);
    Join(w, BlockBytes(m.key), BlockBytes(OrEmpty(m.data)));
  }

  method DecodeSessionBlob(state: State) returns (r: Result<SessionBlob, Error>)
    requires state.Readable()
    modifies state`Start, state`left
    ensures state.Readable()
    ensures r.Success? ==>
              var p := Messages.SessionBlob.Parse(old(state.left));
              p.Ok? && state.left == p.rest && r.value == SessionBlob.Read(p.value)
    ensures r.Failure? ==> Messages.SessionBlob.Parse(old(state.left)) == Err(r.error)
  {
    hide ParseUint, ParseBlock, ParseEnum, Has;
    var key :- state.DecodeBlock();
    var data :- ReadBuffer(state);
    return Success(SessionBlob(key, data));
  }

  // encoding9
  datatype ToolDef = ToolDef(name: Bytes, description: Bytes, inputSchema: Option<Bytes>) {
    /** The message as it travels. */
    function Sent(): Messages.ToolDef {
      Messages.ToolDef(name, description, inputSchema)
    }

    /** What reading w off the wire returns. */
    static function Read(w: Messages.ToolDef): ToolDef {
      ToolDef(w.name, w.description, Truthy(w.inputSchema))
    }
  }

  method PreencodeToolDef(state: State, m: ToolDef)
    modifies state`End
    ensures state.End == old(state.End) + |Messages.ToolDef.Encoded(m.Sent())|
  {
    state.PreencodeBlock(m.name);
    state.PreencodeBlock(m.description);
    state.End := state.End + 1; // the flag word always takes one byte
    if m.inputSchema.Some? {
      state.PreencodeBlock(m.inputSchema.value);
    }
  }

  method EncodeToolDef(state: State, m: ToolDef)
    requires state.Writable()
    requires |state.out| + |Messages.ToolDef.Encoded(m.Sent())| <= state.End
    modifies state`Start, state`out, state.buffer
    ensures state.Wrote(Messages.ToolDef.Encoded(m.Sent()))
  {
    hide UintBytes, BlockBytes;
    ghost var w := state.out;
    var flags := (if m.inputSchema.Some? then 1 else 0);
    WriteBlock(state, m.name);
    WriteBlock(state, m.description);
    WriteUint(state, flags);
    if m.inputSchema.Some? {
      WriteBlock(state, m.inputSchema.value);
    }
    Join4(w, BlockBytes(m.name), BlockBytes(m.description), UintBytes(flags), OptBytes(m.inputSchema));
  }

  method DecodeToolDef(state: State) returns (r: Result<ToolDef, Error>)
    requires state.Readable()
    modifies state`Start, state`left
    ensures state.Readable()
    ensures r.Success? ==>
              var p := Messages.ToolDef.Parse(old(state.left));
              p.Ok? && state.left == p.rest && r.value == ToolDef.Read(p.value)
    ensures r.Failure? ==> Messages.ToolDef.Parse(old(state.left)) == Err(r.error)
  {
    hide ParseUint, ParseBlock, ParseEnum, Has;
    var name :- state.DecodeBlock();
    var description :- state.DecodeBlock();
    var flags :- state.DecodeUint();
    var inputSchema :- ReadBufferIf(state, Has(flags, 1));
    return Success(ToolDef(name, description, inputSchema));
  }

  // encoding10
  datatype ToolCall = ToolCall(callId: Bytes, name: Bytes, input: Option<Bytes>) {
    /** The message as it travels. */
    function Sent(): Messages.ToolCall {
      Messages.ToolCall(callId, name, OrEmpty(input))
    }

    /** What reading w off the wire returns. */
    static function Read(w: Messages.ToolCall): ToolCall {
      ToolCall(w.callId, w.name, Truthy(Some(w.input)))
    }
  }

  method PreencodeToolCall(state: State, m: ToolCall)
    modifies state`End
    ensures state.End == old(state.End) + |Messages.ToolCall.Encoded(m.Sent())|
  {
    state.PreencodeBlock(m.callId);
    state.PreencodeBlock(m.name);
    PreencodeBuffer(state, m.input);
  }

  method EncodeToolCall(state: State, m: ToolCall)
    requires state.Writable()
    requires |state.out| + |Messages.ToolCall.Encoded(m.Sent())| <= state.End
    modifies state`Start, state`out, state.buffer
    ensures state.Wrote(Messages.ToolCall.Encoded(m.Sent()))
  {
    hide UintBytes, BlockBytes;
    ghost var w := state.out;
    WriteBlock(state, m.callId);
    WriteBlock(state, m.name);
    WriteBuffer(state, m.input);
    Join3(w, BlockBytes(m.callId), BlockBytes(m.name), BlockBytes(OrEmpty(m.input)));
  }

  method DecodeToolCall(state: State) returns (r: Result<ToolCall, Error>)
    requires state.Readable()
    modifies state`Start, state`left
    ensures state.Readable()
    ensures r.Success? ==>
              var p := Messages.ToolCall.Parse(old(state.left));
              p.Ok? && state.left == p.rest && r.value == ToolCall.Read(p.value)
    ensures r.Failure? ==> Messages.ToolCall.Parse(old(state.left)) == Err(r.error)
  {
    hide ParseUint, ParseBlock, ParseEnum, Has;
    var callId :- state.DecodeBlock();
    var name :- state.DecodeBlock();
    var input :- ReadBuffer(state);
    return Success(ToolCall(callId, name, input));
  }

  // encoding11
  datatype ToolResult = ToolResult(callId: Bytes, output: Option<Bytes>, errMsg: Option<Bytes>) {
    /** The message as it travels. */
    function Sent(): Messages.ToolResult {
      Messages.ToolResult(callId, output, Truthy(errMsg))
    }

    /** What reading w off the wire returns. */
    static function Read(w: Messages.ToolResult): ToolResult {
      ToolResult(w.callId, Truthy(w.output), w.errMsg)
    }
  }

  method PreencodeToolResult(state: State, m: ToolResult)
    modifies state`End
    ensures state.End == old(state.End) + |Messages.ToolResult.Encoded(m.Sent())|
  {
    state.PreencodeBlock(m.callId);
    state.End := state.End + 1; // the flag word always takes one byte
    if m.output.Some? {
      state.PreencodeBlock(m.output.value);
    }
    if Truthy(m.errMsg).Some? {
      state.PreencodeBlock(m.errMsg.value);
    }
  }

  method EncodeToolResult(state: State, m: ToolResult)
    requires state.Writable()
    requires |state.out| + |Messages.ToolResult.Encoded(m.Sent())| <= state.End
    modifies state`Start, state`out, state.buffer
    ensures state.Wrote(Messages.ToolResult.Encoded(m.Sent()))
  {
    hide UintBytes, BlockBytes;
    ghost var w := state.out;
    var flags := (if m.output.Some? then 1 else 0) + (if Truthy(m.errMsg).Some? then 2 else 0);
    WriteBlock(state, m.callId);
    WriteUint(state, flags);
    if m.output.Some? {
      WriteBlock(state, m.output.value);
    }
    if Truthy(m.errMsg).Some? {
      WriteBlock(state, m.errMsg.value);
    }
    Join4(w, BlockBytes(m.callId), UintBytes(flags), OptBytes(m.output), OptBytes(Truthy(m.errMsg)));
  }

  method DecodeToolResult(state: State) returns (r: Result<ToolResult, Error>)
    requires state.Readable()
    modifies state`Start, state`left
    ensures state.Readable()
    ensures r.Success? ==>
              var p := Messages.ToolResult.Parse(old(state.left));
              p.Ok? && state.left == p.rest && r.value == ToolResult.Read(p.value)
    ensures r.Failure? ==> Messages.ToolResult.Parse(old(state.left)) == Err(r.error)
  {
    hide ParseUint, ParseBlock, ParseEnum, Has;
    var callId :- state.DecodeBlock();
    var flags :- state.DecodeUint();
    var output :- ReadBufferIf(state, Has(flags, 1));
    var errMsg :- ReadStringIf(state, Has(flags, 2));
    return Success(ToolResult(callId, output, errMsg));
  }

  // encoding13
  datatype StateChunk = StateChunk(sessionKey: Bytes, field: Option<string>, data: Option<Bytes>) {
    /** The message as it travels. */
    function Sent(): Messages.StateChunk {
      Messages.StateChunk(sessionKey, StateFieldIndex(field), OrEmpty(data))
    }

    /** What reading w off the wire returns. */
    static function Read(w: Messages.StateChunk): StateChunk {
      StateChunk(w.sessionKey, StateFieldName(w.field), Truthy(Some(w.data)))
    }
  }

  method PreencodeStateChunk(state: State, m: StateChunk)
    modifies state`End
    ensures state.End == old(state.End) + |Messages.StateChunk.Encoded(m.Sent())|
  {
    state.PreencodeBlock(m.sessionKey);
    state.End := state.End + 1; // at most 2, so always one byte
    PreencodeBuffer(state, m.data);
  }

  method EncodeStateChunk(state: State, m: StateChunk) returns (err: Outcome<Error>)
    requires state.Writable()
    requires |state.out| + |Messages.StateChunk.Encoded(m.Sent())| <= state.End
    modifies state`Start, state`out, state.buffer
    ensures err.Pass? <==> m.Sent().field != 0
    ensures err.Pass? ==> state.Wrote(Messages.StateChunk.Encoded(m.Sent()))
    ensures err.Fail? ==> err.error == UnknownEnum
  {
    hide UintBytes, BlockBytes;
    ghost var w := state.out;
    WriteBlock(state, m.sessionKey);
    :- EncodeStateField(state, m.field);
    WriteBuffer(state, m.data);
    Join3(w, BlockBytes(m.sessionKey), UintBytes(m.Sent().field), BlockBytes(OrEmpty(m.data)));
    return Pass;
  }

  method DecodeStateChunk(state: State) returns (r: Result<StateChunk, Error>)
    requires state.Readable()
    modifies state`Start, state`left
    ensures state.Readable()
    ensures r.Success? ==>
              var p := Messages.StateChunk.Parse(old(state.left));
              p.Ok? && state.left == p.rest && r.value == StateChunk.Read(p.value)
    ensures r.Failure? ==> Messages.StateChunk.Parse(old(state.left)) == Err(r.error)
  {
    hide ParseUint, ParseBlock, ParseEnum, Has;
    var sessionKey :- state.DecodeBlock();
    var field :- DecodeStateField(state);
    var data :- ReadBuffer(state);
    return Success(StateChunk(sessionKey, field, data));
  }

  // encoding6: c.array(c.string)
  datatype SessionList = SessionList(keys: seq<Bytes>) {
    function Sent(): Messages.SessionList {
      Messages.SessionList(keys)
    }
  }

  method PreencodeSessionList(state: State, m: SessionList)
    modifies state`End
    ensures state.End == old(state.End) + |Messages.SessionList.Encoded(m.Sent())|
  {
    hide UintBytes, BlockBytes;
    state.PreencodeUint(|m.keys|);
    for i := 0 to |m.keys|
      invariant state.End == old(state.End) + UintSize(|m.keys|) + |Blocks(m.keys[..i])|
    {
      state.PreencodeBlock(m.keys[i]);
      BlocksStep(m.keys, i);
    }
    assert m.keys[..|m.keys|] == m.keys;
  }

  method EncodeSessionList(state: State, m: SessionList)
    requires state.Writable()
    requires |state.out| + |Messages.SessionList.Encoded(m.Sent())| <= state.End
    modifies state`Start, state`out, state.buffer
    ensures state.Wrote(Messages.SessionList.Encoded(m.Sent()))
  {
    hide UintBytes, BlockBytes;
    ghost var w := state.out;
    WriteUint(state, |m.keys|);
    for i := 0 to |m.keys|
      invariant state.buffer == old(state.buffer) && state.Writable()
      invariant state.out == w + UintBytes(|m.keys|) + Blocks(m.keys[..i])
    {
      BlocksStep(m.keys, i);
      WriteBlock(state, m.keys[i]);
      Join(w + UintBytes(|m.keys|), Blocks(m.keys[..i]), BlockBytes(m.keys[i]));
    }
    assert m.keys[..|m.keys|] == m.keys;
    Join(w, UintBytes(|m.keys|), Blocks(m.keys));
  }

  method DecodeSessionList(state: State) returns (r: Result<SessionList, Error>)
    requires state.Readable()
    modifies state`Start, state`left
    ensures state.Readable()
    ensures r.Success? ==> Messages.SessionList.Parse(state.max, old(state.left)) == Ok(r.value.Sent(), state.left)
    ensures r.Failure? ==> Messages.SessionList.Parse(state.max, old(state.left)) == Err(r.error)
  {
    hide ParseUint, ParseBlock;
    var n :- state.DecodeUint();
    if n > state.max {
      return Failure(ArrayTooBig);
    }
    var keys := [];
    ghost var bs := state.left;
    for i := 0 to n
      invariant state.Readable()
      invariant ParseEach(ParseBlock, i, bs) == Ok(keys, state.left)
    {
      ParseEachAppend(ParseBlock, i, bs);
      var key := state.DecodeBlock();
      if key.Failure? {
        ParseEachError(ParseBlock, i + 1, n, bs);
        return Failure(key.error);
      }
      keys := keys + [key.value];
    }
    return Success(SessionList(keys));
  }

  // encoding8: c.array(c.frame(encoding7))
  datatype StateBlob = StateBlob(sessions: seq<SessionBlob>) {
    function Sent(): Messages.StateBlob {
      Messages.StateBlob(SentAll(sessions))
    }

    static function Read(w: Messages.StateBlob): StateBlob {
      StateBlob(ReadAll(w.sessions))
    }
  }

  function SentAll(sessions: seq<SessionBlob>): (ws: seq<Messages.SessionBlob>)
    ensures |ws| == |sessions|
  {
    seq(|sessions|, i requires 0 <= i < |sessions| => sessions[i].Sent())
  }

  function ReadAll(ws: seq<Messages.SessionBlob>): (sessions: seq<SessionBlob>)
    ensures |sessions| == |ws|
  {
    seq(|ws|, i requires 0 <= i < |ws| => SessionBlob.Read(ws[i]))
  }

  method PreencodeFrame(state: State, m: SessionBlob)
    modifies state`End
    ensures state.End == old(state.End) + |BlockBytes(Messages.SessionBlob.Encoded(m.Sent()))|
  {
    var end := state.End;
    PreencodeSessionBlob(state, m);
    state.PreencodeUint(state.End - end);
  }

  method EncodeFrame(state: State, m: SessionBlob)
    requires state.Writable()
    requires |state.out| + |BlockBytes(Messages.SessionBlob.Encoded(m.Sent()))| <= state.End
    modifies state`Start, state`out, state.buffer
    ensures state.Wrote(BlockBytes(Messages.SessionBlob.Encoded(m.Sent())))
  {
    hide UintBytes, Messages.SessionBlob.Encoded;
    ghost var w, content := state.out, Messages.SessionBlob.Encoded(m.Sent());
    var dummy := new State(state.max);
    PreencodeSessionBlob(dummy, m);
    WriteUint(state, dummy.End);
    EncodeSessionBlob(state, m);
    Join(w, UintBytes(|content|), content);
  }

  method DecodeFrame(state: State) returns (r: Result<SessionBlob, Error>)
    requires state.Readable()
    modifies state`Start, state`End, state`left
    ensures state.Readable() && state.End == old(state.End)
    ensures r.Success? ==>
              var p := Messages.ParseBlobFrame(old(state.left));
              p.Ok? && state.left == p.rest && r.value == SessionBlob.Read(p.value)
    ensures r.Failure? ==> Messages.ParseBlobFrame(old(state.left)) == Err(r.error)
  {
    hide ParseUint, Messages.SessionBlob.Parse;
    var n :- state.DecodeUint();
    if state.End - state.Start < n {
      return Failure(OutOfBounds);
    }
    ghost var rest := state.left;
    var end := state.End;
    assert rest[..n] == state.buffer[state.Start..state.Start + n];
    state.End := state.Start + n;
    state.left := rest[..n];
    assert state.Readable();
    r := DecodeSessionBlob(state);
    state.Start, state.End := state.End, end;
    state.left := rest[n..];
  }

  method PreencodeStateBlob(state: State, m: StateBlob)
    modifies state`End
    ensures state.End == old(state.End) + |Messages.StateBlob.Encoded(m.Sent())|
  {
    hide UintBytes, BlockBytes, Messages.SessionBlob.Encoded;
    ghost var contents := Messages.Contents(m.Sent().sessions);
    state.PreencodeUint(|m.sessions|);
    for i := 0 to |m.sessions|
      invariant state.End == old(state.End) + UintSize(|m.sessions|) + |Blocks(contents[..i])|
    {
      PreencodeFrame(state, m.sessions[i]);
      BlocksStep(contents, i);
    }
    assert contents[..|contents|] == contents;
  }

  method EncodeStateBlob(state: State, m: StateBlob)
    requires state.Writable()
    requires |state.out| + |Messages.StateBlob.Encoded(m.Sent())| <= state.End
    modifies state`Start, state`out, state.buffer
    ensures state.Wrote(Messages.StateBlob.Encoded(m.Sent()))
  {
    hide UintBytes, BlockBytes, Messages.SessionBlob.Encoded;
    ghost var contents, w := Messages.Contents(m.Sent().sessions), state.out;
    WriteUint(state, |m.sessions|);
    for i := 0 to |m.sessions|
      invariant state.buffer == old(state.buffer) && state.Writable()
      invariant state.out == w + UintBytes(|contents|) + Blocks(contents[..i])
    {
      BlocksStep(contents, i);
      EncodeFrame(state, m.sessions[i]);
      Join(w + UintBytes(|contents|), Blocks(contents[..i]), BlockBytes(contents[i]));
    }
    assert contents[..|contents|] == contents;
    Join(w, UintBytes(|contents|), Blocks(contents));
  }

  method DecodeStateBlob(state: State) returns (r: Result<StateBlob, Error>)
    requires state.Readable()
    modifies state`Start, state`End, state`left
    ensures state.Readable() && state.End == old(state.End)
    ensures r.Success? ==>
              var p := Messages.StateBlob.Parse(state.max, old(state.left));
              p.Ok? && state.left == p.rest && r.value == StateBlob.Read(p.value)
    ensures r.Failure? ==> Messages.StateBlob.Parse(state.max, old(state.left)) == Err(r.error)
  {
    hide ParseUint, ParseFrame, Messages.ParseBlobFrame;
    var n :- state.DecodeUint();
    if n > state.max {
      return Failure(ArrayTooBig);
    }
    var sessions := [];
    ghost var bs := state.left;
    ghost var ws: seq<Messages.SessionBlob> := [];
    for i := 0 to n
      invariant state.Readable() && state.End == old(state.End)
      invariant ParseEach(Messages.ParseBlobFrame, i, bs) == Ok(ws, state.left) && sessions == ReadAll(ws)
    {
      ParseEachAppend(Messages.ParseBlobFrame, i, bs);
      ghost var w := Messages.ParseBlobFrame(state.left);
      var blob := DecodeFrame(state);
      if blob.Failure? {
        ParseEachError(Messages.ParseBlobFrame, i + 1, n, bs);
        return Failure(blob.error);
      }
      sessions := sessions + [blob.value];
      ws := ws + [w.value];
    }
    return Success(StateBlob(sessions));
  }
}

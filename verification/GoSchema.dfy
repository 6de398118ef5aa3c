/** The Go half of the codec (go/schema/schema.go): one class per generated struct, with the receiver
    semantics of its Decode: a field the flag word leaves out keeps what the receiver held. */
module GoSchema {
  import opened Wrappers
  import opened Wire
  import opened CodecState
  import Messages

  /** An optional Go string travels unless it is empty. */
  function Text(b: Bytes): Option<Bytes> {
    if |b| == 0 then None else Some(b)
  }

  /** What a receiver's optional string holds after decoding: what was read, else what it held. */
  function Got(read: Option<Bytes>, was: Bytes): Bytes {
    if read.Some? then read.value else was
  }

  // ----- BareclawChunkType: a Go string, valid when it is one of the constants -----

  function ChunkTypeIndex(t: string): (n: nat)
    ensures n <= 4
  {
    if t == "content" then 1 else if t == "thinking" then 2 else if t == "done" then 3 else if t == "error" then 4
        else 0
  }

  function ChunkTypeName(n: nat): string {
    if n == 1 then "content" else if n == 2 then "thinking" else if n == 3 then "done" else if n == 4 then "error"
        else ""
  }

  method PreencodeChunkType(state: State, t: string)
    modifies state`End
    ensures state.End == old(state.End) + |UintBytes(ChunkTypeIndex(t))|
  {
    state.PreencodeUint(ChunkTypeIndex(t));
  }

  method EncodeChunkType(state: State, t: string) returns (err: Outcome<Error>)
    requires state.Writable()
    modifies state`Start, state`out, state.buffer
    ensures err.Pass? <==> ChunkTypeIndex(t) != 0 && |old(state.out)| + |UintBytes(ChunkTypeIndex(t))| <= state.End
    ensures err.Pass? ==> state.Wrote(UintBytes(ChunkTypeIndex(t)))
    ensures err.Fail? ==> state.Writable() && err.error == if ChunkTypeIndex(t) == 0 then UnknownEnum else OutOfBounds
  {
    if ChunkTypeIndex(t) == 0 {
      return Fail(UnknownEnum);
    }
    err := state.EncodeUint(ChunkTypeIndex(t));
  }

  method DecodeChunkType(state: State) returns (t: Result<string, Error>)
    requires state.Readable()
    modifies state`Start, state`left
    ensures state.Readable()
    ensures var p := ParseEnum(4, old(state.left));
            if p.Ok? then t == Success(ChunkTypeName(p.value)) && state.left == p.rest else t == Failure(p.error)
  {
    var n :- state.DecodeUint();
    return Success(ChunkTypeName(n));
  }

  // ----- BareclawStateField: a Go string, valid when it is one of the constants -----

  function StateFieldIndex(t: string): (n: nat)
    ensures n <= 2
  {
    if t == "history" then 1 else if t == "summary" then 2 else 0
  }

  function StateFieldName(n: nat): string {
    if n == 1 then "history" else if n == 2 then "summary" else ""
  }

  method PreencodeStateField(state: State, t: string)
    modifies state`End
    ensures state.End == old(state.End) + |UintBytes(StateFieldIndex(t))|
  {
    state.PreencodeUint(StateFieldIndex(t));
  }

  method EncodeStateField(state: State, t: string) returns (err: Outcome<Error>)
    requires state.Writable()
    modifies state`Start, state`out, state.buffer
    ensures err.Pass? <==> StateFieldIndex(t) != 0 && |old(state.out)| + |UintBytes(StateFieldIndex(t))| <= state.End
    ensures err.Pass? ==> state.Wrote(UintBytes(StateFieldIndex(t)))
    ensures err.Fail? ==> state.Writable() && err.error == if StateFieldIndex(t) == 0 then UnknownEnum else OutOfBounds
  {
    if StateFieldIndex(t) == 0 {
      return Fail(UnknownEnum);
    }
    err := state.EncodeUint(StateFieldIndex(t));
  }

  method DecodeStateField(state: State) returns (t: Result<string, Error>)
    requires state.Readable()
    modifies state`Start, state`left
    ensures state.Readable()
    ensures var p := ParseEnum(2, old(state.left));
            if p.Ok? then t == Success(StateFieldName(p.value)) && state.left == p.rest else t == Failure(p.error)
  {
    var n :- state.DecodeUint();
    return Success(StateFieldName(n));
  }

  // ----- structs -----

  /** A string that is encoded unless it is empty: the four identical blocks of the session scope. */
  method EncodeIfSet(state: State, s: Bytes) returns (err: Outcome<Error>)
    requires state.Writable()
    modifies state`Start, state`out, state.buffer
    ensures err.Pass? <==> |old(state.out)| + |OptBytes(Text(s))| <= state.End
    ensures err.Pass? ==> state.Wrote(OptBytes(Text(s)))
    ensures err.Fail? ==> state.Writable() && err.error == OutOfBounds
  {
    if s != [] {
      :- state.EncodeBlock(s);
    }
    return Pass;
  }

  /** The four identical blocks that read them back: what the flag word leaves out stays as it was. */
  method DecodeIfSet(state: State, present: bool, was: Bytes) returns (r: Result<Bytes, Error>)
    requires state.Readable()
    modifies state`Start, state`left
    ensures state.Readable()
    ensures r.Success? ==>
              var p := ParseOpt(present, old(state.left));
              p.Ok? && state.left == p.rest && r.value == Got(p.value, was)
    ensures r.Success? && present ==> Ok(r.value, state.left) == ParseBlock(old(state.left))
    ensures !present ==> r == Success(was) && state.left == old(state.left)
    ensures r.Failure? ==> ParseOpt(present, old(state.left)) == Err(r.error)
  {
    if present {
      r := state.DecodeBlock();
    } else {
      r := Success(was);
    }
  }

  class BareclawChatRequest {
    var SessionId: Bytes
    var Message: Bytes
    var Model: Bytes

    /** The zero value. */
    constructor ()
      ensures SessionId == [] && Message == [] && Model == []
    {
      SessionId, Message, Model := [], [], [];
    }

    /** The message as it travels. */
    function Sent(): Messages.ChatRequest
      reads this
    {
      Messages.ChatRequest(SessionId, Message, Text(Model))
    }

    /** The flag word; the source repeats these lines in Preencode and Encode. */
    method FlagWord() returns (flags: nat)
      ensures flags == Sent().Flags()
    {
      flags := 0;
      if Model != [] {
        flags := flags + 1;
      }
    }

    method Preencode(state: State)
      modifies state`End
      ensures state.End == old(state.End) + |Messages.ChatRequest.Encoded(Sent())|
    {
      var flags := FlagWord();
      state.PreencodeBlock(SessionId);
      state.PreencodeBlock(Message);
      state.PreencodeUint(flags);
      if Model != [] {
        state.PreencodeBlock(Model);
      }
    }

    method Encode(state: State) returns (err: Outcome<Error>)
      requires state.Writable()
      modifies state`Start, state`out, state.buffer
      ensures err.Pass? <==> |old(state.out)| + |Messages.ChatRequest.Encoded(old(Sent()))| <= state.End
      ensures err.Pass? ==> state.Wrote(Messages.ChatRequest.Encoded(old(Sent())))
      ensures err.Fail? ==> state.Writable() && err.error == OutOfBounds
    {
      hide UintBytes, BlockBytes;
      ghost var m, w := Sent(), state.out;
      var flags := FlagWord();
      :- state.EncodeBlock(SessionId);
      :- state.EncodeBlock(Message);
      :- state.EncodeUint(flags);
      if Model != [] {
        :- state.EncodeBlock(Model);
      }
      Join4(w, BlockBytes(m.sessionId), BlockBytes(m.message), UintBytes(flags), OptBytes(m.model));
      return Pass;
    }

    method Decode(state: State) returns (err: Result<(), Error>)
      requires state.Readable()
      modifies this, state`Start, state`left
      ensures state.Readable()
      ensures err.Success? ==>
                var p := Messages.ChatRequest.Parse(old(state.left));
                && p.Ok? && state.left == p.rest
                && SessionId == p.value.sessionId
                && Message == p.value.message
                && Model == Got(p.value.model, old(Model))
      ensures err.Failure? ==> Messages.ChatRequest.Parse(old(state.left)) == Err(err.error)
    {
      hide ParseUint, ParseBlock, ParseEnum, Has;
      SessionId :- state.DecodeBlock();
      Message :- state.DecodeBlock();
      var flags :- state.DecodeUint();
      if Has(flags, 1) {
        Model :- state.DecodeBlock();
      }
      return Success(());
    }
  }

  class BareclawChatChunk {
    var Type: string
    var Content: Bytes

    /** The zero value. */
    constructor ()
      ensures Type == "" && Content == []
    {
      Type, Content := "", [];
    }

    /** The message as it travels. */
    function Sent(): Messages.ChatChunk
      reads this
    {
      Messages.ChatChunk(ChunkTypeIndex(Type), Text(Content))
    }

    /** The flag word; the source repeats these lines in Preencode and Encode. */
    method FlagWord() returns (flags: nat)
      ensures flags == Sent().Flags()
    {
      flags := 0;
      if Content != [] {
        flags := flags + 1;
      }
    }

    method Preencode(state: State)
      modifies state`End
      ensures state.End == old(state.End) + |Messages.ChatChunk.Encoded(Sent())|
    {
      var flags := FlagWord();
      PreencodeChunkType(state, Type);
      state.PreencodeUint(flags);
      if Content != [] {
        state.PreencodeBlock(Content);
      }
    }

    method Encode(state: State) returns (err: Outcome<Error>)
      requires state.Writable()
      modifies state`Start, state`out, state.buffer
      ensures err.Pass? <==>
                Sent().kind != 0 && |old(state.out)| + |Messages.ChatChunk.Encoded(old(Sent()))| <= state.End
      ensures err.Pass? ==> state.Wrote(Messages.ChatChunk.Encoded(old(Sent())))
      ensures err.Fail? ==> state.Writable() && err.error == if Sent().kind == 0 then UnknownEnum else OutOfBounds
    {
      hide UintBytes, BlockBytes;
      ghost var m, w := Sent(), state.out;
      var flags := FlagWord();
      :- EncodeChunkType(state, Type);
      :- state.EncodeUint(flags);
      if Content != [] {
        :- state.EncodeBlock(Content);
      }
      Join3(w, UintBytes(m.kind), UintBytes(flags), OptBytes(m.content));
      return Pass;
    }

    method Decode(state: State) returns (err: Result<(), Error>)
      requires state.Readable()
      modifies this, state`Start, state`left
      ensures state.Readable()
      ensures err.Success? ==>
                var p := Messages.ChatChunk.Parse(old(state.left));
                && p.Ok? && state.left == p.rest
                && Type == ChunkTypeName(p.value.kind)
                && Content == Got(p.value.content, old(Content))
      ensures err.Failure? ==> Messages.ChatChunk.Parse(old(state.left)) == Err(err.error)
    {
      hide ParseUint, ParseBlock, ParseEnum, Has;
      Type :- DecodeChunkType(state);
      var flags :- state.DecodeUint();
      if Has(flags, 1) {
        Content :- state.DecodeBlock();
      }
      return Success(());
    }
  }

  class BareclawSessionScope {
    var AgentId: Bytes
    var Channel: Bytes
    var Account: Bytes
    var Peer: Bytes

    /** The zero value. */
    constructor ()
      ensures AgentId == [] && Channel == [] && Account == [] && Peer == []
    {
      AgentId, Channel, Account, Peer := [], [], [], [];
    }

    /** The message as it travels. */
    function Sent(): Messages.SessionScope
      reads this
    {
      Messages.SessionScope(Text(AgentId), Text(Channel), Text(Account), Text(Peer))
    }

    /** The flag word; the source repeats these lines in Preencode and Encode. */
    method FlagWord() returns (flags: nat)
      ensures flags == Sent().Flags()
    {
      flags := 0;
      if AgentId != [] {
        flags := flags + 1;
      }
      if Channel != [] {
        flags := flags + 2;
      }
      if Account != [] {
        flags := flags + 4;
      }
      if Peer != [] {
        flags := flags + 8;
      }
    }

    method Preencode(state: State)
      modifies state`End
      ensures state.End == old(state.End) + |Messages.SessionScope.Encoded(Sent())|
    {
      var flags := FlagWord();
      state.PreencodeUint(flags);
      if AgentId != [] {
        state.PreencodeBlock(AgentId);
      }
      if Channel != [] {
        state.PreencodeBlock(Channel);
      }
      if Account != [] {
        state.PreencodeBlock(Account);
      }
      if Peer != [] {
        state.PreencodeBlock(Peer);
      }
    }

    method Encode(state: State) returns (err: Outcome<Error>)
      requires state.Writable()
      modifies state`Start, state`out, state.buffer
      ensures err.Pass? <==> |old(state.out)| + |Messages.SessionScope.Encoded(old(Sent()))| <= state.End
      ensures err.Pass? ==> state.Wrote(Messages.SessionScope.Encoded(old(Sent())))
      ensures err.Fail? ==> state.Writable() && err.error == OutOfBounds
    {
      hide UintBytes, BlockBytes, OptBytes;
      ghost var m, w := Sent(), state.out;
      var flags := FlagWord();
      :- state.EncodeUint(flags);
      :- EncodeIfSet(state, AgentId);
      :- EncodeIfSet(state, Channel);
      :- EncodeIfSet(state, Account);
      :- EncodeIfSet(state, Peer);
      Join5(w, UintBytes(flags), OptBytes(m.agentId), OptBytes(m.channel), OptBytes(m.account), OptBytes(m.peer));
      return Pass;
    }

    method Decode(state: State) returns (err: Result<(), Error>)
      requires state.Readable()
      modifies this, state`Start, state`left
      ensures state.Readable()
      ensures err.Success? ==>
                var p := Messages.SessionScope.Parse(old(state.left));
                && p.Ok? && state.left == p.rest
                && AgentId == Got(p.value.agentId, old(AgentId))
                && Channel == Got(p.value.channel, old(Channel))
                && Account == Got(p.value.account, old(Account))
                && Peer == Got(p.value.peer, old(Peer))
      ensures err.Failure? ==> Messages.SessionScope.Parse(old(state.left)) == Err(err.error)
    {
      hide ParseUint, ParseBlock, ParseEnum, Has;
      var flags :- state.DecodeUint();
      hide ParseOpt, Got;
      AgentId :- DecodeIfSet(state, Has(flags, 1), AgentId);
      Channel :- DecodeIfSet(state, Has(flags, 2), Channel);
      Account :- DecodeIfSet(state, Has(flags, 4), Account);
      Peer :- DecodeIfSet(state, Has(flags, 8), Peer);
      return Success(());
    }
  }

  class BareclawSessionKey {
    var Key: Bytes

    /** The zero value. */
    constructor ()
      ensures Key == []
    {
      Key := [];
    }

    /** The message as it travels. */
    function Sent(): Messages.SessionKey
      reads this
    {
      Messages.SessionKey(Key)
    }

    method Preencode(state: State)
      modifies state`End
      ensures state.End == old(state.End) + |Messages.SessionKey.Encoded(Sent())|
    {
      state.PreencodeBlock(Key);
    }

    method Encode(state: State) returns (err: Outcome<Error>)
      requires state.Writable()
      modifies state`Start, state`out, state.buffer
      ensures err.Pass? <==> |old(state.out)| + |Messages.SessionKey.Encoded(old(Sent()))| <= state.End
      ensures err.Pass? ==> state.Wrote(Messages.SessionKey.Encoded(old(Sent())))
      ensures err.Fail? ==> state.Writable() && err.error == OutOfBounds
    {
      hide UintBytes, BlockBytes;
      :- state.EncodeBlock(Key);
      return Pass;
    }

    method Decode(state: State) returns (err: Result<(), Error>)
      requires state.Readable()
      modifies this, state`Start, state`left
      ensures state.Readable()
      ensures err.Success? ==>
                var p := Messages.SessionKey.Parse(old(state.left));
                && p.Ok? && state.left == p.rest
                && Key == p.value.key
      ensures err.Failure? ==> Messages.SessionKey.Parse(old(state.left)) == Err(err.error)
    {
      hide ParseUint, ParseBlock, ParseEnum, Has;
      Key :- state.DecodeBlock();
      return Success(());
    }
  }

  class BareclawSessionBlob {
    var Key: Bytes
    var Data: Bytes

    /** The zero value. */
    constructor ()
      ensures Key == [] && Data == []
    {
      Key, Data := [], [];
    }

    /** The message as it travels. */
    function Sent(): Messages.SessionBlob
      reads this
    {
      Messages.SessionBlob(Key, Data)
    }

    method Preencode(state: State)
      modifies state`End
      ensures state.End == old(state.End) + |Messages.SessionBlob.Encoded(Sent())|
    {
      state.PreencodeBlock(Key);
      state.PreencodeBlock(Data);
    }

    method Encode(state: State) returns (err: Outcome<Error>)
      requires state.Writable()
      modifies state`Start, state`out, state.buffer
      ensures err.Pass? <==> |old(state.out)| + |Messages.SessionBlob.Encoded(old(Sent()))| <= state.End
      ensures err.Pass? ==> state.Wrote(Messages.SessionBlob.Encoded(old(Sent())))
      ensures err.Fail? ==> state.Writable() && err.error == OutOfBounds
    {
      hide UintBytes, BlockBytes;
      ghost var m, w := Sent(), state.out;
      :- state.EncodeBlock(Key);
      :- state.EncodeBlock(Data);
      Join(w, BlockBytes(m.key), BlockBytes(m.data));
      return Pass;
    }

    method Decode(state: State) returns (err: Result<(), Error>)
      requires state.Readable()
      modifies this, state`Start, state`left
      ensures state.Readable()
      ensures err.Success? ==>
                var p := Messages.SessionBlob.Parse(old(state.left));
                && p.Ok? && state.left == p.rest
                && Key == p.value.key
                && Data == p.value.data
      ensures err.Failure? ==> Messages.SessionBlob.Parse(old(state.left)) == Err(err.error)
    {
      hide ParseUint, ParseBlock, ParseEnum, Has;
      Key :- state.DecodeBlock();
      Data :- state.DecodeBlock();
      return Success(());
    }
  }

  class BareclawToolDef {
    var Name: Bytes
    var Description: Bytes
    var InputSchema: Option<Bytes>

    /** The zero value. */
    constructor ()
      ensures Name == [] && Description == [] && InputSchema == None
    {
      Name, Description, InputSchema := [], [], None;
    }

    /** The message as it travels. */
    function Sent(): Messages.ToolDef
      reads this
    {
      Messages.ToolDef(Name, Description, InputSchema)
    }

    /** The flag word; the source repeats these lines in Preencode and Encode. */
    method FlagWord() returns (flags: nat)
      ensures flags == Sent().Flags()
    {
      flags := 0;
      if InputSchema.Some? {
        flags := flags + 1;
      }
    }

    method Preencode(state: State)
      modifies state`End
      ensures state.End == old(state.End) + |Messages.ToolDef.Encoded(Sent())|
    {
      var flags := FlagWord();
      state.PreencodeBlock(Name);
      state.PreencodeBlock(Description);
      state.PreencodeUint(flags);
      if InputSchema.Some? {
        state.PreencodeBlock(InputSchema.value);
      }
    }

    method Encode(state: State) returns (err: Outcome<Error>)
      requires state.Writable()
      modifies state`Start, state`out, state.buffer
      ensures err.Pass? <==> |old(state.out)| + |Messages.ToolDef.Encoded(old(Sent()))| <= state.End
      ensures err.Pass? ==> state.Wrote(Messages.ToolDef.Encoded(old(Sent())))
      ensures err.Fail? ==> state.Writable() && err.error == OutOfBounds
    {
      hide UintBytes, BlockBytes;
      ghost var m, w := Sent(), state.out;
      var flags := FlagWord();
      :- state.EncodeBlock(Name);
      :- state.EncodeBlock(Description);
      :- state.EncodeUint(flags);
      if InputSchema.Some? {
        :- state.EncodeBlock(InputSchema.value);
      }
      Join4(w, BlockBytes(m.name), BlockBytes(m.description), UintBytes(flags), OptBytes(m.inputSchema));
      return Pass;
    }

    method Decode(state: State) returns (err: Result<(), Error>)
      requires state.Readable()
      modifies this, state`Start, state`left
      ensures state.Readable()
      ensures err.Success? ==>
                var p := Messages.ToolDef.Parse(old(state.left));
                && p.Ok? && state.left == p.rest
                && Name == p.value.name
                && Description == p.value.description
                && InputSchema == (if p.value.inputSchema.Some? then p.value.inputSchema else old(InputSchema))
      ensures err.Failure? ==> Messages.ToolDef.Parse(old(state.left)) == Err(err.error)
    {
      hide ParseUint, ParseBlock, ParseEnum, Has;
      Name :- state.DecodeBlock();
      Description :- state.DecodeBlock();
      var flags :- state.DecodeUint();
      if Has(flags, 1) {
        var inputSchema :- state.DecodeBlock();
        InputSchema := Some(inputSchema);
      }
      return Success(());
    }
  }

  class BareclawToolCall {
    var CallId: Bytes
    var Name: Bytes
    var Input: Bytes

    /** The zero value. */
    constructor ()
      ensures CallId == [] && Name == [] && Input == []
    {
      CallId, Name, Input := [], [], [];
    }

    /** The message as it travels. */
    function Sent(): Messages.ToolCall
      reads this
    {
      Messages.ToolCall(CallId, Name, Input)
    }

    method Preencode(state: State)
      modifies state`End
      ensures state.End == old(state.End) + |Messages.ToolCall.Encoded(Sent())|
    {
      state.PreencodeBlock(CallId);
      state.PreencodeBlock(Name);
      state.PreencodeBlock(Input);
    }

    method Encode(state: State) returns (err: Outcome<Error>)
      requires state.Writable()
      modifies state`Start, state`out, state.buffer
      ensures err.Pass? <==> |old(state.out)| + |Messages.ToolCall.Encoded(old(Sent()))| <= state.End
      ensures err.Pass? ==> state.Wrote(Messages.ToolCall.Encoded(old(Sent())))
      ensures err.Fail? ==> state.Writable() && err.error == OutOfBounds
    {
      hide UintBytes, BlockBytes;
      ghost var m, w := Sent(), state.out;
      :- state.EncodeBlock(CallId);
      :- state.EncodeBlock(Name);
      :- state.EncodeBlock(Input);
      Join3(w, BlockBytes(m.callId), BlockBytes(m.name), BlockBytes(m.input));
      return Pass;
    }

    method Decode(state: State) returns (err: Result<(), Error>)
      requires state.Readable()
      modifies this, state`Start, state`left
      ensures state.Readable()
      ensures err.Success? ==>
                var p := Messages.ToolCall.Parse(old(state.left));
                && p.Ok? && state.left == p.rest
                && CallId == p.value.callId
                && Name == p.value.name
                && Input == p.value.input
      ensures err.Failure? ==> Messages.ToolCall.Parse(old(state.left)) == Err(err.error)
    {
      hide ParseUint, ParseBlock, ParseEnum, Has;
      CallId :- state.DecodeBlock();
      Name :- state.DecodeBlock();
      Input :- state.DecodeBlock();
      return Success(());
    }
  }

  class BareclawToolResult {
    var CallId: Bytes
    var Output: Option<Bytes>
    var ErrMsg: Bytes

    /** The zero value. */
    constructor ()
      ensures CallId == [] && Output == None && ErrMsg == []
    {
      CallId, Output, ErrMsg := [], None, [];
    }

    /** The message as it travels. */
    function Sent(): Messages.ToolResult
      reads this
    {
      Messages.ToolResult(CallId, Output, Text(ErrMsg))
    }

    /** The flag word; the source repeats these lines in Preencode and Encode. */
    method FlagWord() returns (flags: nat)
      ensures flags == Sent().Flags()
    {
      flags := 0;
      if Output.Some? {
        flags := flags + 1;
      }
      if ErrMsg != [] {
        flags := flags + 2;
      }
    }

    method Preencode(state: State)
      modifies state`End
      ensures state.End == old(state.End) + |Messages.ToolResult.Encoded(Sent())|
    {
      var flags := FlagWord();
      state.PreencodeBlock(CallId);
      state.PreencodeUint(flags);
      if Output.Some? {
        state.PreencodeBlock(Output.value);
      }
      if ErrMsg != [] {
        state.PreencodeBlock(ErrMsg);
      }
    }

    method Encode(state: State) returns (err: Outcome<Error>)
      requires state.Writable()
      modifies state`Start, state`out, state.buffer
      ensures err.Pass? <==> |old(state.out)| + |Messages.ToolResult.Encoded(old(Sent()))| <= state.End
      ensures err.Pass? ==> state.Wrote(Messages.ToolResult.Encoded(old(Sent())))
      ensures err.Fail? ==> state.Writable() && err.error == OutOfBounds
    {
      hide UintBytes, BlockBytes;
      ghost var m, w := Sent(), state.out;
      var flags := FlagWord();
      :- state.EncodeBlock(CallId);
      :- state.EncodeUint(flags);
      if Output.Some? {
        :- state.EncodeBlock(Output.value);
      }
      if ErrMsg != [] {
        :- state.EncodeBlock(ErrMsg);
      }
      Join4(w, BlockBytes(m.callId), UintBytes(flags), OptBytes(m.output), OptBytes(m.errMsg));
      return Pass;
    }

    method Decode(state: State) returns (err: Result<(), Error>)
      requires state.Readable()
      modifies this, state`Start, state`left
      ensures state.Readable()
      ensures err.Success? ==>
                var p := Messages.ToolResult.Parse(old(state.left));
                && p.Ok? && state.left == p.rest
                && CallId == p.value.callId
                && Output == (if p.value.output.Some? then p.value.output else old(Output))
                && ErrMsg == Got(p.value.errMsg, old(ErrMsg))
      ensures err.Failure? ==> Messages.ToolResult.Parse(old(state.left)) == Err(err.error)
    {
      hide ParseUint, ParseBlock, ParseEnum, Has;
      CallId :- state.DecodeBlock();
      var flags :- state.DecodeUint();
      if Has(flags, 1) {
        var output :- state.DecodeBlock();
        Output := Some(output);
      }
      if Has(flags, 2) {
        ErrMsg :- state.DecodeBlock();
      }
      return Success(());
    }
  }

  class BareclawStateChunk {
    var SessionKey: Bytes
    var Field: string
    var Data: Bytes

    /** The zero value. */
    constructor ()
      ensures SessionKey == [] && Field == "" && Data == []
    {
      SessionKey, Field, Data := [], "", [];
    }

    /** The message as it travels. */
    function Sent(): Messages.StateChunk
      reads this
    {
      Messages.StateChunk(SessionKey, StateFieldIndex(Field), Data)
    }

    method Preencode(state: State)
      modifies state`End
      ensures state.End == old(state.End) + |Messages.StateChunk.Encoded(Sent())|
    {
      state.PreencodeBlock(SessionKey);
      PreencodeStateField(state, Field);
      state.PreencodeBlock(Data);
    }

    method Encode(state: State) returns (err: Outcome<Error>)
      requires state.Writable()
      modifies state`Start, state`out, state.buffer
      ensures err.Pass? <==>
                Sent().field != 0 && |old(state.out)| + |Messages.StateChunk.Encoded(old(Sent()))| <= state.End
      ensures err.Pass? ==> state.Wrote(Messages.StateChunk.Encoded(old(Sent())))
      ensures err.Fail? ==> state.Writable() && err.error == if Sent().field == 0
              && |old(state.out)| + |BlockBytes(SessionKey)| <= state.End then UnknownEnum else OutOfBounds
    {
      hide UintBytes, BlockBytes;
      ghost var m, w := Sent(), state.out;
      :- state.EncodeBlock(SessionKey);
      :- EncodeStateField(state, Field);
      :- state.EncodeBlock(Data);
      Join3(w, BlockBytes(m.sessionKey), UintBytes(m.field), BlockBytes(m.data));
      return Pass;
    }

    method Decode(state: State) returns (err: Result<(), Error>)
      requires state.Readable()
      modifies this, state`Start, state`left
      ensures state.Readable()
      ensures err.Success? ==>
                var p := Messages.StateChunk.Parse(old(state.left));
                && p.Ok? && state.left == p.rest
                && SessionKey == p.value.sessionKey
                && Field == StateFieldName(p.value.field)
                && Data == p.value.data
      ensures err.Failure? ==> Messages.StateChunk.Parse(old(state.left)) == Err(err.error)
    {
      hide ParseUint, ParseBlock, ParseEnum, Has;
      SessionKey :- state.DecodeBlock();
      Field :- DecodeStateField(state);
      Data :- state.DecodeBlock();
      return Success(());
    }
  }

  class BareclawEmpty {
    constructor () {}

    method Preencode(state: State)
    {
    }

    method Encode(state: State) returns (err: Outcome<Error>)
      ensures err.Pass?
    {
      return Pass;
    }

    method Decode(state: State) returns (err: Result<(), Error>)
      ensures err.Success?
    {
      return Success(());
    }
  }

  class BareclawSessionList {
    var Keys: seq<Bytes>

    /** The zero value. */
    constructor ()
      ensures Keys == []
    {
      Keys := [];
    }

    /** The message as it travels. */
    function Sent(): Messages.SessionList
      reads this
    {
      Messages.SessionList(Keys)
    }

    method Preencode(state: State)
      modifies state`End
      ensures state.End == old(state.End) + |Messages.SessionList.Encoded(Sent())|
    {
      hide UintBytes, BlockBytes;
      state.PreencodeUint(|Keys|);
      for i := 0 to |Keys|
        invariant state.End == old(state.End) + UintSize(|Keys|) + |Blocks(Keys[..i])|
      {
        state.PreencodeBlock(Keys[i]);
        BlocksStep(Keys, i);
      }
      assert Keys[..|Keys|] == Keys;
    }

    method Encode(state: State) returns (err: Outcome<Error>)
      requires state.Writable()
      modifies state`Start, state`out, state.buffer
      ensures err.Pass? <==> |old(state.out)| + |Messages.SessionList.Encoded(old(Sent()))| <= state.End
      ensures err.Pass? ==> state.Wrote(Messages.SessionList.Encoded(old(Sent())))
      ensures err.Fail? ==> state.Writable() && err.error == OutOfBounds
    {
      hide UintBytes, BlockBytes;
      ghost var keys, w := Keys, state.out;
      :- state.EncodeUint(|Keys|);
      for i := 0 to |Keys|
        invariant Keys == keys && state.buffer == old(state.buffer) && state.Writable()
        invariant state.out == w + UintBytes(|keys|) + Blocks(keys[..i])
      {
        BlocksStep(keys, i);
        :- state.EncodeBlock(Keys[i]);
        Join(w + UintBytes(|keys|), Blocks(keys[..i]), BlockBytes(keys[i]));
      }
      assert keys[..|keys|] == keys;
      Join(w, UintBytes(|keys|), Blocks(keys));
      return Pass;
    }

    method Decode(state: State) returns (err: Result<(), Error>)
      requires state.Readable()
      modifies this, state`Start, state`left
      ensures state.Readable()
      ensures err.Success? ==> Messages.SessionList.Parse(state.max, old(state.left)) == Ok(Sent(), state.left)
      ensures err.Failure? ==> Messages.SessionList.Parse(state.max, old(state.left)) == Err(err.error)
    {
      hide ParseUint, ParseBlock;
      var n :- state.DecodeUint();
      if n > state.max {
        return Failure(ArrayTooBig);
      }
      Keys := seq(n, _ => []);
      ghost var bs := state.left;
      for i := 0 to n
        invariant |Keys| == n && state.Readable()
        invariant ParseEach(ParseBlock, i, bs) == Ok(Keys[..i], state.left)
      {
        ParseEachAppend(ParseBlock, i, bs);
        ghost var before := Keys[..i];
        var key := state.DecodeBlock();
        if key.Failure? {
          ParseEachError(ParseBlock, i + 1, n, bs);
          return Failure(key.error);
        }
        Keys := Keys[i := key.value];
        assert Keys[..i + 1] == before + [key.value];
      }
      assert Keys[..n] == Keys;
      return Success(());
    }
  }

  // ----- frames: a length, then the struct; session blobs are the only framed struct -----

  method FrameSize(m: BareclawSessionBlob, max: nat) returns (n: nat)
    ensures n == |Messages.SessionBlob.Encoded(m.Sent())|
  {
    var s := new State(max);
    m.Preencode(s);
    return s.End;
  }

  method PreencodeFrame(state: State, m: BareclawSessionBlob)
    modifies state`End
    ensures state.End == old(state.End) + |BlockBytes(Messages.SessionBlob.Encoded(m.Sent()))|
  {
    var n := FrameSize(m, state.max);
    state.PreencodeUint(n);
    state.End := state.End + n;
  }

  method EncodeFrame(state: State, m: BareclawSessionBlob) returns (err: Outcome<Error>)
    requires state.Writable()
    modifies state`Start, state`out, state.buffer
    ensures err.Pass? <==> |old(state.out)| + |BlockBytes(Messages.SessionBlob.Encoded(m.Sent()))| <= state.End
    ensures err.Pass? ==> state.Wrote(BlockBytes(Messages.SessionBlob.Encoded(m.Sent())))
    ensures err.Fail? ==> state.Writable() && err.error == OutOfBounds
  {
    hide UintBytes, Messages.SessionBlob.Encoded;
    ghost var w, content := state.out, Messages.SessionBlob.Encoded(m.Sent());
    var n := FrameSize(m, state.max);
    :- state.EncodeUint(n);
    err := m.Encode(state);
    Join(w, UintBytes(n), content);
  }

  /** The inner decoder sees only the declared bytes: End is narrowed to the frame. Once the length check
      passes, the cursor ends just after the frame and End is restored, whether or not m decodes. */
  method DecodeFrame(state: State, m: BareclawSessionBlob) returns (err: Result<(), Error>)
    requires state.Readable()
    modifies m, state`Start, state`End, state`left
    ensures state.Readable() && state.End == old(state.End)
    ensures ParseBlock(old(state.left)).Ok? ==> state.left == ParseBlock(old(state.left)).rest
    ensures err.Success? ==> Messages.ParseBlobFrame(old(state.left)) == Ok(m.Sent(), state.left)
    ensures err.Failure? ==> Messages.ParseBlobFrame(old(state.left)) == Err(err.error)
  {
    hide ParseUint, Messages.SessionBlob.Parse;
    var n :- state.DecodeUint();
    if state.End - state.Start < n {
      return Failure(OutOfBounds);
    }
    ghost var r := state.left;
    var end := state.End;
    state.End := state.Start + n;
    state.left := r[..n];
    assert state.Readable();
    err := m.Decode(state);
    state.Start, state.End := state.End, end;
    state.left := r[n..];
  }

  class BareclawStateBlob {
    // a Go slice of structs: an element is copied out and in around a frame call
    var Sessions: seq<Messages.SessionBlob>

    /** The zero value. */
    constructor ()
      ensures Sessions == []
    {
      Sessions := [];
    }

    /** The message as it travels. */
    function Sent(): Messages.StateBlob
      reads this
    {
      Messages.StateBlob(Sessions)
    }

    method Element(i: nat) returns (blob: BareclawSessionBlob)
      requires i < |Sessions|
      ensures fresh(blob) && blob.Sent() == Sessions[i]
    {
      blob := new BareclawSessionBlob();
      blob.Key, blob.Data := Sessions[i].key, Sessions[i].data;
    }

    method Preencode(state: State)
      modifies state`End
      ensures state.End == old(state.End) + |Messages.StateBlob.Encoded(Sent())|
    {
      hide UintBytes, BlockBytes, Messages.SessionBlob.Encoded;
      ghost var contents := Messages.Contents(Sessions);
      state.PreencodeUint(|Sessions|);
      for i := 0 to |Sessions|
        invariant state.End == old(state.End) + UintSize(|Sessions|) + |Blocks(contents[..i])|
      {
        var blob := Element(i);
        PreencodeFrame(state, blob);
        BlocksStep(contents, i);
      }
      assert contents[..|contents|] == contents;
    }

    method Encode(state: State) returns (err: Outcome<Error>)
      requires state.Writable()
      modifies state`Start, state`out, state.buffer
      ensures err.Pass? <==> |old(state.out)| + |Messages.StateBlob.Encoded(old(Sent()))| <= state.End
      ensures err.Pass? ==> state.Wrote(Messages.StateBlob.Encoded(old(Sent())))
      ensures err.Fail? ==> state.Writable() && err.error == OutOfBounds
    {
      hide UintBytes, BlockBytes, Messages.SessionBlob.Encoded;
      ghost var contents, w := Messages.Contents(Sessions), state.out;
      :- state.EncodeUint(|Sessions|);
      for i := 0 to |Sessions|
        invariant Sessions == old(Sessions) && state.buffer == old(state.buffer) && state.Writable()
        invariant state.out == w + UintBytes(|contents|) + Blocks(contents[..i])
      {
        BlocksStep(contents, i);
        var blob := Element(i);
        :- EncodeFrame(state, blob);
        Join(w + UintBytes(|contents|), Blocks(contents[..i]), BlockBytes(contents[i]));
      }
      assert contents[..|contents|] == contents;
      Join(w, UintBytes(|contents|), Blocks(contents));
      return Pass;
    }

    method Decode(state: State) returns (err: Result<(), Error>)
      requires state.Readable()
      modifies this, state`Start, state`End, state`left
      ensures state.Readable() && state.End == old(state.End)
      ensures err.Success? ==> Messages.StateBlob.Parse(state.max, old(state.left)) == Ok(Sent(), state.left)
      ensures err.Failure? ==> Messages.StateBlob.Parse(state.max, old(state.left)) == Err(err.error)
    {
      hide ParseUint, ParseFrame, Messages.ParseBlobFrame;
      var n :- state.DecodeUint();
      if n > state.max {
        return Failure(ArrayTooBig);
      }
      Sessions := seq(n, _ => Messages.SessionBlob([], []));
      ghost var bs := state.left;
      for i := 0 to n
        invariant |Sessions| == n && state.Readable() && state.End == old(state.End)
        invariant ParseEach(Messages.ParseBlobFrame, i, bs) == Ok(Sessions[..i], state.left)
      {
        ParseEachAppend(Messages.ParseBlobFrame, i, bs);
        ghost var before := Sessions[..i];
        var blob := Element(i);
        var r := DecodeFrame(state, blob);
        if r.Failure? {
          ParseEachError(Messages.ParseBlobFrame, i + 1, n, bs);
          return r;
        }
        Sessions := Sessions[i := blob.Sent()];
        assert Sessions[..i + 1] == before + [blob.Sent()];
      }
      assert Sessions[..n] == Sessions;
      return Success(());
    }
  }
}

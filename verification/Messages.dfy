/** The structs of the Bareclaw schema as they travel: which optional fields are present, which enum
    index was chosen. Both generated codecs are proved against these definitions. Strings are their
    UTF-8 bytes; in an enum field 0 stands for a value outside the enum. */
module Messages {
  import opened Wrappers
  import opened Wire

  /** @bareclaw/chat-request */
  datatype ChatRequest = ChatRequest(sessionId: Bytes, message: Bytes, model: Option<Bytes>) {
    function Flags(): nat {
      Bit(model, 1)
    }

    static predicate Fits(m: ChatRequest) {
      |m.sessionId| < U64 && |m.message| < U64 && OptFits(m.model)
    }

    static function Encoded(m: ChatRequest): Bytes {
      BlockBytes(m.sessionId) + BlockBytes(m.message) + UintBytes(m.Flags()) + OptBytes(m.model)
    }

    static function Parse(bs: Bytes): Parsed<ChatRequest> {
      var (sessionId, r1) :- ParseBlock(bs);
      var (message, r2) :- ParseBlock(r1);
      var (flags, r3) :- ParseUint(r2);
      var (model, r4) :- ParseOpt(Has(flags, 1), r3);
      Ok(ChatRequest(sessionId, message, model), r4)
    }

    lemma Compose(a: Bytes, b: Bytes, c: Bytes, d: Bytes, flags: nat, rest: Bytes)
      requires Reads(ParseBlock, a, sessionId) && Reads(ParseBlock, b, message)
      requires Reads(ParseUint, c, flags) && Reads(OptParser(flags, 1), d, model)
      ensures Parse(a + b + c + d + rest) == Ok(this, rest)
    {
      Join(a + b + c, d, rest);
      Join(a + b, c, d + rest);
      Join(a, b, c + (d + rest));
      assert ParseBlock(a + (b + (c + (d + rest)))) == Ok(sessionId, b + (c + (d + rest)));
      assert ParseBlock(b + (c + (d + rest))) == Ok(message, c + (d + rest));
      assert ParseUint(c + (d + rest)) == Ok(flags, d + rest);
      assert OptParser(flags, 1)(d + rest) == Ok(model, rest);
    }

    static lemma RoundTrip(m: ChatRequest, rest: Bytes)
      requires Fits(m)
      ensures Parse(Encoded(m) + rest) == Ok(m, rest)
    {
      BlockReads(m.sessionId);
      BlockReads(m.message);
      UintReads(m.Flags());
      OptReads(m.model, m.Flags(), 1);
      m.Compose(BlockBytes(m.sessionId), BlockBytes(m.message), UintBytes(m.Flags()), OptBytes(m.model), m.Flags(),
          rest);
    }

    static lemma Stable(bs: Bytes, more: Bytes)
      requires Parse(bs).Ok?
      ensures Parse(bs + more) == Ok(Parse(bs).value, Parse(bs).rest + more)
    {
      BlockStable(bs, more);
      var r1 := ParseBlock(bs).rest;
      BlockStable(r1, more);
      var r2 := ParseBlock(r1).rest;
      UintStable(r2, more);
      var flags := ParseUint(r2).value;
      var r3 := ParseUint(r2).rest;
      OptStable(Has(flags, 1), r3, more);
    }

    static lemma Laws()
      ensures Lawful(Parse, Encoded, Fits)
    {
      forall m: ChatRequest, rest: Bytes | Fits(m) ensures Parse(Encoded(m) + rest) == Ok(m, rest) {
        RoundTrip(m, rest);
      }
      forall bs, more | Parse(bs).Ok? ensures Parse(bs + more) == Ok(Parse(bs).value, Parse(bs).rest + more) {
        Stable(bs, more);
      }
    }
  }

  /** @bareclaw/chat-chunk: kind is 1 content, 2 thinking, 3 done, 4 error. */
  datatype ChatChunk = ChatChunk(kind: nat, content: Option<Bytes>) {
    function Flags(): nat {
      Bit(content, 1)
    }

    static predicate Fits(m: ChatChunk) {
      1 <= m.kind <= 4 && OptFits(m.content)
    }

    static function Encoded(m: ChatChunk): Bytes {
      UintBytes(m.kind) + UintBytes(m.Flags()) + OptBytes(m.content)
    }

    static function Parse(bs: Bytes): Parsed<ChatChunk> {
      var (kind, r1) :- ParseEnum(4, bs);
      var (flags, r2) :- ParseUint(r1);
      var (content, r3) :- ParseOpt(Has(flags, 1), r2);
      Ok(ChatChunk(kind, content), r3)
    }

    lemma Compose(a: Bytes, b: Bytes, c: Bytes, flags: nat, rest: Bytes)
      requires Reads(EnumParser(4), a, kind) && Reads(ParseUint, b, flags)
      requires Reads(OptParser(flags, 1), c, content)
      ensures Parse(a + b + c + rest) == Ok(this, rest)
    {
      Join(a + b, c, rest);
      Join(a, b, c + rest);
      assert EnumParser(4)(a + (b + (c + rest))) == Ok(kind, b + (c + rest));
      assert ParseUint(b + (c + rest)) == Ok(flags, c + rest);
      assert OptParser(flags, 1)(c + rest) == Ok(content, rest);
    }

    static lemma RoundTrip(m: ChatChunk, rest: Bytes)
      requires Fits(m)
      ensures Parse(Encoded(m) + rest) == Ok(m, rest)
    {
      EnumReads(4, m.kind);
      UintReads(m.Flags());
      OptReads(m.content, m.Flags(), 1);
      m.Compose(UintBytes(m.kind), UintBytes(m.Flags()), OptBytes(m.content), m.Flags(), rest);
    }

    static lemma Stable(bs: Bytes, more: Bytes)
      requires Parse(bs).Ok?
      ensures Parse(bs + more) == Ok(Parse(bs).value, Parse(bs).rest + more)
    {
      EnumStable(4, bs, more);
      var r1 := ParseEnum(4, bs).rest;
      UintStable(r1, more);
      var flags := ParseUint(r1).value;
      var r2 := ParseUint(r1).rest;
      OptStable(Has(flags, 1), r2, more);
    }

    static lemma Laws()
      ensures Lawful(Parse, Encoded, Fits)
    {
      forall m: ChatChunk, rest: Bytes | Fits(m) ensures Parse(Encoded(m) + rest) == Ok(m, rest) {
        RoundTrip(m, rest);
      }
      forall bs, more | Parse(bs).Ok? ensures Parse(bs + more) == Ok(Parse(bs).value, Parse(bs).rest + more) {
        Stable(bs, more);
      }
    }
  }

  /** @bareclaw/session-scope */
  datatype SessionScope = SessionScope(agentId: Option<Bytes>, channel: Option<Bytes>, account: Option<Bytes>,
                                       peer: Option<Bytes>) {
    function Flags(): nat {
      Bit(agentId, 1) + Bit(channel, 2) + Bit(account, 4) + Bit(peer, 8)
    }

    static predicate Fits(m: SessionScope) {
      OptFits(m.agentId) && OptFits(m.channel) && OptFits(m.account) && OptFits(m.peer)
    }

    static function Encoded(m: SessionScope): Bytes {
      UintBytes(m.Flags()) + OptBytes(m.agentId) + OptBytes(m.channel) + OptBytes(m.account) + OptBytes(m.peer)
    }

    static function Parse(bs: Bytes): Parsed<SessionScope> {
      var (flags, r1) :- ParseUint(bs);
      var (agentId, r2) :- ParseOpt(Has(flags, 1), r1);
      var (channel, r3) :- ParseOpt(Has(flags, 2), r2);
      var (account, r4) :- ParseOpt(Has(flags, 4), r3);
      var (peer, r5) :- ParseOpt(Has(flags, 8), r4);
      Ok(SessionScope(agentId, channel, account, peer), r5)
    }

    lemma Compose(a: Bytes, b: Bytes, c: Bytes, d: Bytes, e: Bytes, flags: nat, rest: Bytes)
      requires Reads(ParseUint, a, flags) && Reads(OptParser(flags, 1), b, agentId)
      requires Reads(OptParser(flags, 2), c, channel) && Reads(OptParser(flags, 4), d, account)
      requires Reads(OptParser(flags, 8), e, peer)
      ensures Parse(a + b + c + d + e + rest) == Ok(this, rest)
    {
      Join(a + b + c + d, e, rest);
      Join(a + b + c, d, e + rest);
      Join(a + b, c, d + (e + rest));
      Join(a, b, c + (d + (e + rest)));
      assert ParseUint(a + (b + (c + (d + (e + rest))))) == Ok(flags, b + (c + (d + (e + rest))));
      assert OptParser(flags, 1)(b + (c + (d + (e + rest)))) == Ok(agentId, c + (d + (e + rest)));
      assert OptParser(flags, 2)(c + (d + (e + rest))) == Ok(channel, d + (e + rest));
      assert OptParser(flags, 4)(d + (e + rest)) == Ok(account, e + rest);
      assert OptParser(flags, 8)(e + rest) == Ok(peer, rest);
    }

    static lemma RoundTrip(m: SessionScope, rest: Bytes)
      requires Fits(m)
      ensures Parse(Encoded(m) + rest) == Ok(m, rest)
    {
      UintReads(m.Flags());
      OptReads(m.agentId, m.Flags(), 1);
      OptReads(m.channel, m.Flags(), 2);
      OptReads(m.account, m.Flags(), 4);
      OptReads(m.peer, m.Flags(), 8);
      m.Compose(UintBytes(m.Flags()), OptBytes(m.agentId), OptBytes(m.channel), OptBytes(m.account), OptBytes(m.peer),
          m.Flags(), rest);
    }

    static lemma Stable(bs: Bytes, more: Bytes)
      requires Parse(bs).Ok?
      ensures Parse(bs + more) == Ok(Parse(bs).value, Parse(bs).rest + more)
    {
      UintStable(bs, more);
      var flags := ParseUint(bs).value;
      var r1 := ParseUint(bs).rest;
      OptStable(Has(flags, 1), r1, more);
      var r2 := ParseOpt(Has(flags, 1), r1).rest;
      OptStable(Has(flags, 2), r2, more);
      var r3 := ParseOpt(Has(flags, 2), r2).rest;
      OptStable(Has(flags, 4), r3, more);
      var r4 := ParseOpt(Has(flags, 4), r3).rest;
      OptStable(Has(flags, 8), r4, more);
    }

    static lemma Laws()
      ensures Lawful(Parse, Encoded, Fits)
    {
      forall m: SessionScope, rest: Bytes | Fits(m) ensures Parse(Encoded(m) + rest) == Ok(m, rest) {
        RoundTrip(m, rest);
      }
      forall bs, more | Parse(bs).Ok? ensures Parse(bs + more) == Ok(Parse(bs).value, Parse(bs).rest + more) {
        Stable(bs, more);
      }
    }
  }

  /** @bareclaw/session-key */
  datatype SessionKey = SessionKey(key: Bytes) {
    static predicate Fits(m: SessionKey) {
      |m.key| < U64
    }

    static function Encoded(m: SessionKey): Bytes {
      BlockBytes(m.key)
    }

    static function Parse(bs: Bytes): Parsed<SessionKey> {
      var (key, r1) :- ParseBlock(bs);
      Ok(SessionKey(key), r1)
    }

    lemma Compose(a: Bytes, rest: Bytes)
      requires Reads(ParseBlock, a, key)
      ensures Parse(a + rest) == Ok(this, rest)
    {
      assert ParseBlock(a + rest) == Ok(key, rest);
    }

    static lemma RoundTrip(m: SessionKey, rest: Bytes)
      requires Fits(m)
      ensures Parse(Encoded(m) + rest) == Ok(m, rest)
    {
      BlockReads(m.key);
      m.Compose(BlockBytes(m.key), rest);
    }

    static lemma Stable(bs: Bytes, more: Bytes)
      requires Parse(bs).Ok?
      ensures Parse(bs + more) == Ok(Parse(bs).value, Parse(bs).rest + more)
    {
      BlockStable(bs, more);
    }

    static lemma Laws()
      ensures Lawful(Parse, Encoded, Fits)
    {
      forall m: SessionKey, rest: Bytes | Fits(m) ensures Parse(Encoded(m) + rest) == Ok(m, rest) {
        RoundTrip(m, rest);
      }
      forall bs, more | Parse(bs).Ok? ensures Parse(bs + more) == Ok(Parse(bs).value, Parse(bs).rest + more) {
        Stable(bs, more);
      }
    }
  }

  /** @bareclaw/session-blob */
  datatype SessionBlob = SessionBlob(key: Bytes, data: Bytes) {
    static predicate Fits(m: SessionBlob) {
      |m.key| < U64 && |m.data| < U64
    }

    static function Encoded(m: SessionBlob): Bytes {
      BlockBytes(m.key) + BlockBytes(m.data)
    }

    static function Parse(bs: Bytes): Parsed<SessionBlob> {
      var (key, r1) :- ParseBlock(bs);
      var (data, r2) :- ParseBlock(r1);
      Ok(SessionBlob(key, data), r2)
    }

    lemma Compose(a: Bytes, b: Bytes, rest: Bytes)
      requires Reads(ParseBlock, a, key) && Reads(ParseBlock, b, data)
      ensures Parse(a + b + rest) == Ok(this, rest)
    {
      Join(a, b, rest);
      assert ParseBlock(a + (b + rest)) == Ok(key, b + rest);
      assert ParseBlock(b + rest) == Ok(data, rest);
    }

    static lemma RoundTrip(m: SessionBlob, rest: Bytes)
      requires Fits(m)
      ensures Parse(Encoded(m) + rest) == Ok(m, rest)
    {
      BlockReads(m.key);
      BlockReads(m.data);
      m.Compose(BlockBytes(m.key), BlockBytes(m.data), rest);
    }

    static lemma Stable(bs: Bytes, more: Bytes)
      requires Parse(bs).Ok?
      ensures Parse(bs + more) == Ok(Parse(bs).value, Parse(bs).rest + more)
    {
      BlockStable(bs, more);
      var r1 := ParseBlock(bs).rest;
      BlockStable(r1, more);
    }

    static lemma Laws()
      ensures Lawful(Parse, Encoded, Fits)
    {
      forall m: SessionBlob, rest: Bytes | Fits(m) ensures Parse(Encoded(m) + rest) == Ok(m, rest) {
        RoundTrip(m, rest);
      }
      forall bs, more | Parse(bs).Ok? ensures Parse(bs + more) == Ok(Parse(bs).value, Parse(bs).rest + more) {
        Stable(bs, more);
      }
    }
  }

  /** @bareclaw/tool-def */
  datatype ToolDef = ToolDef(name: Bytes, description: Bytes, inputSchema: Option<Bytes>) {
    function Flags(): nat {
      Bit(inputSchema, 1)
    }

    static predicate Fits(m: ToolDef) {
      |m.name| < U64 && |m.description| < U64 && OptFits(m.inputSchema)
    }

    static function Encoded(m: ToolDef): Bytes {
      BlockBytes(m.name) + BlockBytes(m.description) + UintBytes(m.Flags()) + OptBytes(m.inputSchema)
    }

    static function Parse(bs: Bytes): Parsed<ToolDef> {
      var (name, r1) :- ParseBlock(bs);
      var (description, r2) :- ParseBlock(r1);
      var (flags, r3) :- ParseUint(r2);
      var (inputSchema, r4) :- ParseOpt(Has(flags, 1), r3);
      Ok(ToolDef(name, description, inputSchema), r4)
    }

    lemma Compose(a: Bytes, b: Bytes, c: Bytes, d: Bytes, flags: nat, rest: Bytes)
      requires Reads(ParseBlock, a, name) && Reads(ParseBlock, b, description)
      requires Reads(ParseUint, c, flags) && Reads(OptParser(flags, 1), d, inputSchema)
      ensures Parse(a + b + c + d + rest) == Ok(this, rest)
    {
      Join(a + b + c, d, rest);
      Join(a + b, c, d + rest);
      Join(a, b, c + (d + rest));
      assert ParseBlock(a + (b + (c + (d + rest)))) == Ok(name, b + (c + (d + rest)));
      assert ParseBlock(b + (c + (d + rest))) == Ok(description, c + (d + rest));
      assert ParseUint(c + (d + rest)) == Ok(flags, d + rest);
      assert OptParser(flags, 1)(d + rest) == Ok(inputSchema, rest);
    }

    static lemma RoundTrip(m: ToolDef, rest: Bytes)
      requires Fits(m)
      ensures Parse(Encoded(m) + rest) == Ok(m, rest)
    {
      BlockReads(m.name);
      BlockReads(m.description);
      UintReads(m.Flags());
      OptReads(m.inputSchema, m.Flags(), 1);
      m.Compose(BlockBytes(m.name), BlockBytes(m.description), UintBytes(m.Flags()), OptBytes(m.inputSchema),
          m.Flags(), rest);
    }

    static lemma Stable(bs: Bytes, more: Bytes)
      requires Parse(bs).Ok?
      ensures Parse(bs + more) == Ok(Parse(bs).value, Parse(bs).rest + more)
    {
      BlockStable(bs, more);
      var r1 := ParseBlock(bs).rest;
      BlockStable(r1, more);
      var r2 := ParseBlock(r1).rest;
      UintStable(r2, more);
      var flags := ParseUint(r2).value;
      var r3 := ParseUint(r2).rest;
      OptStable(Has(flags, 1), r3, more);
    }

    static lemma Laws()
      ensures Lawful(Parse, Encoded, Fits)
    {
      forall m: ToolDef, rest: Bytes | Fits(m) ensures Parse(Encoded(m) + rest) == Ok(m, rest) {
        RoundTrip(m, rest);
      }
      forall bs, more | Parse(bs).Ok? ensures Parse(bs + more) == Ok(Parse(bs).value, Parse(bs).rest + more) {
        Stable(bs, more);
      }
    }
  }

  /** @bareclaw/tool-call */
  datatype ToolCall = ToolCall(callId: Bytes, name: Bytes, input: Bytes) {
    static predicate Fits(m: ToolCall) {
      |m.callId| < U64 && |m.name| < U64 && |m.input| < U64
    }

    static function Encoded(m: ToolCall): Bytes {
      BlockBytes(m.callId) + BlockBytes(m.name) + BlockBytes(m.input)
    }

    static function Parse(bs: Bytes): Parsed<ToolCall> {
      var (callId, r1) :- ParseBlock(bs);
      var (name, r2) :- ParseBlock(r1);
      var (input, r3) :- ParseBlock(r2);
      Ok(ToolCall(callId, name, input), r3)
    }

    lemma Compose(a: Bytes, b: Bytes, c: Bytes, rest: Bytes)
      requires Reads(ParseBlock, a, callId) && Reads(ParseBlock, b, name)
      requires Reads(ParseBlock, c, input)
      ensures Parse(a + b + c + rest) == Ok(this, rest)
    {
      Join(a + b, c, rest);
      Join(a, b, c + rest);
      assert ParseBlock(a + (b + (c + rest))) == Ok(callId, b + (c + rest));
      assert ParseBlock(b + (c + rest)) == Ok(name, c + rest);
      assert ParseBlock(c + rest) == Ok(input, rest);
    }

    static lemma RoundTrip(m: ToolCall, rest: Bytes)
      requires Fits(m)
      ensures Parse(Encoded(m) + rest) == Ok(m, rest)
    {
      BlockReads(m.callId);
      BlockReads(m.name);
      BlockReads(m.input);
      m.Compose(BlockBytes(m.callId), BlockBytes(m.name), BlockBytes(m.input), rest);
    }

    static lemma Stable(bs: Bytes, more: Bytes)
      requires Parse(bs).Ok?
      ensures Parse(bs + more) == Ok(Parse(bs).value, Parse(bs).rest + more)
    {
      BlockStable(bs, more);
      var r1 := ParseBlock(bs).rest;
      BlockStable(r1, more);
      var r2 := ParseBlock(r1).rest;
      BlockStable(r2, more);
    }

    static lemma Laws()
      ensures Lawful(Parse, Encoded, Fits)
    {
      forall m: ToolCall, rest: Bytes | Fits(m) ensures Parse(Encoded(m) + rest) == Ok(m, rest) {
        RoundTrip(m, rest);
      }
      forall bs, more | Parse(bs).Ok? ensures Parse(bs + more) == Ok(Parse(bs).value, Parse(bs).rest + more) {
        Stable(bs, more);
      }
    }
  }

  /** @bareclaw/tool-result */
  datatype ToolResult = ToolResult(callId: Bytes, output: Option<Bytes>, errMsg: Option<Bytes>) {
    function Flags(): nat {
      Bit(output, 1) + Bit(errMsg, 2)
    }

    static predicate Fits(m: ToolResult) {
      |m.callId| < U64 && OptFits(m.output) && OptFits(m.errMsg)
    }

    static function Encoded(m: ToolResult): Bytes {
      BlockBytes(m.callId) + UintBytes(m.Flags()) + OptBytes(m.output) + OptBytes(m.errMsg)
    }

    static function Parse(bs: Bytes): Parsed<ToolResult> {
      var (callId, r1) :- ParseBlock(bs);
      var (flags, r2) :- ParseUint(r1);
      var (output, r3) :- ParseOpt(Has(flags, 1), r2);
      var (errMsg, r4) :- ParseOpt(Has(flags, 2), r3);
      Ok(ToolResult(callId, output, errMsg), r4)
    }

    lemma Compose(a: Bytes, b: Bytes, c: Bytes, d: Bytes, flags: nat, rest: Bytes)
      requires Reads(ParseBlock, a, callId) && Reads(ParseUint, b, flags)
      requires Reads(OptParser(flags, 1), c, output) && Reads(OptParser(flags, 2), d, errMsg)
      ensures Parse(a + b + c + d + rest) == Ok(this, rest)
    {
      Join(a + b + c, d, rest);
      Join(a + b, c, d + rest);
      Join(a, b, c + (d + rest));
      assert ParseBlock(a + (b + (c + (d + rest)))) == Ok(callId, b + (c + (d + rest)));
      assert ParseUint(b + (c + (d + rest))) == Ok(flags, c + (d + rest));
      assert OptParser(flags, 1)(c + (d + rest)) == Ok(output, d + rest);
      assert OptParser(flags, 2)(d + rest) == Ok(errMsg, rest);
    }

    static lemma RoundTrip(m: ToolResult, rest: Bytes)
      requires Fits(m)
      ensures Parse(Encoded(m) + rest) == Ok(m, rest)
    {
      BlockReads(m.callId);
      UintReads(m.Flags());
      OptReads(m.output, m.Flags(), 1);
      OptReads(m.errMsg, m.Flags(), 2);
      m.Compose(BlockBytes(m.callId), UintBytes(m.Flags()), OptBytes(m.output), OptBytes(m.errMsg), m.Flags(), rest);
    }

    static lemma Stable(bs: Bytes, more: Bytes)
      requires Parse(bs).Ok?
      ensures Parse(bs + more) == Ok(Parse(bs).value, Parse(bs).rest + more)
    {
      BlockStable(bs, more);
      var r1 := ParseBlock(bs).rest;
      UintStable(r1, more);
      var flags := ParseUint(r1).value;
      var r2 := ParseUint(r1).rest;
      OptStable(Has(flags, 1), r2, more);
      var r3 := ParseOpt(Has(flags, 1), r2).rest;
      OptStable(Has(flags, 2), r3, more);
    }

    static lemma Laws()
      ensures Lawful(Parse, Encoded, Fits)
    {
      forall m: ToolResult, rest: Bytes | Fits(m) ensures Parse(Encoded(m) + rest) == Ok(m, rest) {
        RoundTrip(m, rest);
      }
      forall bs, more | Parse(bs).Ok? ensures Parse(bs + more) == Ok(Parse(bs).value, Parse(bs).rest + more) {
        Stable(bs, more);
      }
    }
  }

  /** @bareclaw/state-chunk: field is 1 history, 2 summary. */
  datatype StateChunk = StateChunk(sessionKey: Bytes, field: nat, data: Bytes) {
    static predicate Fits(m: StateChunk) {
      |m.sessionKey| < U64 && 1 <= m.field <= 2 && |m.data| < U64
    }

    static function Encoded(m: StateChunk): Bytes {
      BlockBytes(m.sessionKey) + UintBytes(m.field) + BlockBytes(m.data)
    }

    static function Parse(bs: Bytes): Parsed<StateChunk> {
      var (sessionKey, r1) :- ParseBlock(bs);
      var (field, r2) :- ParseEnum(2, r1);
      var (data, r3) :- ParseBlock(r2);
      Ok(StateChunk(sessionKey, field, data), r3)
    }

    lemma Compose(a: Bytes, b: Bytes, c: Bytes, rest: Bytes)
      requires Reads(ParseBlock, a, sessionKey) && Reads(EnumParser(2), b, field)
      requires Reads(ParseBlock, c, data)
      ensures Parse(a + b + c + rest) == Ok(this, rest)
    {
      Join(a + b, c, rest);
      Join(a, b, c + rest);
      assert ParseBlock(a + (b + (c + rest))) == Ok(sessionKey, b + (c + rest));
      assert EnumParser(2)(b + (c + rest)) == Ok(field, c + rest);
      assert ParseBlock(c + rest) == Ok(data, rest);
    }

    static lemma RoundTrip(m: StateChunk, rest: Bytes)
      requires Fits(m)
      ensures Parse(Encoded(m) + rest) == Ok(m, rest)
    {
      BlockReads(m.sessionKey);
      EnumReads(2, m.field);
      BlockReads(m.data);
      m.Compose(BlockBytes(m.sessionKey), UintBytes(m.field), BlockBytes(m.data), rest);
    }

    static lemma Stable(bs: Bytes, more: Bytes)
      requires Parse(bs).Ok?
      ensures Parse(bs + more) == Ok(Parse(bs).value, Parse(bs).rest + more)
    {
      BlockStable(bs, more);
      var r1 := ParseBlock(bs).rest;
      EnumStable(2, r1, more);
      var r2 := ParseEnum(2, r1).rest;
      BlockStable(r2, more);
    }

    static lemma Laws()
      ensures Lawful(Parse, Encoded, Fits)
    {
      forall m: StateChunk, rest: Bytes | Fits(m) ensures Parse(Encoded(m) + rest) == Ok(m, rest) {
        RoundTrip(m, rest);
      }
      forall bs, more | Parse(bs).Ok? ensures Parse(bs + more) == Ok(Parse(bs).value, Parse(bs).rest + more) {
        Stable(bs, more);
      }
    }
  }

  /** @bareclaw/session-list */
  datatype SessionList = SessionList(keys: seq<Bytes>) {
    static predicate Fits(m: SessionList) {
      |m.keys| < U64 && forall i | 0 <= i < |m.keys| :: |m.keys[i]| < U64
    }

    static function Encoded(m: SessionList): Bytes {
      ArrayBytes(m.keys)
    }

    static function Parse(max: nat, bs: Bytes): Parsed<SessionList> {
      var (keys, r) :- ParseArray(max, ParseBlock, bs);
      Ok(SessionList(keys), r)
    }

    /** No writer checks the array limit; a reader refuses exactly the lists that exceed it. */
    static lemma RoundTrip(max: nat, m: SessionList, rest: Bytes)
      requires Fits(m)
      ensures Parse(max, Encoded(m) + rest) == if |m.keys| <= max then Ok(m, rest) else Err(ArrayTooBig)
    {
      forall i | 0 <= i < |m.keys| ensures Reads(ParseBlock, BlockBytes(m.keys[i]), m.keys[i]) {
        BlockReads(m.keys[i]);
      }
      ArrayRoundTrip(max, ParseBlock, m.keys, m.keys, rest);
    }

    static lemma Stable(max: nat, bs: Bytes, more: Bytes)
      requires Parse(max, bs).Ok?
      ensures Parse(max, bs + more) == Ok(Parse(max, bs).value, Parse(max, bs).rest + more)
    {
      forall b, m | ParseBlock(b).Ok? ensures ParseBlock(b + m) == Ok(ParseBlock(b).value, ParseBlock(b).rest + m) {
        BlockStable(b, m);
      }
      ArrayStable(max, ParseBlock, bs, more);
    }

    static function Parser(max: nat): Bytes -> Parsed<SessionList> {
      bs => Parse(max, bs)
    }

    static function Within(max: nat): SessionList -> bool {
      m => Fits(m) && |m.keys| <= max
    }

    static lemma Laws(max: nat)
      ensures Lawful(Parser(max), Encoded, Within(max))
    {
      forall m: SessionList, rest: Bytes | Within(max)(m) ensures Parser(max)(Encoded(m) + rest) == Ok(m, rest) {
        RoundTrip(max, m, rest);
      }
      forall bs, more | Parser(max)(bs).Ok?
        ensures Parser(max)(bs + more) == Ok(Parser(max)(bs).value, Parser(max)(bs).rest + more)
      {
        Stable(max, bs, more);
      }
    }
  }

  function ParseBlobFrame(bs: Bytes): Parsed<SessionBlob> {
    ParseFrame(SessionBlob.Parse, bs)
  }

  function Contents(sessions: seq<SessionBlob>): (contents: seq<Bytes>)
    ensures |contents| == |sessions|
  {
    seq(|sessions|, i requires 0 <= i < |sessions| => SessionBlob.Encoded(sessions[i]))
  }

  /** @bareclaw/state-blob: a session blob is not compact, so each travels in a frame. */
  datatype StateBlob = StateBlob(sessions: seq<SessionBlob>) {
    static predicate Fits(m: StateBlob) {
      && |m.sessions| < U64
      && forall i | 0 <= i < |m.sessions| :: SessionBlob.Fits(m.sessions[i])
          && |SessionBlob.Encoded(m.sessions[i])| < U64
    }

    static function Encoded(m: StateBlob): Bytes {
      ArrayBytes(Contents(m.sessions))
    }

    static function Parse(max: nat, bs: Bytes): Parsed<StateBlob> {
      var (sessions, r) :- ParseArray(max, ParseBlobFrame, bs);
      Ok(StateBlob(sessions), r)
    }

    /** The same sessions come back even when every frame carries extra trailing bytes. */
    static lemma PaddedRoundTrip(max: nat, m: StateBlob, contents: seq<Bytes>, rest: Bytes)
      requires Fits(m) && |contents| == |m.sessions|
      requires forall i | 0 <= i < |m.sessions| ::
                 SessionBlob.Encoded(m.sessions[i]) <= contents[i] && |contents[i]| < U64
      ensures Parse(max, ArrayBytes(contents) + rest)
              == if |m.sessions| <= max then Ok(m, rest) else Err(ArrayTooBig)
    {
      forall i | 0 <= i < |m.sessions| ensures Reads(ParseBlobFrame, BlockBytes(contents[i]), m.sessions[i]) {
        var whole := contents[i];
        var pad := whole[|SessionBlob.Encoded(m.sessions[i])|..];
        assert whole == SessionBlob.Encoded(m.sessions[i]) + pad;
        SessionBlob.RoundTrip(m.sessions[i], pad);
        forall r: Bytes ensures ParseBlobFrame(BlockBytes(whole) + r) == Ok(m.sessions[i], r) {
          FrameReads(SessionBlob.Parse, whole, m.sessions[i], r);
        }
      }
      ArrayRoundTrip(max, ParseBlobFrame, contents, m.sessions, rest);
    }

    static lemma RoundTrip(max: nat, m: StateBlob, rest: Bytes)
      requires Fits(m)
      ensures Parse(max, Encoded(m) + rest) == if |m.sessions| <= max then Ok(m, rest) else Err(ArrayTooBig)
    {
      PaddedRoundTrip(max, m, Contents(m.sessions), rest);
    }

    static lemma Stable(max: nat, bs: Bytes, more: Bytes)
      requires Parse(max, bs).Ok?
      ensures Parse(max, bs + more) == Ok(Parse(max, bs).value, Parse(max, bs).rest + more)
    {
      forall b, m | ParseBlobFrame(b).Ok?
        ensures ParseBlobFrame(b + m) == Ok(ParseBlobFrame(b).value, ParseBlobFrame(b).rest + m)
      {
        FrameStable(SessionBlob.Parse, b, m);
      }
      ArrayStable(max, ParseBlobFrame, bs, more);
    }

    static function Parser(max: nat): Bytes -> Parsed<StateBlob> {
      bs => Parse(max, bs)
    }

    static function Within(max: nat): StateBlob -> bool {
      m => Fits(m) && |m.sessions| <= max
    }

    static lemma Laws(max: nat)
      ensures Lawful(Parser(max), Encoded, Within(max))
    {
      forall m: StateBlob, rest: Bytes | Within(max)(m) ensures Parser(max)(Encoded(m) + rest) == Ok(m, rest) {
        RoundTrip(max, m, rest);
      }
      forall bs, more | Parser(max)(bs).Ok?
        ensures Parser(max)(bs + more) == Ok(Parser(max)(bs).value, Parser(max)(bs).rest + more)
      {
        Stable(max, bs, more);
      }
    }
  }

  // ----- what the laws give every struct -----

  /** Every struct of the schema obeys the laws, for any array limit. */
  lemma EveryStructIsLawful(max: nat)
    ensures Lawful(ChatRequest.Parse, ChatRequest.Encoded, ChatRequest.Fits)
    ensures Lawful(ChatChunk.Parse, ChatChunk.Encoded, ChatChunk.Fits)
    ensures Lawful(SessionScope.Parse, SessionScope.Encoded, SessionScope.Fits)
    ensures Lawful(SessionKey.Parse, SessionKey.Encoded, SessionKey.Fits)
    ensures Lawful(SessionList.Parser(max), SessionList.Encoded, SessionList.Within(max))
    ensures Lawful(SessionBlob.Parse, SessionBlob.Encoded, SessionBlob.Fits)
    ensures Lawful(StateBlob.Parser(max), StateBlob.Encoded, StateBlob.Within(max))
    ensures Lawful(ToolDef.Parse, ToolDef.Encoded, ToolDef.Fits)
    ensures Lawful(ToolCall.Parse, ToolCall.Encoded, ToolCall.Fits)
    ensures Lawful(ToolResult.Parse, ToolResult.Encoded, ToolResult.Fits)
    ensures Lawful(StateChunk.Parse, StateChunk.Encoded, StateChunk.Fits)
  {
    ChatRequest.Laws();
    ChatChunk.Laws();
    SessionScope.Laws();
    SessionKey.Laws();
    SessionList.Laws(max);
    SessionBlob.Laws();
    StateBlob.Laws(max);
    ToolDef.Laws();
    ToolCall.Laws();
    ToolResult.Laws();
    StateChunk.Laws();
  }

  /** Truncation is always detected: a lawful reader refuses every strict prefix of an encoding. */
  lemma TruncationDetected<T(!new)>(dec: Bytes -> Parsed<T>, enc: T -> Bytes, fits: T -> bool, m: T, k: nat)
    requires Lawful(dec, enc, fits) && fits(m) && k < |enc(m)|
    ensures dec(enc(m)[..k]).Err?
  {
    var whole := enc(m);
    assert whole + [] == whole;
    assert whole[..k] + whole[k..] == whole;
    assert Reads(dec, enc(m), m);
    assert dec(whole + []) == Ok(m, []);
  }

  /** Encodings of one struct are prefix free, so they are also distinct for distinct messages. */
  lemma PrefixFree<T(!new)>(dec: Bytes -> Parsed<T>, enc: T -> Bytes, fits: T -> bool, m: T, n: T, rest: Bytes)
    requires Lawful(dec, enc, fits) && fits(m) && fits(n) && enc(n) == enc(m) + rest
    ensures m == n && rest == []
  {
    assert Reads(dec, enc(m), m) && Reads(dec, enc(n), n);
    assert enc(n) + [] == enc(n);
    assert dec(enc(n) + []) == Ok(n, []);
  }

  lemma EncodedInjective<T(!new)>(dec: Bytes -> Parsed<T>, enc: T -> Bytes, fits: T -> bool, m: T, n: T)
    requires Lawful(dec, enc, fits) && fits(m) && fits(n) && enc(m) == enc(n)
    ensures m == n
  {
    assert enc(m) + [] == enc(m);
    PrefixFree(dec, enc, fits, m, n, []);
  }
}

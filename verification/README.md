# Bareclaw, verified

A Dafny model of the parts of Bareclaw where two programs, or many, have to agree: the wire codec that is
generated once for Go and once for JavaScript, the session store that is kept on both sides of the RPC, the
concurrent chat streams, the agent protocols of the examples, and two small algorithms. `dafny verify
dfyconfig.toml` checks everything. Sizes are never bounded: any number of agents, rounds, reviewers, sessions,
bytes, chunks and steps.

| file | what it models |
|---|---|
| Wire, Messages | compact-encoding's primitives, arrays and frames; each schema struct as it travels, with the laws its codec obeys |
| CodecState, GoSchema, JsMessages | the cursor both codecs move, and the two generated codecs as they are written |
| Hrpc, CrossCodec, Vectors | hrpc's encode and decode; the two codecs against each other; the bytes of one message of every kind |
| Utf8, Framing | chunks of bytes converted to text one by one; newline-delimited JSON over them |
| Blackboard, CodeReview, Collab | the three agent examples as protocols, and their handlers as objects |
| SessionStore | marshalled sessions, export and import in Go |
| Bee, Persistence, Bareclaw, Racing | the bee of index.js, its range scan, and its agreement with Go over whole runs |
| ChatStreams, ChatRouting | concurrent chats and their response streams; the registry, and whose words a stream carries |
| ChatServer, ChatConsumer | the objects behind a chat, whose methods take the steps of those models; the generator at the other end |
| Wrap | greedy word wrap |
| Inboxes, Tools, ToolMessages | the P2P tools' resources, inboxes and messages |
| Wrappers, Counting, Decimals | shared helpers |

How the protocols are modelled: a state, a step for every handler and for every stretch of code between two
awaits or two lock operations, and an invariant every step keeps; a theorem about runs quantifies over all
sequences of steps. Blackboard, CodeReview, Collab, Tools, ChatServer and Bareclaw also have the source's
objects as classes. A handler's or an operation's contract ties the objects before and after it to states of the
model: it takes a step, the part of a step its own object takes, or a whole run. A Chat call, handleChat included,
is one run of ChatStreams; session, chat, importSession, a state-changed event and a restart are runs of
Persistence. The pieces of a step (a broadcast, the persist, close and load of Bareclaw) say what they leave.

## What is assumed

- compact-encoding is not part of the repository. A uint is one byte up to 0xfc, else 0xfd, 0xfe or 0xff and 2,
  4 or 8 little-endian bytes; strings and buffers are length-prefixed; arrays are counted and refused above a
  limit (`max`); a frame is a length and its content; every read is checked against End. A zero-length buffer
  reads as null in JavaScript and as an empty, non-nil slice in Go.
- Strings are their UTF-8 bytes in the codec and the bee, and character sequences elsewhere; Utf8 relates the two. Lengths and numbers
  fit 64 bits, and JavaScript numbers are exact.
- The JSON of one message and of a session dump is an abstract codec; lemmas that need it assume that what
  encodes decodes to itself, and that an empty document does not parse. For framing, JSON text is non-empty and
  has no newline.
- picoclaw's session store is a map: a setter creates a missing session, a missing key reads as empty, and the
  n-th Save succeeds or fails as the environment decides. Go's store changes only through turns and imports, a
  turn writes only its own session, and the agent's turn is otherwise arbitrary.
- The bee is a map from byte strings to byte strings in byte order, and a flush is one step. Links are FIFO and
  reliable and sockets stay open where a protocol says so; a response stream accepts or refuses each write as
  the environment decides, and refuses every write after it is closed. An agent that is asked answers in
  the end; a chat's agent may go on for as long as it likes, look up any two strings at any time, and keep the
  streamers it finds.
- In the code review the regular expressions that clean and classify a review are arbitrary functions, and in
  every protocol an agent's text is arbitrary.

Where the code and the obvious claim disagree, the model follows the code, gives a run or an input that shows
it, and proves the exact condition:

- chunked UTF-8: text arrives intact if and only if every chunk is well-formed by itself (Utf8, Framing);
- the key scan: a key is found if and only if it is non-empty, slash-free and below the bound (Bee);
- failed saves and keys the scan cannot find: when bee and Go still agree (Persistence);
- overlapping persists: every completion order is safe if and only if no change overlaps a call (Racing);
- late updates to a chat stream (ChatStreams), a wrapped counter and stray lookups (ChatRouting). Exactness of
  the registry at the end of a run is weaker than exactness throughout, as ChatRouting.CollisionAftermath shows;
- empty categories and empty panels (CodeReview), zero rounds (Collab), an oversized array (CrossCodec).

## Model

| member | source | states |
|---|---|---|
| Messages.ChatRequest.RoundTrip | go/schema/schema.go:51-92 | decoding an encoded ChatRequest followed by any bytes returns it and stops exactly at those bytes |
| Messages.ChatRequest.Stable | go/schema/schema.go:73-92 | bytes after a message never change what is read, nor what is left over |
| Messages.ChatChunk.RoundTrip | go/schema/schema.go:166-201 | decoding an encoded ChatChunk followed by any bytes returns it and stops exactly at those bytes |
| Messages.ChatChunk.Stable | go/schema/schema.go:185-201 | bytes after a message never change what is read, nor what is left over |
| Messages.SessionScope.RoundTrip | go/schema/schema.go:239-307 | decoding an encoded SessionScope followed by any bytes returns it and stops exactly at those bytes |
| Messages.SessionScope.Stable | go/schema/schema.go:279-307 | bytes after a message never change what is read, nor what is left over |
| Messages.SessionKey.RoundTrip | go/schema/schema.go:317-331 | decoding an encoded SessionKey followed by any bytes returns it and stops exactly at those bytes |
| Messages.SessionKey.Stable | go/schema/schema.go:324-331 | bytes after a message never change what is read, nor what is left over |
| Messages.SessionList.RoundTrip | go/schema/schema.go:344-372 | decoding an encoded SessionList followed by any bytes returns it and stops exactly at those bytes when there are at most `max` elements, and ArrayTooBig otherwise |
| Messages.SessionList.Stable | go/schema/schema.go:356-372 | bytes after a message never change what is read, nor what is left over |
| Messages.SessionBlob.RoundTrip | go/schema/schema.go:384-404 | decoding an encoded SessionBlob followed by any bytes returns it and stops exactly at those bytes |
| Messages.SessionBlob.Stable | go/schema/schema.go:394-404 | bytes after a message never change what is read, nor what is left over |
| Messages.StateBlob.RoundTrip | go/schema/schema.go:417-445 | decoding an encoded StateBlob followed by any bytes returns it and stops exactly at those bytes when there are at most `max` elements, and ArrayTooBig otherwise |
| Messages.StateBlob.Stable | go/schema/schema.go:429-445 | bytes after a message never change what is read, nor what is left over |
| Messages.ToolDef.RoundTrip | go/schema/schema.go:466-507 | decoding an encoded ToolDef followed by any bytes returns it and stops exactly at those bytes |
| Messages.ToolDef.Stable | go/schema/schema.go:488-507 | bytes after a message never change what is read, nor what is left over |
| Messages.ToolCall.RoundTrip | go/schema/schema.go:521-547 | decoding an encoded ToolCall followed by any bytes returns it and stops exactly at those bytes |
| Messages.ToolCall.Stable | go/schema/schema.go:534-547 | bytes after a message never change what is read, nor what is left over |
| Messages.ToolResult.RoundTrip | go/schema/schema.go:573-621 | decoding an encoded ToolResult followed by any bytes returns it and stops exactly at those bytes |
| Messages.ToolResult.Stable | go/schema/schema.go:600-621 | bytes after a message never change what is read, nor what is left over |
| Messages.StateChunk.RoundTrip | go/schema/schema.go:680-706 | decoding an encoded StateChunk followed by any bytes returns it and stops exactly at those bytes |
| Messages.StateChunk.Stable | go/schema/schema.go:693-706 | bytes after a message never change what is read, nor what is left over |
| Messages.StateBlob.PaddedRoundTrip | go/schema/schema.go:429-445 | frames that carry extra trailing bytes decode to the same sessions as frames without them |
| Messages.EveryStructIsLawful | go/schema/schema.go:32-706 | all eleven structs satisfy the two laws (encoded reads back before any suffix; reading is stable) that truncation, prefix-freeness and injectivity follow from |
| Messages.TruncationDetected | go/schema/schema.go:73-91 | for every lawful struct, decoding any strict prefix of a valid encoding is an error |
| Messages.PrefixFree | go/schema/schema.go:51-71 | no encoding of a struct is a strict prefix of another |
| Messages.EncodedInjective | go/schema/schema.go:51-71 | different messages have different bytes |
| Wire.FrameContained | go/schema/schema.go:727-740 | for any bytes and any inner reader, once the length check passes a frame is read from its declared length alone and reading resumes just after it |
| Wire.ArrayRoundTrip | go/schema/schema.go:356-372 | an array of framed or plain items reads back item by item before any suffix, if its length is allowed |
| Wire.ArrayStable | go/schema/schema.go:429-445 | bytes after an array do not change how it reads |
| Wire.EachRoundTrip | go/schema/schema.go:429-445 | induction over the elements behind the array round trip |
| Vectors.UintLayout | go/schema/schema.go:38-92 | a length of up to four bytes: as it is up to 0xfc, else a marker and its bytes from the lowest |
| Vectors.ChatVectors | go/schema/schema.go:51-71 | the bytes of sample chat messages: the order of the fields, the flag word, an absent field |
| Vectors.SessionVectors | go/schema/schema.go:239-277 | the bytes of sample session messages, with each flag of the scope |
| Vectors.ListVector | go/schema/schema.go:344-354 | the bytes of a session list |
| Vectors.StateVector | go/schema/schema.go:417-427 | the bytes of a state blob, its frames included |
| Vectors.ToolVectors | go/schema/schema.go:466-532 | the bytes of sample tool messages |
| Vectors.ToolResultVectors | go/schema/schema.go:573-598 | the bytes of sample tool results, with each flag |
| Vectors.EnumVectors | spec/hrpc/messages.js:71-88 | both codecs number the enum constants alike, and give no other string a number |
| GoSchema.EncodeChunkType | go/schema/schema.go:120-126 | writes the index of a known constant; any other string is UnknownEnum and writes nothing |
| GoSchema.DecodeChunkType | go/schema/schema.go:128-147 | reads an index back to its constant and an unknown one to the empty string |
| GoSchema.EncodeStateField | go/schema/schema.go:643-649 | as for the chunk type |
| GoSchema.DecodeStateField | go/schema/schema.go:651-666 | as for the chunk type |
| GoSchema.BareclawChatRequest.Preencode | go/schema/schema.go:38-49 | reserves exactly as many bytes as the encoding of the current fields has |
| GoSchema.BareclawChatRequest.Encode | go/schema/schema.go:51-71 | writes exactly the encoded bytes, or fails with OutOfBounds exactly when they do not fit |
| GoSchema.BareclawChatRequest.Decode | go/schema/schema.go:73-92 | agrees with the reading function on every input, errors included; a field the flag word leaves out keeps what the receiver held |
| GoSchema.BareclawChatChunk.Preencode | go/schema/schema.go:154-164 | reserves exactly as many bytes as the encoding of the current fields has |
| GoSchema.BareclawChatChunk.Encode | go/schema/schema.go:166-183 | with room for them, writes exactly the encoded bytes if the enum field is known, else UnknownEnum |
| GoSchema.BareclawChatChunk.Decode | go/schema/schema.go:185-201 | agrees with the reading function on every input, errors included; a field the flag word leaves out keeps what the receiver held |
| GoSchema.BareclawSessionScope.Preencode | go/schema/schema.go:210-237 | reserves exactly as many bytes as the encoding of the current fields has |
| GoSchema.BareclawSessionScope.Encode | go/schema/schema.go:239-277 | writes exactly the encoded bytes, or fails with OutOfBounds exactly when they do not fit |
| GoSchema.BareclawSessionScope.Decode | go/schema/schema.go:279-307 | agrees with the reading function on every input, errors included; a field the flag word leaves out keeps what the receiver held |
| GoSchema.BareclawSessionKey.Preencode | go/schema/schema.go:313-315 | reserves exactly as many bytes as the encoding of the current fields has |
| GoSchema.BareclawSessionKey.Encode | go/schema/schema.go:317-322 | writes exactly the encoded bytes, or fails with OutOfBounds exactly when they do not fit |
| GoSchema.BareclawSessionKey.Decode | go/schema/schema.go:324-331 | agrees with the reading function on every input, errors included |
| GoSchema.BareclawSessionList.Preencode | go/schema/schema.go:337-342 | reserves exactly as many bytes as the encoding of the current fields has |
| GoSchema.BareclawSessionList.Encode | go/schema/schema.go:344-354 | writes exactly the encoded bytes, or fails with OutOfBounds exactly when they do not fit |
| GoSchema.BareclawSessionList.Decode | go/schema/schema.go:356-372 | agrees with the reading function on every input, errors included |
| GoSchema.BareclawSessionBlob.Preencode | go/schema/schema.go:379-382 | reserves exactly as many bytes as the encoding of the current fields has |
| GoSchema.BareclawSessionBlob.Encode | go/schema/schema.go:384-392 | writes exactly the encoded bytes, or fails with OutOfBounds exactly when they do not fit |
| GoSchema.BareclawSessionBlob.Decode | go/schema/schema.go:394-404 | agrees with the reading function on every input, errors included |
| GoSchema.BareclawStateBlob.Preencode | go/schema/schema.go:410-415 | reserves exactly as many bytes as the encoding of the current fields has |
| GoSchema.BareclawStateBlob.Encode | go/schema/schema.go:417-427 | writes exactly the encoded bytes, or fails with OutOfBounds exactly when they do not fit |
| GoSchema.BareclawStateBlob.Decode | go/schema/schema.go:429-445 | agrees with the reading function on every input, errors included; End is restored whether or not it succeeds |
| GoSchema.BareclawToolDef.Preencode | go/schema/schema.go:453-464 | reserves exactly as many bytes as the encoding of the current fields has |
| GoSchema.BareclawToolDef.Encode | go/schema/schema.go:466-486 | writes exactly the encoded bytes, or fails with OutOfBounds exactly when they do not fit |
| GoSchema.BareclawToolDef.Decode | go/schema/schema.go:488-507 | agrees with the reading function on every input, errors included; a field the flag word leaves out keeps what the receiver held |
| GoSchema.BareclawToolCall.Preencode | go/schema/schema.go:515-519 | reserves exactly as many bytes as the encoding of the current fields has |
| GoSchema.BareclawToolCall.Encode | go/schema/schema.go:521-532 | writes exactly the encoded bytes, or fails with OutOfBounds exactly when they do not fit |
| GoSchema.BareclawToolCall.Decode | go/schema/schema.go:534-547 | agrees with the reading function on every input, errors included |
| GoSchema.BareclawToolResult.Preencode | go/schema/schema.go:555-571 | reserves exactly as many bytes as the encoding of the current fields has |
| GoSchema.BareclawToolResult.Encode | go/schema/schema.go:573-598 | writes exactly the encoded bytes, or fails with OutOfBounds exactly when they do not fit |
| GoSchema.BareclawToolResult.Decode | go/schema/schema.go:600-621 | agrees with the reading function on every input, errors included; a field the flag word leaves out keeps what the receiver held |
| GoSchema.BareclawStateChunk.Preencode | go/schema/schema.go:674-678 | reserves exactly as many bytes as the encoding of the current fields has |
| GoSchema.BareclawStateChunk.Encode | go/schema/schema.go:680-691 | with room for them, writes exactly the encoded bytes if the enum field is known, else UnknownEnum |
| GoSchema.BareclawStateChunk.Decode | go/schema/schema.go:693-706 | agrees with the reading function on every input, errors included |
| GoSchema.DecodeIfSet | go/schema/schema.go:85-90 | a field its flag bit announces is read and stored; an absent one is left as it was |
| GoSchema.FrameSize | go/schema/schema.go:708-712 | the size a frame declares is the size of what its struct writes |
| GoSchema.PreencodeFrame | go/schema/schema.go:714-718 | reserves the length prefix and the content |
| GoSchema.EncodeFrame | go/schema/schema.go:720-725 | writes the length prefix and the content, or OutOfBounds exactly when they do not fit |
| GoSchema.DecodeFrame | go/schema/schema.go:727-740 | the inner decoder never passes the declared length; once the length check passes the cursor is left just after the frame; End is always restored; any input, valid or not |
| JsMessages.EncodeChunkType | spec/hrpc/messages.js:71-88 | writes a known constant's index; anything else, null included, throws |
| JsMessages.DecodeChunkType | spec/hrpc/messages.js:89-102 | an unknown index reads as null |
| JsMessages.EncodeStateField | spec/hrpc/messages.js:337-348 | as for the chunk type |
| JsMessages.DecodeStateField | spec/hrpc/messages.js:349-358 | as for the chunk type |
| JsMessages.PreencodeChatRequest | spec/hrpc/messages.js:30-36 | reserves exactly the bytes encode writes: the one byte hard-coded for each flag word and enum index is always enough |
| JsMessages.EncodeChatRequest | spec/hrpc/messages.js:37-45 | writes exactly the encoding of the message with falsy optional fields absent |
| JsMessages.DecodeChatRequest | spec/hrpc/messages.js:46-56 | agrees with the reading function on every input, errors included; absent optional strings and zero-length buffers read as null |
| JsMessages.PreencodeChatChunk | spec/hrpc/messages.js:106-111 | reserves exactly the bytes encode writes: the one byte hard-coded for each flag word and enum index is always enough |
| JsMessages.EncodeChatChunk | spec/hrpc/messages.js:112-119 | writes exactly the encoding of the message with falsy optional fields absent |
| JsMessages.DecodeChatChunk | spec/hrpc/messages.js:120-129 | agrees with the reading function on every input, errors included; absent optional strings and zero-length buffers read as null |
| JsMessages.PreencodeSessionScope | spec/hrpc/messages.js:133-140 | reserves exactly the bytes encode writes: the one byte hard-coded for each flag word and enum index is always enough |
| JsMessages.EncodeSessionScope | spec/hrpc/messages.js:141-150 | writes exactly the encoding of the message with falsy optional fields absent |
| JsMessages.DecodeSessionScope | spec/hrpc/messages.js:151-161 | agrees with the reading function on every input, errors included; absent optional strings and zero-length buffers read as null |
| JsMessages.PreencodeSessionKey | spec/hrpc/messages.js:165-167 | reserves exactly the bytes encode writes |
| JsMessages.EncodeSessionKey | spec/hrpc/messages.js:168-170 | writes exactly the encoding of the message, a null buffer as an empty one |
| JsMessages.DecodeSessionKey | spec/hrpc/messages.js:171-178 | agrees with the reading function on every input, errors included; absent optional strings and zero-length buffers read as null |
| JsMessages.PreencodeSessionList | spec/hrpc/messages.js:185-187 | reserves exactly the bytes encode writes |
| JsMessages.EncodeSessionList | spec/hrpc/messages.js:188-190 | writes exactly the encoding of the message, a null buffer as an empty one |
| JsMessages.DecodeSessionList | spec/hrpc/messages.js:191-198 | agrees with the reading function on every input, errors included; absent optional strings and zero-length buffers read as null |
| JsMessages.PreencodeSessionBlob | spec/hrpc/messages.js:202-205 | reserves exactly the bytes encode writes |
| JsMessages.EncodeSessionBlob | spec/hrpc/messages.js:206-209 | writes exactly the encoding of the message, a null buffer as an empty one |
| JsMessages.DecodeSessionBlob | spec/hrpc/messages.js:210-219 | agrees with the reading function on every input, errors included; absent optional strings and zero-length buffers read as null |
| JsMessages.PreencodeStateBlob | spec/hrpc/messages.js:226-228 | reserves exactly the bytes encode writes |
| JsMessages.EncodeStateBlob | spec/hrpc/messages.js:229-231 | writes exactly the encoding of the message, a null buffer as an empty one |
| JsMessages.DecodeStateBlob | spec/hrpc/messages.js:232-239 | agrees with the reading function on every input, errors included; absent optional strings and zero-length buffers read as null |
| JsMessages.PreencodeToolDef | spec/hrpc/messages.js:243-249 | reserves exactly the bytes encode writes: the one byte hard-coded for each flag word and enum index is always enough |
| JsMessages.EncodeToolDef | spec/hrpc/messages.js:250-258 | writes exactly the encoding of the message with falsy optional fields absent |
| JsMessages.DecodeToolDef | spec/hrpc/messages.js:259-270 | agrees with the reading function on every input, errors included; absent optional strings and zero-length buffers read as null |
| JsMessages.PreencodeToolCall | spec/hrpc/messages.js:274-278 | reserves exactly the bytes encode writes |
| JsMessages.EncodeToolCall | spec/hrpc/messages.js:279-283 | writes exactly the encoding of the message, a null buffer as an empty one |
| JsMessages.DecodeToolCall | spec/hrpc/messages.js:284-294 | agrees with the reading function on every input, errors included; absent optional strings and zero-length buffers read as null |
| JsMessages.PreencodeToolResult | spec/hrpc/messages.js:299-305 | reserves exactly the bytes encode writes: the one byte hard-coded for each flag word and enum index is always enough |
| JsMessages.EncodeToolResult | spec/hrpc/messages.js:306-314 | writes exactly the encoding of the message with falsy optional fields absent |
| JsMessages.DecodeToolResult | spec/hrpc/messages.js:315-325 | agrees with the reading function on every input, errors included; absent optional strings and zero-length buffers read as null |
| JsMessages.PreencodeStateChunk | spec/hrpc/messages.js:362-366 | reserves exactly the bytes encode writes: the one byte hard-coded for each flag word and enum index is always enough |
| JsMessages.EncodeStateChunk | spec/hrpc/messages.js:367-371 | writes exactly the encoding of the message with falsy optional fields absent |
| JsMessages.DecodeStateChunk | spec/hrpc/messages.js:372-380 | agrees with the reading function on every input, errors included; absent optional strings and zero-length buffers read as null |
| CrossCodec.ChatRequestSameBytes | spec/hrpc/messages.js:30-45 | the Go and JavaScript encodings of two messages are equal if and only if the messages correspond field by field (empty string or buffer with null) |
| CrossCodec.ChatChunkSameBytes | spec/hrpc/messages.js:106-119 | the Go and JavaScript encodings of two messages are equal if and only if the messages correspond field by field (empty string or buffer with null) |
| CrossCodec.SessionScopeSameBytes | spec/hrpc/messages.js:133-150 | the Go and JavaScript encodings of two messages are equal if and only if the messages correspond field by field (empty string or buffer with null) |
| CrossCodec.SessionKeySameBytes | spec/hrpc/messages.js:165-170 | the Go and JavaScript encodings of two messages are equal if and only if the messages correspond field by field (empty string or buffer with null) |
| CrossCodec.SessionListSameBytes | spec/hrpc/messages.js:185-190 | the Go and JavaScript encodings of two messages are equal if and only if the messages correspond field by field (empty string or buffer with null) |
| CrossCodec.SessionBlobSameBytes | spec/hrpc/messages.js:202-209 | the Go and JavaScript encodings of two messages are equal if and only if the messages correspond field by field (empty string or buffer with null) |
| CrossCodec.StateBlobSameBytes | spec/hrpc/messages.js:226-231 | the Go and JavaScript encodings of two messages are equal if and only if the messages correspond field by field (empty string or buffer with null) |
| CrossCodec.ToolDefSameBytes | spec/hrpc/messages.js:243-258 | the Go and JavaScript encodings of two messages are equal if and only if the messages correspond field by field (empty string or buffer with null) |
| CrossCodec.ToolCallSameBytes | spec/hrpc/messages.js:274-283 | the Go and JavaScript encodings of two messages are equal if and only if the messages correspond field by field (empty string or buffer with null) |
| CrossCodec.ToolResultSameBytes | spec/hrpc/messages.js:299-314 | the Go and JavaScript encodings of two messages are equal if and only if the messages correspond field by field (empty string or buffer with null) |
| CrossCodec.StateChunkSameBytes | spec/hrpc/messages.js:362-371 | the Go and JavaScript encodings of two messages are equal if and only if the messages correspond field by field (empty string or buffer with null) |
| CrossCodec.JsToGoChatRequest | spec/hrpc/messages.js:30-45 | what the JavaScript encoder sends the Go decoder reads as the matching ChatRequest |
| CrossCodec.GoToJsChatRequest | go/schema/schema.go:38-71 | what the Go encoder sends the JavaScript decoder reads as the matching ChatRequest |
| CrossCodec.JsToGoChatChunk | spec/hrpc/messages.js:106-119 | what the JavaScript encoder sends the Go decoder reads as the matching ChatChunk; refused exactly when the type is not a known constant |
| CrossCodec.GoToJsChatChunk | go/schema/schema.go:154-183 | what the Go encoder sends the JavaScript decoder reads as the matching ChatChunk; refused exactly when the type is not a known constant |
| CrossCodec.JsToGoSessionScope | spec/hrpc/messages.js:133-150 | what the JavaScript encoder sends the Go decoder reads as the matching SessionScope |
| CrossCodec.GoToJsSessionScope | go/schema/schema.go:210-277 | what the Go encoder sends the JavaScript decoder reads as the matching SessionScope |
| CrossCodec.JsToGoSessionKey | spec/hrpc/messages.js:165-170 | what the JavaScript encoder sends the Go decoder reads as the matching SessionKey |
| CrossCodec.GoToJsSessionKey | go/schema/schema.go:313-322 | what the Go encoder sends the JavaScript decoder reads as the matching SessionKey |
| CrossCodec.JsToGoSessionList | spec/hrpc/messages.js:185-190 | what the JavaScript encoder sends the Go decoder reads as the matching SessionList; refused exactly when there are more elements than the reader allows |
| CrossCodec.GoToJsSessionList | go/schema/schema.go:337-354 | what the Go encoder sends the JavaScript decoder reads as the matching SessionList; refused exactly when there are more elements than the reader allows |
| CrossCodec.JsToGoSessionBlob | spec/hrpc/messages.js:202-209 | what the JavaScript encoder sends the Go decoder reads as the matching SessionBlob |
| CrossCodec.GoToJsSessionBlob | go/schema/schema.go:379-392 | what the Go encoder sends the JavaScript decoder reads as the matching SessionBlob |
| CrossCodec.JsToGoStateBlob | spec/hrpc/messages.js:226-231 | what the JavaScript encoder sends the Go decoder reads as the matching StateBlob; refused exactly when there are more elements than the reader allows |
| CrossCodec.GoToJsStateBlob | go/schema/schema.go:410-427 | what the Go encoder sends the JavaScript decoder reads as the matching StateBlob; refused exactly when there are more elements than the reader allows |
| CrossCodec.JsToGoToolDef | spec/hrpc/messages.js:243-258 | what the JavaScript encoder sends the Go decoder reads as the matching ToolDef |
| CrossCodec.GoToJsToolDef | go/schema/schema.go:453-486 | what the Go encoder sends the JavaScript decoder reads as the matching ToolDef |
| CrossCodec.JsToGoToolCall | spec/hrpc/messages.js:274-283 | what the JavaScript encoder sends the Go decoder reads as the matching ToolCall |
| CrossCodec.GoToJsToolCall | go/schema/schema.go:515-532 | what the Go encoder sends the JavaScript decoder reads as the matching ToolCall |
| CrossCodec.JsToGoToolResult | spec/hrpc/messages.js:299-314 | what the JavaScript encoder sends the Go decoder reads as the matching ToolResult |
| CrossCodec.GoToJsToolResult | go/schema/schema.go:555-598 | what the Go encoder sends the JavaScript decoder reads as the matching ToolResult |
| CrossCodec.JsToGoStateChunk | spec/hrpc/messages.js:362-371 | what the JavaScript encoder sends the Go decoder reads as the matching StateChunk; refused exactly when the type is not a known constant |
| CrossCodec.GoToJsStateChunk | go/schema/schema.go:674-691 | what the Go encoder sends the JavaScript decoder reads as the matching StateChunk; refused exactly when the type is not a known constant |
| Hrpc.Marshal | go/hrpc/hrpc.go:537-539 | for every struct, exactly its encoding, in a buffer the pre-computed size fills exactly; fails only on an unknown enum value |
| Hrpc.OnlyEmptyIsEmpty | go/hrpc/hrpc.go:542-547 | over all twelve types only BareclawEmpty encodes to no bytes, and every other type's decoder refuses an empty payload |
| Hrpc.Decode | go/hrpc/hrpc.go:542-547 | an empty payload leaves any receiver as it was; any other is refused exactly when the schema refuses it |
| Hrpc.DecodeChatRequest | go/hrpc/hrpc.go:542-547 | an empty payload leaves the receiver as it was; any other is read into it, or refused, as the reading function says |
| Hrpc.TransferChatRequest | go/hrpc/hrpc.go:537-547 | encode, then decode into a zero receiver, gives the same ChatRequest |
| Hrpc.DecodeChatChunk | go/hrpc/hrpc.go:542-547 | an empty payload leaves the receiver as it was; any other is read into it, or refused, as the reading function says |
| Hrpc.TransferChatChunk | go/hrpc/hrpc.go:537-547 | encode, then decode into a zero receiver, gives the same ChatChunk; refused exactly when the type is not a known constant |
| Hrpc.DecodeSessionScope | go/hrpc/hrpc.go:542-547 | an empty payload leaves the receiver as it was; any other is read into it, or refused, as the reading function says |
| Hrpc.TransferSessionScope | go/hrpc/hrpc.go:537-547 | encode, then decode into a zero receiver, gives the same SessionScope |
| Hrpc.DecodeSessionKey | go/hrpc/hrpc.go:542-547 | an empty payload leaves the receiver as it was; any other is read into it, or refused, as the reading function says |
| Hrpc.TransferSessionKey | go/hrpc/hrpc.go:537-547 | encode, then decode into a zero receiver, gives the same SessionKey |
| Hrpc.DecodeSessionList | go/hrpc/hrpc.go:542-547 | an empty payload leaves the receiver as it was; any other is read into it, or refused, as the reading function says |
| Hrpc.TransferSessionList | go/hrpc/hrpc.go:537-547 | encode, then decode into a zero receiver, gives the same SessionList; refused exactly when there are more elements than the reader allows |
| Hrpc.DecodeSessionBlob | go/hrpc/hrpc.go:542-547 | an empty payload leaves the receiver as it was; any other is read into it, or refused, as the reading function says |
| Hrpc.TransferSessionBlob | go/hrpc/hrpc.go:537-547 | encode, then decode into a zero receiver, gives the same SessionBlob |
| Hrpc.DecodeStateBlob | go/hrpc/hrpc.go:542-547 | an empty payload leaves the receiver as it was; any other is read into it, or refused, as the reading function says |
| Hrpc.TransferStateBlob | go/hrpc/hrpc.go:537-547 | encode, then decode into a zero receiver, gives the same StateBlob; refused exactly when there are more elements than the reader allows |
| Hrpc.DecodeToolDef | go/hrpc/hrpc.go:542-547 | an empty payload leaves the receiver as it was; any other is read into it, or refused, as the reading function says |
| Hrpc.TransferToolDef | go/hrpc/hrpc.go:537-547 | encode, then decode into a zero receiver, gives the same ToolDef |
| Hrpc.DecodeToolCall | go/hrpc/hrpc.go:542-547 | an empty payload leaves the receiver as it was; any other is read into it, or refused, as the reading function says |
| Hrpc.TransferToolCall | go/hrpc/hrpc.go:537-547 | encode, then decode into a zero receiver, gives the same ToolCall |
| Hrpc.DecodeToolResult | go/hrpc/hrpc.go:542-547 | an empty payload leaves the receiver as it was; any other is read into it, or refused, as the reading function says |
| Hrpc.TransferToolResult | go/hrpc/hrpc.go:537-547 | encode, then decode into a zero receiver, gives the same ToolResult |
| Hrpc.DecodeStateChunk | go/hrpc/hrpc.go:542-547 | an empty payload leaves the receiver as it was; any other is read into it, or refused, as the reading function says |
| Hrpc.TransferStateChunk | go/hrpc/hrpc.go:537-547 | encode, then decode into a zero receiver, gives the same StateChunk; refused exactly when the type is not a known constant |
| Framing.Reader.OnData | examples/dht-shared.js:107-118 | after any bytes the delivered lines are the non-empty complete lines of what had been kept plus the bytes decoded by themselves, and what is kept is the newline-free remainder |
| Framing.ReadAll | examples/swarm-code-review.js:349-360 | over any chunks, the lines delivered are those of the texts the chunks decode to, one by one |
| Framing.LinesWhole | examples/dht-shared.js:110-116 | the lines of a text, each with its newline, and the remainder are the text |
| Framing.LinesRead | examples/dht-shared.js:110-116 | what is delivered is those of them that are not empty, none lost and in order |
| Framing.LinesAppend | examples/dht-shared.js:110-116 | reading may stop and resume at any character: the lines of s + t are those of s and then those of the remainder of s followed by t |
| Framing.FramesRoundTrip | examples/dht-shared.js:120-122 | frames written one after the other read back one for one with nothing left over |
| Framing.Deliver | examples/swarm-collab.js:57-69 | messages framed by writeJSON, as UTF-8 cut into chunks at any bytes, are delivered exactly and in order if and only if every chunk is well-formed by itself |
| Framing.NoReplacement | examples/dht-shared.js:107-118 | a replacement character made by a bad cut always reaches a delivered line |
| Framing.EncodeDecodes | examples/dht-shared.js:120-122 | text written as UTF-8 decodes to itself |
| Utf8.SplitExactlyAtBoundaries | examples/dht-shared.js:110 | chunks are converted to text one by one: cutting well-formed bytes at k is harmless if and only if k is not inside a character |
| Utf8.ChunksDecodeExactly | examples/dht-shared.js:107-110 | well-formed text converted chunk by chunk is that text if and only if every chunk is well-formed by itself |
| Utf8.AsciiWellFormed | examples/dht-shared.js:107-110 | chunks of ASCII always are |
| Utf8.CharacterIsScalar | examples/dht-shared.js:107-110 | every byte sequence taken for a character is the encoding of a Unicode scalar value |
| Utf8.ScalarIsCharacter | examples/dht-shared.js:107-110 | and the encoding of every scalar value is taken for that character |
| Utf8.StringIsText | examples/dht-shared.js:120-122 | a string's bytes decode to its characters one by one |
| Utf8.StringBytesInjective | examples/dht-shared.js:120-122 | different strings have different bytes |
| Blackboard.StepKeepsInv | examples/dht-shared.js:30-41 | every accept, open, hub read and agent read keeps the protocol invariant, for any number of agents |
| Blackboard.FullBoard | examples/dht-shared.js:79 | the board never exceeds N items and has N exactly when every agent's post is on it |
| Blackboard.Safety | examples/dht-shared.js:69-85 | in every reachable state each board an agent holds or has in flight is a prefix of the hub's, and a resolved board is the hub's full board with each post exactly once |
| Blackboard.StepDecreases | examples/dht-shared.js:30-41 | every step lowers the termination measure |
| Blackboard.RunsAreShort | examples/dht-shared.js:30-83 | every run has at most 3N + N*N steps |
| Blackboard.QuietMeansResolved | examples/dht-shared.js:46-48 | when no step is left every agent has resolved, all with the same full board |
| Blackboard.Finishes | examples/dht-shared.js:46-48 | from every state of a run some continuation reaches that end |
| Blackboard.Hub.OnConnection | examples/dht-shared.js:30-33 | the connection handler is the accept step on the hub's objects |
| Blackboard.Hub.OnMessage | examples/dht-shared.js:34-40 | the message handler appends a post and writes the whole board to every connection, and ignores anything else |
| Blackboard.Agent.OnMessage | examples/dht-shared.js:76-81 | the agent keeps the latest board and resolves once |
| CodeReview.SpecAt | examples/swarm-code-review.js:49-55 | spec i belongs to category c exactly when c*P <= i < c*P + P |
| CodeReview.StepKeepsInv | examples/swarm-code-review.js:82-99 | every step of hub, reviewers, correlator and main keeps the invariant, for any categories and reviewers per category |
| CodeReview.Safety | examples/swarm-code-review.js:138-147 | each reviewer files at most one review, under its own category; allIn holds exactly when every spec has its review; the correlator was asked only about the complete board |
| CodeReview.Provenance | examples/swarm-code-review.js:138-172 | every review on the board has the text its own reviewer's agent answered, the correlation is the correlator's answer, every task in flight shows the diff, and every board in flight is one the hub has had |
| CodeReview.CorrelatorStartsOnce | examples/swarm-code-review.js:164-172 | over any run the correlator's agent is asked at most once |
| CodeReview.StepDecreases | examples/swarm-code-review.js:77-99 | every step lowers the termination measure |
| CodeReview.RunsAreShort | examples/swarm-code-review.js:103-108 | with S reviewers every run has at most S*S + 5S + 7 steps |
| CodeReview.QuietMeansReported | examples/swarm-code-review.js:103-108 | when no step is left the report has been written if and only if there was a reviewer at all |
| CodeReview.Finishes | examples/swarm-code-review.js:103-108 | from every state of a run some continuation reaches an end |
| CodeReview.CategorySize | examples/swarm-code-review.js:245-249 | a complete panel has exactly PER_CATEGORY reviews in every category |
| CodeReview.ActionItems | examples/swarm-code-review.js:235-242 | at strictly increasing places, exactly those of the reviews with a finding, one item each: with that review's category, its author, and what cleaning left of its text |
| CodeReview.ItemsAttributed | examples/swarm-code-review.js:235-242 | the same of the function the report theorems speak of |
| CodeReview.RowCounts | examples/swarm-code-review.js:245-249 | a row's total and clean count are how many reviews of the category there are, and how many of them have no finding |
| CodeReview.TableMatchesItems | examples/swarm-code-review.js:213-257 | in each category, for any reviews, the clean count plus the number of action items is the number of reviews |
| CodeReview.StatusMeaning | examples/swarm-code-review.js:251-253 | what clean, issues and mixed mean in terms of the action list; an empty category reports issues although it has none, and clean means no item exactly when the category is not empty |
| CodeReview.ReportIsComplete | examples/swarm-code-review.js:110-119 | at report time every category has PER_CATEGORY reviews, clean count plus items equals that, and the status is clean exactly when there is no item |
| CodeReview.Hub.OnConnection | examples/swarm-code-review.js:82-87 | a new connection is sent the task and then the current board |
| CodeReview.Hub.OnMessage | examples/swarm-code-review.js:88-98 | a review is appended, broadcast and may complete the panel; a correlation is kept |
| CodeReview.Reviewer.OnMessage | examples/swarm-code-review.js:139-147 | asks the agent on the first task only |
| CodeReview.Correlator.OnMessage | examples/swarm-code-review.js:164-172 | asks the agent on the first full board only |
| Collab.StepKeepsInv | examples/swarm-collab.js:71-91 | every step moves the one token and is counted |
| Collab.Safety | examples/swarm-collab.js:71-91 | at most one message or turn at a time; rounds 1, 2, 3, … strictly alternate; no agent sends more than ROUNDS; finished never passes 2 |
| Collab.RunLength | examples/swarm-collab.js:106-116 | no run is longer than 4*ROUNDS + 3 steps, and finished is 2 exactly at that length |
| Collab.QuietMeansFinished | examples/swarm-collab.js:31-40 | when no step is left each agent has sent exactly ROUNDS messages, and both are done with finished equal to 2 if and only if ROUNDS >= 1 |
| Collab.Finishes | examples/swarm-collab.js:71-116 | from every state of a run some continuation reaches that end |
| Collab.SentByEach | examples/swarm-collab.js:88 | in alternating rounds the agents have sent equally many, or the first one more |
| Collab.Peer.OnMessage | examples/swarm-collab.js:71-75 | a message to a finished agent is dropped, any other starts the next turn |
| Collab.Peer.Turn | examples/swarm-collab.js:77-86 | past the last round the agent finishes instead of asking |
| Collab.Peer.Resume | examples/swarm-collab.js:86-91 | the answer is sent under the turn's round, and the last round also finishes the sender |
| Collab.Peer.Finish | examples/swarm-collab.js:107-109 | an agent finishes once |
| SessionStore.MarshalSession | go/pkg/server/state.go:15-25 | the dump of the messages encoded one by one, with the summary; nothing if one of them does not encode |
| SessionStore.MarshalledExactly | go/pkg/server/state.go:15-25 | the same of the function the run theorems speak of |
| SessionStore.UnmarshalSession | go/pkg/server/state.go:27-41 | succeeds if and only if the data is a dump and every message in it decodes; then history i is message i decoded, and the summary is the dump's |
| SessionStore.UnmarshalledExactly | go/pkg/server/state.go:27-41 | the same of the function the run theorems speak of, for every session both ways |
| SessionStore.SessionRoundTrip | go/pkg/server/state.go:15-41 | a session that marshals unmarshals to itself, history and summary |
| SessionStore.Server.SessionExport | go/pkg/server/server.go:100-110 | the session marshalled, an absent key as an empty session |
| SessionStore.Server.SessionImport | go/pkg/server/server.go:112-118 | one restore, in terms of the codec: data that is not a readable dump is an error and changes nothing; any other becomes the key's session |
| SessionStore.Server.Restore | go/pkg/server/server.go:169-180 | history and summary are the dump's, no other session changes, one Save is made and its error is the result |
| SessionStore.RestoredExactly | go/pkg/server/server.go:169-180 | the same of the function the run theorems speak of |
| SessionStore.Server.StateExport | go/pkg/server/server.go:120-135 | every session once, or an error naming a session that does not marshal |
| SessionStore.Server.StateImport | go/pkg/server/server.go:137-148 | the blobs in order up to the first error |
| SessionStore.ImportEffect | go/pkg/server/server.go:137-148 | the first n blobs are applied, the last for a key winning and other keys untouched; n ends at the first blob that is not a readable dump or just after the first Save that fails, and all of them apply exactly when neither happens |
| SessionStore.ExportImport | go/pkg/server/server.go:120-148 | importing an export restores every exported session and leaves every other key alone |
| SessionStore.SessionExportImport | go/pkg/server/server.go:100-118 | one session exported and imported is that session again |
| Bee.EntriesDistinct | index.js:92 | the scope and data entries of all sessions are different keys |
| Bee.RangeIsPrefix | index.js:163 | the range holds exactly the entries under the prefix whose rest sorts below the two UTF-8 bytes of '\xff' |
| Bee.ListStoreKeys | index.js:161-170 | the listing has no duplicates and holds exactly the keys some entry of the bee reports |
| Bee.ListedIsCut | index.js:163-168 | over any stored sessions the listing is the set of first path segments of the keys below the bound |
| Bee.ListsExactly | index.js:161-170 | the listing is exactly the stored sessions if and only if every key is non-empty, slash-free and below the bound |
| Bee.SlashIsCut | index.js:165-167 | a stored key with a slash is never listed; its first segment is instead |
| Bee.ListingStable | index.js:113-115 | storing data for a listed key does not change the listing |
| Persistence.LocalKeepsInv | index.js:64-116 | every await step of session, chat, importSession and persisting keeps the bee in step with Go on every key |
| Persistence.BeeAgreesWithGo | index.js:144-150 | after any interleaved run, for an idle key whose last operation did not fail, the stored data unmarshals to Go's history and summary |
| Persistence.RestartKeepsInv | index.js:36-49 | so does a close followed by a reopen, unless a turn is running |
| Persistence.FailedSave | go/pkg/server/server.go:169-180 | an import whose Save fails leaves Go with the new session and the bee as it was: in step exactly when the bee has no data for the key or data of that very session |
| Persistence.FailedSaveLasts | go/pkg/server/server.go:169-180 | after any run that left the key in step and with data, that is exactly when Go already held the session imported, and so it stays until the next operation on the key or a restart |
| Persistence.FailedSaveDiverges | index.js:109-116 | a run of two imports after which bee and Go hold different sessions |
| Persistence.FailedExport | index.js:144-150 | after a session that does not marshal, until the next operation on the key or a restart, the key is in step exactly when the stored data is that session |
| Persistence.UnlistedAfterRestart | index.js:36-49 | a key the listing does not report is in step after a restart exactly when the bee has no data for it or data of the session the new Go process starts with |
| Persistence.UnlistedDiverges | index.js:161-171 | a run in which a chat under a key with a leading slash is stored and lost by a restart |
| Persistence.NothingDirty | index.js:109-159 | when sessions marshal, saves succeed and stored keys are listable, no key is ever out of step |
| Persistence.SessionsAreListed | index.js:98-101 | after any run sessions() is the first segments of the stored keys below the bound, and exactly the stored keys if and only if all of them are listable |
| Persistence.FlushKeepsListing | index.js:39-41 | closing stores data without changing what is listed |
| Persistence.RestartKeeps | index.js:36-49 | after close and reopen, from any store the new Go process starts with, Go holds for every listed key what it held at close and nothing else changes |
| Bareclaw.Client.Session | index.js:86-96 | the scope given is stored under the key and nothing else changes, as the two steps of the run model; a listable session is listed before it has history |
| Bareclaw.Client.PersistSession | index.js:144-150 | with an agent it passes if and only if Go's session marshals; then the data entry reads as that session, and otherwise nothing changes; a closed client does nothing |
| Bareclaw.Client.Settle | index.js:144-150 | a persist is the Exported and Written steps, or the Exported step that fails; passing, it leaves the key in step |
| Bareclaw.Client.OnStateChanged | index.js:31 | passes if and only if Go's session for the key marshals; then the data entry reads as that session, otherwise the bee is as it was, and Go's store is untouched either way; its steps are exactly the event and the persist |
| Bareclaw.Client.Chat | index.js:64-84 | a chat to the end of its stream: Go ends with the turn's last write and other sessions as they were, and the result and the bee are those of persisting that session |
| Bareclaw.Client.ImportSession | index.js:109-116 | Go restores the data as in Restore, and the bee stores it exactly when Go accepted it; then the two agree |
| Bareclaw.Client.Close | index.js:36-49 | fails if and only if some listed session cannot be exported, and then stays open; otherwise every listed session is stored; either way no entry changes but to what Go holds for a listed key |
| Bareclaw.Client.LoadFromStore | index.js:152-159 | fails exactly when some listed data is no readable dump, a Save fails, or there is data and no default agent; otherwise the data of every listed session is imported; either way no session changes but to what the bee has for a listed key |
| Bareclaw.Restart | index.js:22-49 | close and reopen as code: the Restarted step, after which every listed session is back and the listing is unchanged, or an export or a Save failed |
| Racing.EveryOrderSettles | index.js:144-150 | with persists outstanding, all orders in which they may complete end in step with Go if and only if each of them has exported the session Go holds |
| Racing.SettledStep | index.js:144-150 | a step keeps that if and only if it does not change the session under an outstanding persist |
| Racing.CallersRule | index.js:144-150 | over a whole trace, every completion order is safe at every moment if and only if no call on the key overlaps a change of its session |
| Racing.LastFlushDecides | index.js:144-150 | of one trace: the bee ends in step if and only if the last persist to flush exported the session Go ends with |
| Racing.SettledCallsAgree | index.js:144-150 | in particular when nothing changed after that export |
| Racing.StaleFlushWins | index.js:144-150 | two racing persists can leave the older state in the bee |
| Racing.TurnOutlivesBreak | index.js:80-83 | after an early break the turn can write once more than was persisted |
| ChatStreams.KeyMatches | go/pkg/server/stream.go:45-65 | the registry key of two strings is a chat's only if they are exactly rpc and its id |
| ChatStreams.StepKeepsInv | go/pkg/server/server.go:49-80 | every draw, register, lookup, update, mark, send, unregister and close of any number of interleaved chats keeps the invariant |
| ChatStreams.Streams | go/pkg/server/server.go:59-69 | a stream with a terminal chunk is content* and that chunk unless an update comes after it; its content is the updates sent to it, or the response once if there were none, unless the first update lands or is marked after the turn returned; both hold when nobody is late |
| ChatStreams.AcceptedSendsTerminate | go/pkg/server/server.go:59-69 | a chat whose own sends are accepted ends with its terminal chunk |
| ChatStreams.TardyAgentBreaksBoth | go/pkg/server/stream.go:23-30 | a run in which a late agent makes the stream both repeat itself and outlive done |
| ChatConsumer.Transmit | go/hrpc/hrpc.go:580-587 | a chunk built and marshalled in Go is read in JavaScript with the same type and, content and error alike, the same text as UTF-8, null when empty |
| ChatConsumer.Loop | index.js:71-79 | the generator yields every chunk as it was read, up to and including the first terminal one, where done is set; a done chunk without content |
| ChatConsumer.Consume | index.js:64-79 | of a stream that Go sends the caller gets each chunk's own type and text, up to and including the terminal one and no further |
| ChatStreams.ConsumerSees | index.js:71-79 | whatever the agents do, the consumer sees what was said before the terminal chunk, then that chunk, and nothing more |
| ChatRouting.RegisterExactness | go/pkg/server/server.go:54-56 | a register keeps the registry exact if and only if no chat still registered has the same number |
| ChatRouting.ExactThroughout | go/pkg/server/stream.go:45-55 | over any run the registry holds exactly the chats between register and unregister at every step, if and only if every register took a free number |
| ChatRouting.UnwrappedIsGuarded | go/pkg/server/server.go:54 | until the counter has been drawn 2^64 times every register takes a free number |
| ChatRouting.LookupHits | go/pkg/server/stream.go:57-65 | then a lookup of any two strings finds a chat if and only if it is between register and unregister and both strings are its own |
| ChatRouting.CallIdsDistinct | go/pkg/server/server.go:54 | until the counter wraps no two chats or tool calls share a draw |
| ChatRouting.OwnLookupStrays | go/pkg/server/stream.go:57-65 | looking up its own chat leads an agent to another's stream exactly when a registered chat has its number |
| ChatRouting.StrayNames | go/pkg/server/stream.go:57-65 | a lookup leads astray exactly when it names another registered chat |
| ChatRouting.StrayDecides | go/pkg/server/stream.go:57-65 | over any run agents hold only their own streamers if and only if no lookup strayed |
| ChatRouting.OwnLookupsKeepStraight | go/pkg/server/server.go:79 | with fewer than 2^64 draws, agents that look up their own chats never stray |
| ChatRouting.StreamsCarryWhatLands | go/pkg/server/stream.go:23-30 | over any run a stream carries every update accepted on it, in order, whoever sent it |
| ChatRouting.StreamsAreOwn | go/pkg/server/stream.go:20-65 | when no lookup strays, so with fewer than 2^64 draws and agents that look up their own chats, every stream carries exactly its own agent's accepted updates, in order, under any interleaving |
| ChatRouting.OwnExactly | go/pkg/server/stream.go:20-65 | for arbitrary lookups: streams are their own agents' words at every point of a run if and only if no update was accepted on another chat's stream |
| ChatRouting.ForeignNeedsStray | go/pkg/server/stream.go:57-65 | which takes a lookup that strayed before |
| ChatRouting.StrayCanMix | go/pkg/server/stream.go:23-30 | and after one that did nothing prevents it |
| ChatRouting.DoneStream | go/pkg/server/server.go:54-69 | end to end: when no lookup strays and nobody is late, a done stream is its own agent's updates, or its response once, and done |
| ChatRouting.CollisionIsReachable | go/pkg/server/server.go:54 | a run in which the counter wraps under a running chat: two chats share an id and the older one's own lookup finds the newer |
| ChatRouting.CollisionAftermath | go/pkg/server/stream.go:51-55 | the older chat's unregister then deletes the newer one's entry; after both have gone the registry is exact again |
| ChatServer.StreamDelegate.Register | go/pkg/server/stream.go:45-49 | takes the Register step: the map stays the model's registry, key by key, also when it replaces an entry |
| ChatServer.StreamDelegate.Unregister | go/pkg/server/stream.go:51-55 | takes the Unregister step, whichever chat's entry is under the key |
| ChatServer.StreamDelegate.GetStreamer | go/pkg/server/stream.go:57-65 | finds the streamer object of the chat that the model's lookup finds, or nothing when it finds none |
| ChatServer.Streamer.Update | go/pkg/server/stream.go:23-29 | takes the Update and Mark steps when the stream accepts, and nothing happens otherwise |
| ChatServer.Server.NextCall | go/pkg/server/server.go:54 | the wrapping counter takes the ToolCall step |
| ChatServer.Server.Draw | go/pkg/server/server.go:54-55 | takes the Draw step |
| ChatServer.Server.Enter | go/pkg/server/server.go:54-56 | draw and register: the newest chat is found under its own id |
| ChatServer.Server.Speak | go/pkg/server/stream.go:23-65 | one update of the agent, through the registry |
| ChatServer.Server.Turn | go/pkg/server/server.go:72-80 | the agent's updates are a run, and exactly the accepted ones reach the stream |
| ChatServer.Server.Answer | go/pkg/server/server.go:59-69 | what is sent after the turn is a run: one terminal chunk, the response before it exactly when nothing was published; it succeeds if and only if the stream takes those writes, and what a refused write leaves is stated |
| ChatServer.Server.Leave | go/pkg/server/server.go:57 | unregister, whether or not the sends succeeded |
| ChatServer.Server.Refusal | go/pkg/server/server.go:50-52 | without a provider: one error chunk and no registration |
| ChatServer.Server.Chat | go/pkg/server/server.go:49-70 | a whole call is a run of the model that touches no other chat; it succeeds if and only if the stream takes its own writes, and its stream, either way, is stated chunk by chunk |
| ChatServer.Server.End | go/hrpc/hrpc.go:343-346 | takes the Close step |
| ChatServer.StreamGrammar | go/pkg/server/server.go:59-69 | every such stream is content* and one terminal chunk |
| ChatServer.HandleChat | go/hrpc/hrpc.go:331-347 | events, a missing server and bytes that do not decode are refused before a stream exists; otherwise a run from draw to close, graceful if and only if the stream took Chat's own writes |
| Decimals.DecimalReads | go/pkg/server/server.go:54 | a number is printed as its decimal numeral: digits that read as the number from left to right, without a leading zero |
| Decimals.DecimalInjective | go/pkg/server/server.go:54 | so different numbers print differently |
| Wrap.WrapLine | examples/p2p-tui.js:350-363 | the loop over the words of one line |
| Wrap.WrapText | examples/p2p-tui.js:346-365 | each input line is broken greedily at max(20, width) and nothing else happens; a text whose lines are short enough and have no space in front comes back unchanged |
| Wrap.LineGreedy | examples/p2p-tui.js:350-363 | whatever spaces a line has, its lines are groups of all its words in order, and a new line begins exactly where the next word may not follow |
| Wrap.GreedyUnique | examples/p2p-tui.js:350-363 | there is only one such grouping, so this says exactly what every line becomes |
| Wrap.LeadingSpacesDropped | examples/p2p-tui.js:354-361 | spaces in front of a line are dropped, and the rest wraps as if they had not been there |
| Wrap.ShortLine | examples/p2p-tui.js:354-361 | a line no wider than w, the empty line included, becomes one line: itself, if and only if it has no space in front |
| Wrap.SingleSpaced | examples/p2p-tui.js:350-363 | when single spaces separate the words, the wrapped lines joined by a space are the line |
| Wrap.ShortTextKept | examples/p2p-tui.js:346-365 | blank lines between paragraphs and all other short lines of a text are kept as they are |
| Wrap.TextFits | examples/p2p-tui.js:354-361 | every output line is within the width or is one input word |
| Wrap.TextKeepsWords | examples/p2p-tui.js:350-363 | the non-empty words come out in order, none lost or joined |
| Wrap.StaysAhead | examples/p2p-tui.js:354-361 | a narrower current line never needs more lines, a wider one at most one more |
| Wrap.FewestLines | examples/p2p-tui.js:350-363 | on single-spaced words no legal break uses fewer lines |
| Wrap.LinesAreBreak | examples/p2p-tui.js:350-363 | and the lines made are a legal break |
| Inboxes.StepKeepsInv | examples/tools/p2p.js:92-131 | a map holds a resource under an id exactly when it is open, of the map's kind, and the id is its own |
| Inboxes.Conservation | examples/tools/p2p.js:180-185 | over any run the batches returned followed by the inbox are the arrivals in order |
| Inboxes.EveryMessageOnce | examples/tools/p2p.js:291-296 | the same from the start, with what each lookup finds |
| Inboxes.OthersUntouched | examples/tools/p2p.js:394-399 | an operation on one id leaves every other inbox alone, and no id is ever used twice across swarms, servers and connections |
| Tools.Registry.Begin | examples/tools/p2p.js:113-117 | takes the next id and makes a new inbox |
| Tools.Registry.Opened | examples/tools/p2p.js:130-131 | stores the entry under its id in its kind's map |
| Tools.Registry.OnData | examples/tools/p2p.js:119-128 | a data event appends to the inbox it closed over and to no other |
| Tools.Registry.Messages | examples/tools/p2p.js:180-185 | returns and empties one inbox, or reports an unknown id |
| Tools.Registry.Close | examples/tools/p2p.js:221-227 | removes one entry |
| ToolMessages.EncodeWith | examples/tools/p2p.js:52-59 | the message's bytes, exactly filling the reserved buffer |
| ToolMessages.DecodeWith | examples/tools/p2p.js:61-63 | agrees with the reading function, errors included |
| ToolMessages.TryDecode | examples/tools/p2p.js:80-86 | bytes that are not a message are shown raw |
| ToolMessages.ShownAsSent | examples/tools/p2p.js:66-86 | what is sent is shown as sent, and a message cut short is shown raw and never as part of one |

## Left out

- Process spawning, pipes, the SIGKILL backstop, flags and configuration: input and output only.
- bare-rpc's request correlation and flow control, Hyperbee, Corestore, Hyperswarm and HyperDHT: libraries that are not part of the repository, modelled as channels, a map and an environment.
- The hrpc stubs and handlers other than handleChat, and the JavaScript dispatcher: table lookups of one shape.
- The JSON text of messages, prompts, rendered reports, diffs and console output.
- parseKey and key_info: the z-base-32 library is not part of this model, and the pattern that recognises a key is not its alphabet.
- ChatApp in examples/p2p-tui.js: user interface around wrap.
- Disconnects in the agent protocols: a socket that closes is removed from the connection set in the source; the theorems are about runs in which none does.
- Agents that never answer, or whose ask rejects: the source waits for ever or reports an unhandled rejection.
- Utf8.SplitExactlyAtBoundaries: its decoder replaces ill-formed input byte by byte, where a decoder may put fewer replacement characters; the theorems are about well-formed text and do not depend on how many there are.
- Bee.ReadStream: is modelled without the order of the stream, which affects only the order of the listing.
- SessionStore.Server.SessionExport: reports its error with the key, which the source adds only in StateExport.
- Wrap.FewestLines: is about single-spaced words, as runs of spaces can cost a line of their own.
- GoSchema.BareclawChatRequest.Decode: says nothing about the receiver's fields after an error, where the field being read holds whatever the library's decoder returned with the error.
- GoSchema.BareclawChatChunk.Decode: says nothing about the receiver's fields after an error, where the field being read holds whatever the library's decoder returned with the error.
- GoSchema.BareclawSessionScope.Decode: says nothing about the receiver's fields after an error, where the field being read holds whatever the library's decoder returned with the error.
- GoSchema.BareclawSessionKey.Decode: says nothing about the receiver's fields after an error, where the field being read holds whatever the library's decoder returned with the error.
- GoSchema.BareclawSessionList.Decode: says nothing about the receiver's fields after an error, where the field being read holds whatever the library's decoder returned with the error.
- GoSchema.BareclawSessionBlob.Decode: says nothing about the receiver's fields after an error, where the field being read holds whatever the library's decoder returned with the error.
- GoSchema.BareclawStateBlob.Decode: says nothing about the receiver's fields after an error, where the field being read holds whatever the library's decoder returned with the error; its slice of structs is a sequence of values, so an element is copied out and in around its frame.
- GoSchema.BareclawToolDef.Decode: says nothing about the receiver's fields after an error, where the field being read holds whatever the library's decoder returned with the error.
- GoSchema.BareclawToolCall.Decode: says nothing about the receiver's fields after an error, where the field being read holds whatever the library's decoder returned with the error.
- GoSchema.BareclawToolResult.Decode: says nothing about the receiver's fields after an error, where the field being read holds whatever the library's decoder returned with the error.
- GoSchema.BareclawStateChunk.Decode: says nothing about the receiver's fields after an error, where the field being read holds whatever the library's decoder returned with the error.
- Bareclaw.Client.Session: takes the key that BuildSessionKey returned; how a scope becomes a key is picoclaw's code.
- Persistence.BeeAgreesWithGo: allows one outstanding operation on a key at a time and no early break; what overlapping operations do is the subject of Racing.
- Persistence.RestartKeepsInv: a close during a turn is left out, operations pending at a close are taken to fail, and nothing is written while the close flushes.
- ChatServer.Server.Chat: is one call that no other step interrupts; interleaved calls are in ChatStreams and ChatRouting.
- ChatServer.Server.Turn: a list of updates stands for the agent, which looks up its own chat and has finished when its turn returns; a panic is an outcome that Answer turns into the error chunk. Agents that look up what they like, or go on later, are in ChatStreams and ChatRouting.
- Tools.Registry.OnData: leaves out the time stamp and, for servers, the sender's key that the source adds to each message.
- ToolMessages.TryDecode: shows raw bytes where the source shows their lossy conversion to text.
- SessionList, SessionCreate and ToolRegister of the server: plain expressions around library calls.
- Timing, memory and performance.

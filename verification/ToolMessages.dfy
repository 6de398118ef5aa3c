/** The text messages of examples/tools/p2p.js: msgCodec through encodeWith, decodeWith and tryDecode. */
module ToolMessages {
  import opened CodecState
  import opened Wire
  import opened Wrappers

  datatype Message = Message(from: Bytes, text: Bytes)

  function Encoded(m: Message): Bytes {
    BlockBytes(m.from) + BlockBytes(m.text)
  }

  function Parse(bs: Bytes): Parsed<Message> {
    var (from, r) :- ParseBlock(bs);
    var (text, r) :- ParseBlock(r);
    Ok(Message(from, text), r)
  }

  method EncodeWith(m: Message, max: nat) returns (data: Bytes)
    ensures data == Encoded(m)
  {
    hide BlockBytes;
    var state := new State(max);
    state.PreencodeBlock(m.from);
    state.PreencodeBlock(m.text);
    state.Allocate();
    var wroteFrom := state.EncodeBlock(m.from);
    var wroteText := state.EncodeBlock(m.text);
    assert state.out == Encoded(m);
    data := state.buffer[..];
  }

  method DecodeWith(data: Bytes, max: nat) returns (m: Result<Message, Error>)
    ensures m.Success? ==> Parse(data).Ok? && Parse(data).value == m.value
    ensures m.Failure? ==> Parse(data) == Err(m.error)
  {
    hide ParseBlock;
    var state := new State.Over(data, max);
    var from :- state.DecodeBlock();
    var text :- state.DecodeBlock();
    return Success(Message(from, text));
  }

  /** Bytes that are not a message are shown as text from the peer's shortened key. */
  function Shown(data: Bytes, shortKey: Bytes): Message {
    if Parse(data).Ok? then Parse(data).value else Message(shortKey, data)
  }

  method TryDecode(data: Bytes, shortKey: Bytes, max: nat) returns (m: Message)
    ensures m == Shown(data, shortKey)
    ensures Parse(data).Ok? ==> m == Parse(data).value
    ensures Parse(data).Err? ==> m.from == shortKey && m.text == data
  {
    var r := DecodeWith(data, max);
    m := if r.Success? then r.value else Message(shortKey, data);
  }

  /** What one agent sends another receives, whole; and a message cut short is shown raw, never as a part. */
  lemma ShownAsSent(m: Message, shortKey: Bytes, cut: nat)
    requires |m.from| < U64 && |m.text| < U64 && cut <= |Encoded(m)|
    ensures Shown(Encoded(m), shortKey) == m
    ensures cut < |Encoded(m)| ==> Shown(Encoded(m)[..cut], shortKey) == Message(shortKey, Encoded(m)[..cut])
  {
    hide ParseBlock, BlockBytes;
    var bs := Encoded(m);
    BlockRoundTrip(m.from, BlockBytes(m.text));
    BlockRoundTrip(m.text, []);
    assert BlockBytes(m.text) + [] == BlockBytes(m.text);
    var part, rest := bs[..cut], bs[cut..];
    if cut < |bs| && Parse(part).Ok? {
      assert part + rest == bs;
      BlockStable(part, rest);
      BlockStable(ParseBlock(part).rest, rest);
    }
  }
}

/** One message of every kind, byte by byte: the order of the fields, the flag bits, the enum indices and the widths
    of a length, as the generated codecs lay them out. */
module Vectors {
  import opened Messages
  import opened Wire
  import opened Wrappers
  import GoSchema
  import JsMessages
  import ToolMessages

  lemma LittleEndianStep(n: nat, k: nat)
    requires k > 0
    ensures LittleEndian(n, k) == [n % 0x100] + LittleEndian(n / 0x100, k - 1)
    ensures LittleEndian(n, 0) == []
  {
  }

  /** A uint of up to four bytes: as it is, or after its marker the low byte first. */
  lemma UintLayout(n: nat)
    ensures n <= 0xfc ==> UintBytes(n) == [n]
    ensures 0xfd <= n <= 0xffff ==> UintBytes(n) == [0xfd, n % 0x100, n / 0x100]
    ensures 0x1_0000 <= n <= 0xffff_ffff ==>
              UintBytes(n) == [0xfe, n % 0x100, n / 0x100 % 0x100, n / 0x1_0000 % 0x100, n / 0x100_0000]
  {
    if n <= 0xffff {
      LittleEndianStep(n, 2);
      LittleEndianStep(n / 0x100, 1);
    } else if n <= 0xffff_ffff {
      hide LittleEndian;
      assert n / 0x100 / 0x100 == n / 0x1_0000 && n / 0x1_0000 / 0x100 == n / 0x100_0000;
      LittleEndianStep(n, 4);
      LittleEndianStep(n / 0x100, 3);
      LittleEndianStep(n / 0x1_0000, 2);
      LittleEndianStep(n / 0x100_0000, 1);
    }
  }

  lemma ChatVectors()
    ensures ChatRequest.Encoded(ChatRequest([0x73], [0x68, 0x69], Some([0x6d])))
            == [1, 0x73, 2, 0x68, 0x69, 1, 1, 0x6d]
    ensures ChatRequest.Encoded(ChatRequest([0x73], [0x68, 0x69], None)) == [1, 0x73, 2, 0x68, 0x69, 0]
    ensures ChatChunk.Encoded(ChatChunk(4, Some([0x65, 0x66]))) == [4, 1, 2, 0x65, 0x66]
    ensures ChatChunk.Encoded(ChatChunk(3, None)) == [3, 0]
  {
  }

  lemma SessionVectors()
    ensures SessionScope.Encoded(SessionScope(Some([0x61]), Some([0x62]), Some([0x63]), Some([0x64])))
            == [15, 1, 0x61, 1, 0x62, 1, 0x63, 1, 0x64]
    ensures SessionScope.Encoded(SessionScope(None, Some([0x62]), None, Some([0x64]))) == [10, 1, 0x62, 1, 0x64]
    ensures SessionKey.Encoded(SessionKey([0x6b])) == [1, 0x6b]
    ensures SessionBlob.Encoded(SessionBlob([0x6b], [0x01, 0x02])) == [1, 0x6b, 2, 0x01, 0x02]
    ensures StateChunk.Encoded(StateChunk([0x6b], 2, [0x01])) == [1, 0x6b, 2, 1, 0x01]
  {
  }

  lemma ListVector()
    ensures SessionList.Encoded(SessionList([[0x61], [0x62, 0x63]])) == [2, 1, 0x61, 2, 0x62, 0x63]
  {
    var keys: seq<Bytes> := [[0x61], [0x62, 0x63]];
    assert keys[1..] == [[0x62, 0x63]] && keys[1..][1..] == [];
  }

  lemma StateVector()
    ensures StateBlob.Encoded(StateBlob([SessionBlob([0x6b], [0x01]), SessionBlob([0x6c], [])]))
            == [2, 4, 1, 0x6b, 1, 0x01, 3, 1, 0x6c, 0]
  {
    var sessions := [SessionBlob([0x6b], [0x01]), SessionBlob([0x6c], [])];
    var contents: seq<Bytes> := [[1, 0x6b, 1, 0x01], [1, 0x6c, 0]];
    assert SessionBlob.Encoded(sessions[0]) == contents[0] && SessionBlob.Encoded(sessions[1]) == contents[1];
    assert Contents(sessions) == contents;
    hide Contents, SessionBlob.Encoded;
    assert contents[1..] == [contents[1]] && contents[1..][1..] == [];
  }

  lemma ToolVectors()
    ensures ToolDef.Encoded(ToolDef([0x6e], [0x64], Some([0x7b, 0x7d]))) == [1, 0x6e, 1, 0x64, 1, 2, 0x7b, 0x7d]
    ensures ToolCall.Encoded(ToolCall([0x31], [0x6e], [0x7b, 0x7d])) == [1, 0x31, 1, 0x6e, 2, 0x7b, 0x7d]
    ensures ToolMessages.Encoded(ToolMessages.Message([0x66], [0x74, 0x75])) == [1, 0x66, 2, 0x74, 0x75]
  {
  }

  lemma ToolResultVectors()
    ensures ToolResult.Encoded(ToolResult([0x31], Some([0x32]), Some([0x65]))) == [1, 0x31, 3, 1, 0x32, 1, 0x65]
    ensures ToolResult.Encoded(ToolResult([0x31], None, Some([0x65]))) == [1, 0x31, 2, 1, 0x65]
  {
  }

  /** Both codecs number the constants alike, and give no other string a number. */
  lemma EnumVectors(t: string)
    ensures GoSchema.ChunkTypeIndex("content") == 1 && GoSchema.ChunkTypeIndex("thinking") == 2
    ensures GoSchema.ChunkTypeIndex("done") == 3 && GoSchema.ChunkTypeIndex("error") == 4
    ensures GoSchema.ChunkTypeIndex(t) > 0 ==> t in ["content", "thinking", "done", "error"]
    ensures GoSchema.StateFieldIndex("history") == 1 && GoSchema.StateFieldIndex("summary") == 2
    ensures GoSchema.StateFieldIndex(t) > 0 ==> t in ["history", "summary"]
    ensures JsMessages.ChunkTypeIndex(Some(t)) == GoSchema.ChunkTypeIndex(t) && JsMessages.ChunkTypeIndex(None) == 0
    ensures JsMessages.StateFieldIndex(Some(t)) == GoSchema.StateFieldIndex(t)
    ensures JsMessages.StateFieldIndex(None) == 0
  {
  }
}

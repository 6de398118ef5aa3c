/** go/pkg/server/state.go and the session commands of go/pkg/server/server.go: sessions marshalled to blobs
    and restored from them. JSON is an abstract codec, and picoclaw's session store a map from keys to
    sessions whose n-th Save succeeds or fails as the environment decides. */
module SessionStore {
  import opened Wrappers
  import opened Wire

  // ----- the JSON codec -----

  /** json.Marshal and json.Unmarshal of one message, and of the sessionDump that holds messages already
      encoded and the summary. */
  datatype Codec<!M> = Codec(
    encode: M -> Option<Bytes>,
    decode: Bytes -> Option<M>,
    encodeDump: (seq<Bytes>, Bytes) -> Option<Bytes>,
    decodeDump: Bytes -> Option<(seq<Bytes>, Bytes)>)

  /** Whatever encodes at all decodes to itself. */
  ghost predicate RoundTrips<M(!new)>(codec: Codec<M>) {
    && (forall m, data | codec.encode(m) == Some(data) :: codec.decode(data) == Some(m))
    && forall raw, summary, data | codec.encodeDump(raw, summary) == Some(data) ::
         codec.decodeDump(data) == Some((raw, summary))
  }

  datatype Session<M> = Session(history: seq<M>, summary: Bytes)

  function EncodeAll<M>(codec: Codec<M>, history: seq<M>): Option<seq<Bytes>> {
    if history == [] then Some([])
    else
      var last := |history| - 1;
      var front, b := EncodeAll(codec, history[..last]), codec.encode(history[last]);
      if front.Some? && b.Some? then Some(front.value + [b.value]) else None
  }

  function DecodeAll<M>(codec: Codec<M>, raw: seq<Bytes>): Option<seq<M>> {
    if raw == [] then Some([])
    else
      var last := |raw| - 1;
      var front, m := DecodeAll(codec, raw[..last]), codec.decode(raw[last]);
      if front.Some? && m.Some? then Some(front.value + [m.value]) else None
  }

  function Marshalled<M>(codec: Codec<M>, session: Session<M>): Option<Bytes> {
    var raw := EncodeAll(codec, session.history);
    if raw.Some? then codec.encodeDump(raw.value, session.summary) else None
  }

  function Unmarshalled<M>(codec: Codec<M>, data: Bytes): Option<Session<M>> {
    var dump := codec.decodeDump(data);
    if dump.None? then None
    else
      var history := DecodeAll(codec, dump.value.0);
      if history.Some? then Some(Session(history.value, dump.value.1)) else None
  }

  lemma {:induction false} EncodeAllPrefix<M>(codec: Codec<M>, history: seq<M>, i: nat)
    requires i <= |history| && EncodeAll(codec, history[..i]).None?
    ensures EncodeAll(codec, history).None?
    decreases |history|
  {
    if i < |history| {
      var front := history[..|history| - 1];
      assert front[..i] == history[..i];
      EncodeAllPrefix(codec, front, i);
    } else {
      assert history[..i] == history;
    }
  }

  lemma {:induction false} DecodeAllPrefix<M>(codec: Codec<M>, raw: seq<Bytes>, i: nat)
    requires i <= |raw| && DecodeAll(codec, raw[..i]).None?
    ensures DecodeAll(codec, raw).None?
    decreases |raw|
  {
    if i < |raw| {
      var front := raw[..|raw| - 1];
      assert front[..i] == raw[..i];
      DecodeAllPrefix(codec, front, i);
    } else {
      assert raw[..i] == raw;
    }
  }

  /** raw holds the encoding of every message. */
  ghost predicate Encodes<M>(codec: Codec<M>, history: seq<M>, raw: seq<Bytes>) {
    |raw| == |history| && forall i | 0 <= i < |history| :: codec.encode(history[i]) == Some(raw[i])
  }

  /** data is a dump, and every message in it decodes. */
  ghost predicate Readable<M>(codec: Codec<M>, data: Bytes) {
    && codec.decodeDump(data).Some?
    && forall i | 0 <= i < |codec.decodeDump(data).value.0| :: codec.decode(codec.decodeDump(data).value.0[i]).Some?
  }

  /** data is a dump of session: its messages decode to the history one by one, and it carries the summary. */
  ghost predicate ReadsAs<M>(codec: Codec<M>, data: Bytes, session: Session<M>) {
    && codec.decodeDump(data).Some?
    && var (raw, summary) := codec.decodeDump(data).value;
    && |session.history| == |raw| && session.summary == summary
    && forall i | 0 <= i < |raw| :: codec.decode(raw[i]) == Some(session.history[i])
  }

  lemma {:induction false} EncodeAllExactly<M>(codec: Codec<M>, history: seq<M>)
    ensures EncodeAll(codec, history).Some? <==> forall i | 0 <= i < |history| :: codec.encode(history[i]).Some?
    ensures EncodeAll(codec, history).Some? ==> Encodes(codec, history, EncodeAll(codec, history).value)
    decreases |history|
  {
    if history != [] {
      var last := |history| - 1;
      EncodeAllExactly(codec, history[..last]);
      assert forall i | 0 <= i < last :: history[..last][i] == history[i];
    }
  }

  lemma {:induction false} DecodeAllExactly<M>(codec: Codec<M>, raw: seq<Bytes>)
    ensures DecodeAll(codec, raw).Some? <==> forall i | 0 <= i < |raw| :: codec.decode(raw[i]).Some?
    ensures DecodeAll(codec, raw).Some? ==>
              && |DecodeAll(codec, raw).value| == |raw|
              && forall i | 0 <= i < |raw| :: codec.decode(raw[i]) == Some(DecodeAll(codec, raw).value[i])
    decreases |raw|
  {
    if raw != [] {
      var last := |raw| - 1;
      DecodeAllExactly(codec, raw[..last]);
      assert forall i | 0 <= i < last :: raw[..last][i] == raw[i];
    }
  }

  /** A session marshals to the dump of its encoded messages, and not at all if one of them does not encode. */
  lemma MarshalledExactly<M>(codec: Codec<M>, session: Session<M>)
    ensures forall raw | Encodes(codec, session.history, raw) ::
              Marshalled(codec, session) == codec.encodeDump(raw, session.summary)
    ensures (exists i | 0 <= i < |session.history| :: codec.encode(session.history[i]).None?) ==>
              Marshalled(codec, session).None?
  {
    hide EncodeAll;
    EncodeAllExactly(codec, session.history);
    forall raw | Encodes(codec, session.history, raw)
      ensures EncodeAll(codec, session.history) == Some(raw)
    {
      assert EncodeAll(codec, session.history).value == raw;
    }
  }

  /** Bytes unmarshal exactly when they are a dump whose messages all decode, and then to what they are a dump of. */
  lemma UnmarshalledExactly<M>(codec: Codec<M>, data: Bytes)
    ensures Unmarshalled(codec, data).Some? <==> Readable(codec, data)
    ensures forall session :: ReadsAs(codec, data, session) <==> Unmarshalled(codec, data) == Some(session)
  {
    hide DecodeAll;
    if codec.decodeDump(data).Some? {
      var raw := codec.decodeDump(data).value.0;
      DecodeAllExactly(codec, raw);
      forall session | ReadsAs(codec, data, session) ensures Unmarshalled(codec, data) == Some(session) {
        assert forall i | 0 <= i < |raw| :: codec.decode(raw[i]).Some?;
        assert DecodeAll(codec, raw).value == session.history;
      }
    }
  }

  method MarshalSession<M>(codec: Codec<M>, history: seq<M>, summary: Bytes) returns (data: Option<Bytes>)
    ensures data == Marshalled(codec, Session(history, summary))
    ensures forall raw | Encodes(codec, history, raw) :: data == codec.encodeDump(raw, summary)
    ensures (exists i | 0 <= i < |history| :: codec.encode(history[i]).None?) ==> data.None?
  {
    MarshalledExactly(codec, Session(history, summary));
    var raw: seq<Bytes> := [];
    for i := 0 to |history|
      invariant EncodeAll(codec, history[..i]) == Some(raw)
    {
      assert history[..i + 1][..i] == history[..i];
      var b := codec.encode(history[i]);
      if b.None? {
        EncodeAllPrefix(codec, history, i + 1);
        return None;
      }
      raw := raw + [b.value];
    }
    assert history[..|history|] == history;
    data := codec.encodeDump(raw, summary);
  }

  method UnmarshalSession<M>(codec: Codec<M>, data: Bytes) returns (session: Option<Session<M>>)
    ensures session == Unmarshalled(codec, data)
    ensures session.Some? <==> Readable(codec, data)
    ensures session.Some? ==> ReadsAs(codec, data, session.value)
  {
    UnmarshalledExactly(codec, data);
    var dump := codec.decodeDump(data);
    if dump.None? {
      return None;
    }
    var raw := dump.value.0;
    var history: seq<M> := [];
    for i := 0 to |raw|
      invariant DecodeAll(codec, raw[..i]) == Some(history)
    {
      assert raw[..i + 1][..i] == raw[..i];
      var m := codec.decode(raw[i]);
      if m.None? {
        DecodeAllPrefix(codec, raw, i + 1);
        return None;
      }
      history := history + [m.value];
    }
    assert raw[..|raw|] == raw;
    session := Some(Session(history, dump.value.1));
  }

  lemma EncodeAllLast<M>(codec: Codec<M>, history: seq<M>)
    requires history != [] && EncodeAll(codec, history).Some?
    ensures var last := |history| - 1;
            && EncodeAll(codec, history[..last]).Some? && codec.encode(history[last]).Some?
            && EncodeAll(codec, history).value
               == EncodeAll(codec, history[..last]).value + [codec.encode(history[last]).value]
  {
  }

  lemma DecodeAllSnoc<M>(codec: Codec<M>, raw: seq<Bytes>, b: Bytes)
    requires DecodeAll(codec, raw).Some? && codec.decode(b).Some?
    ensures DecodeAll(codec, raw + [b]) == Some(DecodeAll(codec, raw).value + [codec.decode(b).value])
  {
    assert (raw + [b])[..|raw|] == raw;
  }

  lemma {:induction false} EncodeAllReads<M(!new)>(codec: Codec<M>, history: seq<M>)
    requires RoundTrips(codec) && EncodeAll(codec, history).Some?
    ensures DecodeAll(codec, EncodeAll(codec, history).value) == Some(history)
  {
    if history != [] {
      hide EncodeAll, DecodeAll;
      var last := |history| - 1;
      EncodeAllLast(codec, history);
      EncodeAllReads(codec, history[..last]);
      var b := codec.encode(history[last]).value;
      assert codec.decode(b) == Some(history[last]);
      DecodeAllSnoc(codec, EncodeAll(codec, history[..last]).value, b);
      assert history[..last] + [history[last]] == history;
    }
  }

  /** A session that marshals comes back whole. */
  lemma SessionRoundTrip<M(!new)>(codec: Codec<M>, session: Session<M>)
    requires RoundTrips(codec) && Marshalled(codec, session).Some?
    ensures Unmarshalled(codec, Marshalled(codec, session).value) == Some(session)
  {
    hide EncodeAll, DecodeAll;
    var raw, data := EncodeAll(codec, session.history).value, Marshalled(codec, session).value;
    assert codec.encodeDump(raw, session.summary) == Some(data);
    assert codec.decodeDump(data) == Some((raw, session.summary));
    EncodeAllReads(codec, session.history);
  }

  // ----- the store -----

  datatype Blob = Blob(key: Bytes, data: Bytes)

  datatype Error = NoAgent | BadSession(key: Bytes) | SaveFailed(key: Bytes)

  /** What a store holds: its sessions, and how many times Save has been called. */
  datatype Store<M> = Store(sessions: map<Bytes, Session<M>>, saves: nat) {
    /** GetHistory and GetSummary: a key never set has no history and no summary. */
    function Get(key: Bytes): Session<M> {
      if key in sessions then sessions[key] else Session([], [])
    }
  }

  /** restore: the store afterwards and the error, given which Save calls succeed. */
  function Restored<M>(codec: Codec<M>, saved: nat -> bool, store: Store<M>, blob: Blob): (Store<M>, Outcome<Error>) {
    var session := Unmarshalled(codec, blob.data);
    if session.None? then (store, Fail(BadSession(blob.key)))
    else
      (Store(store.sessions[blob.key := session.value], store.saves + 1),
       if saved(store.saves) then Pass else Fail(SaveFailed(blob.key)))
  }

  /** restore, in terms of the codec: a blob that is not a readable dump is an error and changes nothing; any other
      becomes the key's session, no other session changes, and the error is Save's. */
  ghost predicate Restores<M>(codec: Codec<M>, saved: nat -> bool, before: Store<M>, blob: Blob,
                              after: Store<M>, r: Outcome<Error>)
  {
    if !Readable(codec, blob.data) then after == before && r == Fail(BadSession(blob.key))
    else
      && blob.key in after.sessions && ReadsAs(codec, blob.data, after.sessions[blob.key])
      && after.sessions == before.sessions[blob.key := after.sessions[blob.key]]
      && after.saves == before.saves + 1
      && r == if saved(before.saves) then Pass else Fail(SaveFailed(blob.key))
  }

  lemma RestoredExactly<M>(codec: Codec<M>, saved: nat -> bool, store: Store<M>, blob: Blob)
    ensures var (after, r) := Restored(codec, saved, store, blob); Restores(codec, saved, store, blob, after, r)
  {
    UnmarshalledExactly(codec, blob.data);
    hide Unmarshalled, Readable, ReadsAs;
    var session := Unmarshalled(codec, blob.data);
    assert session.Some? ==> ReadsAs(codec, blob.data, session.value);
  }

  /** StateImport: the blobs in order, up to the first error. */
  function Imported<M>(codec: Codec<M>, saved: nat -> bool, store: Store<M>, blobs: seq<Blob>)
    : (Store<M>, Outcome<Error>)
    decreases |blobs|
  {
    if blobs == [] then (store, Pass)
    else
      var first := Restored(codec, saved, store, blobs[0]);
      if first.1.Fail? then first else Imported(codec, saved, first.0, blobs[1..])
  }

  /** picoclaw's session manager, as far as the server uses it. */
  class Sessions<M(==)> {
    var sessions: map<Bytes, Session<M>>
    var saves: nat
    const saved: nat -> bool

    constructor (saved: nat -> bool)
      ensures Value() == Store(map[], 0) && this.saved == saved
    {
      sessions := map[];
      saves := 0;
      this.saved := saved;
    }

    ghost function Value(): Store<M>
      reads this
    {
      Store(sessions, saves)
    }

    method GetHistory(key: Bytes) returns (history: seq<M>)
      ensures history == Value().Get(key).history
    {
      history := if key in sessions then sessions[key].history else [];
    }

    method GetSummary(key: Bytes) returns (summary: Bytes)
      ensures summary == Value().Get(key).summary
    {
      summary := if key in sessions then sessions[key].summary else [];
    }

    method SetHistory(key: Bytes, history: seq<M>)
      modifies this`sessions
      ensures sessions == old(sessions)[key := Session(history, old(Value()).Get(key).summary)]
    {
      var summary := if key in sessions then sessions[key].summary else [];
      sessions := sessions[key := Session(history, summary)];
    }

    method SetSummary(key: Bytes, summary: Bytes)
      modifies this`sessions
      ensures sessions == old(sessions)[key := Session(old(Value()).Get(key).history, summary)]
    {
      var history := if key in sessions then sessions[key].history else [];
      sessions := sessions[key := Session(history, summary)];
    }

    method Save(key: Bytes) returns (r: Outcome<Error>)
      modifies this`saves
      ensures saves == old(saves) + 1
      ensures r == if saved(old(saves)) then Pass else Fail(SaveFailed(key))
    {
      r := if saved(saves) then Pass else Fail(SaveFailed(key));
      saves := saves + 1;
    }

    /** Every key once, in no particular order. */
    method ListSessions() returns (keys: seq<Bytes>)
      ensures forall k :: k in keys <==> k in sessions
      ensures forall i, j | 0 <= i < j < |keys| :: keys[i] != keys[j]
    {
      keys := [];
      var todo := sessions.Keys;
      while todo != {}
        invariant todo <= sessions.Keys
        invariant forall k :: k in keys <==> k in sessions && k !in todo
        invariant forall i, j | 0 <= i < j < |keys| :: keys[i] != keys[j]
      {
        var k :| k in todo;
        todo := todo - {k};
        keys := keys + [k];
      }
    }
  }

  // ----- the commands -----

  class Server<M(==)> {
    const codec: Codec<M>
    const agent: Sessions?<M>

    ghost function Held(): Store<M>
      reads this, agent
    {
      if agent == null then Store(map[], 0) else agent.Value()
    }

    constructor (codec: Codec<M>, agent: Sessions?<M>)
      ensures this.codec == codec && this.agent == agent
    {
      this.codec := codec;
      this.agent := agent;
    }

    method SessionExport(key: Bytes) returns (r: Result<Blob, Error>)
      ensures agent == null ==> r == Failure(NoAgent)
      ensures agent != null ==>
                r == (var data := Marshalled(codec, Held().Get(key));
                      if data.Some? then Success(Blob(key, data.value)) else Failure(BadSession(key)))
    {
      if agent == null {
        return Failure(NoAgent);
      }
      var history := agent.GetHistory(key);
      var summary := agent.GetSummary(key);
      var data := MarshalSession(codec, history, summary);
      r := if data.Some? then Success(Blob(key, data.value)) else Failure(BadSession(key));
    }

    method SessionImport(blob: Blob) returns (r: Outcome<Error>)
      modifies agent
      ensures agent == null ==> r == Fail(NoAgent)
      ensures agent != null ==> (Held(), r) == Restored(codec, agent.saved, old(Held()), blob)
      ensures agent != null ==> Restores(codec, agent.saved, old(Held()), blob, Held(), r)
    {
      if agent == null {
        return Fail(NoAgent);
      }
      r := Restore(agent, blob);
    }

    method Restore(a: Sessions<M>, blob: Blob) returns (r: Outcome<Error>)
      modifies a
      ensures (a.Value(), r) == Restored(codec, a.saved, old(a.Value()), blob)
      ensures Restores(codec, a.saved, old(a.Value()), blob, a.Value(), r)
    {
      hide Unmarshalled, Readable, ReadsAs, Restores;
      RestoredExactly(codec, a.saved, a.Value(), blob);
      var session := UnmarshalSession(codec, blob.data);
      if session.None? {
        return Fail(BadSession(blob.key));
      }
      a.SetHistory(blob.key, session.value.history);
      a.SetSummary(blob.key, session.value.summary);
      assert a.sessions == old(a.sessions)[blob.key := session.value];
      r := a.Save(blob.key);
    }

    /** Every session once, or an error if some session does not marshal. */
    method StateExport() returns (r: Result<seq<Blob>, Error>)
      ensures agent == null ==> r == Failure(NoAgent)
      ensures agent != null && r.Success? ==> IsExport(codec, Held(), r.value)
      ensures agent != null && r.Failure? ==>
                r.error.BadSession? && r.error.key in agent.sessions
                    && Marshalled(codec, agent.sessions[r.error.key]).None?
    {
      if agent == null {
        return Failure(NoAgent);
      }
      var keys := agent.ListSessions();
      var blobs: seq<Blob> := [];
      for i := 0 to |keys|
        invariant |blobs| == i
        invariant forall j | 0 <= j < i :: blobs[j].key == keys[j]
        invariant forall j | 0 <= j < i :: Marshalled(codec, agent.sessions[keys[j]]) == Some(blobs[j].data)
      {
        var history := agent.GetHistory(keys[i]);
        var summary := agent.GetSummary(keys[i]);
        var data := MarshalSession(codec, history, summary);
        if data.None? {
          return Failure(BadSession(keys[i]));
        }
        blobs := blobs + [Blob(keys[i], data.value)];
      }
      ExportOf(codec, agent.Value(), keys, blobs);
      r := Success(blobs);
    }

    method StateImport(blobs: seq<Blob>) returns (r: Outcome<Error>)
      modifies agent
      ensures agent == null ==> r == Fail(NoAgent)
      ensures agent != null ==> (Held(), r) == Imported(codec, agent.saved, old(Held()), blobs)
    {
      if agent == null {
        return Fail(NoAgent);
      }
      var a := agent;
      for i := 0 to |blobs|
        invariant Imported(codec, a.saved, old(a.Value()), blobs) == Imported(codec, a.saved, a.Value(), blobs[i..])
      {
        r := Restore(a, blobs[i]);
        assert blobs[i..][1..] == blobs[i + 1..];
        if r.Fail? {
          return;
        }
      }
      r := Pass;
    }
  }

  /** The blobs of a state export: one for each session, in some order. */
  ghost predicate IsExport<M>(codec: Codec<M>, store: Store<M>, blobs: seq<Blob>) {
    && (forall i, j | 0 <= i < j < |blobs| :: blobs[i].key != blobs[j].key)
    && (forall k :: k in store.sessions <==> exists i | 0 <= i < |blobs| :: blobs[i].key == k)
    && forall i | 0 <= i < |blobs| ::
         blobs[i].key in store.sessions && Marshalled(codec, store.sessions[blobs[i].key]) == Some(blobs[i].data)
  }

  lemma ExportOf<M>(codec: Codec<M>, store: Store<M>, keys: seq<Bytes>, blobs: seq<Blob>)
    requires forall k :: k in keys <==> k in store.sessions
    requires forall i, j | 0 <= i < j < |keys| :: keys[i] != keys[j]
    requires |blobs| == |keys| && forall i | 0 <= i < |keys| :: blobs[i].key == keys[i]
    requires forall i | 0 <= i < |keys| :: Marshalled(codec, store.sessions[keys[i]]) == Some(blobs[i].data)
    ensures IsExport(codec, store, blobs)
  {
    forall k ensures k in store.sessions <==> exists i | 0 <= i < |blobs| :: blobs[i].key == k {
      if k in store.sessions {
        var i :| 0 <= i < |keys| && keys[i] == k;
        assert blobs[i].key == k;
      }
    }
  }

  // ----- what an import does -----

  /** key's last blob among blobs is the one at i. */
  predicate LastFor(blobs: seq<Blob>, key: Bytes, i: nat) {
    i < |blobs| && blobs[i].key == key && forall j | i < j < |blobs| :: blobs[j].key != key
  }

  predicate Mentions(blobs: seq<Blob>, key: Bytes) {
    exists i | 0 <= i < |blobs| :: blobs[i].key == key
  }

  predicate SameAt<M(==)>(a: map<Bytes, Session<M>>, b: map<Bytes, Session<M>>, key: Bytes) {
    (key in a <==> key in b) && (key in a ==> a[key] == b[key])
  }

  /** after is before with blobs applied: the last blob for a key wins, and no other key changes. */
  ghost predicate Applied<M>(codec: Codec<M>, before: map<Bytes, Session<M>>, blobs: seq<Blob>, after: map<Bytes,
                             Session<M>>) {
    && (forall key, i: nat | LastFor(blobs, key, i) ::
          key in after && ReadsAs(codec, blobs[i].data, after[key]))
    && forall key | !Mentions(blobs, key) :: SameAt(after, before, key)
  }

  /** Save calls number first, …, last - 1 all succeed. */
  ghost predicate AllSaved(saved: nat -> bool, first: nat, last: nat) {
    forall k | first <= k < last :: saved(k)
  }

  /** An import applies its first n blobs, every one of which parses. It stops at the first blob that does not
      parse, which changes nothing, or just after the first Save that fails, which has changed the store. */
  lemma {:induction false} ImportEffect<M>(codec: Codec<M>, saved: nat -> bool, store: Store<M>, blobs: seq<Blob>)
    returns (n: nat)
    ensures n <= |blobs|
    ensures forall i | 0 <= i < n :: Readable(codec, blobs[i].data)
    ensures Applied(codec, store.sessions, blobs[..n], Imported(codec, saved, store, blobs).0.sessions)
    ensures Imported(codec, saved, store, blobs).0.saves == store.saves + n
    ensures var r := Imported(codec, saved, store, blobs).1;
            if r.Pass? then n == |blobs| && AllSaved(saved, store.saves, store.saves + n)
            else if r.error.BadSession? then
              && n < |blobs| && r.error.key == blobs[n].key && !Readable(codec, blobs[n].data)
              && AllSaved(saved, store.saves, store.saves + n)
            else
              && n > 0 && r.error == SaveFailed(blobs[n - 1].key) && !saved(store.saves + n - 1)
              && AllSaved(saved, store.saves, store.saves + n - 1)
    decreases |blobs|
  {
    hide Unmarshalled, Applied, Readable;
    if blobs != [] {
      UnmarshalledExactly(codec, blobs[0].data);
    }
    if blobs == [] || Unmarshalled(codec, blobs[0].data).None? {
      n := 0;
      NoneApplied(codec, store.sessions);
    } else {
      var (next, r) := Restored(codec, saved, store, blobs[0]);
      var m := 0;
      if r.Pass? {
        m := ImportEffect(codec, saved, next, blobs[1..]);
      } else {
        NoneApplied(codec, next.sessions);
      }
      n := m + 1;
      assert blobs[..n][1..] == blobs[1..][..m];
      AppliedCons(codec, store.sessions, blobs[..n], Imported(codec, saved, store, blobs).0.sessions);
    }
  }

  lemma NoneApplied<M>(codec: Codec<M>, sessions: map<Bytes, Session<M>>)
    ensures Applied(codec, sessions, [], sessions)
  {
  }

  lemma AppliedCons<M>(codec: Codec<M>, before: map<Bytes, Session<M>>, blobs: seq<Blob>, after: map<Bytes, Session<M>>)
    requires blobs != [] && Unmarshalled(codec, blobs[0].data).Some?
    requires Applied(codec, before[blobs[0].key := Unmarshalled(codec, blobs[0].data).value], blobs[1..], after)
    ensures Applied(codec, before, blobs, after)
  {
    UnmarshalledExactly(codec, blobs[0].data);
    hide Unmarshalled, ReadsAs;
    var rest := blobs[1..];
    var session := Unmarshalled(codec, blobs[0].data);
    var next := before[blobs[0].key := session.value];
    forall key, i: nat | LastFor(blobs, key, i)
      ensures key in after && ReadsAs(codec, blobs[i].data, after[key])
    {
      if i > 0 {
        assert LastFor(rest, key, i - 1);
      } else {
        assert !Mentions(rest, key);
        assert SameAt(after, next, key);
      }
    }
    forall key | !Mentions(blobs, key) ensures SameAt(after, before, key) {
      assert key != blobs[0].key;
      assert forall j | 0 <= j < |rest| :: rest[j] == blobs[j + 1];
      assert !Mentions(rest, key);
      assert SameAt(after, next, key);
    }
  }

  /** A state exported from one store and imported into another: every exported session is there as it was,
      and every other session of the target is untouched. */
  lemma ExportImport<M(!new)>(codec: Codec<M>, saved: nat -> bool, source: Store<M>, target: Store<M>, blobs: seq<Blob>)
    requires RoundTrips(codec) && IsExport(codec, source, blobs)
    requires AllSaved(saved, target.saves, target.saves + |blobs|)
    ensures var (after, r) := Imported(codec, saved, target, blobs);
            r.Pass? && after.sessions == target.sessions + source.sessions
  {
    hide RoundTrips, Marshalled, Unmarshalled, Imported, Readable, ReadsAs;
    var n := ImportEffect(codec, saved, target, blobs);
    var (after, r) := Imported(codec, saved, target, blobs);
    if n < |blobs| {
      SessionRoundTrip(codec, source.sessions[blobs[n].key]);
      UnmarshalledExactly(codec, blobs[n].data);
    }
    assert blobs[..n] == blobs;
    forall key ensures SameAt(after.sessions, target.sessions + source.sessions, key) {
      if key in source.sessions {
        var i :| 0 <= i < |blobs| && blobs[i].key == key;
        assert LastFor(blobs, key, i);
        SessionRoundTrip(codec, source.sessions[key]);
        UnmarshalledExactly(codec, blobs[i].data);
      } else {
        assert !Mentions(blobs, key);
        assert SameAt(after.sessions, target.sessions, key);
      }
    }
    SameMaps(after.sessions, target.sessions + source.sessions);
  }

  lemma SameMaps<M>(a: map<Bytes, Session<M>>, b: map<Bytes, Session<M>>)
    requires forall key :: SameAt(a, b, key)
    ensures a == b
  {
    assert forall key :: SameAt(a, b, key) ==> (key in a <==> key in b);
  }

  /** One exported session imported under its key, here or in another process, is that session again. */
  lemma SessionExportImport<M(!new)>(codec: Codec<M>, saved: nat -> bool, source: Store<M>, target: Store<M>,
                              key: Bytes)
    requires RoundTrips(codec) && Marshalled(codec, source.Get(key)).Some?
    ensures var after := Restored(codec, saved, target, Blob(key, Marshalled(codec, source.Get(key)).value)).0;
            after.sessions == target.sessions[key := source.Get(key)]
  {
    SessionRoundTrip(codec, source.Get(key));
  }
}

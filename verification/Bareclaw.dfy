/** The Bareclaw class of index.js over the Go session commands, one call at a time. */
module Bareclaw {
  import opened Wrappers
  import opened Wire
  import opened Bee
  import opened SessionStore
  import opened Persistence

  ghost predicate Loads<M>(codec: Codec<M>, bee: map<Bytes, Bytes>, keys: seq<Bytes>, before: Store<M>,
                           after: Store<M>) {
    forall k :: Loaded(codec, bee, k in keys, before, after, k)
  }

  lemma LoadsSnoc<M>(codec: Codec<M>, bee: map<Bytes, Bytes>, keys: seq<Bytes>, key: Bytes,
                  before: Store<M>, mid: Store<M>, after: Store<M>)
    requires Loads(codec, bee, keys, before, mid)
    requires if HasData(bee, key) then
               var session := Unmarshalled(codec, bee[DataKey(key)]);
               session.Some? && after.sessions == mid.sessions[key := session.value]
             else after == mid
    ensures Loads(codec, bee, keys + [key], before, after)
  {
    hide Unmarshalled;
    forall k ensures Loaded(codec, bee, k in keys + [key], before, after, k) {
      assert Loaded(codec, bee, k in keys, before, mid, k);
    }
  }

  /** No session differs but the listed ones, which may hold what the bee has for them. */
  ghost predicate OnlyLoads<M>(codec: Codec<M>, bee: map<Bytes, Bytes>, before: Store<M>, after: Store<M>) {
    forall k | !SameAt(after.sessions, before.sessions, k) ::
      && Listed(bee, k) && HasData(bee, k)
      && k in after.sessions && ReadsAs(codec, bee[DataKey(k)], after.sessions[k])
  }

  lemma LoadsOnly<M>(codec: Codec<M>, bee: map<Bytes, Bytes>, keys: seq<Bytes>, before: Store<M>, after: Store<M>)
    requires Loads(codec, bee, keys, before, after) && forall k | k in keys :: Listed(bee, k)
    ensures OnlyLoads(codec, bee, before, after)
  {
    hide Unmarshalled, Listed, ReadsAs;
    forall k | !SameAt(after.sessions, before.sessions, k)
      ensures Listed(bee, k) && HasData(bee, k) && k in after.sessions
      ensures ReadsAs(codec, bee[DataKey(k)], after.sessions[k])
    {
      assert Loaded(codec, bee, k in keys, before, after, k);
      UnmarshalledExactly(codec, bee[DataKey(k)]);
    }
  }

  lemma LoadsListed<M>(codec: Codec<M>, bee: map<Bytes, Bytes>, keys: seq<Bytes>, before: Store<M>, after: Store<M>)
    requires forall k :: k in keys <==> Listed(bee, k)
    requires Loads(codec, bee, keys, before, after)
    ensures IsLoad(codec, bee, before, after)
  {
    hide Unmarshalled, Listed;
    forall k ensures Loaded(codec, bee, Listed(bee, k), before, after, k) {
      assert Loaded(codec, bee, k in keys, before, after, k);
    }
  }

  /** The steps of one persist. */
  function Persisting<M>(key: Bytes, r: Outcome<SessionStore.Error>): seq<Action<M>> {
    if r.Pass? then [Exported(key), Written(key)] else [Exported(key)]
  }

  /** The steps of a turn that writes these sessions. */
  function Writes<M>(key: Bytes, turn: seq<Session<M>>): (actions: seq<Action<M>>)
    ensures |actions| == |turn|
  {
    seq(|turn|, i requires 0 <= i < |turn| => TurnWrote(key, turn[i]))
  }

  lemma MarshalledReads<M(!new)>(codec: Codec<M>, session: Session<M>)
    requires RoundTrips(codec)
    ensures Marshalled(codec, session).Some? ==> ReadsAs(codec, Marshalled(codec, session).value, session)
  {
    hide RoundTrips, Marshalled, Unmarshalled;
    if Marshalled(codec, session).Some? {
      SessionRoundTrip(codec, session);
      UnmarshalledExactly(codec, Marshalled(codec, session).value);
    }
  }

  class Client<M(!new, ==)> {
    const server: Server<M>
    var bee: map<Bytes, Bytes>
    var isOpen: bool

    /** An instance over the corestore that holds bee, before _open has loaded it. */
    constructor (server: Server<M>, bee: map<Bytes, Bytes>)
      ensures this.server == server && this.bee == bee && isOpen
    {
      this.server := server;
      this.bee := bee;
      this.isOpen := true;
    }

    /** This client and its Go process are the world w. */
    ghost predicate Is(w: World<M>)
      reads this, server, server.agent
    {
      isOpen && server.agent != null && bee == w.bee && server.Held() == w.go
    }

    /** session, when Go has built key for the scope: the Created and ScopeWritten steps. A listable session is
        listed before it has any history. */
    method Session(ghost w: World<M>, key: Bytes, scope: Bytes)
      returns (ghost actions: seq<Action<M>>, ghost u: World<M>)
      requires Is(w) && key !in w.ops
      modifies this`bee
      ensures IsRun(server.codec, server.agent.saved, w, actions, u) && Is(u) && u.ops == w.ops && key in u.known
      ensures actions == [Created(key, scope), ScopeWritten(key)]
      ensures bee == old(bee)[ScopeKey(key) := scope] && (Listable(key) ==> Listed(bee, key))
    {
      bee := bee[ScopeKey(key) := scope];
      ghost var codec, saved := server.codec, server.agent.saved;
      RunNone(codec, saved, w);
      RunSnoc(codec, saved, w, [], w, Created(key, scope));
      ghost var v := Do(codec, saved, w, Created(key, scope));
      RunSnoc(codec, saved, w, [] + [Created(key, scope)], v, ScopeWritten(key));
      actions := [Created(key, scope), ScopeWritten(key)];
      assert actions == [] + [Created(key, scope)] + [ScopeWritten(key)];
      u := Do(codec, saved, v, ScopeWritten(key));
      assert u.ops == w.ops;
      EntryReports(ScopeKey(key), key, key);
      CutWhole(key);
    }

    /** What a persist of the session does to the bee: its data entry becomes the session marshalled, which reads as
        that session; a session that does not marshal is an error and leaves the bee as it was. */
    ghost predicate Persists(session: Session<M>, key: Bytes, before: map<Bytes, Bytes>, r: Outcome<SessionStore.Error>)
      reads this
    {
      && (r.Pass? <==> Marshalled(server.codec, session).Some?)
      && (r.Pass? ==>
            && DataKey(key) in bee && bee == before[DataKey(key) := bee[DataKey(key)]]
            && Marshalled(server.codec, session) == Some(bee[DataKey(key)])
            && (RoundTrips(server.codec) ==> ReadsAs(server.codec, bee[DataKey(key)], session)))
      && (r.Fail? ==> r == Fail(BadSession(key)) && bee == before)
    }

    method PersistSession(key: Bytes) returns (r: Outcome<SessionStore.Error>)
      modifies this`bee
      ensures !isOpen ==> r == Pass && bee == old(bee)
      ensures isOpen && server.agent == null ==> r.Fail? && bee == old(bee)
      ensures isOpen && server.agent != null ==>
                var data := Marshalled(server.codec, server.Held().Get(key));
                if data.Some? then r == Pass && bee == old(bee)[DataKey(key) := data.value]
                else r.Fail? && bee == old(bee)
      ensures isOpen && server.agent != null ==> Persists(server.Held().Get(key), key, old(bee), r)
    {
      hide Marshalled, RoundTrips, ReadsAs;
      if !isOpen {
        return Pass;
      }
      var blob := server.SessionExport(key);
      if blob.Failure? {
        return Fail(blob.error);
      }
      bee := bee[DataKey(key) := blob.value.data];
      r := Pass;
      if server.agent != null && RoundTrips(server.codec) {
        MarshalledReads(server.codec, server.Held().Get(key));
      }
    }

    /** Persisting a settling key: the Exported and Written steps, or the Exported step that fails. */
    method Settle(ghost w: World<M>, ghost done: seq<Action<M>>, ghost v: World<M>, key: Bytes)
      returns (r: Outcome<SessionStore.Error>, ghost actions: seq<Action<M>>, ghost u: World<M>)
      requires Is(v) && key in v.ops && v.ops[key].Settling?
      requires IsRun(server.codec, server.agent.saved, w, done, v)
      modifies this`bee
      ensures IsRun(server.codec, server.agent.saved, w, actions, u) && Is(u) && u.ops == v.ops - {key}
      ensures r.Pass? ==> key !in u.dirty && key in u.known
      ensures u.go == v.go && Persists(v.go.Get(key), key, old(bee), r) && actions == done + Persisting(key, r)
    {
      hide IsRun, Marshalled, RoundTrips, ReadsAs;
      r := PersistSession(key);
      if r.Pass? {
        u := PersistRun(server.codec, server.agent.saved, w, done, v, key);
        actions := done + [Exported(key), Written(key)];
      } else {
        RunSnoc(server.codec, server.agent.saved, w, done, v, Exported(key));
        actions, u := done + [Exported(key)], Do(server.codec, server.agent.saved, v, Exported(key));
      }
    }

    /** The handler of a state-changed event: Go's session for the key is stored, or it does not marshal and nothing
        changes. */
    method OnStateChanged(ghost w: World<M>, key: Bytes)
      returns (r: Outcome<SessionStore.Error>, ghost actions: seq<Action<M>>, ghost u: World<M>)
      requires Is(w) && key !in w.ops
      modifies this`bee
      ensures IsRun(server.codec, server.agent.saved, w, actions, u) && Is(u) && u.ops == w.ops
      ensures r.Pass? ==> key !in u.dirty && key in u.known
      ensures actions == [StateChanged(key)] + Persisting(key, r)
      ensures server.Held() == old(server.Held()) && Persists(old(server.Held()).Get(key), key, old(bee), r)
    {
      ghost var codec, saved := server.codec, server.agent.saved;
      RunNone(codec, saved, w);
      RunSnoc(codec, saved, w, [], w, StateChanged(key));
      ghost var v := Do(codec, saved, w, StateChanged(key));
      assert [] + [Action<M>.StateChanged(key)] == [Action<M>.StateChanged(key)];
      r, actions, u := Settle(w, [StateChanged(key)], v, key);
      assert u.ops == w.ops;
    }

    /** chat, for a Go turn that writes these sessions, to the end of its stream and its finally block. */
    method Chat(ghost w: World<M>, key: Bytes, turn: seq<Session<M>>)
      returns (r: Outcome<SessionStore.Error>, ghost actions: seq<Action<M>>, ghost u: World<M>)
      requires Is(w) && key !in w.ops
      modifies this`bee, server.agent`sessions
      ensures IsRun(server.codec, server.agent.saved, w, actions, u) && Is(u) && u.ops == w.ops
      ensures r.Pass? ==> key !in u.dirty && key in u.known
      ensures actions == [ChatStarted(key)] + Writes(key, turn) + [TurnEnded(key)] + Persisting(key, r)
      ensures var session := if turn == [] then old(server.Held()).Get(key) else turn[|turn| - 1];
              && Persists(session, key, old(bee), r) && server.Held().saves == old(server.Held()).saves
              && server.Held().sessions == if turn == [] then old(server.Held()).sessions
                                           else old(server.Held()).sessions[key := session]
    {
      hide IsRun, Marshalled, RoundTrips, ReadsAs;
      ghost var codec, saved := server.codec, server.agent.saved;
      RunNone(codec, saved, w);
      RunSnoc(codec, saved, w, [], w, ChatStarted(key));
      actions, u := [] + [ChatStarted(key)], Do(codec, saved, w, ChatStarted(key));
      assert actions == [ChatStarted(key)] + Writes(key, turn[..0]);
      for i := 0 to |turn|
        invariant IsRun(codec, saved, w, actions, u) && Is(u) && u.ops == w.ops[key := Turning]
        invariant actions == [ChatStarted(key)] + Writes(key, turn[..i])
        invariant server.Held().saves == old(server.Held()).saves && bee == old(bee)
        invariant server.Held().sessions == if i == 0 then old(server.Held()).sessions
                                            else old(server.Held()).sessions[key := turn[i - 1]]
      {
        server.agent.sessions := server.agent.sessions[key := turn[i]];
        RunSnoc(codec, saved, w, actions, u, TurnWrote(key, turn[i]));
        actions, u := actions + [TurnWrote(key, turn[i])], Do(codec, saved, u, TurnWrote(key, turn[i]));
      }
      RunSnoc(codec, saved, w, actions, u, TurnEnded(key));
      actions, u := actions + [TurnEnded(key)], Do(codec, saved, u, TurnEnded(key));
      assert turn[..|turn|] == turn;
      r, actions, u := Settle(w, actions, u, key);
      assert u.ops == w.ops;
    }

    /** importSession: stored in the bee exactly when Go accepted it, and then the two agree. With a default agent
        it is the Imported step, and the Written step if Go accepts; without one it fails. */
    method ImportSession(ghost w: World<M>, key: Bytes, data: Bytes)
      returns (r: Outcome<SessionStore.Error>, ghost actions: seq<Action<M>>, ghost u: World<M>)
      requires key !in w.ops && (server.agent != null ==> Is(w))
      modifies this`bee, server.agent
      ensures bee == if r.Pass? then old(bee)[DataKey(key) := data] else old(bee)
      ensures r.Pass? ==> Unmarshalled(server.codec, bee[DataKey(key)]) == Some(server.Held().Get(key))
      ensures server.agent == null ==> r.Fail?
      ensures server.agent != null ==>
                Restores(server.codec, server.agent.saved, old(server.Held()), Blob(key, data), server.Held(), r)
      ensures server.agent != null ==>
                && (server.Held(), r) == Restored(server.codec, server.agent.saved, w.go, Blob(key, data))
                && IsRun(server.codec, server.agent.saved, w, actions, u) && Is(u) && u.ops == w.ops
                && actions == [Imported(key, data)] + if r.Pass? then [Written(key)] else []
    {
      hide IsRun;
      r := server.SessionImport(Blob(key, data));
      if r.Pass? {
        bee := bee[DataKey(key) := data];
      }
      actions, u := [], w;
      if server.agent != null {
        actions, u := ImportRun(server.codec, server.agent.saved, w, key, data);
      }
    }

    /** _close: every listed session is stored before Go goes away, or some session could not be exported. */
    method Close() returns (r: Outcome<SessionStore.Error>)
      modifies this
      ensures !old(isOpen) ==> r == Pass && bee == old(bee)
      ensures old(isOpen) && r.Pass? ==> IsFlush(server.codec, old(bee), server.Held(), bee)
      ensures isOpen <==> r.Fail?
      ensures old(isOpen) ==>
                (r.Fail? <==>
                 exists k :: Listed(old(bee), k)
                             && (server.agent == null || Marshalled(server.codec, server.Held().Get(k)).None?))
      ensures forall e | Changed(old(bee), e) :: exists k :: Listed(old(bee), k) && e == DataKey(k) && Stored(k)
    {
      hide Marshalled;
      if !isOpen {
        return Pass;
      }
      var keys := ListStoreKeys(bee);
      for i := 0 to |keys|
        invariant isOpen && (i > 0 ==> server.agent != null)
        invariant forall j | 0 <= j < i :: Stored(keys[j])
        invariant forall e | (forall j | 0 <= j < i :: e != DataKey(keys[j])) ::
                    (e in bee <==> e in old(bee)) && (e in bee ==> bee[e] == old(bee)[e])
      {
        forall j | 0 <= j < i ensures DataKey(keys[j]) != DataKey(keys[i]) {
          EntriesDistinct(keys[j], keys[i]);
        }
        r := PersistSession(keys[i]);
        if r.Fail? {
          assert keys[i] in keys;
          return;
        }
      }
      isOpen := false;
      r := Pass;
      assert forall k | Listed(old(bee), k) :: k in keys;
      forall j | 0 <= j < |keys| ensures Listed(old(bee), keys[j]) {
        assert keys[j] in keys;
      }
    }

    /** The bee's entry is not what it was. */
    ghost predicate Changed(before: map<Bytes, Bytes>, e: Bytes)
      reads this
    {
      !((e in bee <==> e in before) && (e in bee ==> bee[e] == before[e]))
    }

    /** The bee's data for key is Go's session marshalled. */
    ghost predicate Stored(key: Bytes)
      reads this, server, server.agent
    {
      DataKey(key) in bee && Some(bee[DataKey(key)]) == Marshalled(server.codec, server.Held().Get(key))
    }

    /** _loadFromStore: on success every Save succeeded and the data of every listed session is in Go's store,
        which is otherwise as it was. */
    method LoadFromStore() returns (r: Outcome<SessionStore.Error>)
      modifies server.agent
      ensures OnlyLoads(server.codec, bee, old(server.Held()), server.Held())
      ensures r.Pass? ==> IsLoad(server.codec, bee, old(server.Held()), server.Held())
      ensures server.agent == null ==> (r.Fail? <==> exists k :: Listed(bee, k) && HasData(bee, k))
      ensures server.agent != null ==>
                (r.Fail? <==>
                 || (exists k :: Listed(bee, k) && HasData(bee, k)
                                 && Unmarshalled(server.codec, bee[DataKey(k)]).None?)
                 || !AllSaved(server.agent.saved, old(server.Held()).saves, server.Held().saves))
    {
      hide Unmarshalled, Listed;
      var keys := ListStoreKeys(bee);
      r := Pass;
      ghost var codec, before := server.codec, server.Held();
      for i := 0 to |keys|
        invariant r == Pass && server.Held().saves >= before.saves
        invariant server.agent != null ==> AllSaved(server.agent.saved, before.saves, server.Held().saves)
        invariant Loads(codec, bee, keys[..i], before, server.Held())
        invariant forall j | 0 <= j < i && HasData(bee, keys[j]) ::
                    server.agent != null && Unmarshalled(codec, bee[DataKey(keys[j])]).Some?
      {
        ghost var mid := server.Held();
        assert keys[i] in keys;
        var entry := if DataKey(keys[i]) in bee then Some(bee[DataKey(keys[i])]) else None;
        if entry.Some? && |entry.value| > 0 {
          r := server.SessionImport(Blob(keys[i], entry.value));
          if r.Fail? {
            LoadsOnly(codec, bee, keys[..i], before, mid);
            if server.Held() != mid {
              LoadsSnoc(codec, bee, keys[..i], keys[i], before, mid, server.Held());
              LoadsOnly(codec, bee, keys[..i] + [keys[i]], before, server.Held());
            }
            return;
          }
        }
        LoadsSnoc(codec, bee, keys[..i], keys[i], before, mid, server.Held());
        assert keys[..i] + [keys[i]] == keys[..i + 1];
      }
      assert keys[..|keys|] == keys;
      LoadsListed(codec, bee, keys, before, server.Held());
      LoadsOnly(codec, bee, keys, before, server.Held());
    }
  }

  /** An import of an idle key: the Imported step, and the Written step if Go accepts it. */
  lemma ImportRun<M(!new)>(codec: Codec<M>, saved: nat -> bool, w: World<M>, key: Bytes, data: Bytes)
    returns (actions: seq<Action<M>>, u: World<M>)
    requires key !in w.ops
    ensures IsRun(codec, saved, w, actions, u) && u.ops == w.ops
    ensures actions == [Imported(key, data)] +
                       if Restored(codec, saved, w.go, Blob(key, data)).1.Pass? then [Written(key)] else []
    ensures var (go, r) := Restored(codec, saved, w.go, Blob(key, data));
            u.go == go && u.bee == if r.Pass? then w.bee[DataKey(key) := data] else w.bee
  {
    hide Unmarshalled, IsRun;
    var v := Do(codec, saved, w, Imported(key, data));
    RunNone(codec, saved, w);
    RunSnoc(codec, saved, w, [], w, Imported(key, data));
    actions, u := [] + [Imported(key, data)], v;
    if Restored(codec, saved, w.go, Blob(key, data)).1.Pass? {
      RunSnoc(codec, saved, w, actions, v, Written(key));
      actions, u := actions + [Written(key)], Do(codec, saved, v, Written(key));
      assert u.ops == w.ops;
    }
  }

  /** Close, then open a new instance over the same corestore with a Go process that starts from any store:
      every session that was listed is again what it was, and sessions() lists the same keys. Between two
      processes with a default agent it is a Restarted step; a process without one fails as soon as there is a
      session to export or import. */
  method Restart<M(!new, ==)>(ghost w: World<M>, a: Client<M>, server: Server<M>)
    returns (r: Outcome<SessionStore.Error>, b: Client<M>, ghost u: World<M>)
    requires a.isOpen && a.bee == w.bee && a.server.Held() == w.go && forall key | key in w.ops :: !w.ops[key].Turning?
    requires (a.server.agent == null && server.agent == null) || a.server.agent != server.agent
    requires server.codec == a.server.codec && RoundTrips(server.codec) && server.codec.decodeDump([]).None?
    modifies a, server.agent
    ensures r.Pass? ==>
              && b.server == server && b.isOpen && b.bee == u.bee && server.Held() == u.go && u.ops == map[]
              && (forall k | Listed(w.bee, k) :: u.go.Get(k) == w.go.Get(k))
              && (forall k | !Listed(w.bee, k) :: SameAt(u.go.sessions, old(server.Held()).sessions, k))
              && forall k :: Listed(u.bee, k) <==> Listed(w.bee, k)
    ensures r.Pass? && server.agent != null ==>
              IsRun(server.codec, server.agent.saved, w, [Restarted(u.bee, old(server.Held()), u.go)], u)
    ensures r.Fail? ==>
              || (exists k :: Listed(w.bee, k)
                              && (a.server.agent == null || server.agent == null
                                  || Marshalled(server.codec, w.go.Get(k)).None?))
              || (server.agent != null && !AllSaved(server.agent.saved, old(server.Held()).saves, server.Held().saves))
  {
    hide RoundTrips, Marshalled, Unmarshalled, Listed;
    ghost var leftover, codec := server.Held(), server.codec;
    b, u := a, w;
    r := a.Close();
    if r.Fail? {
      return;
    }
    b := new Client(server, a.bee);
    FlushKeepsListing(codec, w.bee, w.go, b.bee);
    forall k | Listed(w.bee, k) ensures Unmarshalled(codec, b.bee[DataKey(k)]) == Some(w.go.Get(k)) {
      SessionRoundTrip(codec, w.go.Get(k));
    }
    r := b.LoadFromStore();
    if r.Pass? {
      ghost var restarted := Restarted(b.bee, leftover, server.Held());
      ghost var saved: nat -> bool := if server.agent == null then k => true else server.agent.saved;
      RestartKeeps(codec, w.bee, w.go, b.bee, leftover, server.Held());
      RunNone(codec, saved, w);
      RunSnoc(codec, saved, w, [], w, restarted);
      assert [] + [restarted] == [restarted];
      u := Do(codec, saved, w, restarted);
    }
  }
}

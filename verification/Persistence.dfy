/** index.js: the bee and the Go session store kept in step by session, chat, importSession, close and reopen.
    Every await is a step of its own, so operations on different keys interleave freely. Go's store changes
    only through turns and imports. */
module Persistence {
  import opened Wrappers
  import opened Wire
  import opened Bee
  import opened SessionStore

  // ----- the operations as a state machine -----

  /** Where the one outstanding operation on a key stands. */
  datatype Phase =
    | Creating(scope: Bytes)    // session: Go returned the key, the scope entry is not flushed
    | Turning                   // chat: the Go turn runs
    | Settling                  // chat's finally block, or a state-changed event: about to export
    | Storing(data: Bytes)      // the blob is exported or imported, the data entry is not flushed

  datatype World<M> = World(
    bee: map<Bytes, Bytes>,
    go: Store<M>,
    ops: map<Bytes, Phase>,
    dirty: set<Bytes>,    // keys whose last operation failed, or that the last reopen could not find
    known: set<Bytes>)    // keys that have been stored

  datatype Action<M> =
    | Created(key: Bytes, scope: Bytes)
    | ScopeWritten(key: Bytes)
    | ChatStarted(key: Bytes)
    | TurnWrote(key: Bytes, session: Session<M>)
    | TurnEnded(key: Bytes)
    | StateChanged(key: Bytes)
    | Exported(key: Bytes)
    | Imported(key: Bytes, data: Bytes)
    | Written(key: Bytes)
    | Restarted(bee: map<Bytes, Bytes>, leftover: Store<M>, go: Store<M>)    // pending operations fail

  ghost predicate Enabled<M>(codec: Codec<M>, w: World<M>, a: Action<M>) {
    match a
    case Created(key, _) => key !in w.ops
    case ScopeWritten(key) => key in w.ops && w.ops[key].Creating?
    case ChatStarted(key) => key !in w.ops
    case TurnWrote(key, _) => key in w.ops && w.ops[key].Turning?
    case TurnEnded(key) => key in w.ops && w.ops[key].Turning?
    case StateChanged(key) => key !in w.ops
    case Exported(key) => key in w.ops && w.ops[key].Settling?
    case Imported(key, _) => key !in w.ops
    case Written(key) => key in w.ops && w.ops[key].Storing?
    case Restarted(bee, leftover, go) =>
      && (forall key | key in w.ops :: !w.ops[key].Turning?)
      && IsFlush(codec, w.bee, w.go, bee) && IsLoad(codec, bee, leftover, go)
  }

  ghost function Do<M>(codec: Codec<M>, saved: nat -> bool, w: World<M>, a: Action<M>): World<M>
    requires Enabled(codec, w, a)
  {
    match a
    case Created(key, scope) => w.(ops := w.ops[key := Creating(scope)])
    case ScopeWritten(key) =>
      w.(bee := w.bee[ScopeKey(key) := w.ops[key].scope], ops := w.ops - {key}, known := w.known + {key})
    case ChatStarted(key) => w.(ops := w.ops[key := Turning])
    case TurnWrote(key, session) => w.(go := w.go.(sessions := w.go.sessions[key := session]))
    case TurnEnded(key) => w.(ops := w.ops[key := Settling])
    case StateChanged(key) => w.(ops := w.ops[key := Settling])
    case Exported(key) =>
      var data := Marshalled(codec, w.go.Get(key));
      if data.Some? then w.(ops := w.ops[key := Storing(data.value)])
      else w.(ops := w.ops - {key}, dirty := w.dirty + {key})
    case Imported(key, data) =>
      var (go, r) := Restored(codec, saved, w.go, Blob(key, data));
      if r.Pass? then w.(go := go, ops := w.ops[key := Storing(data)])
      else if r.error.BadSession? then w
      else w.(go := go, dirty := w.dirty + {key})
    case Written(key) =>
      w.(bee := w.bee[DataKey(key) := w.ops[key].data], ops := w.ops - {key},
         dirty := w.dirty - {key}, known := w.known + {key})
    case Restarted(bee, _, go) =>
      var listed := ListedKeys(w.bee);
      World(bee, go, map[], w.known - listed, w.known + listed)
  }

  // ----- close and reopen -----

  function ListedKeys(bee: map<Bytes, Bytes>): (keys: set<Bytes>)
    ensures forall k :: k in keys <==> Listed(bee, k)
  {
    var keys := set e | e in bee && PREFIX <= e && Less(e[|PREFIX|..], BOUND)
        && Cut(e[|PREFIX|..]) != [] :: Cut(e[|PREFIX|..]);
    assert forall e, k | e in bee && k != [] && Reports(e, k) :: k in keys;
    keys
  }

  /** after is before with the session of every listed key stored. */
  ghost predicate IsFlush<M>(codec: Codec<M>, before: map<Bytes, Bytes>, go: Store<M>, after: map<Bytes, Bytes>) {
    && (forall k | Listed(before, k) ::
          DataKey(k) in after && Some(after[DataKey(k)]) == Marshalled(codec, go.Get(k)))
    && forall e | (forall k | Listed(before, k) :: e != DataKey(k)) ::
         (e in after <==> e in before) && (e in after ==> after[e] == before[e])
  }

  predicate HasData(bee: map<Bytes, Bytes>, k: Bytes) {
    DataKey(k) in bee && bee[DataKey(k)] != []
  }

  /** after has k's data imported if listed and there is any, and otherwise agrees with before at k. */
  ghost predicate Loaded<M>(codec: Codec<M>, bee: map<Bytes, Bytes>, listed: bool, before: Store<M>, after: Store<M>,
                            k: Bytes) {
    if listed && HasData(bee, k) then
      k in after.sessions && Some(after.sessions[k]) == Unmarshalled(codec, bee[DataKey(k)])
    else SameAt(after.sessions, before.sessions, k)
  }

  /** after is before with the data of every listed key imported. */
  ghost predicate IsLoad<M>(codec: Codec<M>, bee: map<Bytes, Bytes>, before: Store<M>, after: Store<M>) {
    forall k :: Loaded(codec, bee, Listed(bee, k), before, after, k)
  }

  lemma FlushKeepsListing<M>(codec: Codec<M>, before: map<Bytes, Bytes>, go: Store<M>, after: map<Bytes, Bytes>)
    requires IsFlush(codec, before, go, after)
    ensures forall k :: Listed(after, k) <==> Listed(before, k)
  {
    hide Marshalled;
    forall k ensures Listed(after, k) <==> Listed(before, k) {
      if Listed(before, k) {
        ListingStable(before, k, []);
        assert Listed(before[DataKey(k) := []], k);
        EntryReports(DataKey(k), k, k);
        var e :| e in before && Reports(e, k);
        LessCut(e[|PREFIX|..]);
        CutWhole(k);
        assert Reports(DataKey(k), k);
      }
      if Listed(after, k) {
        var e :| e in after && Reports(e, k);
        if q :| Listed(before, q) && e == DataKey(q) {
          EntryReports(e, q, k);
          CutWhole(q);
          var p :| p in before && Reports(p, q);
        }
      }
    }
  }

  /** Closing and reopening, into a Go process that starts from any store: every listed session is what it
      was, and every session that is not listed is whatever the new process started with. */
  lemma RestartKeeps<M(!new)>(codec: Codec<M>, bee: map<Bytes, Bytes>, go: Store<M>,
                              flushed: map<Bytes, Bytes>, leftover: Store<M>, restored: Store<M>)
    requires RoundTrips(codec) && codec.decodeDump([]).None?
    requires IsFlush(codec, bee, go, flushed) && IsLoad(codec, flushed, leftover, restored)
    ensures forall k | Listed(bee, k) :: restored.Get(k) == go.Get(k)
    ensures forall k | Listed(bee, k) :: Unmarshalled(codec, flushed[DataKey(k)]) == Some(go.Get(k))
    ensures forall k | !Listed(bee, k) :: SameAt(restored.sessions, leftover.sessions, k)
  {
    hide RoundTrips, Marshalled;
    FlushKeepsListing(codec, bee, go, flushed);
    forall k | Listed(bee, k)
      ensures restored.Get(k) == go.Get(k) && Unmarshalled(codec, flushed[DataKey(k)]) == Some(go.Get(k))
    {
      SessionRoundTrip(codec, go.Get(k));
      assert HasData(flushed, k);
    }
  }

  // ----- what every step keeps -----

  ghost predicate Agrees<M>(codec: Codec<M>, w: World<M>, k: Bytes) {
    DataKey(k) in w.bee ==> Unmarshalled(codec, w.bee[DataKey(k)]) == Some(w.go.Get(k))
  }

  ghost predicate KeyOk<M>(codec: Codec<M>, w: World<M>, k: Bytes) {
    if k in w.ops && w.ops[k].Storing? then Unmarshalled(codec, w.ops[k].data) == Some(w.go.Get(k))
    else (k !in w.ops || w.ops[k].Creating?) && k !in w.dirty ==> Agrees(codec, w, k)
  }

  ghost predicate Inv<M>(codec: Codec<M>, w: World<M>) {
    HoldsSessions(w.bee, w.known) && forall k :: KeyOk(codec, w, k)
  }

  /** An empty bee and any Go store. */
  ghost function Init<M>(go: Store<M>): World<M> {
    World(map[], go, map[], {}, {})
  }

  lemma StoredStays(bee: map<Bytes, Bytes>, known: set<Bytes>, q: Bytes, e: Bytes, data: Bytes)
    requires HoldsSessions(bee, known) && (e == ScopeKey(q) || e == DataKey(q))
    ensures HoldsSessions(bee[e := data], known + {q})
  {
    var after := bee[e := data];
    forall f | f in after
      ensures exists p :: p in known + {q} && (f == ScopeKey(p) || f == DataKey(p))
    {
      if f in bee {
        var p :| p in known && (f == ScopeKey(p) || f == DataKey(p));
        assert p in known + {q};
      } else {
        assert q in known + {q};
      }
    }
  }

  /** Steps that touch the bee or Go's store at one key leave the other keys as they were. */
  lemma OtherKeys<M>(codec: Codec<M>, w: World<M>, u: World<M>, key: Bytes, k: Bytes)
    requires KeyOk(codec, w, k) && k != key
    requires k in u.ops <==> k in w.ops
    requires k in w.ops ==> u.ops[k] == w.ops[k]
    requires k in u.dirty <==> k in w.dirty
    requires SameAt(u.go.sessions, w.go.sessions, k)
    requires forall e | e != ScopeKey(key) && e != DataKey(key) ::
               (e in u.bee <==> e in w.bee) && (e in u.bee ==> u.bee[e] == w.bee[e])
    ensures KeyOk(codec, u, k)
  {
    hide Unmarshalled;
    EntriesDistinct(k, key);
    EntriesDistinct(key, k);
  }

  lemma LocalKeepsInv<M(!new)>(codec: Codec<M>, saved: nat -> bool, w: World<M>, a: Action<M>)
    requires RoundTrips(codec) && Inv(codec, w) && Enabled(codec, w, a) && !a.Restarted?
    ensures Inv(codec, Do(codec, saved, w, a))
  {
    hide RoundTrips, Unmarshalled, Marshalled, HoldsSessions;
    var u := Do(codec, saved, w, a);
    var key := a.key;
    EntriesDistinct(key, key);
    if a.ScopeWritten? {
      StoredStays(w.bee, w.known, key, ScopeKey(key), w.ops[key].scope);
    }
    if a.Written? {
      StoredStays(w.bee, w.known, key, DataKey(key), w.ops[key].data);
    }
    forall k ensures KeyOk(codec, u, k) {
      assert KeyOk(codec, w, k);
      if k != key {
        OtherKeys(codec, w, u, key, k);
      } else if a.Exported? && Marshalled(codec, w.go.Get(key)).Some? {
        SessionRoundTrip(codec, w.go.Get(key));
      }
    }
  }

  lemma RestartKeepsInv<M(!new)>(codec: Codec<M>, saved: nat -> bool, w: World<M>, a: Action<M>)
    requires RoundTrips(codec) && codec.decodeDump([]).None?
    requires Inv(codec, w) && Enabled(codec, w, a) && a.Restarted?
    ensures Inv(codec, Do(codec, saved, w, a))
  {
    hide RoundTrips, Unmarshalled, Marshalled, Listed;
    var u := Do(codec, saved, w, a);
    RestartKeeps(codec, w.bee, w.go, a.bee, a.leftover, a.go);
    FlushHoldsSessions(codec, w.bee, w.known, w.go, a.bee);
    forall k ensures KeyOk(codec, u, k) {
      if DataKey(k) in u.bee {
        EntryIsKnown(u.bee, u.known, k);
      }
    }
  }

  lemma EntryIsKnown(bee: map<Bytes, Bytes>, known: set<Bytes>, k: Bytes)
    requires HoldsSessions(bee, known) && DataKey(k) in bee
    ensures k in known
  {
    var q :| q in known && (DataKey(k) == ScopeKey(q) || DataKey(k) == DataKey(q));
    EntriesDistinct(q, k);
  }

  lemma FlushHoldsSessions<M>(codec: Codec<M>, bee: map<Bytes, Bytes>, known: set<Bytes>, go: Store<M>,
                              flushed: map<Bytes, Bytes>)
    requires HoldsSessions(bee, known) && IsFlush(codec, bee, go, flushed)
    ensures HoldsSessions(flushed, known + ListedKeys(bee))
  {
    hide Marshalled, Listed, ScopeKey, DataKey;
    var all := known + ListedKeys(bee);
    forall e | e in flushed ensures exists q :: q in all && (e == ScopeKey(q) || e == DataKey(q)) {
      if k :| Listed(bee, k) && e == DataKey(k) {
        assert k in all;
      } else {
        var q :| q in known && (e == ScopeKey(q) || e == DataKey(q));
        assert q in all;
      }
    }
    forall q | q in all ensures ScopeKey(q) in flushed || DataKey(q) in flushed {
      if !Listed(bee, q) {
        forall k ensures ScopeKey(q) != DataKey(k) && (DataKey(q) == DataKey(k) ==> q == k) {
          EntriesDistinct(q, k);
        }
      }
    }
  }

  ghost predicate IsRun<M>(codec: Codec<M>, saved: nat -> bool, w: World<M>, actions: seq<Action<M>>, u: World<M>)
    decreases |actions|
  {
    if actions == [] then w == u
    else Enabled(codec, w, actions[0]) && IsRun(codec, saved, Do(codec, saved, w, actions[0]), actions[1..], u)
  }

  lemma {:induction false} RunKeepsInv<M(!new)>(codec: Codec<M>, saved: nat -> bool, w: World<M>,
                                                actions: seq<Action<M>>, u: World<M>)
    requires RoundTrips(codec) && codec.decodeDump([]).None?
    requires Inv(codec, w) && IsRun(codec, saved, w, actions, u)
    ensures Inv(codec, u)
    decreases |actions|
  {
    hide RoundTrips, Inv, Do, Enabled;
    if actions != [] {
      if actions[0].Restarted? {
        RestartKeepsInv(codec, saved, w, actions[0]);
      } else {
        LocalKeepsInv(codec, saved, w, actions[0]);
      }
      RunKeepsInv(codec, saved, Do(codec, saved, w, actions[0]), actions[1..], u);
    }
  }

  /** After any run, whenever no operation on k is outstanding, its last one did not fail, and the bee has data
      for k, that data unmarshals to exactly what Go holds for k. */
  lemma BeeAgreesWithGo<M(!new)>(codec: Codec<M>, saved: nat -> bool, go: Store<M>,
                                 actions: seq<Action<M>>, w: World<M>, k: Bytes)
    requires RoundTrips(codec) && codec.decodeDump([]).None?
    requires IsRun(codec, saved, Init(go), actions, w)
    requires k !in w.ops && k !in w.dirty && DataKey(k) in w.bee
    ensures Unmarshalled(codec, w.bee[DataKey(k)]) == Some(w.go.Get(k))
  {
    hide RoundTrips, Unmarshalled, IsRun;
    RunKeepsInv(codec, saved, Init(go), actions, w);
    assert KeyOk(codec, w, k);
  }

  /** After any run, sessions() reports the first segments of the stored keys below the bound; it reports
      exactly the stored keys if and only if each of them is non-empty, slash-free and below the bound. */
  lemma SessionsAreListed<M(!new)>(codec: Codec<M>, saved: nat -> bool, go: Store<M>, actions: seq<Action<M>>,
                            w: World<M>)
    requires RoundTrips(codec) && codec.decodeDump([]).None?
    requires IsRun(codec, saved, Init(go), actions, w)
    ensures (forall k :: Listed(w.bee, k) <==> k in w.known) <==> forall q | q in w.known :: Listable(q)
    ensures forall k :: Listed(w.bee, k) <==> k != [] && exists q :: q in w.known && Less(q, BOUND) && Cut(q) == k
  {
    hide RoundTrips, IsRun;
    RunKeepsInv(codec, saved, Init(go), actions, w);
    ListsExactly(w.bee, w.known);
    forall k ensures Listed(w.bee, k) <==> k != [] && exists q :: q in w.known && Less(q, BOUND) && Cut(q) == k {
      ListedIsCut(w.bee, w.known, k);
    }
  }

  lemma {:induction false} KnownGrows<M>(codec: Codec<M>, saved: nat -> bool, w: World<M>, actions: seq<Action<M>>,
                                         u: World<M>)
    requires IsRun(codec, saved, w, actions, u)
    ensures w.known <= u.known
    decreases |actions|
  {
    hide Enabled;
    if actions != [] {
      KnownGrows(codec, saved, Do(codec, saved, w, actions[0]), actions[1..], u);
    }
  }

  /** The only ways to get out of step: a session that does not marshal, a failed Save, or a key the scan
      cannot find. Without them no key is ever dirty. */
  lemma {:induction false} NothingDirty<M(!new)>(codec: Codec<M>, saved: nat -> bool, w: World<M>,
                                                 actions: seq<Action<M>>, u: World<M>)
    requires RoundTrips(codec) && codec.decodeDump([]).None?
    requires Inv(codec, w) && IsRun(codec, saved, w, actions, u) && w.dirty == {}
    requires forall session :: Marshalled(codec, session).Some?
    requires forall k :: saved(k)
    requires forall q | q in u.known :: Listable(q)
    ensures u.dirty == {}
    decreases |actions|
  {
    if actions != [] {
      hide RoundTrips, Inv, Marshalled, IsFlush, IsLoad;
      var a, next := actions[0], Do(codec, saved, w, actions[0]);
      KnownGrows(codec, saved, next, actions[1..], u);
      if a.Restarted? {
        RestartKeepsInv(codec, saved, w, a);
        forall q | q in w.known ensures q in ListedKeys(w.bee) {
          InvHolds(codec, w);
          assert q in next.known;
          CutWhole(q);
          ListedIsCut(w.bee, w.known, q);
        }
      } else {
        LocalKeepsInv(codec, saved, w, a);
      }
      NothingDirty(codec, saved, next, actions[1..], u);
    }
  }

  lemma InvHolds<M>(codec: Codec<M>, w: World<M>)
    requires Inv(codec, w)
    ensures HoldsSessions(w.bee, w.known)
  {
  }

  // ----- the keys that are out of step -----

  /** An import that Go stores and cannot save is not written to the bee: the key is in step afterwards exactly
      when the bee has no data for it, or data of the very session that was imported. */
  lemma FailedSave<M(!new)>(codec: Codec<M>, saved: nat -> bool, w: World<M>, key: Bytes, data: Bytes)
    requires Enabled(codec, w, Imported(key, data))
    requires var r := Restored(codec, saved, w.go, Blob(key, data)).1; r.Fail? && !r.error.BadSession?
    ensures var u := Do(codec, saved, w, Imported(key, data));
            && u.bee == w.bee && Unmarshalled(codec, data) == Some(u.go.Get(key)) && key in u.dirty
            && (Agrees(codec, u, key) <==>
                DataKey(key) in w.bee ==> Unmarshalled(codec, w.bee[DataKey(key)]) == Unmarshalled(codec, data))
  {
  }

  /** A step of another key's operation. */
  predicate LeavesAlone<M>(a: Action<M>, key: Bytes) {
    !a.Restarted? && a.key != key
  }

  lemma StepLeavesAlone<M(!new)>(codec: Codec<M>, saved: nat -> bool, w: World<M>, a: Action<M>, key: Bytes)
    requires Enabled(codec, w, a) && LeavesAlone(a, key)
    ensures SameData(w, Do(codec, saved, w, a), key)
  {
    hide Marshalled, Unmarshalled;
    EntriesDistinct(key, a.key);
    EntriesDistinct(a.key, key);
  }

  /** The bee's data for the key, and Go's session, are the same in both worlds. */
  ghost predicate SameData<M>(w: World<M>, u: World<M>, key: Bytes) {
    && u.go.Get(key) == w.go.Get(key) && (DataKey(key) in u.bee <==> DataKey(key) in w.bee)
    && (DataKey(key) in w.bee ==> u.bee[DataKey(key)] == w.bee[DataKey(key)])
  }

  lemma {:induction false} RunLeavesAlone<M(!new)>(codec: Codec<M>, saved: nat -> bool, w: World<M>,
                                                   actions: seq<Action<M>>, u: World<M>, key: Bytes)
    requires IsRun(codec, saved, w, actions, u) && forall k | 0 <= k < |actions| :: LeavesAlone(actions[k], key)
    ensures SameData(w, u, key)
    decreases |actions|
  {
    hide Enabled, Do;
    if actions != [] {
      StepLeavesAlone(codec, saved, w, actions[0], key);
      RunLeavesAlone(codec, saved, Do(codec, saved, w, actions[0]), actions[1..], u, key);
    }
  }

  /** For a key that any run has left in step and with data, that is when Go already held the session imported;
      and so it stays, in step or not, until the next operation on the key or a restart. */
  lemma FailedSaveLasts<M(!new)>(codec: Codec<M>, saved: nat -> bool, go: Store<M>, before: seq<Action<M>>, w: World<M>,
                                 key: Bytes, data: Bytes, later: seq<Action<M>>, u: World<M>)
    requires RoundTrips(codec) && codec.decodeDump([]).None?
    requires IsRun(codec, saved, Init(go), before, w)
    requires key !in w.ops && key !in w.dirty && DataKey(key) in w.bee
    requires var r := Restored(codec, saved, w.go, Blob(key, data)).1; r.Fail? && !r.error.BadSession?
    requires IsRun(codec, saved, Do(codec, saved, w, Imported(key, data)), later, u)
    requires forall k | 0 <= k < |later| :: LeavesAlone(later[k], key)
    ensures Agrees(codec, u, key) <==> Unmarshalled(codec, data) == Some(w.go.Get(key))
  {
    BeeAgreesWithGo(codec, saved, go, before, w, key);
    FailedSave(codec, saved, w, key, data);
    hide RoundTrips, Unmarshalled, IsRun;
    RunLeavesAlone(codec, saved, Do(codec, saved, w, Imported(key, data)), later, u, key);
  }

  /** A chat whose session does not marshal leaves the bee's data as it was: from then until the next operation on
      the key or a restart, the key is in step exactly when that data is the session Go could not marshal. */
  lemma FailedExport<M(!new)>(codec: Codec<M>, saved: nat -> bool, w: World<M>, key: Bytes,
                              later: seq<Action<M>>, u: World<M>)
    requires Enabled(codec, w, Exported(key)) && Marshalled(codec, w.go.Get(key)).None?
    requires IsRun(codec, saved, Do(codec, saved, w, Exported(key)), later, u)
    requires forall k | 0 <= k < |later| :: LeavesAlone(later[k], key)
    ensures key in Do(codec, saved, w, Exported(key)).dirty
    ensures u.go.Get(key) == w.go.Get(key)
    ensures Agrees(codec, u, key) <==>
            DataKey(key) in w.bee ==> Unmarshalled(codec, w.bee[DataKey(key)]) == Some(w.go.Get(key))
  {
    hide IsRun, Marshalled, Unmarshalled;
    RunLeavesAlone(codec, saved, Do(codec, saved, w, Exported(key)), later, u, key);
  }

  /** A key that the listing does not report is neither flushed nor loaded: after a restart it is in step exactly
      when the bee has no data for it, or data of the session that the new Go process happens to start with. */
  lemma UnlistedAfterRestart<M(!new)>(codec: Codec<M>, saved: nat -> bool, w: World<M>, a: Action<M>, key: Bytes)
    requires a.Restarted? && Enabled(codec, w, a) && !Listed(w.bee, key)
    ensures var u := Do(codec, saved, w, a);
            && u.go.Get(key) == a.leftover.Get(key)
            && (Agrees(codec, u, key) <==>
                DataKey(key) in w.bee ==> Unmarshalled(codec, w.bee[DataKey(key)]) == Some(a.leftover.Get(key)))
  {
    hide Marshalled, Unmarshalled, Listed;
    var u := Do(codec, saved, w, a);
    FlushKeepsListing(codec, w.bee, w.go, a.bee);
    forall k | Listed(w.bee, k) ensures DataKey(key) != DataKey(k) {
      EntriesDistinct(key, k);
    }
    assert Loaded(codec, a.bee, Listed(a.bee, key), a.leftover, a.go, key);
  }

  lemma RunNone<M>(codec: Codec<M>, saved: nat -> bool, w: World<M>)
    ensures IsRun(codec, saved, w, [], w)
  {
  }

  lemma RunCons<M>(codec: Codec<M>, saved: nat -> bool, w: World<M>, actions: seq<Action<M>>, u: World<M>)
    requires actions != [] && Enabled(codec, w, actions[0])
    requires IsRun(codec, saved, Do(codec, saved, w, actions[0]), actions[1..], u)
    ensures IsRun(codec, saved, w, actions, u)
  {
  }

  /** Two imports of different sessions, the second of which cannot be saved: the bee keeps the first, Go has
      the second. */
  lemma FailedSaveDiverges<M(!new)>(codec: Codec<M>, saved: nat -> bool, key: Bytes, a: Session<M>, b: Session<M>)
    returns (actions: seq<Action<M>>, w: World<M>)
    requires RoundTrips(codec) && a != b && Marshalled(codec, a).Some? && Marshalled(codec, b).Some?
    requires saved(0) && !saved(1)
    ensures IsRun(codec, saved, Init(Store(map[], 0)), actions, w) && key !in w.ops && DataKey(key) in w.bee
    ensures w.go.Get(key) == b && Unmarshalled(codec, w.bee[DataKey(key)]) == Some(a)
  {
    SessionRoundTrip(codec, a);
    SessionRoundTrip(codec, b);
    hide RoundTrips, Marshalled, Unmarshalled, IsRun;
    var first, second := Marshalled(codec, a).value, Marshalled(codec, b).value;
    actions := [Imported(key, first), Written(key), Imported(key, second)];
    var w0 := Init<M>(Store(map[], 0));
    var w1 := Do(codec, saved, w0, actions[0]);
    var w2 := Do(codec, saved, w1, actions[1]);
    w := Do(codec, saved, w2, actions[2]);
    RunNone(codec, saved, w);
    RunCons(codec, saved, w2, actions[2..], w);
    RunCons(codec, saved, w1, actions[1..], w);
    RunCons(codec, saved, w0, actions, w);
  }

  lemma {:induction false} RunAppend<M>(codec: Codec<M>, saved: nat -> bool, w: World<M>, first: seq<Action<M>>,
                                        v: World<M>, second: seq<Action<M>>, u: World<M>)
    requires IsRun(codec, saved, w, first, v) && IsRun(codec, saved, v, second, u)
    ensures IsRun(codec, saved, w, first + second, u)
    decreases |first|
  {
    hide Enabled, Do;
    if first == [] {
      assert first + second == second;
    } else {
      RunAppend(codec, saved, Do(codec, saved, w, first[0]), first[1..], v, second, u);
      assert (first + second)[1..] == first[1..] + second;
    }
  }

  lemma RunSnoc<M>(codec: Codec<M>, saved: nat -> bool, w: World<M>, actions: seq<Action<M>>, v: World<M>, a: Action<M>)
    requires IsRun(codec, saved, w, actions, v) && Enabled(codec, v, a)
    ensures IsRun(codec, saved, w, actions + [a], Do(codec, saved, v, a))
  {
    hide Enabled, Do;
    assert [a][1..] == [];
    assert IsRun(codec, saved, v, [a], Do(codec, saved, v, a));
    RunAppend(codec, saved, w, actions, v, [a], Do(codec, saved, v, a));
  }

  /** One persist of a settling key, when the session marshals. */
  lemma PersistRun<M>(codec: Codec<M>, saved: nat -> bool, w: World<M>, actions: seq<Action<M>>, v: World<M>,
                      key: Bytes)
    returns (u: World<M>)
    requires IsRun(codec, saved, w, actions, v) && key in v.ops && v.ops[key].Settling?
    requires Marshalled(codec, v.go.Get(key)).Some?
    ensures IsRun(codec, saved, w, actions + [Exported(key), Written(key)], u)
    ensures u == World(v.bee[DataKey(key) := Marshalled(codec, v.go.Get(key)).value], v.go, v.ops - {key},
                       v.dirty - {key}, v.known + {key})
  {
    hide IsRun, Marshalled;
    var x := Do(codec, saved, v, Exported(key));
    RunSnoc(codec, saved, w, actions, v, Exported(key));
    RunSnoc(codec, saved, w, actions + [Exported(key)], x, Written(key));
    assert actions + [Exported(key)] + [Written(key)] == actions + [Exported(key), Written(key)];
    u := Do(codec, saved, x, Written(key));
    assert x.ops - {key} == v.ops - {key};
  }

  /** A chat under a key that begins with a slash is stored, not found by the close or the reopen, and gone from
      Go afterwards. */
  lemma UnlistedDiverges<M(!new)>(codec: Codec<M>, saved: nat -> bool, key: Bytes, a: Session<M>)
    returns (actions: seq<Action<M>>, w: World<M>)
    requires RoundTrips(codec) && Marshalled(codec, a).Some? && a != Session([], [])
    requires key != [] && key[0] == SLASH
    ensures IsRun(codec, saved, Init(Store(map[], 0)), actions, w) && key !in w.ops && DataKey(key) in w.bee
    ensures w.go.Get(key) == Session([], []) && Unmarshalled(codec, w.bee[DataKey(key)]) == Some(a)
  {
    SessionRoundTrip(codec, a);
    hide RoundTrips, Marshalled, Unmarshalled, IsRun;
    var empty: Store<M> := Store(map[], 0);
    var chat := [ChatStarted(key), TurnWrote(key, a), TurnEnded(key)];
    var w0 := Init(empty);
    var w1 := Do(codec, saved, w0, chat[0]);
    var w2 := Do(codec, saved, w1, chat[1]);
    var w3 := Do(codec, saved, w2, chat[2]);
    RunNone(codec, saved, w3);
    RunCons(codec, saved, w2, chat[2..], w3);
    RunCons(codec, saved, w1, chat[1..], w3);
    RunCons(codec, saved, w0, chat, w3);
    var w4 := PersistRun(codec, saved, w0, chat, w3, key);
    w := UnlistedRestart(codec, saved, w4, key, empty);
    RunSnoc(codec, saved, w0, chat + [Exported(key), Written(key)], w4, Restarted(w4.bee, empty, empty));
    actions := chat + [Exported(key), Written(key)] + [Restarted(w4.bee, empty, empty)];
  }

  lemma UnlistedRestart<M>(codec: Codec<M>, saved: nat -> bool, w: World<M>, key: Bytes, leftover: Store<M>)
    returns (u: World<M>)
    requires w.ops == map[] && key != [] && key[0] == SLASH && w.bee.Keys == {DataKey(key)}
    ensures Enabled(codec, w, Restarted(w.bee, leftover, leftover))
    ensures u == Do(codec, saved, w, Restarted(w.bee, leftover, leftover))
    ensures u.bee == w.bee && u.go == leftover && u.ops == map[]
  {
    hide Marshalled, Unmarshalled;
    assert w.bee == map[DataKey(key) := w.bee[DataKey(key)]];
    NothingListed(key, w.bee[DataKey(key)]);
    u := Do(codec, saved, w, Restarted(w.bee, leftover, leftover));
  }

  lemma NothingListed(key: Bytes, data: Bytes)
    requires key != [] && key[0] == SLASH
    ensures forall k :: !Listed(map[DataKey(key) := data], k)
  {
    forall k ensures !Listed(map[DataKey(key) := data], k) {
      EntryReports(DataKey(key), key, k);
    }
  }
}

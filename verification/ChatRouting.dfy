/** Which stream an update reaches: the registry of go/pkg/server/stream.go over runs of concurrent chats, and
    what a wrapped counter does to it. */
module ChatRouting {
  import opened ChatStreams
  import opened Decimals
  import opened Wrappers
  import Wire

  // ----- the registry, step by step -----

  /** No registered chat has chat j's number. */
  ghost predicate NumberFree(w: World, j: nat)
    requires j < |w.chats|
  {
    forall i | 0 <= i < |w.chats| && Registered(w.chats[i]) :: w.chats[i].number != w.chats[j].number
  }

  /** Registering keeps the registry exact if and only if no chat that is still registered has the same number:
      otherwise the older chat loses its entry to the newer. */
  lemma RegisterExactness(w: World, j: nat)
    requires Exact(w) && Enabled(w, Register(j))
    ensures Exact(Do(w, Register(j))) <==> NumberFree(w, j)
  {
    hide ChatId, Key;
    var u, n := Do(w, Register(j)), w.chats[j].number;
    forall i | 0 <= i < |w.chats|
      ensures Key("rpc", ChatId(n)) == Key("rpc", ChatId(w.chats[i].number)) <==> n == w.chats[i].number
    {
      KeysDistinct(n, w.chats[i].number);
    }
    if i :| 0 <= i < |w.chats| && Registered(w.chats[i]) && w.chats[i].number == n {
      assert u.chats[i] == w.chats[i];
      assert GetStreamer(u, "rpc", ChatId(u.chats[i].number)) == Some(j);
    }
    if NumberFree(w, j) {
      forall i | 0 <= i < |u.chats| && Registered(u.chats[i])
        ensures GetStreamer(u, "rpc", ChatId(u.chats[i].number)) == Some(i)
      {
        if i != j {
          assert GetStreamer(w, "rpc", ChatId(w.chats[i].number)) == Some(i);
        }
      }
    }
  }

  lemma UnregisterKeepsExact(w: World, j: nat)
    requires Exact(w) && Enabled(w, Unregister(j))
    ensures Exact(Do(w, Unregister(j)))
  {
    hide ChatId, Key;
    var u := Do(w, Unregister(j));
    assert GetStreamer(w, "rpc", ChatId(w.chats[j].number)) == Some(j);
    forall i | 0 <= i < |u.chats| && Registered(u.chats[i])
      ensures GetStreamer(u, "rpc", ChatId(u.chats[i].number)) == Some(i)
    {
      assert GetStreamer(w, "rpc", ChatId(w.chats[i].number)) == Some(i);
    }
  }

  /** A step that leaves the registry and what it depends on alone. */
  lemma SameKeepsExact(w: World, u: World)
    requires Exact(w) && u.registry == w.registry && |u.chats| >= |w.chats|
    requires forall i | 0 <= i < |w.chats| :: SameEntry(w.chats[i], u.chats[i])
    requires forall i | |w.chats| <= i < |u.chats| :: !HasAgent(u.chats[i]) || u.chats[i].refused
    ensures Exact(u)
  {
    hide ChatId, Key;
    forall i | 0 <= i < |u.chats| && Registered(u.chats[i])
      ensures GetStreamer(u, "rpc", ChatId(u.chats[i].number)) == Some(i)
    {
      assert GetStreamer(w, "rpc", ChatId(w.chats[i].number)) == Some(i);
    }
  }

  lemma OtherKeepsExact(w: World, a: Action)
    requires Exact(w) && Enabled(w, a) && !a.Register? && !a.Unregister?
    ensures Exact(Do(w, a))
  {
    hide Exact, ChatId, Key;
    if IsLocal(a) {
      var j, d := LocalChange(w, a);
    }
    SameKeepsExact(w, Do(w, a));
  }

  /** Every Register of the run takes a free number. */
  ghost predicate Guarded(w: World, actions: seq<Action>)
    decreases |actions|
  {
    actions == [] || !Enabled(w, actions[0]) ||
    ((actions[0].Register? ==> NumberFree(w, actions[0].j)) && Guarded(Do(w, actions[0]), actions[1..]))
  }

  /** The registry is exact after every step of the run. */
  ghost predicate AlwaysExact(w: World, actions: seq<Action>)
    decreases |actions|
  {
    Exact(w) && (actions == [] || !Enabled(w, actions[0]) || AlwaysExact(Do(w, actions[0]), actions[1..]))
  }

  /** Over a run the registry always holds exactly the chats between register and unregister if and only if
      every Register of the run took a free number. */
  lemma {:induction false} ExactThroughout(w: World, actions: seq<Action>, u: World)
    requires Exact(w) && IsRun(w, actions, u)
    ensures AlwaysExact(w, actions) <==> Guarded(w, actions)
    ensures AlwaysExact(w, actions) ==> Exact(u)
    decreases |actions|
  {
    hide Exact, Enabled, Do, NumberFree;
    if actions != [] {
      var a := actions[0];
      if a.Register? {
        RegisterExactness(w, a.j);
      } else if a.Unregister? {
        UnregisterKeepsExact(w, a.j);
      } else {
        OtherKeepsExact(w, a);
      }
      if Exact(Do(w, a)) {
        ExactThroughout(Do(w, a), actions[1..], u);
      } else {
        NotAlways(Do(w, a), actions[1..]);
      }
    }
  }

  lemma NotAlways(w: World, actions: seq<Action>)
    requires !Exact(w)
    ensures !AlwaysExact(w, actions)
  {
  }

  lemma RegisterFresh(w: World, j: nat)
    requires Numbered(w) && Enabled(w, Register(j))
    ensures NumberFree(w, j)
  {
    forall i | 0 <= i < |w.chats| && Registered(w.chats[i]) ensures w.chats[i].number != w.chats[j].number {
      assert i < j || j < i;
    }
  }

  /** Until the counter has been drawn 2^64 times it always does. */
  lemma {:induction false} UnwrappedIsGuarded(w: World, actions: seq<Action>, u: World)
    requires Inv(w) && IsRun(w, actions, u) && u.calls < Wire.U64
    ensures Guarded(w, actions)
    decreases |actions|
  {
    if actions != [] {
      hide Linked, ChatOk, Draws, NumberFree, Do, Enabled;
      var a := actions[0];
      StepKeepsInv(w, a);
      RunKeepsInv(Do(w, a), actions[1..], u);
      if a.Register? {
        RegisterFresh(w, a.j);
      }
      UnwrappedIsGuarded(Do(w, a), actions[1..], u);
    }
  }

  /** As long as every Register took a free number, looking up any two strings finds chat j if and only if j is
      between register and unregister, the channel is rpc and the id is j's own. */
  lemma LookupHits(actions: seq<Action>, w: World, channel: string, chatId: string, j: nat)
    requires IsRun(INIT, actions, w) && Guarded(INIT, actions)
    ensures GetStreamer(w, channel, chatId) == Some(j) <==>
            j < |w.chats| && Registered(w.chats[j]) && channel == "rpc" && chatId == ChatId(w.chats[j].number)
  {
    hide ChatOk, Draws, Guarded;
    InitInv();
    RunKeepsInv(INIT, actions, w);
    ExactThroughout(INIT, actions, w);
    LookupExact(w, channel, chatId, j);
  }

  lemma LookupExact(w: World, channel: string, chatId: string, j: nat)
    requires Exact(w) && Linked(w)
    ensures GetStreamer(w, channel, chatId) == Some(j) <==>
            j < |w.chats| && Registered(w.chats[j]) && channel == "rpc" && chatId == ChatId(w.chats[j].number)
  {
    hide ChatId;
    if GetStreamer(w, channel, chatId) == Some(j) {
      assert Entry(w, Key(channel, chatId), j);
    }
    if j < |w.chats| {
      KeyMatches(channel, chatId, w.chats[j].number);
    }
  }

  /** Until then no two calls of any kind share a call id: chats and tool calls draw from one counter. */
  lemma CallIdsDistinct(actions: seq<Action>, w: World)
    requires IsRun(INIT, actions, w) && w.calls < Wire.U64
    ensures forall i, j | 0 <= i < j < |w.chats| && !w.chats[i].refused && !w.chats[j].refused ::
              ChatId(w.chats[i].number) != ChatId(w.chats[j].number)
    ensures forall k, l | 0 <= k < l < |w.tools| :: Decimal(w.tools[k]) != Decimal(w.tools[l])
    ensures forall j, k | 0 <= j < |w.chats| && 0 <= k < |w.tools| :: w.chats[j].number != w.tools[k]
  {
    hide ChatOk, Linked;
    InitInv();
    RunKeepsInv(INIT, actions, w);
    forall i, j | 0 <= i < j < |w.chats| && !w.chats[i].refused && !w.chats[j].refused
      ensures ChatId(w.chats[i].number) != ChatId(w.chats[j].number)
    {
      KeysDistinct(w.chats[i].number, w.chats[j].number);
    }
    forall k, l | 0 <= k < l < |w.tools| ensures Decimal(w.tools[k]) != Decimal(w.tools[l]) {
      DecimalInjective(w.tools[k], w.tools[l]);
    }
  }

  // ----- whose updates a stream carries -----

  /** A lookup by a chat's agent that finds another chat's streamer. */
  predicate Stray(w: World, a: Action) {
    a.Lookup? && GetStreamer(w, a.channel, a.chatId).Some? && GetStreamer(w, a.channel, a.chatId).value != a.i
  }

  ghost predicate NoStray(w: World, actions: seq<Action>)
    decreases |actions|
  {
    actions == [] || !Enabled(w, actions[0]) ||
    (!Stray(w, actions[0]) && NoStray(Do(w, actions[0]), actions[1..]))
  }

  /** Every lookup of the run names the chat whose agent makes it. */
  ghost predicate OwnLookups(w: World, actions: seq<Action>)
    decreases |actions|
  {
    actions == [] || !Enabled(w, actions[0]) ||
    (OwnLookup(w, actions[0]) && OwnLookups(Do(w, actions[0]), actions[1..]))
  }

  predicate OwnLookup(w: World, a: Action)
    requires Enabled(w, a)
  {
    a.Lookup? ==> a.channel == "rpc" && a.chatId == ChatId(w.chats[a.i].number)
  }

  /** No agent holds another chat's streamer. */
  ghost predicate HeldOwn(w: World) {
    forall i | 0 <= i < |w.chats| :: w.chats[i].held <= {i}
  }

  lemma HeldStep(w: World, a: Action, i: nat)
    requires Enabled(w, a) && i < |w.chats|
    ensures i < |Do(w, a).chats|
    ensures Do(w, a).chats[i].held ==
            if a.Lookup? && a.i == i && GetStreamer(w, a.channel, a.chatId).Some?
            then w.chats[i].held + {GetStreamer(w, a.channel, a.chatId).value} else w.chats[i].held
  {
    hide ChatId, Key, GetStreamer;
    if IsLocal(a) {
      var j, d := LocalChange(w, a);
    }
  }

  lemma {:induction false} HeldGrows(w: World, actions: seq<Action>, u: World, i: nat)
    requires IsRun(w, actions, u) && i < |w.chats|
    ensures i < |u.chats| && w.chats[i].held <= u.chats[i].held
    decreases |actions|
  {
    hide Enabled, Do, GetStreamer;
    if actions != [] {
      HeldStep(w, actions[0], i);
      HeldGrows(Do(w, actions[0]), actions[1..], u, i);
    }
  }

  lemma HeldOwnStep(w: World, a: Action)
    requires Enabled(w, a) && HeldOwn(w)
    ensures HeldOwn(Do(w, a)) <==> !Stray(w, a)
  {
    hide ChatId, Key, GetStreamer;
    var u := Do(w, a);
    forall i | 0 <= i < |w.chats|
      ensures i < |u.chats|
      ensures u.chats[i].held == if a.Lookup? && a.i == i && GetStreamer(w, a.channel, a.chatId).Some?
                                 then w.chats[i].held + {GetStreamer(w, a.channel, a.chatId).value}
                                 else w.chats[i].held
    {
      HeldStep(w, a, i);
    }
    if Stray(w, a) {
      assert GetStreamer(w, a.channel, a.chatId).value in u.chats[a.i].held;
    }
  }

  /** Agents hold only their own streamers if and only if no lookup of the run strayed. */
  lemma {:induction false} StrayDecides(w: World, actions: seq<Action>, u: World)
    requires HeldOwn(w) && IsRun(w, actions, u)
    ensures HeldOwn(u) <==> NoStray(w, actions)
    decreases |actions|
  {
    if actions != [] {
      hide Enabled, Do, Stray;
      var a, v := actions[0], Do(w, actions[0]);
      HeldOwnStep(w, a);
      if HeldOwn(v) {
        StrayDecides(v, actions[1..], u);
      } else {
        var i :| 0 <= i < |v.chats| && !(v.chats[i].held <= {i});
        HeldGrows(v, actions[1..], u, i);
      }
    }
  }

  /** A stray lookup names another registered chat, and nothing else strays, while numbers are free. */
  lemma StrayNames(w: World, a: Action)
    requires Exact(w) && Linked(w) && a.Lookup?
    ensures Stray(w, a) <==>
            a.channel == "rpc" && exists j :: 0 <= j < |w.chats| && j != a.i && Registered(w.chats[j])
                                              && a.chatId == ChatId(w.chats[j].number)
  {
    hide ChatId, Key, Exact, Linked;
    if Stray(w, a) {
      LookupExact(w, a.channel, a.chatId, GetStreamer(w, a.channel, a.chatId).value);
    }
    if j :| 0 <= j < |w.chats| && j != a.i && Registered(w.chats[j])
            && a.channel == "rpc" && a.chatId == ChatId(w.chats[j].number) {
      LookupExact(w, a.channel, a.chatId, j);
    }
  }

  /** Looking up its own chat leads an agent astray exactly when a registered chat has its number: a chat that
      took the number over after the counter wrapped. */
  lemma OwnLookupStrays(w: World, a: Action)
    requires Linked(w) && Exact(w) && Enabled(w, a) && a.Lookup? && OwnLookup(w, a)
    ensures Stray(w, a) <==>
            exists j :: 0 <= j < |w.chats| && j != a.i && Registered(w.chats[j])
                        && w.chats[j].number == w.chats[a.i].number
  {
    hide Key, Exact, Linked, Stray;
    StrayNames(w, a);
    forall j | 0 <= j < |w.chats|
      ensures ChatId(w.chats[j].number) == ChatId(w.chats[a.i].number) <==> w.chats[j].number == w.chats[a.i].number
    {
      KeysDistinct(w.chats[j].number, w.chats[a.i].number);
    }
  }

  lemma DistinctNumbers(w: World, i: nat)
    requires Numbered(w) && i < |w.chats| && HasAgent(w.chats[i])
    ensures forall j | 0 <= j < |w.chats| && j != i && HasAgent(w.chats[j]) :: w.chats[j].number != w.chats[i].number
  {
    forall j | 0 <= j < |w.chats| && j != i && HasAgent(w.chats[j]) ensures w.chats[j].number != w.chats[i].number {
      assert i < j || j < i;
    }
  }

  /** With fewer than 2^64 draws, agents that look up their own chats never stray. */
  lemma {:induction false} OwnLookupsKeepStraight(w: World, actions: seq<Action>, u: World)
    requires Inv(w) && Exact(w) && IsRun(w, actions, u) && u.calls < Wire.U64 && OwnLookups(w, actions)
    ensures NoStray(w, actions)
    decreases |actions|
  {
    if actions != [] {
      hide ChatOk, Linked, Draws, Exact, Do, Enabled, Stray, NumberFree, OwnLookup;
      var a, v := actions[0], Do(w, actions[0]);
      StepKeepsInv(w, a);
      RunKeepsInv(v, actions[1..], u);
      NextStaysStraight(w, a);
      OwnLookupsKeepStraight(v, actions[1..], u);
    }
  }

  lemma NextStaysStraight(w: World, a: Action)
    requires Linked(w) && Numbered(w) && Exact(w) && Enabled(w, a) && OwnLookup(w, a)
    ensures !Stray(w, a) && Exact(Do(w, a))
  {
    hide Linked, Draws, Exact, Do, Key, ChatId;
    if a.Lookup? {
      OwnLookupStrays(w, a);
      DistinctNumbers(w, a.i);
    }
    if a.Register? {
      RegisterFresh(w, a.j);
      RegisterExactness(w, a.j);
    } else if a.Unregister? {
      UnregisterKeepsExact(w, a.j);
    } else {
      OtherKeepsExact(w, a);
    }
  }

  /** The texts of the updates sent to chat j's stream and accepted in a run. */
  function Landed(actions: seq<Action>, j: nat): seq<string> {
    if actions == [] then [] else LandedBy(actions[0], j) + Landed(actions[1..], j)
  }

  function LandedBy(a: Action, j: nat): seq<string> {
    if a.Update? && a.ok && a.j == j then [a.text] else []
  }

  /** The texts of the updates that chat i's agent sent in a run, to whatever stream, and had accepted. */
  function Spoken(actions: seq<Action>, i: nat): seq<string> {
    if actions == [] then [] else SpokenBy(actions[0], i) + Spoken(actions[1..], i)
  }

  function SpokenBy(a: Action, i: nat): seq<string> {
    if a.Update? && a.ok && a.i == i then [a.text] else []
  }

  /** The updates chat j's stream carries, before and after its terminal chunk. */
  function Carried(w: World, j: nat): seq<string> {
    if j < |w.chats| then w.chats[j].updates + w.chats[j].overrun else []
  }

  lemma UpdatedCarries(c: Chat, text: string)
    requires c.last.None? ==> c.overrun == []
    ensures Updated(c, text).updates + Updated(c, text).overrun == c.updates + c.overrun + [text]
  {
    if c.last.None? {
      assert c.updates + [text] + [] == c.updates + [] + [text];
    } else {
      assert c.updates + (c.overrun + [text]) == c.updates + c.overrun + [text];
    }
  }

  lemma ActCarries(c: Chat, a: Action)
    requires CanAct(c, a)
    ensures Act(c, a).updates == c.updates && Act(c, a).overrun == c.overrun
  {
  }

  lemma CarriedStep(w: World, a: Action, j: nat)
    requires Inv(w) && Enabled(w, a)
    ensures Carried(Do(w, a), j) == Carried(w, j) + LandedBy(a, j)
  {
    hide Linked, Draws, Updated, Key, ChatId, Texts, Act, CanAct, GetStreamer, HasAgent;
    assert Carried(w, j) + [] == Carried(w, j);
    if j < |w.chats| && a.Update? && a.ok && a.j == j {
      assert ChatOk(w.chats[j]);
      UpdatedCarries(w.chats[j], a.text);
    } else if j < |w.chats| && IsLocal(a) && !a.Update? && a.j == j {
      hide Inv;
      ActCarries(w.chats[j], a);
    } else if j < |w.chats| {
      hide Inv;
      OtherCarries(w, a, j);
    } else {
      hide Inv;
    }
  }

  lemma OtherCarries(w: World, a: Action, j: nat)
    requires Enabled(w, a) && j < |w.chats| && !(IsLocal(a) && a.j == j && (a.Update? ==> a.ok))
    ensures Carried(Do(w, a), j) == Carried(w, j)
  {
    hide Updated, Key, ChatId, Act, CanAct, GetStreamer, HasAgent;
  }

  lemma Assoc(a: seq<string>, b: seq<string>, c: seq<string>)
    ensures a + b + c == a + (b + c)
  {
  }

  /** No accepted update is lost or reordered on its stream. */
  lemma {:induction false} StreamsCarryWhatLands(w: World, actions: seq<Action>, u: World, j: nat)
    requires Inv(w) && IsRun(w, actions, u)
    ensures Carried(u, j) == Carried(w, j) + Landed(actions, j)
    decreases |actions|
  {
    hide Inv, Enabled, Do, Carried, LandedBy;
    if actions == [] {
      assert Carried(w, j) + [] == Carried(w, j);
    } else {
      CarriedStep(w, actions[0], j);
      StepKeepsInv(w, actions[0]);
      StreamsCarryWhatLands(Do(w, actions[0]), actions[1..], u, j);
      Assoc(Carried(w, j), LandedBy(actions[0], j), Landed(actions[1..], j));
    }
  }

  /** While no lookup strays, what lands on a stream is what its own agent says. */
  lemma {:induction false} StraightMeansOwn(w: World, actions: seq<Action>, u: World, j: nat)
    requires HeldOwn(w) && IsRun(w, actions, u) && NoStray(w, actions)
    ensures Landed(actions, j) == Spoken(actions, j)
    decreases |actions|
  {
    hide Stray, Do;
    if actions != [] {
      var a := actions[0];
      HeldOwnStep(w, a);
      if a.Update? {
        assert w.chats[a.i].held <= {a.i};
      }
      hide Enabled, HeldOwn;
      StraightMeansOwn(Do(w, a), actions[1..], u, j);
    }
  }

  /** Under any interleaving in which no lookup strays, a stream carries exactly its own agent's accepted
      updates, in order: with fewer than 2^64 draws, whenever agents look up their own chats. */
  lemma StreamsAreOwn(actions: seq<Action>, w: World, j: nat)
    requires IsRun(INIT, actions, w)
    requires NoStray(INIT, actions) || (w.calls < Wire.U64 && OwnLookups(INIT, actions))
    ensures NoStray(INIT, actions) && Carried(w, j) == Spoken(actions, j)
  {
    hide ChatOk, Linked, Draws, NoStray, OwnLookups, Spoken, Landed;
    InitInv();
    if !NoStray(INIT, actions) {
      OwnLookupsKeepStraight(INIT, actions, w);
    }
    StraightMeansOwn(INIT, actions, w, j);
    StreamsCarryWhatLands(INIT, actions, w, j);
    assert [] + Landed(actions, j) == Landed(actions, j);
  }

  /** A foreign update: accepted on another chat's stream. */
  predicate Foreign(a: Action) {
    a.Update? && a.ok && a.i != a.j
  }

  lemma {:induction false} LandedSnoc(actions: seq<Action>, a: Action, j: nat)
    ensures Landed(actions + [a], j) == Landed(actions, j) + LandedBy(a, j)
    ensures Spoken(actions + [a], j) == Spoken(actions, j) + SpokenBy(a, j)
  {
    if actions == [] {
      assert [] + [a] == [a] && [a][1..] == [];
    } else {
      hide LandedBy, SpokenBy;
      LandedSnoc(actions[1..], a, j);
      assert (actions + [a])[1..] == actions[1..] + [a];
      Assoc(LandedBy(actions[0], j), Landed(actions[1..], j), LandedBy(a, j));
      Assoc(SpokenBy(actions[0], j), Spoken(actions[1..], j), SpokenBy(a, j));
    }
  }

  lemma {:induction false} OwnLands(actions: seq<Action>, j: nat)
    requires forall k | 0 <= k < |actions| :: !Foreign(actions[k])
    ensures Landed(actions, j) == Spoken(actions, j)
  {
    if actions != [] {
      assert !Foreign(actions[0]);
      OwnLands(actions[1..], j);
    }
  }

  lemma {:induction false} PrefixRun(w: World, actions: seq<Action>, u: World, n: nat) returns (v: World)
    requires IsRun(w, actions, u) && n <= |actions|
    ensures IsRun(w, actions[..n], v) && IsRun(v, actions[n..], u)
    decreases n
  {
    hide Enabled, Do;
    if n == 0 {
      v := w;
      assert actions[n..] == actions;
    } else {
      v := PrefixRun(Do(w, actions[0]), actions[1..], u, n - 1);
      assert actions[..n][1..] == actions[1..][..n - 1] && actions[1..][n - 1..] == actions[n..];
    }
  }

  /** At every point of the run every stream carries exactly what its own agent has said so far. */
  ghost predicate OwnSoFar(actions: seq<Action>) {
    forall n: nat, v, j: nat | n <= |actions| && IsRun(INIT, actions[..n], v) ::
      Carried(v, j) == Spoken(actions[..n], j)
  }

  lemma CarriedIsLanded(actions: seq<Action>, w: World, j: nat)
    requires IsRun(INIT, actions, w)
    ensures Carried(w, j) == Landed(actions, j)
  {
    hide ChatOk, Linked, Draws, Landed;
    InitInv();
    StreamsCarryWhatLands(INIT, actions, w, j);
    assert [] + Landed(actions, j) == Landed(actions, j);
  }

  lemma ForeignShows(actions: seq<Action>, w: World, k: nat)
    requires IsRun(INIT, actions, w) && k < |actions| && Foreign(actions[k])
    ensures !OwnSoFar(actions)
  {
    hide IsRun, Landed, Spoken, Carried;
    var a := actions[k];
    var before := PrefixRun(INIT, actions, w, k);
    var after := PrefixRun(INIT, actions, w, k + 1);
    CarriedIsLanded(actions[..k], before, a.j);
    CarriedIsLanded(actions[..k + 1], after, a.j);
    assert actions[..k + 1] == actions[..k] + [a];
    LandedSnoc(actions[..k], a, a.j);
    assert Spoken(actions[..k + 1], a.j) == Spoken(actions[..k], a.j);
    assert |Carried(after, a.j)| == |Carried(before, a.j)| + 1;
    assert Carried(before, a.j) != Spoken(actions[..k], a.j) || Carried(after, a.j) != Spoken(actions[..k + 1], a.j);
  }

  /** For agents that look up what they like: at every point of a run every stream is exactly its own agent's
      words if and only if no update was accepted on another chat's stream. */
  lemma OwnExactly(actions: seq<Action>, w: World)
    requires IsRun(INIT, actions, w)
    ensures OwnSoFar(actions) <==> forall k | 0 <= k < |actions| :: !Foreign(actions[k])
  {
    hide IsRun, Carried, Landed, Spoken;
    if k :| 0 <= k < |actions| && Foreign(actions[k]) {
      ForeignShows(actions, w, k);
    } else {
      forall n: nat, v, j: nat | n <= |actions| && IsRun(INIT, actions[..n], v)
        ensures Carried(v, j) == Spoken(actions[..n], j)
      {
        CarriedIsLanded(actions[..n], v, j);
        OwnLands(actions[..n], j);
      }
    }
  }

  /** Which takes a lookup that strayed before. */
  lemma ForeignNeedsStray(actions: seq<Action>, w: World, a: Action)
    requires IsRun(INIT, actions, w) && Enabled(w, a) && Foreign(a)
    ensures !NoStray(INIT, actions)
  {
    StrayDecides(INIT, actions, w);
  }

  /** A done stream, end to end: with agents that look up their own chats and are quiet once their turns have
      returned, chat j's stream is its own agent's updates, or its final response once, and then done. */
  lemma DoneStream(actions: seq<Action>, w: World, j: nat)
    requires IsRun(INIT, actions, w) && NoStray(INIT, actions)
    requires j < |w.chats| && w.chats[j].last == Some(Done) && !w.chats[j].tardy
    ensures var own := Spoken(actions, j);
            && w.chats[j].answer.Some?
            && w.chats[j].out == Texts(if own == [] then [w.chats[j].answer.value] else own) + [Done]
  {
    hide NoStray, Spoken;
    InitInv();
    RunKeepsInv(INIT, actions, w);
    StreamsAreOwn(actions, w, j);
    Streams(actions, w, j);
    QuietStream(w.chats[j]);
  }

  lemma QuietStream(c: Chat)
    requires ChatOk(c) && c.last == Some(Done) && !c.tardy && Faithful(c)
    ensures c.answer.Some? && c.overrun == []
    ensures var own := c.updates + c.overrun;
            c.out == Texts(if own == [] then [c.answer.value] else own) + [Done]
  {
    assert c.updates + [] == c.updates;
    assert Texts([]) == [];
    assert Texts(c.said) + [Done] + [] == Texts(c.said) + [Done];
  }

  /** Conversely, once a lookup strays nothing stops the agent from speaking on the stream it found. */
  lemma StrayCanMix(w: World, a: Action, text: string)
    requires Inv(w) && Enabled(w, a) && Stray(w, a)
    ensures var j := GetStreamer(w, a.channel, a.chatId).value;
            && j != a.i && Enabled(Do(w, a), Update(a.i, j, text, true))
            && Carried(Do(Do(w, a), Update(a.i, j, text, true)), j) == Carried(w, j) + [text]
  {
    hide ChatOk, Draws, ChatId;
    var j := GetStreamer(w, a.channel, a.chatId).value;
    assert Entry(w, Key(a.channel, a.chatId), j);
    StepKeepsInv(w, a);
    CarriedStep(w, a, j);
    CarriedStep(Do(w, a), Update(a.i, j, text, true), j);
    assert Carried(w, j) + [] == Carried(w, j);
  }

  // ----- a wrapped counter -----

  lemma {:induction false} RunAppend(w: World, first: seq<Action>, v: World, second: seq<Action>, u: World)
    requires IsRun(w, first, v) && IsRun(v, second, u)
    ensures IsRun(w, first + second, u)
    decreases |first|
  {
    hide Enabled, Do;
    if first == [] {
      assert first + second == second;
    } else {
      RunAppend(Do(w, first[0]), first[1..], v, second, u);
      assert (first + second)[1..] == first[1..] + second;
    }
  }

  lemma RunSnoc(w: World, actions: seq<Action>, v: World, a: Action)
    requires IsRun(w, actions, v) && Enabled(v, a)
    ensures IsRun(w, actions + [a], Do(v, a))
  {
    hide Enabled, Do;
    assert [a][1..] == [];
    assert IsRun(v, [a], Do(v, a));
    RunAppend(w, actions, v, [a], Do(v, a));
  }

  /** n tool calls draw n ids and change nothing else but the list of draws. */
  lemma {:induction false} ToolCallsRun(w: World, n: nat) returns (actions: seq<Action>, u: World)
    ensures IsRun(w, actions, u)
    ensures u.calls == w.calls + n && u.chats == w.chats && u.registry == w.registry
  {
    if n == 0 {
      actions, u := [], w;
    } else {
      var v;
      actions, v := ToolCallsRun(w, n - 1);
      RunSnoc(w, actions, v, ToolCall);
      actions, u := actions + [ToolCall], Do(v, ToolCall);
    }
  }

  /** Two chats are registered under one id, and looking the older one up finds the newer. */
  predicate Collided(w: World) {
    && |w.chats| == 2 && w.chats[0].phase == w.chats[1].phase == Running
    && !w.chats[0].refused && !w.chats[1].refused && w.chats[0].number == w.chats[1].number
    && w.registry == map[Key("rpc", ChatId(w.chats[0].number)) := 1]
  }

  /** A chat that is still running when the counter has gone round meets one with its own id: its agent's own
      lookup then strays. */
  lemma CollisionIsReachable() returns (actions: seq<Action>, w: World)
    ensures IsRun(INIT, actions, w) && Collided(w) && !Exact(w)
    ensures Enabled(w, Lookup(0, "rpc", ChatId(w.chats[0].number)))
            && Stray(w, Lookup(0, "rpc", ChatId(w.chats[0].number)))
  {
    hide IsRun, Key, ChatId;
    var w1 := Do(INIT, Draw);
    var w2 := Do(w1, Register(0));
    RunNone(INIT);
    RunSnoc(INIT, [], INIT, Draw);
    RunSnoc(INIT, [] + [Draw], w1, Register(0));
    var calls, w3 := ToolCallsRun(w2, Wire.U64 - 1);
    RunAppend(INIT, [] + [Draw] + [Register(0)], w2, calls, w3);
    var before := [] + [Draw] + [Register(0)] + calls;
    var w4 := Do(w3, Draw);
    RunSnoc(INIT, before, w3, Draw);
    RunSnoc(INIT, before + [Draw], w4, Register(1));
    actions, w := before + [Draw] + [Register(1)], Do(w4, Register(1));
    assert w.chats[0] == w2.chats[0] && w.chats[1] == Fresh(1).(phase := Running);
    assert w.registry == map[Key("rpc", ChatId(1)) := 1];
    assert Registered(w.chats[0]) && GetStreamer(w, "rpc", ChatId(w.chats[0].number)) == Some(1);
  }

  /** After a collision the older chat's unregister removes the newer one's entry, which its agent can no longer
      find; once both are gone the registry is exact again, so exactness at the end of a run does not mean that
      every number was free. */
  lemma CollisionAftermath(w: World) returns (lost: World, later: seq<Action>, u: World)
    requires Collided(w)
    ensures |lost.chats| == 2 && IsRun(w, [TurnFails(0, ""), Send(0, true), Unregister(0)], lost)
    ensures Registered(lost.chats[1]) && GetStreamer(lost, "rpc", ChatId(lost.chats[1].number)) == None && !Exact(lost)
    ensures IsRun(lost, later, u) && Exact(u)
  {
    hide IsRun, Key, ChatId;
    lost := EndTurn(w, 0);
    assert lost.registry == map[];
    later := [TurnFails(1, ""), Send(1, true), Unregister(1)];
    u := EndTurn(lost, 1);
    assert Registered(lost.chats[1]) && GetStreamer(lost, "rpc", ChatId(lost.chats[1].number)) == None;
    assert !Registered(u.chats[0]) && !Registered(u.chats[1]);
  }

  lemma EndTurn(w: World, j: nat) returns (u: World)
    requires j < |w.chats| && w.chats[j].phase == Running && !w.chats[j].refused
    ensures IsRun(w, [TurnFails(j, ""), Send(j, true), Unregister(j)], u)
    ensures |u.chats| == |w.chats| && u.chats == w.chats[j := u.chats[j]] && u.chats[j].phase == Returned
    ensures u.registry == w.registry - {Key("rpc", ChatId(w.chats[j].number))}
  {
    hide Key, ChatId;
    var w1 := Do(w, TurnFails(j, ""));
    var w2 := Do(w1, Send(j, true));
    u := Do(w2, Unregister(j));
    RunNone(u);
    hide IsRun;
    var actions := [TurnFails(j, ""), Send(j, true), Unregister(j)];
    RunCons(w2, actions[2..], u);
    RunCons(w1, actions[1..], u);
    RunCons(w, actions, u);
  }
}

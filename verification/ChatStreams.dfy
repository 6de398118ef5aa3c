/** Concurrent chats: Server.Chat and turn of go/pkg/server/server.go, the streamers of stream.go, and the chat
    generator of index.js. A draw from the counter, a registry operation, an agent's lookup, a send and the end
    of a stream are each a step of its own. */
module ChatStreams {
  import opened Decimals
  import opened Wrappers
  import Wire

  datatype Chunk = Content(text: string) | Done | Error(text: string)

  function Texts(texts: seq<string>): (chunks: seq<Chunk>)
    ensures |chunks| == |texts| && forall k | 0 <= k < |texts| :: chunks[k] == Content(texts[k])
  {
    seq(|texts|, k requires 0 <= k < |texts| => Content(texts[k]))
  }

  // ----- chat ids -----

  function ChatId(n: nat): string {
    "rpc-" + Decimal(n)
  }

  /** The registry's key for a channel and a chat id. */
  function Key(channel: string, chatId: string): string {
    channel + ":" + chatId
  }

  /** Whatever channel and id are looked up, the key is a registered chat's only if both are that chat's. */
  lemma KeyMatches(channel: string, chatId: string, n: nat)
    ensures Key(channel, chatId) == Key("rpc", ChatId(n)) <==> channel == "rpc" && chatId == ChatId(n)
  {
    DecimalNonEmpty(n);
    var k := Key("rpc", ChatId(n));
    assert k[3] == ':' && k[4..] == ChatId(n) && ':' !in ChatId(n);
    if Key(channel, chatId) == k {
      assert k[|channel|] == ':';
      assert k[..|channel|] == channel && k[|channel| + 1..] == chatId;
      assert forall i | 3 < i < |k| :: k[i] == ChatId(n)[i - 4];
    }
  }

  lemma KeysDistinct(m: nat, n: nat)
    ensures Key("rpc", ChatId(m)) == Key("rpc", ChatId(n)) <==> m == n
  {
    KeyMatches("rpc", ChatId(m), n);
    assert ChatId(m)[4..] == Decimal(m) && ChatId(n)[4..] == Decimal(n);
    DecimalInjective(m, n);
  }

  // ----- the state machine -----

  datatype Phase =
    | Drawn                                 // its call id is drawn, its streamer not registered
    | Running                               // registered: the agent's turn
    | Answering(fallback: Option<string>)   // it returned; published has been read; done is still to be sent
    | Failing(text: string)                 // it returned an error or panicked, or no provider was reachable
    | Ended                                 // the terminal chunk is sent
    | Broken                                // one of Chat's own sends failed
    | Returned                              // unregistered
    | Closed                                // the stream is closed or destroyed

  /** One Chat call. The fields after held are its history. */
  datatype Chat = Chat(
    refused: bool,                // no provider was reachable: it draws no id and has no streamer
    number: nat,                  // its draw from the counter
    phase: Phase,
    published: bool,
    marking: nat,                 // updates between their send and setting published
    held: set<nat>,               // the chats whose streamers this chat's agent has looked up
    out: seq<Chunk>,              // what the response stream accepted
    answer: Option<string>,       // what the turn returned
    fallbackSent: bool,
    updates: seq<string>,         // accepted updates, up to the terminal chunk
    said: seq<string>,            // accepted content, up to the terminal chunk
    last: Option<Chunk>,          // the terminal chunk
    overrun: seq<string>,         // updates accepted after it
    tardy: bool)                  // an update was accepted, or still unmarked, after the turn returned

  /** calls counts the draws from the counter; tools holds the draws of the tool calls; the registry finds
      the chat whose streamer is registered under a key. */
  datatype World = World(calls: nat, chats: seq<Chat>, tools: seq<nat>, registry: map<string, nat>)

  datatype Action =
    | Draw
    | Refuse(error: string)
    | ToolCall
    | Register(j: nat)
    | Lookup(i: nat, channel: string, chatId: string)      // by chat i's agent
    | Update(i: nat, j: nat, text: string, ok: bool)       // by chat i's agent, to chat j's streamer
    | Mark(j: nat)
    | TurnReturns(j: nat, response: string)
    | TurnFails(j: nat, error: string)
    | TurnPanics(j: nat, value: string)
    | Send(j: nat, ok: bool)
    | Unregister(j: nat)
    | Close(j: nat)

  function Fresh(number: nat): Chat {
    Chat(false, number, Drawn, false, 0, {}, [], None, false, [], [], None, [], false)
  }

  function Refused(error: string): Chat {
    Fresh(0).(refused := true, phase := Failing("no model: " + error))
  }

  /** An agent works for the chat, and its streamer exists. */
  predicate HasAgent(c: Chat) {
    !c.refused && c.phase != Drawn
  }

  /** Between register and unregister. */
  predicate Registered(c: Chat) {
    HasAgent(c) && c.phase != Returned && c.phase != Closed
  }

  /** GetStreamer: which chat's streamer a channel and chat id find. */
  function GetStreamer(w: World, channel: string, chatId: string): Option<nat> {
    if Key(channel, chatId) in w.registry then Some(w.registry[Key(channel, chatId)]) else None
  }

  function NextNumber(w: World): nat {
    (w.calls + 1) % Wire.U64
  }

  /** What a step that concerns one chat alone needs of it. */
  predicate CanAct(c: Chat, a: Action) {
    match a
    case Mark(_) => c.marking > 0
    case TurnReturns(_, _) => c.phase == Running
    case TurnFails(_, _) => c.phase == Running
    case TurnPanics(_, _) => c.phase == Running
    case Send(_, _) => c.phase.Answering? || c.phase.Failing?
    case Close(_) => c.phase == Returned || (c.refused && (c.phase == Ended || c.phase == Broken))
    case _ => false
  }

  predicate Enabled(w: World, a: Action) {
    match a
    case Draw => true
    case Refuse(_) => true
    case ToolCall => true
    case Register(j) => j < |w.chats| && !w.chats[j].refused && w.chats[j].phase == Drawn
    case Lookup(i, _, _) => i < |w.chats| && HasAgent(w.chats[i])
    case Update(i, j, _, ok) =>
      i < |w.chats| && j in w.chats[i].held && j < |w.chats| && (ok ==> w.chats[j].phase != Closed)
    case Unregister(j) =>
      j < |w.chats| && !w.chats[j].refused && (w.chats[j].phase == Ended || w.chats[j].phase == Broken)
    case _ => a.j < |w.chats| && CanAct(w.chats[a.j], a)
  }

  /** streamer.Update's send, accepted. */
  function Updated(c: Chat, text: string): Chat {
    var sent := c.(out := c.out + [Content(text)], marking := c.marking + 1, tardy := c.tardy || c.phase != Running);
    if c.last.None? then sent.(updates := c.updates + [text], said := c.said + [text])
    else sent.(overrun := c.overrun + [text])
  }

  /** Chat's next send, when the stream accepts it. */
  function Sent(c: Chat): Chat
    requires c.phase.Answering? || c.phase.Failing?
  {
    match c.phase
    case Answering(Some(response)) =>
      c.(out := c.out + [Content(response)], said := c.said + [response], fallbackSent := true,
          phase := Answering(None))
    case Answering(None) => c.(out := c.out + [Done], last := Some(Done), phase := Ended)
    case Failing(text) => c.(out := c.out + [Error(text)], last := Some(Error(text)), phase := Ended)
  }

  function Act(c: Chat, a: Action): Chat
    requires CanAct(c, a)
  {
    match a
    case Mark(_) => c.(published := true, marking := c.marking - 1)
    case TurnReturns(_, response) =>
      c.(answer := Some(response), tardy := c.tardy || c.marking > 0,
         phase := Answering(if c.published then None else Some(response)))
    case TurnFails(_, error) => c.(phase := Failing(error), tardy := c.tardy || c.marking > 0)
    case TurnPanics(_, value) => c.(phase := Failing("agent panic: " + value), tardy := c.tardy || c.marking > 0)
    case Send(_, ok) => if ok then Sent(c) else c.(phase := Broken)
    case Close(_) => c.(phase := Closed)
  }

  function Do(w: World, a: Action): World
    requires Enabled(w, a)
  {
    match a
    case Draw => w.(calls := w.calls + 1, chats := w.chats + [Fresh(NextNumber(w))])
    case Refuse(error) => w.(chats := w.chats + [Refused(error)])
    case ToolCall => w.(calls := w.calls + 1, tools := w.tools + [NextNumber(w)])
    case Register(j) =>
      w.(chats := w.chats[j := w.chats[j].(phase := Running)],
         registry := w.registry[Key("rpc", ChatId(w.chats[j].number)) := j])
    case Lookup(i, channel, chatId) =>
      var found := GetStreamer(w, channel, chatId);
      if found.None? then w
      else w.(chats := w.chats[i := w.chats[i].(held := w.chats[i].held + {found.value})])
    case Update(_, j, text, ok) => if ok then w.(chats := w.chats[j := Updated(w.chats[j], text)]) else w
    case Unregister(j) =>
      w.(chats := w.chats[j := w.chats[j].(phase := Returned)],
         registry := w.registry - {Key("rpc", ChatId(w.chats[j].number))})
    case _ => w.(chats := w.chats[a.j := Act(w.chats[a.j], a)])
  }

  const INIT := World(0, [], [], map[])

  ghost predicate IsRun(w: World, actions: seq<Action>, u: World)
    decreases |actions|
  {
    if actions == [] then w == u else Enabled(w, actions[0]) && IsRun(Do(w, actions[0]), actions[1..], u)
  }

  // ----- what every step keeps: the streams -----

  function LastChunk(last: Option<Chunk>): seq<Chunk> {
    if last.Some? then [last.value] else []
  }

  ghost predicate ChatOk(c: Chat) {
    && c.out == Texts(c.said) + LastChunk(c.last) + Texts(c.overrun)
    && (c.last.Some? ==> !c.last.value.Content? && (c.phase == Ended || c.phase == Returned || c.phase == Closed))
    && (c.last.None? ==> c.overrun == [])
    && (c.phase == Ended ==> c.last.Some?)
    && (c.phase == Drawn || c.phase == Running ==> c.answer.None? && !c.fallbackSent && !c.tardy)
    && (c.phase.Answering? ==>
          c.answer.Some? && (c.phase.fallback.Some? ==> c.phase.fallback == c.answer && !c.fallbackSent))
    && (c.phase.Failing? ==> c.answer.None?)
    && (c.last.Some? ==> if c.last.value.Done? then c.answer.Some? else c.answer.None?)
    && c.marking <= |c.updates| + |c.overrun|
    && (c.published ==> c.updates + c.overrun != [])
    && (c.updates + c.overrun != [] && c.marking == 0 ==> c.published)
    // what has been said is the updates, or the fallback among them
    && (!c.fallbackSent ==> c.said == c.updates)
    && (c.fallbackSent ==>
          c.answer.Some? && |c.said| == |c.updates| + 1 && (c.updates == [] ==> c.said == [c.answer.value]))
    && (c.phase == Answering(None) || c.last == Some(Done) ==> c.fallbackSent || c.updates != [])
    && ((c.fallbackSent || (c.phase.Answering? && c.phase.fallback.Some?)) && !c.tardy ==> c.updates == [])
    && (!c.tardy ==> c.overrun == [])
  }

  lemma TextsSnoc(texts: seq<string>, text: string)
    ensures Texts(texts + [text]) == Texts(texts) + [Content(text)]
  {
  }

  lemma UpdateKeepsOk(c: Chat, text: string)
    requires ChatOk(c) && c.phase != Drawn && c.phase != Closed
    ensures ChatOk(Updated(c, text))
  {
    TextsSnoc(c.said, text);
    TextsSnoc(c.overrun, text);
    assert Texts(c.said + [text]) == Texts(c.said) + [Content(text)];
    assert Updated(c, text).updates + Updated(c, text).overrun != [];
  }

  lemma SendKeepsOk(c: Chat)
    requires ChatOk(c) && (c.phase.Answering? || c.phase.Failing?)
    ensures ChatOk(Sent(c))
  {
    if c.phase.Answering? && c.phase.fallback.Some? {
      TextsSnoc(c.said, c.phase.fallback.value);
    }
  }

  lemma ActKeepsOk(c: Chat, a: Action)
    requires ChatOk(c) && CanAct(c, a)
    ensures ChatOk(Act(c, a))
  {
    if a.Send? && a.ok {
      SendKeepsOk(c);
    }
  }

  lemma PhaseKeepsOk(c: Chat)
    requires ChatOk(c)
    ensures c.phase == Drawn ==> ChatOk(c.(phase := Running))
    ensures c.phase == Ended || c.phase == Broken ==> ChatOk(c.(phase := Returned))
    ensures forall held :: ChatOk(c.(held := held))
  {
  }

  lemma NewOk(number: nat, error: string)
    ensures ChatOk(Fresh(number)) && ChatOk(Refused(error))
  {
  }

  // ----- what every step keeps: the registry -----

  /** A registry entry finds a registered chat under that chat's own key, and what an agent holds has a
      streamer. */
  ghost predicate Linked(w: World) {
    && (forall key | key in w.registry :: Entry(w, key, w.registry[key]))
    && forall i | 0 <= i < |w.chats| :: Holds(w, w.chats[i].held)
  }

  /** Every chat in held has a streamer. */
  ghost predicate Holds(w: World, held: set<nat>) {
    forall j | j in held :: j < |w.chats| && HasAgent(w.chats[j])
  }

  predicate Entry(w: World, key: string, j: nat) {
    j < |w.chats| && Registered(w.chats[j]) && key == Key("rpc", ChatId(w.chats[j].number))
  }

  /** Every registered chat is found under its own key: with Linked, the registry holds exactly the chats
      between register and unregister. */
  ghost predicate Exact(w: World) {
    forall j | 0 <= j < |w.chats|
        && Registered(w.chats[j]) :: GetStreamer(w, "rpc", ChatId(w.chats[j].number)) == Some(j)
  }

  /** Chats and tool calls hold different draws of the counter, none of them still to come. */
  ghost predicate Draws(calls: nat, chats: seq<Chat>, tools: seq<nat>) {
    && (forall j | 0 <= j < |chats| :: chats[j].number <= calls)
    && (forall k | 0 <= k < |tools| :: 0 < tools[k] <= calls)
    && (forall i, j | 0 <= i < j < |chats| && !chats[j].refused :: chats[i].number < chats[j].number)
    && (forall k, l | 0 <= k < l < |tools| :: tools[k] < tools[l])
    && forall j, k | 0 <= j < |chats| && 0 <= k < |tools| :: chats[j].number != tools[k]
  }

  ghost predicate Numbered(w: World) {
    Draws(w.calls, w.chats, w.tools)
  }

  ghost predicate Inv(w: World) {
    && (forall j | 0 <= j < |w.chats| :: ChatOk(w.chats[j]))
    && Linked(w)
    && (w.calls < Wire.U64 ==> Numbered(w))
  }

  lemma InitInv()
    ensures Inv(INIT)
  {
  }

  /** Nothing the registry depends on differs between c and d. */
  predicate SameEntry(c: Chat, d: Chat) {
    && d.number == c.number && d.refused == c.refused
    && (Registered(d) <==> Registered(c)) && (HasAgent(d) <==> HasAgent(c))
  }

  lemma ActSameEntry(c: Chat, a: Action)
    requires CanAct(c, a)
    ensures SameEntry(c, Act(c, a)) && Act(c, a).held == c.held
  {
  }

  /** Steps of one chat by itself, and updates, leave the registry alone. */
  predicate IsLocal(a: Action) {
    a.Update? || a.Mark? || a.TurnReturns? || a.TurnFails? || a.TurnPanics? || a.Send? || a.Close?
  }

  lemma LocalChange(w: World, a: Action) returns (j: nat, d: Chat)
    requires Enabled(w, a) && IsLocal(a)
    ensures j < |w.chats| && Do(w, a) == w.(chats := w.chats[j := d])
    ensures SameEntry(w.chats[j], d) && d.held == w.chats[j].held
    ensures j == a.j
  {
    j := a.j;
    d := Do(w, a).chats[j];
    if !a.Update? {
      ActSameEntry(w.chats[j], a);
    }
  }

  lemma LocalKeepsLinked(w: World, a: Action)
    requires Linked(w) && Enabled(w, a) && IsLocal(a)
    ensures Linked(Do(w, a))
  {
    var j, d := LocalChange(w, a);
    hide Key, ChatId, Registered, HasAgent, Do, Enabled;
    var u := w.(chats := w.chats[j := d]);
    forall key | key in u.registry ensures Entry(u, key, u.registry[key]) {
      assert Entry(w, key, w.registry[key]);
    }
    forall i | 0 <= i < |u.chats| ensures Holds(u, u.chats[i].held) {
      if i < |w.chats| {
        assert Holds(w, w.chats[i].held);
      }
    }
  }

  /** A chat appended without a streamer. */
  lemma NewKeepsLinked(w: World, u: World, c: Chat)
    requires Linked(w) && u.registry == w.registry && u.chats == w.chats + [c] && c.held == {}
    ensures Linked(u)
  {
    hide Key, ChatId, Registered, HasAgent;
    forall key | key in u.registry ensures Entry(u, key, u.registry[key]) {
      assert Entry(w, key, w.registry[key]);
    }
    forall i | 0 <= i < |u.chats| ensures Holds(u, u.chats[i].held) {
      if i < |w.chats| {
        assert Holds(w, w.chats[i].held);
      }
    }
  }

  lemma RegisterKeepsLinked(w: World, j: nat)
    requires Linked(w) && Enabled(w, Register(j))
    ensures Linked(Do(w, Register(j)))
  {
    hide Key, ChatId;
    var u := Do(w, Register(j));
    forall key | key in u.registry ensures Entry(u, key, u.registry[key]) {
      if key == Key("rpc", ChatId(w.chats[j].number)) {
        assert u.registry[key] == j && u.chats[j].number == w.chats[j].number;
      } else {
        assert Entry(w, key, w.registry[key]);
      }
    }
    forall i | 0 <= i < |u.chats| ensures Holds(u, u.chats[i].held) {
      if i < |w.chats| {
        assert Holds(w, w.chats[i].held);
      }
    }
  }

  lemma UnregisterKeepsLinked(w: World, j: nat)
    requires Linked(w) && Enabled(w, Unregister(j))
    ensures Linked(Do(w, Unregister(j)))
  {
    hide Key, ChatId;
    var u := Do(w, Unregister(j));
    forall key | key in u.registry ensures Entry(u, key, u.registry[key]) {
      assert Entry(w, key, w.registry[key]);
    }
    forall i | 0 <= i < |u.chats| ensures Holds(u, u.chats[i].held) {
      if i < |w.chats| {
        assert Holds(w, w.chats[i].held);
      }
    }
  }

  lemma LookupKeepsLinked(w: World, a: Action)
    requires Linked(w) && Enabled(w, a) && a.Lookup?
    ensures Linked(Do(w, a))
  {
    hide Key, ChatId;
    var u, key := Do(w, a), Key(a.channel, a.chatId);
    if key in w.registry {
      assert Entry(w, key, w.registry[key]);
      forall k | k in u.registry ensures Entry(u, k, u.registry[k]) {
        assert Entry(w, k, w.registry[k]);
      }
      forall i | 0 <= i < |u.chats| ensures Holds(u, u.chats[i].held) {
        if i < |w.chats| {
          assert Holds(w, w.chats[i].held);
        }
      }
    }
  }

  lemma StepKeepsLinked(w: World, a: Action)
    requires Linked(w) && Enabled(w, a)
    ensures Linked(Do(w, a))
  {
    hide Linked;
    match a
    case Draw => NewKeepsLinked(w, Do(w, a), Fresh(NextNumber(w)));
    case Refuse(error) => NewKeepsLinked(w, Do(w, a), Refused(error));
    case ToolCall => ToolCallKeepsLinked(w);
    case Register(j) => RegisterKeepsLinked(w, j);
    case Lookup(_, _, _) => LookupKeepsLinked(w, a);
    case Unregister(j) => UnregisterKeepsLinked(w, j);
    case _ => LocalKeepsLinked(w, a);
  }

  lemma ToolCallKeepsLinked(w: World)
    requires Linked(w)
    ensures Linked(Do(w, ToolCall))
  {
    hide Key, ChatId;
    forall key | key in w.registry ensures Entry(Do(w, ToolCall), key, w.registry[key]) {
      assert Entry(w, key, w.registry[key]);
    }
  }

  lemma SameNumbers(calls: nat, chats: seq<Chat>, tools: seq<nat>, after: seq<Chat>)
    requires Draws(calls, chats, tools) && |after| == |chats|
    requires forall j | 0 <= j < |chats| :: after[j].number == chats[j].number && after[j].refused == chats[j].refused
    ensures Draws(calls, after, tools)
  {
  }

  lemma ChatDraws(calls: nat, chats: seq<Chat>, tools: seq<nat>)
    requires Draws(calls, chats, tools)
    ensures Draws(calls + 1, chats + [Fresh(calls + 1)], tools)
  {
  }

  lemma RefusedDraws(calls: nat, chats: seq<Chat>, tools: seq<nat>, error: string)
    requires Draws(calls, chats, tools)
    ensures Draws(calls, chats + [Refused(error)], tools)
  {
  }

  lemma ToolDraws(calls: nat, chats: seq<Chat>, tools: seq<nat>)
    requires Draws(calls, chats, tools)
    ensures Draws(calls + 1, chats, tools + [calls + 1])
  {
  }

  lemma StepKeepsNumbered(w: World, a: Action)
    requires Numbered(w) && Enabled(w, a) && Do(w, a).calls < Wire.U64
    ensures Numbered(Do(w, a))
  {
    hide Key, ChatId, Draws, GetStreamer, Updated, Act, CanAct, Texts;
    match a
    case Draw => ChatDraws(w.calls, w.chats, w.tools);
    case Refuse(error) => RefusedDraws(w.calls, w.chats, w.tools, error);
    case ToolCall => ToolDraws(w.calls, w.chats, w.tools);
    case _ =>
      if IsLocal(a) {
        var j, d := LocalChange(w, a);
      }
      SameNumbers(w.calls, w.chats, w.tools, Do(w, a).chats);
  }

  lemma StepKeepsOk(w: World, a: Action, j: nat)
    requires (forall k | 0 <= k < |w.chats| :: ChatOk(w.chats[k])) && Linked(w) && Enabled(w, a)
    requires j < |Do(w, a).chats|
    ensures ChatOk(Do(w, a).chats[j])
  {
    hide ChatOk, Key, ChatId;
    if j == |w.chats| {
      NewOk(NextNumber(w), if a.Refuse? then a.error else "");
    } else {
      var c := w.chats[j];
      assert ChatOk(c);
      PhaseKeepsOk(c);
      if a.Update? && a.ok && a.j == j {
        assert HasAgent(c);
        UpdateKeepsOk(c, a.text);
      } else if IsLocal(a) && !a.Update? && a.j == j {
        ActKeepsOk(c, a);
      }
    }
  }

  lemma StepKeepsInv(w: World, a: Action)
    requires Inv(w) && Enabled(w, a)
    ensures Inv(Do(w, a)) && w.calls <= Do(w, a).calls && |w.chats| <= |Do(w, a).chats|
  {
    hide ChatOk, Linked, Numbered;
    forall j | 0 <= j < |Do(w, a).chats| ensures ChatOk(Do(w, a).chats[j]) {
      StepKeepsOk(w, a, j);
    }
    StepKeepsLinked(w, a);
    if Do(w, a).calls < Wire.U64 {
      StepKeepsNumbered(w, a);
    }
  }

  lemma {:induction false} RunKeepsInv(w: World, actions: seq<Action>, u: World)
    requires Inv(w) && IsRun(w, actions, u)
    ensures Inv(u) && w.calls <= u.calls && |w.chats| <= |u.chats|
    decreases |actions|
  {
    hide Inv, Enabled, Do;
    if actions != [] {
      StepKeepsInv(w, actions[0]);
      RunKeepsInv(Do(w, actions[0]), actions[1..], u);
    }
  }

  // ----- the streams -----

  /** content* followed by exactly one done or error. */
  predicate Grammar(chunks: seq<Chunk>) {
    chunks != [] && forall k | 0 <= k < |chunks| :: chunks[k].Content? <==> k < |chunks| - 1
  }

  /** The content is the updates on the stream in order, or the final response once if there was none. */
  predicate Faithful(c: Chat) {
    if c.updates == [] then c.answer.Some? && c.said == [c.answer.value] else c.said == c.updates
  }

  /** A stream that got its terminal chunk is content* and that chunk, unless an update was sent after it; its
      content is faithful unless it is a done stream on which nothing was published when the turn returned, and
      something was before done all the same. With no update after the turn returned, neither happens. */
  lemma Streams(actions: seq<Action>, w: World, j: nat)
    requires IsRun(INIT, actions, w) && j < |w.chats| && w.chats[j].last.Some?
    ensures var c := w.chats[j];
            && (Grammar(c.out) <==> c.overrun == [])
            && (c.last == Some(Done) ==> (Faithful(c) <==> !(c.fallbackSent && c.updates != [])))
            && (c.last != Some(Done) ==> c.said == c.updates)
            && (!c.tardy ==> Grammar(c.out) && (c.last == Some(Done) ==> Faithful(c)))
  {
    InitInv();
    RunKeepsInv(INIT, actions, w);
    StreamShape(w.chats[j]);
  }

  lemma StreamShape(c: Chat)
    requires ChatOk(c) && c.last.Some?
    ensures Grammar(c.out) <==> c.overrun == []
    ensures c.last == Some(Done) ==> (Faithful(c) <==> !(c.fallbackSent && c.updates != []))
    ensures c.last != Some(Done) ==> c.said == c.updates
    ensures !c.tardy ==> Grammar(c.out) && (c.last == Some(Done) ==> Faithful(c))
  {
    var n := |c.said|;
    assert c.out[n] == c.last.value;
    if c.overrun != [] {
      assert c.out[n + 1] == Content(c.overrun[0]);
    }
  }

  /** The chat is not on its way to an end without a terminal chunk. */
  predicate Straight(c: Chat) {
    c.phase != Broken && (c.phase == Returned || c.phase == Closed ==> c.last.Some?)
  }

  predicate OnCourse(w: World, j: nat) {
    j < |w.chats| ==> Straight(w.chats[j])
  }

  lemma ActStraight(c: Chat, a: Action)
    requires ChatOk(c) && CanAct(c, a) && Straight(c) && !(a.Send? && !a.ok)
    ensures Straight(Act(c, a))
  {
    hide Texts;
  }

  lemma UpdatedStraight(c: Chat, text: string)
    requires Straight(c)
    ensures Straight(Updated(c, text))
  {
  }

  lemma EndedStraight(c: Chat)
    requires ChatOk(c) && (c.phase == Ended || c.phase == Broken) && Straight(c)
    ensures Straight(c.(phase := Returned))
  {
    hide Texts;
  }

  lemma StaysOnCourse(w: World, a: Action, j: nat)
    requires Inv(w) && Enabled(w, a) && OnCourse(w, j) && a != Send(j, false)
    ensures OnCourse(Do(w, a), j)
  {
    if j < |w.chats| && IsLocal(a) && a.j == j {
      var c := w.chats[j];
      assert ChatOk(c);
      hide Inv, ChatOk, HasAgent, Key, ChatId, GetStreamer, Act, CanAct, Updated;
      if a.Update? {
        UpdatedStraight(c, a.text);
      } else {
        ActStraight(c, a);
      }
    } else if j < |w.chats| && a.Unregister? && a.j == j {
      var c := w.chats[j];
      assert ChatOk(c);
      hide Inv, ChatOk, HasAgent, Key, ChatId, GetStreamer, Act, CanAct, Updated;
      EndedStraight(c);
    } else {
      hide Inv;
      OthersStraight(w, a, j);
    }
  }

  lemma OthersStraight(w: World, a: Action, j: nat)
    requires Enabled(w, a) && OnCourse(w, j)
    requires !(IsLocal(a) && a.j == j) && !(a.Unregister? && a.j == j)
    ensures OnCourse(Do(w, a), j)
  {
    hide HasAgent, Key, ChatId, GetStreamer, Act, CanAct, Updated;
  }

  /** Chat ends without a terminal chunk only if one of its own sends failed. */
  lemma {:induction false} AcceptedSendsTerminate(w: World, actions: seq<Action>, u: World, j: nat)
    requires Inv(w) && IsRun(w, actions, u) && OnCourse(w, j)
    requires forall k | 0 <= k < |actions| :: actions[k] != Send(j, false)
    ensures OnCourse(u, j)
    decreases |actions|
  {
    hide Inv, Enabled, Do, OnCourse;
    if actions != [] {
      assert actions[0] != Send(j, false);
      StaysOnCourse(w, actions[0], j);
      StepKeepsInv(w, actions[0]);
      AcceptedSendsTerminate(Do(w, actions[0]), actions[1..], u, j);
    }
  }

  /** An agent that updates after its turn returned can make its stream both repeat itself and outlive done. */
  lemma TardyAgentBreaksBoth(response: string, late: string) returns (actions: seq<Action>, w: World)
    ensures IsRun(INIT, actions, w) && |w.chats| == 1 && w.chats[0].last == Some(Done)
    ensures !Faithful(w.chats[0]) && !Grammar(w.chats[0].out)
  {
    hide IsRun, Key, ChatId;
    var before := [Draw, Register(0), Lookup(0, "rpc", ChatId(1)), TurnReturns(0, response)];
    actions := before + [Send(0, true), Update(0, 0, late, true), Send(0, true), Update(0, 0, late, true)];
    var w1 := Do(INIT, Draw);
    var w2 := Do(w1, Register(0));
    var w3 := Do(w2, Lookup(0, "rpc", ChatId(1)));
    var w4 := Do(w3, TurnReturns(0, response));
    var w5 := Do(w4, Send(0, true));
    var w6 := Do(w5, Update(0, 0, late, true));
    var w7 := Do(w6, Send(0, true));
    w := Do(w7, Update(0, 0, late, true));
    RunNone(w);
    RunCons(w7, actions[7..], w);
    RunCons(w6, actions[6..], w);
    RunCons(w5, actions[5..], w);
    RunCons(w4, actions[4..], w);
    RunCons(w3, actions[3..], w);
    RunCons(w2, actions[2..], w);
    RunCons(w1, actions[1..], w);
    RunCons(INIT, actions, w);
    assert w.chats[0].said == [response, late];
    assert w.chats[0].out[2] == Done;
  }

  lemma RunNone(w: World)
    ensures IsRun(w, [], w)
  {
  }

  lemma RunCons(w: World, actions: seq<Action>, u: World)
    requires actions != [] && Enabled(w, actions[0]) && IsRun(Do(w, actions[0]), actions[1..], u)
    ensures IsRun(w, actions, u)
  {
  }

  // ----- the consumer -----

  /** Chunks up to and including the first that is not content. */
  function UpToEnd(chunks: seq<Chunk>): seq<Chunk> {
    if chunks == [] then [] else [chunks[0]] + if chunks[0].Content? then UpToEnd(chunks[1..]) else []
  }

  lemma {:induction false} UpToFirst(chunks: seq<Chunk>, i: nat)
    requires i <= |chunks| && (forall k | 0 <= k < i :: chunks[k].Content?) && (i < |chunks| ==> !chunks[i].Content?)
    ensures UpToEnd(chunks) == if i < |chunks| then chunks[..i + 1] else chunks
    decreases i
  {
    if i > 0 {
      UpToFirst(chunks[1..], i - 1);
    }
  }

  /** Whatever the agents do, the consumer of a stream that got its terminal chunk sees what was said before
      it, in order, then that chunk, and nothing after it. */
  lemma ConsumerSees(actions: seq<Action>, w: World, j: nat)
    requires IsRun(INIT, actions, w) && j < |w.chats| && w.chats[j].last.Some?
    ensures UpToEnd(w.chats[j].out) == Texts(w.chats[j].said) + [w.chats[j].last.value]
    ensures Grammar(UpToEnd(w.chats[j].out))
  {
    InitInv();
    RunKeepsInv(INIT, actions, w);
    FrontSeen(w.chats[j]);
  }

  lemma FrontSeen(c: Chat)
    requires ChatOk(c) && c.last.Some?
    ensures UpToEnd(c.out) == Texts(c.said) + [c.last.value] && Grammar(UpToEnd(c.out))
  {
    UpToFirst(c.out, |c.said|);
    assert c.out[..|c.said| + 1] == Texts(c.said) + [c.last.value];
  }
}

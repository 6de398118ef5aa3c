/** The objects behind a chat: the response stream, the streamer and StreamDelegate of go/pkg/server/stream.go,
    Server.Chat with its turn from go/pkg/server/server.go, and handleChat of go/hrpc/hrpc.go. Each method takes
    steps of ChatStreams, and a whole Chat call is one of its runs. */
module ChatServer {
  import opened ChatRouting
  import opened ChatStreams
  import opened Decimals
  import opened Wrappers
  import GoSchema
  import Hrpc
  import Messages
  import Wire

  datatype Ending = StillOpen | Graceful | Aborted

  /** A response stream; accepts says which writes succeed while it is open. */
  class SendStream {
    const accepts: nat -> bool
    var writes: nat
    var sent: seq<Chunk>
    var ending: Ending

    constructor (accepts: nat -> bool)
      ensures this.accepts == accepts && writes == 0 && sent == [] && ending == StillOpen
    {
      this.accepts := accepts;
      writes, sent, ending := 0, [], StillOpen;
    }

    ghost predicate Is(c: Chat)
      reads this
    {
      sent == c.out && (ending == StillOpen <==> c.phase != Closed)
    }

    method Send(chunk: Chunk) returns (ok: bool)
      modifies this`writes, this`sent
      ensures writes == old(writes) + 1 && ok == (ending == StillOpen && accepts(old(writes)))
      ensures sent == if ok then old(sent) + [chunk] else old(sent)
    {
      ok := ending == StillOpen && accepts(writes);
      writes := writes + 1;
      if ok {
        sent := sent + [chunk];
      }
    }
  }

  /** An update that was accepted and then marked. */
  function Published(c: Chat, text: string): Chat {
    Act(Updated(c, text), Mark(0))
  }

  class Streamer {
    const out: SendStream
    var published: bool

    constructor (out: SendStream)
      ensures this.out == out && !published
    {
      this.out := out;
      published := false;
    }

    /** This is the streamer of chat c. */
    ghost predicate Is(c: Chat)
      reads this, out
    {
      out.Is(c) && published == c.published
    }

    /** The send and the mark of an update, or nothing when the stream does not take it. */
    method Update(ghost c: Chat, content: string) returns (ok: bool)
      requires Is(c)
      modifies this, out`writes, out`sent
      ensures Is(if ok then Published(c, content) else c)
      ensures ok ==> c.phase != Closed
      ensures out.writes == old(out.writes) + 1 && ok == (out.ending == StillOpen && out.accepts(old(out.writes)))
    {
      ok := out.Send(Content(content));
      if !ok {
        return;
      }
      published := true;
    }
  }

  class StreamDelegate {
    var streamers: map<string, Streamer>

    constructor ()
      ensures Is(INIT, [])
    {
      streamers := map[];
    }

    /** The entries are the streamers of the chats that w's registry finds; made[j] is chat j's, if it has one. */
    ghost predicate Is(w: World, made: seq<Streamer?>)
      reads this
    {
      streamers.Keys == w.registry.Keys &&
      forall key | key in w.registry :: w.registry[key] < |made| && streamers[key] == made[w.registry[key]]
    }

    /** Another chat's streamer made changes nothing. */
    lemma Grown(w: World, u: World, made: seq<Streamer?>, s: Streamer)
      requires Is(w, made) && u.registry == w.registry
      ensures Is(u, made + [s])
    {
    }

    /** The Register step. */
    method Register(ghost w: World, ghost made: seq<Streamer?>, ghost j: nat, channel: string, chatId: string,
                    s: Streamer)
      requires Is(w, made) && Enabled(w, ChatStreams.Action.Register(j)) && j < |made| && made[j] == s
      requires channel == "rpc" && chatId == ChatId(w.chats[j].number)
      modifies this
      ensures Is(Do(w, ChatStreams.Action.Register(j)), made)
    {
      streamers := streamers[channel + ":" + chatId := s];
    }

    /** The Unregister step. */
    method Unregister(ghost w: World, ghost made: seq<Streamer?>, ghost j: nat, channel: string, chatId: string)
      requires Is(w, made) && Enabled(w, ChatStreams.Action.Unregister(j))
      requires channel == "rpc" && chatId == ChatId(w.chats[j].number)
      modifies this
      ensures Is(Do(w, ChatStreams.Action.Unregister(j)), made)
    {
      streamers := streamers - {channel + ":" + chatId};
    }

    /** A lookup finds the streamer of the chat that the model's lookup finds. */
    method GetStreamer(ghost w: World, ghost made: seq<Streamer?>, channel: string, chatId: string)
      returns (s: Option<Streamer>)
      requires Is(w, made)
      ensures s.Some? <==> ChatStreams.GetStreamer(w, channel, chatId).Some?
      ensures s.Some? ==> s.value == made[ChatStreams.GetStreamer(w, channel, chatId).value]
    {
      var key := channel + ":" + chatId;
      s := if key in streamers then Some(streamers[key]) else None;
    }
  }

  lemma PublishedFacts(c: Chat, text: string)
    requires c.last.None?
    ensures var d := Published(c, text);
            && d.phase == c.phase && d.refused == c.refused && d.number == c.number && d.last == c.last
            && d.out == c.out + [Content(text)] && d.published
  {
  }

  // ----- one chat of a run -----

  /** v with c as its newest chat. */
  function With(v: World, c: Chat): World
    requires v.chats != []
  {
    v.(chats := v.chats[|v.chats| - 1 := c])
  }

  function Newest(v: World): nat
    requires v.chats != []
  {
    |v.chats| - 1
  }

  /** A run may go on with a step of its newest chat alone. */
  lemma ActNewest(w: World, actions: seq<Action>, v: World, c: Chat, a: Action)
    requires v.chats != [] && IsRun(w, actions, With(v, c))
    requires !a.Draw? && !a.Refuse? && !a.ToolCall? && !a.Update? && !a.Register? && !a.Unregister? && !a.Lookup?
    requires a.j == Newest(v) && CanAct(c, a)
    ensures IsRun(w, actions + [a], With(v, Act(c, a)))
  {
    hide IsRun, CanAct, Act;
    RunSnoc(w, actions, With(v, c), a);
    assert Do(With(v, c), a) == With(v, Act(c, a));
  }

  lemma LookupNewest(w: World, actions: seq<Action>, v: World, c: Chat)
    requires v.chats != [] && IsRun(w, actions, With(v, c)) && HasAgent(c)
    requires ChatStreams.GetStreamer(v, "rpc", ChatId(c.number)) == Some(Newest(v))
    ensures IsRun(w, actions + [Lookup(Newest(v), "rpc", ChatId(c.number))],
                  With(v, c.(held := c.held + {Newest(v)})))
  {
    hide IsRun, Key, ChatId;
    var a := Lookup(Newest(v), "rpc", ChatId(c.number));
    RunSnoc(w, actions, With(v, c), a);
    assert Do(With(v, c), a) == With(v, c.(held := c.held + {Newest(v)}));
  }

  lemma UpdateNewest(w: World, actions: seq<Action>, v: World, c: Chat, text: string, ok: bool)
    requires v.chats != [] && IsRun(w, actions, With(v, c)) && Newest(v) in c.held && (ok ==> c.phase != Closed)
    ensures IsRun(w, actions + Updating(Newest(v), text, ok), With(v, if ok then Published(c, text) else c))
  {
    hide IsRun;
    var a := Update(Newest(v), Newest(v), text, ok);
    RunSnoc(w, actions, With(v, c), a);
    if ok {
      assert Do(With(v, c), a) == With(v, Updated(c, text));
      ActNewest(w, actions + [a], v, Updated(c, text), Mark(Newest(v)));
      assert actions + [a] + [Mark(Newest(v))] == actions + Updating(Newest(v), text, ok);
    } else {
      assert Do(With(v, c), a) == With(v, c);
    }
  }

  /** The turn is running and nothing has ended the stream. */
  predicate Talking(c: Chat) {
    HasAgent(c) && c.phase == Running && c.last.None?
  }

  /** One update of the newest chat's agent, from its lookup on. */
  lemma UpdateRun(w: World, actions: seq<Action>, v: World, c: Chat, text: string, ok: bool)
    returns (more: seq<Action>, d: Chat)
    requires v.chats != [] && IsRun(w, actions, With(v, c)) && Talking(c)
    requires GetStreamer(v, "rpc", ChatId(c.number)) == Some(Newest(v))
    ensures IsRun(w, more, With(v, d)) && Talking(d) && d.number == c.number
    ensures d.out == (if ok then c.out + [Content(text)] else c.out) && (d.published <==> c.published || ok)
  {
    hide IsRun, Key, ChatId, With, Published, Updating;
    LookupNewest(w, actions, v, c);
    more, d := actions + [Lookup(Newest(v), "rpc", ChatId(c.number))], c.(held := c.held + {Newest(v)});
    UpdateNewest(w, more, v, d, text, ok);
    PublishedFacts(d, text);
    more, d := more + Updating(Newest(v), text, ok), if ok then Published(d, text) else d;
  }

  /** The steps of one update: sent and marked, or refused. */
  function Updating(j: nat, text: string, ok: bool): seq<Action> {
    if ok then [Update(j, j, text, true), Mark(j)] else [Update(j, j, text, false)]
  }

  // ----- the stream of a chat -----

  /** How the agent's turn ends. */
  datatype Outcome = Response(text: string) | Failed(error: string) | Panicked(value: string)

  /** The updates that the stream accepts, when the first is write number n. */
  function Accepted(updates: seq<string>, accepts: nat -> bool, n: nat): seq<string>
    decreases |updates|
  {
    if updates == [] then []
    else
      var last := |updates| - 1;
      Accepted(updates[..last], accepts, n) + if accepts(n + last) then [updates[last]] else []
  }

  /** The stream of a chat whose agent got these updates through. */
  function Stream(texts: seq<string>, outcome: Outcome): seq<Chunk> {
    match outcome
    case Response(text) => Texts(if texts == [] then [text] else texts) + [Done]
    case Failed(error) => Texts(texts) + [Error(error)]
    case Panicked(value) => Texts(texts) + [Error("agent panic: " + value)]
  }

  /** The sends Chat makes after the turn are taken, the first of them being write number n: the terminal chunk, and
      before it the response when the agent got nothing through. */
  predicate SendsTaken(accepts: nat -> bool, n: nat, outcome: Outcome, silent: bool) {
    accepts(n) && (outcome.Response? && silent ==> accepts(n + 1))
  }

  /** What there is of a stream when one of those sends is refused. */
  function Unfinished(texts: seq<string>, outcome: Outcome, accepts: nat -> bool, n: nat): seq<Chunk> {
    Texts(texts) + if outcome.Response? && texts == [] && accepts(n) then [Content(outcome.text)] else []
  }

  lemma StreamGrammar(texts: seq<string>, outcome: Outcome)
    ensures Grammar(Stream(texts, outcome))
    ensures UpToEnd(Stream(texts, outcome)) == Stream(texts, outcome)
  {
    UpToFirst(Stream(texts, outcome), |Stream(texts, outcome)| - 1);
  }

  lemma AcceptedNone(front: seq<Chunk>, updates: seq<string>, accepts: nat -> bool, n: nat)
    ensures Accepted(updates[..0], accepts, n) == [] && front + Texts(Accepted(updates[..0], accepts, n)) == front
  {
  }

  lemma AcceptedNext(front: seq<Chunk>, updates: seq<string>, accepts: nat -> bool, n: nat, i: nat)
    requires i < |updates|
    ensures var before, after := Accepted(updates[..i], accepts, n), Accepted(updates[..i + 1], accepts, n);
            && front + Texts(after) == (if accepts(n + i) then front + Texts(before) + [Content(updates[i])]
                                        else front + Texts(before))
            && (after == [] <==> before == [] && !accepts(n + i))
  {
    assert updates[..i + 1][..i] == updates[..i];
    hide Texts;
    var before := Accepted(updates[..i], accepts, n);
    TextsSnoc(before, updates[i]);
    assert front + (Texts(before) + [Content(updates[i])]) == front + Texts(before) + [Content(updates[i])];
  }

  lemma AcceptedLast(updates: seq<string>, accepts: nat -> bool, n: nat)
    requires updates != [] && accepts(n + |updates| - 1)
    ensures var last := |updates| - 1;
            Accepted(updates, accepts, n) == Accepted(updates[..last], accepts, n) + [updates[last]]
  {
  }

  lemma {:induction false} AllAccepted(updates: seq<string>, accepts: nat -> bool, n: nat)
    requires forall k :: accepts(k)
    ensures Accepted(updates, accepts, n) == updates
    decreases |updates|
  {
    if updates != [] {
      hide Accepted;
      var last := |updates| - 1;
      AllAccepted(updates[..last], accepts, n);
      AcceptedLast(updates, accepts, n);
      assert updates[..last] + [updates[last]] == updates;
    }
  }

  // ----- the server -----

  /** These are chat c's response stream and streamer. */
  ghost predicate ChatIs(out: SendStream, streamer: Streamer?, c: Chat)
    reads out, streamer
  {
    && out.Is(c) && (streamer == null <==> c.refused)
    && (streamer != null ==> streamer.out == out && streamer.published == c.published)
  }

  class Server {
    const providerErr: Option<string>
    const delegate: StreamDelegate
    var callIds: nat
    /** Every chat's response stream, and its streamer unless the chat was refused. */
    ghost var outs: seq<SendStream>
    ghost var made: seq<Streamer?>

    constructor (delegate: StreamDelegate, providerErr: Option<string>)
      requires delegate.Is(INIT, [])
      ensures this.delegate == delegate && this.providerErr == providerErr && Is(INIT)
    {
      this.delegate := delegate;
      this.providerErr := providerErr;
      callIds := 0;
      outs, made := [], [];
    }

    /** These objects are the world w: its counter, its registry, and each chat's stream and streamer. */
    ghost predicate Is(w: World)
      reads this, delegate, outs, made
    {
      && callIds == w.calls % Wire.U64
      && |outs| == |made| == |w.chats|
      && delegate.Is(w, made)
      && (forall i, j | 0 <= i < j < |outs| :: outs[i] != outs[j])
      && forall j | 0 <= j < |outs| :: ChatIs(outs[j], made[j], w.chats[j])
    }

    /** callIDs.Add(1), which is all of the counter's part in a tool call. */
    method NextCall(ghost w: World) returns (n: nat)
      requires Is(w)
      modifies this`callIds
      ensures n == NextNumber(w) && Is(Do(w, ToolCall)) && callIds == n
    {
      callIds := (callIds + 1) % Wire.U64;
      n := callIds;
    }

    /** The Close step: the stream ends as Chat's result says. */
    method End(ghost w: World, ghost j: nat, out: SendStream, ok: bool)
      requires Is(w) && Enabled(w, Close(j)) && outs[j] == out
      modifies out`ending
      ensures Is(Do(w, Close(j))) && out.ending == if ok then Graceful else Aborted
    {
      hide Key, ChatId;
      out.ending := if ok then Graceful else Aborted;
    }

    /** One update of the agent: it finds the streamer under its chat's id and speaks through it. */
    method Speak(ghost w: World, ghost done: seq<Action>, ghost v: World, ghost c: Chat, chatId: string, text: string)
      returns (ok: bool, ghost actions: seq<Action>, ghost d: Chat)
      requires v.chats != [] && delegate.Is(v, made) && |made| == |v.chats|
      requires made[Newest(v)] != null && made[Newest(v)].Is(c) && chatId == ChatId(c.number)
      requires ChatStreams.GetStreamer(v, "rpc", chatId) == Some(Newest(v))
      requires IsRun(w, done, With(v, c)) && Talking(c)
      modifies made[Newest(v)], made[Newest(v)].out`writes, made[Newest(v)].out`sent
      ensures IsRun(w, actions, With(v, d)) && made[Newest(v)].Is(d)
      ensures Talking(d) && d.number == c.number
      ensures ok <==> made[Newest(v)].out.accepts(old(made[Newest(v)].out.writes))
      ensures made[Newest(v)].out.writes == old(made[Newest(v)].out.writes) + 1
      ensures d.out == if ok then c.out + [Content(text)] else c.out
      ensures d.published <==> c.published || ok
    {
      hide IsRun, Key, ChatId, With, Published;
      var found := delegate.GetStreamer(v, made, "rpc", chatId);
      ok := found.value.Update(c, text);
      PublishedFacts(c, text);
      actions, d := UpdateRun(w, done, v, c, text, ok);
    }

    /** turn: the agent makes its updates. */
    method Turn(ghost w: World, ghost done: seq<Action>, ghost v: World, ghost c: Chat,
                chatId: string, updates: seq<string>)
      returns (ghost actions: seq<Action>, ghost d: Chat)
      requires v.chats != [] && delegate.Is(v, made) && |made| == |v.chats|
      requires made[Newest(v)] != null && made[Newest(v)].Is(c) && chatId == ChatId(c.number)
      requires ChatStreams.GetStreamer(v, "rpc", chatId) == Some(Newest(v))
      requires IsRun(w, done, With(v, c)) && Talking(c) && !c.published
      modifies made[Newest(v)], made[Newest(v)].out`writes, made[Newest(v)].out`sent
      ensures IsRun(w, actions, With(v, d)) && made[Newest(v)].Is(d)
      ensures Talking(d) && d.number == c.number
      ensures made[Newest(v)].out.writes == old(made[Newest(v)].out.writes) + |updates|
      ensures var texts := Accepted(updates, made[Newest(v)].out.accepts, old(made[Newest(v)].out.writes));
              d.out == c.out + Texts(texts) && (d.published <==> texts != [])
    {
      hide IsRun, Accepted, Texts, Key, ChatId, With, Talking;
      ghost var streamer, n := made[Newest(v)], made[Newest(v)].out.writes;
      ghost var accepts := streamer.out.accepts;
      actions, d := done, c;
      AcceptedNone(c.out, updates, accepts, n);
      for i := 0 to |updates|
        invariant IsRun(w, actions, With(v, d)) && streamer.Is(d) && streamer.out.writes == n + i
        invariant Talking(d) && d.number == c.number
        invariant d.out == c.out + Texts(Accepted(updates[..i], accepts, n))
        invariant d.published <==> Accepted(updates[..i], accepts, n) != []
      {
        AcceptedNext(c.out, updates, accepts, n, i);
        var ok;
        ok, actions, d := Speak(w, actions, v, d, chatId, updates[i]);
      }
      assert updates[..|updates|] == updates;
    }

    /** What Chat sends once the turn is over. */
    method Answer(ghost w: World, ghost done: seq<Action>, ghost v: World, ghost c: Chat,
                  streamer: Streamer, outcome: Outcome)
      returns (ok: bool, ghost actions: seq<Action>, ghost d: Chat)
      requires v.chats != [] && streamer.Is(c)
      requires IsRun(w, done, With(v, c)) && c.phase == Running && c.last.None?
      modifies streamer.out`writes, streamer.out`sent
      ensures IsRun(w, actions, With(v, d)) && streamer.Is(d)
      ensures d.phase == (if ok then Ended else Broken) && (ok <==> d.last.Some?)
      ensures HasAgent(c) ==> HasAgent(d)
      ensures d.refused == c.refused && d.number == c.number
      ensures ok && outcome.Failed? ==> d.out == c.out + [Error(outcome.error)]
      ensures ok && outcome.Panicked? ==> d.out == c.out + [Error("agent panic: " + outcome.value)]
      ensures ok && outcome.Response? ==>
                d.out == if c.published then c.out + [Done] else c.out + [Content(outcome.text)] + [Done]
      ensures ok <==> SendsTaken(streamer.out.accepts, old(streamer.out.writes), outcome, !c.published)
      ensures !ok ==> d.out == c.out + if outcome.Response? && !c.published
              && streamer.out.accepts(old(streamer.out.writes))
                                       then [Content(outcome.text)] else []
    {
      hide IsRun, With;
      ghost var j := Newest(v);
      match outcome {
        case Failed(error) =>
          ActNewest(w, done, v, c, TurnFails(j, error));
          actions, d := done + [TurnFails(j, error)], Act(c, TurnFails(j, error));
          ok := streamer.out.Send(Error(error));
        case Panicked(value) =>
          ActNewest(w, done, v, c, TurnPanics(j, value));
          actions, d := done + [TurnPanics(j, value)], Act(c, TurnPanics(j, value));
          ok := streamer.out.Send(Error("agent panic: " + value));
        case Response(text) =>
          ActNewest(w, done, v, c, TurnReturns(j, text));
          actions, d := done + [TurnReturns(j, text)], Act(c, TurnReturns(j, text));
          if !streamer.published {
            ok := streamer.out.Send(Content(text));
            ActNewest(w, actions, v, d, ChatStreams.Action.Send(j, ok));
            actions, d := actions + [ChatStreams.Action.Send(j, ok)], Act(d, ChatStreams.Action.Send(j, ok));
            if !ok {
              return;
            }
          }
          ok := streamer.out.Send(Done);
      }
      ActNewest(w, actions, v, d, ChatStreams.Action.Send(j, ok));
      actions, d := actions + [ChatStreams.Action.Send(j, ok)], Act(d, ChatStreams.Action.Send(j, ok));
    }

    /** A whole Chat call whose agent makes the given updates and then ends as given: a run of the model by
        itself. When every send of Chat succeeds, the stream gets the accepted updates, the response once if
        there are none, and one terminal chunk. */
    method Chat(ghost w: World, out: SendStream, updates: seq<string>, outcome: Outcome)
      returns (ok: bool, ghost actions: seq<Action>, ghost u: World)
      requires Is(w) && out !in outs && out.sent == [] && out.writes == 0 && out.ending == StillOpen
      modifies this, delegate, out`writes, out`sent
      ensures IsRun(w, actions, u) && Is(u) && outs == old(outs) + [out]
      ensures |u.chats| == |w.chats| + 1 && u.chats[..|w.chats|] == w.chats
      ensures var c := u.chats[|w.chats|];
              && c.refused == providerErr.Some? && (ok <==> c.last.Some?)
              && c.phase == (if !c.refused then Returned else if ok then Ended else Broken)
      ensures ok <==> if providerErr.Some? then out.accepts(0)
                      else SendsTaken(out.accepts, |updates|, outcome, Accepted(updates, out.accepts, 0) == [])
      ensures providerErr.Some? ==> out.sent == if ok then [Error("no model: " + providerErr.value)] else []
      ensures providerErr.None? ==>
                out.sent == if ok then Stream(Accepted(updates, out.accepts, 0), outcome)
                            else Unfinished(Accepted(updates, out.accepts, 0), outcome, out.accepts, |updates|)
    {
      if providerErr.Some? {
        ok, actions, u := Refusal(w, out);
      } else {
        ok, actions, u := Converse(w, out, updates, outcome);
      }
    }

    /** Chat with a provider. */
    method Converse(ghost w: World, out: SendStream, updates: seq<string>, outcome: Outcome)
      returns (ok: bool, ghost actions: seq<Action>, ghost u: World)
      requires Is(w) && out !in outs && out.sent == [] && out.writes == 0 && out.ending == StillOpen
      modifies this, delegate, out`writes, out`sent
      ensures IsRun(w, actions, u) && Is(u) && outs == old(outs) + [out]
      ensures |u.chats| == |w.chats| + 1 && u.chats[..|w.chats|] == w.chats
      ensures var c := u.chats[|w.chats|]; !c.refused && (ok <==> c.last.Some?) && c.phase == Returned
      ensures ok <==> SendsTaken(out.accepts, |updates|, outcome, Accepted(updates, out.accepts, 0) == [])
      ensures out.sent == if ok then Stream(Accepted(updates, out.accepts, 0), outcome)
                          else Unfinished(Accepted(updates, out.accepts, 0), outcome, out.accepts, |updates|)
    {
      hide IsRun, Accepted, Stream, Key, ChatId, With, ChatIs;
      var chatId, streamer;
      ghost var v, c;
      chatId, streamer, v := Enter(w, out);
      label entered:
      ok, actions, c := Serve(w, v, v.chats[|w.chats|], chatId, streamer, updates, outcome);
      OthersKept@entered(w);
      actions, u := Leave(w, actions, v, c, chatId);
    }

    /** The objects of the chats before the newest one, which none of them shares. */
    ghost predicate Others(w: World)
      reads this, outs, made
    {
      && |outs| == |made| == |w.chats| + 1
      && (forall i, k | 0 <= i < k < |outs| :: outs[i] != outs[k])
      && forall i | 0 <= i < |w.chats| :: made[i] != made[|w.chats|] && ChatIs(outs[i], made[i], w.chats[i])
    }

    twostate lemma OthersKept(w: World)
      requires old(Others(w)) && unchanged(this)
      requires forall i | 0 <= i < |w.chats| :: unchanged(outs[i]) && (made[i] != null ==> unchanged(made[i]))
      ensures Others(w)
    {
    }

    /** A chat drawn and registered. */
    method Enter(ghost w: World, out: SendStream) returns (chatId: string, streamer: Streamer, ghost v: World)
      requires Is(w) && out !in outs && out.sent == [] && out.ending == StillOpen
      modifies this, delegate
      ensures fresh(streamer) && streamer.out == out && !streamer.published
      ensures outs == old(outs) + [out] && made == old(made) + [streamer] && Others(w) && delegate.Is(v, made)
      ensures v.chats == w.chats + [Fresh(NextNumber(w)).(phase := Running)] && v.calls == w.calls + 1
      ensures chatId == ChatId(NextNumber(w)) && callIds == v.calls % Wire.U64
      ensures ChatStreams.GetStreamer(v, "rpc", chatId) == Some(|w.chats|) && With(v, v.chats[|w.chats|]) == v
      ensures IsRun(w, [ChatStreams.Action.Draw, ChatStreams.Action.Register(|w.chats|)], v)
    {
      hide IsRun, Key, ChatId, With, ChatIs;
      ghost var drawn := Do(w, ChatStreams.Action.Draw);
      chatId, streamer := Draw(w, out);
      v := DrawRun(w);
      hide Do, Enabled;
      assert forall i | 0 <= i < |w.chats| :: drawn.chats[i] == w.chats[i];
      label drawn:
      delegate.Register(drawn, made, |w.chats|, "rpc", chatId, streamer);
      OthersKept@drawn(w);
    }

    /** The newest chat unregistered. */
    method Leave(ghost w: World, ghost done: seq<Action>, ghost v: World, ghost c: Chat, chatId: string)
      returns (ghost actions: seq<Action>, ghost u: World)
      requires Others(w) && |v.chats| == |w.chats| + 1 && v.chats[..|w.chats|] == w.chats
      requires delegate.Is(v, made) && callIds == v.calls % Wire.U64
      requires IsRun(w, done, With(v, c)) && chatId == ChatId(c.number)
      requires !c.refused && (c.phase == Ended || c.phase == Broken)
      requires made[|w.chats|] != null && made[|w.chats|].out == outs[|w.chats|] && made[|w.chats|].Is(c)
      modifies delegate
      ensures IsRun(w, actions, u) && Is(u) && u.chats == w.chats + [c.(phase := Returned)]
    {
      hide IsRun, Key, ChatId, With;
      ghost var j := |w.chats|;
      UnregisterNewest(w, done, v, c);
      hide Do, Enabled;
      delegate.Unregister(With(v, c), made, j, "rpc", chatId);
      actions, u := done + [ChatStreams.Action.Unregister(j)], Do(With(v, c), ChatStreams.Action.Unregister(j));
      assert u.chats == w.chats + [c.(phase := Returned)];
      Assemble(w, c.(phase := Returned), u);
    }

    lemma Assemble(w: World, c: Chat, u: World)
      requires |outs| == |made| == |w.chats| + 1 && u.chats == w.chats + [c] && callIds == u.calls % Wire.U64
      requires forall i, k | 0 <= i < k < |outs| :: outs[i] != outs[k]
      requires forall i | 0 <= i < |w.chats| :: ChatIs(outs[i], made[i], w.chats[i])
      requires ChatIs(outs[|w.chats|], made[|w.chats|], c) && delegate.Is(u, made)
      ensures Is(u)
    {
    }

    /** Chat between register and unregister. */
    method Serve(ghost w: World, ghost v: World, ghost c: Chat,
                 chatId: string, streamer: Streamer, updates: seq<string>, outcome: Outcome)
      returns (ok: bool, ghost actions: seq<Action>, ghost d: Chat)
      requires v.chats != [] && delegate.Is(v, made) && |made| == |v.chats| && made[Newest(v)] == streamer
      requires streamer.Is(c) && c == Fresh(c.number).(phase := Running) && streamer.out.writes == 0
      requires chatId == ChatId(c.number) && ChatStreams.GetStreamer(v, "rpc", chatId) == Some(Newest(v))
      requires IsRun(w, [ChatStreams.Action.Draw, ChatStreams.Action.Register(Newest(v))], With(v, c))
      modifies streamer, streamer.out`writes, streamer.out`sent
      ensures IsRun(w, actions, With(v, d)) && streamer.Is(d)
      ensures d.phase == (if ok then Ended else Broken) && (ok <==> d.last.Some?)
      ensures !d.refused && d.number == c.number
      ensures ok <==> SendsTaken(streamer.out.accepts, |updates|, outcome,
              Accepted(updates, streamer.out.accepts, 0) == [])
      ensures d.out == if ok then Stream(Accepted(updates, streamer.out.accepts, 0), outcome)
                       else Unfinished(Accepted(updates, streamer.out.accepts, 0), outcome, streamer.out.accepts,
                           |updates|)
    {
      hide IsRun, Accepted, Stream, Texts, Key, ChatId, With;
      actions := [ChatStreams.Action.Draw, ChatStreams.Action.Register(Newest(v))];
      actions, d := Turn(w, actions, v, c, chatId, updates);
      ok, actions, d := Answer(w, actions, v, d, streamer, outcome);
      StreamAppend(Accepted(updates, streamer.out.accepts, 0), outcome, streamer.out.accepts, |updates|);
    }

    method Refusal(ghost w: World, out: SendStream) returns (ok: bool, ghost actions: seq<Action>, ghost u: World)
      requires Is(w) && out !in outs && out.sent == [] && out.writes == 0 && out.ending == StillOpen
      requires providerErr.Some?
      modifies this`outs, this`made, out`writes, out`sent
      ensures IsRun(w, actions, u) && Is(u) && outs == old(outs) + [out]
      ensures |u.chats| == |w.chats| + 1 && u.chats[..|w.chats|] == w.chats
      ensures var c := u.chats[|w.chats|];
              c.refused && (ok <==> c.last.Some?) && c.phase == if ok then Ended else Broken
      ensures ok <==> out.accepts(0)
      ensures out.sent == if ok then [Error("no model: " + providerErr.value)] else []
    {
      hide IsRun;
      ok := out.Send(Error("no model: " + providerErr.value));
      actions, u := RefusalRun(w, providerErr.value, ok);
      outs, made := outs + [out], made + [null];
      hide Key, ChatId;
      Assemble(w, u.chats[|w.chats|], u);
    }

    /** The id drawn and the streamer made. */
    method Draw(ghost w: World, out: SendStream) returns (chatId: string, streamer: Streamer)
      requires Is(w) && out !in outs && out.sent == [] && out.ending == StillOpen
      modifies this
      ensures Is(Do(w, ChatStreams.Action.Draw)) && chatId == ChatId(NextNumber(w)) == "rpc-" + Decimal(callIds)
      ensures callIds == (old(callIds) + 1) % Wire.U64
      ensures fresh(streamer) && streamer.out == out && !streamer.published
      ensures outs == old(outs) + [out] && made == old(made) + [streamer]
    {
      hide Key, ChatId, ChatIs;
      callIds := (callIds + 1) % Wire.U64;
      chatId := NumberedId(callIds);
      streamer := new Streamer(out);
      delegate.Grown(w, Do(w, ChatStreams.Action.Draw), made, streamer);
      outs, made := outs + [out], made + [streamer];
      StreamerIs(out, streamer, NextNumber(w));
      Assemble(w, Fresh(NextNumber(w)), Do(w, ChatStreams.Action.Draw));
    }
  }

  lemma StreamerIs(out: SendStream, streamer: Streamer, number: nat)
    requires out.sent == [] && out.ending == StillOpen && streamer.out == out && !streamer.published
    ensures ChatIs(out, streamer, Fresh(number))
  {
  }

  function NumberedId(n: nat): (chatId: string)
    ensures chatId == ChatId(n) == "rpc-" + Decimal(n)
  {
    "rpc-" + Decimal(n)
  }

  /** A refused chat and its error chunk, taken by the stream or not. */
  lemma RefusalRun(w: World, error: string, ok: bool) returns (actions: seq<Action>, u: World)
    ensures IsRun(w, actions, u) && |u.chats| == |w.chats| + 1
    ensures var c := u.chats[|w.chats|];
            && u == w.(chats := w.chats + [c]) && c.refused && !c.published && (ok <==> c.last.Some?)
            && c.phase == (if ok then Ended else Broken)
            && c.out == if ok then [] + [Error("no model: " + error)] else []
  {
    hide IsRun;
    var j, v := |w.chats|, Do(w, Refuse(error));
    RunNone(w);
    RunSnoc(w, [], w, Refuse(error));
    RunSnoc(w, [] + [Refuse(error)], v, Send(j, ok));
    actions, u := [] + [Refuse(error)] + [Send(j, ok)], Do(v, Send(j, ok));
    assert u.chats == w.chats + [u.chats[j]];
  }

  /** The draw and the registration of a new chat. */
  lemma DrawRun(w: World) returns (v: World)
    ensures var drawn := Do(w, Draw);
            && Enabled(drawn, Register(|w.chats|)) && v == Do(drawn, Register(|w.chats|))
            && drawn.chats == w.chats + [Fresh(NextNumber(w))] && drawn.registry == w.registry
    ensures v.chats == w.chats + [Fresh(NextNumber(w)).(phase := Running)] && v.calls == w.calls + 1
    ensures GetStreamer(v, "rpc", ChatId(NextNumber(w))) == Some(|w.chats|)
    ensures With(v, v.chats[|w.chats|]) == v && IsRun(w, [Draw, Register(|w.chats|)], v)
  {
    hide Key, ChatId;
    var drawn := Do(w, Draw);
    v := Do(drawn, Register(|w.chats|));
    RunNone(w);
    hide IsRun;
    RunSnoc(w, [], w, Draw);
    RunSnoc(w, [] + [Draw], drawn, Register(|w.chats|));
    assert [] + [Draw] + [Register(|w.chats|)] == [Draw, Register(|w.chats|)];
    assert v.chats == w.chats + [Fresh(NextNumber(w)).(phase := Running)];
  }

  lemma UnregisterNewest(w: World, actions: seq<Action>, v: World, c: Chat)
    requires v.chats != [] && IsRun(w, actions, With(v, c)) && !c.refused && (c.phase == Ended || c.phase == Broken)
    ensures With(v, c).registry == v.registry && |With(v, c).chats| == |v.chats| && With(v, c).chats[Newest(v)] == c
    ensures Enabled(With(v, c), Unregister(Newest(v)))
    ensures IsRun(w, actions + [Unregister(Newest(v))], Do(With(v, c), Unregister(Newest(v))))
    ensures Do(With(v, c), Unregister(Newest(v))).chats == v.chats[Newest(v) := c.(phase := Returned)]
    ensures Do(With(v, c), Unregister(Newest(v))).calls == v.calls
  {
    hide IsRun, Key, ChatId;
    RunSnoc(w, actions, With(v, c), Unregister(Newest(v)));
  }

  /** The stream, as the sends append it. */
  lemma StreamAppend(texts: seq<string>, outcome: Outcome, accepts: nat -> bool, n: nat)
    ensures Unfinished(texts, outcome, accepts, n)
            == [] + Texts(texts) + if outcome.Response? && texts == [] && accepts(n) then [Content(outcome.text)]
                else []
    ensures Stream(texts, outcome) ==
            if outcome.Failed? then [] + Texts(texts) + [Error(outcome.error)]
            else if outcome.Panicked? then [] + Texts(texts) + [Error("agent panic: " + outcome.value)]
            else if texts == [] then [] + Texts(texts) + [Content(outcome.text)] + [Done]
            else [] + Texts(texts) + [Done]
  {
    TextsSnoc([], if outcome.Response? then outcome.text else "");
  }

  // ----- the handler -----

  datatype HandlerError = UnexpectedEvent | NoHandler | BadRequest

  /** An event, a missing server and an undecodable request are refused before any stream exists. Otherwise the
      handler is one run of the model, from the draw to the end of the stream, which is graceful exactly when
      the terminal chunk was sent. */
  method HandleChat(server: Server?, ghost w: World, isEvent: bool, data: Wire.Bytes, max: nat,
                    accepts: nat -> bool, updates: seq<string>, outcome: Outcome)
    returns (r: Result<SendStream, HandlerError>, ghost actions: seq<Action>, ghost u: World)
    requires server != null ==> server.Is(w)
    modifies if server == null then {} else {server, server.delegate}
    ensures r.Success? <==> !isEvent && server != null && (data == [] || Messages.ChatRequest.Parse(data).Ok?)
    ensures r.Failure? ==>
              r.error == if isEvent then UnexpectedEvent else if server == null then NoHandler else BadRequest
    ensures r.Success? ==>
              && IsRun(w, actions, u) && server.Is(u) && |u.chats| == |w.chats| + 1 && u.chats[..|w.chats|] == w.chats
              && u.chats[|w.chats|].phase == Closed && u.chats[|w.chats|].out == r.value.sent
              && (r.value.ending == Graceful <==> u.chats[|w.chats|].last.Some?)
              && (r.value.ending == Graceful ==> Grammar(r.value.sent))
              && (r.value.ending == Graceful <==>
                  if server.providerErr.Some? then accepts(0)
                  else SendsTaken(accepts, |updates|, outcome, Accepted(updates, accepts, 0) == []))
              && (r.value.ending == Graceful ==>
                    r.value.sent == if server.providerErr.Some? then [Error("no model: " + server.providerErr.value)]
                                    else Stream(Accepted(updates, accepts, 0), outcome))
              && (server.providerErr.None? && (forall n :: accepts(n)) ==>
                    r.value.ending == Graceful && r.value.sent == Stream(updates, outcome))
  {
    actions, u := [], w;
    if isEvent {
      return Failure(UnexpectedEvent), actions, u;
    }
    if server == null {
      return Failure(NoHandler), actions, u;
    }
    var request := new GoSchema.BareclawChatRequest();
    var err := Hrpc.DecodeChatRequest(data, request, max);
    if err.Failure? {
      return Failure(BadRequest), actions, u;
    }
    hide IsRun, Stream, Accepted, Grammar;
    var out := new SendStream(accepts);
    actions, u := Respond(server, w, out, updates, outcome);
    if forall n :: accepts(n) {
      AllAccepted(updates, accepts, 0);
    }
    r := Success(out);
  }

  /** The chat and the end of its stream. */
  method Respond(server: Server, ghost w: World, out: SendStream, updates: seq<string>, outcome: Outcome)
    returns (ghost actions: seq<Action>, ghost u: World)
    requires server.Is(w) && out !in server.outs && out.sent == [] && out.writes == 0 && out.ending == StillOpen
    modifies server, server.delegate, out
    ensures IsRun(w, actions, u) && server.Is(u) && |u.chats| == |w.chats| + 1 && u.chats[..|w.chats|] == w.chats
    ensures u.chats[|w.chats|].phase == Closed && u.chats[|w.chats|].out == out.sent
    ensures out.ending == (if u.chats[|w.chats|].last.Some? then Graceful else Aborted)
    ensures out.ending == Graceful ==> Grammar(out.sent)
    ensures out.ending == Graceful <==>
            if server.providerErr.Some? then out.accepts(0)
            else SendsTaken(out.accepts, |updates|, outcome, Accepted(updates, out.accepts, 0) == [])
    ensures out.ending == Graceful ==>
              out.sent == if server.providerErr.Some? then [Error("no model: " + server.providerErr.value)]
                          else Stream(Accepted(updates, out.accepts, 0), outcome)
  {
    hide IsRun, Stream, Accepted, Grammar;
    var ok;
    ok, actions, u := server.Chat(w, out, updates, outcome);
    StreamGrammar(Accepted(updates, out.accepts, 0), outcome);
    RefusalGrammar(if server.providerErr.Some? then server.providerErr.value else "");
    CloseNewest(w, actions, u);
    server.End(u, |w.chats|, out, ok);
    actions, u := actions + [Close(|w.chats|)], Do(u, Close(|w.chats|));
  }

  lemma RefusalGrammar(error: string)
    ensures Grammar([Error("no model: " + error)])
  {
  }

  lemma CloseNewest(w: World, actions: seq<Action>, u: World)
    requires IsRun(w, actions, u) && |u.chats| == |w.chats| + 1
    requires CanAct(u.chats[|w.chats|], Close(|w.chats|))
    ensures Enabled(u, Close(|w.chats|)) && IsRun(w, actions + [Close(|w.chats|)], Do(u, Close(|w.chats|)))
    ensures Do(u, Close(|w.chats|)) == u.(chats := u.chats[|w.chats| := u.chats[|w.chats|].(phase := Closed)])
  {
    hide IsRun;
    RunSnoc(w, actions, u, Close(|w.chats|));
  }
}

/** examples/dht-shared.js as a protocol: N agents each post one idea to a hub, which appends it to a board
    and broadcasts the board to every connected socket. Links are FIFO and lose nothing; no socket closes. */
module Blackboard {
  import opened Wrappers
  import opened Counting

  datatype Item = Item(from: nat, text: string)

  datatype Msg = Post(from: nat, text: string) | Board(items: seq<Item>)

  /** One agent and its socket: up is what it sent and the hub has not read, down the reverse. */
  datatype Client = Client(
    accepted: bool,                // the hub's connection handler ran: the socket is in conns
    posted: bool,                  // the agent's open event fired: its post is written
    up: seq<Msg>,
    down: seq<Msg>,
    latest: seq<Item>,
    resolved: Option<seq<Item>>)   // what gotFullBoard resolved to

  /** text[i] is agent i's idea. */
  datatype State = State(text: seq<string>, board: seq<Item>, clients: seq<Client>)

  datatype Action = Accept(i: nat) | Open(i: nat) | HubReceive(i: nat) | AgentReceive(i: nat)

  function Init(text: seq<string>): State {
    State(text, [], seq(|text|, _ => Client(false, false, [], [], [], None)))
  }

  // ----- handlers -----

  /** The hub's message handler: only posts count, and each is fanned out to every connection. */
  function HubHandled(s: State, msg: Msg): State {
    match msg
    case Board(_) => s
    case Post(from, text) =>
      var board := s.board + [Item(from, text)];
      s.(board := board, clients := Broadcast(s.clients, Board(board)))
  }

  function Broadcast(cs: seq<Client>, msg: Msg): (r: seq<Client>)
    ensures |r| == |cs|
  {
    seq(|cs|, j requires 0 <= j < |cs| => if cs[j].accepted then cs[j].(down := cs[j].down + [msg]) else cs[j])
  }

  /** The agent's message handler; a promise resolves once. */
  function AgentHandled(c: Client, msg: Msg, expected: nat): Client {
    match msg
    case Post(_, _) => c
    case Board(items) =>
      c.(latest := items,
         resolved := if |items| >= expected && c.resolved.None? then Some(items) else c.resolved)
  }

  // ----- steps -----

  predicate Enabled(s: State, a: Action) {
    a.i < |s.clients| &&
    match a
    case Accept(i) => !s.clients[i].accepted
    case Open(i) => !s.clients[i].posted
    case HubReceive(i) => s.clients[i].accepted && s.clients[i].up != []
    case AgentReceive(i) => s.clients[i].down != []
  }

  function Do(s: State, a: Action): State
    requires Enabled(s, a) && |s.text| == |s.clients|
  {
    var i := a.i;
    var c := s.clients[i];
    match a
    case Accept(_) => s.(clients := s.clients[i := c.(accepted := true)])
    case Open(_) => s.(clients := s.clients[i := c.(posted := true, up := c.up + [Post(i, s.text[i])])])
    case HubReceive(_) => HubHandled(s.(clients := s.clients[i := c.(up := c.up[1..])]), c.up[0])
    case AgentReceive(_) =>
      s.(clients := s.clients[i := AgentHandled(c.(down := c.down[1..]), c.down[0], |s.clients|)])
  }

  // ----- what every step keeps -----

  /** Agent j's post has been read by the hub. */
  predicate Filed(s: State, j: nat)
    requires j < |s.clients|
  {
    s.clients[j].posted && s.clients[j].up == []
  }

  /** What is in flight to a client is exactly the last few boards, in order, and latest is the one before them. */
  ghost predicate InFlight(c: Client, b: seq<Item>) {
    && |c.down| <= |b|
    && (forall k | 0 <= k < |c.down| :: c.down[k] == Board(b[..|b| - |c.down| + 1 + k]))
    && (c.latest == [] || c.latest == b[..|b| - |c.down|])
  }

  ghost predicate ClientOk(s: State, j: nat)
    requires j < |s.clients| == |s.text|
  {
    var c := s.clients[j];
    var b := s.board;
    && (!c.posted ==> c.up == [])
    && (c.posted && c.up != [] ==> c.up == [Post(j, s.text[j])])
    && (Filed(s, j) <==> Item(j, s.text[j]) in b)
    && (Filed(s, j) ==> c.accepted)
    && (!c.accepted ==> c.down == [] && c.latest == [])
    && InFlight(c, b)
    && (Filed(s, j) && c.down == [] ==> c.latest == b)
    && (c.resolved.Some? ==> c.resolved.value == b && |b| == |s.clients|)
    && (|c.latest| >= |s.clients| ==> c.resolved.Some?)
  }

  ghost predicate BoardOk(s: State) {
    && (forall k | 0 <= k < |s.board| ::
          s.board[k].from < |s.text| && s.board[k].text == s.text[s.board[k].from])
    && (forall k, l | 0 <= k < l < |s.board| :: s.board[k].from != s.board[l].from)
  }

  ghost predicate Inv(s: State) {
    && |s.text| == |s.clients|
    && BoardOk(s)
    && forall j | 0 <= j < |s.clients| :: ClientOk(s, j)
  }

  lemma InitInv(text: seq<string>)
    ensures Inv(Init(text))
  {
  }

  function Froms(board: seq<Item>): (froms: seq<nat>)
    ensures |froms| == |board|
  {
    seq(|board|, k requires 0 <= k < |board| => board[k].from)
  }

  /** The board never has more than N items, and has N exactly when every agent's post is on it. */
  lemma FullBoard(s: State)
    requires BoardOk(s) && |s.text| == |s.clients|
    ensures |s.board| <= |s.text|
    ensures |s.board| == |s.text| <==> forall j | 0 <= j < |s.text| :: Item(j, s.text[j]) in s.board
  {
    var froms := Froms(s.board);
    assert Distinct(froms);
    Pigeonhole(froms, |s.text|);
    forall j | 0 <= j < |s.text| ensures j in froms <==> Item(j, s.text[j]) in s.board {
      if j in froms {
        var k :| 0 <= k < |froms| && froms[k] == j;
        assert s.board[k] == Item(j, s.text[j]);
      }
      if Item(j, s.text[j]) in s.board {
        var k :| 0 <= k < |s.board| && s.board[k] == Item(j, s.text[j]);
        assert froms[k] == j;
      }
    }
  }

  lemma AcceptKeepsInv(s: State, i: nat)
    requires Inv(s) && Enabled(s, Accept(i))
    ensures Inv(Do(s, Accept(i)))
  {
    var t := Do(s, Accept(i));
    forall j | 0 <= j < |t.clients| ensures ClientOk(t, j) {
      assert ClientOk(s, j);
    }
  }

  lemma OpenKeepsInv(s: State, i: nat)
    requires Inv(s) && Enabled(s, Open(i))
    ensures Inv(Do(s, Open(i)))
  {
    var t := Do(s, Open(i));
    forall j | 0 <= j < |t.clients| ensures ClientOk(t, j) {
      assert ClientOk(s, j);
    }
  }

  lemma AgentReceiveKeepsInv(s: State, i: nat)
    requires Inv(s) && Enabled(s, AgentReceive(i))
    ensures Inv(Do(s, AgentReceive(i)))
  {
    var t := Do(s, AgentReceive(i));
    FullBoard(s);
    forall j | 0 <= j < |t.clients| ensures ClientOk(t, j) {
      assert ClientOk(s, j);
      if j == i {
        var d := s.clients[i].down;
        assert d[0] == Board(s.board[..|s.board| - |d| + 1]);
        forall k | 0 <= k < |d| - 1 ensures d[1..][k] == Board(s.board[..|s.board| - (|d| - 1) + 1 + k]) {
          assert d[1..][k] == d[k + 1];
        }
        if |d| == 1 {
          assert s.board[..|s.board|] == s.board;
        }
      }
    }
  }

  lemma HubReceiveKeepsBoard(s: State, i: nat)
    requires Inv(s) && Enabled(s, HubReceive(i))
    ensures BoardOk(Do(s, HubReceive(i)))
    ensures Do(s, HubReceive(i)).board == s.board + [Item(i, s.text[i])] && Item(i, s.text[i]) !in s.board
    ensures |s.board| < |s.clients|
  {
    assert ClientOk(s, i);
    var t := Do(s, HubReceive(i));
    assert !Filed(s, i);
    assert t.board == s.board + [Item(i, s.text[i])];
    forall k | 0 <= k < |s.board| ensures s.board[k].from != i {
      assert s.board[k] in s.board;
    }
    FullBoard(t);
  }

  lemma HubReceiveKeepsInv(s: State, i: nat)
    requires Inv(s) && Enabled(s, HubReceive(i))
    ensures Inv(Do(s, HubReceive(i)))
  {
    var t := Do(s, HubReceive(i));
    HubReceiveKeepsBoard(s, i);
    forall j | 0 <= j < |t.clients| ensures ClientOk(t, j) {
      HubReceiveKeepsClient(s, i, j);
    }
  }

  /** A post that is read is the one its agent wrote. */
  lemma PostRead(s: State, i: nat)
    requires Inv(s) && Enabled(s, HubReceive(i))
    ensures var c, item := s.clients[i], Item(i, s.text[i]);
            && c.posted && c.accepted && c.up == [Post(i, s.text[i])] && item !in s.board
            && Do(s, HubReceive(i)) == s.(board := s.board + [item],
                                          clients := Broadcast(s.clients[i := c.(up := [])], Board(s.board + [item])))
            && |s.board| < |s.clients|
  {
    HubReceiveKeepsBoard(s, i);
    assert ClientOk(s, i) && !Filed(s, i);
    assert s.clients[i].up[1..] == [];
  }

  lemma HubReceiveKeepsClient(s: State, i: nat, j: nat)
    requires Inv(s) && Enabled(s, HubReceive(i)) && j < |s.clients|
    ensures ClientOk(Do(s, HubReceive(i)), j)
  {
    PostRead(s, i);
    assert ClientOk(s, j);
    hide Inv, Do, Enabled, InFlight;
    var item := Item(i, s.text[i]);
    assert Item(j, s.text[j]) in s.board + [item] <==> Item(j, s.text[j]) in s.board || j == i;
    BroadcastInFlight(s.clients[j], s.board, item, if j == i then [] else s.clients[j].up);
  }

  /** A board broadcast to a client goes behind those in flight to it, each still the prefix it was. */
  lemma BroadcastInFlight(c: Client, b: seq<Item>, item: Item, up: seq<Msg>)
    requires InFlight(c, b) && (!c.accepted ==> c.down == [] && c.latest == [])
    ensures InFlight(c.(up := up, down := if c.accepted then c.down + [Board(b + [item])] else c.down), b + [item])
  {
    var board := b + [item];
    assert board[..|board|] == board;
    forall k | 0 <= k < |c.down| ensures c.down[k] == Board(board[..|b| - |c.down| + 1 + k]) {
      assert board[..|b| - |c.down| + 1 + k] == b[..|b| - |c.down| + 1 + k];
    }
    assert board[..|b| - |c.down|] == b[..|b| - |c.down|];
  }

  lemma StepKeepsInv(s: State, a: Action)
    requires Inv(s) && Enabled(s, a)
    ensures Inv(Do(s, a)) && Do(s, a).text == s.text
  {
    match a
    case Accept(i) => AcceptKeepsInv(s, i);
    case Open(i) => OpenKeepsInv(s, i);
    case HubReceive(i) => HubReceiveKeepsInv(s, i); assert ClientOk(s, i);
    case AgentReceive(i) => AgentReceiveKeepsInv(s, i);
  }

  // ----- every run ends -----

  /** The steps a client can still take: accept, open and read what is in flight. */
  function Pending(c: Client): nat {
    (if c.accepted then 0 else 1) + (if c.posted then 0 else 1) + |c.down|
  }

  function TotalPending(cs: seq<Client>): nat {
    if cs == [] then 0 else Pending(cs[0]) + TotalPending(cs[1..])
  }

  /** Each post still to be filed costs one hub step and at most N agent steps. */
  function Measure(s: State): int {
    TotalPending(s.clients) + (|s.clients| + 1) * (|s.clients| - |s.board|)
  }

  lemma {:induction false} PendingUpdate(cs: seq<Client>, i: nat, c: Client)
    requires i < |cs|
    ensures TotalPending(cs[i := c]) == TotalPending(cs) - Pending(cs[i]) + Pending(c)
  {
    if i > 0 {
      PendingUpdate(cs[1..], i - 1, c);
      assert cs[i := c][1..] == cs[1..][i - 1 := c];
    } else {
      assert cs[i := c][1..] == cs[1..];
    }
  }

  lemma {:induction false} PendingBroadcast(cs: seq<Client>, msg: Msg)
    ensures TotalPending(Broadcast(cs, msg)) <= TotalPending(cs) + |cs|
  {
    if cs != [] {
      PendingBroadcast(cs[1..], msg);
      assert Broadcast(cs, msg)[1..] == Broadcast(cs[1..], msg);
    }
  }

  lemma LocalCost(s: State, a: Action)
    requires Enabled(s, a) && !a.HubReceive? && |s.text| == |s.clients|
    ensures a.i < |s.clients| == |Do(s, a).clients|
    ensures var t := Do(s, a);
            && t.clients == s.clients[a.i := t.clients[a.i]] && Pending(t.clients[a.i]) < Pending(s.clients[a.i])
            && t.board == s.board
  {
  }

  lemma HubReceiveDecreases(s: State, i: nat)
    requires Inv(s) && Enabled(s, HubReceive(i))
    ensures Measure(Do(s, HubReceive(i))) < Measure(s)
  {
    PostRead(s, i);
    var n, m, c := |s.clients|, |s.clients| - |s.board|, s.clients[i];
    var popped, board := s.clients[i := c.(up := [])], s.board + [Item(i, s.text[i])];
    assert Pending(c.(up := [])) == Pending(c);
    hide Inv, Do, Enabled, Pending, Broadcast;
    PendingUpdate(s.clients, i, c.(up := []));
    PendingBroadcast(popped, Board(board));
    assert (n + 1) * m == (n + 1) * (m - 1) + n + 1;
  }

  lemma StepDecreases(s: State, a: Action)
    requires Inv(s) && Enabled(s, a)
    ensures Measure(Do(s, a)) < Measure(s)
  {
    if a.HubReceive? {
      HubReceiveDecreases(s, a.i);
    } else {
      hide Pending, TotalPending, Do, Enabled;
      LocalCost(s, a);
      PendingUpdate(s.clients, a.i, Do(s, a).clients[a.i]);
    }
  }

  lemma {:induction false} InitMeasure(cs: seq<Client>)
    requires forall i | 0 <= i < |cs| :: cs[i] == Client(false, false, [], [], [], None)
    ensures TotalPending(cs) == 2 * |cs|
  {
    if cs != [] {
      InitMeasure(cs[1..]);
    }
  }

  /** t is reached from s by the actions in order. */
  ghost predicate IsRun(s: State, actions: seq<Action>, t: State)
    decreases |actions|
  {
    if actions == [] then s == t
    else |s.text| == |s.clients| && Enabled(s, actions[0]) && IsRun(Do(s, actions[0]), actions[1..], t)
  }

  lemma {:induction false} RunKeeps(s: State, actions: seq<Action>, t: State)
    requires Inv(s) && IsRun(s, actions, t)
    ensures Inv(t) && t.text == s.text && |actions| + Measure(t) <= Measure(s)
    decreases |actions|
  {
    if actions != [] {
      StepKeepsInv(s, actions[0]);
      StepDecreases(s, actions[0]);
      RunKeeps(Do(s, actions[0]), actions[1..], t);
    }
  }

  // ----- the theorems -----

  ghost predicate Prefix(a: seq<Item>, b: seq<Item>) {
    a <= b
  }

  /** In every reachable state: every board an agent holds or has in flight is a prefix of the hub's, and a
      board an agent resolved holds every agent's post exactly once, and is the hub's final board. */
  lemma Safety(text: seq<string>, actions: seq<Action>, t: State)
    requires IsRun(Init(text), actions, t)
    ensures forall j | 0 <= j < |t.clients| ::
              && Prefix(t.clients[j].latest, t.board)
              && (forall k | 0 <= k < |t.clients[j].down| ::
                    t.clients[j].down[k].Board? && Prefix(t.clients[j].down[k].items, t.board))
              && (t.clients[j].resolved.Some? ==>
                    && t.clients[j].resolved.value == t.board && |t.board| == |text|
                    && forall i | 0 <= i < |text| :: multiset(t.board)[Item(i, text[i])] == 1)
  {
    InitInv(text);
    RunKeeps(Init(text), actions, t);
    FullBoard(t);
    forall j | 0 <= j < |t.clients|
      ensures Prefix(t.clients[j].latest, t.board)
      ensures forall k | 0 <= k < |t.clients[j].down| ::
                t.clients[j].down[k].Board? && Prefix(t.clients[j].down[k].items, t.board)
      ensures t.clients[j].resolved.Some? ==>
                && t.clients[j].resolved.value == t.board && |t.board| == |text|
                && forall i | 0 <= i < |text| :: multiset(t.board)[Item(i, text[i])] == 1
    {
      assert ClientOk(t, j);
      if t.clients[j].resolved.Some? {
        forall i | 0 <= i < |text| ensures multiset(t.board)[Item(i, text[i])] == 1 {
          OnceEach(t.board, Item(i, text[i]));
        }
      }
    }
  }

  lemma {:induction false} OnceEach(board: seq<Item>, item: Item)
    requires item in board
    requires forall k, l | 0 <= k < l < |board| :: board[k].from != board[l].from
    ensures multiset(board)[item] == 1
  {
    var k :| 0 <= k < |board| && board[k] == item;
    assert board == board[..k] + [item] + board[k + 1..];
    assert item !in board[..k] && item !in board[k + 1..];
  }

  lemma MeasureBounds(n: nat, b: nat)
    requires b <= n
    ensures (n + 1) * (n - b) >= 0 && (n + 1) * (n - 0) == n * n + n
  {
  }

  /** Every run takes at most 3N + N*N steps. */
  lemma RunsAreShort(text: seq<string>, actions: seq<Action>, t: State)
    requires IsRun(Init(text), actions, t)
    ensures |actions| <= 3 * |text| + |text| * |text|
  {
    InitInv(text);
    RunKeeps(Init(text), actions, t);
    InitMeasure(Init(text).clients);
    FullBoard(t);
    MeasureBounds(|text|, |t.board|);
  }

  /** When no step is left, every agent has resolved, all to the same full board. */
  lemma QuietMeansResolved(text: seq<string>, actions: seq<Action>, t: State)
    requires IsRun(Init(text), actions, t)
    requires forall a :: !Enabled(t, a)
    ensures |t.board| == |text|
    ensures forall j | 0 <= j < |t.clients| :: t.clients[j].resolved == Some(t.board)
  {
    InitInv(text);
    RunKeeps(Init(text), actions, t);
    var n := |text|;
    forall j | 0 <= j < n ensures Filed(t, j) && t.clients[j].down == [] {
      assert ClientOk(t, j);
      assert !Enabled(t, Accept(j)) && !Enabled(t, Open(j)) && !Enabled(t, HubReceive(j))
          && !Enabled(t, AgentReceive(j));
    }
    forall j | 0 <= j < n ensures Item(j, text[j]) in t.board {
      assert ClientOk(t, j) && Filed(t, j);
    }
    FullBoard(t);
    forall j | 0 <= j < n ensures t.clients[j].resolved == Some(t.board) {
      assert ClientOk(t, j) && Filed(t, j);
    }
  }

  /** From every state the protocol can be in, some continuation runs until no step is left. */
  lemma {:induction false} Finishes(s: State) returns (actions: seq<Action>, t: State)
    requires Inv(s)
    ensures IsRun(s, actions, t) && forall a :: !Enabled(t, a)
    decreases Measure(s)
  {
    if a :| Enabled(s, a) {
      StepKeepsInv(s, a);
      StepDecreases(s, a);
      FullBoard(s);
      MeasureBounds(|s.clients|, |s.board|);
      var more;
      more, t := Finishes(Do(s, a));
      actions := [a] + more;
      assert actions[1..] == more;
    } else {
      actions, t := [], s;
    }
  }

  // ----- the handlers as the program runs them -----

  /** The hub's side: the shared board, the connection set, and what has been written to each socket. */
  class Hub {
    var board: seq<Item>
    var conns: set<nat>
    var written: map<nat, seq<Msg>>

    /** This hub is the hub of protocol state s. */
    ghost predicate Is(s: State)
      reads this
    {
      && board == s.board
      && conns == (set j | 0 <= j < |s.clients| && s.clients[j].accepted)
      && written.Keys == Below(|s.clients|)
      && forall j | 0 <= j < |s.clients| :: written[j] == s.clients[j].down
    }

    method OnConnection(ghost s: State, i: nat)
      requires Is(s) && |s.text| == |s.clients| && Enabled(s, Accept(i))
      modifies this
      ensures Is(Do(s, Accept(i)))
    {
      conns := conns + {i};
    }

    method OnMessage(ghost s: State, msg: Msg)
      requires Is(s)
      modifies this
      ensures Is(HubHandled(s, msg))
    {
      if !msg.Post? {
        return;
      }
      board := board + [Item(msg.from, msg.text)];
      Write(Board(board));
    }

    /** The payload written to every connection. */
    method Write(payload: Msg)
      requires conns <= written.Keys
      modifies this`written
      ensures written.Keys == old(written).Keys
      ensures forall j | j in written ::
                written[j] == if j in conns then old(written)[j] + [payload] else old(written)[j]
    {
      var todo := conns;
      while todo != {}
        invariant todo <= conns && written.Keys == old(written).Keys
        invariant forall j | j in written ::
                    written[j] == if j in conns - todo then old(written)[j] + [payload] else old(written)[j]
      {
        var c :| c in todo;
        todo := todo - {c};
        written := written[c := written[c] + [payload]];
      }
    }
  }

  class Agent {
    var latest: seq<Item>
    var resolved: Option<seq<Item>>

    method OnMessage(ghost c: Client, msg: Msg, expected: nat)
      requires latest == c.latest && resolved == c.resolved
      modifies this
      ensures latest == AgentHandled(c, msg, expected).latest
      ensures resolved == AgentHandled(c, msg, expected).resolved
    {
      if msg.Board? {
        latest := msg.items;
        if |latest| >= expected && resolved.None? {
          resolved := Some(latest);
        }
      }
    }
  }
}

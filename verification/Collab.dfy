/** examples/swarm-collab.js as a protocol: two agents on one connection answer each other's last message.
    Agent 0 opens. The connection delivers in order and loses nothing, and an agent that is asked answers
    sooner or later. */
module Collab {

  datatype Msg = Msg(from: nat, round: nat, text: string)

  /** asking holds the rounds of the turns that await an answer; closing counts the finish calls that still
      await their close and destroy calls. */
  datatype Agent = Agent(done: bool, asking: seq<nat>, closing: nat, inbox: seq<Msg>)

  /** max is 2 * ROUNDS; log is every message ever sent. */
  datatype State = State(max: nat, started: bool, agents: seq<Agent>, finished: nat, log: seq<Msg>)

  datatype Action = Start | Answer(a: nat, k: nat, text: string) | Deliver(a: nat) | Closed(a: nat)

  function Init(rounds: nat): State {
    State(2 * rounds, false, [Agent(false, [], 0, []), Agent(false, [], 0, [])], 0, [])
  }

  // ----- handlers -----

  function Finished(agent: Agent): Agent {
    if agent.done then agent else agent.(done := true, closing := agent.closing + 1)
  }

  /** turn, up to its await. */
  function Asked(agent: Agent, max: nat, round: nat): Agent {
    if round > max then Finished(agent) else agent.(asking := agent.asking + [round])
  }

  function Heard(agent: Agent, max: nat, msg: Msg): Agent {
    if agent.done then agent else Asked(agent, max, msg.round + 1)
  }

  /** turn, after its await: the message is sent, and the last round ends the sender's part. */
  function Answered(agent: Agent, max: nat, k: nat): Agent
    requires k < |agent.asking|
  {
    var rest := agent.(asking := agent.asking[..k] + agent.asking[k + 1..]);
    if agent.asking[k] >= max then Finished(rest) else rest
  }

  // ----- steps -----

  predicate Enabled(s: State, x: Action) {
    match x
    case Start => !s.started
    case Answer(a, k, _) => a < |s.agents| && k < |s.agents[a].asking|
    case Deliver(a) => a < |s.agents| && s.agents[a].inbox != []
    case Closed(a) => a < |s.agents| && s.agents[a].closing > 0
  }

  function Do(s: State, x: Action): State
    requires |s.agents| == 2 && Enabled(s, x)
  {
    match x
    case Start => s.(started := true, agents := s.agents[0 := Asked(s.agents[0], s.max, 1)])
    case Answer(a, k, text) =>
      var msg := Msg(a, s.agents[a].asking[k], text);
      var other := s.agents[1 - a];
      s.(log := s.log + [msg],
         agents := s.agents[a := Answered(s.agents[a], s.max, k)][1 - a := other.(inbox := other.inbox + [msg])])
    case Deliver(a) =>
      var agent := s.agents[a];
      s.(agents := s.agents[a := Heard(agent.(inbox := agent.inbox[1..]), s.max, agent.inbox[0])])
    case Closed(a) =>
      s.(finished := s.finished + 1, agents := s.agents[a := s.agents[a].(closing := s.agents[a].closing - 1)])
  }

  // ----- what every step keeps -----

  predicate Idle(agent: Agent) {
    agent.asking == [] && agent.inbox == []
  }

  /** Rounds 1, 2, 3, …, from agent 0, agent 1, agent 0, … */
  predicate Alternates(log: seq<Msg>) {
    forall k | 0 <= k < |log| :: log[k].round == k + 1 && log[k].from == k % 2
  }

  function Int(b: bool): nat {
    if b then 1 else 0
  }

  /** There is one token: the opening turn to take, a turn being answered, a message in flight, or nothing
      once every message has been sent and heard. next is whose move it is. */
  predicate Inv(s: State) {
    var n := |s.log|;
    && |s.agents| == 2 && s.max % 2 == 0 && n <= s.max
    && Alternates(s.log)
    && var next, last := s.agents[n % 2], s.agents[1 - n % 2];
    && last.asking == [] && last.inbox == []
    && (last.done <==> n == s.max && n > 0)
    && (if !s.started then n == 0 && Idle(next) && !next.done
        else if next.done then n == s.max && Idle(next)
        else if next.asking != [] then n < s.max && next.asking == [n + 1] && next.inbox == []
        else 0 < n && next.inbox == [s.log[n - 1]])
    && next.closing <= Int(next.done) && last.closing <= Int(last.done)
    && s.finished + next.closing + last.closing == Int(next.done) + Int(last.done)
  }

  /** How many steps have been taken: every message sent was answered once and, unless in flight, heard once. */
  function Taken(s: State): int
    requires |s.agents| == 2
  {
    Int(s.started) + 2 * |s.log| - |s.agents[0].inbox| - |s.agents[1].inbox| + s.finished
  }

  lemma InitInv(rounds: nat)
    ensures Inv(Init(rounds)) && Taken(Init(rounds)) == 0
  {
  }

  lemma AnswerKeepsInv(s: State, a: nat, k: nat, text: string)
    requires Inv(s) && Enabled(s, Answer(a, k, text))
    ensures Inv(Do(s, Answer(a, k, text))) && Taken(Do(s, Answer(a, k, text))) == Taken(s) + 1
  {
    assert a == |s.log| % 2 && k == 0;
  }

  lemma DeliverKeepsInv(s: State, a: nat)
    requires Inv(s) && Enabled(s, Deliver(a))
    ensures Inv(Do(s, Deliver(a))) && Taken(Do(s, Deliver(a))) == Taken(s) + 1
  {
    assert a == |s.log| % 2;
    assert s.agents[a].inbox[1..] == [];
  }

  lemma ClosedKeepsInv(s: State, a: nat)
    requires Inv(s) && Enabled(s, Closed(a))
    ensures Inv(Do(s, Closed(a))) && Taken(Do(s, Closed(a))) == Taken(s) + 1
  {
    assert a == |s.log| % 2 || a == 1 - |s.log| % 2;
  }

  lemma StepKeepsInv(s: State, x: Action)
    requires Inv(s) && Enabled(s, x)
    ensures Inv(Do(s, x)) && Taken(Do(s, x)) == Taken(s) + 1 && Do(s, x).max == s.max
  {
    match x
    case Start =>
    case Answer(a, k, text) => AnswerKeepsInv(s, a, k, text);
    case Deliver(a) => DeliverKeepsInv(s, a);
    case Closed(a) => ClosedKeepsInv(s, a);
  }

  ghost predicate IsRun(s: State, actions: seq<Action>, t: State)
    decreases |actions|
  {
    if actions == [] then s == t
    else |s.agents| == 2 && Enabled(s, actions[0]) && IsRun(Do(s, actions[0]), actions[1..], t)
  }

  lemma {:induction false} RunKeeps(s: State, actions: seq<Action>, t: State)
    requires Inv(s) && IsRun(s, actions, t)
    ensures Inv(t) && t.max == s.max && Taken(t) == Taken(s) + |actions|
    decreases |actions|
  {
    if actions != [] {
      StepKeepsInv(s, actions[0]);
      RunKeeps(Do(s, actions[0]), actions[1..], t);
    }
  }

  // ----- the theorems -----

  function Sent(log: seq<Msg>, a: nat): nat {
    if log == [] then 0 else Sent(log[..|log| - 1], a) + Int(log[|log| - 1].from == a)
  }

  lemma {:induction false} SentByEach(log: seq<Msg>)
    requires Alternates(log)
    ensures Sent(log, 0) == (|log| + 1) / 2 && Sent(log, 1) == |log| / 2
  {
    if log != [] {
      SentByEach(log[..|log| - 1]);
    }
  }

  /** In every reachable state at most one message or turn is under way, the rounds sent so far are 1, 2, 3, …
      by the two agents in turn, no agent has sent more than its share, and finished never passes 2. */
  lemma Safety(rounds: nat, actions: seq<Action>, t: State)
    requires IsRun(Init(rounds), actions, t)
    ensures |t.agents| == 2
    ensures |t.agents[0].asking| + |t.agents[1].asking| + |t.agents[0].inbox| + |t.agents[1].inbox| <= 1
    ensures Alternates(t.log) && |t.log| <= 2 * rounds
    ensures Sent(t.log, 1) <= Sent(t.log, 0) <= Sent(t.log, 1) + 1 && Sent(t.log, 0) <= rounds
    ensures t.finished <= 2 && (t.finished == 2 ==> |t.log| == 2 * rounds && t.agents[0].done && t.agents[1].done)
  {
    InitInv(rounds);
    RunKeeps(Init(rounds), actions, t);
    SentByEach(t.log);
  }

  /** No run is longer than 4 * ROUNDS + 3 steps, and finished reaches 2 at exactly that length. */
  lemma RunLength(rounds: nat, actions: seq<Action>, t: State)
    requires IsRun(Init(rounds), actions, t)
    ensures |actions| <= 4 * rounds + 3
    ensures |actions| == 4 * rounds + 3 <==> t.finished == 2
  {
    InitInv(rounds);
    RunKeeps(Init(rounds), actions, t);
  }

  /** When no step is left, every message has been sent, and both agents have left exactly when there was at
      least one round: with none, agent 0 leaves at once and agent 1 waits for ever. */
  lemma QuietMeansFinished(rounds: nat, actions: seq<Action>, t: State)
    requires IsRun(Init(rounds), actions, t)
    requires forall x :: !Enabled(t, x)
    ensures |t.log| == 2 * rounds && Sent(t.log, 0) == Sent(t.log, 1) == rounds
    ensures |t.agents| == 2 && t.agents[0].done
    ensures t.finished == 2 <==> rounds > 0
    ensures t.agents[1].done <==> rounds > 0
  {
    InitInv(rounds);
    RunKeeps(Init(rounds), actions, t);
    SentByEach(t.log);
    assert !Enabled(t, Start);
    forall a | 0 <= a < 2 ensures Idle(t.agents[a]) && t.agents[a].closing == 0 {
      assert !Enabled(t, Answer(a, 0, "")) && !Enabled(t, Deliver(a)) && !Enabled(t, Closed(a));
    }
  }

  /** From every state the protocol can be in, some continuation runs until no step is left. */
  lemma {:induction false} Finishes(s: State) returns (actions: seq<Action>, t: State)
    requires Inv(s)
    ensures IsRun(s, actions, t) && forall x :: !Enabled(t, x)
    decreases 2 * s.max + 3 - Taken(s)
  {
    if x :| Enabled(s, x) {
      StepKeepsInv(s, x);
      var more;
      more, t := Finishes(Do(s, x));
      actions := [x] + more;
      assert actions[1..] == more;
    } else {
      actions, t := [], s;
    }
  }

  // ----- the handlers as the program runs them -----

  /** One agent object, with what its pending async calls will resume. */
  class Peer {
    const max: nat
    var done: bool
    var asking: seq<nat>
    var closing: nat

    ghost predicate Is(agent: Agent)
      reads this
    {
      done == agent.done && asking == agent.asking && closing == agent.closing
    }

    method OnMessage(ghost agent: Agent, msg: Msg)
      requires Is(agent)
      modifies this
      ensures Is(Heard(agent, max, msg))
    {
      if done {
        return;
      }
      Turn(agent, msg.round + 1);
    }

    method Turn(ghost agent: Agent, round: nat)
      requires Is(agent)
      modifies this
      ensures Is(Asked(agent, max, round))
    {
      if round > max {
        Finish(agent);
        return;
      }
      asking := asking + [round];
    }

    /** The k-th pending turn gets its text: the message it sends. */
    method Resume(ghost agent: Agent, id: nat, k: nat, text: string) returns (sent: Msg)
      requires Is(agent) && k < |asking|
      modifies this
      ensures Is(Answered(agent, max, k))
      ensures sent == Msg(id, agent.asking[k], text)
    {
      var round := asking[k];
      asking := asking[..k] + asking[k + 1..];
      sent := Msg(id, round, text);
      if round >= max {
        Finish(agent.(asking := asking));
      }
    }

    method Finish(ghost agent: Agent)
      requires Is(agent)
      modifies this
      ensures Is(Finished(agent))
    {
      if done {
        return;
      }
      done := true;
      closing := closing + 1;
    }
  }
}

/** examples/swarm-code-review.js as a protocol: a hub pushes the diff to every reviewer it accepts, collects
    one review from each and broadcasts the board; when all are in, a correlator joins and weighs the full
    board. Links are FIFO and lose nothing, no socket closes, and every agent answers sooner or later. */
module CodeReview {
  import opened Wrappers
  import opened Counting

  /** A reviewer is named by its index in SPECS, which stands for the string "category#k". */
  datatype Review = Review(category: nat, from: nat, text: string)

  datatype Msg = Task(diff: string) | Board(reviews: seq<Review>) | Filing(review: Review) | Correlation(text: string)

  /** A reviewer or the correlator, with its socket: up is what it wrote and the hub has not read, down the reverse. */
  datatype Client = Client(
    accepted: bool,    // the hub's connection handler ran
    begun: bool,       // reviewed, or started for the correlator
    working: bool,     // its agent has been asked and has not answered
    up: seq<Msg>,
    down: seq<Msg>)

  /** specs[i] is the category of reviewer i; the client after the reviewers is the correlator. */
  datatype State = State(
    specs: seq<nat>,
    diff: string,
    reviews: seq<Review>,
    clients: seq<Client>,
    allIn: bool,
    launched: bool,
    weighed: Option<seq<Review>>,    // the board the correlator was asked about
    correlation: Option<string>,
    reported: bool)

  datatype Action =
    | Accept(i: nat) | Read(i: nat) | Finish(i: nat, answer: string) | HubRead(i: nat) | Launch | Report

  /** SPECS: perCategory reviewers for each category, in order. */
  function Specs(categories: nat, perCategory: nat): (specs: seq<nat>)
    ensures |specs| == categories * perCategory
  {
    if categories == 0 then [] else Specs(categories - 1, perCategory) + seq(perCategory, _ => categories - 1)
  }

  function Init(specs: seq<nat>, diff: string): State {
    State(specs, diff, [], seq(|specs| + 1, _ => Client(false, false, false, [], [])), false, false, None, None, false)
  }

  // ----- handlers -----

  function Broadcast(cs: seq<Client>, msg: Msg): (r: seq<Client>)
    ensures |r| == |cs|
  {
    seq(|cs|, j requires 0 <= j < |cs| => if cs[j].accepted then cs[j].(down := cs[j].down + [msg]) else cs[j])
  }

  /** The hub's message handler. */
  function HubHandled(s: State, msg: Msg): State {
    match msg
    case Filing(review) =>
      var reviews := s.reviews + [review];
      s.(reviews := reviews, clients := Broadcast(s.clients, Board(reviews)),
         allIn := s.allIn || |reviews| == |s.specs|)
    case Correlation(text) => s.(correlation := Some(text))
    case _ => s
  }

  /** The messages that make a client ask its agent: the task for a reviewer, a full board for the correlator. */
  predicate Wakes(specs: seq<nat>, i: nat, msg: Msg) {
    if i < |specs| then msg.Task? else msg.Board? && |msg.reviews| >= |specs|
  }

  function Heard(specs: seq<nat>, i: nat, c: Client, msg: Msg): Client {
    if Wakes(specs, i, msg) && !c.begun then c.(begun := true, working := true) else c
  }

  function Answered(specs: seq<nat>, i: nat, answer: string): Msg {
    if i < |specs| then Filing(Review(specs[i], i, answer)) else Correlation(answer)
  }

  // ----- steps -----

  predicate Enabled(s: State, a: Action) {
    match a
    case Accept(i) => i < |s.clients| && !s.clients[i].accepted && (i < |s.specs| || s.launched)
    case Read(i) => i < |s.clients| && s.clients[i].down != []
    case Finish(i, _) => i < |s.clients| && s.clients[i].working
    case HubRead(i) => i < |s.clients| && s.clients[i].accepted && s.clients[i].up != []
    case Launch => s.allIn && !s.launched
    case Report => s.launched && s.correlation.Some? && !s.reported
  }

  function Do(s: State, a: Action): State
    requires Enabled(s, a)
  {
    match a
    case Accept(i) =>
      var c := s.clients[i];
      s.(clients := s.clients[i := c.(accepted := true, down := c.down + [Task(s.diff), Board(s.reviews)])])
    case Read(i) =>
      var c := s.clients[i];
      var msg := c.down[0];
      var t := s.(clients := s.clients[i := Heard(s.specs, i, c.(down := c.down[1..]), msg)]);
      if i >= |s.specs| && Wakes(s.specs, i, msg) && !c.begun then t.(weighed := Some(msg.reviews)) else t
    case Finish(i, answer) =>
      var c := s.clients[i];
      s.(clients := s.clients[i := c.(working := false, up := c.up + [Answered(s.specs, i, answer)])])
    case HubRead(i) =>
      var c := s.clients[i];
      HubHandled(s.(clients := s.clients[i := c.(up := c.up[1..])]), c.up[0])
    case Launch => s.(launched := true)
    case Report => s.(reported := true)
  }

  // ----- what every step keeps -----

  predicate Has(reviews: seq<Review>, i: nat) {
    exists k | 0 <= k < |reviews| :: reviews[k].from == i
  }

  /** What is in flight for a client that has no task to do yet. */
  ghost predicate Fresh(c: Client) {
    !c.begun ==> !c.working && c.up == [] && (c.accepted || c.down == [])
  }

  /** A reviewer is idle, working, has written its review, or has its review on the board: never two of them. */
  ghost predicate ReviewerOk(s: State, i: nat)
    requires i < |s.specs| < |s.clients|
  {
    var c := s.clients[i];
    && Fresh(c)
    && (c.begun ==> c.accepted)
    && (c.accepted && !c.begun ==> c.down != [] && c.down[0].Task?)
    && (!c.begun || c.working || c.up != [] ==> !Has(s.reviews, i))
    && (c.begun && !c.working && c.up == [] ==> Has(s.reviews, i))
    && (c.working ==> c.up == [])
    && (c.up != [] ==>
          && |c.up| == 1 && c.up[0].Filing?
          && c.up[0].review.from == i && c.up[0].review.category == s.specs[i])
  }

  ghost predicate CorrelatorOk(s: State)
    requires |s.clients| == |s.specs| + 1
  {
    var c := s.clients[|s.specs|];
    && Fresh(c)
    && (c.begun ==> c.accepted)
    && (c.accepted ==> s.launched)
    && (c.accepted && !c.begun ==> c.down == [Task(s.diff), Board(s.reviews)] || c.down == [Board(s.reviews)])
    && (c.begun ==> c.down == [])
    && s.weighed == (if c.begun then Some(s.reviews) else None)
    && (c.working ==> c.up == [])
    && (c.up != [] ==> |c.up| == 1 && c.up[0].Correlation?)
    && (s.correlation.Some? <==> c.begun && !c.working && c.up == [])
  }

  ghost predicate BoardOk(s: State) {
    && (forall k | 0 <= k < |s.reviews| ::
          s.reviews[k].from < |s.specs| && s.reviews[k].category == s.specs[s.reviews[k].from])
    && (forall k, l | 0 <= k < l < |s.reviews| :: s.reviews[k].from != s.reviews[l].from)
    && (s.allIn <==> |s.reviews| == |s.specs| && s.specs != [])
    && (s.launched ==> s.allIn)
    && (s.reported ==> s.correlation.Some?)
  }

  ghost predicate Inv(s: State) {
    && |s.clients| == |s.specs| + 1
    && BoardOk(s)
    && CorrelatorOk(s)
    && forall i | 0 <= i < |s.specs| :: ReviewerOk(s, i)
  }

  lemma InitInv(specs: seq<nat>, diff: string)
    ensures Inv(Init(specs, diff))
  {
  }

  function Froms(reviews: seq<Review>): (froms: seq<nat>)
    ensures |froms| == |reviews|
  {
    seq(|reviews|, k requires 0 <= k < |reviews| => reviews[k].from)
  }

  /** The board is full exactly when every reviewer is on it. */
  lemma FullBoard(s: State)
    requires BoardOk(s)
    ensures |s.reviews| <= |s.specs|
    ensures |s.reviews| == |s.specs| <==> forall i | 0 <= i < |s.specs| :: Has(s.reviews, i)
  {
    var froms := Froms(s.reviews);
    assert Distinct(froms);
    Pigeonhole(froms, |s.specs|);
    forall i: nat ensures i in froms <==> Has(s.reviews, i) {
      if i in froms {
        var k :| 0 <= k < |froms| && froms[k] == i;
        assert s.reviews[k].from == i;
      }
      if Has(s.reviews, i) {
        var k :| 0 <= k < |s.reviews| && s.reviews[k].from == i;
        assert froms[k] == i;
      }
    }
  }

  lemma LocalKeepsInv(s: State, a: Action)
    requires Inv(s) && Enabled(s, a) && (a.Accept? || a.Read? || a.Finish?)
    ensures Inv(Do(s, a))
  {
    var t := Do(s, a);
    forall j | 0 <= j < |t.specs| ensures ReviewerOk(t, j) {
      assert ReviewerOk(s, j);
    }
  }

  lemma HubReadKeepsInv(s: State, i: nat)
    requires Inv(s) && Enabled(s, HubRead(i))
    ensures Inv(Do(s, HubRead(i)))
    ensures |s.clients| == |s.specs| + 1
    ensures if i < |s.specs| then |s.reviews| < |s.specs| && !s.clients[|s.specs|].accepted
            && s.clients[i].up[0].Filing?
            else s.clients[i].up[0].Correlation?
  {
    var t := Do(s, HubRead(i));
    FullBoard(s);
    if i < |s.specs| {
      assert ReviewerOk(s, i);
      var review := s.clients[i].up[0].review;
      forall j: nat ensures Has(t.reviews, j) <==> Has(s.reviews, j) || j == i {
        HasSnoc(s.reviews, review, j);
      }
      assert !Has(s.reviews, i);
      forall j | 0 <= j < |t.specs| ensures ReviewerOk(t, j) {
        assert ReviewerOk(s, j);
      }
    } else {
      forall j | 0 <= j < |t.specs| ensures ReviewerOk(t, j) {
        assert ReviewerOk(s, j);
      }
    }
  }

  lemma HasSnoc(reviews: seq<Review>, review: Review, j: nat)
    ensures Has(reviews + [review], j) <==> Has(reviews, j) || j == review.from
  {
    var all := reviews + [review];
    assert all[|reviews|] == review;
    if Has(reviews, j) {
      var k :| 0 <= k < |reviews| && reviews[k].from == j;
      assert all[k].from == j;
    }
    if Has(all, j) && j != review.from {
      var k :| 0 <= k < |all| && all[k].from == j;
      assert reviews[k].from == j;
    }
  }

  lemma StepKeepsInv(s: State, a: Action)
    requires Inv(s) && Enabled(s, a)
    ensures Inv(Do(s, a)) && Do(s, a).specs == s.specs
  {
    if a.HubRead? {
      HubReadKeepsInv(s, a.i);
    } else if a.Launch? || a.Report? {
      forall j | 0 <= j < |s.specs| ensures ReviewerOk(Do(s, a), j) {
        assert ReviewerOk(s, j);
      }
    } else {
      LocalKeepsInv(s, a);
    }
  }

  // ----- every run ends -----

  function Pending(c: Client): nat {
    (if c.accepted then 0 else 3) + (if c.begun then 0 else 2) + (if c.working then 2 else 0) + |c.up| + |c.down|
  }

  function TotalPending(cs: seq<Client>): nat {
    if cs == [] then 0 else Pending(cs[0]) + TotalPending(cs[1..])
  }

  /** Each review still to be filed will be broadcast to at most every reviewer. */
  function Measure(s: State): int {
    TotalPending(s.clients) + |s.specs| * (|s.specs| - |s.reviews|)
    + (if s.launched then 0 else 1) + (if s.reported then 0 else 1)
  }

  lemma {:induction false} PendingUpdate(cs: seq<Client>, i: nat, c: Client)
    requires i < |cs|
    ensures TotalPending(cs[i := c]) == TotalPending(cs) - Pending(cs[i]) + Pending(c)
  {
    if i > 0 {
      PendingUpdate(cs[1..], i - 1, c);
      assert cs[i := c][1..] == cs[1..][i - 1 := c];
    } else {
      assert cs[i := c][1..] == cs[1..];
    }
  }

  lemma {:induction false} PendingBroadcast(cs: seq<Client>, msg: Msg)
    requires cs != [] && !cs[|cs| - 1].accepted
    ensures TotalPending(Broadcast(cs, msg)) <= TotalPending(cs) + |cs| - 1
  {
    if |cs| > 1 {
      PendingBroadcast(cs[1..], msg);
      assert Broadcast(cs, msg)[1..] == Broadcast(cs[1..], msg);
    } else {
      assert Broadcast(cs, msg) == cs;
    }
  }

  lemma LocalCost(s: State, a: Action)
    requires Enabled(s, a) && (a.Accept? || a.Read? || a.Finish?)
    ensures a.i < |s.clients| == |Do(s, a).clients|
    ensures var t := Do(s, a);
            && t.clients == s.clients[a.i := t.clients[a.i]] && Pending(t.clients[a.i]) < Pending(s.clients[a.i])
            && t.specs == s.specs && t.reviews == s.reviews && t.launched == s.launched && t.reported == s.reported
  {
  }

  lemma LocalDecreases(s: State, a: Action)
    requires Enabled(s, a) && (a.Accept? || a.Read? || a.Finish?)
    ensures Measure(Do(s, a)) < Measure(s)
  {
    hide Pending, TotalPending, Do, Enabled;
    LocalCost(s, a);
    PendingUpdate(s.clients, a.i, Do(s, a).clients[a.i]);
  }

  lemma PoppedCost(cs: seq<Client>, i: nat)
    requires i < |cs| && cs[i].up != []
    ensures TotalPending(cs[i := cs[i].(up := cs[i].up[1..])]) == TotalPending(cs) - 1
  {
    PendingUpdate(cs, i, cs[i].(up := cs[i].up[1..]));
  }

  /** What the hub does with what it reads: a review is filed and broadcast, a correlation kept. */
  lemma HubReadShape(s: State, i: nat)
    requires Inv(s) && Enabled(s, HubRead(i))
    ensures i < |s.clients| == |s.specs| + 1 && s.clients[i].up != []
    ensures var (c, t) := (s.clients[i], Do(s, HubRead(i)));
            var popped := s.clients[i := c.(up := c.up[1..])];
            && t.specs == s.specs && t.launched == s.launched && t.reported == s.reported
            && if i < |s.specs| then
                 && |s.reviews| < |s.specs| && !s.clients[|s.specs|].accepted && |t.reviews| == |s.reviews| + 1
                 && t.clients == Broadcast(popped, Board(t.reviews))
               else t.reviews == s.reviews && t.clients == popped
  {
    HubReadKeepsInv(s, i);
  }

  lemma HubReadDecreases(s: State, i: nat)
    requires Inv(s) && Enabled(s, HubRead(i))
    ensures Measure(Do(s, HubRead(i))) < Measure(s)
  {
    HubReadShape(s, i);
    hide Inv, Pending, Broadcast, Do, Enabled;
    var c, t, n, m := s.clients[i], Do(s, HubRead(i)), |s.specs|, |s.specs| - |s.reviews|;
    PoppedCost(s.clients, i);
    if i < n {
      PendingBroadcast(s.clients[i := c.(up := c.up[1..])], Board(t.reviews));
      assert n * m == n * (m - 1) + n;
    }
  }

  lemma StepDecreases(s: State, a: Action)
    requires Inv(s) && Enabled(s, a)
    ensures Measure(Do(s, a)) < Measure(s)
  {
    if a.HubRead? {
      HubReadDecreases(s, a.i);
    } else if a.Accept? || a.Read? || a.Finish? {
      LocalDecreases(s, a);
    }
  }

  ghost predicate IsRun(s: State, actions: seq<Action>, t: State)
    decreases |actions|
  {
    if actions == [] then s == t else Enabled(s, actions[0]) && IsRun(Do(s, actions[0]), actions[1..], t)
  }

  lemma {:induction false} RunKeeps(s: State, actions: seq<Action>, t: State)
    requires Inv(s) && IsRun(s, actions, t)
    ensures Inv(t) && t.specs == s.specs && |actions| + Measure(t) <= Measure(s)
    decreases |actions|
  {
    if actions != [] {
      StepKeepsInv(s, actions[0]);
      StepDecreases(s, actions[0]);
      RunKeeps(Do(s, actions[0]), actions[1..], t);
    }
  }

  lemma {:induction false} InitPending(cs: seq<Client>)
    requires forall i | 0 <= i < |cs| :: cs[i] == Client(false, false, false, [], [])
    ensures TotalPending(cs) == 5 * |cs|
  {
    if cs != [] {
      InitPending(cs[1..]);
    }
  }

  // ----- the theorems about runs -----

  /** In every reachable state each reviewer has filed at most one review and is on the board under its own
      category; the panel counts as complete exactly when every spec has its one review; and whatever the
      correlator was asked about is the complete board. */
  lemma Safety(specs: seq<nat>, diff: string, actions: seq<Action>, t: State)
    requires IsRun(Init(specs, diff), actions, t)
    ensures forall k, l | 0 <= k < l < |t.reviews| :: t.reviews[k].from != t.reviews[l].from
    ensures forall k | 0 <= k < |t.reviews| ::
              t.reviews[k].from < |specs| && t.reviews[k].category == specs[t.reviews[k].from]
    ensures t.allIn <==> specs != [] && forall i | 0 <= i < |specs| :: Has(t.reviews, i)
    ensures t.weighed.Some? ==> t.weighed.value == t.reviews && t.allIn
    ensures t.reported ==> t.allIn && t.correlation.Some? && t.weighed.Some?
  {
    InitInv(specs, diff);
    RunKeeps(Init(specs, diff), actions, t);
    FullBoard(t);
  }

  /** What a client has written is the answer its agent gave. */
  ghost predicate Given(specs: seq<nat>, i: nat, msg: Msg, past: seq<Action>) {
    match msg
    case Filing(review) => review.from == i && Finish(i, review.text) in past
    case Correlation(text) => i >= |specs| && Finish(i, text) in past
    case _ => false
  }

  /** What the hub has written is the diff, or a board it has had. */
  ghost predicate Shown(s: State, msg: Msg) {
    match msg
    case Task(diff) => diff == s.diff
    case Board(reviews) => reviews <= s.reviews
    case _ => false
  }

  ghost predicate Truthful(s: State, past: seq<Action>) {
    && |s.clients| == |s.specs| + 1
    && (forall k | 0 <= k < |s.reviews| :: Finish(s.reviews[k].from, s.reviews[k].text) in past)
    && (forall i, k | 0 <= i < |s.clients| && 0 <= k < |s.clients[i].up| ::
          Given(s.specs, i, s.clients[i].up[k], past))
    && (forall i, k | 0 <= i < |s.clients| && 0 <= k < |s.clients[i].down| :: Shown(s, s.clients[i].down[k]))
    && (s.correlation.Some? ==> Finish(|s.specs|, s.correlation.value) in past)
  }

  lemma GivenMore(specs: seq<nat>, i: nat, msg: Msg, past: seq<Action>, a: Action)
    requires Given(specs, i, msg, past)
    ensures Given(specs, i, msg, past + [a])
  {
  }

  /** A step of one client by itself adds nothing to what its socket holds but its agent's answer. */
  lemma LocalTraffic(s: State, a: Action)
    requires Enabled(s, a) && (a.Read? || a.Finish?)
    ensures a.i < |s.clients| == |Do(s, a).clients|
    ensures forall j | 0 <= j < |s.clients| && j != a.i :: Do(s, a).clients[j] == s.clients[j]
    ensures var c, d := s.clients[a.i], Do(s, a).clients[a.i];
            && d.up == (if a.Finish? then c.up + [Answered(s.specs, a.i, a.answer)] else c.up)
            && d.down == if a.Read? then c.down[1..] else c.down
    ensures Do(s, a) == s.(clients := Do(s, a).clients, weighed := Do(s, a).weighed)
  {
  }

  lemma LocalStaysTruthful(s: State, a: Action, past: seq<Action>)
    requires Truthful(s, past) && Enabled(s, a) && (a.Read? || a.Finish?)
    ensures Truthful(Do(s, a), past + [a])
  {
    LocalTraffic(s, a);
    hide Given, Do, Enabled;
    var t := Do(s, a);
    forall j, k | 0 <= j < |t.clients| && 0 <= k < |t.clients[j].up|
      ensures Given(t.specs, j, t.clients[j].up[k], past + [a])
    {
      if k < |s.clients[j].up| {
        GivenMore(s.specs, j, s.clients[j].up[k], past, a);
      } else {
        AnswerGiven(s.specs, j, a.answer, past);
      }
    }
    forall j, k | 0 <= j < |t.clients| && 0 <= k < |t.clients[j].down| ensures Shown(t, t.clients[j].down[k]) {
      var n := if a.Read? && j == a.i then k + 1 else k;
      assert Shown(s, s.clients[j].down[n]);
    }
  }

  lemma AnswerGiven(specs: seq<nat>, i: nat, answer: string, past: seq<Action>)
    ensures Given(specs, i, Answered(specs, i, answer), past + [Finish(i, answer)])
  {
    var all := past + [Finish(i, answer)];
    assert all[|past|] == Finish(i, answer);
  }

  lemma AcceptStaysTruthful(s: State, i: nat, past: seq<Action>)
    requires Truthful(s, past) && Enabled(s, Accept(i))
    ensures Truthful(Do(s, Accept(i)), past + [Accept(i)])
  {
    hide Given;
    var t := Do(s, Accept(i));
    forall j, k | 0 <= j < |t.clients| && 0 <= k < |t.clients[j].up|
      ensures Given(t.specs, j, t.clients[j].up[k], past + [Accept(i)])
    {
      GivenMore(s.specs, j, s.clients[j].up[k], past, Accept(i));
    }
    forall j, k | 0 <= j < |t.clients| && 0 <= k < |t.clients[j].down| ensures Shown(t, t.clients[j].down[k]) {
      if k < |s.clients[j].down| {
        assert Shown(s, s.clients[j].down[k]);
      }
    }
  }

  lemma MainStaysTruthful(s: State, a: Action, past: seq<Action>)
    requires Truthful(s, past) && Enabled(s, a) && (a.Launch? || a.Report?)
    ensures Truthful(Do(s, a), past + [a])
  {
    hide Given;
    forall j, k | 0 <= j < |s.clients| && 0 <= k < |s.clients[j].up|
      ensures Given(s.specs, j, s.clients[j].up[k], past + [a])
    {
      GivenMore(s.specs, j, s.clients[j].up[k], past, a);
    }
    assert forall j, k | 0 <= j < |s.clients| && 0 <= k < |s.clients[j].down| :: Shown(s, s.clients[j].down[k]);
  }

  lemma HubReadStaysTruthful(s: State, i: nat, past: seq<Action>)
    requires Truthful(s, past) && Enabled(s, HubRead(i))
    ensures Truthful(Do(s, HubRead(i)), past + [HubRead(i)])
  {
    var msg := s.clients[i].up[0];
    assert Given(s.specs, i, msg, past);
    var popped := s.(clients := s.clients[i := s.clients[i].(up := s.clients[i].up[1..])]);
    assert Truthful(popped, past + [HubRead(i)]);
    HandledStaysTruthful(popped, i, msg, past + [HubRead(i)]);
  }

  lemma HandledStaysTruthful(s: State, i: nat, msg: Msg, past: seq<Action>)
    requires Truthful(s, past) && i < |s.clients| && Given(s.specs, i, msg, past)
    ensures Truthful(HubHandled(s, msg), past)
  {
    hide Given;
    var t := HubHandled(s, msg);
    if msg.Filing? {
      FilingGiven(s.specs, i, msg, past);
      forall j, k | 0 <= j < |t.clients| && 0 <= k < |t.clients[j].down| ensures Shown(t, t.clients[j].down[k]) {
        if k < |s.clients[j].down| {
          assert Shown(s, s.clients[j].down[k]);
          assert s.reviews <= t.reviews;
        }
      }
    } else if msg.Correlation? {
      CorrelationGiven(s.specs, i, msg, past);
      assert i == |s.specs|;
      forall j, k | 0 <= j < |t.clients| && 0 <= k < |t.clients[j].down| ensures Shown(t, t.clients[j].down[k]) {
        assert Shown(s, s.clients[j].down[k]);
      }
    }
  }

  lemma FilingGiven(specs: seq<nat>, i: nat, msg: Msg, past: seq<Action>)
    requires Given(specs, i, msg, past) && msg.Filing?
    ensures Finish(msg.review.from, msg.review.text) in past
  {
  }

  lemma CorrelationGiven(specs: seq<nat>, i: nat, msg: Msg, past: seq<Action>)
    requires Given(specs, i, msg, past) && msg.Correlation?
    ensures i >= |specs| && Finish(i, msg.text) in past
  {
  }

  lemma {:induction false} RunStaysTruthful(s: State, past: seq<Action>, actions: seq<Action>, t: State)
    requires Truthful(s, past) && IsRun(s, actions, t)
    ensures Truthful(t, past + actions) && t.diff == s.diff && t.specs == s.specs
    decreases |actions|
  {
    hide Truthful;
    if actions == [] {
      assert past + actions == past;
    } else {
      var a := actions[0];
      if a.HubRead? {
        HubReadStaysTruthful(s, a.i, past);
      } else if a.Accept? {
        AcceptStaysTruthful(s, a.i, past);
      } else if a.Launch? || a.Report? {
        MainStaysTruthful(s, a, past);
      } else {
        LocalStaysTruthful(s, a, past);
      }
      RunStaysTruthful(Do(s, a), past + [a], actions[1..], t);
      assert past + [a] + actions[1..] == past + actions;
    }
  }

  /** Nothing said is lost or made up on the way: every review on the board has the text its own reviewer's agent
      answered, the correlation is what the correlator's agent answered, every task shows the diff, and every board
      in flight is one the hub has had. */
  lemma Provenance(specs: seq<nat>, diff: string, actions: seq<Action>, t: State)
    requires IsRun(Init(specs, diff), actions, t)
    ensures forall k | 0 <= k < |t.reviews| :: Finish(t.reviews[k].from, t.reviews[k].text) in actions
    ensures t.correlation.Some? ==> Finish(|specs|, t.correlation.value) in actions
    ensures forall i, k | 0 <= i < |t.clients| && 0 <= k < |t.clients[i].down| ::
              var msg := t.clients[i].down[k];
              (msg.Task? && msg.diff == diff) || (msg.Board? && msg.reviews <= t.reviews)
  {
    RunStaysTruthful(Init(specs, diff), [], actions, t);
    assert [] + actions == actions;
    assert forall i, k | 0 <= i < |t.clients| && 0 <= k < |t.clients[i].down| :: Shown(t, t.clients[i].down[k]);
  }

  /** The correlator's agent is asked at most once in a run. */
  lemma {:induction false} CorrelatorStartsOnce(s: State, actions: seq<Action>, t: State)
    requires Inv(s) && IsRun(s, actions, t)
    ensures Starts(s, actions) + (if s.weighed.Some? then 1 else 0) == if t.weighed.Some? then 1 else 0
    decreases |actions|
  {
    if actions != [] {
      StepKeepsInv(s, actions[0]);
      CorrelatorStartsOnce(Do(s, actions[0]), actions[1..], t);
    }
  }

  /** How many steps of a run make the correlator ask its agent. */
  ghost function Starts(s: State, actions: seq<Action>): nat
    decreases |actions|
  {
    if actions == [] || !Enabled(s, actions[0]) then 0
    else
      var a := actions[0];
      var asks := a.Read? && a.i == |s.specs| && !s.clients[a.i].working && Do(s, a).clients[a.i].working;
      (if asks then 1 else 0) + Starts(Do(s, a), actions[1..])
  }

  /** With S reviewers a run has at most S*S + 5S + 7 steps. */
  lemma RunsAreShort(specs: seq<nat>, diff: string, actions: seq<Action>, t: State)
    requires IsRun(Init(specs, diff), actions, t)
    ensures |actions| <= |specs| * |specs| + 5 * |specs| + 7
  {
    var s := Init(specs, diff);
    InitInv(specs, diff);
    RunKeeps(s, actions, t);
    InitPending(s.clients);
    FullBoard(t);
    MeasureBounds(|specs|, |t.reviews|);
  }

  lemma MeasureBounds(n: nat, b: nat)
    requires b <= n
    ensures n * (n - b) >= 0
  {
  }

  /** When no step is left, the report has been written, unless there was no reviewer to wait for: with an
      empty panel nothing ever completes it. */
  lemma QuietMeansReported(specs: seq<nat>, diff: string, actions: seq<Action>, t: State)
    requires IsRun(Init(specs, diff), actions, t)
    requires forall a :: !Enabled(t, a)
    ensures t.reported <==> specs != []
  {
    InitInv(specs, diff);
    RunKeeps(Init(specs, diff), actions, t);
    forall i | 0 <= i < |specs| ensures Has(t.reviews, i) {
      Stuck(t, i);
      assert ReviewerOk(t, i);
    }
    FullBoard(t);
    assert !Enabled(t, Launch) && !Enabled(t, Report);
    Stuck(t, |specs|);
  }

  lemma Stuck(t: State, i: nat)
    requires i < |t.clients| && forall a :: !Enabled(t, a)
    ensures i < |t.specs| || t.launched ==> t.clients[i].accepted
    ensures t.clients[i].down == [] && !t.clients[i].working
    ensures t.clients[i].accepted ==> t.clients[i].up == []
  {
    assert !Enabled(t, Accept(i)) && !Enabled(t, Read(i)) && !Enabled(t, Finish(i, "")) && !Enabled(t, HubRead(i));
  }

  /** From every state the protocol can be in, some continuation runs until no step is left. */
  lemma {:induction false} Finishes(s: State) returns (actions: seq<Action>, t: State)
    requires Inv(s)
    ensures IsRun(s, actions, t) && forall a :: !Enabled(t, a)
    decreases Measure(s)
  {
    if a :| Enabled(s, a) {
      StepKeepsInv(s, a);
      StepDecreases(s, a);
      FullBoard(s);
      MeasureBounds(|s.specs|, |s.reviews|);
      var more;
      more, t := Finishes(Do(s, a));
      actions := [a] + more;
      assert actions[1..] == more;
    } else {
      actions, t := [], s;
    }
  }

  // ----- the report -----

  /** cleanReview and the two regular expressions of findings, taken as arbitrary functions of the text. */
  datatype Judge = Judge(clean: string -> string, hasBullets: string -> bool, passes: string -> bool) {

    function Findings(review: string): (r: Option<string>)
      ensures r.Some? ==> r.value != ""
    {
      var t := clean(review);
      if t == "" || (!hasBullets(t) && passes(t)) then None else Some(t)
    }

    predicate IsClean(review: string) {
      Findings(review).None?
    }

    /** Something is left of the review, and it has a bullet or does not say that all is well. */
    predicate HasFinding(review: string) {
      clean(review) != "" && (hasBullets(clean(review)) || !passes(clean(review)))
    }
  }

  datatype Item = Item(category: nat, from: nat, text: string)

  datatype Status = Clean | Issues | Mixed

  datatype Row = Row(category: nat, clean: nat, total: nat, status: Status)

  /** One item for each review with a finding, in order. */
  function Items(judge: Judge, reviews: seq<Review>): seq<Item> {
    if reviews == [] then []
    else
      var r := reviews[|reviews| - 1];
      var text := judge.Findings(r.text);
      Items(judge, reviews[..|reviews| - 1]) + if text.Some? then [Item(r.category, r.from, text.value)] else []
  }

  /** The items are the findings of the reviews at the places in index, which are in order and leave none out: each
      under its review's category and author, with the text that was left of it. */
  ghost predicate Attributed(judge: Judge, reviews: seq<Review>, index: seq<nat>, items: seq<Item>) {
    && |items| == |index|
    && (forall k, l | 0 <= k < l < |index| :: index[k] < index[l])
    && (forall k | 0 <= k < |index| :: index[k] < |reviews|)
    && (forall i | 0 <= i < |reviews| :: i in index <==> judge.HasFinding(reviews[i].text))
    && forall k | 0 <= k < |index| ::
         var r := reviews[index[k]];
         items[k].category == r.category && items[k].from == r.from && items[k].text == judge.clean(r.text)
  }

  lemma {:induction false} ItemsAttributed(judge: Judge, reviews: seq<Review>) returns (index: seq<nat>)
    ensures Attributed(judge, reviews, index, Items(judge, reviews))
    decreases |reviews|
  {
    if reviews == [] {
      index := [];
    } else {
      var n := |reviews| - 1;
      var r := reviews[n];
      hide Attributed;
      index := ItemsAttributed(judge, reviews[..n]);
      if judge.Findings(r.text).Some? {
        AttributedSnoc(judge, reviews, index, Items(judge, reviews[..n]));
        index := index + [n];
      } else {
        assert Items(judge, reviews) == Items(judge, reviews[..n]) + [] == Items(judge, reviews[..n]);
        AttributedSame(judge, reviews, index, Items(judge, reviews[..n]));
      }
    }
  }

  lemma AttributedSame(judge: Judge, reviews: seq<Review>, index: seq<nat>, items: seq<Item>)
    requires reviews != [] && Attributed(judge, reviews[..|reviews| - 1], index, items)
    requires !judge.HasFinding(reviews[|reviews| - 1].text)
    ensures Attributed(judge, reviews, index, items)
  {
    var n := |reviews| - 1;
    assert n !in index && forall i | 0 <= i < n :: reviews[..n][i] == reviews[i];
  }

  lemma AttributedSnoc(judge: Judge, reviews: seq<Review>, index: seq<nat>, items: seq<Item>)
    requires reviews != [] && Attributed(judge, reviews[..|reviews| - 1], index, items)
    requires judge.HasFinding(reviews[|reviews| - 1].text)
    ensures var r := reviews[|reviews| - 1];
            Attributed(judge, reviews, index + [|reviews| - 1], items + [Item(r.category, r.from, judge.clean(r.text))])
  {
    var n := |reviews| - 1;
    var all := index + [n];
    assert all[|index|] == n;
    forall i | 0 <= i < |reviews| ensures i in all <==> judge.HasFinding(reviews[i].text) {
      assert i < n ==> reviews[..n][i] == reviews[i];
      assert i in all <==> i in index || i == n;
    }
  }

  method ActionItems(judge: Judge, reviews: seq<Review>) returns (items: seq<Item>)
    ensures items == Items(judge, reviews)
    ensures exists index :: Attributed(judge, reviews, index, items)
  {
    ghost var index := ItemsAttributed(judge, reviews);
    items := [];
    for i := 0 to |reviews|
      invariant items == Items(judge, reviews[..i])
    {
      var r := reviews[i];
      assert reviews[..i + 1][..i] == reviews[..i];
      var text := judge.Findings(r.text);
      if text.Some? && text.value != "" {
        items := items + [Item(r.category, r.from, text.value)];
      }
    }
    assert reviews[..|reviews|] == reviews;
  }

  /** The reviews of a category, in order. */
  function Of(reviews: seq<Review>, category: nat): seq<Review> {
    if reviews == [] then []
    else
      var n := |reviews| - 1;
      Of(reviews[..n], category) + if reviews[n].category == category then [reviews[n]] else []
  }

  /** How many of the reviews are clean. */
  function CleanCount(judge: Judge, reviews: seq<Review>): nat {
    if reviews == [] then 0
    else
      var n := |reviews| - 1;
      CleanCount(judge, reviews[..n]) + if judge.IsClean(reviews[n].text) then 1 else 0
  }

  function RowFor(judge: Judge, reviews: seq<Review>, category: nat): Row {
    var rs := Of(reviews, category);
    var clean, total := CleanCount(judge, rs), |rs|;
    var status := if total != 0 && clean == total then Clean else if clean == 0 then Issues else Mixed;
    Row(category, clean, total, status)
  }

  /** The places of the category's reviews. */
  ghost function Places(reviews: seq<Review>, category: nat): set<nat> {
    set i: nat | i < |reviews| && reviews[i].category == category
  }

  /** The places of those of them without a finding. */
  ghost function CleanPlaces(judge: Judge, reviews: seq<Review>, category: nat): set<nat> {
    set i: nat | i < |reviews| && reviews[i].category == category && !judge.HasFinding(reviews[i].text)
  }

  lemma PlacesSnoc(front: seq<Review>, r: Review, category: nat)
    ensures |Places(front + [r], category)| == |Places(front, category)| + if r.category == category then 1 else 0
  {
    var n, all, before := |front|, front + [r], Places(front, category);
    var after := if r.category == category then before + {n} else before;
    forall i: nat ensures i in Places(all, category) <==> i in after {
      assert i < n ==> all[i] == front[i];
    }
    assert Places(all, category) == after && n !in before;
  }

  lemma CleanPlacesSnoc(judge: Judge, front: seq<Review>, r: Review, category: nat)
    ensures |CleanPlaces(judge, front + [r], category)|
            == |CleanPlaces(judge, front, category)|
               + if r.category == category && !judge.HasFinding(r.text) then 1 else 0
  {
    var n, all, before := |front|, front + [r], CleanPlaces(judge, front, category);
    var after := if r.category == category && !judge.HasFinding(r.text) then before + {n} else before;
    forall i: nat ensures i in CleanPlaces(judge, all, category) <==> i in after {
      assert i < n ==> all[i] == front[i];
    }
    assert CleanPlaces(judge, all, category) == after && n !in before;
  }

  lemma OfSnoc(judge: Judge, front: seq<Review>, r: Review, category: nat)
    ensures |Of(front + [r], category)| == |Of(front, category)| + if r.category == category then 1 else 0
    ensures CleanCount(judge, Of(front + [r], category))
            == CleanCount(judge, Of(front, category))
               + if r.category == category && !judge.HasFinding(r.text) then 1 else 0
  {
    var rs := Of(front, category);
    assert (front + [r])[..|front|] == front;
    assert (rs + [r])[..|rs|] == rs && rs + [] == rs;
  }

  /** A row counts the category's reviews, and those of them without a finding. */
  lemma {:induction false} RowCounts(judge: Judge, reviews: seq<Review>, category: nat)
    ensures RowFor(judge, reviews, category).total == |Places(reviews, category)|
    ensures RowFor(judge, reviews, category).clean == |CleanPlaces(judge, reviews, category)|
    decreases |reviews|
  {
    if reviews != [] {
      hide Of, CleanCount, Places, CleanPlaces;
      var front, r := reviews[..|reviews| - 1], reviews[|reviews| - 1];
      RowCounts(judge, front, category);
      assert reviews == front + [r];
      PlacesSnoc(front, r, category);
      CleanPlacesSnoc(judge, front, r, category);
      OfSnoc(judge, front, r, category);
    } else {
      assert Places([], category) == {} && CleanPlaces(judge, [], category) == {};
    }
  }

  function Summarize(judge: Judge, categories: nat, reviews: seq<Review>): seq<Row> {
    seq(categories, c requires 0 <= c => RowFor(judge, reviews, c))
  }

  function ItemsOf(items: seq<Item>, category: nat): seq<Item> {
    if items == [] then []
    else
      var n := |items| - 1;
      ItemsOf(items[..n], category) + if items[n].category == category then [items[n]] else []
  }

  /** The table and the action list never disagree: in each category a review is clean or has an item. */
  lemma {:induction false} TableMatchesItems(judge: Judge, reviews: seq<Review>, category: nat)
    ensures CleanCount(judge, Of(reviews, category)) + |ItemsOf(Items(judge, reviews), category)| == |Of(reviews,
            category)|
  {
    if reviews != [] {
      var n := |reviews| - 1;
      TableMatchesItems(judge, reviews[..n], category);
      var r := reviews[n];
      var rs, items := Of(reviews[..n], category), Items(judge, reviews[..n]);
      assert (rs + [r])[..|rs|] == rs;
      if judge.Findings(r.text).Some? {
        var item := Item(r.category, r.from, judge.Findings(r.text).value);
        assert (items + [item])[..|items|] == items;
      } else {
        assert items + [] == items;
      }
      assert rs + [] == rs;
    }
  }

  /** What each status means in terms of the action list. An empty category has no item and yet reports
      issues: clean means no item exactly when the category is not empty. */
  lemma StatusMeaning(judge: Judge, reviews: seq<Review>, category: nat)
    ensures var row := RowFor(judge, reviews, category);
            var items := |ItemsOf(Items(judge, reviews), category)|;
            && (row.status == Clean <==> items == 0 && row.total > 0)
            && (row.status == Issues <==> items == row.total)
            && (row.status == Mixed <==> 0 < items < row.total)
            && ((row.status == Clean <==> items == 0) <==> row.total > 0)
  {
    TableMatchesItems(judge, reviews, category);
  }

  lemma {:induction false} SpecAt(categories: nat, perCategory: nat, i: nat, c: nat)
    requires i < |Specs(categories, perCategory)|
    ensures Specs(categories, perCategory)[i] == c <==> c * perCategory <= i < c * perCategory + perCategory
    ensures Specs(categories, perCategory)[i] < categories
  {
    if categories > 0 {
      var last := categories - 1;
      if i < last * perCategory {
        SpecAt(last, perCategory, i, c);
        Blocks(c, last, perCategory, i);
      } else {
        assert categories * perCategory == last * perCategory + perCategory;
        Blocks(c, last, perCategory, i);
        Blocks(last, c, perCategory, i);
      }
    }
  }

  /** Blocks of equal size do not overlap. */
  lemma Blocks(c: nat, d: nat, size: nat, i: nat)
    ensures c < d && i >= d * size ==> i >= c * size + size
  {
    if c < d {
      assert d * size == (c + 1) * size + (d - c - 1) * size;
      assert (c + 1) * size == c * size + size;
    }
  }

  lemma {:induction false} OfMembers(reviews: seq<Review>, category: nat, r: Review)
    ensures r in Of(reviews, category) <==> r in reviews && r.category == category
  {
    if reviews != [] {
      var n := |reviews| - 1;
      OfMembers(reviews[..n], category, r);
      assert reviews == reviews[..n] + [reviews[n]];
    }
  }

  lemma {:induction false} OfDistinct(reviews: seq<Review>, category: nat)
    requires forall k, l | 0 <= k < l < |reviews| :: reviews[k].from != reviews[l].from
    ensures forall k, l | 0 <= k < l < |Of(reviews, category)| ::
              Of(reviews, category)[k].from != Of(reviews, category)[l].from
  {
    if reviews != [] {
      var n := |reviews| - 1;
      OfDistinct(reviews[..n], category);
      var rs := Of(reviews[..n], category);
      forall k | 0 <= k < |rs| ensures rs[k].from != reviews[n].from {
        OfMembers(reviews[..n], category, rs[k]);
      }
    }
  }

  /** A complete panel has perCategory reviews in every category. */
  lemma CategorySize(categories: nat, perCategory: nat, s: State, c: nat)
    requires BoardOk(s) && s.specs == Specs(categories, perCategory) && c < categories
    requires forall i | 0 <= i < |s.specs| :: Has(s.reviews, i)
    ensures |Of(s.reviews, c)| == perCategory
  {
    hide Of, Specs;
    var first, rs := c * perCategory, Of(s.reviews, c);
    OfDistinct(s.reviews, c);
    forall k | 0 <= k < |rs| ensures first <= rs[k].from < first + perCategory {
      OfMembers(s.reviews, c, rs[k]);
      SpecAt(categories, perCategory, rs[k].from, c);
    }
    var offsets := seq(|rs|, k requires 0 <= k < |rs| => rs[k].from - first);
    forall j | 0 <= j < perCategory ensures j in offsets {
      Blocks(c, categories, perCategory, categories * perCategory);
      assert Has(s.reviews, first + j);
      var k :| 0 <= k < |s.reviews| && s.reviews[k].from == first + j;
      SpecAt(categories, perCategory, first + j, c);
      OfMembers(s.reviews, c, s.reviews[k]);
      var l :| 0 <= l < |rs| && rs[l] == s.reviews[k];
      assert offsets[l] == j;
    }
    Pigeonhole(offsets, perCategory);
  }

  /** When the report is written, every category has exactly perCategory reviews, each of them clean or an
      action item, and a category is marked clean exactly when it has no action item. */
  lemma ReportIsComplete(judge: Judge, categories: nat, perCategory: nat, diff: string,
                         actions: seq<Action>, t: State, c: nat)
    requires IsRun(Init(Specs(categories, perCategory), diff), actions, t)
    requires t.reported && c < categories
    ensures var row := Summarize(judge, categories, t.reviews)[c];
            var items := |ItemsOf(Items(judge, t.reviews), c)|;
            && row.category == c && row.total == perCategory > 0
            && row.clean + items == row.total
            && (row.status == Clean <==> items == 0)
            && (row.status == Issues <==> items == perCategory)
  {
    InitInv(Specs(categories, perCategory), diff);
    RunKeeps(Init(Specs(categories, perCategory), diff), actions, t);
    FullBoard(t);
    CategorySize(categories, perCategory, t, c);
    TableMatchesItems(judge, t.reviews, c);
    assert categories * perCategory > 0;
  }

  // ----- the handlers as the program runs them -----

  /** The hub: its reviews, connection set, resolved promises and what it has written to each socket. */
  class Hub {
    const specCount: nat
    const diff: string
    var reviews: seq<Review>
    var conns: set<nat>
    var correlation: Option<string>
    var allIn: bool
    var written: seq<seq<Msg>>

    /** This hub is the hub of protocol state s. */
    ghost predicate Is(s: State)
      reads this
    {
      && specCount == |s.specs| && diff == s.diff
      && reviews == s.reviews && correlation == s.correlation && allIn == s.allIn
      && |written| == |s.clients|
      && (forall j | 0 <= j < |s.clients| :: j in conns <==> s.clients[j].accepted)
      && (forall j | j in conns :: j < |written|)
      && forall j | 0 <= j < |s.clients| :: written[j] == s.clients[j].down
    }

    /** createServer's connection handler. */
    method OnConnection(ghost s: State, i: nat)
      requires Is(s) && Enabled(s, Accept(i))
      modifies this
      ensures Is(Do(s, Accept(i)))
    {
      conns := conns + {i};
      written := written[i := written[i] + [Task(diff)]];
      written := written[i := written[i] + [Board(reviews)]];
      assert written[i] == s.clients[i].down + [Task(diff), Board(reviews)];
    }

    method OnMessage(ghost s: State, msg: Msg)
      requires Is(s)
      modifies this
      ensures Is(HubHandled(s, msg))
    {
      if msg.Filing? {
        reviews := reviews + [msg.review];
        Write(Board(reviews));
        if |reviews| == specCount {
          allIn := true;
        }
      } else if msg.Correlation? {
        correlation := Some(msg.text);
      }
    }

    /** The payload written to every connection. */
    method Write(payload: Msg)
      requires forall j | j in conns :: j < |written|
      modifies this`written
      ensures |written| == |old(written)|
      ensures forall j | 0 <= j < |written| ::
                written[j] == if j in conns then old(written)[j] + [payload] else old(written)[j]
    {
      var todo := conns;
      while todo != {}
        invariant todo <= conns && |written| == |old(written)|
        invariant forall j | 0 <= j < |written| ::
                    written[j] == if j in conns - todo then old(written)[j] + [payload] else old(written)[j]
      {
        var c :| c in todo;
        todo := todo - {c};
        written := written[c := written[c] + [payload]];
      }
    }
  }

  /** The message handlers of runReviewer and runCorrelator: asked is what the agent has been asked about. */
  class Reviewer {
    var reviewed: bool
    var asked: Option<string>

    method OnMessage(ghost specs: seq<nat>, ghost i: nat, ghost c: Client, msg: Msg)
      requires i < |specs| && reviewed == c.begun && (c.working ==> c.begun)
      modifies this
      ensures reviewed == Heard(specs, i, c, msg).begun
      ensures asked == if !c.begun && reviewed then Some(msg.diff) else old(asked)
      ensures !c.begun && reviewed <==> Heard(specs, i, c, msg).working && !c.working
    {
      if !msg.Task? || reviewed {
        return;
      }
      reviewed := true;
      asked := Some(msg.diff);
    }
  }

  class Correlator {
    const specCount: nat
    var started: bool
    var asked: Option<seq<Review>>

    method OnMessage(ghost specs: seq<nat>, ghost c: Client, msg: Msg)
      requires specCount == |specs| && started == c.begun && (c.working ==> c.begun)
      modifies this
      ensures started == Heard(specs, |specs|, c, msg).begun
      ensures asked == if !c.begun && started then Some(msg.reviews) else old(asked)
      ensures !c.begun && started <==> Heard(specs, |specs|, c, msg).working && !c.working
    {
      if !msg.Board? || started || |msg.reviews| < specCount {
        return;
      }
      started := true;
      asked := Some(msg.reviews);
    }
  }
}

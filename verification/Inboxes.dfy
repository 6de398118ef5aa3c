/** The resources of examples/tools/p2p.js: swarms, servers and connections, each with an inbox that its socket
    handlers fill and its messages tool empties. Every await is a step of its own. */
module Inboxes {
  import opened Decimals
  import opened ToolMessages
  import opened Wrappers

  datatype Kind = Swarm | Server | Conn

  datatype Phase = Opening | Open | Gone

  /** The n-th call of nextId made resource n - 1. */
  datatype Resource = Resource(kind: Kind, phase: Phase, inbox: seq<Message>)

  /** The three maps. */
  datatype Ids = Ids(swarms: map<string, nat>, servers: map<string, nat>, conns: map<string, nat>)

  datatype World = World(resources: seq<Resource>, ids: Ids)

  function Entries(ids: Ids, kind: Kind): map<string, nat> {
    match kind
    case Swarm => ids.swarms
    case Server => ids.servers
    case Conn => ids.conns
  }

  function WithEntries(ids: Ids, kind: Kind, entries: map<string, nat>): (after: Ids)
    ensures Entries(after, kind) == entries
    ensures forall k | k != kind :: Entries(after, k) == Entries(ids, k)
  {
    match kind
    case Swarm => ids.(swarms := entries)
    case Server => ids.(servers := entries)
    case Conn => ids.(conns := entries)
  }

  datatype Action =
    | Begin(kind: Kind)                  // nextId, and the inbox made
    | Opened(r: nat)                     // the await is over: the entry is stored under the id
    | Arrive(r: nat, msg: Message)             // a data event, whatever the state of the resource
    | Read(kind: Kind, id: string)       // the messages tool
    | Delete(kind: Kind, id: string)     // the close tool, after its awaits

  function Id(r: nat): string {
    Decimal(r + 1)
  }

  function Init(): (w: World)
    ensures Inv(w)
  {
    World([], Ids(map[], map[], map[]))
  }

  /** swarms.get(id), servers.get(id) or conns.get(id). */
  function Lookup(w: World, kind: Kind, id: string): Option<nat> {
    if id in Entries(w.ids, kind) then Some(Entries(w.ids, kind)[id]) else None
  }

  predicate Enabled(w: World, a: Action) {
    match a
    case Opened(r) => r < |w.resources| && w.resources[r].phase == Opening
    case Arrive(r, _) => r < |w.resources|
    case _ => true
  }

  function Do(w: World, a: Action): World
    requires Inv(w) && Enabled(w, a)
  {
    match a
    case Begin(kind) => w.(resources := w.resources + [Resource(kind, Opening, [])])
    case Opened(r) =>
      var kind := w.resources[r].kind;
      World(w.resources[r := w.resources[r].(phase := Open)],
          WithEntries(w.ids, kind, Entries(w.ids, kind)[Id(r) := r]))
    case Arrive(r, msg) =>
      w.(resources := w.resources[r := w.resources[r].(inbox := w.resources[r].inbox + [msg])])
    case Read(kind, id) =>
      var r := Lookup(w, kind, id);
      if r.None? then w else w.(resources := w.resources[r.value := w.resources[r.value].(inbox := [])])
    case Delete(kind, id) =>
      var r := Lookup(w, kind, id);
      if r.None? then w
      else
        World(w.resources[r.value := w.resources[r.value].(phase := Gone)],
              WithEntries(w.ids, kind, Entries(w.ids, kind) - {id}))
  }

  /** A map holds a resource under an id exactly when it is open, of the map's kind, and the id is its own. */
  ghost predicate Inv(w: World) {
    && (forall kind, id | id in Entries(w.ids, kind) :: Holds(w, Entries(w.ids, kind)[id], kind, id))
    && forall r | 0 <= r < |w.resources| && w.resources[r].phase == Open ::
         Lookup(w, w.resources[r].kind, Id(r)) == Some(r)
  }

  predicate Holds(w: World, r: nat, kind: Kind, id: string) {
    r < |w.resources| && w.resources[r].kind == kind && w.resources[r].phase == Open && id == Id(r)
  }

  lemma IdInjective(r: nat, q: nat)
    ensures Id(r) == Id(q) ==> r == q
  {
    DecimalInjective(r + 1, q + 1);
  }

  lemma OpenedKeepsInv(w: World, r: nat)
    requires Inv(w) && Enabled(w, Opened(r))
    ensures Inv(Do(w, Opened(r)))
  {
    hide Id, Entries, WithEntries;
    var u := Do(w, Opened(r));
    forall kind, id | id in Entries(u.ids, kind) ensures Holds(u, Entries(u.ids, kind)[id], kind, id) {
      if kind != w.resources[r].kind || id != Id(r) {
        assert id in Entries(w.ids, kind) && Holds(w, Entries(w.ids, kind)[id], kind, id);
      }
    }
    forall q | 0 <= q < |u.resources| && u.resources[q].phase == Open
      ensures Lookup(u, u.resources[q].kind, Id(q)) == Some(q)
    {
      IdInjective(q, r);
    }
  }

  lemma DeleteKeepsInv(w: World, kind: Kind, id: string)
    requires Inv(w)
    ensures Inv(Do(w, Delete(kind, id)))
  {
    hide Id, Entries, WithEntries;
    var u, found := Do(w, Delete(kind, id)), Lookup(w, kind, id);
    if found.Some? {
      var r := found.value;
      forall k, i | i in Entries(u.ids, k) ensures Holds(u, Entries(u.ids, k)[i], k, i) {
        assert i in Entries(w.ids, k) && Holds(w, Entries(w.ids, k)[i], k, i);
      }
      forall q | 0 <= q < |u.resources| && u.resources[q].phase == Open
        ensures Lookup(u, u.resources[q].kind, Id(q)) == Some(q)
      {
        IdInjective(q, r);
      }
    }
  }

  lemma StepKeepsInv(w: World, a: Action)
    requires Inv(w) && Enabled(w, a)
    ensures Inv(Do(w, a))
  {
    if a.Opened? {
      OpenedKeepsInv(w, a.r);
    } else if a.Delete? {
      DeleteKeepsInv(w, a.kind, a.id);
    } else {
      hide Id, Entries;
      SameIds(w, Do(w, a));
    }
  }

  /** New resources, messages and reads leave the maps and what they hold alone. */
  lemma SameIds(w: World, u: World)
    requires Inv(w) && u.ids == w.ids && |u.resources| >= |w.resources|
    requires forall r | 0 <= r < |u.resources| ::
               if r < |w.resources| then u.resources[r].kind == w.resources[r].kind
                   && u.resources[r].phase == w.resources[r].phase
               else u.resources[r].phase == Opening
    ensures Inv(u)
  {
    hide Id, Entries;
    forall kind, id | id in Entries(u.ids, kind) ensures Holds(u, Entries(u.ids, kind)[id], kind, id) {
      assert Holds(w, Entries(w.ids, kind)[id], kind, id);
    }
    forall q | 0 <= q < |u.resources| && u.resources[q].phase == Open
      ensures Lookup(u, u.resources[q].kind, Id(q)) == Some(q)
    {
      assert w.resources[q].phase == Open;
    }
  }

  ghost predicate IsRun(w: World, actions: seq<Action>, u: World)
    requires Inv(w)
    decreases |actions|
  {
    if actions == [] then w == u
    else
      Enabled(w, actions[0]) && (StepKeepsInv(w, actions[0]); IsRun(Do(w, actions[0]), actions[1..], u))
  }

  lemma {:induction false} RunKeepsInv(w: World, actions: seq<Action>, u: World)
    requires Inv(w) && IsRun(w, actions, u)
    ensures Inv(u)
    decreases |actions|
  {
    if actions != [] {
      StepKeepsInv(w, actions[0]);
      RunKeepsInv(Do(w, actions[0]), actions[1..], u);
    }
  }

  // ----- conservation -----

  function Inbox(w: World, r: nat): seq<Message> {
    if r < |w.resources| then w.resources[r].inbox else []
  }

  function Arrived(a: Action, r: nat): seq<Message> {
    if a.Arrive? && a.r == r then [a.msg] else []
  }

  /** Everything that arrived for resource r in a run, in order. */
  function Arrivals(actions: seq<Action>, r: nat): seq<Message> {
    if actions == [] then [] else Arrived(actions[0], r) + Arrivals(actions[1..], r)
  }

  /** The batch a step returns from resource r's inbox, if it reads it. */
  function Batch(w: World, a: Action, r: nat): seq<Message> {
    if a.Read? && Lookup(w, a.kind, a.id) == Some(r) then Inbox(w, r) else []
  }

  /** All the batches returned from resource r's inbox in a run, one after the other. */
  ghost function Returned(w: World, actions: seq<Action>, r: nat): seq<Message>
    requires Inv(w)
    decreases |actions|
  {
    if actions == [] || !Enabled(w, actions[0]) then []
    else
      StepKeepsInv(w, actions[0]);
      Batch(w, actions[0], r) + Returned(Do(w, actions[0]), actions[1..], r)
  }

  lemma StepConserves(w: World, a: Action, r: nat)
    requires Inv(w) && Enabled(w, a)
    ensures Batch(w, a, r) + Inbox(Do(w, a), r) == Inbox(w, r) + Arrived(a, r)
  {
    hide Id, Entries, WithEntries;
  }

  /** What has been returned, followed by what is still in the inbox, is what arrived: nothing is lost,
      repeated, reordered or delivered to another resource's reader. */
  lemma {:induction false} Conservation(w: World, actions: seq<Action>, u: World, r: nat)
    requires Inv(w) && IsRun(w, actions, u)
    ensures Returned(w, actions, r) + Inbox(u, r) == Inbox(w, r) + Arrivals(actions, r)
    decreases |actions|
  {
    hide Inv, Do, Batch, Arrived, Inbox;
    if actions == [] {
      assert [] + Inbox(u, r) == Inbox(w, r) + [];
    } else {
      var a, rest := actions[0], actions[1..];
      StepKeepsInv(w, a);
      StepConserves(w, a, r);
      var v := Do(w, a);
      Conservation(v, rest, u, r);
      Assoc(Batch(w, a, r), Returned(v, rest, r), Inbox(u, r));
      Assoc(Batch(w, a, r), Inbox(v, r), Arrivals(rest, r));
      Assoc(Inbox(w, r), Arrived(a, r), Arrivals(rest, r));
    }
  }

  lemma Assoc(a: seq<Message>, b: seq<Message>, c: seq<Message>)
    ensures a + b + c == a + (b + c)
  {
  }

  /** From the start: for each resource ever made, batches and inbox add up to its arrivals, and asking for any
      kind and id finds it exactly when it is open and both are its own. */
  lemma EveryMessageOnce(actions: seq<Action>, w: World, r: nat, kind: Kind, id: string)
    requires IsRun(Init(), actions, w) && r < |w.resources|
    ensures Returned(Init(), actions, r) + w.resources[r].inbox == Arrivals(actions, r)
    ensures Inv(w)
    ensures Lookup(w, kind, id) == Some(r) <==>
            w.resources[r].phase == Open && w.resources[r].kind == kind && id == Id(r)
  {
    RunKeepsInv(Init(), actions, w);
    Conservation(Init(), actions, w, r);
    assert [] + Arrivals(actions, r) == Arrivals(actions, r);
  }

  /** An operation on one kind and id leaves every other resource's inbox alone, and ids are never reused: two
      resources never share one, whatever their kinds and however long ago the first was closed. */
  lemma OthersUntouched(w: World, a: Action, r: nat)
    requires Inv(w) && (a.Read? || a.Delete?) && r < |w.resources|
    requires a.kind != w.resources[r].kind || a.id != Id(r)
    ensures Do(w, a).resources[r] == w.resources[r]
    ensures forall q: nat | q != r :: Id(q) != Id(r)
  {
    forall q: nat | q != r ensures Id(q) != Id(r) {
      IdInjective(q, r);
    }
  }
}

/** index.js, _persistSession on one key when calls overlap: a chat's finally block, a state-changed event and a
    Go turn that is still running after an early break. Each call exports, and flushes what it exported later. */
module Racing {
  import opened Wrappers
  import opened Wire
  import opened SessionStore

  datatype Event<M> =
    | Changed(session: Session<M>)    // a Go turn writes the session
    | Exported(id: nat)               // Go answers call id's sessionExport
    | Flushed(id: nat)                // call id's put reaches the bee

  /** One session: Go's, the blobs exported, the calls that have flushed theirs, and the bee's data entry. */
  datatype Cell<M> = Cell(go: Session<M>, blobs: map<nat, Bytes>, flushed: set<nat>, data: Option<Bytes>)

  /** The calls that have exported and not flushed. */
  function Outstanding<M>(c: Cell<M>): set<nat> {
    c.blobs.Keys - c.flushed
  }

  predicate Possible<M>(codec: Codec<M>, c: Cell<M>, e: Event<M>) {
    match e
    case Changed(_) => true
    case Exported(id) => id !in c.blobs && Marshalled(codec, c.go).Some?
    case Flushed(id) => id in Outstanding(c)
  }

  function Step<M>(codec: Codec<M>, c: Cell<M>, e: Event<M>): Cell<M>
    requires Possible(codec, c, e)
  {
    match e
    case Changed(session) => c.(go := session)
    case Exported(id) => c.(blobs := c.blobs[id := Marshalled(codec, c.go).value])
    case Flushed(id) => c.(data := Some(c.blobs[id]), flushed := c.flushed + {id})
  }

  predicate Trace<M>(codec: Codec<M>, c: Cell<M>, events: seq<Event<M>>)
    decreases |events|
  {
    events == [] || (Possible(codec, c, events[0]) && Trace(codec, Step(codec, c, events[0]), events[1..]))
  }

  function Final<M>(codec: Codec<M>, c: Cell<M>, events: seq<Event<M>>): Cell<M>
    requires Trace(codec, c, events)
    decreases |events|
  {
    if events == [] then c else Final(codec, Step(codec, c, events[0]), events[1..])
  }

  /** The bee's entry is Go's session. */
  ghost predicate InStep<M>(codec: Codec<M>, c: Cell<M>) {
    c.data.Some? && Unmarshalled(codec, c.data.value) == Some(c.go)
  }

  lemma {:induction false} Split<M>(codec: Codec<M>, c: Cell<M>, events: seq<Event<M>>, i: nat)
    requires Trace(codec, c, events) && i <= |events|
    ensures Trace(codec, c, events[..i])
    ensures Trace(codec, Final(codec, c, events[..i]), events[i..])
    ensures Final(codec, Final(codec, c, events[..i]), events[i..]) == Final(codec, c, events)
    decreases i
  {
    if i > 0 {
      Split(codec, Step(codec, c, events[0]), events[1..], i - 1);
      assert events[..i][1..] == events[1..][..i - 1];
    } else {
      assert events[0..] == events;
    }
  }

  lemma {:induction false} NoFlush<M>(codec: Codec<M>, c: Cell<M>, events: seq<Event<M>>)
    requires Trace(codec, c, events) && forall k | 0 <= k < |events| :: !events[k].Flushed?
    ensures Final(codec, c, events).data == c.data
    decreases |events|
  {
    if events != [] {
      NoFlush(codec, Step(codec, c, events[0]), events[1..]);
    }
  }

  /** A blob once exported never changes, and the last flush decides what the bee holds. */
  lemma {:induction false} LastFlush<M>(codec: Codec<M>, c: Cell<M>, events: seq<Event<M>>, id: nat, f: nat)
    requires Trace(codec, c, events) && id in c.blobs && f < |events| && events[f] == Flushed(id)
    requires forall k | f < k < |events| :: !events[k].Flushed?
    ensures Final(codec, c, events).data == Some(c.blobs[id])
    decreases |events|
  {
    var next, rest := Step(codec, c, events[0]), events[1..];
    if f == 0 {
      NoFlush(codec, next, rest);
    } else {
      assert rest[f - 1] == events[f];
      LastFlush(codec, next, rest, id, f - 1);
    }
  }

  /** Whatever overlaps, when call id is the last to flush, the bee ends up in step with Go if and only if Go's
      session is the one that call id exported. */
  lemma LastFlushDecides<M(!new)>(codec: Codec<M>, c: Cell<M>, events: seq<Event<M>>, id: nat, e: nat, f: nat)
    requires RoundTrips(codec) && Trace(codec, c, events)
    requires e < f < |events| && events[e] == Exported(id) && events[f] == Flushed(id)
    requires forall k | f < k < |events| :: !events[k].Flushed?
    ensures Trace(codec, c, events[..e])
    ensures InStep(codec, Final(codec, c, events)) <==> Final(codec, c, events).go == Final(codec, c, events[..e]).go
  {
    hide RoundTrips, Marshalled, Unmarshalled;
    Split(codec, c, events, e);
    var before, rest := Final(codec, c, events[..e]), events[e..];
    SessionRoundTrip(codec, before.go);
    assert rest[0] == events[e] && rest[1..][f - e - 1] == events[f];
    LastFlush(codec, Step(codec, before, rest[0]), rest[1..], id, f - e - 1);
  }

  /** In particular if nothing changed Go's session after that export. */
  lemma {:induction false} Unchanged<M>(codec: Codec<M>, c: Cell<M>, events: seq<Event<M>>)
    requires Trace(codec, c, events) && forall k | 0 <= k < |events| :: !events[k].Changed?
    ensures Final(codec, c, events).go == c.go
    decreases |events|
  {
    if events != [] {
      Unchanged(codec, Step(codec, c, events[0]), events[1..]);
    }
  }

  lemma SettledCallsAgree<M(!new)>(codec: Codec<M>, c: Cell<M>, events: seq<Event<M>>, id: nat, e: nat, f: nat)
    requires RoundTrips(codec) && Trace(codec, c, events)
    requires e < f < |events| && events[e] == Exported(id) && events[f] == Flushed(id)
    requires forall k | f < k < |events| :: !events[k].Flushed?
    requires forall k | e < k < |events| :: !events[k].Changed?
    ensures InStep(codec, Final(codec, c, events))
  {
    hide RoundTrips, InStep, Possible, Step;
    LastFlushDecides(codec, c, events, id, e, f);
    Split(codec, c, events, e);
    forall k | 0 <= k < |events| - e ensures !events[e..][k].Changed? {
      assert events[e..][k] == events[e + k];
    }
    Unchanged(codec, Final(codec, c, events[..e]), events[e..]);
  }

  // ----- every completion order -----

  /** The bytes are Go's session. */
  ghost predicate Matches<M>(codec: Codec<M>, c: Cell<M>, blob: Bytes) {
    Unmarshalled(codec, blob) == Some(c.go)
  }

  /** An order in which all outstanding calls may flush. */
  ghost predicate IsOrder<M>(c: Cell<M>, order: seq<nat>) {
    && (forall id :: id in order <==> id in Outstanding(c))
    && forall i, j | 0 <= i < j < |order| :: order[i] != order[j]
  }

  function Flushes<M>(order: seq<nat>): (events: seq<Event<M>>)
    ensures |events| == |order|
  {
    seq(|order|, i requires 0 <= i < |order| => Flushed(order[i]))
  }

  /** The last call to flush decides what is stored. */
  lemma {:induction false} OrderOutcome<M>(codec: Codec<M>, c: Cell<M>, order: seq<nat>)
    requires IsOrder(c, order)
    ensures Trace(codec, c, Flushes(order)) && Final(codec, c, Flushes(order)).go == c.go
    ensures order != [] ==> order[|order| - 1] in Outstanding(c)
    ensures Final(codec, c, Flushes(order)).data
            == if order == [] then c.data else Some(c.blobs[order[|order| - 1]])
    decreases |order|
  {
    if order != [] {
      assert order[0] in order && order[|order| - 1] in order;
      var next := Step(codec, c, Flushed(order[0]));
      assert Flushes<M>(order)[1..] == Flushes<M>(order[1..]);
      forall id ensures id in order[1..] <==> id in Outstanding(next) {
        if id in order && id != order[0] {
          var i :| 0 <= i < |order| && order[i] == id;
          assert order[1..][i - 1] == id;
        }
      }
      OrderOutcome(codec, next, order[1..]);
    }
  }

  /** The elements of a set in some order, with last at the end. */
  lemma {:induction false} Enumerate(ids: set<nat>, last: nat) returns (order: seq<nat>)
    requires last in ids
    ensures forall id :: id in order <==> id in ids
    ensures forall i, j | 0 <= i < j < |order| :: order[i] != order[j]
    ensures order != [] && order[|order| - 1] == last
    decreases |ids|
  {
    var others := ids - {last};
    if others == {} {
      order := [last];
    } else {
      var first :| first in others;
      var rest := Enumerate(ids - {first}, last);
      order := [first] + rest;
    }
  }

  /** However the outstanding calls are scheduled the bee ends in step, if and only if every one of them has
      exported the session that Go holds. */
  lemma EveryOrderSettles<M>(codec: Codec<M>, c: Cell<M>)
    requires Outstanding(c) != {}
    ensures (forall order | IsOrder(c, order) ::
               Trace(codec, c, Flushes(order)) && InStep(codec, Final(codec, c, Flushes(order))))
            <==> Settled(codec, c)
  {
    hide Unmarshalled;
    forall order | IsOrder(c, order)
      ensures Trace(codec, c, Flushes(order)) && order != [] && order[|order| - 1] in Outstanding(c)
      ensures InStep(codec, Final(codec, c, Flushes(order))) <==> Matches(codec, c, c.blobs[order[|order| - 1]])
    {
      OrderOutcome(codec, c, order);
      var id :| id in Outstanding(c);
      assert id in order;
      assert order[|order| - 1] in order;
    }
    forall id | id in Outstanding(c)
      ensures exists order :: IsOrder(c, order) && order != [] && order[|order| - 1] == id
    {
      var order := Enumerate(Outstanding(c), id);
      assert IsOrder(c, order);
    }
  }

  /** Every outstanding call has exported the session that Go holds. */
  ghost predicate Settled<M>(codec: Codec<M>, c: Cell<M>) {
    forall id | id in Outstanding(c) :: Matches(codec, c, c.blobs[id])
  }

  /** A step keeps that, if and only if it is not a change of the session under an outstanding call. */
  lemma SettledStep<M(!new)>(codec: Codec<M>, c: Cell<M>, e: Event<M>)
    requires RoundTrips(codec) && Settled(codec, c) && Possible(codec, c, e)
    ensures Settled(codec, Step(codec, c, e)) <==> !Overlaps(c, e)
  {
    hide RoundTrips, Marshalled, Unmarshalled;
    var next := Step(codec, c, e);
    match e
    case Exported(id) => SessionRoundTrip(codec, c.go);
    case Flushed(id) =>
      forall other | other in Outstanding(next) ensures Matches(codec, next, next.blobs[other]) {
        assert Matches(codec, c, c.blobs[other]);
      }
    case Changed(session) =>
      if Overlaps(c, e) {
        var id :| id in Outstanding(c);
        assert Matches(codec, c, c.blobs[id]);
        assert !Matches(codec, next, next.blobs[id]);
      } else if session == c.go {
        assert next == c;
      }
  }

  /** Go's session really changes while a call is outstanding: what a caller has to avoid. */
  predicate Overlaps<M(==)>(c: Cell<M>, e: Event<M>) {
    e.Changed? && e.session != c.go && Outstanding(c) != {}
  }

  ghost predicate NeverOverlaps<M>(codec: Codec<M>, c: Cell<M>, events: seq<Event<M>>)
    decreases |events|
  {
    events == [] || !Possible(codec, c, events[0]) ||
    (!Overlaps(c, events[0]) && NeverOverlaps(codec, Step(codec, c, events[0]), events[1..]))
  }

  ghost predicate AlwaysSettled<M>(codec: Codec<M>, c: Cell<M>, events: seq<Event<M>>)
    decreases |events|
  {
    Settled(codec, c) &&
    (events == [] || !Possible(codec, c, events[0]) || AlwaysSettled(codec, Step(codec, c, events[0]), events[1..]))
  }

  /** The caller's rule: at every moment of a trace all completion orders of what is then outstanding end in
      step, if and only if no call overlaps a change. */
  lemma {:induction false} CallersRule<M(!new)>(codec: Codec<M>, c: Cell<M>, events: seq<Event<M>>)
    requires RoundTrips(codec) && Settled(codec, c) && Trace(codec, c, events)
    ensures AlwaysSettled(codec, c, events) <==> NeverOverlaps(codec, c, events)
    ensures AlwaysSettled(codec, c, events) ==> Settled(codec, Final(codec, c, events))
    decreases |events|
  {
    hide RoundTrips, Settled, Step, Possible, Overlaps;
    if events != [] {
      SettledStep(codec, c, events[0]);
      var next := Step(codec, c, events[0]);
      if Settled(codec, next) {
        CallersRule(codec, next, events[1..]);
      }
    }
  }

  // ----- what goes wrong otherwise -----

  /** Two overlapping calls: the first exports before a change and flushes after the second. */
  lemma StaleFlushWins<M(!new)>(codec: Codec<M>, a: Session<M>, b: Session<M>) returns (events: seq<Event<M>>)
    requires RoundTrips(codec) && a != b && Marshalled(codec, a).Some? && Marshalled(codec, b).Some?
    ensures Trace(codec, Cell(a, map[], {}, None), events)
    ensures Final(codec, Cell(a, map[], {}, None), events).go == b
            && !InStep(codec, Final(codec, Cell(a, map[], {}, None), events))
  {
    hide RoundTrips, Marshalled, Unmarshalled;
    var c := Cell(a, map[], {}, None);
    events := [Exported(0), Changed(b), Exported(1), Flushed(1), Flushed(0)];
    var blobs := map[0 := Marshalled(codec, a).value];
    var late := blobs[1 := Marshalled(codec, b).value];
    Unfold(codec, c, events, Cell(a, blobs, {}, None));
    Unfold(codec, Cell(a, blobs, {}, None), events[1..], Cell(b, blobs, {}, None));
    Unfold(codec, Cell(b, blobs, {}, None), events[2..], Cell(b, late, {}, None));
    Unfold(codec, Cell(b, late, {}, None), events[3..], Cell(b, late, {1}, Some(late[1])));
    Unfold(codec, Cell(b, late, {1}, Some(late[1])), events[4..], Cell(b, late, {1, 0}, Some(late[0])));
    SessionRoundTrip(codec, a);
  }

  lemma Unfold<M>(codec: Codec<M>, c: Cell<M>, events: seq<Event<M>>, next: Cell<M>)
    requires events != [] && Possible(codec, c, events[0]) && Step(codec, c, events[0]) == next
    ensures Trace(codec, c, events) <==> Trace(codec, next, events[1..])
    ensures Trace(codec, c, events) ==> Final(codec, c, events) == Final(codec, next, events[1..])
  {
  }

  /** One call after an early break: the turn is still running and writes once more. */
  lemma TurnOutlivesBreak<M(!new)>(codec: Codec<M>, a: Session<M>, b: Session<M>) returns (events: seq<Event<M>>)
    requires RoundTrips(codec) && a != b && Marshalled(codec, a).Some?
    ensures Trace(codec, Cell(a, map[], {}, None), events)
    ensures Final(codec, Cell(a, map[], {}, None), events).go == b
            && !InStep(codec, Final(codec, Cell(a, map[], {}, None), events))
  {
    hide RoundTrips, Marshalled, Unmarshalled;
    var c := Cell(a, map[], {}, None);
    events := [Exported(0), Flushed(0), Changed(b)];
    var blobs := map[0 := Marshalled(codec, a).value];
    Unfold(codec, c, events, Cell(a, blobs, {}, None));
    Unfold(codec, Cell(a, blobs, {}, None), events[1..], Cell(a, blobs, {0}, Some(blobs[0])));
    Unfold(codec, Cell(a, blobs, {0}, Some(blobs[0])), events[2..], Cell(b, blobs, {0}, Some(blobs[0])));
    SessionRoundTrip(codec, a);
  }
}

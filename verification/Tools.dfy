/** registerP2PTools of examples/tools/p2p.js as objects: three maps whose entries share their inbox arrays with
    the socket handlers that fill them. */
module Tools {
  import opened Decimals
  import opened Inboxes
  import opened ToolMessages
  import opened Wrappers

  class Inbox {
    var messages: seq<Message>

    constructor ()
      ensures messages == []
    {
      messages := [];
    }
  }

  /** The objects stored under ids are the inboxes of the resources the ids name. */
  ghost predicate Stored(objects: map<string, Inbox>, ids: map<string, nat>, made: seq<Inbox>) {
    objects.Keys == ids.Keys && forall id | id in ids :: ids[id] < |made| && objects[id] == made[ids[id]]
  }

  lemma Removed(objects: map<string, Inbox>, ids: map<string, nat>, made: seq<Inbox>, id: string)
    requires Stored(objects, ids, made)
    ensures Stored(objects - {id}, ids - {id}, made)
    ensures if id in ids then ids[id] < |made| else ids - {id} == ids
  {
  }

  class Registry {
    var lastId: nat
    var swarms: map<string, Inbox>
    var servers: map<string, Inbox>
    var conns: map<string, Inbox>
    /** Every inbox ever made, in the order of their ids. */
    ghost var made: seq<Inbox>

    constructor ()
      ensures Is(Init()) && fresh(made)
    {
      lastId := 0;
      swarms, servers, conns := map[], map[], map[];
      made := [];
    }

    function MapOf(kind: Kind): map<string, Inbox>
      reads this
    {
      match kind
      case Swarm => swarms
      case Server => servers
      case Conn => conns
    }

    /** These objects are the world w: no two resources share an inbox, and an id finds its resource's own. */
    ghost predicate Is(w: World)
      reads this, made
    {
      && lastId == |w.resources| == |made|
      && (forall r | 0 <= r < |made| :: made[r].messages == w.resources[r].inbox)
      && (forall r, q | 0 <= r < q < |made| :: made[r] != made[q])
      && Stored(swarms, w.ids.swarms, made) && Stored(servers, w.ids.servers, made) && Stored(conns, w.ids.conns, made)
    }

    /** The first half of swarm_join, dht_serve or dht_connect: an id is taken and an inbox made. */
    method Begin(ghost w: World, kind: Kind) returns (id: string, inbox: Inbox)
      requires Is(w) && Inv(w)
      modifies this
      ensures Is(Do(w, Action.Begin(kind)))
      ensures id == Id(|w.resources|) == Decimal(old(lastId) + 1) && made == old(made) + [inbox] && fresh(inbox)
    {
      lastId := lastId + 1;
      id := Decimal(lastId);
      inbox := new Inbox();
      made := made + [inbox];
    }

    /** The second half, after its await: the entry is stored. */
    method Opened(ghost w: World, ghost r: nat, kind: Kind, id: string, inbox: Inbox)
      requires Is(w) && Inv(w) && Enabled(w, Action.Opened(r))
      requires kind == w.resources[r].kind && id == Id(r) && inbox == made[r]
      modifies this
      ensures Is(Do(w, Action.Opened(r))) && made == old(made)
    {
      match kind {
        case Swarm => swarms := swarms[id := inbox];
        case Server => servers := servers[id := inbox];
        case Conn => conns := conns[id := inbox];
      }
    }

    /** A data event: the handler holds the inbox itself, not its id. */
    method OnData(ghost w: World, ghost r: nat, inbox: Inbox, msg: Message)
      requires Is(w) && Inv(w) && r < |made| && inbox == made[r]
      modifies inbox
      ensures Is(Do(w, Arrive(r, msg)))
    {
      inbox.messages := inbox.messages + [msg];
    }

    /** The messages tool of each kind: the batch, or an error for an id that is not open. */
    method Messages(ghost w: World, kind: Kind, id: string) returns (batch: Option<seq<Message>>)
      requires Is(w) && Inv(w)
      modifies if id in MapOf(kind) then {MapOf(kind)[id]} else {}
      ensures Is(Do(w, Read(kind, id)))
      ensures batch.Some? <==> Lookup(w, kind, id).Some?
      ensures batch.Some? ==> batch.value == Batch(w, Read(kind, id), Lookup(w, kind, id).value)
    {
      if id !in MapOf(kind) {
        return None;
      }
      var inbox := MapOf(kind)[id];
      batch := Some(inbox.messages);
      inbox.messages := [];
    }

    /** The close tool of each kind, after its awaits. */
    method Close(ghost w: World, kind: Kind, id: string)
      requires Is(w) && Inv(w)
      modifies this
      ensures Is(Do(w, Delete(kind, id))) && made == old(made)
    {
      hide Stored, Inv;
      Removed(MapOf(kind), Entries(w.ids, kind), made, id);
      match kind {
        case Swarm => swarms := swarms - {id};
        case Server => servers := servers - {id};
        case Conn => conns := conns - {id};
      }
    }
  }
}

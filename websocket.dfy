/**
 * The WebSocket side of the API server (backend/api/services/websocket.ts):
 * the fan-out that sends one serialised event to every open connection, and
 * the per-connection message handler that records a channel subscription.
 */
module WebSocketHub {
  import opened Wrappers
  import opened Types

  /** The `readyState` values of a connection. */
  const Connecting: int := 0
  const Open: int := 1
  const Closing: int := 2
  const Closed: int := 3

  /** The events the server pushes; `now` stands for the `new Date()` they carry. */
  datatype Event =
    | ModelUpdated(trainedAt: int)
    | NewPrediction(prediction: MlPrediction)
    | DataUpdated(updatedAt: int)

  /** An incoming frame: text that is not JSON (or is `null`), or a parsed object. */
  datatype Inbound =
    | Unparseable
    | Parsed(msgType: Option<string>, channels: Option<seq<string>>)

  /** One connection: its state, its recorded subscriptions, and what was sent to it. */
  class Client {
    var readyState: int
    var subscriptions: Option<seq<string>>
    var outbox: seq<Event>

    constructor (readyState: int)
      ensures this.readyState == readyState && subscriptions == None && outbox == []
    {
      this.readyState := readyState;
      subscriptions := None;
      outbox := [];
    }

    /**
     * The `message` handler: a `subscribe` message replaces the subscriptions
     * with its channels, or with no channels when it lists none; any other
     * message, and any frame that fails to parse, changes nothing.
     */
    method OnMessage(msg: Inbound)
      modifies this`subscriptions
      ensures msg.Parsed? && msg.msgType == Some("subscribe") ==>
                subscriptions == Some(msg.channels.GetOr([]))
      ensures !(msg.Parsed? && msg.msgType == Some("subscribe")) ==> subscriptions == old(subscriptions)
    {
      if msg.Parsed? && msg.msgType == Some("subscribe") {
        subscriptions := Some(if msg.channels.Some? then msg.channels.value else []);
      }
    }
  }

  /** The server's set of connections. */
  class Hub {
    var clients: seq<Client>

    /** Each connection is listed once. */
    ghost predicate Valid()
      reads this
    {
      forall i, j :: 0 <= i < j < |clients| ==> clients[i] != clients[j]
    }

    ghost function Connections(): set<Client>
      reads this
    {
      set c | c in clients
    }

    constructor (clients: seq<Client>)
      requires forall i, j :: 0 <= i < j < |clients| ==> clients[i] != clients[j]
      ensures Valid() && this.clients == clients
    {
      this.clients := clients;
    }

    /**
     * `broadcastToClients`: appends the event to the outbox of every open
     * connection, in one pass over the set, and to no other outbox. No
     * connection's state or subscriptions change.
     */
    method Broadcast(e: Event)
      requires Valid()
      modifies Connections()
      ensures clients == old(clients)
      ensures forall i :: 0 <= i < |clients| ==>
                clients[i].outbox == old(clients[i].outbox) + Delivered(old(clients[i].readyState), e)
      ensures forall c :: c in clients ==> c.readyState == old(c.readyState)
      ensures forall c :: c in clients ==> c.subscriptions == old(c.subscriptions)
    {
      var i := 0;
      while i < |clients|
        invariant 0 <= i <= |clients|
        invariant forall k :: 0 <= k < i ==>
                    clients[k].outbox == old(clients[k].outbox) + Delivered(old(clients[k].readyState), e)
        invariant forall k :: i <= k < |clients| ==> clients[k].outbox == old(clients[k].outbox)
        invariant forall c :: c in clients ==> c.readyState == old(c.readyState)
        invariant forall c :: c in clients ==> c.subscriptions == old(c.subscriptions)
      {
        var client := clients[i];
        if client.readyState == Open {
          client.outbox := client.outbox + [e];
        }
        i := i + 1;
      }
    }
  }

  /** What one broadcast delivers to a connection in a given state. */
  function Delivered(readyState: int, e: Event): seq<Event>
  {
    if readyState == Open then [e] else []
  }
}

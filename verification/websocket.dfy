/**
 * Connection bookkeeping: the factory that gives each new connection a numeric id and a
 * handler, and the registry of live connections (id to handle) that the handlers share.
 */
module WebSocket {
  import opened Wrappers
  import opened Ws

  /** Rust's `u64`. */
  newtype u64 = x: int | 0 <= x < 0x1_0000_0000_0000_0000

  const MaxU64: u64 := 0xFFFF_FFFF_FFFF_FFFF

  /** Whether a connection was accepted from a client or made to a server. */
  datatype SocketType = Server | Client

  /** The name `Display` prints for a socket type. */
  function Display(t: SocketType): (name: string)
    ensures name == "Server" || name == "Client"
    ensures name == "Server" <==> t == Server
  {
    match t
    case Server => "Server"
    case Client => "Client"
  }

  /** Distinct socket types print distinct names. */
  lemma DisplayInjective(t: SocketType, u: SocketType)
    ensures Display(t) == Display(u) <==> t == u
  {
  }

  /** The live connections, id to handle, shared by the factory and all its handlers. */
  class SocketRegistry {
    var senders: map<u64, Handle>

    constructor ()
      ensures senders == map[]
    {
      senders := map[];
    }
  }

  /** The per-connection handler. */
  class SocketHandler {
    const id: u64
    const sender: Handle
    /** The request handler shared by all connections: request text to optional reply text. */
    const requestHandler: string -> Option<string>
    const connType: SocketType
    const registry: SocketRegistry

    constructor (id: u64, sender: Handle, requestHandler: string -> Option<string>, connType: SocketType, registry: SocketRegistry)
      ensures this.id == id && this.sender == sender && this.requestHandler == requestHandler
      ensures this.connType == connType && this.registry == registry
    {
      this.id := id;
      this.sender := sender;
      this.requestHandler := requestHandler;
      this.connType := connType;
      this.registry := registry;
    }

    /** Maps `id` to `sender` in the shared registry; every other entry is kept. */
    method AddSender(id: u64, sender: Handle)
      modifies registry
      ensures registry.senders == old(registry.senders)[id := sender]
      ensures forall k :: k != id ==> (k in registry.senders <==> k in old(registry.senders))
      ensures forall k :: k != id && k in registry.senders ==> registry.senders[k] == old(registry.senders)[k]
    {
      registry.senders := registry.senders[id := sender];
    }

    /** When the connection opens, it is registered under its own id. */
    method OnOpen()
      modifies registry
      ensures registry.senders == old(registry.senders)[id := sender]
    {
      AddSender(id, sender);
    }

    /**
     * A message is passed, as text (a binary frame decoded through `utf8`), to the request
     * handler; a reply, if there is one, is sent back through this connection's own handle
     * as a text frame.
     */
    method OnMessage(m: Message, utf8: Utf8Decoder) returns (reply: Option<Delivery>)
      ensures reply.Some? <==> requestHandler(TextOrEmpty(m, utf8)).Some?
      ensures reply.Some? ==> reply.value.to == sender
      ensures reply.Some? ==> reply.value.message == Text(requestHandler(TextOrEmpty(m, utf8)).value)
    {
      var r := requestHandler(TextOrEmpty(m, utf8));
      if r.Some? {
        reply := Some(Delivery(sender, Text(r.value)));
      } else {
        reply := None;
      }
    }

    /** When the connection closes, exactly its own id is removed from the registry. */
    method OnClose()
      modifies registry
      ensures registry.senders == old(registry.senders) - {id}
      ensures id !in registry.senders
      ensures forall k :: k != id && k in old(registry.senders) ==>
        k in registry.senders && registry.senders[k] == old(registry.senders)[k]
    {
      registry.senders := registry.senders - {id};
    }
  }

  /** Makes one handler per new connection, numbering connections 1, 2, 3, ... */
  class SocketFactory {
    const requestHandler: string -> Option<string>
    const registry: SocketRegistry
    var counter: u64
    /** The ids handed out so far. */
    ghost var issued: set<u64>

    /** The ids handed out are exactly 1 to `counter`. */
    ghost predicate Valid()
      reads this
    {
      forall i: u64 :: i in issued <==> 1 <= i <= counter
    }

    /** The factory the server builds: counter at zero and an empty, fresh connection registry. */
    constructor Build(requestHandler: string -> Option<string>)
      ensures Valid() && issued == {}
      ensures counter == 0 && fresh(registry) && registry.senders == map[]
      ensures this.requestHandler == requestHandler
    {
      this.requestHandler := requestHandler;
      registry := new SocketRegistry();
      counter := 0;
      issued := {};
    }

    /**
     * Increments the counter and makes a handler whose id is the new counter value: an id
     * never handed out before, larger than every earlier one. The handler shares this
     * factory's registry and request handler.
     */
    method NewHandler(s: Handle, t: SocketType) returns (h: SocketHandler)
      requires Valid()
      requires counter < MaxU64
      modifies this
      ensures Valid()
      ensures counter == old(counter) + 1 && h.id == counter
      ensures h.id !in old(issued) && issued == old(issued) + {h.id}
      ensures forall i :: i in old(issued) ==> i < h.id
      ensures fresh(h) && h.sender == s && h.connType == t
      ensures h.registry == registry && h.requestHandler == requestHandler
    {
      counter := counter + 1;
      issued := issued + {counter};
      h := new SocketHandler(counter, s, requestHandler, t, registry);
    }

    /** An accepted client connection gets a `Client` handler. */
    method ConnectionMade(s: Handle) returns (h: SocketHandler)
      requires Valid()
      requires counter < MaxU64
      modifies this
      ensures Valid()
      ensures counter == old(counter) + 1 && h.id == counter
      ensures h.id !in old(issued) && issued == old(issued) + {h.id}
      ensures fresh(h) && h.sender == s && h.connType == Client
      ensures h.registry == registry && h.requestHandler == requestHandler
    {
      h := NewHandler(s, Client);
    }

    /** A connection made to a server gets a `Server` handler. */
    method ServerConnected(s: Handle) returns (h: SocketHandler)
      requires Valid()
      requires counter < MaxU64
      modifies this
      ensures Valid()
      ensures counter == old(counter) + 1 && h.id == counter
      ensures h.id !in old(issued) && issued == old(issued) + {h.id}
      ensures fresh(h) && h.sender == s && h.connType == Server
      ensures h.registry == registry && h.requestHandler == requestHandler
    {
      h := NewHandler(s, Server);
    }
  }
}

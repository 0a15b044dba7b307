# unicorn core, modelled in Dafny

unicorn is a publish/subscribe message router that runs over WebSockets. Clients send
JSON requests on their connection. A topic API decodes each request and turns it into a
router command, or into an error response. The command goes down a channel to a single
consumer, which owns the topic registry. The registry maps topic ids to topics, and each
topic maps subscriber ids to connection handles. A send or broadcast on a topic fans the
message out through those handles.

The project models six parts of that core, one Dafny module each:

- `Router` (`router.dfy`) models the commands, the `Topic` and `Registry` classes, and the
  consumer loop that applies commands in order. Registry methods are proved against the value
  functions `Apply` and `Deliveries`, and the lemmas about those functions state what each
  command does.
- `ApiTopic` (`api_topic.dfy`) models the topic handler. `Decide` says which command a request
  yields and how the call ends. `TopicApi.Execute` is the imperative handler, proved to transmit
  on the shared channel exactly what `Decide` says.
- `WebSocket` (`websocket.dfy`) models the connection factory, which numbers connections, the
  per-connection handler, and the shared connection registry.
- `MessageSchema`, `ConfigSchema` and `Account` model the request and response envelopes, the
  service configuration with its defaults and `ip:port` address, and the account storage key.
- `Ws` and `Wrappers` hold the two `ws` crate types the core passes around (`Sender` is modelled
  as `Handle`, plus `Message`), the `Delivery` record of one send through a handle, and an
  `Option` type.

Sending through a handle is I/O. A send or broadcast therefore returns the multiset of its
`Delivery` attempts, one per subscriber reached, so a handle held by two subscriber ids is
sent to twice. A multiset is used because the source iterates over a
hash map in no fixed order. Each attempt's success is not observed, just as the source ignores it.

Two behaviours of the code that a reader might not expect. The model follows the code in both.

- `create_topic` inserts a fresh `Topic` with `HashMap::insert`. Creating a topic that already
  exists therefore replaces it and drops its subscribers (`Router.RecreateDropsSubscribers`).
  Under create-if-absent, which `subscribe` follows through `entry().or_insert`, re-creating a
  topic would keep its subscribers.
- The server registers its publish and unsubscribe handlers with the type names "publish" and
  "unsubscribe" (`src/kernel.rs:36-37`). `set_type` does not recognise either name, so both
  handlers have no action: they answer nothing and transmit nothing
  (`ApiTopic.PublishAndUnsubscribeAreSilent`).

## Model

| member | source | states |
|---|---|---|
| Ws.TextOrEmpty | src/api/topic.rs:58 | `as_text().unwrap_or("")` gives the text of a text frame; a binary frame gives the text its bytes decode to as UTF-8, or the empty string when they are not valid UTF-8; also at src/api/topic.rs:66, :77 and src/network/websocket.rs:52 |
| Router.FanOutRemove | src/router.rs:43-55 | the set of sends to a group of subscribers does not depend on which subscriber the hash-map iteration visits first |
| Router.FanOutStep | src/router.rs:43-49 | one loop step: sending to one pending subscriber moves exactly its delivery from the pending part to the sent part |
| Router.FanOutCount | src/router.rs:43-55 | a handle receives the message once for each subscriber id in the group that holds it, and no other message is sent |
| Router.HoldersRemove | src/router.rs:43-55 | taking one id out of the group removes it from the holders of its own handle and changes no other handle's holders |
| Router.FanOutSize | src/router.rs:43-55 | a fan-out makes exactly one send per subscriber id in the group |
| Router.ApplyTopicIds | src/router.rs:67-102 | only create and subscribe add a topic id (their own), and no command removes one |
| Router.TopicIdsOnlyGrow | src/kernel.rs:22-29 | along any sequence of commands applied by the consumer loop, the set of topic ids never shrinks |
| Router.CreateTopicEffect | src/router.rs:67-69 | after create the topic exists with no subscribers; every other topic keeps its presence and its subscribers |
| Router.RecreateDropsSubscribers | src/router.rs:67-69 | creating a topic that has a subscriber removes that subscriber, because insert replaces the whole topic |
| Router.SubscribeEffect | src/router.rs:71-74 | subscribe maps the subscriber to its handle, keeps the topic's other subscribers (an absent topic starts empty) and leaves every other topic alone |
| Router.ResubscribeReplaces | src/router.rs:31-33 | a second subscribe with the same topic and subscriber ids has the same effect as the second one alone, so the later handle replaces the earlier one |
| Router.UnsubscribeEffect | src/router.rs:76-80 | unsubscribe removes only that subscriber from an existing topic, keeps every topic id, and changes nothing when the id is not subscribed |
| Router.UnknownTopicIsIgnored | src/router.rs:76-92 | unsubscribe, send and broadcast on an absent topic change nothing and send nothing |
| Router.CommandKinds | src/router.rs:94-102 | send and broadcast never change the registry; create, subscribe and unsubscribe never send |
| Router.SendSkipsSender | src/router.rs:43-49 | a send reaches every subscriber except the sender, exactly once per such subscriber, carries only the given message, and misses the sender's handle unless another id shares it |
| Router.BroadcastReachesAll | src/router.rs:51-55 | a broadcast sends the message exactly once per subscriber, reaches every subscriber's handle, and carries only that message |
| Router.TwoSubscriberSend | src/router.rs:43-49 | with subscribers A and B on one topic, a send from A goes to B's handle once and never to A's |
| Router.Topic.constructor | src/router.rs:20-25 | a new topic has the given id and no subscribers |
| Router.Topic.Id | src/router.rs:27-29 | the id accessor gives the id the topic was made with |
| Router.Topic.AddSubscriber | src/router.rs:31-33 | the subscriber id maps to the new handle, replacing any earlier one, and no other subscriber changes |
| Router.Topic.RemoveSubscriber | src/router.rs:35-37 | exactly that id is removed; removing an id that is not subscribed changes nothing |
| Router.Topic.GetSubscriber | src/router.rs:39-41 | the result is present iff the id is subscribed, and it is then that subscriber's handle |
| Router.Topic.Send | src/router.rs:43-49 | the loop over all subscribers, skipping the sender, makes exactly the fan-out to every subscriber but the sender |
| Router.Topic.Broadcast | src/router.rs:51-55 | the loop over all subscribers makes exactly the fan-out to every subscriber |
| Router.Registry.constructor | src/router.rs:63-65 | a new registry holds no topics |
| Router.Registry.CreateTopic | src/router.rs:67-69 | the registry's new contents are `Apply` of create on the old contents, stored in a fresh topic object, with the registry invariant kept |
| Router.Registry.Entry | src/router.rs:72 | the `entry(..).or_insert(..)` lookup returns the topic stored under the id, first storing a new empty one only if the id is absent |
| Router.Registry.Subscribe | src/router.rs:71-74 | the registry's new contents are `Apply` of subscribe on the old contents, and the invariant is kept |
| Router.Registry.Unsubscribe | src/router.rs:76-80 | the registry's new contents are `Apply` of unsubscribe on the old contents; no topic object is added or removed |
| Router.Registry.Send | src/router.rs:82-86 | the sends made are `Deliveries` of the send command: the topic's fan-out without the sender, or nothing for an absent topic |
| Router.Registry.Broadcast | src/router.rs:88-92 | the sends made are `Deliveries` of the broadcast command: the topic's full fan-out, or nothing for an absent topic |
| Router.Registry.ParseCommand | src/router.rs:94-102 | each command goes to the operation of the same name: new contents are `Apply`, sends are `Deliveries` of the old contents |
| Router.Registry.ApplyCommands | src/kernel.rs:22-29 | the consumer loop applying received commands in order leaves `ApplyAll` of them and makes `DeliveriesAll` of them |
| ApiTopic.Decide | src/api/topic.rs:55-89 | no action means no command and no response; an error response means nothing transmitted and is `InvalidPayload` under the action's event; a panic transmits nothing; a transmitted command has the handler's action kind, a send carries a text frame, and a subscribe carries the caller's own connection |
| ApiTopic.CommandChannel.constructor | src/kernel.rs:20-33 | the channel made at kernel.rs:20 and wrapped for the handlers at kernel.rs:33 starts with nothing sent; its `accepting` argument says whether locking and sending succeed |
| ApiTopic.TopicApi.Transmit | src/api/topic.rs:47-51 | the command is appended to the channel when the lock and the send succeed, and dropped silently otherwise |
| ApiTopic.TopicApi.Execute | src/api/topic.rs:55-89 | on the frame read as text (a binary frame through its UTF-8 decoding), the handler ends as `Decide` says and appends to the channel exactly the command `Decide` chooses, if any, when the channel accepts it |
| ApiTopic.WithTx | src/api/topic.rs:30-35 | a handler on the given channel with no action type |
| ApiTopic.SetType | src/api/topic.rs:37-45 | the action is create, send or subscribe iff the name is "create", "send" or "subscribe" respectively; any other name gives no action; the channel is kept |
| ApiTopic.PublishAndUnsubscribeAreSilent | src/kernel.rs:36-37 | handlers typed "publish" or "unsubscribe" transmit nothing and answer nothing for any request |
| ApiTopic.CreateTransmits | src/api/topic.rs:57-60 | a create request that decodes with a payload transmits `CreateTopic` of its topic id and answers nothing |
| ApiTopic.SendTransmits | src/api/topic.rs:65-71 | a send request that decodes with a payload transmits `Send` of its topic id and sender id, with the message as a text frame |
| ApiTopic.SubscribeTransmits | src/api/topic.rs:76-82 | a subscribe request that decodes with a payload transmits `Subscribe` of its ids, bound to the requesting connection |
| ApiTopic.DecodeFailureAnswersInvalidPayload | src/api/topic.rs:61-85 | a request that does not decode transmits nothing and answers `InvalidPayload`: under "unicorn.topic.create" for create, and under "unicorn.topic.send" for both send and subscribe |
| ApiTopic.MissingPayloadPanics | src/api/topic.rs:58-78 | a request that decodes without a payload panics at the unwrap, before anything is transmitted |
| WebSocket.Display | src/network/websocket.rs:19-27 | a socket type prints as "Server" or "Client", and as "Server" exactly for the server type |
| WebSocket.DisplayInjective | src/network/websocket.rs:19-27 | two socket types print the same name iff they are the same type |
| WebSocket.SocketRegistry.constructor | src/network/websocket.rs:135 | the connection registry starts empty |
| WebSocket.SocketHandler.constructor | src/network/websocket.rs:76-82 | a handler keeps the id, handle, request handler, type and shared registry it is built with |
| WebSocket.SocketHandler.AddSender | src/network/websocket.rs:39-42 | the shared registry maps the id to the handle, and every other entry is kept |
| WebSocket.SocketHandler.OnOpen | src/network/websocket.rs:46-49 | an opened connection is registered under its own id with its own handle |
| WebSocket.SocketHandler.OnMessage | src/network/websocket.rs:51-56 | a reply is sent iff the request handler answers the frame's text (for a binary frame, its UTF-8 decoding, or empty when the bytes are not valid UTF-8); the reply goes through this connection's own handle and is that answer as a text frame |
| WebSocket.SocketHandler.OnClose | src/network/websocket.rs:58-63 | a closed connection's id is removed from the shared registry and every other entry is kept |
| WebSocket.SocketFactory.Build | src/network/websocket.rs:132-137 | the factory starts with counter zero, no ids issued and a fresh, empty connection registry |
| WebSocket.SocketFactory.NewHandler | src/network/websocket.rs:74-83 | the counter goes up by one; the new handler's id is the new counter, never issued before and larger than every earlier id; the handler shares the factory's registry and request handler |
| WebSocket.SocketFactory.ConnectionMade | src/network/websocket.rs:89-91 | an accepted connection gets a new `Client` handler whose id is the next, never-issued counter value and which shares the factory's registry and request handler |
| WebSocket.SocketFactory.ServerConnected | src/network/websocket.rs:93-95 | a connection to a server gets a new `Server` handler whose id is the next, never-issued counter value and which shares the factory's registry and request handler |
| MessageSchema.Error | src/schema/message_schema.rs:30-36 | the error response has the given event and error, no payload, and is well shaped |
| MessageSchema.Success | src/schema/message_schema.rs:38-44 | the success response has the given event and payload, no error, and is well shaped |
| MessageSchema.ErrorIsNotSuccess | src/schema/message_schema.rs:29-44 | no error response equals any success response |
| MessageSchema.WellShapedIsConstructed | src/schema/message_schema.rs:22-44 | a response has exactly one of payload and error iff it is what one of the two constructors builds |
| ConfigSchema.NewConfig | src/schema/config_schema.rs:13-15 | a new configuration has no services |
| ConfigSchema.NewService | src/schema/config_schema.rs:32-37 | a new service keeps the ip and port it is given |
| ConfigSchema.DecodeService | src/schema/config_schema.rs:21-28 | a missing ip becomes "127.0.0.1" and a missing port becomes 60000; present fields are kept |
| ConfigSchema.DigitChar | src/schema/config_schema.rs:39-41 | the digit character of a value below ten is a decimal digit with that value |
| ConfigSchema.NatDigits | src/schema/config_schema.rs:39-41 | the decimal rendering of a natural number is non-empty, all digits, and has no leading zero |
| ConfigSchema.NatDigitsValue | src/schema/config_schema.rs:39-41 | reading the rendered digits back gives the number |
| ConfigSchema.DecimalRoundTrip | src/schema/config_schema.rs:39-41 | reading back the decimal rendering of any integer, negative ones included, gives that integer |
| ConfigSchema.Decimal | src/schema/config_schema.rs:40 | the rendering of an integer starts with a minus sign exactly when it is negative, and the rest is non-empty decimal digits with no leading zero |
| ConfigSchema.Address | src/schema/config_schema.rs:39-41 | the address is the ip verbatim, a colon, then exactly the decimal rendering of the port, which reads back as the port |
| ConfigSchema.DefaultIp | src/schema/config_schema.rs:44-46 | the default ip is "127.0.0.1" |
| ConfigSchema.DefaultPort | src/schema/config_schema.rs:48-50 | the default port is 60000, a valid TCP port number |
| ConfigSchema.DefaultPortDecimal | src/schema/config_schema.rs:48-50 | the default port renders as "60000" |
| ConfigSchema.DefaultAddress | src/schema/config_schema.rs:23-50 | a service configured with neither field listens on "127.0.0.1:60000" |
| Account.GetKey | src/schema/account.rs:13-15 | the key is the 8-character prefix "account:" followed by the id |
| Account.KeyId | src/schema/account.rs:13-15 | an id is recovered iff the key starts with the account prefix |
| Account.KeyRoundTrip | src/schema/account.rs:13-15 | recovering the id from an account's key gives back its id |
| Account.GetKeyInjective | src/schema/account.rs:13-15 | two accounts have the same key iff they have the same id |
| Account.GetKeyIgnoresPassword | src/schema/account.rs:13-15 | the key does not depend on the password |

## Left out

- JSON decoding with `serde_json::from_str` is not modelled. `ApiTopic.Decoders` passes in the decoder of each request shape, and `None` stands for a decoding error.
- A panic is modelled as the `Panicked` outcome. The three `unwrap` panics in `execute` happen before `transmit` takes the channel's lock, so they leave the channel untouched. The unwinding out of the `ws` event loop that follows is not modelled.
- Threads, `Arc<Mutex<..>>` and the mpsc channel are modelled as one `CommandChannel` object, which every copy of a `TopicApi` shares by reference. Its `accepting` flag stands for the lock or the send failing. Blocking and interleaving are not modelled.
- `Router.Registry.ApplyCommands` runs the consumer loop in `src/kernel.rs` over a finite sequence of received commands. The endless loop that logs a receive error is not modelled.
- Sending through a `ws::Sender` is recorded as a `Delivery`; whether it succeeds is not modelled, since the source ignores the result. In `on_message`, a failed reply send ends the handler early with the error (`try!`). That error path is not modelled.
- UTF-8 decoding of a binary frame's bytes is not modelled. `Ws.Utf8Decoder` passes it in, and `None` stands for invalid UTF-8.
- `Rc`, `RefCell` and `Rc<IoHandler>` sharing are modelled as object references. The JSON-RPC `IoHandler` is a parameter, a function from request text to an optional reply.
- WebSocket.SocketFactory.NewHandler, WebSocket.SocketFactory.ConnectionMade, WebSocket.SocketFactory.ServerConnected: each requires the counter to be below the `u64` maximum, so the overflow (a panic in debug builds, a wrap to zero in release builds) is not modelled.
- `WebSocket::new`, `add_method`, `add_async_method` and `listen` in `src/network/websocket.rs` are not modelled; they only wire the `ws` and `jsonrpc_core` crates together.
- The log lines in `add_sender` and `on_close` are not modelled.
- `MessageRequest` and `MessageRequestBinary` are not modelled, because nothing in the core uses them.
- `src/unicorn.rs`, `src/config.rs`, `src/lib.rs`, `src/logger/cli.rs`, `src/kernel/server.rs`, `src/api/register.rs` and `build.rs` are not part of this model.

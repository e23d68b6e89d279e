# Websocket presence registry and relay, modelled in Dafny

A Spring websocket endpoint (`/imserver/{userId}`) keeps a process-wide map from user
id to the endpoint serving that user, plus an online counter. It reacts to four container
events. On open, it counts the user if new, registers the endpoint and sends a greeting.
On close, it removes the closing endpoint's user id. On message, it parses a JSON payload
and forwards it to the endpoint registered under its `toUserId`. On error, it logs.

The model is sequential. Each handler runs as one atomic step.

- `Registry` (registry.dfy): the map and counter as a value (`State`). It defines the
  update `Open` (the registry part of onOpen), the update `Close` (onClose), the invariant
  `Consistent` (counter equals the number of keys, and every entry sits under its own
  user id), and `Replay` over any sequence of open and close events.
- `Dispatch` (dispatch.dfy): the routing decision of onMessage as a function `Route`
  over the registered endpoints, the payload (possibly null) and the JSON library
  (`Codec`: parse and serialise, abstract).
- `Server` (server.dfy): class `WebsocketServer`. Its fields are the static fields
  `websocketMap` and `onlineCount`, the log of texts handed to sessions (`outbox`) and
  the log of reported errors (`reports`). Its handler methods update those fields in
  place. Each method's contract ties the new state to `Open`, `Close` or `Route`, and
  states exactly what is sent and what is reported. Scenario methods at the end exercise
  the contracts (greeting, relay, unreachable recipient, double close, superseded close).
- `Wrappers` (wrappers.dfy): `Option`.

Modelling choices:
- An endpoint instance is the value `Connection(userId, session)`. Its two fields are
  assigned once, at WebsocketServer.java:44-45, and never change afterwards. `OnOpen`
  returns it. `OnClose` receives it and uses only its `userId`, as the source does.
- The transport's answer to `sendText` is a boolean parameter `delivered`. It decides
  only whether an error is reported, never the registry state.
- Behaviours of the code worth stating:
  - The forwarded text is the re-serialised parsed object (`codec.render(env)`), not the
    raw payload.
  - Only null or zero-length payloads are dropped. A blank payload goes on to parsing.
  - A message whose `toUserId` is missing or empty is reported as "not on this server".
    It is not dropped silently.
- A payload that does not parse makes the code throw out of `onMessage`. The model
  reports it instead (`ParseFailed`, outcome `Malformed`) and leaves all other state as
  it was; see "## Left out".
- `Dispatch.IsEmpty` (`StringUtils.isEmpty`, WebsocketServer.java:70 and :77) and
  `Registry.Lookup` (`websocketMap.containsKey` and `get`) are vocabulary for the
  contracts. They carry no contract of their own, so they have no row below.

## Model

| member | source | states |
|---|---|---|
| `Registry.Open` | src/main/java/com/cc/study/springbootwebsocket/websocket/WebsocketServer.java:47-50 | after open, lookup of the user returns the new endpoint and every other user's lookup is unchanged; a new user raises the counter by one, a reconnect keeps counter and key set; the count invariant is preserved |
| `Registry.Close` | src/main/java/com/cc/study/springbootwebsocket/websocket/WebsocketServer.java:62-65 | after close the user is absent and every other user's lookup is unchanged; a present user lowers the counter by one, an absent one leaves the state identical; the count invariant is preserved |
| `Registry.Replay` | src/main/java/com/cc/study/springbootwebsocket/websocket/WebsocketServer.java:43-66 | after any sequence of open and close events from a consistent state, the counter equals the number of registered users |
| `Registry.ReplayLeavesOtherUsers` | src/main/java/com/cc/study/springbootwebsocket/websocket/WebsocketServer.java:47-65 | events keyed by other user ids never change a user's entry |
| `Registry.ReplayLatestOpenWins` | src/main/java/com/cc/study/springbootwebsocket/websocket/WebsocketServer.java:50 | after a user's last open, with no later event for that user, lookup returns exactly the endpoint of that open |
| `Registry.CloseIdempotent` | src/main/java/com/cc/study/springbootwebsocket/websocket/WebsocketServer.java:62-65 | closing the same user twice equals closing once |
| `Registry.SupersededCloseUnregistersNewer` | src/main/java/com/cc/study/springbootwebsocket/websocket/WebsocketServer.java:44-63 | when a superseded endpoint closes, the newer endpoint of the same user is unregistered and the count drops as for a plain close |
| `Dispatch.Route` | src/main/java/com/cc/study/springbootwebsocket/websocket/WebsocketServer.java:70-86 | a message is dropped iff it is null or zero-length; it is malformed iff it does not parse; it is forwarded only to the session registered under its non-empty toUserId, carrying the re-serialised envelope; otherwise it is unreachable and names its toUserId |
| `Dispatch.ForwardCarriesEnvelope` | src/main/java/com/cc/study/springbootwebsocket/websocket/WebsocketServer.java:74-79 | if the JSON library reads back what it writes, the recipient parses the forwarded text to the sender's envelope |
| `Dispatch.BlankPayloadIsNotDropped` | src/main/java/com/cc/study/springbootwebsocket/websocket/WebsocketServer.java:70-72 | every non-empty payload made only of blanks, tabs and line breaks is not dropped by the emptiness check |
| `Server.WebsocketServer.constructor` | src/main/java/com/cc/study/springbootwebsocket/websocket/WebsocketServer.java:27-31 | the registry starts empty with counter zero, consistent, and nothing sent or reported |
| `Server.WebsocketServer.OnOpen` | src/main/java/com/cc/study/springbootwebsocket/websocket/WebsocketServer.java:43-58 | the registry becomes `Open` of the old one; exactly one greeting is sent on the new session; a failed greeting adds one report and leaves the registration; the invariant holds |
| `Server.WebsocketServer.OnClose` | src/main/java/com/cc/study/springbootwebsocket/websocket/WebsocketServer.java:61-66 | the registry becomes `Close` of the old one, keyed by the closing endpoint's user id; nothing else changes; the invariant holds |
| `Server.WebsocketServer.OnMessage` | src/main/java/com/cc/study/springbootwebsocket/websocket/WebsocketServer.java:69-87 | the registry is untouched; a forward sends exactly one text to the target and reports only a failed send; dropped sends and reports nothing; malformed and unreachable send nothing and report one error each |
| `Server.WebsocketServer.OnError` | src/main/java/com/cc/study/springbootwebsocket/websocket/WebsocketServer.java:90-92 | one report is added; registry and outbox are untouched |
| `Server.WebsocketServer.AddOnlineCount` | src/main/java/com/cc/study/springbootwebsocket/websocket/WebsocketServer.java:94-96 | the counter goes up by one and nothing else changes |
| `Server.WebsocketServer.SubOnlineCount` | src/main/java/com/cc/study/springbootwebsocket/websocket/WebsocketServer.java:102-104 | the counter goes down by one and nothing else changes |
| `Server.WebsocketServer.GetOnlineCount` | src/main/java/com/cc/study/springbootwebsocket/websocket/WebsocketServer.java:106-108 | the value returned is the number of registered users, never negative |
| `Server.WebsocketServer.SendMsg` | src/main/java/com/cc/study/springbootwebsocket/websocket/WebsocketServer.java:98-100 | exactly one text is appended to the outbox for the endpoint's session; success is the transport's answer |

## Left out

- Concurrency: `ConcurrentHashMap`, `volatile` and the `synchronized` counter methods are not modelled. Handlers are atomic steps. The check-then-put at WebsocketServer.java:47-50 is not atomic in the source, so two concurrent opens of the same new user could both count it. A sequential model cannot express that race. Also, `addOnlineCount` and `subOnlineCount` (lines 94 and 102) are `synchronized` instance methods. Each endpoint locks only its own monitor, so updates to the static `online_count` from different connections do not exclude each other, and an update can be lost even for two distinct users.
- The JSON library (fastjson `parseObject`, `getString`, `toJSONString`) is an abstract `Codec`. A throw from parsing and a null object (which fails at line 75) are both modelled as a parse failure.
- The transport (`Session`, `getBasicRemote().sendText`) is an opaque session id plus a boolean answer per send.
- Logging is recorded only as which error was reported. The informational log at line 52 is not modelled. The text of each error message and the stack traces are not modelled either.
- The hand-off to an external store mentioned in the comment at line 84 is not implemented in the source, and is not modelled.
- Server.WebsocketServer.OnMessage: when parsing fails, the code lets an exception escape `onMessage` (line 74 throws, or line 75 throws a NullPointerException on a null object). The model records this as a `ParseFailed` report instead, and leaves the sender and the registry untouched. What the container then does with the exception is not modelled; it may pass it to `@OnError` and may close the session.
- Server.WebsocketServer.AddOnlineCount: the Java `int` counter is unbounded here; 32-bit wrap-around is not modelled, since the counter equals the number of registered users.
- Endpoint identity: an endpoint is its (user id, session) value, so the model does not distinguish two endpoint objects that share both.
- The Spring configuration class (WebsocketConfig.java) only wires the endpoint into the container and has no logic.

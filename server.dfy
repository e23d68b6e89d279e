/**
 * The websocket endpoint: the shared registry state the endpoint class keeps
 * in static fields, the four event handlers the container calls, and what the
 * handlers send and report.
 */
module Server {
  import opened Wrappers
  import opened Registry
  import opened Dispatch

  /** The greeting sent on every newly opened connection ("connection succeeded"). */
  const Greeting: string := "连接成功"

  /** One call of sendText: the session written to and the text written. */
  datatype Outbound = Outbound(session: Session, text: string)

  /** What the handlers report to the log. */
  datatype Report =
    | GreetingFailed(userId: string)           // the greeting could not be sent
    | ParseFailed                              // the payload is not a JSON object
    | SendFailed(toUserId: string)             // forwarding to a registered user failed
    | NotOnThisServer(wanted: Option<string>)  // no endpoint here for the recipient
    | Raised(cause: string)                    // the container reported an error

  class WebsocketServer {
    /** The JSON library the endpoint parses and serialises with. */
    const codec: Codec
    /** websocketMap: the endpoint registered for each user id. */
    var websocketMap: map<string, Connection>
    /** online_count: how many users are online. */
    var onlineCount: int
    /** Every text handed to a session for sending, in order. */
    var outbox: seq<Outbound>
    /** Every error the handlers logged, in order. */
    var reports: seq<Report>

    /** The registry part of the state, as a value. */
    function Current(): State
      reads this
    {
      State(websocketMap, onlineCount)
    }

    ghost predicate Valid()
      reads this
    {
      Consistent(Current())
    }

    constructor (codec: Codec)
      ensures Valid()
      ensures this.codec == codec
      ensures Current() == Empty && outbox == [] && reports == []
    {
      this.codec := codec;
      websocketMap := map[];
      onlineCount := 0;
      outbox := [];
      reports := [];
    }

    /**
     * A connection for userId has opened on session. It is counted if the
     * user was not online, registered (replacing any earlier endpoint of the
     * same user), and greeted. `delivered` is the transport's answer to the
     * greeting; a failed greeting is reported and leaves the registration as
     * it is.
     */
    method OnOpen(session: Session, userId: string, delivered: bool) returns (c: Connection)
      requires Valid()
      modifies this
      ensures Valid()
      ensures c == Connection(userId, session)
      ensures Current() == Open(old(Current()), c)
      ensures outbox == old(outbox) + [Outbound(session, Greeting)]
      ensures reports == old(reports) + (if delivered then [] else [GreetingFailed(userId)])
    {
      c := Connection(userId, session);
      if userId !in websocketMap {
        AddOnlineCount();
      }
      websocketMap := websocketMap[userId := c];
      var sent := SendMsg(c, Greeting, delivered);
      if !sent {
        reports := reports + [GreetingFailed(userId)];
      }
    }

    /**
     * The connection served by c has closed. Whatever endpoint is registered
     * under c's user id is removed and counted down; nothing happens if that
     * user id is not registered.
     */
    method OnClose(c: Connection)
      requires Valid()
      modifies this`websocketMap, this`onlineCount
      ensures Valid()
      ensures Current() == Close(old(Current()), c.userId)
    {
      if c.userId in websocketMap {
        websocketMap := websocketMap - {c.userId};
        SubOnlineCount();
      }
    }

    /**
     * A text message has arrived. `delivered` is the transport's answer if the
     * message is forwarded. The registry never changes; at most one text is
     * sent and at most one error reported.
     */
    method OnMessage(message: Option<string>, delivered: bool) returns (d: Outcome)
      requires Valid()
      modifies this`outbox, this`reports
      ensures Valid()
      ensures d == Route(websocketMap, message, codec)
      ensures d.Forward? ==>
                && outbox == old(outbox) + [Outbound(d.target, d.text)]
                && reports == old(reports) + (if delivered then [] else [SendFailed(d.toUserId)])
      ensures !d.Forward? ==> outbox == old(outbox)
      ensures d.Dropped? ==> reports == old(reports)
      ensures d.Malformed? ==> reports == old(reports) + [ParseFailed]
      ensures d.Unreachable? ==> reports == old(reports) + [NotOnThisServer(d.wanted)]
    {
      if IsEmpty(message) {
        return Dropped;
      }
      var parsed := codec.parse(message.value);
      if parsed.None? {
        reports := reports + [ParseFailed];
        return Malformed;
      }
      var toUserId := parsed.value.toUserId;
      if !IsEmpty(toUserId) && toUserId.value in websocketMap {
        var target := websocketMap[toUserId.value];
        var text := codec.render(parsed.value);
        var sent := SendMsg(target, text, delivered);
        if !sent {
          reports := reports + [SendFailed(toUserId.value)];
        }
        d := Forward(toUserId.value, target.session, text);
      } else {
        reports := reports + [NotOnThisServer(toUserId)];
        d := Unreachable(toUserId);
      }
    }

    /** The container reports an error on a connection: it is logged, nothing else. */
    method OnError(cause: string)
      requires Valid()
      modifies this`reports
      ensures Valid()
      ensures reports == old(reports) + [Raised(cause)]
    {
      reports := reports + [Raised(cause)];
    }

    method AddOnlineCount()
      modifies this`onlineCount
      ensures onlineCount == old(onlineCount) + 1
    {
      onlineCount := onlineCount + 1;
    }

    method SubOnlineCount()
      modifies this`onlineCount
      ensures onlineCount == old(onlineCount) - 1
    {
      onlineCount := onlineCount - 1;
    }

    /** The online counter, which always equals the number of registered users. */
    method GetOnlineCount() returns (n: int)
      requires Valid()
      ensures n == |websocketMap| && n >= 0
    {
      n := onlineCount;
    }

    /**
     * Hand text to the session of endpoint c. `delivered` is the transport's
     * answer; a failure is returned to the caller and changes nothing else.
     */
    method SendMsg(c: Connection, text: string, delivered: bool) returns (ok: bool)
      modifies this`outbox
      ensures outbox == old(outbox) + [Outbound(c.session, text)]
      ensures ok == delivered
    {
      outbox := outbox + [Outbound(c.session, text)];
      ok := delivered;
    }
  }

  /** A client of the handlers' contracts: one user connects and is greeted. */
  method ConnectOne(codec: Codec, a: Session)
  {
    var server := new WebsocketServer(codec);
    var ca := server.OnOpen(a, "A", true);
    var n := server.GetOnlineCount();
    assert n == 1;
    assert server.outbox == [Outbound(a, Greeting)];
  }

  /** Two users connect and one messages the other: the whole envelope reaches B. */
  method RelayToOnlineUser(codec: Codec, a: Session, b: Session, toB: string)
    requires toB != "" && codec.parse(toB) == Some(Envelope(Some("B"), "hi"))
  {
    var server := new WebsocketServer(codec);
    var ca := server.OnOpen(a, "A", true);
    var cb := server.OnOpen(b, "B", true);
    var d := server.OnMessage(Some(toB), true);
    assert d == Forward("B", b, codec.render(Envelope(Some("B"), "hi")));
    assert server.outbox[2] == Outbound(b, codec.render(Envelope(Some("B"), "hi")));
  }

  /** A message for a user who is not online is reported and sent nowhere. */
  method RelayToOfflineUser(codec: Codec, a: Session, toZ: string)
    requires toZ != "" && codec.parse(toZ) == Some(Envelope(Some("Z"), "hi"))
  {
    var server := new WebsocketServer(codec);
    var ca := server.OnOpen(a, "A", true);
    var d := server.OnMessage(Some(toZ), true);
    assert d == Unreachable(Some("Z"));
    assert |server.outbox| == 1;
    assert server.reports == [NotOnThisServer(Some("Z"))];
  }

  /** A user connects and closes twice: the second close changes nothing. */
  method CloseTwice(codec: Codec, a: Session)
  {
    var server := new WebsocketServer(codec);
    var ca := server.OnOpen(a, "A", true);
    server.OnClose(ca);
    var n := server.GetOnlineCount();
    assert n == 0;
    server.OnClose(ca);
    n := server.GetOnlineCount();
    assert n == 0;
  }

  /**
   * A user reconnects on a second session, then the first connection closes:
   * the close removes the user, so the second, still open, connection no
   * longer receives messages.
   */
  method SupersededConnectionCloses(codec: Codec, first: Session, second: Session)
  {
    var server := new WebsocketServer(codec);
    var older := server.OnOpen(first, "A", true);
    var newer := server.OnOpen(second, "A", true);
    assert server.websocketMap["A"] == newer;
    server.OnClose(older);
    assert "A" !in server.websocketMap;
    var n := server.GetOnlineCount();
    assert n == 0;
  }
}

/**
 * The connection registry: the process-wide map from user id to the endpoint
 * that serves it (websocketMap) and the online counter (online_count), as
 * values, with the two updates the handlers apply to them.
 */
module Registry {
  import opened Wrappers

  /** Opaque reference to the transport session an endpoint writes to. */
  datatype Session = Session(id: nat)

  /**
   * One endpoint instance once it has been opened: the user id taken from the
   * connection path and the session it writes to. Both are assigned once, when
   * the connection opens, and never change afterwards.
   */
  datatype Connection = Connection(userId: string, session: Session)

  /** websocketMap and online_count together. */
  datatype State = State(entries: map<string, Connection>, onlineCount: int)

  /** The state at process start: no entries, counter zero. */
  const Empty: State := State(map[], 0)

  /**
   * The registry invariant: the counter equals the number of registered users,
   * and every entry is keyed by the user id of the endpoint it holds.
   */
  predicate Consistent(s: State) {
    && s.onlineCount == |s.entries|
    && forall u | u in s.entries :: s.entries[u].userId == u
  }

  /** websocketMap.get: the endpoint registered for a user, if any. */
  function Lookup(s: State, userId: string): Option<Connection> {
    if userId in s.entries then Some(s.entries[userId]) else None
  }

  /**
   * The registry part of onOpen: count the user only if not yet present, then
   * put the new endpoint under its user id, replacing any earlier one.
   */
  function Open(s: State, c: Connection): (s': State)
    ensures Lookup(s', c.userId) == Some(c)
    ensures forall u :: u != c.userId ==> Lookup(s', u) == Lookup(s, u)
    ensures c.userId !in s.entries ==> s'.onlineCount == s.onlineCount + 1
    ensures c.userId in s.entries ==>
              s'.onlineCount == s.onlineCount && s'.entries.Keys == s.entries.Keys
    ensures Consistent(s) ==> Consistent(s')
  {
    var counted := if c.userId !in s.entries then s.onlineCount + 1 else s.onlineCount;
    State(s.entries[c.userId := c], counted)
  }

  /**
   * onClose: remove the entry for the closing endpoint's user id and count it
   * down, or do nothing when that user id is not registered. The entry removed
   * is whatever endpoint is registered under the user id, not necessarily the
   * one that closes.
   */
  function Close(s: State, userId: string): (s': State)
    ensures Lookup(s', userId) == None
    ensures forall u :: u != userId ==> Lookup(s', u) == Lookup(s, u)
    ensures userId in s.entries ==> s'.onlineCount == s.onlineCount - 1
    ensures userId !in s.entries ==> s' == s
    ensures Consistent(s) ==> Consistent(s')
  {
    if userId in s.entries then
      assert (s.entries - {userId}).Keys == s.entries.Keys - {userId};
      State(s.entries - {userId}, s.onlineCount - 1)
    else
      s
  }

  /** A lifecycle event as the transport delivers it to the registry. */
  datatype Event = Opened(c: Connection) | Closed(userId: string)

  /** The user id an event is keyed by. */
  function Key(e: Event): string {
    match e
    case Opened(c) => c.userId
    case Closed(u) => u
  }

  function Apply(s: State, e: Event): State {
    match e
    case Opened(c) => Open(s, c)
    case Closed(u) => Close(s, u)
  }

  /**
   * The state after a sequence of open and close events, applied one at a
   * time. Starting from a consistent state, every such sequence ends in one:
   * the counter equals the number of registered users.
   */
  function Replay(s: State, events: seq<Event>): (s': State)
    ensures Consistent(s) ==> Consistent(s')
    decreases |events|
  {
    if events == [] then s else Replay(Apply(s, events[0]), events[1..])
  }

  /**
   * Events keyed by other users never touch a user's entry: no registry
   * update spans more than one key.
   */
  lemma {:induction false} ReplayLeavesOtherUsers(s: State, events: seq<Event>, userId: string)
    requires forall i | 0 <= i < |events| :: Key(events[i]) != userId
    ensures Lookup(Replay(s, events), userId) == Lookup(s, userId)
    decreases |events|
  {
    if events != [] {
      ReplayLeavesOtherUsers(Apply(s, events[0]), events[1..], userId);
    }
  }

  /**
   * After a user's last open event, with no close for that user after it, the
   * registry holds exactly the endpoint that open registered.
   */
  lemma {:induction false} ReplayLatestOpenWins(s: State, events: seq<Event>, c: Connection, rest: seq<Event>)
    requires forall i | 0 <= i < |rest| :: Key(rest[i]) != c.userId
    ensures Lookup(Replay(s, events + [Opened(c)] + rest), c.userId) == Some(c)
    decreases |events|
  {
    if events == [] {
      assert [] + [Opened(c)] + rest == [Opened(c)] + rest;
      assert ([Opened(c)] + rest)[1..] == rest;
      ReplayLeavesOtherUsers(Open(s, c), rest, c.userId);
    } else {
      assert (events + [Opened(c)] + rest)[1..] == events[1..] + [Opened(c)] + rest;
      ReplayLatestOpenWins(Apply(s, events[0]), events[1..], c, rest);
    }
  }

  /** Closing a user twice is the same as closing it once. */
  lemma CloseIdempotent(s: State, userId: string)
    ensures Close(Close(s, userId), userId) == Close(s, userId)
  {
  }

  /**
   * When a user reconnects and the superseded endpoint then closes, the close
   * removes the newer endpoint's entry, because close is keyed by user id: the
   * newer connection stays open but is no longer reachable.
   */
  lemma SupersededCloseUnregistersNewer(s: State, older: Connection, newer: Connection)
    requires older.userId == newer.userId
    ensures Lookup(Close(Open(Open(s, older), newer), older.userId), newer.userId) == None
    ensures Close(Open(Open(s, older), newer), older.userId).onlineCount
            == Close(s, older.userId).onlineCount
  {
  }
}

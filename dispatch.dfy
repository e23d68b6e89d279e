/**
 * The routing decision of onMessage: drop an empty payload, report a payload
 * that does not parse, forward the re-serialised envelope to a registered
 * recipient, or report a recipient that is not on this server.
 */
module Dispatch {
  import opened Wrappers
  import opened Registry

  /**
   * A parsed JSON message. Only toUserId is read by the server (missing or
   * JSON null gives None); every other field is opaque and kept in fields.
   */
  datatype Envelope = Envelope(toUserId: Option<string>, fields: string)

  /**
   * The JSON library as the server uses it: parse a text into an object
   * (None when it throws or yields no object) and serialise an object back.
   */
  datatype Codec = Codec(parse: string -> Option<Envelope>, render: Envelope -> string)

  /** StringUtils.isEmpty: null or zero length. Whitespace is not empty. */
  predicate IsEmpty(s: Option<string>) {
    s.None? || |s.value| == 0
  }

  /** What onMessage does with one inbound payload. */
  datatype Outcome =
    | Dropped
    | Malformed
    | Forward(toUserId: string, target: Session, text: string)
    | Unreachable(wanted: Option<string>)

  /**
   * The decision onMessage takes for a payload against the registered
   * endpoints. The four cases are exhaustive, so together the clauses below
   * say when each one happens.
   */
  function Route(entries: map<string, Connection>, message: Option<string>, codec: Codec): (r: Outcome)
    ensures r.Dropped? <==> IsEmpty(message)
    ensures r.Malformed? <==> !IsEmpty(message) && codec.parse(message.value).None?
    ensures r.Forward? ==>
              && !IsEmpty(message)
              && codec.parse(message.value).Some?
              && codec.parse(message.value).value.toUserId == Some(r.toUserId)
              && r.toUserId != ""
              && r.toUserId in entries
              && r.target == entries[r.toUserId].session
              && r.text == codec.render(codec.parse(message.value).value)
    ensures r.Unreachable? ==>
              && !IsEmpty(message)
              && codec.parse(message.value).Some?
              && r.wanted == codec.parse(message.value).value.toUserId
              && (IsEmpty(r.wanted) || r.wanted.value !in entries)
  {
    if IsEmpty(message) then
      Dropped
    else
      match codec.parse(message.value)
      case None => Malformed
      case Some(env) =>
        if !IsEmpty(env.toUserId) && env.toUserId.value in entries then
          Forward(env.toUserId.value, entries[env.toUserId.value].session, codec.render(env))
        else
          Unreachable(env.toUserId)
  }

  /**
   * When the JSON library reads back what it writes, the recipient of a
   * forwarded message parses it to the very envelope the sender's payload
   * parsed to: the whole message is relayed, not only its body.
   */
  lemma ForwardCarriesEnvelope(entries: map<string, Connection>, message: Option<string>, codec: Codec)
    requires forall e :: codec.parse(codec.render(e)) == Some(e)
    ensures Route(entries, message, codec).Forward? ==>
              codec.parse(Route(entries, message, codec).text) == codec.parse(message.value)
  {
  }

  /**
   * A payload of blanks only is not dropped: it goes on to parsing, and is
   * forwarded or reported like any other non-empty payload.
   */
  lemma BlankPayloadIsNotDropped(entries: map<string, Connection>, codec: Codec, blank: string)
    requires |blank| > 0
    requires forall i | 0 <= i < |blank| :: blank[i] in " \t\r\n"
    ensures !Route(entries, Some(blank), codec).Dropped?
  {
  }
}

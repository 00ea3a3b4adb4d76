/**
 * Publishing across both crates: `Proxy::publish_event` and its tool handler on
 * the outlay side, `publish_once` on the shim side.
 */
module Publish {
  import opened Wire
  import Connection

  /** What `send_event` comes back with within `PUBLISH_TIMEOUT`. */
  datatype Upstream =
    | TimedOut
    | SendFailed(text: string)
    | Sent(success: set<string>, failed: seq<string>)   // relays, and error texts in map order

  /** Reading the client's JSON as an event: its canonical id, or the error. */
  datatype Decoded = EventWithId(id: string) | NotAnEvent(text: string)

  /** One round trip of a `publish_event` call as seen from the shim. */
  datatype Trip = TransportError(text: string) | Handled(decoded: Decoded, upstream: Upstream)

  /** `PublishOutcome`, as structured content. */
  function Outcome(id: string, ok: bool, message: string): Json {
    Obj(map["ok" := Bool(ok), "event_id" := Str(id), "message" := Str(message)])
  }

  /** `Proxy::publish_event` for an event with this id. */
  function PublishEvent(id: string, up: Upstream): Connection.CallReply {
    match up
    case TimedOut => Connection.CallError("upstream did not acknowledge the event within timeout")
    case SendFailed(text) => Connection.CallError("upstream publish failed: " + text)
    case Sent(success, failed) =>
      var ok := success != {};
      var message :=
        if ok then "" else if failed != [] then failed[0] else "error: upstream did not accept the event";
      Connection.Result(Some(Outcome(id, ok, message)))
  }

  function TripReply(trip: Trip): Connection.CallReply {
    match trip
    case TransportError(text) => Connection.CallError(text)
    case Handled(NotAnEvent(text), _) => Connection.CallError(text)
    case Handled(EventWithId(id), up) => PublishEvent(id, up)
  }

  /** `value` holds this string under `name`; nothing on any other value. */
  predicate HoldsText(value: Json, name: string, text: string) {
    value.Obj? && name in value.fields && value.fields[name] == Str(text)
  }

  /** The id the client wrote, empty when there is none. */
  function RawId(event: Json): (id: string)
    ensures HoldsText(event, "id", id) || (id == "" && forall s :: !HoldsText(event, "id", s))
  {
    TextOr(event, "id", "")
  }

  /** The upstream was asked and answered. */
  predicate Answered(trip: Trip) { trip.Handled? && trip.decoded.EventWithId? && trip.upstream.Sent? }

  /** The text after the acceptance flag: nothing on success, else the first error there is. */
  function Verdict(trip: Trip): string {
    match trip
    case TransportError(text) => text
    case Handled(NotAnEvent(text), _) => text
    case Handled(_, TimedOut) => "upstream did not acknowledge the event within timeout"
    case Handled(_, SendFailed(text)) => "upstream publish failed: " + text
    case Handled(_, Sent(success, failed)) =>
      if success != {} then "" else (failed + ["error: upstream did not accept the event"])[0]
  }

  /**
   * The OK frame for any reply a server may give. An error is a refusal with the
   * client's own id and the error's text. A result accepts if and only if its
   * structured content holds `ok: true`; id and text are those it holds, and
   * else the client's own id and no text.
   */
  lemma OkFrameOfReply(event: Json, reply: Connection.CallReply)
    ensures reply.CallError? ==>
      Connection.PublishFrame(event, reply) == Arr([Str("OK"), Str(RawId(event)), Bool(false), Str(reply.message)])
    ensures reply.Result? ==>
      exists id, ok, text ::
        && Connection.PublishFrame(event, reply) == Arr([Str("OK"), Str(id), Bool(ok), Str(text)])
        && var content := if reply.structured.Some? then reply.structured.value else Null;
          && (ok <==> content.Obj? && "ok" in content.fields && content.fields["ok"] == Bool(true))
          && (HoldsText(content, "event_id", id)
              || (id == RawId(event) && forall s :: !HoldsText(content, "event_id", s)))
          && (HoldsText(content, "message", text) || (text == "" && forall s :: !HoldsText(content, "message", s)))
  {
    if reply.Result? {
      ResultFrame(event, reply.structured);
    }
  }

  /** The string under `name`, or else `otherwise`. */
  function TextOr(value: Json, name: string, otherwise: string): (text: string)
    ensures HoldsText(value, name, text) || (text == otherwise && forall s :: !HoldsText(value, name, s))
  {
    if value.Obj? && name in value.fields && value.fields[name].Str? then value.fields[name].s else otherwise
  }

  lemma ResultFrame(event: Json, structured: Option<Json>)
    ensures var content := if structured.Some? then structured.value else Null;
      Connection.PublishFrame(event, Connection.Result(structured)) == Arr([
        Str("OK"),
        Str(TextOr(content, "event_id", RawId(event))),
        Bool(content.Obj? && "ok" in content.fields && content.fields["ok"] == Bool(true)),
        Str(TextOr(content, "message", ""))])
  {
  }

  /** What an answered call brings back: the three fields of its outcome. */
  lemma AnswerHolds(id: string, success: set<string>, failed: seq<string>)
    ensures PublishEvent(id, Sent(success, failed)).Result?
    ensures PublishEvent(id, Sent(success, failed)).structured == Some(Obj(map[
        "ok" := Bool(success != {}),
        "event_id" := Str(id),
        "message" := Str(Verdict(Handled(EventWithId(id), Sent(success, failed))))]))
  {
  }

  lemma AnsweredFrame(event: Json, id: string, success: set<string>, failed: seq<string>)
    ensures var trip := Handled(EventWithId(id), Sent(success, failed));
      Connection.PublishFrame(event, TripReply(trip))
      == Arr([Str("OK"), Str(id), Bool(success != {}), Str(Verdict(trip))])
  {
  }

  lemma RefusedFrame(event: Json, trip: Trip)
    requires !Answered(trip)
    ensures Connection.PublishFrame(event, TripReply(trip))
         == Arr([Str("OK"), Str(RawId(event)), Bool(false), Str(Verdict(trip))])
  {
    OkFrameOfReply(event, TripReply(trip));
  }

  /**
   * The OK frame of one trip. It reports acceptance if and only if the upstream
   * recorded a success; it echoes the client's id on every path if and only if
   * the upstream did not answer or the id was written canonically.
   */
  lemma OkFrameOfTrip(event: Json, trip: Trip)
    ensures var frame := Connection.PublishFrame(event, TripReply(trip));
      exists id, ok ::
        && frame == Arr([Str("OK"), Str(id), Bool(ok), Str(Verdict(trip))])
        && (ok <==> trip.Handled? && trip.decoded.EventWithId? && trip.upstream.Sent? && trip.upstream.success != {})
        && id == (if Answered(trip) then trip.decoded.id else RawId(event))
        && (id == RawId(event) <==> (Answered(trip) ==> trip.decoded.id == RawId(event)))
  {
    match trip
    case Handled(EventWithId(id), Sent(success, failed)) => AnsweredFrame(event, id, success, failed);
    case _ => RefusedFrame(event, trip);
  }
}

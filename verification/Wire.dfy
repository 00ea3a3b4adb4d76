/** NIP-01 frames at the level of JSON values (crates/outlay-shim/src/translate.rs). */
module Wire {

  datatype Option<+T> = None | Some(value: T)

  /** A JSON value. Numbers keep their source text: no code here computes with them. */
  datatype Json =
    | Null
    | Bool(b: bool)
    | Number(text: string)
    | Str(s: string)
    | Arr(items: seq<Json>)
    | Obj(fields: map<string, Json>)

  /** `value.get(name)`: the field of an object, nothing on any other value. */
  function Field(j: Json, name: string): Option<Json> {
    if j.Obj? && name in j.fields then Some(j.fields[name]) else None
  }

  // ---------- frames the shim and the proxy synthesise ----------

  function EventFrame(sub: string, event: Json): Json { Arr([Str("EVENT"), Str(sub), event]) }
  function EoseFrame(sub: string): Json { Arr([Str("EOSE"), Str(sub)]) }
  function ClosedFrame(sub: string, message: string): Json { Arr([Str("CLOSED"), Str(sub), Str(message)]) }
  function OkFrame(id: string, accepted: bool, message: string): Json {
    Arr([Str("OK"), Str(id), Bool(accepted), Str(message)])
  }
  function NoticeFrame(message: string): Json { Arr([Str("NOTICE"), Str(message)]) }

  /** The relay-to-client frame is about subscription `sub`: its second element names it. */
  predicate CarriesSub(frame: Json, sub: string) {
    frame.Arr? && |frame.items| >= 2 && frame.items[1] == Str(sub)
    && (frame.items[0] == Str("EVENT") || frame.items[0] == Str("EOSE") || frame.items[0] == Str("CLOSED"))
  }

  predicate IsClosed(frame: Json) {
    frame.Arr? && |frame.items| > 0 && frame.items[0] == Str("CLOSED")
  }

  // ---------- inbound client frames ----------

  datatype ClientMsg =
    | Req(sub: string, filters: seq<Json>)
    | Close(sub: string)
    | Publish(event: Json)

  /**
   * `parse_client_frame`. The argument is the outcome of reading the text as a
   * JSON array: `None` when the text is not one.
   */
  function ParseClientFrame(parsed: Option<seq<Json>>): Option<ClientMsg> {
    match parsed
    case None => None
    case Some(arr) =>
      if |arr| == 0 || !arr[0].Str? then None
      else if arr[0].s == "REQ" then
        if |arr| >= 2 && arr[1].Str? then Some(Req(arr[1].s, arr[2..])) else None
      else if arr[0].s == "CLOSE" then
        if |arr| >= 2 && arr[1].Str? then Some(Close(arr[1].s)) else None
      else if arr[0].s == "EVENT" then
        if |arr| >= 2 then Some(Publish(arr[1])) else None
      else None
  }

  /** The array a NIP-01 client writes for each message. */
  function ClientArray(m: ClientMsg): seq<Json> {
    match m
    case Req(sub, filters) => [Str("REQ"), Str(sub)] + filters
    case Close(sub) => [Str("CLOSE"), Str(sub)]
    case Publish(event) => [Str("EVENT"), event]
  }

  /**
   * Parsing recognises exactly the arrays that start with a client message (a
   * REQ keeps every later element as a filter, CLOSE and EVENT ignore theirs),
   * and recovers that message.
   */
  lemma ParseRecognises(arr: seq<Json>, m: ClientMsg)
    ensures ParseClientFrame(Some(arr)) == Some(m)
       <==> ClientArray(m) <= arr && (m.Req? ==> ClientArray(m) == arr)
  {
    if ClientArray(m) <= arr {
      assert arr[0] == ClientArray(m)[0] && arr[1] == ClientArray(m)[1];
    }
    if |arr| >= 2 {
      assert arr == [arr[0], arr[1]] + arr[2..];
    }
  }

  /**
   * Text is a client message if and only if it is a JSON array whose first
   * element is the string REQ or CLOSE followed by a string, or the string EVENT
   * followed by anything.
   */
  lemma RecognisedIff(parsed: Option<seq<Json>>)
    ensures ParseClientFrame(parsed).Some? <==>
      && parsed.Some? && |parsed.value| >= 2
      && (parsed.value[0] == Str("EVENT")
          || (parsed.value[0] in {Str("REQ"), Str("CLOSE")} && parsed.value[1].Str?))
  {
  }

  /** What each message a client writes is read as, whatever follows a CLOSE or an EVENT. */
  lemma ParsesItsArray(sub: string, filters: seq<Json>, event: Json, more: seq<Json>)
    ensures ParseClientFrame(Some([Str("REQ"), Str(sub)] + filters)) == Some(Req(sub, filters))
    ensures ParseClientFrame(Some([Str("CLOSE"), Str(sub)] + more)) == Some(Close(sub))
    ensures ParseClientFrame(Some([Str("EVENT"), event] + more)) == Some(Publish(event))
  {
    assert ([Str("REQ"), Str(sub)] + filters)[2..] == filters;
  }
}

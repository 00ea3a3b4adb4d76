/** The verbatim WebSocket pipe of crates/outlay-shim/src/relay.rs. */
module RelayPipe {
  import opened Wire

  datatype AxumMsg =
    | Text(t: string)
    | Binary(b: seq<bv8>)
    | Ping(b: seq<bv8>)
    | Pong(b: seq<bv8>)
    | Close(reason: Option<string>)

  datatype TgMsg =
    | TgText(t: string) | TgBinary(b: seq<bv8>) | TgPing(b: seq<bv8>) | TgPong(b: seq<bv8>)
    | TgClose(reason: Option<string>) | TgFrame(raw: seq<bv8>)

  function ToTungstenite(m: AxumMsg): TgMsg {
    match m
    case Text(t) => TgText(t)
    case Binary(b) => TgBinary(b)
    case Ping(b) => TgPing(b)
    case Pong(b) => TgPong(b)
    case Close(_) => TgClose(None)
  }

  function FromTungstenite(m: TgMsg): Option<AxumMsg> {
    match m
    case TgText(t) => Some(Text(t))
    case TgBinary(b) => Some(Binary(b))
    case TgPing(b) => Some(Ping(b))
    case TgPong(b) => Some(Pong(b))
    case TgClose(_) => None
    case TgFrame(_) => None
  }

  /** Same kind and same payload on both sides. */
  predicate SameMessage(a: AxumMsg, x: TgMsg) {
    || (a.Text? && x.TgText? && a.t == x.t)
    || (a.Binary? && x.TgBinary? && a.b == x.b)
    || (a.Ping? && x.TgPing? && a.b == x.b)
    || (a.Pong? && x.TgPong? && a.b == x.b)
  }

  /**
   * The conversions keep kind and payload, and undo each other on every message
   * but a Close (or, inbound, a raw frame).
   */
  lemma ConversionsInverse(a: AxumMsg, x: TgMsg)
    ensures FromTungstenite(ToTungstenite(a)) == Some(a) <==> !a.Close?
    ensures FromTungstenite(x) == Some(a) <==> x == ToTungstenite(a) && !a.Close?
    ensures FromTungstenite(x).None? <==> x.TgClose? || x.TgFrame?
    ensures FromTungstenite(x) == Some(a) <==> SameMessage(a, x)
    ensures ToTungstenite(a) == x <==> SameMessage(a, x) || (a.Close? && x == TgClose(None))
  {
  }

  // ---------- the loop ----------

  /** One turn of the `select!`: which side yielded what, and whether the other sink took it. */
  datatype Turn =
    | FromClient(client: Option<AxumMsg>, relayTook: bool)   // `None`: error or end of stream
    | FromRelay(relay: Option<TgMsg>, clientTook: bool)

  /** The pipe ends after this turn. */
  predicate Ends(turn: Turn) {
    match turn
    case FromClient(m, took) => m.None? || !took
    case FromRelay(m, took) => m.None? || FromTungstenite(m.value).None? || !took
  }

  /** Frames read from the client in these turns. */
  function ReadFromClient(turns: seq<Turn>): seq<AxumMsg> {
    if turns == [] then [] else
      var rest, last := ReadFromClient(turns[..|turns| - 1]), turns[|turns| - 1];
      if last.FromClient? && last.client.Some? then rest + [last.client.value] else rest
  }

  /** Frames read from the relay in these turns that the pipe can forward. */
  function ReadFromRelay(turns: seq<Turn>): seq<AxumMsg> {
    if turns == [] then [] else
      var rest, last := ReadFromRelay(turns[..|turns| - 1]), turns[|turns| - 1];
      if last.FromRelay? && last.relay.Some? && FromTungstenite(last.relay.value).Some?
      then rest + [FromTungstenite(last.relay.value).value] else rest
  }

  /** One more turn: a message counts if there is one, a relay's only if it is no Close and no raw frame. */
  lemma ReadsAppend(turns: seq<Turn>, turn: Turn)
    ensures ReadFromClient(turns + [turn])
         == ReadFromClient(turns) + (if turn.FromClient? && turn.client.Some? then [turn.client.value] else [])
    ensures turn.FromRelay? && turn.relay.Some? && !turn.relay.value.TgClose? && !turn.relay.value.TgFrame? ==>
      exists a :: SameMessage(a, turn.relay.value) && ReadFromRelay(turns + [turn]) == ReadFromRelay(turns) + [a]
    ensures turn.FromClient? || turn.relay.None? || turn.relay.value.TgClose? || turn.relay.value.TgFrame? ==>
      ReadFromRelay(turns + [turn]) == ReadFromRelay(turns)
  {
    assert (turns + [turn])[..|turns|] == turns;
    if turn.FromRelay? && turn.relay.Some? && FromTungstenite(turn.relay.value).Some? {
      assert SameMessage(FromTungstenite(turn.relay.value).value, turn.relay.value);
    }
  }

  function ToAll(ms: seq<AxumMsg>): seq<TgMsg> { seq(|ms|, i requires 0 <= i < |ms| => ToTungstenite(ms[i])) }

  /**
   * `forward`, fed the outcomes of its `select!`, in whatever order the two
   * sides yield. Each side receives, in order, the converted frames read from
   * the other, all of them unless the very last was refused; the turn that ends
   * the pipe, such as a relay Close, is the last with any effect.
   */
  method Forward(turns: seq<Turn>) returns (toRelay: seq<TgMsg>, toClient: seq<AxumMsg>, used: nat)
    ensures used <= |turns|
    ensures forall i :: 0 <= i < used - 1 ==>
      match turns[i]
      case FromClient(m, took) => m.Some? && took
      case FromRelay(x, took) => x.Some? && !x.value.TgClose? && !x.value.TgFrame? && took
    ensures used < |turns| ==> used > 0
    ensures used < |turns| && turns[used - 1].FromClient? ==>
      turns[used - 1].client.None? || !turns[used - 1].relayTook
    ensures used < |turns| && turns[used - 1].FromRelay? ==>
      var x := turns[used - 1].relay; x.None? || x.value.TgClose? || x.value.TgFrame? || !turns[used - 1].clientTook
    ensures toRelay <= ToAll(ReadFromClient(turns[..used]))
    ensures toClient <= ReadFromRelay(turns[..used])
    ensures |ReadFromClient(turns[..used])| + |ReadFromRelay(turns[..used])| <= |toRelay| + |toClient| + 1
    ensures used > 0 ==>
      (if turns[used - 1].FromClient? then turns[used - 1].relayTook else turns[used - 1].clientTook) ==>
      toRelay == ToAll(ReadFromClient(turns[..used])) && toClient == ReadFromRelay(turns[..used])
    ensures used > 0 && turns[used - 1].FromRelay? ==>
      turns[used - 1].relay.None? || turns[used - 1].relay.value.TgClose? || turns[used - 1].relay.value.TgFrame? ==>
      toRelay == ToAll(ReadFromClient(turns[..used - 1])) && toClient == ReadFromRelay(turns[..used - 1])
  {
    toRelay, toClient, used := [], [], 0;
    while used < |turns|
      invariant used <= |turns|
      invariant forall i :: 0 <= i < used ==> !Ends(turns[i])
      invariant toRelay == ToAll(ReadFromClient(turns[..used]))
      invariant toClient == ReadFromRelay(turns[..used])
    {
      var turn := turns[used];
      assert turns[..used + 1][..used] == turns[..used];
      used := used + 1;
      match turn {
        case FromClient(Some(m), took) =>
          if !took { break; }
          toRelay := toRelay + [ToTungstenite(m)];
        case FromRelay(Some(x), took) =>
          match FromTungstenite(x) {
            case Some(a) =>
              if !took { break; }
              toClient := toClient + [a];
            case None => break;
          }
        case _ => break;
      }
    }
  }
}

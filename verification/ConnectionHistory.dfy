/**
 * The connection against the messages its client sent: which tasks exist, and
 * which subscription is live, as NIP-01 says from the message history alone.
 */
module ConnectionHistory {
  import opened Wire
  import opened Connection
  import opened ConnectionSafety

  // ---------- the reference: message history only ----------

  function MessageOf(e: Event): seq<ClientMsg> {
    match e
    case ByReader(Inbound(Text(parsed))) =>
      (match ParseClientFrame(parsed) case Some(m) => [m] case None => [])
    case _ => []
  }

  /** The client messages recognised in a run, in order. */
  function Messages(es: seq<Event>): seq<ClientMsg> {
    if es == [] then [] else Messages(es[..|es| - 1]) + MessageOf(es[|es| - 1])
  }

  function Reqs(ms: seq<ClientMsg>): seq<ClientMsg> {
    if ms == [] then [] else
      var rest, m := Reqs(ms[..|ms| - 1]), ms[|ms| - 1];
      if m.Req? then rest + [m] else rest
  }

  function Published(ms: seq<ClientMsg>): seq<Json> {
    if ms == [] then [] else
      var rest, m := Published(ms[..|ms| - 1]), ms[|ms| - 1];
      if m.Publish? then rest + [m.event] else rest
  }

  /**
   * The REQ, by number, that owns `sub` after these messages: the last REQ for
   * it, unless a CLOSE for it came later.
   */
  function Owner(ms: seq<ClientMsg>, sub: string): Option<nat> {
    if ms == [] then None else
      var init, m := ms[..|ms| - 1], ms[|ms| - 1];
      match m
      case Req(s, _) => if s == sub then Some(|Reqs(init)|) else Owner(init, sub)
      case Close(s) => if s == sub then None else Owner(init, sub)
      case Publish(_) => Owner(init, sub)
  }

  // ---------- the connection follows it ----------

  /** One task for each REQ, one publish for each EVENT, in order. */
  predicate Spawned(s: State, ms: seq<ClientMsg>) {
    && |s.tasks| == |Reqs(ms)|
    && (forall t :: 0 <= t < |s.tasks| ==> Reqs(ms)[t] == Req(s.tasks[t].sub, s.tasks[t].filters))
    && |s.pubs| == |Published(ms)|
    && (forall p :: 0 <= p < |s.pubs| ==> s.pubs[p].event == Published(ms)[p])
  }

  ghost predicate OwnersOk(s: State, ms: seq<ClientMsg>) {
    !s.reader.Dropped? ==> forall sub :: Owner(ms, sub) == if sub in s.subs then Some(s.subs[sub]) else None
  }

  lemma HistorySnoc(ms: seq<ClientMsg>, m: ClientMsg, sub: string)
    ensures Reqs(ms + [m]) == Reqs(ms) + (if m.Req? then [m] else [])
    ensures Published(ms + [m]) == Published(ms) + (if m.Publish? then [m.event] else [])
    ensures Owner(ms + [m], sub)
         == if !m.Publish? && m.sub == sub then (if m.Req? then Some(|Reqs(ms)|) else None) else Owner(ms, sub)
  {
    assert (ms + [m])[..|ms|] == ms;
  }

  /** A signal changes no task's id or filters, and no publish. */
  lemma SignalSpawnsNothing(s: State, sub: string, ms: seq<ClientMsg>)
    requires Spawned(s, ms)
    ensures Spawned(Signal(s, sub), ms)
  {
  }

  lemma SpawnReq(s: State, ms: seq<ClientMsg>, sub: string, filters: seq<Json>)
    requires Spawned(s, ms)
    ensures var s' := s.(subs := s.subs[sub := |s.tasks|], tasks := s.tasks + [NewTask(sub, filters)]);
      Spawned(s', ms + [Req(sub, filters)])
  {
    HistorySnoc(ms, Req(sub, filters), sub);
  }

  lemma DispatchSpawns(s: State, ms: seq<ClientMsg>, m: ClientMsg)
    requires Spawned(s, ms)
    ensures Spawned(Dispatch(s, Some(m)), ms + [m])
  {
    match m
    case Req(sub, filters) =>
      SignalSpawnsNothing(s, sub, ms);
      SpawnReq(Signal(s, sub), ms, sub, filters);
    case Close(sub) =>
      SignalSpawnsNothing(s, sub, ms);
      HistorySnoc(ms, m, sub);
    case Publish(event) =>
      HistorySnoc(ms, m, "");
  }

  lemma DispatchOwns(s: State, ms: seq<ClientMsg>, m: ClientMsg, sub: string)
    requires |s.tasks| == |Reqs(ms)| && Owner(ms, sub) == if sub in s.subs then Some(s.subs[sub]) else None
    ensures var s' := Dispatch(s, Some(m)); Owner(ms + [m], sub) == if sub in s'.subs then Some(s'.subs[sub]) else None
  {
    var s' := Dispatch(s, Some(m));
    assert !m.Publish? && m.sub == sub ==>
        (sub in s'.subs <==> m.Req?) && (m.Req? ==> s'.subs[sub] == |s.tasks|);
    assert m.Publish? || m.sub != sub ==>
        (sub in s'.subs <==> sub in s.subs) && (sub in s.subs ==> s'.subs[sub] == s.subs[sub]);
    HistorySnoc(ms, m, sub);
  }

  lemma QuietReader(s: State, a: ReaderAct, ms: seq<ClientMsg>)
    requires ReaderReady(s, a) && MessageOf(ByReader(a)) == [] && Spawned(s, ms)
    ensures Spawned(ReaderNext(s, a), ms)
    ensures !ReaderNext(s, a).reader.Dropped? ==> !s.reader.Dropped? && ReaderNext(s, a).subs == s.subs
  {
  }

  lemma QuietTask(s: State, t: nat, a: TaskAct, ms: seq<ClientMsg>)
    requires Enabled(s, ByTask(t, a)) && Spawned(s, ms)
    ensures Spawned(Apply(s, ByTask(t, a)), ms)
  {
    var next := TaskNext(s.tasks[t], t, a);
    assert next.sub == s.tasks[t].sub && next.filters == s.tasks[t].filters;
  }

  /** Steps that read no client message spawn nothing and rebind nothing. */
  lemma QuietStep(s: State, e: Event, ms: seq<ClientMsg>)
    requires Enabled(s, e) && MessageOf(e) == [] && Spawned(s, ms)
    ensures Spawned(Apply(s, e), ms)
    ensures !Apply(s, e).reader.Dropped? ==> !s.reader.Dropped? && Apply(s, e).subs == s.subs
  {
    match e
    case ByReader(a) => QuietReader(s, a, ms);
    case ByTask(t, a) => QuietTask(s, t, a, ms);
    case _ =>
  }

  lemma {:induction false} FollowsHistory(es: seq<Event>)
    requires ValidRun(INITIAL, es)
    ensures Spawned(Exec(INITIAL, es), Messages(es)) && OwnersOk(Exec(INITIAL, es), Messages(es))
  {
    if es != [] {
      var init, e := es[..|es| - 1], es[|es| - 1];
      FollowsHistory(init);
      var s, ms := Exec(INITIAL, init), Messages(init);
      if MessageOf(e) == [] {
        QuietStep(s, e, ms);
        assert Messages(es) == ms;
      } else {
        var m := MessageOf(e)[0];
        DispatchSpawns(s, ms, m);
        forall sub
          ensures Owner(ms + [m], sub) == if sub in Apply(s, e).subs then Some(Apply(s, e).subs[sub]) else None
        {
          DispatchOwns(s, ms, m, sub);
        }
      }
    }
  }

  /**
   * Over every run: there is one task for each REQ and one publish for each
   * EVENT, in the order sent; and until the client leaves, the task of REQ
   * number `t` is unsignalled if and only if no later REQ or CLOSE named its id.
   */
  lemma SignalledIffSuperseded(es: seq<Event>, t: nat)
    requires ValidRun(INITIAL, es) && t < |Reqs(Messages(es))|
    ensures var s := Exec(INITIAL, es);
      && Spawned(s, Messages(es))
      && (s.reader.Reading? || s.reader.Noticing? ==>
            (s.tasks[t].signals == 0 <==> Owner(Messages(es), s.tasks[t].sub) == Some(t)))
  {
    FollowsHistory(es);
    SignalledExactlyOnce(Exec(INITIAL, es));
  }

  // ---------- what ends the reading ----------

  /** The step for each frame that is not text, and the frame that can be read whenever the reader waits. */
  lemma SocketFrames(s: State, frame: WsFrame)
    ensures Enabled(s, ByReader(Inbound(frame))) <==> s.reader.Reading?
    ensures s.reader.Reading? && frame.Control? ==> Apply(s, ByReader(Inbound(frame))) == s
    ensures s.reader.Reading? && frame.Gone? ==>
      Apply(s, ByReader(Inbound(frame))) == s.(reader := Cleaning(set sub | sub in s.subs))
  {
    assert s.subs.Keys == set sub | sub in s.subs;
  }

  // ---------- unrecognised frames ----------

  /** A text frame that is no JSON array, or none that begins as a client message does. */
  predicate Unrecognised(e: Event) {
    && e.ByReader? && e.read.Inbound? && e.read.frame.Text?
    && match e.read.frame.parsed
       case None => true
       case Some(arr) =>
         |arr| < 2 || (arr[0] != Str("EVENT") && !(arr[0] in {Str("REQ"), Str("CLOSE")} && arr[1].Str?))
  }

  function CountUnrecognised(es: seq<Event>): nat {
    if es == [] then 0 else CountUnrecognised(es[..|es| - 1]) + (if Unrecognised(es[|es| - 1]) then 1 else 0)
  }

  ghost predicate NoticesOk(s: State, n: nat) {
    && (forall i :: 0 <= i < |s.notices| ==> s.notices[i] == Arr([Str("NOTICE"), Str("unrecognized frame")]))
    && |s.notices| + (if s.reader.Noticing? then 1 else 0) <= n
    && (!s.writer.Done? ==> |s.notices| + (if s.reader.Noticing? then 1 else 0) == n)
  }

  lemma NoticesByReader(s: State, a: ReaderAct, n: nat)
    requires ReaderReady(s, a) && NoticesOk(s, n)
    ensures NoticesOk(ReaderNext(s, a), n + (if Unrecognised(ByReader(a)) then 1 else 0))
  {
    match a
    case Inbound(Text(parsed)) => RecognisedIff(parsed);
    case _ =>
  }

  lemma NoticesStep(s: State, e: Event, n: nat)
    requires Enabled(s, e) && NoticesOk(s, n)
    ensures NoticesOk(Apply(s, e), n + (if Unrecognised(e) then 1 else 0))
  {
    match e
    case ByReader(a) => NoticesByReader(s, a, n);
    case _ =>
  }

  /**
   * Every text frame that is no client message yields one NOTICE, in the channel
   * or being sent, as long as the channel is open; the reader sends nothing else.
   */
  lemma {:induction false} OneNoticeEach(es: seq<Event>)
    requires ValidRun(INITIAL, es)
    ensures NoticesOk(Exec(INITIAL, es), CountUnrecognised(es))
  {
    if es != [] {
      OneNoticeEach(es[..|es| - 1]);
      NoticesStep(Exec(INITIAL, es[..|es| - 1]), es[|es| - 1], CountUnrecognised(es[..|es| - 1]));
    }
  }

  // ---------- where the reader stands ----------

  /** What the reader did last. */
  function LastRead(es: seq<Event>): seq<Event> {
    if es == [] then []
    else if es[|es| - 1].ByReader? then [es[|es| - 1]]
    else LastRead(es[..|es| - 1])
  }

  /**
   * Over every run: the reader is still in its loop if and only if the client
   * has not gone; there it waits for the client, unless the last frame was no
   * client message and its NOTICE is not sent or refused yet; after the client
   * has gone it cleans up.
   */
  lemma {:induction false} ReadsUntilGone(es: seq<Event>)
    requires ValidRun(INITIAL, es)
    ensures var reader := Exec(INITIAL, es).reader;
      && (reader.Reading? || reader.Noticing? <==> forall i :: 0 <= i < |es| ==> es[i] != ByReader(Inbound(Gone)))
      && (reader.Noticing? <==> LastRead(es) != [] && Unrecognised(LastRead(es)[0]))
      && (reader.Cleaning? || reader.Dropped? <==> exists i :: 0 <= i < |es| && es[i] == ByReader(Inbound(Gone)))
      && (reader.Dropped? <==> LastRead(es) == [ByReader(CleanupDone)])
  {
    if es != [] {
      var init, e := es[..|es| - 1], es[|es| - 1];
      ReadsUntilGone(init);
      if e.ByReader? {
        ReaderMoves(Exec(INITIAL, init), e.read);
      }
      assert forall i :: 0 <= i < |init| ==> es[i] == init[i];
    }
  }

  lemma ReaderMoves(s: State, a: ReaderAct)
    requires ReaderReady(s, a)
    ensures var was, now := s.reader, ReaderNext(s, a).reader;
      && (now.Reading? || now.Noticing? <==> (was.Reading? || was.Noticing?) && a != Inbound(Gone))
      && (now.Noticing? <==> Unrecognised(ByReader(a)))
      && (now.Dropped? <==> a.CleanupDone?)
  {
    match a
    case Inbound(Text(parsed)) => RecognisedIff(parsed);
    case _ =>
  }
}

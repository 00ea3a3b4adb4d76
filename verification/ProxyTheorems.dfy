/** What the multiplexer guarantees in every reachable state. */
module ProxyTheorems {
  import opened Wire
  import opened Proxy
  import opened ProxySafety

  lemma {:induction false} InvRun(s: State, es: seq<Event>)
    requires Inv(s) && ValidRun(s, es)
    ensures Inv(Exec(s, es))
  {
    if es != [] {
      InvRun(s, es[..|es| - 1]);
      InvStep(Exec(s, es[..|es| - 1]), es[|es| - 1]);
    }
  }

  ghost predicate Reachable(s: State) {
    exists capacity, es :: ValidRun(Initial(capacity), es) && s == Exec(Initial(capacity), es)
  }

  lemma ReachableInv(s: State)
    requires Reachable(s)
    ensures Inv(s)
  {
    var capacity, es :| ValidRun(Initial(capacity), es) && s == Exec(Initial(capacity), es);
    InvRun(Initial(capacity), es);
  }

  // ---------- no gap, exact accounting ----------

  /** Log positions from `lo` to `hi` that map to a chunk of the call. */
  function Matching(log: seq<Notification>, call: Call, lo: nat, hi: nat): (r: set<nat>)
    requires lo <= hi <= |log|
  {
    set i | i in Span(lo, hi) && Matches(log[i], call)
  }

  function Elements(xs: seq<nat>): set<nat> { set x | x in xs }

  lemma {:induction false} DistinctCount(xs: seq<nat>)
    requires forall k, l :: 0 <= k < l < |xs| ==> xs[k] < xs[l]
    ensures |Elements(xs)| == |xs|
  {
    if xs != [] {
      var init, last := xs[..|xs| - 1], xs[|xs| - 1];
      DistinctCount(init);
      assert last !in init;
      assert xs == init + [last];
      assert Elements(xs) == Elements(init) + {last};
    }
  }

  /** A matching position up to the cursor was received or skipped, and none was both. */
  lemma ReceivedOrSkipped(log: seq<Notification>, call: Call)
    requires CursorOk(log, call) && HitsOk(log, call)
    ensures var all := Matching(log, call, call.start, call.cursor);
      Elements(call.hits) <= all && all <= Elements(call.hits) + call.skipped && Elements(call.hits) !! call.skipped
  {
    forall i | i in Elements(call.hits)
      ensures i in Matching(log, call, call.start, call.cursor) && i !in call.skipped
    {
      var k :| 0 <= k < |call.hits| && call.hits[k] == i;
    }
  }

  lemma AccountingOf(log: seq<Notification>, call: Call)
    requires CursorOk(log, call) && HitsOk(log, call)
    ensures |Matching(log, call, call.start, call.cursor)|
         == |Out(call)| + |Matching(log, call, call.start, call.cursor) * call.skipped|
  {
    var all, hit := Matching(log, call, call.start, call.cursor), Elements(call.hits);
    assert |hit| == |Out(call)| by { DistinctCount(call.hits); }
    assert all == hit + all * call.skipped && hit !! all * call.skipped by { ReceivedOrSkipped(log, call); }
    DisjointCount(hit, all * call.skipped);
  }

  lemma DisjointCount<T>(a: set<T>, b: set<T>)
    requires a !! b
    ensures |a + b| == |a| + |b|
  {
  }

  /**
   * The receiver is registered before the REQ, so no message tagged with the
   * call's id lies before its start. Of the matching messages up to the cursor,
   * each was either written, or is being written, or was skipped by lag, never
   * two of these: the counts add up.
   */
  lemma ExactAccounting(s: State, c: nat)
    requires Reachable(s) && c < |s.calls|
    ensures var call := s.calls[c];
      && (forall i :: 0 <= i < |s.log| && Tag(s.log[i]) == Some(call.up) ==> call.start <= i)
      && call.start <= call.cursor <= |s.log|
      && call.skipped <= Span(call.start, call.cursor)
      && |Matching(s.log, call, call.start, call.cursor)|
      == |call.attempted| + |Pending(call)| + |Matching(s.log, call, call.start, call.cursor) * call.skipped|
  {
    ReachableInv(s);
    assert CallOk(s.log, s.calls[c]);
    AccountingOf(s.log, s.calls[c]);
  }

  lemma LagLosesExcess(s: State, c: nat)
    requires c < |s.calls| && s.calls[c].phase.Looping? && s.calls[c].cursor <= |s.log|
    requires s.base == Oldest(|s.log|, s.capacity)
    ensures CallReady(s, s.calls[c], Lag) <==> |s.log| - s.calls[c].cursor > s.capacity
    ensures CallReady(s, s.calls[c], Lag) ==>
      var next := CallNext(s, s.calls[c], Lag);
      |s.log| - next.cursor == s.capacity && next.skipped == s.calls[c].skipped + Span(s.calls[c].cursor, next.cursor)
  {
  }

  /** A call loses messages exactly when more than the channel's capacity are unread. */
  lemma LagsIffBehind(s: State, c: nat)
    requires Reachable(s) && c < |s.calls| && s.calls[c].phase.Looping?
    ensures s.calls[c].cursor <= |s.log|
    ensures Enabled(s, ByCall(c, Lag)) <==> |s.log| - s.calls[c].cursor > s.capacity
    ensures Enabled(s, ByCall(c, Lag)) ==>
      var next := Apply(s, ByCall(c, Lag)).calls[c];
      |s.log| - next.cursor == s.capacity && next.skipped == s.calls[c].skipped + Span(s.calls[c].cursor, next.cursor)
  {
    assert s.base == Oldest(|s.log|, s.capacity) && s.calls[c].cursor <= |s.log| by {
      ReachableInv(s);
      assert CallOk(s.log, s.calls[c]);
    }
    LagLosesExcess(s, c);
  }

  // ---------- the writes of one call ----------

  lemma {:induction false} NoClosedBeforeBreak(picks: seq<Pick>, up: string, sub: string)
    requires forall i :: 0 <= i < |picks| ==> !Breaks(picks[i], up, sub)
    ensures forall i :: 0 <= i < |Writes(picks, up, sub)| ==> !IsClosed(Writes(picks, up, sub)[i])
  {
    if picks != [] {
      NoClosedBeforeBreak(picks[..|picks| - 1], up, sub);
    }
  }

  lemma {:induction false} WritesCarrySub(picks: seq<Pick>, up: string, sub: string)
    ensures forall i :: 0 <= i < |Writes(picks, up, sub)| ==> CarriesSub(Writes(picks, up, sub)[i], sub)
  {
    if picks != [] {
      WritesCarrySub(picks[..|picks| - 1], up, sub);
    }
  }

  /**
   * The chunks written are those of the turns taken, and only the last turn can
   * have ended the loop (a stop, a failed write, a dead sink, a closed channel);
   * all carry the client's id, at most one is CLOSED and it is the last.
   */
  lemma WritesCutAtBreak(s: State, c: nat)
    requires Reachable(s) && c < |s.calls|
    ensures var call := s.calls[c];
      && call.attempted == Writes(call.picks, call.up, call.sub)
      && (forall i :: 0 <= i < |call.picks| - 1 ==> !Breaks(call.picks[i], call.up, call.sub))
      && (forall i :: 0 <= i < |call.attempted| ==> CarriesSub(call.attempted[i], call.sub))
      && (forall i :: 0 <= i < |call.attempted| && IsClosed(call.attempted[i]) ==>
            i == |call.attempted| - 1 && !call.phase.Looping? && !call.phase.Writing?)
      && call.sent <= call.attempted
  {
    ReachableInv(s);
    var call := s.calls[c];
    assert CallOk(s.log, call);
    WritesCarrySub(call.picks, call.up, call.sub);
    if call.phase.Looping? || call.phase.Writing? {
      NoClosedBeforeBreak(call.picks, call.up, call.sub);
    } else if call.picks != [] {
      NoClosedBeforeBreak(call.picks[..|call.picks| - 1], call.up, call.sub);
    }
  }

  /**
   * Why the loop ends, turn by turn: only on a closed channel, a poll or a write
   * that finds the sink dead, a refused write, the call's own CLOSED or the
   * shutdown; a lag, a tick, a foreign message and an own EVENT or EOSE that
   * went through leave it running.
   */
  lemma BreaksIff(pick: Pick, up: string, sub: string)
    ensures Breaks(pick, up, sub) <==>
      match pick
      case Lagged => false
      case ChannelClosed => true
      case PollTick(alive) => !alive
      case Received(Shutdown, _, _) => true
      case Received(Deduplicated(_, _), _, _) => false
      case Received(Message(RelayOther(_)), _, _) => false
      case Received(Message(RelayClosed(sid, _)), _, _) => sid == up
      case Received(Message(RelayEvent(sid, _)), accepted, alive) => sid == up && !(accepted && alive)
      case Received(Message(RelayEose(sid)), accepted, alive) => sid == up && !(accepted && alive)
  {
  }

  /** The same over every run, for the turns any call has taken. */
  lemma WhyLoopEnds(s: State, c: nat)
    requires Reachable(s) && c < |s.calls|
    ensures var call := s.calls[c];
      forall i :: 0 <= i < |call.picks| && (i < |call.picks| - 1 || call.phase.Looping? || call.phase.Writing?) ==>
        match call.picks[i]
        case Lagged => true
        case ChannelClosed => false
        case PollTick(alive) => alive
        case Received(n, accepted, alive) =>
          !n.Shutdown? && (Tag(n) == Some(call.up) ==> !n.message.RelayClosed? && accepted && alive)
    ensures var call := s.calls[c];
      (call.phase.Unwinding? || call.phase.Closing? || call.phase.Exited? ==> |call.picks| > 0)
    ensures var call := s.calls[c];
      call.phase.Unwinding? || call.phase.Closing? || call.phase.Exited? ==>
        match call.picks[|call.picks| - 1]
        case Lagged => false
        case ChannelClosed => true
        case PollTick(alive) => !alive
        case Received(n, accepted, alive) =>
          n.Shutdown? || (Tag(n) == Some(call.up) && (n.message.RelayClosed? || !(accepted && alive)))
  {
    assert LoopOk(s.calls[c]) by {
      ReachableInv(s);
      assert CallOk(s.log, s.calls[c]);
    }
    BreaksByTag(s.calls[c].up, s.calls[c].sub);
  }

  lemma BreaksByTag(up: string, sub: string)
    ensures forall pick :: Breaks(pick, up, sub) <==>
      match pick
      case Lagged => false
      case ChannelClosed => true
      case PollTick(alive) => !alive
      case Received(n, accepted, alive) =>
        n.Shutdown? || (Tag(n) == Some(up) && (n.message.RelayClosed? || !(accepted && alive)))
  {
  }

  /**
   * A turn that reads, on the call's own fields: what it makes of the message
   * under the cursor, and whether the call is in its loop afterwards.
   */
  lemma ReadTurn(s: State, c: nat, a: CallAct)
    requires Enabled(s, ByCall(c, a))
    ensures var call, next := s.calls[c], Apply(s, ByCall(c, a)).calls[c];
      && (a.Recv? ==>
            var n := s.log[call.cursor];
            && next.cursor == call.cursor + 1
            && (if n.Shutdown? || Tag(n) == Some(call.up)
                then next.phase.Writing? && next.phase.n == n
                else next.phase.Looping? && next.attempted == call.attempted))
      && (a.Lag? ==> next.phase.Looping? && next.cursor == s.base && next.attempted == call.attempted)
      && (a.RecvClosed? ==> next.phase.Unwinding?)
      && (a.Poll? ==> if call.active then next.phase.Looping? else next.phase.Unwinding?)
  {
  }

  /** A write: a chunk accepted counts as sent, and unless it was a CLOSED a live sink keeps the loop going. */
  predicate Wrote(call: Call, next: Call, accepted: bool)
    requires call.phase.Writing?
  {
    && next.attempted == call.attempted + [call.phase.fwd.chunk]
    && next.sent == call.sent + (if accepted then [call.phase.fwd.chunk] else [])
    && (next.phase.Looping? <==> call.phase.fwd.Continue? && accepted && call.active)
    && (next.phase.Looping? || next.phase.Unwinding?)
  }

  lemma WriteOutcome(s: State, call: Call, accepted: bool)
    requires LoopOk(call) && call.phase.Writing?
    ensures Wrote(call, CallNext(s, call, WriteDone(accepted)), accepted)
  {
  }

  lemma WriteAt(s: State, c: nat, accepted: bool)
    requires Enabled(s, ByCall(c, WriteDone(accepted))) && LoopOk(s.calls[c])
    ensures Wrote(s.calls[c], Apply(s, ByCall(c, WriteDone(accepted))).calls[c], accepted)
  {
    WriteOutcome(s, s.calls[c], accepted);
    assert Apply(s, ByCall(c, WriteDone(accepted))).calls[c] == CallNext(s, s.calls[c], WriteDone(accepted));
  }

  /** In every reachable state. */
  lemma WriteTurn(s: State, c: nat, accepted: bool)
    requires Reachable(s) && Enabled(s, ByCall(c, WriteDone(accepted)))
    ensures Wrote(s.calls[c], Apply(s, ByCall(c, WriteDone(accepted))).calls[c], accepted)
  {
    WriteAt(s, c, accepted) by {
      ReachableInv(s);
      assert CallOk(s.log, s.calls[c]);
    }
  }

  /** A failed subscribe ends the call; so does closing its part, and a sink still alive is closed with it. */
  lemma EndTurn(s: State, c: nat, a: CallAct)
    requires Enabled(s, ByCall(c, a))
    ensures var call, next := s.calls[c], Apply(s, ByCall(c, a)).calls[c];
      && (a.SubscribeErr? ==> next.phase.Failed?)
      && (a.CloseSink? ==> next.phase.Exited? && next.sinkClosed == call.active)
  {
  }

  lemma HitsHaveProvenance(log: seq<Notification>, call: Call)
    requires CursorOk(log, call) && HitsOk(log, call)
    ensures |call.hits| == |Out(call)|
    ensures forall k :: 0 <= k < |call.hits| ==>
      call.start <= call.hits[k] < call.cursor && Provenance(log[call.hits[k]], call, Out(call)[k])
    ensures forall k, l :: 0 <= k < l < |call.hits| ==> call.hits[k] < call.hits[l]
  {
  }

  /**
   * Without lag the chunks written, with the one being written, are exactly the
   * relabelled log from the call's start to its cursor; with lag they are a
   * subsequence of it, and each comes from its own log position, tagged with the
   * call's own id unless it is a pool shutdown.
   */
  lemma OutputIsRelabelledLog(s: State, c: nat)
    requires Reachable(s) && c < |s.calls|
    ensures var call := s.calls[c];
      && call.start <= call.cursor <= |s.log|
      && Subsequence(Out(call), Relabel(s.log[call.start..call.cursor], call.up, call.sub))
      && (call.skipped == {} ==> Out(call) == Relabel(s.log[call.start..call.cursor], call.up, call.sub))
    ensures var call := s.calls[c];
      && |call.hits| == |Out(call)|
      && (forall k :: 0 <= k < |call.hits| ==>
            call.hits[k] < |s.log| && Provenance(s.log[call.hits[k]], call, Out(call)[k]))
      && (forall k, l :: 0 <= k < l < |call.hits| ==> call.hits[k] < call.hits[l])
  {
    assert CallOk(s.log, s.calls[c]) by { ReachableInv(s); }
    HitsHaveProvenance(s.log, s.calls[c]);
  }

  /** `chunk` is the image of `n`, which is about this call's own upstream id or is the shutdown. */
  predicate Provenance(n: Notification, call: Call, chunk: Json) {
    && (n.Shutdown? || Tag(n) == Some(call.up))
    && MapNotification(n, call.up, call.sub).Some?
    && MapNotification(n, call.up, call.sub).value.chunk == chunk
    && CarriesSub(chunk, call.sub)
  }

  // ---------- isolation ----------

  /** The part of the log that concerns one upstream id: its messages and shutdowns. */
  function Concerning(log: seq<Notification>, up: string): seq<Notification> {
    if log == [] then [] else
      var rest, n := Concerning(log[..|log| - 1], up), log[|log| - 1];
      if n.Shutdown? || Tag(n) == Some(up) then rest + [n] else rest
  }

  lemma {:induction false} RelabelConcerning(log: seq<Notification>, up: string, sub: string)
    ensures Relabel(log, up, sub) == Relabel(Concerning(log, up), up, sub)
  {
    if log != [] {
      var init, n := log[..|log| - 1], log[|log| - 1];
      RelabelConcerning(init, up, sub);
      RelabelAppend(Concerning(init, up), n, up, sub);
      assert MapNotification(n, up, sub).Some? <==> n.Shutdown? || Tag(n) == Some(up) by {
        MapIsRelabelling(n, up, sub);
      }
    }
  }

  /**
   * Non-interference. In any two reachable states, of the same or of different
   * runs, lag-free calls with the same ids that have seen the same own messages
   * have produced the same chunks, whatever lay between those messages.
   */
  lemma NonInterference(s1: State, c1: nat, s2: State, c2: nat)
    requires Reachable(s1) && c1 < |s1.calls| && Reachable(s2) && c2 < |s2.calls|
    requires s1.calls[c1].up == s2.calls[c2].up && s1.calls[c1].sub == s2.calls[c2].sub
    requires s1.calls[c1].skipped == {} == s2.calls[c2].skipped
    requires s1.calls[c1].start <= s1.calls[c1].cursor <= |s1.log|
    requires s2.calls[c2].start <= s2.calls[c2].cursor <= |s2.log|
    requires Concerning(s1.log[s1.calls[c1].start..s1.calls[c1].cursor], s1.calls[c1].up)
          == Concerning(s2.log[s2.calls[c2].start..s2.calls[c2].cursor], s2.calls[c2].up)
    ensures Out(s1.calls[c1]) == Out(s2.calls[c2])
  {
    OutputIsRelabelledLog(s1, c1);
    OutputIsRelabelledLog(s2, c2);
    var a, b := s1.calls[c1], s2.calls[c2];
    RelabelConcerning(s1.log[a.start..a.cursor], a.up, a.sub);
    RelabelConcerning(s2.log[b.start..b.cursor], b.up, b.sub);
  }

  /** Inserting or deleting another call's message anywhere changes nothing for a call with this id. */
  lemma InsertForeign(a: seq<Notification>, n: Notification, b: seq<Notification>, up: string, sub: string)
    requires !n.Shutdown? && Tag(n) != Some(up)
    ensures Relabel(a + [n] + b, up, sub) == Relabel(a + b, up, sub)
  {
    ConcerningForeign(a, n, b, up);
    RelabelConcerning(a + [n] + b, up, sub);
    RelabelConcerning(a + b, up, sub);
  }

  lemma {:induction false} ConcerningForeign(a: seq<Notification>, n: Notification, b: seq<Notification>, up: string)
    requires !n.Shutdown? && Tag(n) != Some(up)
    ensures Concerning(a + [n] + b, up) == Concerning(a + b, up)
    decreases |b|
  {
    if b == [] {
      assert a + [n] + b == a + [n] && (a + [n])[..|a|] == a && a + b == a;
    } else {
      ConcerningForeign(a, n, b[..|b| - 1], up);
      assert (a + [n] + b)[..|a + [n] + b| - 1] == a + [n] + b[..|b| - 1];
      assert (a + b)[..|a + b| - 1] == a + b[..|b| - 1];
    }
  }

  /** A tagged message is for at most one call, even among equal client ids; a shutdown is for all. */
  lemma AtMostOneReceiver(s: State, c: nat, d: nat, n: Notification)
    requires Reachable(s) && c < |s.calls| && d < |s.calls|
    ensures !n.Shutdown? && Matches(n, s.calls[c]) && Matches(n, s.calls[d]) ==> c == d
    ensures n.Shutdown? ==> Matches(n, s.calls[c])
  {
    assert c != d ==> s.calls[c].up != s.calls[d].up by {
      ReachableInv(s);
      assert c < d ==> s.calls[c].up != s.calls[d].up;
      assert d < c ==> s.calls[d].up != s.calls[c].up;
    }
  }

  // ---------- conservation ----------

  /**
   * The upstream ids open are those of the calls between a successful subscribe
   * and their exit; each call that left the loop unsubscribed its id exactly
   * once, no other call ever did, and no id was unsubscribed twice.
   */
  lemma SubscriptionConservation(s: State)
    requires Reachable(s)
    ensures s.open == set c | 0 <= c < |s.calls| &&
        (s.calls[c].phase.Looping? || s.calls[c].phase.Writing? || s.calls[c].phase.Unwinding?) :: s.calls[c].up
    ensures forall c :: 0 <= c < |s.calls| ==>
      multiset(s.unsubscribed)[s.calls[c].up] == s.calls[c].unsubscribes
      == (if s.calls[c].phase.Closing? || s.calls[c].phase.Exited? then 1 else 0)
  {
    assert OpenOk(s) by { ReachableInv(s); }
    OpenAreLive(s);
    forall c | 0 <= c < |s.calls|
      ensures multiset(s.unsubscribed)[s.calls[c].up] == s.calls[c].unsubscribes
           == (if s.calls[c].phase.Closing? || s.calls[c].phase.Exited? then 1 else 0)
    {
      assert LoopOk(s.calls[c]) by {
        ReachableInv(s);
        assert CallOk(s.log, s.calls[c]);
      }
      OccursOnce(s.unsubscribed, s.calls[c].up);
    }
  }

  lemma OpenAreLive(s: State)
    requires OpenOk(s)
    ensures s.open == set c | 0 <= c < |s.calls| &&
        (s.calls[c].phase.Looping? || s.calls[c].phase.Writing? || s.calls[c].phase.Unwinding?) :: s.calls[c].up
  {
    forall u | u in s.open ensures exists c :: 0 <= c < |s.calls| && Live(s.calls[c]) && s.calls[c].up == u {
      var c :| 0 <= c < |s.calls| && s.calls[c].up == u;
    }
  }

  lemma {:induction false} OccursOnce(xs: seq<string>, x: string)
    requires forall i, j :: 0 <= i < j < |xs| ==> xs[i] != xs[j]
    ensures multiset(xs)[x] == if x in xs then 1 else 0
  {
    if xs != [] {
      OccursOnce(xs[..|xs| - 1], x);
      assert xs == xs[..|xs| - 1] + [xs[|xs| - 1]];
    }
  }

  predicate LeftLoop(call: Call) { call.phase.Unwinding? || call.phase.Closing? || call.phase.Exited? }

  lemma SilentStep(s: State, e: Event, c: nat)
    requires Enabled(s, e) && c < |s.calls| && LeftLoop(s.calls[c])
    ensures var t := Apply(s, e);
      && c < |t.calls| && LeftLoop(t.calls[c])
      && t.calls[c].attempted == s.calls[c].attempted && t.calls[c].sent == s.calls[c].sent
  {
  }

  /** A call that has left the loop never writes again, whatever runs on. */
  lemma {:induction false} SilentAfterLoop(s: State, es: seq<Event>, c: nat)
    requires ValidRun(s, es) && c < |s.calls| && LeftLoop(s.calls[c])
    ensures var t := Exec(s, es);
      && c < |t.calls| && LeftLoop(t.calls[c])
      && t.calls[c].attempted == s.calls[c].attempted && t.calls[c].sent == s.calls[c].sent
  {
    if es != [] {
      SilentAfterLoop(s, es[..|es| - 1], c);
      SilentStep(Exec(s, es[..|es| - 1]), es[|es| - 1], c);
    }
  }

  // ---------- the loop in its own form ----------

  /**
   * The loop of `Proxy::subscribe`, fed the outcomes of its `select!`: it takes
   * turns up to and including the first that breaks, and writes their chunks.
   */
  method SubscribeLoop(picks: seq<Pick>, up: string, sub: string) returns (written: seq<Json>, used: nat)
    ensures used <= |picks|
    ensures written == Writes(picks[..used], up, sub)
    ensures forall i :: 0 <= i < used - 1 ==>
      match picks[i]
      case Lagged => true
      case ChannelClosed => false
      case PollTick(alive) => alive
      case Received(n, accepted, alive) =>
        !n.Shutdown? && (Tag(n) == Some(up) ==> !n.message.RelayClosed? && accepted && alive)
    ensures used < |picks| ==> used > 0
    ensures used < |picks| ==>
      match picks[used - 1]
      case Lagged => false
      case ChannelClosed => true
      case PollTick(alive) => !alive
      case Received(n, accepted, alive) =>
        n.Shutdown? || (Tag(n) == Some(up) && (n.message.RelayClosed? || !(accepted && alive)))
    ensures forall i :: 0 <= i < |written| && IsClosed(written[i]) ==> i == |written| - 1
  {
    written, used := [], 0;
    var broke := false;
    while used < |picks| && !broke
      invariant used <= |picks|
      invariant written == Writes(picks[..used], up, sub)
      invariant forall i :: 0 <= i < used - 1 ==> !Breaks(picks[i], up, sub)
      invariant used > 0 ==> (broke <==> Breaks(picks[used - 1], up, sub))
      invariant used == 0 ==> !broke
      decreases |picks| - used
    {
      var pick := picks[used];
      assert picks[..used + 1] == picks[..used] + [pick];
      WritesAppend(picks[..used], pick, up, sub);
      match pick {
        case Received(n, accepted, alive) =>
          match MapNotification(n, up, sub) {
            case Some(Continue(c)) =>
              written := written + [c];
              broke := !(accepted && alive);
            case Some(Stop(c)) =>
              written := written + [c];
              broke := true;
            case None =>
          }
        case Lagged =>
        case ChannelClosed => broke := true;
        case PollTick(alive) => broke := !alive;
      }
      used := used + 1;
    }
    BreaksByTag(up, sub);
    if used > 0 {
      assert picks[..used][..used - 1] == picks[..used - 1];
      NoClosedBeforeBreak(picks[..used - 1], up, sub);
    }
  }
}

/**
 * `TransportCache::get` (crates/outlay-shim/src/transport.rs) under concurrent
 * callers: each looks its identity up in the locked LRU and then initialises or
 * shares the once-cell found there. Builds can fail and callers can be dropped
 * at any await. A cell lives as long as the cache or a caller inside `get` holds
 * it; then its transport goes down, and with it the peers handed out from it.
 */
module TransportCache {
  import opened Lru

  /** A started client: the identity and relays it was built with, and by which caller. */
  datatype Transport = Transport(key: string, relays: seq<string>, builder: nat)

  /** `Dropped`: nobody holds the cell any more, so what it held was torn down. */
  datatype CellState = Empty | Initialising(builder: nat) | Ready(transport: Transport) | Dropped

  /** `made` is history: the transports built in this cell. */
  datatype Cell = Cell(key: string, state: CellState, made: seq<Transport>)

  datatype CallerPhase =
    | Entered                              // `get` called, map not locked yet
    | Holding(cell: nat)                   // has the cell, awaiting `get_or_try_init`
    | Building(cell: nat)                  // runs `build_client` for the cell
    | Got(cell: nat, transport: Transport)
    | Failed(cell: nat)                    // its own build failed
    | Gone                                 // dropped before it finished

  /** `relays` are the URLs resolved from this caller's own hints. `access` numbers its lookup. */
  datatype Caller = Caller(key: string, relays: seq<string>, access: nat, phase: CallerPhase)

  datatype State = State(
    cap: nat,
    entries: seq<Entry>,
    cells: map<nat, Cell>,
    callers: seq<Caller>,
    // history
    history: seq<string>)     // identities looked up, in lock order

  function Initial(cap: nat): State { State(cap, [], map[], [], []) }

  datatype Act = Lookup | StartBuild | BuildOk | BuildErr | Share | Abandon

  datatype Event = Enter(key: string, relays: seq<string>) | By(c: nat, act: Act)

  predicate CanDo(s: State, caller: Caller, a: Act) {
    match a
    case Lookup => caller.phase.Entered?
    case StartBuild => caller.phase.Holding? && caller.phase.cell in s.cells && s.cells[caller.phase.cell].state.Empty?
    case BuildOk => caller.phase.Building? && caller.phase.cell in s.cells
    case BuildErr => caller.phase.Building? && caller.phase.cell in s.cells
    case Share => caller.phase.Holding? && caller.phase.cell in s.cells && s.cells[caller.phase.cell].state.Ready?
    case Abandon =>
      caller.phase.Entered? || caller.phase.Holding? || (caller.phase.Building? && caller.phase.cell in s.cells)
  }

  predicate Enabled(s: State, e: Event) {
    e.By? ==> e.c < |s.callers| && CanDo(s, s.callers[e.c], e.act)
  }

  function SetCaller(s: State, c: nat, phase: CallerPhase): State
    requires c < |s.callers|
  {
    s.(callers := s.callers[c := s.callers[c].(phase := phase)])
  }

  function SetCell(s: State, cell: nat, state: CellState): State
    requires cell in s.cells
  {
    s.(cells := s.cells[cell := s.cells[cell].(state := state)])
  }

  /** The locked section: touch or insert, and take the cell. */
  function DoLookup(s: State, c: nat): State
    requires c < |s.callers|
  {
    var k, n := s.callers[c].key, |s.history|;
    var cell := CellFor(s.entries, k, n);
    s.(entries := Touch(s.entries, s.cap, k, n),
       cells := if Find(s.entries, k) < |s.entries| then s.cells else s.cells[n := Cell(k, Empty, [])],
       callers := s.callers[c := s.callers[c].(access := n, phase := Holding(cell))],
       history := s.history + [k])
  }

  /** What the code of a step does. */
  function Step(s: State, e: Event): State
    requires Enabled(s, e)
  {
    match e
    case Enter(key, relays) => s.(callers := s.callers + [Caller(key, relays, 0, Entered)])
    case By(c, a) =>
      var caller := s.callers[c];
      match a
      case Lookup => DoLookup(s, c)
      case StartBuild => SetCell(SetCaller(s, c, Building(caller.phase.cell)), caller.phase.cell, Initialising(c))
      case BuildOk =>
        var cell := caller.phase.cell;
        var t := Transport(caller.key, caller.relays, c);
        SetCaller(s, c, Got(cell, t)).(
          cells := s.cells[cell := s.cells[cell].(state := Ready(t), made := s.cells[cell].made + [t])])
      case BuildErr => SetCell(SetCaller(s, c, Failed(caller.phase.cell)), caller.phase.cell, Empty)
      case Share => SetCaller(s, c, Got(caller.phase.cell, s.cells[caller.phase.cell].state.transport))
      case Abandon =>
        if caller.phase.Building?
        then SetCell(SetCaller(s, c, Gone), caller.phase.cell, Empty)
        else SetCaller(s, c, Gone)
  }

  predicate Cached(s: State, n: nat) { exists i :: 0 <= i < |s.entries| && s.entries[i].cell == n }

  /** A caller inside `get` keeps its clone of the `Arc`; the peer it returns does not. */
  predicate Holds(phase: CallerPhase, n: nat) { phase == Holding(n) || phase == Building(n) }

  predicate InUse(s: State, n: nat) { exists c :: 0 <= c < |s.callers| && Holds(s.callers[c].phase, n) }

  /** Some `Arc` of the cell is left. */
  predicate Live(s: State, n: nat) { Cached(s, n) || InUse(s, n) }

  /** The last `Arc` of a cell takes the cell and its transport with it. */
  function Collect(s: State): State {
    s.(cells := map n | n in s.cells :: if Live(s, n) then s.cells[n] else s.cells[n].(state := Dropped))
  }

  function Apply(s: State, e: Event): State
    requires Enabled(s, e)
  {
    Collect(Step(s, e))
  }

  ghost predicate ValidRun(s: State, es: seq<Event>)
    decreases |es|, 0
  {
    es == [] || (ValidRun(s, es[..|es| - 1]) && Enabled(Exec(s, es[..|es| - 1]), es[|es| - 1]))
  }

  ghost function Exec(s: State, es: seq<Event>): State
    requires ValidRun(s, es)
    decreases |es|, 1
  {
    if es == [] then s else Apply(Exec(s, es[..|es| - 1]), es[|es| - 1])
  }

  // ---------- what every step keeps ----------

  /** A transport is for its cell's identity, and its builder got it. */
  predicate MadeOk(s: State, n: nat, t: Transport)
    requires n in s.cells
  {
    && t.key == s.cells[n].key && t.builder < |s.callers|
    && s.callers[t.builder].phase == Got(n, t)
    && s.callers[t.builder].key == t.key && s.callers[t.builder].relays == t.relays
  }

  predicate CellOk(s: State, n: nat)
    requires n in s.cells
  {
    var cell := s.cells[n];
    && n < |s.history|
    && |cell.made| <= 1 && (cell.made != [] ==> MadeOk(s, n, cell.made[0]))
    && (match cell.state
        case Empty => cell.made == []
        case Initialising(b) => cell.made == [] && b < |s.callers| && s.callers[b].phase == Building(n)
        case Ready(t) => cell.made == [t]
        case Dropped => true)
  }

  predicate HasCell(phase: CallerPhase) { !phase.Entered? && !phase.Gone? }

  /** A caller past the lookup has the cell of its access, and that cell is for its identity. */
  predicate CallerOk(s: State, c: nat)
    requires c < |s.callers|
  {
    var caller := s.callers[c];
    HasCell(caller.phase) ==>
      && caller.access < |s.history| && s.history[caller.access] == caller.key
      && caller.phase.cell == CellAt(s.cap, s.history, caller.access)
      && caller.phase.cell in s.cells && s.cells[caller.phase.cell].key == caller.key
      && (caller.phase.Building? ==> s.cells[caller.phase.cell].state == Initialising(c))
      && (caller.phase.Got? ==> s.cells[caller.phase.cell].made == [caller.phase.transport])
  }

  predicate EntriesOk(s: State) {
    forall i :: 0 <= i < |s.entries| ==>
      s.entries[i].cell in s.cells && s.cells[s.entries[i].cell].key == s.entries[i].key
  }

  ghost predicate Base(s: State) {
    && s.cap > 0
    && s.entries == Replay(s.cap, s.history)
    && EntriesOk(s)
    && (forall n :: n in s.cells ==> CellOk(s, n))
    && (forall c :: 0 <= c < |s.callers| ==> CallerOk(s, c))
  }

  /** The dropped cells are those nobody holds. */
  predicate DroppedOk(s: State) { forall n :: n in s.cells ==> (s.cells[n].state.Dropped? <==> !Live(s, n)) }

  ghost predicate Inv(s: State) { Base(s) && DroppedOk(s) }
}

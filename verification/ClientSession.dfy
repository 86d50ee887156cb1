/** The client's shared session: one cached connection, dialed under a lock by
    whichever task needs it first (tmite-core/src/client/session.rs). */
module ClientSession {
  import opened Prelude

  type ConnId = nat
  type TaskId = nat

  datatype SessionState = Dialing | Established | Reconnecting
  datatype Status = Status(state: SessionState, redials: nat)

  /** The fields of `Session` that change. */
  datatype Cell = Cell(conn: Option<ConnId>, redials: nat, wasEstablished: bool, status: Status)

  const FRESH := Cell(None, 0, false, Status(Dialing, 0))

  /** `set_state` publishes the state with the current redial count. */
  function SetState(c: Cell, s: SessionState): Cell {
    c.(status := Status(s, c.redials))
  }

  /** `get` with no cached connection, up to the dial. */
  function BeginDial(c: Cell): Cell {
    SetState(if c.wasEstablished then c.(redials := c.redials + 1) else c, Dialing)
  }

  /** `get` after the hello was answered. */
  function Establish(c: Cell, conn: ConnId): Cell {
    SetState(c.(wasEstablished := true), Established).(conn := Some(conn))
  }

  /** How the dial and the hello of one `get` end. */
  datatype Dial = Fails | HelloFails(conn: ConnId) | Succeeds(conn: ConnId)

  class Session {
    var cell: Cell

    constructor ()
      ensures cell == FRESH
    {
      cell := FRESH;
    }

    /** `get`, when no other task intervenes. */
    method Get(dial: Dial) returns (r: Option<ConnId>)
      modifies this
      ensures old(cell).conn.Some? ==> r == old(cell).conn && cell == old(cell)
      ensures old(cell).conn.None? ==>
                if dial.Succeeds? then r == Some(dial.conn) && cell == Establish(BeginDial(old(cell)), dial.conn)
                else r.None? && cell == BeginDial(old(cell))
    {
      if cell.conn.Some? {
        return cell.conn;
      }
      if cell.wasEstablished {
        cell := cell.(redials := cell.redials + 1);
      }
      cell := SetState(cell, Dialing);
      if !dial.Succeeds? {
        return None;
      }
      cell := cell.(wasEstablished := true);
      cell := SetState(cell, Established);
      cell := cell.(conn := Some(dial.conn));
      return cell.conn;
    }

    method Invalidate()
      modifies this
      ensures cell == SetState(old(cell).(conn := None), Reconnecting)
    {
      cell := cell.(conn := None);
      cell := SetState(cell, Reconnecting);
    }
  }

  // ---- Many tasks ----

  datatype Pc = WaitGet | InDial | InHello(conn: ConnId) | WaitClear | Publish

  datatype Event =
    | DialBegun
    | HelloAnswered(conn: ConnId)
    | Handed(conn: ConnId)
    | Cleared(dropped: Option<ConnId>)

  /** `lock` is the holder of the connection mutex across awaits; a task that
      is not in `tasks` is doing something else. `trace` is the history. */
  datatype World = World(cell: Cell, lock: Option<TaskId>, tasks: map<TaskId, Pc>, trace: seq<Event>)

  const INIT := World(FRESH, None, map[], [])

  datatype Action =
    | CallGet(t: TaskId)
    | Lock(t: TaskId)
    | Connected(t: TaskId, conn: ConnId)
    | Answered(t: TaskId)
    | Abandon(t: TaskId)
    | CallInvalidate(t: TaskId)
    | Clear(t: TaskId)
    | Announce(t: TaskId)

  predicate At(w: World, t: TaskId, pc: Pc) {
    t in w.tasks && w.tasks[t] == pc
  }

  predicate Enabled(w: World, a: Action) {
    match a
    case CallGet(t) => t !in w.tasks
    case CallInvalidate(t) => t !in w.tasks
    case Lock(t) => At(w, t, WaitGet) && w.lock.None?
    case Connected(t, _) => At(w, t, InDial)
    case Answered(t) => t in w.tasks && w.tasks[t].InHello?
    case Abandon(t) => t in w.tasks
    case Clear(t) => At(w, t, WaitClear) && w.lock.None?
    case Announce(t) => At(w, t, Publish)
  }

  /** `Abandon` is a failed dial or hello, a timeout, or a cancelled task: the
      guard is dropped wherever that task is. */
  function Step(w: World, a: Action): World
    requires Enabled(w, a)
  {
    match a
    case CallGet(t) => w.(tasks := w.tasks[t := WaitGet])
    case CallInvalidate(t) => w.(tasks := w.tasks[t := WaitClear])
    case Lock(t) =>
      if w.cell.conn.Some? then
        w.(tasks := w.tasks - {t}, trace := w.trace + [Handed(w.cell.conn.value)])
      else
        w.(cell := BeginDial(w.cell), lock := Some(t), tasks := w.tasks[t := InDial], trace := w.trace + [DialBegun])
    case Connected(t, conn) => w.(tasks := w.tasks[t := InHello(conn)])
    case Answered(t) =>
      var conn := w.tasks[t].conn;
      World(Establish(w.cell, conn), None, w.tasks - {t}, w.trace + [HelloAnswered(conn), Handed(conn)])
    case Abandon(t) => w.(lock := if w.lock == Some(t) then None else w.lock, tasks := w.tasks - {t})
    case Clear(t) =>
      World(w.cell.(conn := None), None, w.tasks[t := Publish], w.trace + [Cleared(w.cell.conn)])
    case Announce(t) => w.(cell := SetState(w.cell, Reconnecting), tasks := w.tasks - {t})
  }

  function Exec(acts: seq<Action>): Option<World> {
    if acts == [] then Some(INIT) else
    var before := Exec(acts[..|acts| - 1]);
    if before.Some? && Enabled(before.value, acts[|acts| - 1]) then Some(Step(before.value, acts[|acts| - 1])) else None
  }

  // ---- What the history says ----

  function Establishments(trace: seq<Event>): nat {
    if trace == [] then 0 else Establishments(trace[..|trace| - 1]) + if trace[|trace| - 1].HelloAnswered? then 1 else 0
  }

  function Invalidations(trace: seq<Event>): nat {
    if trace == [] then 0 else Invalidations(trace[..|trace| - 1]) + if trace[|trace| - 1].Cleared? then 1 else 0
  }

  /** Invalidations that found a connection to drop. */
  function Drops(trace: seq<Event>): nat {
    if trace == [] then 0 else
    var e := trace[|trace| - 1];
    Drops(trace[..|trace| - 1]) + if e.Cleared? && e.dropped.Some? then 1 else 0
  }

  /** Dials begun after some connection had been established. */
  function Redials(trace: seq<Event>): nat {
    if trace == [] then 0 else
    var past := trace[..|trace| - 1];
    Redials(past) + if trace[|trace| - 1].DialBegun? && Establishments(past) > 0 then 1 else 0
  }

  predicate Dialer(w: World, t: TaskId) {
    t in w.tasks && (w.tasks[t].InDial? || w.tasks[t].InHello?)
  }

  ghost predicate Locking(w: World) {
    && (forall t: TaskId :: Dialer(w, t) <==> w.lock == Some(t))
    && (w.lock.Some? ==> w.cell.conn.None?)
  }

  ghost predicate Hellos(w: World) {
    && (w.cell.conn.Some? ==> HelloAnswered(w.cell.conn.value) in w.trace)
    && (forall c :: Handed(c) in w.trace ==> HelloAnswered(c) in w.trace)
  }

  ghost predicate Counts(w: World) {
    && Establishments(w.trace) == Drops(w.trace) + (if w.cell.conn.Some? then 1 else 0)
    && Drops(w.trace) <= Invalidations(w.trace)
    && (w.cell.wasEstablished <==> Establishments(w.trace) > 0)
    && w.cell.redials == Redials(w.trace) && w.cell.status.redials == w.cell.redials
  }

  ghost predicate Inv(w: World) {
    Locking(w) && Hellos(w) && Counts(w)
  }

  lemma CountsAppend(trace: seq<Event>, e: Event)
    ensures Establishments(trace + [e]) == Establishments(trace) + if e.HelloAnswered? then 1 else 0
    ensures Invalidations(trace + [e]) == Invalidations(trace) + if e.Cleared? then 1 else 0
    ensures Drops(trace + [e]) == Drops(trace) + if e.Cleared? && e.dropped.Some? then 1 else 0
    ensures Redials(trace + [e]) == Redials(trace) + if e.DialBegun? && Establishments(trace) > 0 then 1 else 0
  {
    assert (trace + [e])[..|trace|] == trace;
  }

  lemma StepKeepsInv(w: World, a: Action)
    requires Inv(w) && Enabled(w, a)
    ensures Inv(Step(w, a))
  {
    hide Establishments, Invalidations, Drops, Redials;
    var w' := Step(w, a);
    match a
    case Lock(t) => CountsAppend(w.trace, if w.cell.conn.Some? then Handed(w.cell.conn.value) else DialBegun);
    case Answered(t) =>
      var c := w.tasks[t].conn;
      assert w'.trace == w.trace + [HelloAnswered(c)] + [Handed(c)];
      assert w'.trace[|w.trace|] == HelloAnswered(c);
      forall d | Handed(d) in w'.trace ensures HelloAnswered(d) in w'.trace {
        if d != c { assert Handed(d) in w.trace; }
      }
      CountsAppend(w.trace, HelloAnswered(c));
      CountsAppend(w.trace + [HelloAnswered(c)], Handed(c));
      assert Dialer(w, t);
    case Clear(t) => CountsAppend(w.trace, Cleared(w.cell.conn));
    case _ =>
  }

  /** In every interleaving of `get`, `invalidate`, failures and cancelled tasks:
      at most one task is dialing; only connections that answered the hello are
      cached or handed out; each establishment beyond the first is paid for by
      an invalidation that dropped its predecessor; `redials`, and what is
      published of it, is the number of dials begun after the first
      establishment. */
  lemma {:induction false} SessionLaws(acts: seq<Action>)
    requires Exec(acts).Some?
    ensures var w := Exec(acts).value;
            && (forall t, u :: Dialer(w, t) && Dialer(w, u) ==> t == u)
            && (w.cell.conn.Some? ==> HelloAnswered(w.cell.conn.value) in w.trace)
            && (forall c :: Handed(c) in w.trace ==> HelloAnswered(c) in w.trace)
            && Establishments(w.trace) == Drops(w.trace) + (if w.cell.conn.Some? then 1 else 0)
            && Establishments(w.trace) <= 1 + Invalidations(w.trace)
            && w.cell.redials == Redials(w.trace) && w.cell.status.redials == Redials(w.trace)
    ensures Inv(Exec(acts).value)
  {
    hide Step, Enabled;
    if acts != [] {
      SessionLaws(acts[..|acts| - 1]);
      StepKeepsInv(Exec(acts[..|acts| - 1]).value, acts[|acts| - 1]);
    }
  }

  // ---- The published status and the cached connection ----

  /** An invalidation was announced after the last answered hello. */
  predicate Late(acts: seq<Action>) {
    acts != [] &&
    match acts[|acts| - 1]
    case Announce(_) => true
    case Answered(_) => false
    case _ => Late(acts[..|acts| - 1])
  }

  /** Since the last answered hello nothing was cleared or announced. */
  predicate Settled(acts: seq<Action>) {
    acts != [] &&
    match acts[|acts| - 1]
    case Answered(_) => true
    case Announce(_) => false
    case Clear(_) => false
    case _ => Settled(acts[..|acts| - 1])
  }

  /** The last established connection was cleared, and since the hello was
      answered no invalidation was announced and no dial begun. */
  predicate Unannounced(acts: seq<Action>) {
    acts != [] &&
    match acts[|acts| - 1]
    case Answered(_) => false
    case Announce(_) => false
    case Lock(_) => false
    case Clear(_) => Settled(acts[..|acts| - 1]) || Unannounced(acts[..|acts| - 1])
    case _ => Unannounced(acts[..|acts| - 1])
  }

  /** What was published last: a dial, an answered hello or an invalidation. */
  function Published(acts: seq<Action>): SessionState {
    if acts == [] then Dialing else
    var front := acts[..|acts| - 1];
    match acts[|acts| - 1]
    case Announce(_) => Reconnecting
    case Answered(_) => Established
    case Lock(_) => if Exec(front).Some? && Exec(front).value.cell.conn.None? then Dialing else Published(front)
    case _ => Published(front)
  }

  lemma {:induction false} StatusIsTheLastPublished(acts: seq<Action>)
    requires Exec(acts).Some?
    ensures Exec(acts).value.cell.status.state == Published(acts)
  {
    if acts != [] {
      StatusIsTheLastPublished(acts[..|acts| - 1]);
    }
  }

  /** Exactly when the status is wrong, in every interleaving. Over a cached
      connection it says Established, or Reconnecting if and only if an
      invalidation was announced after the connection was established; with
      none cached it says Established if and only if the invalidation that
      cleared it has been neither announced nor dialed over. */
  lemma {:induction false} StatusIsWrongExactlyWhen(acts: seq<Action>)
    requires Exec(acts).Some?
    ensures var cell := Exec(acts).value.cell;
            && (cell.conn.Some? ==> (cell.status.state.Reconnecting? <==> Late(acts)))
            && (cell.conn.Some? ==> (cell.status.state.Established? <==> !Late(acts)))
            && (cell.conn.Some? && cell.status.state.Established? <==> Settled(acts))
            && (cell.conn.None? && cell.status.state.Established? <==> Unannounced(acts))
  {
    if acts != [] {
      StatusIsWrongExactlyWhen(acts[..|acts| - 1]);
    }
  }

  ghost predicate Reachable(w: World) {
    exists acts :: Exec(acts) == Some(w)
  }

  lemma ReachStep(w: World, a: Action) returns (w': World)
    requires Reachable(w) && Enabled(w, a)
    ensures w' == Step(w, a) && Reachable(w')
  {
    var acts :| Exec(acts) == Some(w);
    assert (acts + [a])[..|acts|] == acts;
    w' := Step(w, a);
    assert Exec(acts + [a]) == Some(w');
  }

  /** The published status does not follow the cached connection: a task that
      publishes late can announce Reconnecting over a live connection. */
  lemma StatusMayLagBehind() returns (w: World)
    ensures Reachable(w) && w.cell.conn.Some? && w.cell.status.state.Reconnecting?
  {
    hide Exec, Reachable;
    w := Start();
    w := ReachStep(w, CallInvalidate(0));
    w := ReachStep(w, Clear(0));
    w := ReachStep(w, CallGet(1));
    w := ReachStep(w, Lock(1));
    w := ReachStep(w, Connected(1, 7));
    w := ReachStep(w, Answered(1));
    w := ReachStep(w, Announce(0));
  }

  /** And the other way round: a connection was cleared, and until that is
      announced the status still says Established. */
  lemma EstablishedOverNone() returns (w: World)
    ensures Reachable(w) && w.cell.conn.None? && w.cell.status.state.Established?
  {
    hide Exec, Reachable;
    w := Start();
    w := ReachStep(w, CallGet(0));
    w := ReachStep(w, Lock(0));
    w := ReachStep(w, Connected(0, 7));
    w := ReachStep(w, Answered(0));
    w := ReachStep(w, CallInvalidate(0));
    w := ReachStep(w, Clear(0));
  }

  lemma Start() returns (w: World)
    ensures w == INIT && Reachable(w)
  {
    w := INIT;
    assert Exec([]) == Some(w);
  }
}

/** Connection registry, its event queue and the view model of the connect
    screen (tmite-core/src/client/model.rs). */
module ConnModel {
  import opened Prelude

  /** Bytes client to remote, and remote to client. */
  datatype Count = Count(tx: nat, rx: nat)

  const ZERO := Count(0, 0)

  predicate Le(a: Count, b: Count) {
    a.tx <= b.tx && a.rx <= b.rx
  }

  function Plus(a: Count, b: Count): Count {
    Count(a.tx + b.tx, a.rx + b.rx)
  }

  datatype UiEvent =
    | Opened(id: nat, peer: string, spec: nat)
    | Bytes(id: nat, count: Count)
    | Closed(id: nat)

  datatype ConnRow = ConnRow(id: nat, peer: string, spec: nat, count: Count)

  /** The part of `ConnectModel` that connection events change; `forwards` is
      the number of configured listeners. */
  datatype View = View(forwards: nat, rows: seq<ConnRow>, closedTotal: nat, total: Count)

  function RowIndex(rows: seq<ConnRow>, id: nat): (i: nat)
    ensures i <= |rows| && (i < |rows| ==> rows[i].id == id)
    ensures forall k :: 0 <= k < i ==> rows[k].id != id
  {
    if rows == [] || rows[0].id == id then 0 else 1 + RowIndex(rows[1..], id)
  }

  function Without(rows: seq<ConnRow>, id: nat): seq<ConnRow> {
    Filter(rows, (r: ConnRow) => r.id != id)
  }

  /** `ConnectModel::apply` on a connection event. */
  function Apply(v: View, e: UiEvent): View {
    match e
    case Opened(id, peer, spec) =>
      if spec < v.forwards then v.(rows := v.rows + [ConnRow(id, peer, spec, ZERO)]) else v
    case Bytes(id, count) =>
      var i := RowIndex(v.rows, id);
      if i < |v.rows| then v.(rows := v.rows[i := v.rows[i].(count := count)]) else v
    case Closed(id) =>
      var i := RowIndex(v.rows, id);
      View(v.forwards, Without(v.rows, id), v.closedTotal + 1,
           if i < |v.rows| then Plus(v.total, v.rows[i].count) else v.total)
  }

  function RowsOf(rows: seq<ConnRow>, spec: nat): nat {
    if rows == [] then 0 else RowsOf(rows[..|rows| - 1], spec) + if rows[|rows| - 1].spec == spec then 1 else 0
  }

  function SumNat(s: seq<nat>): nat {
    if s == [] then 0 else SumNat(s[..|s| - 1]) + s[|s| - 1]
  }

  lemma {:induction false} SumNatUpdate(s: seq<nat>, i: nat, x: nat)
    requires i < |s|
    ensures SumNat(s[i := x]) == SumNat(s) - s[i] + x
  {
    var n := |s| - 1;
    if i < n {
      assert s[i := x][..n] == s[..n][i := x];
      SumNatUpdate(s[..n], i, x);
    } else {
      assert s[i := x][..n] == s[..n];
    }
  }

  class ConnectModel {
    var view: View

    constructor (forwards: nat)
      ensures view == View(forwards, [], 0, ZERO)
    {
      view := View(forwards, [], 0, ZERO);
    }

    method ApplyEvent(event: UiEvent)
      modifies this
      ensures view == Apply(old(view), event)
    {
      match event
      case Opened(id, peer, spec) =>
        if spec < view.forwards {
          view := view.(rows := view.rows + [ConnRow(id, peer, spec, ZERO)]);
        }
      case Bytes(id, count) =>
        var i := RowIndex(view.rows, id);
        if i < |view.rows| {
          view := view.(rows := view.rows[i := view.rows[i].(count := count)]);
        }
      case Closed(id) =>
        var i := RowIndex(view.rows, id);
        if i < |view.rows| {
          view := view.(total := Plus(view.total, view.rows[i].count));
        }
        view := view.(rows := Without(view.rows, id));
        view := view.(closedTotal := view.closedTotal + 1);
    }

    /** `active_per_forward`: every row is counted once, under its own forward. */
    method ActivePerForward() returns (counts: seq<nat>)
      ensures |counts| == view.forwards
      ensures forall f :: 0 <= f < view.forwards ==> counts[f] == RowsOf(view.rows, f)
      ensures (forall i :: 0 <= i < |view.rows| ==> view.rows[i].spec < view.forwards) ==>
                SumNat(counts) == |view.rows|
    {
      counts := seq(view.forwards, _ => 0);
      ZeroSum(counts);
      ghost var counted := 0;
      for i := 0 to |view.rows|
        invariant |counts| == view.forwards
        invariant forall f :: 0 <= f < view.forwards ==> counts[f] == RowsOf(view.rows[..i], f)
        invariant SumNat(counts) == counted
        invariant (forall k :: 0 <= k < i ==> view.rows[k].spec < view.forwards) ==> counted == i
      {
        var spec := view.rows[i].spec;
        assert view.rows[..i + 1][..i] == view.rows[..i];
        if spec < |counts| {
          SumNatUpdate(counts, spec, counts[spec] + 1);
          counts := counts[spec := counts[spec] + 1];
          counted := counted + 1;
        }
      }
      assert view.rows[..|view.rows|] == view.rows;
    }
  }

  lemma {:induction false} ZeroSum(s: seq<nat>)
    requires forall i :: 0 <= i < |s| ==> s[i] == 0
    ensures SumNat(s) == 0
  {
    if s != [] { ZeroSum(s[..|s| - 1]); }
  }

  // ---- The registry ----

  class ConnHandle {
    const id: nat
    const spec: nat
    const peer: string
    var count: Count
    var started: bool

    constructor (id: nat, spec: nat, peer: string)
      ensures this.id == id && this.spec == spec && this.peer == peer && count == ZERO && !started
    {
      this.id, this.spec, this.peer := id, spec, peer;
      count, started := ZERO, false;
    }
  }

  class ConnRegistry {
    var nextId: nat
    var conns: map<nat, ConnHandle>
    var events: seq<UiEvent>

    ghost predicate Valid()
      reads this
    {
      forall id :: id in conns ==> id < nextId && conns[id].id == id
    }

    constructor ()
      ensures Valid() && nextId == 0 && conns == map[] && events == []
    {
      nextId, conns, events := 0, map[], [];
    }

    /** Ids are never reused; nothing is announced yet. */
    method Create(spec: nat, peer: string) returns (h: ConnHandle)
      requires Valid()
      modifies this`nextId, this`conns
      ensures Valid() && fresh(h) && !h.started && h.count == ZERO
      ensures h.id == old(nextId) && h.spec == spec && h.peer == peer
      ensures h.id !in old(conns) && conns == old(conns)[h.id := h] && nextId == old(nextId) + 1
    {
      h := new ConnHandle(nextId, spec, peer);
      nextId := nextId + 1;
      conns := conns[h.id := h];
    }

    /** Announced at most once, however often it is admitted. */
    method Admit(h: ConnHandle)
      requires Valid()
      modifies this`events, h`started
      ensures Valid() && h.started
      ensures events == old(events) + if old(h.started) then [] else [Opened(h.id, h.peer, h.spec)]
    {
      if !h.started {
        h.started := true;
        events := events + [Opened(h.id, h.peer, h.spec)];
      }
    }

    /** Closed at most once, also for a handle that was never admitted. */
    method Close(h: ConnHandle)
      requires Valid()
      modifies this`conns, this`events
      ensures Valid() && conns == old(conns) - {h.id}
      ensures events == old(events) + if h.id in old(conns) then [Closed(h.id)] else []
    {
      if h.id in conns {
        conns := conns - {h.id};
        events := events + [Closed(h.id)];
      } else {
        assert conns == conns - {h.id};
      }
    }
  }

  // ---- Tasks, queue and screen together ----

  /** Where a proxied connection is between `create` and the end of `close`.
      `Flagged`: `started` is set, the Opened event is not sent yet.
      `Dropped`: out of the registry, the Closed event is not sent yet. */
  datatype Phase = Fresh | Flagged | Announced | Dropped(announced: bool) | Gone(announced: bool)

  /** The real byte counters stay with the handle. */
  datatype Handle = Handle(peer: string, spec: nat, count: Count, phase: Phase)

  predicate Registered(h: Handle) {
    h.phase.Fresh? || h.phase.Flagged? || h.phase.Announced?
  }

  predicate Started(h: Handle) {
    h.phase.Flagged? || h.phase.Announced?
  }

  predicate WasAnnounced(h: Handle) {
    h.phase.Announced? || ((h.phase.Dropped? || h.phase.Gone?) && h.phase.announced)
  }

  /** Handle ids are positions, so `next_id` is `|handles|`. `tick` is what is
      left to send of the byte snapshot; `shown` is, per id, the count that the
      view last showed for it. */
  datatype World = World(handles: seq<Handle>, queue: seq<UiEvent>, tick: seq<(nat, Count)>, view: View, shown: seq<Count>)

  function Init(forwards: nat): World {
    World([], [], [], View(forwards, [], 0, ZERO), [])
  }

  datatype Action =
    | Create(spec: nat, peer: string)
    | SetStarted(id: nat)
    | SendOpened(id: nat)
    | Pump(id: nat, more: Count)
    | Remove(id: nat)
    | SendClosed(id: nat)
    | TickSnapshot(ids: seq<nat>)
    | TickSend
    | Drain

  predicate Enabled(w: World, a: Action) {
    match a
    case Create(_, _) => true
    case SetStarted(id) => id < |w.handles| && w.handles[id].phase.Fresh?
    case SendOpened(id) => id < |w.handles| && w.handles[id].phase.Flagged?
    case Pump(id, _) => id < |w.handles| && w.handles[id].phase.Announced?
    case Remove(id) => id < |w.handles| && (w.handles[id].phase.Fresh? || w.handles[id].phase.Announced?)
    case SendClosed(id) => id < |w.handles| && w.handles[id].phase.Dropped?
    case TickSnapshot(ids) =>
      && w.tick == []
      && (forall i :: 0 <= i < |ids| ==> ids[i] < |w.handles| && Registered(w.handles[ids[i]]) && Started(w.handles[ids[i]]))
      && (forall i, j :: 0 <= i < j < |ids| ==> ids[i] != ids[j])
    case TickSend => w.tick != []
    case Drain => w.queue != []
  }

  function SetPhase(w: World, id: nat, phase: Phase): World
    requires id < |w.handles|
  {
    w.(handles := w.handles[id := w.handles[id].(phase := phase)])
  }

  /** The view shows a new count for an id only while it has a row for it. */
  function ShownAfter(w: World, e: UiEvent): seq<Count> {
    if e.Bytes? && e.id < |w.shown| && RowIndex(w.view.rows, e.id) < |w.view.rows| then w.shown[e.id := e.count] else w.shown
  }

  function Step(w: World, a: Action): World
    requires Enabled(w, a)
  {
    match a
    case Create(spec, peer) =>
      w.(handles := w.handles + [Handle(peer, spec, ZERO, Fresh)], shown := w.shown + [ZERO])
    case SetStarted(id) => SetPhase(w, id, Flagged)
    case SendOpened(id) =>
      SetPhase(w, id, Announced).(queue := w.queue + [Opened(id, w.handles[id].peer, w.handles[id].spec)])
    case Pump(id, more) => w.(handles := w.handles[id := w.handles[id].(count := Plus(w.handles[id].count, more))])
    case Remove(id) => SetPhase(w, id, Dropped(w.handles[id].phase.Announced?))
    case SendClosed(id) => SetPhase(w, id, Gone(w.handles[id].phase.announced)).(queue := w.queue + [Closed(id)])
    case TickSnapshot(ids) =>
      w.(tick := seq(|ids|, i requires 0 <= i < |ids| && ids[i] < |w.handles| => (ids[i], w.handles[ids[i]].count)))
    case TickSend => w.(queue := w.queue + [Bytes(w.tick[0].0, w.tick[0].1)], tick := w.tick[1..])
    case Drain => w.(queue := w.queue[1..], view := Apply(w.view, w.queue[0]), shown := ShownAfter(w, w.queue[0]))
  }

  /** `None` when some action of the run is not possible. */
  function Exec(forwards: nat, acts: seq<Action>): Option<World> {
    if acts == [] then Some(Init(forwards)) else
    var before := Exec(forwards, acts[..|acts| - 1]);
    if before.Some? && Enabled(before.value, acts[|acts| - 1]) then Some(Step(before.value, acts[|acts| - 1])) else None
  }
}

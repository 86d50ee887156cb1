/** What every run of the registry, the queue and the view keeps. */
module ConnModelRuns {
  import opened Prelude
  import opened ConnModel

  // ---- Sums ----

  function Sum(s: seq<Count>): Count {
    if s == [] then ZERO else Plus(Sum(s[..|s| - 1]), s[|s| - 1])
  }

  function SumRows(rows: seq<ConnRow>): Count {
    if rows == [] then ZERO else Plus(SumRows(rows[..|rows| - 1]), rows[|rows| - 1].count)
  }

  function SumHandles(hs: seq<Handle>): Count {
    if hs == [] then ZERO else Plus(SumHandles(hs[..|hs| - 1]), hs[|hs| - 1].count)
  }

  lemma {:induction false} SumUpdate(s: seq<Count>, i: nat, c: Count)
    requires i < |s|
    ensures Plus(Sum(s[i := c]), s[i]) == Plus(Sum(s), c)
  {
    var n := |s| - 1;
    if i < n {
      assert s[i := c][..n] == s[..n][i := c];
      SumUpdate(s[..n], i, c);
    } else {
      assert s[i := c][..n] == s[..n];
    }
  }

  lemma {:induction false} SumRowsUpdate(rows: seq<ConnRow>, i: nat, r: ConnRow)
    requires i < |rows|
    ensures Plus(SumRows(rows[i := r]), rows[i].count) == Plus(SumRows(rows), r.count)
  {
    var n := |rows| - 1;
    if i < n {
      assert rows[i := r][..n] == rows[..n][i := r];
      SumRowsUpdate(rows[..n], i, r);
    } else {
      assert rows[i := r][..n] == rows[..n];
    }
  }

  ghost predicate DistinctIds(rows: seq<ConnRow>) {
    forall i, j :: 0 <= i < j < |rows| ==> rows[i].id != rows[j].id
  }

  lemma {:induction false} WithoutAbsent(rows: seq<ConnRow>, id: nat)
    requires forall i :: 0 <= i < |rows| ==> rows[i].id != id
    ensures Without(rows, id) == rows
  {
    FilterKeepsAll(rows, (r: ConnRow) => r.id != id);
    forall x | x in rows ensures x.id != id { }
  }

  lemma WithoutLast(rows: seq<ConnRow>, id: nat)
    requires rows != []
    ensures var n := |rows| - 1;
            Without(rows, id) == Without(rows[..n], id) + if rows[n].id != id then [rows[n]] else []
  {
  }

  lemma DropInFront(rows: seq<ConnRow>, i: nat)
    requires i < |rows| - 1
    ensures var n := |rows| - 1;
            var front := rows[..n];
            rows[..i] + rows[i + 1..] == (front[..i] + front[i + 1..]) + [rows[n]]
  {
  }

  /** Removing an id takes away its one row and nothing else. */
  lemma {:induction false} WithoutRow(rows: seq<ConnRow>, id: nat)
    requires DistinctIds(rows)
    ensures var i := RowIndex(rows, id);
            Without(rows, id) == if i < |rows| then rows[..i] + rows[i + 1..] else rows
    decreases |rows|
  {
    hide Without;
    var i := RowIndex(rows, id);
    if i == |rows| {
      WithoutAbsent(rows, id);
    } else {
      var n := |rows| - 1;
      var front := rows[..n];
      WithoutLast(rows, id);
      if i == n {
        WithoutAbsent(front, id);
        assert rows[..i] + rows[i + 1..] == front;
      } else {
        assert RowIndex(front, id) == i;
        WithoutRow(front, id);
        DropInFront(rows, i);
      }
    }
  }

  lemma SumRowsAppend(rows: seq<ConnRow>, r: ConnRow)
    ensures SumRows(rows + [r]) == Plus(SumRows(rows), r.count)
  {
    assert (rows + [r])[..|rows|] == rows;
  }

  lemma {:induction false} SumRowsRemove(rows: seq<ConnRow>, i: nat)
    requires i < |rows|
    ensures SumRows(rows) == Plus(SumRows(rows[..i] + rows[i + 1..]), rows[i].count)
  {
    var n := |rows| - 1;
    if i == n {
      assert rows[..i] + rows[i + 1..] == rows[..n];
    } else {
      var front := rows[..n];
      var rest := front[..i] + front[i + 1..];
      SumRowsRemove(front, i);
      DropInFront(rows, i);
      SumRowsAppend(rest, rows[n]);
    }
  }

  lemma {:induction false} SumBounded(s: seq<Count>, hs: seq<Handle>)
    requires |s| == |hs| && forall i :: 0 <= i < |s| ==> Le(s[i], hs[i].count)
    ensures Le(Sum(s), SumHandles(hs))
  {
    if s != [] {
      SumBounded(s[..|s| - 1], hs[..|s| - 1]);
    }
  }

  function OpenCount(hs: seq<Handle>): nat {
    if hs == [] then 0 else OpenCount(hs[..|hs| - 1]) + if hs[|hs| - 1].phase.Gone? then 0 else 1
  }

  function ClosedIn(q: seq<UiEvent>): nat {
    if q == [] then 0 else ClosedIn(q[..|q| - 1]) + if q[|q| - 1].Closed? then 1 else 0
  }

  lemma {:induction false} OpenCountUpdate(hs: seq<Handle>, i: nat, h: Handle)
    requires i < |hs|
    ensures OpenCount(hs[i := h]) == OpenCount(hs) - (if hs[i].phase.Gone? then 0 else 1) + if h.phase.Gone? then 0 else 1
  {
    var n := |hs| - 1;
    if i < n {
      assert hs[i := h][..n] == hs[..n][i := h];
      OpenCountUpdate(hs[..n], i, h);
    } else {
      assert hs[i := h][..n] == hs[..n];
    }
  }

  lemma {:induction false} ClosedInTail(q: seq<UiEvent>)
    requires q != []
    ensures ClosedIn(q) == (if q[0].Closed? then 1 else 0) + ClosedIn(q[1..])
  {
    var n := |q| - 1;
    if n > 0 {
      ClosedInTail(q[..n]);
      assert q[..n][1..] == q[1..][..n - 1];
    }
  }

  // ---- One connection at a time ----

  /** Everything the world knows about one id. */
  datatype Local = Local(h: Handle, q: seq<UiEvent>, tick: Option<Count>, row: Option<ConnRow>, shown: Count)

  function About(q: seq<UiEvent>, id: nat): seq<UiEvent> {
    Filter(q, (e: UiEvent) => e.id == id)
  }

  function TickOf(tick: seq<(nat, Count)>, id: nat): (r: Option<Count>)
    ensures r.Some? ==> (id, r.value) in tick
    ensures r.None? ==> forall k :: 0 <= k < |tick| ==> tick[k].0 != id
  {
    if tick == [] then None else if tick[0].0 == id then Some(tick[0].1) else TickOf(tick[1..], id)
  }

  function RowOf(rows: seq<ConnRow>, id: nat): Option<ConnRow> {
    var i := RowIndex(rows, id);
    if i < |rows| then Some(rows[i]) else None
  }

  function LocalOf(w: World, id: nat): Local
    requires id < |w.handles| == |w.shown|
  {
    Local(w.handles[id], About(w.queue, id), TickOf(w.tick, id), RowOf(w.view.rows, id), w.shown[id])
  }

  predicate OpenPending(q: seq<UiEvent>) {
    exists k :: 0 <= k < |q| && q[k].Opened?
  }

  predicate ClosePending(q: seq<UiEvent>) {
    exists k :: 0 <= k < |q| && q[k].Closed?
  }

  /** Byte counts only grow on their way from the counter to the screen:
      counter, snapshot in progress, queue from back to front, view. */
  ghost predicate Flow(l: Local) {
    && Le(l.shown, l.h.count)
    && (l.tick.Some? ==> Le(l.shown, l.tick.value) && Le(l.tick.value, l.h.count))
    && (forall k :: 0 <= k < |l.q| && l.q[k].Bytes? ==>
          Le(l.shown, l.q[k].count) && Le(l.q[k].count, if l.tick.Some? then l.tick.value else l.h.count))
    && (forall k, m :: 0 <= k < m < |l.q| && l.q[k].Bytes? && l.q[m].Bytes? ==> Le(l.q[k].count, l.q[m].count))
  }

  /** Opened at most once, then Closed at most once, and what the row shows. */
  ghost predicate Lifecycle(l: Local, forwards: nat) {
    && (!WasAnnounced(l.h) ==> l.shown == ZERO && l.row.None? && !OpenPending(l.q))
    && (OpenPending(l.q) ==> l.row.None? && l.shown == ZERO)
    && (forall k :: 0 <= k < |l.q| && l.q[k].Opened? ==> l.q[k].spec == l.h.spec && l.q[k].peer == l.h.peer)
    && (forall k, m :: 0 <= k < m < |l.q| && l.q[m].Opened? ==> l.q[k].Bytes?)
    && (ClosePending(l.q) ==> l.h.phase.Gone?)
    && (forall k, m :: 0 <= k < m < |l.q| && l.q[k].Closed? ==> l.q[m].Bytes?)
    && (l.row.Some? ==> l.row.value.count == l.shown && l.row.value.spec == l.h.spec < forwards && l.row.value.peer == l.h.peer)
    && (l.h.phase.Gone? && (l.row.Some? || OpenPending(l.q)) ==> ClosePending(l.q))
    && (WasAnnounced(l.h) && !l.h.phase.Gone? ==> l.row.Some? || OpenPending(l.q) || l.h.spec >= forwards)
  }

  ghost predicate Ids(w: World) {
    && |w.shown| == |w.handles|
    && (forall k :: 0 <= k < |w.queue| ==> w.queue[k].id < |w.handles|)
    && (forall k :: 0 <= k < |w.tick| ==> w.tick[k].0 < |w.handles|)
    && (forall k, m :: 0 <= k < m < |w.tick| ==> w.tick[k].0 != w.tick[m].0)
    && (forall i :: 0 <= i < |w.view.rows| ==> w.view.rows[i].id < |w.handles|)
    && DistinctIds(w.view.rows)
  }

  ghost predicate Each(w: World)
    requires Ids(w)
  {
    forall id :: 0 <= id < |w.handles| ==> Flow(LocalOf(w, id)) && Lifecycle(LocalOf(w, id), w.view.forwards)
  }

  ghost predicate Totals(w: World) {
    && |w.handles| == OpenCount(w.handles) + w.view.closedTotal + ClosedIn(w.queue)
    && Sum(w.shown) == Plus(w.view.total, SumRows(w.view.rows))
  }

  ghost predicate Inv(w: World) {
    Ids(w) && Each(w) && Totals(w)
  }

  // ---- How a step changes one connection ----

  lemma AboutSend(q: seq<UiEvent>, e: UiEvent, id: nat)
    ensures About(q + [e], id) == About(q, id) + if e.id == id then [e] else []
  {
    assert (q + [e])[..|q|] == q;
  }

  lemma {:induction false} AboutDrain(q: seq<UiEvent>, id: nat)
    requires q != []
    ensures About(q, id) == (if q[0].id == id then [q[0]] else []) + About(q[1..], id)
  {
    var n := |q| - 1;
    if n == 0 {
      assert q[..0] == [] && q[1..] == [];
    } else {
      AboutDrain(q[..n], id);
      assert q[..n][1..] == q[1..][..n - 1];
      assert q[1..][n - 1] == q[n];
    }
  }

  lemma {:induction false} AboutUnknown(q: seq<UiEvent>, id: nat)
    requires forall k :: 0 <= k < |q| ==> q[k].id != id
    ensures About(q, id) == []
  {
    if q != [] { AboutUnknown(q[..|q| - 1], id); }
  }

  lemma RowOfAppend(rows: seq<ConnRow>, r: ConnRow, id: nat)
    requires RowOf(rows, r.id).None?
    ensures RowOf(rows + [r], id) == if id == r.id then Some(r) else RowOf(rows, id)
  {
    var more := rows + [r];
    assert more[|rows|] == r && forall k :: 0 <= k < |rows| ==> more[k] == rows[k];
    NoRowNoIndex(rows, r.id);
    var i := RowIndex(rows, id);
    if i < |rows| {
      assert RowIndex(more, id) == i;
    } else if id == r.id {
      assert RowIndex(more, id) == |rows|;
    } else {
      assert RowIndex(more, id) == |more|;
    }
  }

  lemma RowOfUpdate(rows: seq<ConnRow>, c: Count, i: nat, id: nat)
    requires DistinctIds(rows) && i < |rows|
    ensures RowOf(rows[i := rows[i].(count := c)], id) ==
            if id == rows[i].id then Some(rows[i].(count := c)) else RowOf(rows, id)
  {
    var rows' := rows[i := rows[i].(count := c)];
    assert forall k :: 0 <= k < |rows| ==> rows'[k].id == rows[k].id;
    assert RowIndex(rows', id) == RowIndex(rows, id);
    if id == rows[i].id { assert RowIndex(rows, id) == i; }
  }

  lemma RowOfRemove(rows: seq<ConnRow>, i: nat, id: nat)
    requires DistinctIds(rows) && i < |rows|
    ensures var less := rows[..i] + rows[i + 1..];
            DistinctIds(less) && RowOf(less, id) == if id == rows[i].id then None else RowOf(rows, id)
  {
    var less := rows[..i] + rows[i + 1..];
    assert forall k :: 0 <= k < |less| ==> less[k] == rows[if k < i then k else k + 1];
    var j := RowIndex(rows, id);
    if id == rows[i].id {
      assert forall k :: 0 <= k < |less| ==> less[k].id != id;
    } else if j < |rows| {
      var at := if j < i then j else j - 1;
      assert less[at] == rows[j];
      assert RowIndex(less, id) == at;
    } else {
      assert RowIndex(less, id) == |less|;
    }
  }

  lemma RowOfWithout(rows: seq<ConnRow>, gone: nat, id: nat)
    requires DistinctIds(rows)
    ensures RowOf(Without(rows, gone), id) == if id == gone then None else RowOf(rows, id)
    ensures DistinctIds(Without(rows, gone))
  {
    hide Without, DistinctIds, RowOf;
    WithoutRow(rows, gone);
    RowAtIndex(rows, gone);
    var i := RowIndex(rows, gone);
    if i < |rows| {
      RowOfRemove(rows, i, id);
    }
  }

  // ---- Every step keeps the invariant ----

  /** What each event does to the connection it is about. */
  lemma OpenedSent(l: Local, l': Local, e: UiEvent, forwards: nat)
    requires Flow(l) && Lifecycle(l, forwards) && l.h.phase.Flagged? && e.Opened? && e.spec == l.h.spec && e.peer == l.h.peer
    requires l' == l.(h := l.h.(phase := Announced), q := l.q + [e])
    ensures Flow(l') && Lifecycle(l', forwards)
  {
    PendingSend(l.q, e);
  }

  lemma ClosedSent(l: Local, l': Local, e: UiEvent, forwards: nat)
    requires Flow(l) && Lifecycle(l, forwards) && l.h.phase.Dropped? && e.Closed?
    requires l' == l.(h := l.h.(phase := Gone(l.h.phase.announced)), q := l.q + [e])
    ensures Flow(l') && Lifecycle(l', forwards)
  {
    PendingSend(l.q, e);
  }

  lemma BytesSent(l: Local, l': Local, e: UiEvent, forwards: nat)
    requires Flow(l) && Lifecycle(l, forwards) && e.Bytes? && l.tick == Some(e.count)
    requires l' == l.(q := l.q + [e], tick := None)
    ensures Flow(l') && Lifecycle(l', forwards)
  {
    PendingSend(l.q, e);
  }

  lemma OpenedDrained(l: Local, l': Local, forwards: nat)
    requires Flow(l) && Lifecycle(l, forwards) && l.q != [] && l.q[0].Opened?
    requires var e := l.q[0];
             l' == l.(q := l.q[1..], row := if e.spec < forwards then Some(ConnRow(e.id, e.peer, e.spec, ZERO)) else l.row)
    ensures l.row.None? && Flow(l') && Lifecycle(l', forwards)
  {
    PendingTail(l.q);
  }

  lemma BytesDrained(l: Local, l': Local, forwards: nat)
    requires Flow(l) && Lifecycle(l, forwards) && l.q != [] && l.q[0].Bytes?
    requires l' == if l.row.None? then l.(q := l.q[1..])
                   else l.(q := l.q[1..], row := Some(l.row.value.(count := l.q[0].count)), shown := l.q[0].count)
    ensures Flow(l') && Lifecycle(l', forwards)
  {
    PendingTail(l.q);
  }

  lemma OneSound(w: World, id: nat)
    requires Ids(w) && Each(w) && id < |w.handles|
    ensures Flow(LocalOf(w, id)) && Lifecycle(LocalOf(w, id), w.view.forwards)
  {
  }

  /** If only `id` changes and stays sound, all connections stay sound. */
  lemma OnlyOne(w: World, w': World, id: nat)
    requires Ids(w) && Ids(w') && Each(w) && |w'.handles| == |w.handles| && id < |w.handles|
    requires w'.view.forwards == w.view.forwards
    requires forall x :: 0 <= x < |w.handles| && x != id ==> LocalOf(w', x) == LocalOf(w, x)
    requires Flow(LocalOf(w', id)) && Lifecycle(LocalOf(w', id), w'.view.forwards)
    ensures Each(w')
  {
  }

  lemma CreateKeepsInv(w: World, spec: nat, peer: string)
    requires Inv(w)
    ensures Inv(Step(w, Create(spec, peer)))
  {
    var w' := Step(w, Create(spec, peer));
    var n := |w.handles|;
    assert w'.handles[..n] == w.handles && w'.shown[..n] == w.shown;
    forall id | 0 <= id <= n ensures Flow(LocalOf(w', id)) && Lifecycle(LocalOf(w', id), w'.view.forwards) {
      if id < n {
        assert LocalOf(w', id) == LocalOf(w, id);
      } else {
        AboutUnknown(w.queue, n);
      }
    }
  }

  /** Steps that only move a handle forward. */
  lemma HandleKeepsInv(w: World, a: Action)
    requires Inv(w) && Enabled(w, a) && (a.SetStarted? || a.Pump? || a.Remove?)
    ensures Inv(Step(w, a))
  {
    hide SumRows, Sum, About, TickOf, RowOf, Without;
    var w' := Step(w, a);
    OpenCountUpdate(w.handles, a.id, w'.handles[a.id]);
    var l, l' := LocalOf(w, a.id), LocalOf(w', a.id);
    assert l' == l.(h := w'.handles[a.id]);
    OnlyOne(w, w', a.id);
  }

  lemma SendOpenedKeepsInv(w: World, id: nat)
    requires Inv(w) && Enabled(w, SendOpened(id))
    ensures Inv(Step(w, SendOpened(id)))
  {
    hide SumRows, Sum, About, TickOf, RowOf, Without, Flow, Lifecycle, Each;
    var w' := Step(w, SendOpened(id));
    var e := w'.queue[|w.queue|];
    assert w'.queue[..|w.queue|] == w.queue;
    OpenCountUpdate(w.handles, id, w'.handles[id]);
    forall x | 0 <= x < |w.handles| ensures About(w'.queue, x) == About(w.queue, x) + if x == id then [e] else [] {
      AboutSend(w.queue, e, x);
    }
    OneSound(w, id);
    OpenedSent(LocalOf(w, id), LocalOf(w', id), e, w.view.forwards);
    OnlyOne(w, w', id);
  }

  lemma SendClosedKeepsInv(w: World, id: nat)
    requires Inv(w) && Enabled(w, SendClosed(id))
    ensures Inv(Step(w, SendClosed(id)))
  {
    hide SumRows, Sum, About, TickOf, RowOf, Without, Flow, Lifecycle, Each;
    var w' := Step(w, SendClosed(id));
    var e := Closed(id);
    assert w'.queue[..|w.queue|] == w.queue;
    OpenCountUpdate(w.handles, id, w'.handles[id]);
    forall x | 0 <= x < |w.handles| ensures About(w'.queue, x) == About(w.queue, x) + if x == id then [e] else [] {
      AboutSend(w.queue, e, x);
    }
    OneSound(w, id);
    ClosedSent(LocalOf(w, id), LocalOf(w', id), e, w.view.forwards);
    OnlyOne(w, w', id);
  }

  lemma SnapshotKeepsInv(w: World, ids: seq<nat>)
    requires Inv(w) && Enabled(w, TickSnapshot(ids))
    ensures Inv(Step(w, TickSnapshot(ids)))
  {
    hide SumRows, Sum, About, RowOf, Without;
    var w' := Step(w, TickSnapshot(ids));
    forall id | 0 <= id < |w.handles| ensures Flow(LocalOf(w', id)) && Lifecycle(LocalOf(w', id), w'.view.forwards) {
      var l := LocalOf(w, id);
      var t := TickOf(w'.tick, id);
      if t.Some? {
        var k :| 0 <= k < |w'.tick| && w'.tick[k] == (id, t.value);
        assert t.value == w.handles[id].count;
      }
    }
  }

  lemma TickSendKeepsInv(w: World)
    requires Inv(w) && Enabled(w, TickSend)
    ensures Inv(Step(w, TickSend))
  {
    hide SumRows, Sum, About, RowOf, Without, OpenCount, Flow, Lifecycle, Each;
    var w' := Step(w, TickSend);
    var id, c := w.tick[0].0, w.tick[0].1;
    var e := Bytes(id, c);
    assert w'.queue[..|w.queue|] == w.queue;
    forall x | 0 <= x < |w.handles| ensures About(w'.queue, x) == About(w.queue, x) + if x == id then [e] else [] {
      AboutSend(w.queue, e, x);
    }
    assert TickOf(w'.tick, id).None?;
    OneSound(w, id);
    BytesSent(LocalOf(w, id), LocalOf(w', id), e, w.view.forwards);
    OnlyOne(w, w', id);
  }

  lemma DrainKeepsInv(w: World)
    requires Inv(w) && Enabled(w, Drain)
    ensures Inv(Step(w, Drain))
  {
    var e := w.queue[0];
    ClosedInTail(w.queue);
    match e
    case Opened(_, _, _) => DrainOpened(w);
    case Bytes(_, _) => DrainBytes(w);
    case Closed(_) => DrainClosed(w);
  }

  lemma DrainOpened(w: World)
    requires Inv(w) && Enabled(w, Drain) && w.queue[0].Opened? && ClosedIn(w.queue) == ClosedIn(w.queue[1..])
    ensures Inv(Step(w, Drain))
  {
    hide Ids, Each, Totals;
    DrainOpenedTotals(w);
    DrainOpenedEach(w);
  }

  lemma DrainOpenedTotals(w: World)
    requires Totals(w) && Enabled(w, Drain) && w.queue[0].Opened? && ClosedIn(w.queue) == ClosedIn(w.queue[1..])
    ensures Totals(Step(w, Drain))
  {
    hide OpenCount, ClosedIn, Sum, SumRows, Without, RowIndex;
    var e := w.queue[0];
    SumRowsAppend(w.view.rows, ConnRow(e.id, e.peer, e.spec, ZERO));
  }

  lemma DrainOpenedEach(w: World)
    requires Ids(w) && Each(w) && Enabled(w, Drain) && w.queue[0].Opened?
    ensures Ids(Step(w, Drain)) && Each(Step(w, Drain))
  {
    hide About, TickOf, RowOf, Without, Flow, Lifecycle, Each, RowIndex;
    var w', e := Step(w, Drain), w.queue[0];
    var id := e.id;
    forall x | 0 <= x < |w.handles| ensures About(w.queue, x) == (if x == id then [e] else []) + About(w'.queue, x) {
      AboutDrain(w.queue, x);
    }
    OneSound(w, id);
    var l := LocalOf(w, id);
    assert l.q[0] == e && l.q[1..] == About(w'.queue, id);
    OpenedDrained(l, l.(q := l.q[1..], row := if e.spec < w.view.forwards then Some(ConnRow(id, e.peer, e.spec, ZERO)) else l.row), w.view.forwards);
    if e.spec < w.view.forwards {
      var r := ConnRow(id, e.peer, e.spec, ZERO);
      forall x ensures RowOf(w'.view.rows, x) == if x == id then Some(r) else RowOf(w.view.rows, x) {
        RowOfAppend(w.view.rows, r, x);
      }
      NoRowNoIndex(w.view.rows, id);
      assert w'.view.rows[..|w.view.rows|] == w.view.rows;
    }
    OnlyOne(w, w', id);
  }

  lemma NoRowNoIndex(rows: seq<ConnRow>, id: nat)
    requires RowOf(rows, id).None?
    ensures forall k :: 0 <= k < |rows| ==> rows[k].id != id
  {
  }

  lemma PendingTail(q: seq<UiEvent>)
    requires q != []
    ensures OpenPending(q) <==> q[0].Opened? || OpenPending(q[1..])
    ensures ClosePending(q) <==> q[0].Closed? || ClosePending(q[1..])
  {
    assert forall k :: 0 < k < |q| ==> q[k] == q[1..][k - 1];
  }

  lemma PendingSend(q: seq<UiEvent>, e: UiEvent)
    ensures OpenPending(q + [e]) <==> OpenPending(q) || e.Opened?
    ensures ClosePending(q + [e]) <==> ClosePending(q) || e.Closed?
  {
    assert (q + [e])[|q|] == e && forall k :: 0 <= k < |q| ==> (q + [e])[k] == q[k];
  }

  lemma DrainBytes(w: World)
    requires Inv(w) && Enabled(w, Drain) && w.queue[0].Bytes? && ClosedIn(w.queue) == ClosedIn(w.queue[1..])
    ensures Inv(Step(w, Drain))
  {
    hide Each, Flow, Lifecycle, About, TickOf;
    var w', e := Step(w, Drain), w.queue[0];
    var i := RowIndex(w.view.rows, e.id);
    if i < |w.view.rows| {
      assert w.view.rows[i].count == w.shown[e.id] by { RowShowsShown(w, i); }
      SumRowsUpdate(w.view.rows, i, w'.view.rows[i]);
      SumUpdate(w.shown, e.id, e.count);
    }
    DrainBytesEach(w);
  }

  lemma RowShowsShown(w: World, i: nat)
    requires Ids(w) && Each(w) && i < |w.view.rows|
    ensures w.view.rows[i].count == w.shown[w.view.rows[i].id]
  {
    var id := w.view.rows[i].id;
    assert RowIndex(w.view.rows, id) == i;
    assert Lifecycle(LocalOf(w, id), w.view.forwards);
  }

  lemma RowAtIndex(rows: seq<ConnRow>, id: nat)
    ensures var i := RowIndex(rows, id);
            RowOf(rows, id) == if i < |rows| then Some(rows[i]) else None
  {
  }

  lemma DrainBytesEach(w: World)
    requires Ids(w) && Each(w) && Enabled(w, Drain) && w.queue[0].Bytes?
    ensures Ids(Step(w, Drain)) && Each(Step(w, Drain))
  {
    hide About, TickOf, Without, RowOf, Flow, Lifecycle, Each;
    var w', e := Step(w, Drain), w.queue[0];
    var id := e.id;
    forall x | 0 <= x < |w.handles| ensures About(w.queue, x) == (if x == id then [e] else []) + About(w'.queue, x) {
      AboutDrain(w.queue, x);
    }
    var l, l' := LocalOf(w, id), LocalOf(w', id);
    assert l.q[0] == e && l.q[1..] == l'.q;
    var i := RowIndex(w.view.rows, id);
    if i < |w.view.rows| {
      forall x ensures RowOf(w'.view.rows, x) == if x == id then Some(w.view.rows[i].(count := e.count)) else RowOf(w.view.rows, x) {
        RowOfUpdate(w.view.rows, e.count, i, x);
      }
    }
    RowAtIndex(w.view.rows, id);
    OneSound(w, id);
    BytesDrained(l, l', w.view.forwards);
    OnlyOne(w, w', id);
  }

  lemma DrainClosed(w: World)
    requires Inv(w) && Enabled(w, Drain) && w.queue[0].Closed? && ClosedIn(w.queue) == 1 + ClosedIn(w.queue[1..])
    ensures Inv(Step(w, Drain))
  {
    DrainClosedTotals(w);
    hide Each, Totals;
    DrainClosedEach(w);
  }

  lemma DrainClosedTotals(w: World)
    requires Ids(w) && Totals(w) && Enabled(w, Drain) && w.queue[0].Closed? && ClosedIn(w.queue) == 1 + ClosedIn(w.queue[1..])
    ensures Totals(Step(w, Drain))
  {
    hide OpenCount, ClosedIn, Sum, SumRows, Without, RowIndex;
    var i := RowIndex(w.view.rows, w.queue[0].id);
    WithoutRow(w.view.rows, w.queue[0].id);
    if i < |w.view.rows| {
      SumRowsRemove(w.view.rows, i);
    }
  }

  lemma DrainClosedEach(w: World)
    requires Ids(w) && Each(w) && Enabled(w, Drain) && w.queue[0].Closed?
    ensures Ids(Step(w, Drain)) && Each(Step(w, Drain))
  {
    hide About, TickOf, RowOf, Without;
    var w', e := Step(w, Drain), w.queue[0];
    var id := e.id;
    forall x | 0 <= x < |w.handles| ensures About(w.queue, x) == (if x == id then [e] else []) + About(w'.queue, x) {
      AboutDrain(w.queue, x);
    }
    var l, l' := LocalOf(w, id), LocalOf(w', id);
    assert l.q[0] == e && l.q[1..] == l'.q;
    forall x ensures RowOf(w'.view.rows, x) == if x == id then None else RowOf(w.view.rows, x) {
      RowOfWithout(w.view.rows, id, x);
    }
    RowOfWithout(w.view.rows, id, id);
    WithoutIds(w.view.rows, id, |w.handles|);
    PendingTail(l.q);
    OnlyOne(w, w', id);
  }

  lemma WithoutIds(rows: seq<ConnRow>, id: nat, bound: nat)
    requires forall i :: 0 <= i < |rows| ==> rows[i].id < bound
    ensures forall i :: 0 <= i < |Without(rows, id)| ==> Without(rows, id)[i].id < bound
  {
    forall i | 0 <= i < |Without(rows, id)| ensures Without(rows, id)[i].id < bound {
      assert Without(rows, id)[i] in rows;
    }
  }

  lemma StepKeepsInv(w: World, a: Action)
    requires Inv(w) && Enabled(w, a)
    ensures Inv(Step(w, a))
  {
    match a
    case Create(spec, peer) => CreateKeepsInv(w, spec, peer);
    case SetStarted(_) => HandleKeepsInv(w, a);
    case Pump(_, _) => HandleKeepsInv(w, a);
    case Remove(_) => HandleKeepsInv(w, a);
    case SendOpened(id) => SendOpenedKeepsInv(w, id);
    case SendClosed(id) => SendClosedKeepsInv(w, id);
    case TickSnapshot(ids) => SnapshotKeepsInv(w, ids);
    case TickSend => TickSendKeepsInv(w);
    case Drain => DrainKeepsInv(w);
  }

  lemma EmptyInv(w: World)
    requires |w.handles| == |w.queue| == |w.tick| == |w.view.rows| == |w.shown| == w.view.closedTotal == 0
    requires w.view.total == ZERO
    ensures Inv(w)
  {
  }

  lemma InitInv(forwards: nat)
    ensures Inv(Init(forwards))
  {
    hide Inv;
    EmptyInv(Init(forwards));
  }

  lemma {:induction false} RunsKeepInv(forwards: nat, acts: seq<Action>)
    requires Exec(forwards, acts).Some?
    ensures Inv(Exec(forwards, acts).value)
  {
    hide Inv, Step, Enabled;
    InitInv(forwards);
    if acts != [] {
      RunsKeepInv(forwards, acts[..|acts| - 1]);
      StepKeepsInv(Exec(forwards, acts[..|acts| - 1]).value, acts[|acts| - 1]);
    }
  }

  // ---- What a user of the screen may rely on ----

  function Displayed(v: View): Count {
    Plus(v.total, SumRows(v.rows))
  }

  /** Every connection that was ever accepted is open or its Closed event was
      emitted; once the queue is drained, the closed total and the open
      connections add up to the number of ids handed out, and the rows are
      exactly the announced connections that have not closed. Each row carries
      its connection's peer and forward. */
  lemma ConnectionsAreConserved(forwards: nat, acts: seq<Action>)
    requires Exec(forwards, acts).Some?
    ensures var w := Exec(forwards, acts).value;
            && |w.handles| == OpenCount(w.handles) + (w.view.closedTotal + ClosedIn(w.queue))
            && (w.queue == [] ==> w.view.closedTotal + OpenCount(w.handles) == |w.handles|)
            && (w.queue == [] ==> forall id :: 0 <= id < |w.handles| ==>
                  (RowOf(w.view.rows, id).Some? <==>
                   WasAnnounced(w.handles[id]) && !w.handles[id].phase.Gone? && w.handles[id].spec < w.view.forwards))
            && (forall id :: 0 <= id < |w.handles| && RowOf(w.view.rows, id).Some? ==>
                  RowOf(w.view.rows, id).value.peer == w.handles[id].peer && RowOf(w.view.rows, id).value.spec == w.handles[id].spec)
  {
    RunsKeepInv(forwards, acts);
    var w := Exec(forwards, acts).value;
    forall id | 0 <= id < |w.handles| && RowOf(w.view.rows, id).Some?
      ensures RowOf(w.view.rows, id).value.peer == w.handles[id].peer && RowOf(w.view.rows, id).value.spec == w.handles[id].spec
    {
      assert Lifecycle(LocalOf(w, id), w.view.forwards);
    }
    if w.queue == [] {
      forall id | 0 <= id < |w.handles|
        ensures RowOf(w.view.rows, id).Some? <==>
                WasAnnounced(w.handles[id]) && !w.handles[id].phase.Gone? && w.handles[id].spec < w.view.forwards
      {
        assert Lifecycle(LocalOf(w, id), w.view.forwards);
        assert LocalOf(w, id).q == [];
      }
    }
  }

  /** In both directions, the bytes on display never exceed what the real
      counters add up to, although events may be queued and a snapshot half
      sent while connections come and go. */
  lemma DisplayedNeverExceedsReal(forwards: nat, acts: seq<Action>)
    requires Exec(forwards, acts).Some?
    ensures Le(Displayed(Exec(forwards, acts).value.view), SumHandles(Exec(forwards, acts).value.handles))
  {
    RunsKeepInv(forwards, acts);
    var w := Exec(forwards, acts).value;
    forall id | 0 <= id < |w.handles| ensures Le(w.shown[id], w.handles[id].count) {
      assert Flow(LocalOf(w, id));
    }
    SumBounded(w.shown, w.handles);
  }

  lemma {:induction false} SumMonotone(s: seq<Count>, s': seq<Count>)
    requires |s| <= |s'| && forall i :: 0 <= i < |s| ==> Le(s[i], s'[i])
    ensures Le(Sum(s), Sum(s'))
    decreases |s'|
  {
    if |s'| > |s| {
      SumMonotone(s, s'[..|s'| - 1]);
    } else if s != [] {
      SumMonotone(s[..|s| - 1], s'[..|s'| - 1]);
    }
  }

  /** And they never go down from one moment to the next. */
  lemma DisplayedNeverDecreases(forwards: nat, acts: seq<Action>, a: Action)
    requires Exec(forwards, acts + [a]).Some?
    ensures Exec(forwards, acts).Some?
    ensures Le(Displayed(Exec(forwards, acts).value.view), Displayed(Exec(forwards, acts + [a]).value.view))
  {
    assert (acts + [a])[..|acts|] == acts;
    RunsKeepInv(forwards, acts);
    RunsKeepInv(forwards, acts + [a]);
    var w, w' := Exec(forwards, acts).value, Exec(forwards, acts + [a]).value;
    ShownGrows(w, a);
    SumMonotone(w.shown, w'.shown);
  }

  lemma ShownGrows(w: World, a: Action)
    requires Inv(w) && Enabled(w, a)
    ensures var shown' := Step(w, a).shown;
            |w.shown| <= |shown'| && forall i :: 0 <= i < |w.shown| ==> Le(w.shown[i], shown'[i])
  {
    if a.Drain? && w.queue[0].Bytes? {
      var e := w.queue[0];
      AboutDrain(w.queue, e.id);
      assert LocalOf(w, e.id).q[0] == e;
      assert Flow(LocalOf(w, e.id));
    }
  }
}

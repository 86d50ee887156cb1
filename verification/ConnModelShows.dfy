/** The connect screen catches up: once everything sent has been drawn, a row
    shows the count of its connection's last byte snapshot. */
module ConnModelShows {
  import opened Prelude
  import opened ConnModel
  import opened ConnModelRuns

  /** The real count of `id` when it was last part of a byte snapshot. */
  function LastSnapshot(forwards: nat, acts: seq<Action>, id: nat): Count {
    if acts == [] then ZERO else
    var w, a := Exec(forwards, acts[..|acts| - 1]), acts[|acts| - 1];
    if a.TickSnapshot? && id in a.ids && w.Some? && id < |w.value.handles| then w.value.handles[id].count
    else LastSnapshot(forwards, acts[..|acts| - 1], id)
  }

  // ---- One connection ----

  function LastBytes(q: seq<UiEvent>, otherwise: Count): Count {
    if q == [] then otherwise
    else if q[|q| - 1].Bytes? then q[|q| - 1].count
    else LastBytes(q[..|q| - 1], otherwise)
  }

  lemma LastBytesAppend(q: seq<UiEvent>, e: UiEvent, c: Count)
    ensures LastBytes(q + [e], c) == if e.Bytes? then e.count else LastBytes(q, c)
  {
    assert (q + [e])[..|q|] == q;
  }

  lemma {:induction false} LastBytesTail(q: seq<UiEvent>, c: Count)
    requires q != []
    ensures LastBytes(q, c) == LastBytes(q[1..], if q[0].Bytes? then q[0].count else c)
  {
    var n := |q| - 1;
    if n > 0 && !q[n].Bytes? {
      LastBytesTail(q[..n], c);
      assert q[..n][1..] == q[1..][..n - 1];
    }
  }

  /** The newest count on its way to the row, or already there. */
  function Newest(l: Local): Count {
    if l.tick.Some? then l.tick.value else LastBytes(l.q, if l.row.Some? then l.row.value.count else ZERO)
  }

  ghost predicate Current(l: Local, last: Count) {
    && (l.row.Some? || OpenPending(l.q) ==> Newest(l) == last)
    && (!WasAnnounced(l.h) ==>
          && last == ZERO && l.h.count == ZERO && (l.tick.Some? ==> l.tick.value == ZERO)
          && forall k :: 0 <= k < |l.q| && l.q[k].Bytes? ==> l.q[k].count == ZERO)
    && (forall k, m :: 0 <= k < m < |l.q| && l.q[m].Opened? && l.q[k].Bytes? ==> l.q[k].count == ZERO)
  }

  /** The view draws the first event about this connection. */
  function Drained(l: Local, forwards: nat): Local
    requires l.q != []
  {
    match l.q[0]
    case Opened(id, peer, spec) => l.(q := l.q[1..], row := if spec < forwards then Some(ConnRow(id, peer, spec, ZERO)) else l.row)
    case Bytes(_, count) =>
      if l.row.None? then l.(q := l.q[1..])
      else l.(q := l.q[1..], row := Some(l.row.value.(count := count)), shown := count)
    case Closed(_) => l.(q := l.q[1..], row := None)
  }

  /** What a step does to connection `x`. */
  function Next(l: Local, w: World, a: Action, x: nat): Local
    requires Enabled(w, a) && (a.Drain? && w.queue[0].id == x ==> l.q != [])
  {
    match a
    case Create(_, _) => l
    case SetStarted(id) => if x == id then l.(h := l.h.(phase := Flagged)) else l
    case SendOpened(id) => if x == id then l.(h := l.h.(phase := Announced), q := l.q + [Opened(id, l.h.peer, l.h.spec)]) else l
    case Pump(id, more) => if x == id then l.(h := l.h.(count := Plus(l.h.count, more))) else l
    case Remove(id) => if x == id then l.(h := l.h.(phase := Dropped(l.h.phase.Announced?))) else l
    case SendClosed(id) => if x == id && l.h.phase.Dropped? then l.(h := l.h.(phase := Gone(l.h.phase.announced)), q := l.q + [Closed(id)]) else l
    case TickSnapshot(ids) => l.(tick := if x in ids then Some(l.h.count) else None)
    case TickSend => if x == w.tick[0].0 then l.(q := l.q + [Bytes(x, w.tick[0].1)], tick := None) else l
    case Drain => if x == w.queue[0].id then Drained(l, w.view.forwards) else l
  }

  lemma SendLocal(w: World, a: Action, x: nat, e: UiEvent)
    requires Ids(w) && Enabled(w, a) && x < |w.handles|
    requires a.SendOpened? || a.SendClosed? || a.TickSend?
    requires Step(w, a).queue == w.queue + [e]
    ensures |Step(w, a).handles| == |Step(w, a).shown| == |w.handles|
    ensures LocalOf(Step(w, a), x) == Next(LocalOf(w, x), w, a, x)
  {
    hide About, RowOf, Without;
    assert e == Step(w, a).queue[|w.queue|];
    AboutSend(w.queue, e, x);
    assert About(w.queue, x) + [] == About(w.queue, x);
    if a.TickSend? && x == w.tick[0].0 {
      assert TickOf(w.tick[1..], x).None?;
    }
  }

  lemma QuietLocal(w: World, a: Action, x: nat)
    requires Ids(w) && Enabled(w, a) && x < |w.handles|
    requires a.SetStarted? || a.Pump? || a.Remove? || a.TickSnapshot?
    ensures |Step(w, a).handles| == |Step(w, a).shown| == |w.handles|
    ensures LocalOf(Step(w, a), x) == Next(LocalOf(w, x), w, a, x)
  {
    hide About, RowOf, Without;
    if a.TickSnapshot? {
      var tick := Step(w, a).tick;
      var t := TickOf(tick, x);
      if t.Some? {
        var k :| 0 <= k < |tick| && tick[k] == (x, t.value);
        assert a.ids[k] == x;
      }
      assert forall k :: 0 <= k < |a.ids| ==> tick[k].0 == a.ids[k];
    }
  }

  lemma DrainLocal(w: World, x: nat)
    requires Inv(w) && Enabled(w, Drain) && x < |w.handles|
    ensures |Step(w, Drain).handles| == |Step(w, Drain).shown| == |w.handles|
    ensures w.queue[0].id == x ==> LocalOf(w, x).q != []
    ensures LocalOf(Step(w, Drain), x) == Next(LocalOf(w, x), w, Drain, x)
  {
    hide About, RowOf, Without, TickOf, Flow, Lifecycle, Each, Totals;
    var w', e := Step(w, Drain), w.queue[0];
    AboutDrain(w.queue, x);
    var l := LocalOf(w, x);
    if x == e.id {
      assert l.q[0] == e && l.q[1..] == About(w'.queue, x);
    } else {
      assert [] + About(w'.queue, x) == About(w'.queue, x);
    }
    DrainRow(w, x);
  }

  /** The row of `x`, and what is shown of it, after an event is drawn. */
  lemma DrainRow(w: World, x: nat)
    requires Inv(w) && Enabled(w, Drain) && x < |w.handles|
    ensures var w', e, row := Step(w, Drain), w.queue[0], RowOf(w.view.rows, x);
            && RowOf(w'.view.rows, x) ==
               (if x != e.id then row
                else match e
                     case Opened(id, peer, spec) => if spec < w.view.forwards then Some(ConnRow(id, peer, spec, ZERO)) else row
                     case Bytes(_, count) => if row.None? then None else Some(row.value.(count := count))
                     case Closed(_) => None)
            && w'.shown[x] == (if x == e.id && e.Bytes? && row.Some? then e.count else w.shown[x])
  {
    hide About, RowOf, Without, TickOf, Totals;
    var e := w.queue[0];
    RowAtIndex(w.view.rows, e.id);
    match e
    case Opened(id, peer, spec) =>
      NoRowWhileOpening(w);
      RowOfAppend(w.view.rows, ConnRow(id, peer, spec, ZERO), x);
    case Bytes(id, count) =>
      var i := RowIndex(w.view.rows, id);
      if i < |w.view.rows| { RowOfUpdate(w.view.rows, count, i, x); }
    case Closed(id) => RowOfWithout(w.view.rows, id, x);
  }

  lemma NoRowWhileOpening(w: World)
    requires Inv(w) && w.queue != [] && w.queue[0].Opened?
    ensures RowOf(w.view.rows, w.queue[0].id).None?
  {
    hide About, RowOf, Totals;
    var id := w.queue[0].id;
    AboutDrain(w.queue, id);
    OneSound(w, id);
    assert LocalOf(w, id).q[0].Opened?;
  }

  // ---- The count stays current ----

  lemma SendKeepsCurrent(l: Local, w: World, a: Action, x: nat, last: Count)
    requires Current(l, last) && Lifecycle(l, w.view.forwards) && Enabled(w, a) && (a.SendOpened? || a.SendClosed? || a.TickSend?)
    requires a.SendOpened? && x == a.id ==> l.h.phase.Flagged?
    requires a.SendClosed? && x == a.id ==> l.h.phase.Dropped?
    requires a.TickSend? && x == w.tick[0].0 ==> l.tick == Some(w.tick[0].1)
    ensures Current(Next(l, w, a, x), last)
  {
    var l' := Next(l, w, a, x);
    if l' != l {
      var e := l'.q[|l.q|];
      assert l'.q == l.q + [e];
      PendingSend(l.q, e);
      LastBytesAppend(l.q, e, if l.row.Some? then l.row.value.count else ZERO);
      if a.SendOpened? { ZeroBytes(l.q); }
      hide LastBytes;
    }
  }

  lemma {:induction false} ZeroBytes(q: seq<UiEvent>)
    requires forall k :: 0 <= k < |q| && q[k].Bytes? ==> q[k].count == ZERO
    ensures LastBytes(q, ZERO) == ZERO
  {
    if q != [] { ZeroBytes(q[..|q| - 1]); }
  }

  lemma QuietKeepsCurrent(l: Local, w: World, a: Action, x: nat, last: Count)
    requires Current(l, last) && Enabled(w, a) && (a.SetStarted? || a.Pump? || a.Remove? || a.TickSnapshot?)
    requires a.TickSnapshot? ==> l.tick.None?
    requires (a.SetStarted? || a.Pump? || a.Remove?) && x == a.id ==> x < |w.handles| && l.h == w.handles[x]
    ensures Current(Next(l, w, a, x), if a.TickSnapshot? && x in a.ids then l.h.count else last)
  {
    hide LastBytes;
  }

  lemma DrainKeepsCurrent(l: Local, forwards: nat, last: Count)
    requires Current(l, last) && Lifecycle(l, forwards) && l.q != []
    ensures Current(Drained(l, forwards), last)
  {
    var l' := Drained(l, forwards);
    PendingTail(l.q);
    assert forall k :: 0 <= k < |l'.q| ==> l'.q[k] == l.q[k + 1];
    LastBytesTail(l.q, if l.row.Some? then l.row.value.count else ZERO);
    if l.q[0].Bytes? && l.row.None? && OpenPending(l'.q) {
      var m :| 0 <= m < |l'.q| && l'.q[m].Opened?;
      assert l.q[m + 1].Opened? && l.q[0].count == ZERO;
    }
    hide LastBytes;
  }

  ghost predicate Shows(w: World, id: nat, last: Count)
    requires Ids(w)
  {
    id < |w.handles| ==> Current(LocalOf(w, id), last)
  }

  lemma StepKeepsShows(w: World, a: Action, id: nat, last: Count)
    requires Inv(w) && Enabled(w, a) && Inv(Step(w, a)) && Shows(w, id, last) && id < |w.handles|
    ensures Shows(Step(w, a), id, if a.TickSnapshot? && id in a.ids then w.handles[id].count else last)
  {
    hide Current, Flow, Lifecycle, Totals, About, TickOf, RowOf, Without;
    var w' := Step(w, a);
    var l := LocalOf(w, id);
    OneSound(w, id);
    match a
    case Create(spec, peer) => assert LocalOf(w', id) == l;
    case SendOpened(i) =>
      SendLocal(w, a, id, w'.queue[|w.queue|]);
      SendKeepsCurrent(l, w, a, id, last);
    case SendClosed(i) =>
      SendLocal(w, a, id, w'.queue[|w.queue|]);
      SendKeepsCurrent(l, w, a, id, last);
    case TickSend =>
      SendLocal(w, a, id, w'.queue[|w.queue|]);
      HeadOfTick(w, id);
      SendKeepsCurrent(l, w, a, id, last);
    case Drain =>
      DrainLocal(w, id);
      if w.queue[0].id == id { DrainKeepsCurrent(l, w.view.forwards, last); }
    case _ =>
      QuietLocal(w, a, id);
      NoTick(w, id);
      QuietKeepsCurrent(l, w, a, id, last);
  }

  lemma HeadOfTick(w: World, id: nat)
    requires w.tick != []
    ensures w.tick[0].0 == id ==> TickOf(w.tick, id) == Some(w.tick[0].1)
  {
  }

  lemma NoTick(w: World, id: nat)
    ensures w.tick == [] ==> TickOf(w.tick, id).None?
  {
  }

  lemma NewShows(w: World, a: Action)
    requires Inv(w) && Enabled(w, a) && Inv(Step(w, a)) && |Step(w, a).handles| > |w.handles|
    ensures Shows(Step(w, a), |w.handles|, ZERO)
  {
    var w' := Step(w, a);
    var n := |w.handles|;
    AboutUnknown(w.queue, n);
    hide Flow, Lifecycle, Totals;
  }

  lemma {:induction false} NoSnapshotYet(forwards: nat, acts: seq<Action>, id: nat)
    requires Exec(forwards, acts).Some? && id >= |Exec(forwards, acts).value.handles|
    ensures LastSnapshot(forwards, acts, id) == ZERO
  {
    if acts != [] { NoSnapshotYet(forwards, acts[..|acts| - 1], id); }
  }

  lemma {:induction false} RunsShow(forwards: nat, acts: seq<Action>, id: nat)
    requires Exec(forwards, acts).Some?
    ensures Inv(Exec(forwards, acts).value) && Shows(Exec(forwards, acts).value, id, LastSnapshot(forwards, acts, id))
  {
    RunsKeepInv(forwards, acts);
    if acts != [] && id < |Exec(forwards, acts).value.handles| {
      var front, a := acts[..|acts| - 1], acts[|acts| - 1];
      RunsShow(forwards, front, id);
      var w := Exec(forwards, front).value;
      HandlesGrow(w, a);
      hide Step, Enabled, Shows;
      if id < |w.handles| {
        StepKeepsShows(w, a, id, LastSnapshot(forwards, front, id));
      } else {
        NoSnapshotYet(forwards, front, id);
        NewShows(w, a);
      }
    }
  }

  lemma HandlesGrow(w: World, a: Action)
    requires Enabled(w, a)
    ensures |w.handles| <= |Step(w, a).handles| <= |w.handles| + 1
  {
  }

  /** Over every run, once the queue is drained and no snapshot is being sent,
      every row shows its connection's real count at the last snapshot. */
  lemma RowsShowTheLastSnapshot(forwards: nat, acts: seq<Action>, id: nat)
    requires Exec(forwards, acts).Some? && Exec(forwards, acts).value.queue == [] && Exec(forwards, acts).value.tick == []
    requires id < |Exec(forwards, acts).value.handles| && RowOf(Exec(forwards, acts).value.view.rows, id).Some?
    ensures RowOf(Exec(forwards, acts).value.view.rows, id).value.count == LastSnapshot(forwards, acts, id)
  {
    hide Exec, LastSnapshot, Flow, Lifecycle, Totals, RowOf;
    RunsShow(forwards, acts, id);
    var l := LocalOf(Exec(forwards, acts).value, id);
    assert l.q == [] && l.tick.None?;
  }
}

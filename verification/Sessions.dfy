/** Live-session registry of the daemon (tmite-core/src/daemon/sessions.rs). */
module Sessions {
  import opened Prelude

  datatype Announced = Announced(local: string, target: string)
  datatype ForwardInfo = ForwardInfo(local: string, target: string, live: nat)

  type Live = map<string, nat>

  function LiveOf(live: Live, target: string): nat {
    if target in live then live[target] else 0
  }

  function OpenLive(live: Live, target: string): Live {
    live[target := LiveOf(live, target) + 1]
  }

  /** Saturating decrement; an entry that reaches zero is removed. */
  function CloseLive(live: Live, target: string): Live {
    if target !in live then live
    else if live[target] <= 1 then live - {target}
    else live[target := live[target] - 1]
  }

  function Report(forwards: seq<Announced>, live: Live): (r: seq<ForwardInfo>)
    ensures |r| == |forwards|
    ensures forall i :: 0 <= i < |r| ==> r[i] == ForwardInfo(forwards[i].local, forwards[i].target, LiveOf(live, forwards[i].target))
  {
    seq(|forwards|, i requires 0 <= i < |forwards| =>
      ForwardInfo(forwards[i].local, forwards[i].target, LiveOf(live, forwards[i].target)))
  }

  function Enter<E>(inner: map<string, E>, node: string, entry: E): map<string, E> {
    inner[Lowercase(node) := entry]
  }

  /** Takes the node's entry out only while it is still this one. */
  function Leave<E(==)>(inner: map<string, E>, node: string, entry: E): map<string, E> {
    var key := Lowercase(node);
    if key in inner && inner[key] == entry then inner - {key} else inner
  }

  class SessionEntry {
    const peerName: string
    const nodeId: string
    var forwards: seq<Announced>
    var live: Live

    constructor (peerName: string, nodeId: string)
      ensures this.peerName == peerName && this.nodeId == nodeId && forwards == [] && live == map[]
    {
      this.peerName, this.nodeId := peerName, nodeId;
      forwards, live := [], map[];
    }

    method SetForwards(forwards: seq<Announced>)
      modifies this`forwards
      ensures this.forwards == forwards
    {
      this.forwards := forwards;
    }

    method ForwardOpen(target: string)
      modifies this`live
      ensures live == OpenLive(old(live), target)
    {
      if target !in live {
        live := live[target := 0];
      }
      live := live[target := live[target] + 1];
    }

    method ForwardClose(target: string)
      modifies this`live
      ensures live == CloseLive(old(live), target)
    {
      if target in live {
        var count := if live[target] == 0 then 0 else live[target] - 1;
        live := live[target := count];
        if count == 0 {
          live := live - {target};
          assert live == old(live) - {target};
        }
      }
    }

    method Snapshot() returns (r: seq<ForwardInfo>)
      ensures r == Report(forwards, live)
    {
      r := [];
      for i := 0 to |forwards|
        invariant |r| == i && forall k :: 0 <= k < i ==> r[k] == Report(forwards, live)[k]
      {
        r := r + [ForwardInfo(forwards[i].local, forwards[i].target, LiveOf(live, forwards[i].target))];
      }
    }
  }

  class Registry {
    var inner: map<string, SessionEntry>

    constructor ()
      ensures inner == map[]
    {
      inner := map[];
    }

    method Register(entry: SessionEntry)
      modifies this
      ensures inner == Enter(old(inner), entry.nodeId, entry)
    {
      inner := inner[Lowercase(entry.nodeId) := entry];
    }

    /** Removes the entry only while it is still this connection's. */
    method Unregister(entry: SessionEntry)
      modifies this
      ensures inner == Leave(old(inner), entry.nodeId, entry)
    {
      var key := Lowercase(entry.nodeId);
      if key in inner && inner[key] == entry {
        inner := inner - {key};
      }
    }

    method PeerSnapshot(node: string) returns (r: Option<seq<ForwardInfo>>)
      ensures var key := Lowercase(node);
              r == if key in inner then Some(Report(inner[key].forwards, inner[key].live)) else None
    {
      var key := Lowercase(node);
      if key !in inner {
        return None;
      }
      var info := inner[key].Snapshot();
      return Some(info);
    }
  }
}

/** The client's list of paired servers, servers.toml
    (tmite-core/src/fsio.rs), and how pairing updates it
    (tmite-core/src/client/pair.rs). */
module ClientStore {
  import opened Prelude

  datatype ServerEntry = ServerEntry(name: string, nodeId: string, pairedAt: string, forwards: seq<string>)

  function NameIndex(s: seq<ServerEntry>, name: string): (i: nat)
    ensures i <= |s| && (i < |s| ==> s[i].name == name)
    ensures forall k :: 0 <= k < i ==> s[k].name != name
  {
    if s == [] || s[0].name == name then 0 else 1 + NameIndex(s[1..], name)
  }

  function NodeIndex(s: seq<ServerEntry>, node: string): (i: nat)
    ensures i <= |s| && (i < |s| ==> s[i].nodeId == node)
    ensures forall k :: 0 <= k < i ==> s[k].nodeId != node
  {
    if s == [] || s[0].nodeId == node then 0 else 1 + NodeIndex(s[1..], node)
  }

  /** `get`. */
  function Get(s: seq<ServerEntry>, name: string): Option<ServerEntry> {
    var i := NameIndex(s, name);
    if i < |s| then Some(s[i]) else None
  }

  /** `get_by_node_id`. */
  function GetByNode(s: seq<ServerEntry>, node: string): Option<ServerEntry> {
    var i := NodeIndex(s, node);
    if i < |s| then Some(s[i]) else None
  }

  predicate NameInUse(s: seq<ServerEntry>, name: string, node: string) {
    exists i :: 0 <= i < |s| && s[i].name == name && s[i].nodeId != node
  }

  /** `upsert`: `None` is the NameInUse error. */
  function Upserted(s: seq<ServerEntry>, e: ServerEntry): Option<seq<ServerEntry>> {
    if NameInUse(s, e.name, e.nodeId) then None
    else
      var i := NodeIndex(s, e.nodeId);
      Some(if i < |s| then s[i := e] else s + [e])
  }

  function WithForwards(s: seq<ServerEntry>, name: string, forwards: seq<string>): seq<ServerEntry> {
    var i := NameIndex(s, name);
    if i < |s| then s[i := s[i].(forwards := forwards)] else s
  }

  /** The entry `pair::run` stores: a known server keeps its saved forwards. */
  function PairedEntry(s: seq<ServerEntry>, node: string, name: string, now: string): ServerEntry {
    var known := GetByNode(s, node);
    ServerEntry(name, node, now, if known.Some? then known.value.forwards else [])
  }

  class Store {
    var servers: seq<ServerEntry>

    constructor ()
      ensures servers == []
    {
      servers := [];
    }

    method Upsert(e: ServerEntry) returns (ok: bool)
      modifies this
      ensures ok <==> !NameInUse(old(servers), e.name, e.nodeId)
      ensures ok ==> Upserted(old(servers), e) == Some(servers)
      ensures !ok ==> servers == old(servers)
    {
      var same := NodeIndex(servers, e.nodeId);
      if NameInUse(servers, e.name, e.nodeId) {
        return false;
      }
      if same < |servers| {
        servers := servers[same := e];
      } else {
        servers := servers + [e];
      }
      return true;
    }

    method SetForwards(name: string, forwards: seq<string>) returns (found: bool)
      modifies this
      ensures servers == WithForwards(old(servers), name, forwards)
      ensures found <==> Get(old(servers), name).Some?
    {
      var i := NameIndex(servers, name);
      if i == |servers| {
        return false;
      }
      servers := servers[i := servers[i].(forwards := forwards)];
      return true;
    }
  }

  // ---- Runs from an empty store ----

  datatype Op =
    | Insert(e: ServerEntry)
    | Forwards(name: string, forwards: seq<string>)
    | Pair(node: string, name: string, now: string)

  function OrElse(updated: Option<seq<ServerEntry>>, s: seq<ServerEntry>): seq<ServerEntry> {
    if updated.Some? then updated.value else s
  }

  function Step(s: seq<ServerEntry>, op: Op): seq<ServerEntry> {
    match op
    case Insert(e) => OrElse(Upserted(s, e), s)
    case Forwards(name, forwards) => WithForwards(s, name, forwards)
    case Pair(node, name, now) => OrElse(Upserted(s, PairedEntry(s, node, name, now)), s)
  }

  function Exec(ops: seq<Op>): seq<ServerEntry> {
    if ops == [] then [] else Step(Exec(ops[..|ops| - 1]), ops[|ops| - 1])
  }

  ghost predicate Distinct(s: seq<ServerEntry>) {
    && (forall i, j :: 0 <= i < j < |s| ==> s[i].name != s[j].name)
    && (forall i, j :: 0 <= i < j < |s| ==> s[i].nodeId != s[j].nodeId)
  }

  lemma StepKeepsDistinct(s: seq<ServerEntry>, op: Op)
    requires Distinct(s)
    ensures Distinct(Step(s, op))
  {
  }

  /** Over every run, names and node ids are pairwise distinct. */
  lemma {:induction false} RunsStayDistinct(ops: seq<Op>)
    ensures Distinct(Exec(ops))
  {
    if ops != [] {
      RunsStayDistinct(ops[..|ops| - 1]);
      StepKeepsDistinct(Exec(ops[..|ops| - 1]), ops[|ops| - 1]);
    }
  }

  /** Hence the two lookups are inverse to each other in every reachable store. */
  lemma LookupsAreInverse(ops: seq<Op>, e: ServerEntry)
    ensures Get(Exec(ops), e.name) == Some(e) <==> GetByNode(Exec(ops), e.nodeId) == Some(e)
    ensures Get(Exec(ops), e.name) == Some(e) <==> e in Exec(ops)
  {
    RunsStayDistinct(ops);
    var s := Exec(ops);
    if e in s {
      var i :| 0 <= i < |s| && s[i] == e;
      assert NameIndex(s, e.name) == i && NodeIndex(s, e.nodeId) == i;
    }
  }

  /** An accepted upsert is a map update keyed by node id: the new entry is
      found under its node id and its name, every other server keeps its
      entry, and a name is refused exactly when another server holds it. */
  lemma UpsertIsMapUpdate(ops: seq<Op>, e: ServerEntry, node: string)
    ensures var s := Exec(ops);
            && (Upserted(s, e).None? <==> Get(s, e.name).Some? && Get(s, e.name).value.nodeId != e.nodeId)
            && (Upserted(s, e).Some? ==>
                  var s' := Upserted(s, e).value;
                  && GetByNode(s', node) == (if node == e.nodeId then Some(e) else GetByNode(s, node))
                  && Get(s', e.name) == Some(e))
  {
    RunsStayDistinct(ops);
    var s := Exec(ops);
    assert NameInUse(s, e.name, e.nodeId) <==> Get(s, e.name).Some? && Get(s, e.name).value.nodeId != e.nodeId;
    if Upserted(s, e).Some? {
      var s' := Upserted(s, e).value;
      StepKeepsDistinct(s, Insert(e));
      var at := if NodeIndex(s, e.nodeId) < |s| then NodeIndex(s, e.nodeId) else |s|;
      assert s'[at] == e && NameIndex(s', e.name) == at && NodeIndex(s', e.nodeId) == at;
      if node != e.nodeId {
        var i := NodeIndex(s, node);
        if i < |s| {
          assert s'[i] == s[i] && NodeIndex(s', node) == i;
        }
      }
    }
  }

  /** Saving forwards replaces those of the named server and nothing else: not
      its node id or time, not its place, and no other server. */
  lemma SetForwardsReplacesThem(ops: seq<Op>, name: string, forwards: seq<string>, n: string)
    ensures var s, s' := Exec(ops), Exec(ops + [Op.Forwards(name, forwards)]);
            && |s'| == |s|
            && Get(s', n) == (if n == name && Get(s, n).Some? then Some(Get(s, n).value.(forwards := forwards)) else Get(s, n))
            && (forall i :: 0 <= i < |s| ==> s'[i] == if s[i].name == name then s[i].(forwards := forwards) else s[i])
  {
    RunsStayDistinct(ops);
    assert (ops + [Op.Forwards(name, forwards)])[..|ops|] == ops;
    var s, s' := Exec(ops), WithForwards(Exec(ops), name, forwards);
    assert forall k :: 0 <= k < |s| ==> s'[k].name == s[k].name;
    assert NameIndex(s', n) == NameIndex(s, n);
    forall k | 0 <= k < |s| && s[k].name == name ensures NameIndex(s, name) == k {
    }
  }

  /** Pairing again with a known server keeps its saved forwards, also under a
      new name, which then replaces the old one; a rejected name changes nothing. */
  lemma RePairingKeepsForwards(ops: seq<Op>, node: string, name: string, now: string)
    requires GetByNode(Exec(ops), node).Some?
    ensures var s, s' := Exec(ops), Exec(ops + [Pair(node, name, now)]);
            var known := GetByNode(s, node).value;
            if Get(s, name).Some? && Get(s, name).value.nodeId != node then s' == s
            else && GetByNode(s', node) == Some(ServerEntry(name, node, now, known.forwards))
                 && Get(s', name) == GetByNode(s', node)
                 && (name != known.name ==> Get(s', known.name).None?)
                 && |s'| == |s|
  {
    var s := Exec(ops);
    RunsStayDistinct(ops);
    var pair := Pair(node, name, now);
    assert (ops + [pair])[..|ops|] == ops;
    var e := PairedEntry(s, node, name, now);
    UpsertIsMapUpdate(ops, e, node);
    if Upserted(s, e).Some? && name != GetByNode(s, node).value.name {
      var s' := Step(s, pair);
      var before := GetByNode(s, node).value.name;
      forall k | 0 <= k < |s'| ensures s'[k].name != before {
        if s'[k].nodeId != node {
          assert s'[k] == s[k];
        }
      }
    }
  }
}

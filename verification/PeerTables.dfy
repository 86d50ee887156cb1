/** The daemon's peer and rule tables (tmite-core/src/daemon/state.rs) as values:
    what each call does to the two lists, before anything is written to disk. */
module PeerTables {
  import opened Prelude

  const MAX_PEERS := 256
  const MAX_RULES := 1024

  datatype Peer = Peer(name: string, nodeId: string, pairedAt: string, lastSeen: string)
  datatype Rule = Rule(peer: string, target: string, createdAt: string)
  datatype Tables = Tables(peers: seq<Peer>, rules: seq<Rule>)

  datatype StateError = NameTaken | NotFound | PeerHasRules | PeerCap | RuleCap | Io

  datatype Op =
    | AddPeer(peer: Peer)
    | TouchLastSeen(node: string, now: string)
    | AddRule(name: string, target: string, now: string)
    | RemoveRule(name: string, target: string)
    | RemovePeer(name: string, force: bool)

  datatype Reply = Done | Index(i: nat) | Flag(b: bool) | Failed(error: StateError)

  /** A call either is refused, answers without a change, or changes the
      tables and must then be persisted before `reply` is given. */
  datatype Effect = Answer(reply: Reply) | Write(tables: Tables, reply: Reply)

  const EMPTY := Tables([], [])

  predicate HasName(t: Tables, name: string) {
    exists i :: 0 <= i < |t.peers| && t.peers[i].name == name
  }

  predicate HasRules(t: Tables, name: string) {
    exists i :: 0 <= i < |t.rules| && t.rules[i].peer == name
  }

  /** `rule_allows`: linear search for an exact match. */
  predicate RuleAllows(t: Tables, name: string, target: string) {
    exists i :: 0 <= i < |t.rules| && t.rules[i].peer == name && t.rules[i].target == target
  }

  predicate SameNode(a: string, b: string) {
    Lowercase(a) == Lowercase(b)
  }

  /** Position of the first peer with this node id; `|t.peers|` when there is none. */
  function NodeIndex(t: Tables, node: string, from: nat := 0): (i: nat)
    requires from <= |t.peers|
    ensures from <= i <= |t.peers|
    ensures i < |t.peers| ==> SameNode(t.peers[i].nodeId, node)
    ensures forall k :: from <= k < i ==> !SameNode(t.peers[k].nodeId, node)
    decreases |t.peers| - from
  {
    if from == |t.peers| || SameNode(t.peers[from].nodeId, node) then from
    else NodeIndex(t, node, from + 1)
  }

  /** `peer_by_node`: the first peer recorded under this node id. */
  function PeerByNode(t: Tables, node: string): Option<Peer> {
    var i := NodeIndex(t, node);
    if i < |t.peers| then Some(t.peers[i]) else None
  }

  function RuleIndex(t: Tables, name: string, target: string, from: nat := 0): (i: nat)
    requires from <= |t.rules|
    ensures from <= i <= |t.rules|
    ensures i < |t.rules| ==> t.rules[i].peer == name && t.rules[i].target == target
    ensures forall k :: from <= k < i ==> !(t.rules[k].peer == name && t.rules[k].target == target)
    decreases |t.rules| - from
  {
    if from == |t.rules| || (t.rules[from].peer == name && t.rules[from].target == target) then from
    else RuleIndex(t, name, target, from + 1)
  }

  function DropRule(rules: seq<Rule>, name: string, target: string): seq<Rule> {
    Filter(rules, (r: Rule) => !(r.peer == name && r.target == target))
  }

  function DropPeer(t: Tables, name: string): Tables {
    Tables(Filter(t.peers, (p: Peer) => p.name != name), Filter(t.rules, (r: Rule) => r.peer != name))
  }

  /** What each `State` method does under its lock, up to the persist call. */
  function Apply(t: Tables, op: Op): Effect {
    match op
    case AddPeer(peer) =>
      if HasName(t, peer.name) then Answer(Failed(NameTaken))
      else if |t.peers| >= MAX_PEERS then Answer(Failed(PeerCap))
      else Write(t.(peers := t.peers + [peer]), Done)
    case TouchLastSeen(node, now) =>
      var i := NodeIndex(t, node);
      if i == |t.peers| then Answer(Done)
      else Write(t.(peers := t.peers[i := t.peers[i].(lastSeen := now)]), Done)
    case AddRule(name, target, now) =>
      if !HasName(t, name) then Answer(Failed(NotFound))
      else if |t.rules| >= MAX_RULES then Answer(Failed(RuleCap))
      else
        var i := RuleIndex(t, name, target);
        if i < |t.rules| then Answer(Index(i))
        else Write(t.(rules := t.rules + [Rule(name, target, now)]), Index(|t.rules|))
    case RemoveRule(name, target) =>
      if !HasName(t, name) then Answer(Failed(NotFound))
      else
        var kept := DropRule(t.rules, name, target);
        if |kept| == |t.rules| then Answer(Flag(false)) else Write(t.(rules := kept), Flag(true))
    case RemovePeer(name, force) =>
      if !HasName(t, name) then Answer(Flag(false))
      else if HasRules(t, name) && !force then Answer(Failed(PeerHasRules))
      else Write(DropPeer(t, name), Flag(true))
  }

  function After(t: Tables, op: Op): Tables {
    var e := Apply(t, op);
    if e.Write? then e.tables else t
  }

  // ---- The table invariant and the map-and-set view ----

  ghost predicate WellFormed(t: Tables) {
    && (forall i, j :: 0 <= i < j < |t.peers| ==> t.peers[i].name != t.peers[j].name)
    && (forall i, j :: 0 <= i < j < |t.rules| ==>
          (t.rules[i].peer, t.rules[i].target) != (t.rules[j].peer, t.rules[j].target))
    && (forall i :: 0 <= i < |t.rules| ==> HasName(t, t.rules[i].peer))
    && |t.peers| <= MAX_PEERS
    && |t.rules| <= MAX_RULES
  }

  /** What the administrator thinks the store is: a map and a set. */
  datatype Acl = Acl(peers: map<string, Peer>, grants: set<(string, string)>)

  /** The lists `t` stand for the map and the set `a`. */
  ghost predicate Represents(t: Tables, a: Acl) {
    && (forall n :: n in a.peers <==> HasName(t, n))
    && (forall i :: 0 <= i < |t.peers| ==> t.peers[i].name in a.peers && a.peers[t.peers[i].name] == t.peers[i])
    && (forall n, g :: (n, g) in a.grants <==> RuleAllows(t, n, g))
  }

  /** The abstract store: every call as one map or set operation. Order is
      lost, so `touch_last_seen` may pick any peer with the node id, and the
      index that `add_rule` reports is any position in the list. */
  ghost predicate AclStep(a: Acl, op: Op, a': Acl, reply: Reply) {
    match op
    case AddPeer(p) =>
      if p.name in a.peers then a' == a && reply == Failed(NameTaken)
      else if |a.peers| >= MAX_PEERS then a' == a && reply == Failed(PeerCap)
      else a' == a.(peers := a.peers[p.name := p]) && reply == Done
    case TouchLastSeen(node, now) =>
      && reply == Done
      && if exists n :: n in a.peers && SameNode(a.peers[n].nodeId, node)
         then exists n :: n in a.peers && SameNode(a.peers[n].nodeId, node)
                          && a' == a.(peers := a.peers[n := a.peers[n].(lastSeen := now)])
         else a' == a
    case AddRule(name, target, _) =>
      if name !in a.peers then a' == a && reply == Failed(NotFound)
      else if |a.grants| >= MAX_RULES then a' == a && reply == Failed(RuleCap)
      else a' == a.(grants := a.grants + {(name, target)}) && reply.Index? && reply.i < |a'.grants|
    case RemoveRule(name, target) =>
      if name !in a.peers then a' == a && reply == Failed(NotFound)
      else a' == a.(grants := a.grants - {(name, target)}) && reply == Flag((name, target) in a.grants)
    case RemovePeer(name, force) =>
      if name !in a.peers then a' == a && reply == Flag(false)
      else if (exists g :: g in a.grants && g.0 == name) && !force then a' == a && reply == Failed(PeerHasRules)
      else && a' == Acl(a.peers - {name}, set g | g in a.grants && g.0 != name)
           && reply == Flag(true)
  }

  // ---- One call refines one abstract step ----

  /** Distinct projections of a list make a set of the same size. */
  lemma {:induction false} DistinctCardinality<T, K>(s: seq<T>, key: T -> K, keys: set<K>)
    requires forall i, j :: 0 <= i < j < |s| ==> key(s[i]) != key(s[j])
    requires forall i :: 0 <= i < |s| ==> key(s[i]) in keys
    requires forall k :: k in keys ==> exists i :: 0 <= i < |s| && key(s[i]) == k
    ensures |keys| == |s|
  {
    if s == [] {
      assert keys == {};
    } else {
      var front, last := s[..|s| - 1], s[|s| - 1];
      DistinctCardinality(front, key, keys - {key(last)});
    }
  }

  lemma SizesAgree(t: Tables, a: Acl)
    requires WellFormed(t) && Represents(t, a)
    ensures |a.peers| == |t.peers| && |a.grants| == |t.rules|
  {
    DistinctCardinality(t.peers, (p: Peer) => p.name, a.peers.Keys);
    GrantsAsIndexedSet(t, a);
    DistinctCardinality(t.rules, (r: Rule) => (r.peer, r.target), a.grants);
  }

  lemma GrantsAsIndexedSet(t: Tables, a: Acl)
    requires Represents(t, a)
    ensures a.grants == set i | 0 <= i < |t.rules| :: (t.rules[i].peer, t.rules[i].target)
  {
    forall x | x in a.grants ensures exists i :: 0 <= i < |t.rules| && x == (t.rules[i].peer, t.rules[i].target) {
      assert RuleAllows(t, x.0, x.1);
    }
    forall i | 0 <= i < |t.rules| ensures (t.rules[i].peer, t.rules[i].target) in a.grants {
      assert RuleAllows(t, t.rules[i].peer, t.rules[i].target);
    }
  }

  /** The lists stand for one map and set only. */
  lemma RepresentsUnique(t: Tables, a: Acl, b: Acl)
    requires Represents(t, a) && Represents(t, b)
    ensures a == b
  {
    assert a.peers.Keys == b.peers.Keys;
    forall n | n in a.peers ensures a.peers[n] == b.peers[n] {
      var i :| 0 <= i < |t.peers| && t.peers[i].name == n;
    }
    GrantsAsIndexedSet(t, a);
    GrantsAsIndexedSet(t, b);
  }

  lemma DropRuleMembers(t: Tables, name: string, target: string, t': Tables)
    requires WellFormed(t) && t' == t.(rules := DropRule(t.rules, name, target))
    ensures WellFormed(t')
    ensures forall n, g :: RuleAllows(t', n, g) <==> RuleAllows(t, n, g) && (n, g) != (name, target)
  {
    var keep := (r: Rule) => !(r.peer == name && r.target == target);
    FilterKeepsDistinct(t.rules, keep, (r: Rule) => (r.peer, r.target));
    forall i | 0 <= i < |t'.rules| ensures HasName(t', t'.rules[i].peer) {
      assert t'.rules[i] in t.rules;
      assert HasName(t, t'.rules[i].peer);
    }
    forall n, g ensures RuleAllows(t', n, g) <==> RuleAllows(t, n, g) && (n, g) != (name, target) {
      if RuleAllows(t', n, g) {
        var i :| 0 <= i < |t'.rules| && t'.rules[i].peer == n && t'.rules[i].target == g;
        assert t'.rules[i] in t.rules;
      }
      if RuleAllows(t, n, g) && (n, g) != (name, target) {
        var i :| 0 <= i < |t.rules| && t.rules[i].peer == n && t.rules[i].target == g;
        assert t.rules[i] in t'.rules;
      }
    }
  }

  lemma DropPeerMembers(t: Tables, name: string)
    requires WellFormed(t)
    ensures WellFormed(DropPeer(t, name))
    ensures forall n :: HasName(DropPeer(t, name), n) <==> HasName(t, n) && n != name
    ensures forall n, g :: RuleAllows(DropPeer(t, name), n, g) <==> RuleAllows(t, n, g) && n != name
  {
    var t' := DropPeer(t, name);
    FilterKeepsDistinct(t.peers, (p: Peer) => p.name != name, (p: Peer) => p.name);
    FilterKeepsDistinct(t.rules, (r: Rule) => r.peer != name, (r: Rule) => (r.peer, r.target));
    DropPeerKeepsOthers(t, name);
    forall i | 0 <= i < |t'.rules| ensures HasName(t', t'.rules[i].peer) {
      assert t'.rules[i] in t.rules;
      assert HasName(t, t'.rules[i].peer);
    }
    hide HasName, RuleAllows, Filter;
  }

  lemma DropPeerKeepsOthers(t: Tables, name: string)
    ensures forall n :: HasName(DropPeer(t, name), n) <==> HasName(t, n) && n != name
    ensures forall n, g :: RuleAllows(DropPeer(t, name), n, g) <==> RuleAllows(t, n, g) && n != name
  {
    var t' := DropPeer(t, name);
    forall n ensures HasName(t', n) <==> HasName(t, n) && n != name {
      if HasName(t', n) {
        var i :| 0 <= i < |t'.peers| && t'.peers[i].name == n;
        assert t'.peers[i] in t.peers;
      }
      if HasName(t, n) && n != name {
        var i :| 0 <= i < |t.peers| && t.peers[i].name == n;
        assert t.peers[i] in t'.peers;
      }
    }
    forall n, g ensures RuleAllows(t', n, g) <==> RuleAllows(t, n, g) && n != name {
      if RuleAllows(t', n, g) {
        var i :| 0 <= i < |t'.rules| && t'.rules[i].peer == n && t'.rules[i].target == g;
        assert t'.rules[i] in t.rules;
      }
      if RuleAllows(t, n, g) && n != name {
        var i :| 0 <= i < |t.rules| && t.rules[i].peer == n && t.rules[i].target == g;
        assert t.rules[i] in t'.rules;
      }
    }
  }

  /** Every call keeps the tables well formed and does to the map and the set
      exactly what the abstract store does, with the same reply. */
  lemma CallRefinesAcl(t: Tables, op: Op, a: Acl) returns (a': Acl)
    requires WellFormed(t) && Represents(t, a)
    ensures WellFormed(After(t, op)) && Represents(After(t, op), a')
    ensures AclStep(a, op, a', Apply(t, op).reply)
  {
    SizesAgree(t, a);
    match op
    case AddPeer(p) => a' := AddPeerRefines(t, p, a);
    case TouchLastSeen(node, now) => a' := TouchRefines(t, node, now, a);
    case AddRule(name, target, now) => a' := AddRuleRefines(t, name, target, now, a);
    case RemoveRule(name, target) => a' := RemoveRuleRefines(t, name, target, a);
    case RemovePeer(name, force) => a' := RemovePeerRefines(t, name, force, a);
  }

  lemma AddPeerRefines(t: Tables, p: Peer, a: Acl) returns (a': Acl)
    requires WellFormed(t) && Represents(t, a) && |a.peers| == |t.peers|
    ensures var op := AddPeer(p);
            WellFormed(After(t, op)) && Represents(After(t, op), a') && AclStep(a, op, a', Apply(t, op).reply)
  {
    a' := a;
    if !HasName(t, p.name) && |t.peers| < MAX_PEERS {
      a' := a.(peers := a.peers[p.name := p]);
      AppendPeer(t, p, a);
      hide WellFormed, Represents;
    }
  }

  lemma AppendPeer(t: Tables, p: Peer, a: Acl)
    requires WellFormed(t) && Represents(t, a) && !HasName(t, p.name) && |t.peers| < MAX_PEERS
    ensures var t' := t.(peers := t.peers + [p]);
            WellFormed(t') && Represents(t', a.(peers := a.peers[p.name := p]))
  {
    var t' := t.(peers := t.peers + [p]);
    assert forall i :: 0 <= i < |t.peers| ==> t'.peers[i] == t.peers[i];
    assert t'.peers[|t.peers|] == p;
    forall n ensures HasName(t', n) <==> HasName(t, n) || n == p.name {
      if HasName(t, n) {
        var k :| 0 <= k < |t.peers| && t.peers[k].name == n;
        assert t'.peers[k].name == n;
      }
    }
    assert forall n, g :: RuleAllows(t', n, g) == RuleAllows(t, n, g);
  }

  /** Changing one peer's `lastSeen` in the list changes it in the map. */
  lemma TouchOne(t: Tables, i: nat, now: string, a: Acl)
    requires WellFormed(t) && Represents(t, a) && i < |t.peers|
    ensures var n := t.peers[i].name;
            var t' := t.(peers := t.peers[i := t.peers[i].(lastSeen := now)]);
            && WellFormed(t')
            && Represents(t', a.(peers := a.peers[n := a.peers[n].(lastSeen := now)]))
  {
    var t' := t.(peers := t.peers[i := t.peers[i].(lastSeen := now)]);
    assert forall k :: 0 <= k < |t.peers| ==> t'.peers[k].name == t.peers[k].name;
    forall m ensures HasName(t', m) <==> HasName(t, m) {
      if HasName(t, m) {
        var k :| 0 <= k < |t.peers| && t.peers[k].name == m;
        assert t'.peers[k].name == m;
      }
    }
    assert forall m, g :: RuleAllows(t', m, g) == RuleAllows(t, m, g);
  }

  lemma TouchRefines(t: Tables, node: string, now: string, a: Acl) returns (a': Acl)
    requires WellFormed(t) && Represents(t, a)
    ensures var op := TouchLastSeen(node, now);
            WellFormed(After(t, op)) && Represents(After(t, op), a') && AclStep(a, op, a', Apply(t, op).reply)
  {
    a' := a;
    var i := NodeIndex(t, node);
    if i < |t.peers| {
      var n := t.peers[i].name;
      a' := a.(peers := a.peers[n := a.peers[n].(lastSeen := now)]);
      TouchOne(t, i, now, a);
      assert n in a.peers && SameNode(a.peers[n].nodeId, node);
    } else {
      forall n | n in a.peers ensures !SameNode(a.peers[n].nodeId, node) {
        var k :| 0 <= k < |t.peers| && t.peers[k].name == n;
        assert a.peers[t.peers[k].name] == t.peers[k];
      }
    }
  }

  lemma AddRuleRefines(t: Tables, name: string, target: string, now: string, a: Acl) returns (a': Acl)
    requires WellFormed(t) && Represents(t, a) && |a.grants| == |t.rules|
    ensures var op := AddRule(name, target, now);
            WellFormed(After(t, op)) && Represents(After(t, op), a') && AclStep(a, op, a', Apply(t, op).reply)
  {
    a' := a;
    if HasName(t, name) && |t.rules| < MAX_RULES {
      var i := RuleIndex(t, name, target);
      if i < |t.rules| {
        assert RuleAllows(t, name, target);
        assert a.grants + {(name, target)} == a.grants;
      } else {
        var t' := After(t, AddRule(name, target, now));
        a' := a.(grants := a.grants + {(name, target)});
        assert forall k :: 0 <= k < |t.rules| ==> t'.rules[k] == t.rules[k];
        assert t'.rules[|t.rules|] == Rule(name, target, now);
        assert forall n :: HasName(t, n) <==> HasName(t', n);
        forall n, g ensures RuleAllows(t', n, g) <==> RuleAllows(t, n, g) || (n, g) == (name, target) {
          if RuleAllows(t, n, g) {
            var k :| 0 <= k < |t.rules| && t.rules[k].peer == n && t.rules[k].target == g;
            assert t'.rules[k].peer == n;
          }
        }
      }
    }
  }

  lemma RemoveRuleRefines(t: Tables, name: string, target: string, a: Acl) returns (a': Acl)
    requires WellFormed(t) && Represents(t, a)
    ensures var op := RemoveRule(name, target);
            WellFormed(After(t, op)) && Represents(After(t, op), a') && AclStep(a, op, a', Apply(t, op).reply)
  {
    a' := a;
    if HasName(t, name) {
      var kept := DropRule(t.rules, name, target);
      var t' := t.(rules := kept);
      a' := a.(grants := a.grants - {(name, target)});
      DropRuleMembers(t, name, target, t');
      FilterKeepsAll(t.rules, (r: Rule) => !(r.peer == name && r.target == target));
      assert RuleAllows(t, name, target) <==> |kept| != |t.rules| by {
        if RuleAllows(t, name, target) {
          var i :| 0 <= i < |t.rules| && t.rules[i].peer == name && t.rules[i].target == target;
          assert t.rules[i] in t.rules;
        }
      }
      assert forall n :: HasName(t, n) <==> HasName(t', n);
      if |kept| == |t.rules| { assert t' == t; }
    }
  }

  lemma DropOnePeer(t: Tables, name: string, a: Acl, i: nat)
    requires WellFormed(t) && Represents(t, a) && i < |DropPeer(t, name).peers|
    ensures var p := DropPeer(t, name).peers[i];
            p.name in a.peers && p.name != name && a.peers[p.name] == p
  {
    var p := DropPeer(t, name).peers[i];
    assert p in DropPeer(t, name).peers;
    var k :| 0 <= k < |t.peers| && t.peers[k] == p;
  }

  lemma DropOne(t: Tables, name: string, a: Acl, a': Acl)
    requires WellFormed(t) && Represents(t, a)
    requires a' == Acl(a.peers - {name}, set g | g in a.grants && g.0 != name)
    ensures Represents(DropPeer(t, name), a')
  {
    var t' := DropPeer(t, name);
    assert (forall n :: n in a'.peers <==> HasName(t', n)) && (forall n, g :: (n, g) in a'.grants <==> RuleAllows(t', n, g)) by {
      DropPeerMembers(t, name);
    }
    forall i | 0 <= i < |t'.peers| ensures t'.peers[i].name in a'.peers && a'.peers[t'.peers[i].name] == t'.peers[i] {
      DropOnePeer(t, name, a, i);
    }
  }

  lemma RulesAreGrants(t: Tables, name: string, a: Acl)
    requires Represents(t, a)
    ensures HasRules(t, name) <==> exists g :: g in a.grants && g.0 == name
  {
    if HasRules(t, name) {
      var i :| 0 <= i < |t.rules| && t.rules[i].peer == name;
      assert RuleAllows(t, t.rules[i].peer, t.rules[i].target);
      assert (t.rules[i].peer, t.rules[i].target) in a.grants;
    }
    if g :| g in a.grants && g.0 == name {
      assert RuleAllows(t, g.0, g.1);
    }
  }

  lemma RemovePeerRefines(t: Tables, name: string, force: bool, a: Acl) returns (a': Acl)
    requires WellFormed(t) && Represents(t, a)
    ensures var op := RemovePeer(name, force);
            WellFormed(After(t, op)) && Represents(After(t, op), a') && AclStep(a, op, a', Apply(t, op).reply)
  {
    a' := a;
    RulesAreGrants(t, name, a);
    if HasName(t, name) && (force || !HasRules(t, name)) {
      a' := Acl(a.peers - {name}, set g | g in a.grants && g.0 != name);
      DropPeerMembers(t, name);
      DropOne(t, name, a, a');
    }
  }
}

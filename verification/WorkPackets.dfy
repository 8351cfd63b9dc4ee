/** Release qualification of work packets: one pass in contract order, and how it
    relates to the least set of packets that can pass. */
module WorkPackets {
  import opened Contracts
  import opened ContractGraph

  datatype Packet = Packet(
    id: string,
    gates: set<string>,
    cannotBegin: seq<string>,
    cannotIntegrate: seq<string>,
    cannotPass: seq<string>)

  function Dependencies(p: Packet): set<string>
  {
    set d | d in p.cannotBegin + p.cannotIntegrate + p.cannotPass
  }

  /** A packet passes on its own gates and on the packets passed before it. */
  predicate Passes(p: Packet, gates: set<string>, passed: set<string>)
  {
    p.gates <= gates && Dependencies(p) <= passed
  }

  datatype PacketResult = PacketResult(packet: string, passed: bool)

  function Passed(packets: seq<Packet>, gates: set<string>): set<string>
  {
    if packets == [] then {}
    else
      var before := Passed(packets[..|packets| - 1], gates);
      var p := packets[|packets| - 1];
      if Passes(p, gates, before) then before + {p.id} else before
  }

  function ResultAt(packets: seq<Packet>, gates: set<string>, i: nat): PacketResult
    requires i < |packets|
  {
    PacketResult(packets[i].id, Passes(packets[i], gates, Passed(packets[..i], gates)))
  }

  /** `packet_results`. */
  method PacketResults(packets: seq<Packet>, gates: set<string>) returns (results: seq<PacketResult>)
    ensures |results| == |packets|
    ensures forall i :: 0 <= i < |packets| ==> results[i] == ResultAt(packets, gates, i)
    ensures forall id :: id in Passed(packets, gates) <==> PacketResult(id, true) in results
  {
    hide Passes;
    results := [];
    var passed: set<string> := {};
    for i := 0 to |packets|
      invariant |results| == i && passed == Passed(packets[..i], gates)
      invariant forall k :: 0 <= k < i ==> results[k] == ResultAt(packets, gates, k)
      invariant forall id :: id in passed <==> PacketResult(id, true) in results
    {
      var p := packets[i];
      assert packets[..i + 1][..i] == packets[..i];
      var ok := Passes(p, gates, passed);
      ghost var before := results;
      results := results + [PacketResult(p.id, ok)];
      assert forall r :: r in results <==> r in before || r == PacketResult(p.id, ok);
      if ok { passed := passed + {p.id}; }
    }
    assert packets[..|packets|] == packets;
  }

  /******* The least fixpoint *******/

  /** Whatever could pass on members of the set is in the set. */
  ghost predicate Closed(packets: seq<Packet>, gates: set<string>, s: set<string>)
  {
    forall i :: 0 <= i < |packets| && Passes(packets[i], gates, s) ==> packets[i].id in s
  }

  ghost predicate IsLeast(packets: seq<Packet>, gates: set<string>, s: set<string>)
  {
    Closed(packets, gates, s) && forall t :: Closed(packets, gates, t) ==> s <= t
  }

  /** Nothing passes that does not belong to the least fixpoint: what the pass
      accepts is in every closed set. */
  lemma {:induction false} PassedIsEarned(packets: seq<Packet>, gates: set<string>, s: set<string>)
    requires Closed(packets, gates, s)
    ensures Passed(packets, gates) <= s
  {
    if packets != [] {
      var before := packets[..|packets| - 1];
      assert forall i :: 0 <= i < |before| ==> before[i] == packets[i];
      PassedIsEarned(before, gates, s);
    }
  }

  /** Every packet is listed after all it depends on. */
  predicate Ordered(packets: seq<Packet>)
  {
    forall i, j :: 0 <= i < |packets| && 0 <= j < |packets| && packets[j].id in Dependencies(packets[i]) ==> j < i
  }

  lemma {:induction false} PassedGrows(packets: seq<Packet>, gates: set<string>, n: nat)
    requires n <= |packets|
    ensures Passed(packets[..n], gates) <= Passed(packets, gates)
  {
    if n < |packets| {
      PassedGrows(packets[..|packets| - 1], gates, n);
      assert packets[..|packets| - 1][..n] == packets[..n];
    } else {
      assert packets[..n] == packets;
    }
  }

  lemma {:induction false} PassedByWhom(packets: seq<Packet>, gates: set<string>, id: string)
    requires id in Passed(packets, gates)
    ensures exists i :: 0 <= i < |packets| && packets[i].id == id && Passes(packets[i], gates, Passed(packets[..i], gates))
  {
    var last := |packets| - 1;
    var before := packets[..last];
    if id in Passed(before, gates) {
      PassedByWhom(before, gates, id);
      var i :| 0 <= i < |before| && before[i].id == id && Passes(before[i], gates, Passed(before[..i], gates));
      assert before[..i] == packets[..i] && packets[i] == before[i];
    }
  }

  lemma PassedAt(packets: seq<Packet>, gates: set<string>, j: nat)
    requires j < |packets| && Passes(packets[j], gates, Passed(packets[..j], gates))
    ensures packets[j].id in Passed(packets[..j + 1], gates)
  {
    assert packets[..j + 1][..j] == packets[..j];
  }

  /** Listed after its dependencies, a packet sees all of them that pass. */
  lemma {:induction false} OrderedPrefix(packets: seq<Packet>, gates: set<string>, i: nat, id: string)
    requires Ordered(packets) && i < |packets| && id in Dependencies(packets[i]) && id in Passed(packets, gates)
    ensures id in Passed(packets[..i], gates)
  {
    hide Passed, Passes, Dependencies;
    PassedByWhom(packets, gates, id);
    var j :| 0 <= j < |packets| && packets[j].id == id && Passes(packets[j], gates, Passed(packets[..j], gates));
    PassedAt(packets, gates, j);
    PassedGrows(packets[..i], gates, j + 1);
    assert packets[..i][..j + 1] == packets[..j + 1];
  }

  /** With dependencies listed first, the single pass computes the least fixpoint
      of "own gates passed and all dependencies passed". */
  lemma OrderedPassIsLeast(packets: seq<Packet>, gates: set<string>)
    requires Ordered(packets)
    ensures IsLeast(packets, gates, Passed(packets, gates))
  {
    var s := Passed(packets, gates);
    forall i | 0 <= i < |packets| && Passes(packets[i], gates, s) ensures packets[i].id in s {
      forall d | d in Dependencies(packets[i]) ensures d in Passed(packets[..i], gates) {
        OrderedPrefix(packets, gates, i, d);
      }
      PassedAt(packets, gates, i);
      PassedGrows(packets, gates, i + 1);
    }
    forall t | Closed(packets, gates, t) ensures s <= t { PassedIsEarned(packets, gates, t); }
  }

  /** What could pass in any order: the members of every closed set. */
  ghost function LeastPass(packets: seq<Packet>, gates: set<string>): set<string>
  {
    set i | 0 <= i < |packets| && (forall s :: Closed(packets, gates, s) ==> packets[i].id in s) :: packets[i].id
  }

  lemma LeastPassIsLeast(packets: seq<Packet>, gates: set<string>)
    ensures IsLeast(packets, gates, LeastPass(packets, gates))
  {
    var least := LeastPass(packets, gates);
    forall i | 0 <= i < |packets| && Passes(packets[i], gates, least) ensures packets[i].id in least {
      forall s | Closed(packets, gates, s) ensures packets[i].id in s { assert least <= s; }
    }
  }

  /** A member of the least set is the id of a packet that passes on it. */
  lemma LeastByWhom(packets: seq<Packet>, gates: set<string>, least: set<string>, id: string)
    requires IsLeast(packets, gates, least) && id in least
    ensures exists j :: 0 <= j < |packets| && packets[j].id == id && Passes(packets[j], gates, least)
  {
    if !exists j :: 0 <= j < |packets| && packets[j].id == id && Passes(packets[j], gates, least) {
      assert Closed(packets, gates, least - {id}) by {
        forall i | 0 <= i < |packets| && Passes(packets[i], gates, least - {id}) ensures packets[i].id in least - {id} {
          assert Passes(packets[i], gates, least);
        }
      }
    }
  }

  predicate UniqueIds(packets: seq<Packet>)
  {
    forall i, j :: 0 <= i < j < |packets| ==> packets[i].id != packets[j].id
  }

  predicate EarlierPass(packets: seq<Packet>, gates: set<string>, least: set<string>, i: nat, d: string)
    requires i < |packets|
  {
    exists j :: 0 <= j < i && packets[j].id == d && Passes(packets[j], gates, least)
  }

  /** Every packet that can pass has each dependency listed earlier, as a packet
      that can pass itself. */
  ghost predicate EarnedInOrder(packets: seq<Packet>, gates: set<string>, least: set<string>)
  {
    forall i, d :: 0 <= i < |packets| && Passes(packets[i], gates, least) && d in Dependencies(packets[i])
      ==> EarlierPass(packets, gates, least, i, d)
  }

  lemma {:induction false} EarnedPrefix(packets: seq<Packet>, gates: set<string>, least: set<string>, i: nat)
    requires EarnedInOrder(packets, gates, least) && i < |packets| && Passes(packets[i], gates, least)
    ensures packets[i].id in Passed(packets[..i + 1], gates)
    decreases i
  {
    forall d | d in Dependencies(packets[i]) ensures d in Passed(packets[..i], gates) {
      assert EarlierPass(packets, gates, least, i, d);
      var j :| 0 <= j < i && packets[j].id == d && Passes(packets[j], gates, least);
      EarnedPrefix(packets, gates, least, j);
      PassedGrows(packets[..i], gates, j + 1);
      assert packets[..i][..j + 1] == packets[..j + 1];
    }
    PassedAt(packets, gates, i);
  }

  /** The single pass finds everything that can pass exactly when no packet that
      can is listed before one of its dependencies. */
  lemma PassIsLeastExactly(packets: seq<Packet>, gates: set<string>, least: set<string>)
    requires UniqueIds(packets) && IsLeast(packets, gates, least)
    ensures Passed(packets, gates) == least <==> EarnedInOrder(packets, gates, least)
  {
    PassedIsEarned(packets, gates, least);
    if EarnedInOrder(packets, gates, least) {
      forall id | id in least ensures id in Passed(packets, gates) {
        LeastByWhom(packets, gates, least, id);
        var j :| 0 <= j < |packets| && packets[j].id == id && Passes(packets[j], gates, least);
        EarnedPrefix(packets, gates, least, j);
        PassedGrows(packets, gates, j + 1);
      }
    }
    if Passed(packets, gates) == least {
      forall i, d | 0 <= i < |packets| && Passes(packets[i], gates, least) && d in Dependencies(packets[i])
        ensures EarlierPass(packets, gates, least, i, d)
      {
        PassedInOrder(packets, gates, i, d);
      }
    }
  }

  /** In a completed pass the dependencies of a passed packet were passed before. */
  lemma PassedInOrder(packets: seq<Packet>, gates: set<string>, i: nat, d: string)
    requires UniqueIds(packets) && IsLeast(packets, gates, Passed(packets, gates))
    requires i < |packets| && Passes(packets[i], gates, Passed(packets, gates)) && d in Dependencies(packets[i])
    ensures EarlierPass(packets, gates, Passed(packets, gates), i, d)
  {
    hide Passed;
    var least := Passed(packets, gates);
    assert packets[i].id in least;
    PassedByWhom(packets, gates, packets[i].id);
    var k :| 0 <= k < |packets| && packets[k].id == packets[i].id && Passes(packets[k], gates, Passed(packets[..k], gates));
    assert k == i;
    PassedByWhom(packets[..i], gates, d);
    var j :| 0 <= j < |packets[..i]| && packets[..i][j].id == d && Passes(packets[..i][j], gates, Passed(packets[..i][..j], gates));
    assert packets[..i][..j] == packets[..j];
    PassedGrows(packets, gates, j);
    assert packets[j].id == d && Passes(packets[j], gates, least);
  }

  /** There are gates under which the packet passes in some order. */
  ghost predicate CanPass(packets: seq<Packet>, i: nat)
    requires i < |packets|
  {
    exists gates :: Passes(packets[i], gates, LeastPass(packets, gates))
  }

  ghost predicate InOrderWherePassing(packets: seq<Packet>)
  {
    forall i, j :: 0 <= i < |packets| && 0 <= j < |packets| && CanPass(packets, i) && packets[j].id in Dependencies(packets[i])
      ==> j < i
  }

  /** For all gates at once: the pass is complete exactly when no packet that can
      pass at all is listed before one of its dependencies. */
  lemma PassIsLeastForAllGates(packets: seq<Packet>)
    requires UniqueIds(packets)
    ensures (forall gates :: Passed(packets, gates) == LeastPass(packets, gates)) <==> InOrderWherePassing(packets)
  {
    if forall gates :: Passed(packets, gates) == LeastPass(packets, gates) {
      forall i, j | 0 <= i < |packets| && 0 <= j < |packets| && CanPass(packets, i) && packets[j].id in Dependencies(packets[i])
        ensures j < i
      {
        var gates :| Passes(packets[i], gates, LeastPass(packets, gates));
        LeastPassIsLeast(packets, gates);
        assert Passed(packets, gates) == LeastPass(packets, gates);
        PassedInOrder(packets, gates, i, packets[j].id);
      }
    }
    if InOrderWherePassing(packets) {
      forall gates ensures Passed(packets, gates) == LeastPass(packets, gates) {
        var least := LeastPass(packets, gates);
        LeastPassIsLeast(packets, gates);
        forall i, d | 0 <= i < |packets| && Passes(packets[i], gates, least) && d in Dependencies(packets[i])
          ensures EarlierPass(packets, gates, least, i, d)
        {
          assert CanPass(packets, i) && d in least;
          LeastByWhom(packets, gates, least, d);
          var j :| 0 <= j < |packets| && packets[j].id == d && Passes(packets[j], gates, least);
        }
        PassIsLeastExactly(packets, gates, least);
      }
    }
  }

  /** More gates never lose a packet. */
  lemma {:induction false} PassedIsMonotone(packets: seq<Packet>, gates: set<string>, more: set<string>)
    requires gates <= more
    ensures Passed(packets, gates) <= Passed(packets, more)
  {
    if packets != [] { PassedIsMonotone(packets[..|packets| - 1], gates, more); }
  }

  /** Out of order the pass can stop short of the fixpoint. */
  lemma DisorderLosesPackets()
    ensures var packets := [Packet("b", {}, ["a"], [], []), Packet("a", {}, [], [], [])];
            && Passed(packets, {}) == {"a"}
            && forall s :: IsLeast(packets, {}, s) ==> "b" in s
  {
    var packets := [Packet("b", {}, ["a"], [], []), Packet("a", {}, [], [], [])];
    assert packets[..1] == [packets[0]] && packets[..1][..0] == [];
    assert "a" in Dependencies(packets[0]);
    forall s | IsLeast(packets, {}, s) ensures "b" in s {
      assert Passes(packets[1], {}, s);
      assert "a" in s;
      assert Passes(packets[0], {}, s);
    }
  }

  /******* The dependency graph of a contract *******/

  function RelationEdges(targets: seq<string>, id: string): seq<Edge>
  {
    if targets == [] then [] else [(targets[0], id)] + RelationEdges(targets[1..], id)
  }

  function CombinedEdges(packets: seq<Packet>): seq<Edge>
  {
    if packets == [] then []
    else
      var p := packets[0];
      RelationEdges(p.cannotBegin, p.id) + RelationEdges(p.cannotIntegrate, p.id) + RelationEdges(p.cannotPass, p.id)
      + CombinedEdges(packets[1..])
  }

  lemma {:induction false} RelationEdge(targets: seq<string>, id: string, e: Edge)
    ensures e in RelationEdges(targets, id) <==> e.1 == id && e.0 in targets
  {
    if targets != [] {
      RelationEdge(targets[1..], id, e);
      assert e.0 in targets <==> e.0 == targets[0] || e.0 in targets[1..];
    }
  }

  /** The combined graph has exactly the dependencies the single pass looks at. */
  lemma {:induction false} CombinedEdge(packets: seq<Packet>, e: Edge)
    ensures e in CombinedEdges(packets) <==>
              exists i :: 0 <= i < |packets| && packets[i].id == e.1 && e.0 in Dependencies(packets[i])
  {
    if packets != [] {
      var p := packets[0];
      CombinedEdge(packets[1..], e);
      RelationEdge(p.cannotBegin, p.id, e);
      RelationEdge(p.cannotIntegrate, p.id, e);
      RelationEdge(p.cannotPass, p.id, e);
      if e in CombinedEdges(packets[1..]) {
        var i :| 0 <= i < |packets[1..]| && packets[1..][i].id == e.1 && e.0 in Dependencies(packets[1..][i]);
        assert packets[i + 1] == packets[1..][i];
      }
      if i :| 0 <= i < |packets| && packets[i].id == e.1 && e.0 in Dependencies(packets[i]) {
        if i > 0 { assert packets[1..][i - 1] == packets[i]; }
      }
    }
  }

  /** A contract in dependency order has an acyclic combined graph, so it passes
      the cycle check. */
  lemma {:induction false} OrderedContractIsAcyclic(packets: seq<Packet>)
    requires Ordered(packets) && UniqueIds(packets)
    ensures var ids := set i | 0 <= i < |packets| :: packets[i].id;
            !HasCycle(KnownEdges(ids, CombinedEdges(packets)))
  {
    var ids := set i | 0 <= i < |packets| :: packets[i].id;
    var order := seq(|packets|, i requires 0 <= i < |packets| => packets[i].id);
    var edges := KnownEdges(ids, CombinedEdges(packets));
    forall n ensures n in ids <==> n in order {
      if n in ids {
        var i :| 0 <= i < |packets| && n == packets[i].id;
        assert order[i] == n;
      }
    }
    forall i, j | 0 <= i < |order| && 0 <= j < |order| && (order[i], order[j]) in edges ensures i < j {
      CombinedEdge(packets, (order[i], order[j]));
    }
    TopologicalMeansAcyclic(ids, edges, order);
  }
}

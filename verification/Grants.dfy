/** Delegated runtime grants: admission of a grant set, the walk from a grant to
    its root, and the choice of a grant for a request. */
module Grants {
  import opened Contracts

  type GrantTable = map<string, RuntimeGrant>

  datatype GrantError = InvalidGrant | ParentMissing | AttenuationViolation

  /******* Admission of a grant set *******/

  predicate SelfValid(g: RuntimeGrant)
  {
    && g.grantId != ""
    && g.issuer.Service?
    && g.independentApprover.Operator?
    && g.independentApprover != g.activationId
    && g.quota != 0
    && g.notBefore < g.expiresAt
  }

  predicate Attenuates(g: RuntimeGrant, parent: RuntimeGrant)
  {
    && g.issuer == parent.serviceId
    && g.machineId == parent.machineId
    && g.serviceId == parent.serviceId
    && g.activationId == parent.activationId
    && g.capability == parent.capability
    && g.operation == parent.operation
    && parent.targetPrefix <= g.targetPrefix
    && parent.notBefore <= g.notBefore
    && g.expiresAt <= parent.expiresAt
    && g.quota <= parent.quota
    && g.remainingDelegationDepth < parent.remainingDelegationDepth
    && g.generation == parent.generation
    && g.stateVersion == parent.stateVersion
  }

  /** Collecting a list into a table: the last grant with an id wins. */
  function ById(grants: seq<RuntimeGrant>): (m: GrantTable)
    ensures forall id :: id in m ==> m[id] in grants && m[id].grantId == id
    ensures forall g :: g in grants ==> g.grantId in m
  {
    if grants == [] then map[]
    else
      var last := grants[|grants| - 1];
      ById(grants[..|grants| - 1])[last.grantId := last]
  }

  function CheckGrant(table: GrantTable, g: RuntimeGrant): Result<(), GrantError>
  {
    if !SelfValid(g) then Err(InvalidGrant)
    else match g.parentGrantId
      case None => Ok(())
      case Some(p) =>
        if p !in table then Err(ParentMissing)
        else if !Attenuates(g, table[p]) then Err(AttenuationViolation)
        else Ok(())
  }

  /** The verdict of the first grant that fails, in list order. */
  function FirstFailure(table: GrantTable, grants: seq<RuntimeGrant>): Result<(), GrantError>
  {
    if grants == [] then Ok(())
    else if CheckGrant(table, grants[0]).Err? then CheckGrant(table, grants[0])
    else FirstFailure(table, grants[1..])
  }

  function ValidateRuntimeGrants(grants: seq<RuntimeGrant>): Result<(), GrantError>
  {
    FirstFailure(ById(grants), grants)
  }

  predicate Sound(m: GrantTable, id: string)
    requires id in m
  {
    && m[id].grantId == id
    && SelfValid(m[id])
    && (m[id].parentGrantId.Some? ==>
          && m[id].parentGrantId.value in m
          && Attenuates(m[id], m[m[id].parentGrantId.value]))
  }

  /** What every table built from an accepted list satisfies. */
  predicate ValidTable(m: GrantTable)
  {
    forall id {:trigger Sound(m, id)} :: id in m ==> Sound(m, id)
  }

  lemma {:induction false} FirstFailureExact(table: GrantTable, grants: seq<RuntimeGrant>)
    ensures FirstFailure(table, grants).Ok? <==> forall g :: g in grants ==> CheckGrant(table, g).Ok?
    ensures FirstFailure(table, grants).Err? ==>
              exists i :: 0 <= i < |grants|
                && CheckGrant(table, grants[i]) == FirstFailure(table, grants)
                && forall j :: 0 <= j < i ==> CheckGrant(table, grants[j]).Ok?
  {
    if grants != [] {
      FirstFailureExact(table, grants[1..]);
      assert forall g :: g in grants <==> g == grants[0] || g in grants[1..];
      if CheckGrant(table, grants[0]).Ok? && FirstFailure(table, grants).Err? {
        var i :| 0 <= i < |grants[1..]|
          && CheckGrant(table, grants[1..][i]) == FirstFailure(table, grants[1..])
          && forall j :: 0 <= j < i ==> CheckGrant(table, grants[1..][j]).Ok?;
        assert grants[i + 1] == grants[1..][i];
        forall j | 0 <= j < i + 1 ensures CheckGrant(table, grants[j]).Ok? {
          if j > 0 { assert grants[j] == grants[1..][j - 1]; }
        }
      }
    }
  }

  /** Acceptance is exactly "every listed grant is sound against the table". */
  lemma AcceptedGrantsAreValid(grants: seq<RuntimeGrant>)
    ensures ValidateRuntimeGrants(grants).Ok? <==>
              forall g :: g in grants ==>
                && SelfValid(g)
                && (g.parentGrantId.Some? ==>
                      && g.parentGrantId.value in ById(grants)
                      && Attenuates(g, ById(grants)[g.parentGrantId.value]))
    ensures ValidateRuntimeGrants(grants).Ok? ==> ValidTable(ById(grants))
  {
    var table := ById(grants);
    FirstFailureExact(table, grants);
    if ValidateRuntimeGrants(grants).Ok? {
      forall id | id in table ensures Sound(table, id) { assert CheckGrant(table, table[id]).Ok?; }
    }
  }

  /******* The walk to the root *******/

  /** Depth rises strictly from child to parent and is a 32-bit number: that is
      all that bounds the walk. */
  function Climb(m: GrantTable, id: string): nat
  {
    if id in m then U32_MAX - m[id].remainingDelegationDepth + 1 else 0
  }

  function Parent(m: GrantTable, id: string): Option<string>
  {
    if id in m then m[id].parentGrantId else None
  }

  /** From the grant to its root; an unknown id is a chain of its own. */
  function Chain(m: GrantTable, id: string): (chain: seq<string>)
    requires ValidTable(m)
    ensures |chain| >= 1 && chain[0] == id
    decreases Climb(m, id)
  {
    match Parent(m, id)
    case None => [id]
    case Some(p) => assert Sound(m, id); [id] + Chain(m, p)
  }

  lemma {:induction false} ChainClimbs(m: GrantTable, id: string)
    requires ValidTable(m) && id in m
    ensures forall i :: 0 <= i < |Chain(m, id)| ==> Chain(m, id)[i] in m
    ensures forall i, j :: 0 <= i < j < |Chain(m, id)| ==>
              m[Chain(m, id)[i]].remainingDelegationDepth < m[Chain(m, id)[j]].remainingDelegationDepth
    decreases Climb(m, id)
  {
    assert Sound(m, id);
    match Parent(m, id)
    case None =>
    case Some(p) =>
      ChainClimbs(m, p);
      var rest := Chain(m, p);
      assert rest[0] == p;
      forall j | 0 < j < |Chain(m, id)|
        ensures m[id].remainingDelegationDepth < m[Chain(m, id)[j]].remainingDelegationDepth
      {
        assert Chain(m, id)[j] == rest[j - 1];
      }
  }

  predicate NoDuplicates<T(==)>(s: seq<T>)
  {
    forall i, j :: 0 <= i < j < |s| ==> s[i] != s[j]
  }

  lemma ChainHasNoDuplicates(m: GrantTable, id: string)
    requires ValidTable(m)
    ensures NoDuplicates(Chain(m, id))
  {
    if id in m { ChainClimbs(m, id); }
  }

  lemma ChainStep(m: GrantTable, id: string)
    requires ValidTable(m)
    ensures Chain(m, id) == [id] + if Parent(m, id).Some? then Chain(m, Parent(m, id).value) else []
    ensures Parent(m, id).Some? ==> Climb(m, Parent(m, id).value) < Climb(m, id)
  {
    assert id in m ==> Sound(m, id);
  }

  /** `grant_chain`: the loop computes the chain. */
  method GrantChain(m: GrantTable, id: string) returns (result: seq<string>)
    requires ValidTable(m)
    ensures result == Chain(m, id)
    ensures NoDuplicates(result)
  {
    hide ValidTable, Chain, Climb, NoDuplicates, Parent;
    result := [];
    var current := Some(id);
    while current.Some?
      invariant Chain(m, id) == result + if current.Some? then Chain(m, current.value) else []
      decreases if current.Some? then Climb(m, current.value) + 1 else 0
    {
      ChainStep(m, current.value);
      ghost var rest := if Parent(m, current.value).Some? then Chain(m, Parent(m, current.value).value) else [];
      assert result + ([current.value] + rest) == (result + [current.value]) + rest;
      result := result + [current.value];
      current := Parent(m, current.value);
    }
    ChainHasNoDuplicates(m, id);
  }

  predicate AnyRevoked(revoked: set<string>, chain: seq<string>)
  {
    exists i :: 0 <= i < |chain| && chain[i] in revoked
  }

  /** `chain_inactive`: on an accepted table the cycle guard never fires, so the
      walk says exactly whether some member of the chain is revoked. */
  method ChainInactive(m: GrantTable, revoked: set<string>, id: string) returns (inactive: bool)
    requires ValidTable(m)
    ensures inactive <==> AnyRevoked(revoked, Chain(m, id))
  {
    hide ValidTable, Chain, Climb, Parent;
    ChainHasNoDuplicates(m, id);
    var chain := Chain(m, id);
    var current := Some(id);
    var seen: set<string> := {};
    ghost var k := 0;
    while current.Some?
      invariant 0 <= k <= |chain|
      invariant chain[k..] == if current.Some? then Chain(m, current.value) else []
      invariant seen == set i | 0 <= i < k :: chain[i]
      invariant !AnyRevoked(revoked, chain[..k])
      decreases if current.Some? then Climb(m, current.value) + 1 else 0
    {
      assert chain[k] == chain[k..][0] == current.value;
      assert current.value !in seen;
      if current.value in seen || current.value in revoked {
        return true;
      }
      ChainStep(m, current.value);
      assert chain[k + 1..] == chain[k..][1..];
      assert chain[..k + 1] == chain[..k] + [chain[k]];
      seen := seen + {current.value};
      current := Parent(m, current.value);
      k := k + 1;
    }
    assert chain[..k] == chain;
    return false;
  }

  /******* Matching a request *******/

  predicate StructurallyValid(rq: RuntimeAuthorityRequest, now: nat)
  {
    && rq.schemaVersion == V2_0
    && rq.requestId != ""
    && (rq.callerServiceId == rq.serviceId
        || (rq.callerServiceId == Service(Effects)
            && rq.capability == RuntimeEffect
            && rq.serviceId == Service(Runtime)))
    && rq.machineId.Machine?
    && rq.serviceId.Service?
    && rq.activationId.Activation?
    && IsObjectiveId(rq.objectiveId)
    && rq.capability != OtherCapability("")
    && rq.operation != OtherOperation("")
    && rq.target != []
    && rq.generation.Generation?
    && rq.stateVersion.StateVersion?
    && rq.requestedAt <= now
    && now - rq.requestedAt <= 30
  }

  predicate Matches(g: RuntimeGrant, rq: RuntimeAuthorityRequest, now: nat)
  {
    && g.machineId == rq.machineId
    && g.serviceId == rq.serviceId
    && g.activationId == rq.activationId
    && g.capability == rq.capability
    && g.operation == rq.operation
    && g.targetPrefix <= rq.target
    && g.generation == rq.generation
    && g.stateVersion == rq.stateVersion
    && g.notBefore <= now < g.expiresAt
  }

  /** A request that a grant matches is matched by every one of its ancestors,
      none of which has a smaller quota. */
  lemma {:induction false} DelegationAttenuates(m: GrantTable, id: string, rq: RuntimeAuthorityRequest, now: nat)
    requires ValidTable(m) && id in m && Matches(m[id], rq, now)
    ensures forall i :: 0 <= i < |Chain(m, id)| ==>
              && Chain(m, id)[i] in m
              && Matches(m[Chain(m, id)[i]], rq, now)
              && m[id].quota <= m[Chain(m, id)[i]].quota
    decreases Climb(m, id)
  {
    assert Sound(m, id);
    match Parent(m, id)
    case None =>
    case Some(p) =>
      DelegationAttenuates(m, p, rq, now);
      assert Chain(m, id)[1..] == Chain(m, p);
      forall i | 0 < i < |Chain(m, id)|
        ensures && Chain(m, id)[i] in m
                && Matches(m[Chain(m, id)[i]], rq, now)
                && m[id].quota <= m[Chain(m, id)[i]].quota
      {
        assert Chain(m, id)[i] == Chain(m, p)[i - 1];
      }
  }

  /** `(target_prefix.len(), parent_grant_id.is_some())`, compared in order. */
  predicate RankLeq(a: RuntimeGrant, b: RuntimeGrant)
  {
    || |a.targetPrefix| < |b.targetPrefix|
    || (|a.targetPrefix| == |b.targetPrefix| && (a.parentGrantId.Some? ==> b.parentGrantId.Some?))
  }

  /** A hash map has no order, so any maximal matching grant may be chosen. */
  predicate IsChoice(m: GrantTable, rq: RuntimeAuthorityRequest, now: nat, choice: Option<string>)
  {
    if !StructurallyValid(rq, now) then choice == None
    else match choice
      case None => forall id :: id in m ==> !Matches(m[id], rq, now)
      case Some(best) =>
        && best in m
        && Matches(m[best], rq, now)
        && forall id :: id in m && Matches(m[id], rq, now) ==> RankLeq(m[id], m[best])
  }

  method SelectGrant(m: GrantTable, rq: RuntimeAuthorityRequest, now: nat) returns (choice: Option<string>)
    ensures IsChoice(m, rq, now, choice)
  {
    choice := None;
    if !StructurallyValid(rq, now) { return; }
    var rest := m.Keys;
    while rest != {}
      invariant rest <= m.Keys
      invariant choice.None? ==> forall id :: id in m && id !in rest ==> !Matches(m[id], rq, now)
      invariant choice.Some? ==>
                  && choice.value in m
                  && Matches(m[choice.value], rq, now)
                  && forall id :: id in m && id !in rest && Matches(m[id], rq, now) ==> RankLeq(m[id], m[choice.value])
      decreases rest
    {
      var id :| id in rest;
      rest := rest - {id};
      if Matches(m[id], rq, now) && (choice.None? || RankLeq(m[choice.value], m[id])) {
        choice := Some(id);
      }
    }
  }

  /** The base verdict, before the store applies revocation, state and quota. */
  function Judge(rq: RuntimeAuthorityRequest, broker: Identity, now: nat, choice: Option<string>, epoch: nat,
                 phase: Phase, configuration: ConfigurationDigest): Decision
  {
    Decision(rq, broker, choice.Some?, if choice.Some? then AUTHORIZED else UNAUTHORIZED, choice, now, epoch,
             phase, [], configuration)
  }
}

/** Dependency resolution over admitted packages: a worklist that takes the first
    provider of every required capability. */
module PackageResolver {
  import opened Contracts
  import ContractGraph

  datatype CapabilityVersion = CapabilityVersion(id: string, version: string)

  datatype Manifest = Manifest(
    id: string,
    offered: seq<CapabilityVersion>,
    required: seq<CapabilityVersion>,
    hardware: seq<string>,
    isolation: seq<string>)

  datatype HostProfile = HostProfile(hardware: set<string>, isolation: set<string>)

  datatype PackageError = PackageMissing | HostRequirementMissing | DependencyUnresolved

  /** The admitted packages, in the order a tree map iterates in. */
  type Catalog = seq<Manifest>

  /** Strictly before in key order. */
  predicate Before(a: string, b: string)
  {
    a != b && ContractGraph.Below(a, b)
  }

  predicate Ascending(ids: seq<string>)
  {
    forall i, j :: 0 <= i < j < |ids| ==> Before(ids[i], ids[j])
  }

  /** What a tree map guarantees: each key once, in ascending order. */
  predicate InKeyOrder(catalog: Catalog)
  {
    forall i, j :: 0 <= i < j < |catalog| ==> Before(catalog[i].id, catalog[j].id)
  }

  lemma {:induction false} BeforeIsTotal(a: string, b: string)
    ensures a == b || Before(a, b) || Before(b, a)
    ensures !(Before(a, b) && Before(b, a))
  {
    if a != [] && b != [] {
      BeforeIsTotal(a[1..], b[1..]);
      assert a == [a[0]] + a[1..] && b == [b[0]] + b[1..];
    }
  }

  /** An ascending list is determined by its members. */
  lemma {:induction false} AscendingUnique(a: seq<string>, b: seq<string>)
    requires Ascending(a) && Ascending(b) && forall id :: id in a <==> id in b
    ensures a == b
  {
    assert a != [] ==> a[0] in b;
    assert b != [] ==> b[0] in a;
    if a != [] && b != [] {
      BeforeIsTotal(a[0], b[0]);
      assert a[0] == b[0];
      forall id ensures id in a[1..] <==> id in b[1..] {
        assert id in a <==> id == a[0] || id in a[1..];
        assert id in b <==> id == b[0] || id in b[1..];
        assert a[0] !in a[1..] && b[0] !in b[1..];
      }
      AscendingUnique(a[1..], b[1..]);
    }
  }

  function Lookup(catalog: Catalog, id: string): (m: Option<Manifest>)
    ensures m.Some? ==> m.value in catalog && m.value.id == id
    ensures m.None? ==> forall i :: 0 <= i < |catalog| ==> catalog[i].id != id
  {
    if catalog == [] then None
    else if catalog[0].id == id then Some(catalog[0])
    else Lookup(catalog[1..], id)
  }

  function FirstProvider(catalog: Catalog, c: CapabilityVersion): (m: Option<Manifest>)
    ensures m.Some? ==> m.value in catalog && c in m.value.offered
    ensures m.None? ==> forall i :: 0 <= i < |catalog| ==> c !in catalog[i].offered
  {
    if catalog == [] then None
    else if c in catalog[0].offered then Some(catalog[0])
    else FirstProvider(catalog[1..], c)
  }

  predicate MeetsHost(m: Manifest, host: HostProfile)
  {
    && (forall h :: h in m.hardware ==> h in host.hardware)
    && (forall i :: i in m.isolation ==> i in host.isolation)
  }

  /** A package that can be part of a resolution. */
  predicate Usable(catalog: Catalog, host: HostProfile, id: string)
  {
    && Lookup(catalog, id).Some?
    && MeetsHost(Lookup(catalog, id).value, host)
    && forall c :: c in Lookup(catalog, id).value.required ==> FirstProvider(catalog, c).Some?
  }

  /** What is wrong with a package that is not. */
  function Obstacle(catalog: Catalog, host: HostProfile, id: string): PackageError
    requires !Usable(catalog, host, id)
  {
    if Lookup(catalog, id).None? then PackageMissing
    else if !MeetsHost(Lookup(catalog, id).value, host) then HostRequirementMissing
    else DependencyUnresolved
  }

  /** One package draws in another as first provider of something it requires. */
  predicate Draws(catalog: Catalog, from: string, to: string)
  {
    && Lookup(catalog, from).Some?
    && exists c :: c in Lookup(catalog, from).value.required
         && FirstProvider(catalog, c).Some? && FirstProvider(catalog, c).value.id == to
  }

  /******* The least closed set *******/

  ghost predicate ReachedIn(catalog: Catalog, roots: set<string>, id: string, steps: nat)
    decreases steps
  {
    if steps == 0 then id in roots
    else exists from :: ReachedIn(catalog, roots, from, steps - 1) && Draws(catalog, from, id)
  }

  ghost predicate Reached(catalog: Catalog, roots: set<string>, id: string)
  {
    exists steps: nat :: ReachedIn(catalog, roots, id, steps)
  }

  /** Contains the roots and everything its members draw in. */
  ghost predicate ClosedOver(catalog: Catalog, roots: set<string>, s: set<string>)
  {
    && roots <= s
    && forall a, b :: a in s && Draws(catalog, a, b) ==> b in s
  }

  lemma {:induction false} ReachedInClosed(catalog: Catalog, roots: set<string>, s: set<string>, id: string, steps: nat)
    requires ClosedOver(catalog, roots, s) && ReachedIn(catalog, roots, id, steps)
    ensures id in s
    decreases steps
  {
    if steps > 0 {
      var from :| ReachedIn(catalog, roots, from, steps - 1) && Draws(catalog, from, id);
      ReachedInClosed(catalog, roots, s, from, steps - 1);
    }
  }

  lemma ReachedStep(catalog: Catalog, roots: set<string>, a: string, b: string)
    requires Reached(catalog, roots, a) && Draws(catalog, a, b)
    ensures Reached(catalog, roots, b)
  {
    var steps: nat :| ReachedIn(catalog, roots, a, steps);
    assert ReachedIn(catalog, roots, b, steps + 1);
  }

  /** The reachable packages are the least set that holds the roots and is closed
      under first-provider choice. */
  lemma ReachedIsLeast(catalog: Catalog, roots: set<string>, s: set<string>)
    requires forall id :: id in s <==> Reached(catalog, roots, id)
    ensures ClosedOver(catalog, roots, s)
    ensures forall t :: ClosedOver(catalog, roots, t) ==> s <= t
  {
    forall id | id in roots ensures id in s { assert ReachedIn(catalog, roots, id, 0); }
    forall a, b | a in s && Draws(catalog, a, b) ensures b in s { ReachedStep(catalog, roots, a, b); }
    forall t | ClosedOver(catalog, roots, t) ensures s <= t {
      forall id | id in s ensures id in t {
        var steps: nat :| ReachedIn(catalog, roots, id, steps);
        ReachedInClosed(catalog, roots, t, id, steps);
      }
    }
  }

  /******* Resolution *******/

  /** The selected packages in key order. */
  function Listed(catalog: Catalog, selected: set<string>): seq<string>
  {
    if catalog == [] then []
    else (if catalog[0].id in selected then [catalog[0].id] else []) + Listed(catalog[1..], selected)
  }

  lemma {:induction false} ListedMembers(catalog: Catalog, selected: set<string>, id: string)
    ensures id in Listed(catalog, selected) <==> id in selected && Lookup(catalog, id).Some?
  {
    if catalog != [] { ListedMembers(catalog[1..], selected, id); }
  }

  lemma {:induction false} ListedAscends(catalog: Catalog, selected: set<string>)
    requires InKeyOrder(catalog)
    ensures Ascending(Listed(catalog, selected))
    ensures forall id :: id in Listed(catalog, selected) ==> exists i :: 0 <= i < |catalog| && catalog[i].id == id
  {
    if catalog != [] {
      var rest := Listed(catalog[1..], selected);
      ListedAscends(catalog[1..], selected);
      forall id | id in Listed(catalog, selected) ensures exists i :: 0 <= i < |catalog| && catalog[i].id == id {
        if id in rest {
          var i :| 0 <= i < |catalog[1..]| && catalog[1..][i].id == id;
          assert catalog[i + 1].id == id;
        } else {
          assert catalog[0].id == id;
        }
      }
      forall k | 0 <= k < |rest| ensures Before(catalog[0].id, rest[k]) {
        assert rest[k] in rest;
        var i :| 0 <= i < |catalog[1..]| && catalog[1..][i].id == rest[k];
      }
    }
  }

  function Ids(catalog: Catalog): set<string>
  {
    set i | 0 <= i < |catalog| :: catalog[i].id
  }

  function Roots(roots: seq<string>): set<string>
  {
    set r | r in roots
  }

  /** What the loop keeps: everything named was reached, everything selected is
      usable, and what it draws in is selected or pending. */
  ghost predicate Explores(catalog: Catalog, host: HostProfile, roots: set<string>, selected: set<string>, pending: seq<string>)
  {
    && (forall id :: id in selected || id in pending ==> Reached(catalog, roots, id))
    && (forall id :: id in selected ==> Usable(catalog, host, id))
    && (forall id :: id in roots ==> id in selected || id in pending)
    && (forall a, b :: a in selected && Draws(catalog, a, b) ==> b in selected || b in pending)
  }

  lemma FinishedExploring(catalog: Catalog, host: HostProfile, roots: set<string>, selected: set<string>)
    requires Explores(catalog, host, roots, selected, [])
    ensures forall id :: id in selected <==> Reached(catalog, roots, id)
  {
    assert ClosedOver(catalog, roots, selected);
    forall id | Reached(catalog, roots, id) ensures id in selected {
      var steps: nat :| ReachedIn(catalog, roots, id, steps);
      ReachedInClosed(catalog, roots, selected, id, steps);
    }
  }

  /** What a resolution of the roots may return: every reached package in ascending
      order when all are usable, and else what is wrong with one that is not. */
  ghost predicate Resolves(catalog: Catalog, roots: set<string>, host: HostProfile, r: Result<seq<string>, PackageError>)
  {
    && (r.Ok? <==> forall id :: Reached(catalog, roots, id) ==> Usable(catalog, host, id))
    && (r.Ok? ==> Ascending(r.value) && forall id :: id in r.value <==> Reached(catalog, roots, id))
    && (r.Err? ==> exists id :: Reached(catalog, roots, id) && !Usable(catalog, host, id) && Obstacle(catalog, host, id) == r.error)
  }

  /** The order of the roots, and naming one twice, changes nothing about what is
      resolved; of several obstacles it decides which one is reported. */
  lemma ResolutionIgnoresOrder(catalog: Catalog, roots: seq<string>, others: seq<string>, host: HostProfile,
                               r: Result<seq<string>, PackageError>, q: Result<seq<string>, PackageError>)
    requires Roots(roots) == Roots(others)
    requires Resolves(catalog, Roots(roots), host, r) && Resolves(catalog, Roots(others), host, q)
    ensures r.Ok? <==> q.Ok?
    ensures r.Ok? ==> r == q
  {
    if r.Ok? && q.Ok? { AscendingUnique(r.value, q.value); }
  }

  /** `resolve`, the worklist over selected and pending packages. */
  method Resolve(catalog: Catalog, roots: seq<string>, host: HostProfile) returns (r: Result<seq<string>, PackageError>)
    requires InKeyOrder(catalog)
    ensures Resolves(catalog, Roots(roots), host, r)
  {
    var selected: set<string> := {};
    var pending := roots;
    ghost var start := Roots(roots);
    forall id | id in pending ensures Reached(catalog, start, id) { assert ReachedIn(catalog, start, id, 0); }
    while pending != []
      invariant Explores(catalog, host, start, selected, pending)
      invariant selected <= Ids(catalog)
      decreases Ids(catalog) - selected, |pending|
    {
      var id := pending[|pending| - 1];
      var rest := pending[..|pending| - 1];
      assert forall x :: x in pending <==> x in rest || x == id;
      if id in selected {
        pending := rest;
        continue;
      }
      var m := Lookup(catalog, id);
      assert Reached(catalog, start, id);
      if m.None? {
        assert !Usable(catalog, host, id) && Obstacle(catalog, host, id) == PackageMissing;
        return Err(PackageMissing);
      }
      if !MeetsHost(m.value, host) {
        assert !Usable(catalog, host, id) && Obstacle(catalog, host, id) == HostRequirementMissing;
        return Err(HostRequirementMissing);
      }
      var drawn := Providers(catalog, host, id, m.value);
      if drawn.None? {
        assert !Usable(catalog, host, id) && Obstacle(catalog, host, id) == DependencyUnresolved;
        return Err(DependencyUnresolved);
      }
      forall b | b in drawn.value ensures Reached(catalog, start, b) { ReachedStep(catalog, start, id, b); }
      InCatalog(catalog, id);
      ghost var before := selected;
      selected := selected + {id};
      pending := rest + drawn.value;
      assert id in Ids(catalog) - before && id !in Ids(catalog) - selected;
    }
    FinishedExploring(catalog, host, start, selected);
    ListedAscends(catalog, selected);
    r := Ok(Listed(catalog, selected));
    forall id ensures id in r.value <==> Reached(catalog, start, id) {
      ListedMembers(catalog, selected, id);
      assert id in selected ==> Usable(catalog, host, id);
    }
  }

  lemma InCatalog(catalog: Catalog, id: string)
    requires Lookup(catalog, id).Some?
    ensures id in Ids(catalog)
  {
    var m := Lookup(catalog, id).value;
    var i :| 0 <= i < |catalog| && catalog[i] == m;
    assert catalog[i].id == id;
  }

  /** The inner loop over one manifest's requirements. */
  method Providers(catalog: Catalog, host: HostProfile, id: string, m: Manifest) returns (drawn: Option<seq<string>>)
    requires Lookup(catalog, id) == Some(m) && MeetsHost(m, host)
    ensures drawn.Some? <==> Usable(catalog, host, id)
    ensures drawn.Some? ==> forall b :: b in drawn.value <==> Draws(catalog, id, b)
  {
    var found: seq<string> := [];
    for k := 0 to |m.required|
      invariant forall j :: 0 <= j < k ==> FirstProvider(catalog, m.required[j]).Some?
      invariant forall b :: b in found <==>
                  exists j :: 0 <= j < k && FirstProvider(catalog, m.required[j]).Some? && FirstProvider(catalog, m.required[j]).value.id == b
    {
      var provider := FirstProvider(catalog, m.required[k]);
      if provider.None? {
        assert m.required[k] in m.required;
        return None;
      }
      ghost var before := found;
      found := found + [provider.value.id];
      assert forall b :: b in found <==> b in before || b == provider.value.id;
    }
    forall b ensures b in found <==> Draws(catalog, id, b) {
      if b in found {
        var j :| 0 <= j < |m.required| && FirstProvider(catalog, m.required[j]).Some? && FirstProvider(catalog, m.required[j]).value.id == b;
        assert m.required[j] in m.required;
      }
    }
    drawn := Some(found);
  }
}

/**
 * Normalising the scopes of an administrator token: the requested scopes together
 * with everything they require, in registry order.
 */
module Scopes {
  import opened Prelude
  import opened Digraph

  datatype Scope = Scope(id: string, needs: seq<string>)

  datatype ScopeError = NoneGiven | TooMany | Unknown(id: string)

  const MAX_SCOPES := 32

  function FindScope(registry: seq<Scope>, id: string): (s: Option<Scope>)
    ensures s.Some? ==> s.value in registry && s.value.id == id
    ensures s.None? <==> forall scope :: scope in registry ==> scope.id != id
  {
    if registry == [] then None
    else if registry[0].id == id then Some(registry[0])
    else FindScope(registry[1..], id)
  }

  predicate Known(registry: seq<Scope>, id: string) {
    FindScope(registry, id).Some?
  }

  function NeedsOf(registry: seq<Scope>, id: string): seq<string> {
    if Known(registry, id) then FindScope(registry, id).value.needs else []
  }

  function RequirementGraph(registry: seq<Scope>): Graph {
    map k: nat | k < |registry| :: registry[k].id := NeedsOf(registry, registry[k].id)
  }

  lemma GraphNeeds(registry: seq<Scope>, id: string)
    ensures Kids(RequirementGraph(registry), id) == NeedsOf(registry, id)
  {
    if Known(registry, id) {
      var k :| 0 <= k < |registry| && registry[k] == FindScope(registry, id).value;
      assert registry[k].id in RequirementGraph(registry);
    }
  }

  function Trimmed(input: seq<string>): (r: seq<string>)
    ensures |r| == |input| && forall i :: 0 <= i < |r| ==> r[i] == TrimSpace(input[i])
  {
    seq(|input|, i requires 0 <= i < |input| => TrimSpace(input[i]))
  }

  function Elements(ids: seq<string>): set<string> {
    set id | id in ids
  }

  /** The selected scopes in registry order. */
  function Listed(registry: seq<Scope>, selected: set<string>): seq<string> {
    if registry == [] then []
    else (if registry[0].id in selected then [registry[0].id] else []) + Listed(registry[1..], selected)
  }

  lemma {:induction false} ListedExactly(registry: seq<Scope>, selected: set<string>)
    ensures forall id :: id in Listed(registry, selected) <==> id in selected && Known(registry, id)
    ensures DistinctIds(registry) ==> forall i, j :: 0 <= i < j < |Listed(registry, selected)| ==>
              Listed(registry, selected)[i] != Listed(registry, selected)[j]
  {
    if registry != [] {
      ListedExactly(registry[1..], selected);
      assert DistinctIds(registry) ==> !Known(registry[1..], registry[0].id);
    }
  }

  ghost predicate DistinctIds(registry: seq<Scope>) {
    forall i, j :: 0 <= i < j < |registry| ==> registry[i].id != registry[j].id
  }

  ghost predicate AllKnown(registry: seq<Scope>, ids: seq<string>) {
    forall i :: 0 <= i < |ids| ==> Known(registry, ids[i])
  }

  // The closure of the requested scopes under requirements.
  ghost predicate Selects(registry: seq<Scope>, input: seq<string>, selected: set<string>) {
    IsClosure(RequirementGraph(registry), Elements(Trimmed(input)), selected)
  }

  ghost predicate Rejects(registry: seq<Scope>, input: seq<string>, error: ScopeError) {
    match error
    case NoneGiven => input == []
    case TooMany => |input| > MAX_SCOPES
    case Unknown(id) =>
      0 < |input| <= MAX_SCOPES
      && exists k ::
           && 0 <= k < |input| && id == TrimSpace(input[k]) && !Known(registry, id)
           && forall i :: 0 <= i < k ==> Known(registry, TrimSpace(input[i]))
  }

  /** What a normalisation must return. */
  ghost predicate Normalises(registry: seq<Scope>, input: seq<string>, r: Result<seq<string>, ScopeError>) {
    match r
    case Err(error) => Rejects(registry, input, error)
    case Ok(ids) =>
      && 0 < |input| <= MAX_SCOPES && AllKnown(registry, Trimmed(input))
      && exists selected :: Selects(registry, input, selected) && ids == Listed(registry, selected)
  }

  // -------------------------------------------------------------- worklist

  function Mentioned(registry: seq<Scope>, input: seq<string>): set<string> {
    Elements(Trimmed(input)) + set k, i | 0 <= k < |registry| && 0 <= i < |registry[k].needs| :: registry[k].needs[i]
  }

  // Everything met so far is reachable, and what a selected scope needs was met.
  ghost predicate Progress(registry: seq<Scope>, input: seq<string>, pending: seq<string>, selected: set<string>) {
    var g, start := RequirementGraph(registry), Elements(Trimmed(input));
    && (forall id :: id in pending || id in selected ==> id in Mentioned(registry, input) && Reaches(g, start, id))
    && (forall id :: id in start ==> id in pending || id in selected)
    && (forall id, kid :: id in selected && kid in Kids(g, id) ==> kid in pending || kid in selected)
  }

  lemma Pop(registry: seq<Scope>, input: seq<string>, pending: seq<string>, selected: set<string>)
    requires Progress(registry, input, pending, selected) && pending != []
    ensures var id := pending[|pending| - 1]; var rest := pending[..|pending| - 1];
      && (id in selected ==> Progress(registry, input, rest, selected))
      && Progress(registry, input, rest + NeedsOf(registry, id), selected + {id})
  {
    var id, rest := pending[|pending| - 1], pending[..|pending| - 1];
    var g, start := RequirementGraph(registry), Elements(Trimmed(input));
    assert pending == rest + [id];
    GraphNeeds(registry, id);
    forall kid | kid in NeedsOf(registry, id) ensures kid in Mentioned(registry, input) && Reaches(g, start, kid) {
      ReachStep(g, start, id, kid);
      var k :| 0 <= k < |registry| && registry[k] == FindScope(registry, id).value;
      var i :| 0 <= i < |registry[k].needs| && registry[k].needs[i] == kid;
    }
  }

  lemma ProgressStarts(registry: seq<Scope>, input: seq<string>)
    ensures Progress(registry, input, Trimmed(input), {})
  {
    forall id | id in Trimmed(input) ensures Reaches(RequirementGraph(registry), Elements(Trimmed(input)), id) {
      ReachStart(RequirementGraph(registry), Elements(Trimmed(input)), id);
    }
  }

  lemma OneFewer(all: set<string>, selected: set<string>, id: string)
    requires id in all && id !in selected
    ensures |all - (selected + {id})| < |all - selected|
  {
    assert all - selected == (all - (selected + {id})) + {id};
  }

  /** Closes the pending scopes under requirements, last in first out. */
  method Close(registry: seq<Scope>, input: seq<string>) returns (selected: set<string>)
    ensures Selects(registry, input, selected)
  {
    selected := {};
    var pending := Trimmed(input);
    ghost var all := Mentioned(registry, input);
    ProgressStarts(registry, input);
    while pending != []
      invariant Progress(registry, input, pending, selected)
      decreases |all - selected|, |pending|
    {
      Pop(registry, input, pending, selected);
      var id := pending[|pending| - 1];
      pending := pending[..|pending| - 1];
      if id !in selected {
        OneFewer(all, selected, id);
        selected := selected + {id};
        pending := pending + NeedsOf(registry, id);
      }
    }
  }

  /** Checks, closes and orders the requested scopes. */
  method NormalizeScopes(registry: seq<Scope>, input: seq<string>) returns (r: Result<seq<string>, ScopeError>)
    ensures Normalises(registry, input, r)
  {
    if input == [] {
      return Err(NoneGiven);
    }
    if |input| > MAX_SCOPES {
      return Err(TooMany);
    }
    var i := 0;
    while i < |input|
      invariant 0 <= i <= |input|
      invariant forall k :: 0 <= k < i ==> Known(registry, TrimSpace(input[k]))
    {
      if !Known(registry, TrimSpace(input[i])) {
        return Err(Unknown(TrimSpace(input[i])));
      }
      i := i + 1;
    }
    var selected := Close(registry, input);
    return Ok(Listed(registry, selected));
  }

  // -------------------------------------------------------------- theorems

  /**
   * For any registry, cyclic requirements included, the result is the least set
   * that contains the request and is closed under requirements, restricted to
   * registered scopes; with distinct registry ids it has no duplicate.
   */
  lemma LeastClosedSuperset(registry: seq<Scope>, input: seq<string>, ids: seq<string>)
    requires Normalises(registry, input, Ok(ids))
    ensures forall i :: 0 <= i < |input| ==> TrimSpace(input[i]) in ids
    ensures forall id, need :: id in ids && need in NeedsOf(registry, id) && Known(registry, need) ==> need in ids
    ensures forall s :: Elements(Trimmed(input)) <= s && Closed(RequirementGraph(registry), s) ==> Elements(ids) <= s
    ensures DistinctIds(registry) ==> forall i, j :: 0 <= i < j < |ids| ==> ids[i] != ids[j]
  {
    var selected :| Selects(registry, input, selected) && ids == Listed(registry, selected);
    ListedExactly(registry, selected);
    ClosureIsLeast(RequirementGraph(registry), Elements(Trimmed(input)), selected);
    forall i | 0 <= i < |input| ensures TrimSpace(input[i]) in ids {
      assert Trimmed(input)[i] in selected;
    }
    forall id, need | id in ids && need in NeedsOf(registry, id) && Known(registry, need) ensures need in ids {
      GraphNeeds(registry, id);
    }
  }

  /** The result does not depend on the order of the worklist. */
  lemma NormalFormUnique(registry: seq<Scope>, input: seq<string>, a: seq<string>, b: seq<string>)
    requires Normalises(registry, input, Ok(a)) && Normalises(registry, input, Ok(b))
    ensures a == b
  {
    var s :| Selects(registry, input, s) && a == Listed(registry, s);
    var t :| Selects(registry, input, t) && b == Listed(registry, t);
    ClosureUnique(RequirementGraph(registry), Elements(Trimmed(input)), s, t);
  }

  // Registered ids carry no surrounding white space.
  ghost predicate IdsTrimmed(registry: seq<Scope>) {
    forall k :: 0 <= k < |registry| ==> TrimSpace(registry[k].id) == registry[k].id
  }

  // Every requirement is registered.
  ghost predicate NeedsRegistered(registry: seq<Scope>) {
    forall k, i :: 0 <= k < |registry| && 0 <= i < |registry[k].needs| ==> Known(registry, registry[k].needs[i])
  }

  lemma KnownTrimmed(registry: seq<Scope>, id: string)
    requires IdsTrimmed(registry) && Known(registry, id)
    ensures TrimSpace(id) == id
  {
    var k :| 0 <= k < |registry| && registry[k] == FindScope(registry, id).value;
  }

  lemma NeedKnown(registry: seq<Scope>, id: string, need: string)
    requires NeedsRegistered(registry) && need in NeedsOf(registry, id)
    ensures Known(registry, need)
  {
    var k :| 0 <= k < |registry| && registry[k] == FindScope(registry, id).value;
    var i :| 0 <= i < |registry[k].needs| && registry[k].needs[i] == need;
  }

  lemma SelectedKnown(registry: seq<Scope>, input: seq<string>, selected: set<string>)
    requires NeedsRegistered(registry) && Selects(registry, input, selected)
    requires AllKnown(registry, Trimmed(input))
    ensures forall id :: id in selected ==> Known(registry, id)
  {
    var g := RequirementGraph(registry);
    var known := set id | id in selected && Known(registry, id);
    forall id, kid | id in known && kid in Kids(g, id) ensures kid in known {
      GraphNeeds(registry, id);
      NeedKnown(registry, id, kid);
    }
    assert Closed(g, known);
    ClosureIsLeast(g, Elements(Trimmed(input)), selected);
  }

  lemma TrimmedAlready(registry: seq<Scope>, ids: seq<string>)
    requires IdsTrimmed(registry) && AllKnown(registry, ids)
    ensures Trimmed(ids) == ids
  {
    forall i | 0 <= i < |ids| ensures Trimmed(ids)[i] == ids[i] {
      KnownTrimmed(registry, ids[i]);
    }
  }

  lemma ListedAll(registry: seq<Scope>, selected: set<string>)
    requires forall id :: id in selected ==> Known(registry, id)
    ensures Elements(Listed(registry, selected)) == selected
    ensures AllKnown(registry, Listed(registry, selected))
  {
    ListedExactly(registry, selected);
    var ids := Listed(registry, selected);
    forall i | 0 <= i < |ids| ensures Known(registry, ids[i]) {
      assert ids[i] in ids;
    }
  }

  lemma SelectsItself(registry: seq<Scope>, start: seq<string>, ids: seq<string>, selected: set<string>)
    requires Selects(registry, start, selected) && Trimmed(ids) == ids && Elements(ids) == selected
    ensures Selects(registry, ids, selected)
  {
    ClosedIsItsClosure(RequirementGraph(registry), selected);
  }

  lemma SelectedAgain(registry: seq<Scope>, input: seq<string>, selected: set<string>)
    requires IdsTrimmed(registry) && NeedsRegistered(registry) && Selects(registry, input, selected) && input != []
    requires AllKnown(registry, Trimmed(input))
    ensures var ids := Listed(registry, selected);
      ids != [] && Trimmed(ids) == ids && Selects(registry, ids, selected) && AllKnown(registry, ids)
  {
    var ids := Listed(registry, selected);
    SelectedKnown(registry, input, selected);
    ListedAll(registry, selected);
    TrimmedAlready(registry, ids);
    SelectsItself(registry, input, ids, selected);
    var first := Trimmed(input)[0];
    assert first in Elements(Trimmed(input));
    assert first in Elements(ids);
  }

  /**
   * Normalising a result again returns it unchanged exactly when it is no longer
   * than an accepted request; a longer one is refused.
   */
  lemma IdempotentIffShort(registry: seq<Scope>, input: seq<string>, ids: seq<string>)
    requires IdsTrimmed(registry) && NeedsRegistered(registry) && Normalises(registry, input, Ok(ids))
    ensures Normalises(registry, ids, Ok(ids)) <==> |ids| <= MAX_SCOPES
    ensures |ids| > MAX_SCOPES ==> Normalises(registry, ids, Err(TooMany))
  {
    var selected :| Selects(registry, input, selected) && ids == Listed(registry, selected);
    SelectedAgain(registry, input, selected);
  }

  lemma {:induction false} ListedShort(registry: seq<Scope>, selected: set<string>)
    ensures |Listed(registry, selected)| <= |registry|
    ensures (forall k :: 0 <= k < |registry| ==> registry[k].id in selected) ==> |Listed(registry, selected)| == |registry|
  {
    if registry != [] {
      ListedShort(registry[1..], selected);
    }
  }

  /** So with a registry no larger than an accepted request normalising is always idempotent. */
  lemma IdempotentForSmallRegistry(registry: seq<Scope>, input: seq<string>, ids: seq<string>)
    requires |registry| <= MAX_SCOPES && IdsTrimmed(registry) && NeedsRegistered(registry)
    requires Normalises(registry, input, Ok(ids))
    ensures Normalises(registry, ids, Ok(ids))
  {
    var selected :| Selects(registry, input, selected) && ids == Listed(registry, selected);
    ListedShort(registry, selected);
    IdempotentIffShort(registry, input, ids);
  }

  // The registry as it is shipped.
  const SHIPPED := [Scope("suppliers:read", []), Scope("suppliers:write", ["suppliers:read"])]

  lemma ShippedIdempotent(input: seq<string>, ids: seq<string>)
    requires Normalises(SHIPPED, input, Ok(ids))
    ensures Normalises(SHIPPED, ids, Ok(ids))
  {
    assert TrimLeft("suppliers:read") == "suppliers:read" && TrimLeft("suppliers:write") == "suppliers:write";
    assert FindScope(SHIPPED, "suppliers:read").Some? by { assert SHIPPED[0] in SHIPPED; }
    IdempotentForSmallRegistry(SHIPPED, input, ids);
  }

  // ---------------------------------------------------------- large registries

  // Distinct ids without white space.
  function Name(k: nat): (id: string)
    ensures |id| == k + 1 && forall i :: 0 <= i < |id| ==> id[i] == 'x'
  {
    seq(k + 1, _ => 'x')
  }

  // A registry whose first scope requires all others.
  function Wide(n: nat): (registry: seq<Scope>)
    ensures |registry| == n
    ensures forall k :: 0 <= k < n ==> registry[k].id == Name(k)
    ensures forall k :: 0 < k < n ==> registry[k].needs == []
    ensures n > 0 ==> |registry[0].needs| == n - 1 && forall i :: 0 <= i < n - 1 ==> registry[0].needs[i] == Name(i + 1)
  {
    seq(n, k requires 0 <= k < n => Scope(Name(k), if k == 0 then seq(n - 1, i requires 0 <= i < n - 1 => Name(i + 1)) else []))
  }

  lemma WideNeeds(n: nat, k: nat)
    requires k < n
    ensures NeedsOf(Wide(n), Name(k)) == Wide(n)[k].needs && Known(Wide(n), Name(k))
    ensures TrimSpace(Name(k)) == Name(k)
  {
    var registry := Wide(n);
    assert registry[k] in registry;
    var found := FindScope(registry, Name(k)).value;
    var i :| 0 <= i < n && registry[i] == found;
    assert |Name(i)| == |Name(k)|;
    assert TrimLeft(Name(k)) == Name(k);
  }

  lemma WideClosure(n: nat)
    requires n > 0
    ensures var all := set k | 0 <= k < n :: Name(k); Selects(Wide(n), [Name(0)], all)
  {
    var registry, all := Wide(n), set k | 0 <= k < n :: Name(k);
    var g, start := RequirementGraph(registry), Elements(Trimmed([Name(0)]));
    WideNeeds(n, 0);
    GraphNeeds(registry, Name(0));
    assert Trimmed([Name(0)]) == [Name(0)] && start == {Name(0)};
    ReachStart(g, start, Name(0));
    forall k | 0 <= k < n ensures Reaches(g, start, Name(k)) {
      if k > 0 {
        assert registry[0].needs[k - 1] == Name(k);
        ReachStep(g, start, Name(0), Name(k));
      }
    }
    forall k, kid | 0 <= k < n && kid in Kids(g, Name(k)) ensures kid in all {
      WideNeeds(n, k);
      GraphNeeds(registry, Name(k));
      var i :| 0 <= i < |registry[k].needs| && registry[k].needs[i] == kid;
    }
  }

  lemma NormalisesBy(registry: seq<Scope>, input: seq<string>, selected: set<string>)
    requires 0 < |input| <= MAX_SCOPES && AllKnown(registry, Trimmed(input)) && Selects(registry, input, selected)
    ensures Normalises(registry, input, Ok(Listed(registry, selected)))
  {
  }

  lemma WideKnown(n: nat)
    requires n > 0
    ensures AllKnown(Wide(n), Trimmed([Name(0)]))
  {
    WideNeeds(n, 0);
    assert Trimmed([Name(0)]) == [Name(0)];
  }

  lemma WideNormalises(n: nat) returns (ids: seq<string>)
    requires n > 0
    ensures |ids| == n && Normalises(Wide(n), [Name(0)], Ok(ids))
  {
    var all := set k | 0 <= k < n :: Name(k);
    ids := Listed(Wide(n), all);
    WideClosure(n);
    WideKnown(n);
    NormalisesBy(Wide(n), [Name(0)], all);
    WideListed(n, all);
  }

  lemma WideListed(n: nat, all: set<string>)
    requires forall k :: 0 <= k < n ==> Name(k) in all
    ensures |Listed(Wide(n), all)| == n
  {
    ListedShort(Wide(n), all);
  }

  /** With more than 32 scopes it can fail: one requested scope whose closure is refused when normalised again. */
  lemma WideOverflows() returns (ids: seq<string>)
    ensures Normalises(Wide(33), [Name(0)], Ok(ids)) && Normalises(Wide(33), ids, Err(TooMany)) && MAX_SCOPES < |ids|
  {
    ids := WideNormalises(33);
  }
}

/**
 * The hierarchy of backend groups: the coloured depth-first search that refuses a
 * cyclic hierarchy, saving and deleting groups, and the groups a root authorises.
 */
module Groups {
  import opened Prelude
  import opened Digraph

  // ------------------------------------------------------------ cycle check

  datatype Colour = Grey | Black

  // A finished node leads to finished nodes of lower rank only.
  ghost predicate Finished(g: Graph, state: map<string, Colour>, rank: map<string, nat>, id: string) {
    && id in rank
    && forall kid :: kid in Kids(g, id) ==> kid in state && state[kid] == Black && kid in rank && rank[kid] < rank[id]
  }

  // Grey nodes are the current path, black nodes are finished.
  ghost predicate Sound(g: Graph, state: map<string, Colour>, rank: map<string, nat>, path: seq<string>) {
    && state.Keys <= AllNodes(g)
    && (path == [] || Walk(g, path))
    && (forall id :: id in state && state[id] == Grey <==> id in path)
    && (forall id :: id in state && state[id] == Black ==> Finished(g, state, rank, id))
  }

  lemma Enter(g: Graph, state: map<string, Colour>, rank: map<string, nat>, path: seq<string>, id: string)
    requires Sound(g, state, rank, path) && id in AllNodes(g) && id !in state
    requires path != [] ==> id in Kids(g, path[|path| - 1])
    ensures Sound(g, state[id := Grey], rank, path + [id])
  {
    assert path == (path + [id])[..|path|];
    forall other | other in state && state[other] == Black ensures Finished(g, state[id := Grey], rank, other) {
      assert Finished(g, state, rank, other);
    }
  }

  lemma Leave(g: Graph, state: map<string, Colour>, rank: map<string, nat>, path: seq<string>, id: string)
    requires Sound(g, state, rank, path + [id]) && id !in path
    requires AllBlack(state, Kids(g, id))
    ensures Sound(g, state[id := Black], rank[id := Above(rank, Kids(g, id))], path)
  {
    var state', rank' := state[id := Black], rank[id := Above(rank, Kids(g, id))];
    assert id in path + [id];
    forall other | other in state' && state'[other] == Black ensures Finished(g, state', rank', other) {
      assert other != id ==> Finished(g, state, rank, other);
      forall kid | kid in Kids(g, other) ensures kid in state' && state'[kid] == Black && kid in rank' && rank'[kid] < rank'[other] {
        assert kid in state && state[kid] == Black && Finished(g, state, rank, kid);
      }
    }
    assert path == (path + [id])[..|path|];
  }

  /** One search over a graph; the colours are shared by all its roots. */
  class Search {
    const graph: Graph
    var state: map<string, Colour>
    ghost var rank: map<string, nat>

    constructor (graph: Graph)
      ensures this.graph == graph && state == map[] && Valid([])
    {
      this.graph, state, rank := graph, map[], map[];
    }

    ghost predicate Valid(path: seq<string>)
      reads this
    {
      Sound(graph, state, rank, path)
    }

    ghost function Unseen(): nat
      reads this
    {
      |AllNodes(graph) - state.Keys|
    }

    /** Searches from a node reached by `path`; true only when there is a cycle. */
    method Visit(id: string, ghost path: seq<string>) returns (found: bool)
      requires Valid(path) && id in AllNodes(graph)
      requires path != [] ==> id in Kids(graph, path[|path| - 1])
      modifies this
      ensures found ==> Cyclic(graph)
      ensures !found ==> Valid(path) && id in state && state[id] == Black && Unseen() <= old(Unseen())
      ensures !found ==> Extends(old(state), state)
      decreases Unseen(), 1
    {
      if id !in state {
        found := VisitNew(id, path);
      } else if state[id] == Grey {
        ClosesCycle(graph, path, id);
        found := true;
      } else {
        found := false;
      }
    }

    method VisitNew(id: string, ghost path: seq<string>) returns (found: bool)
      requires Valid(path) && id in AllNodes(graph) && id !in state
      requires path != [] ==> id in Kids(graph, path[|path| - 1])
      modifies this
      ensures found ==> Cyclic(graph)
      ensures !found ==> Valid(path) && id in state && state[id] == Black && Unseen() <= old(Unseen())
      ensures !found ==> Extends(old(state), state)
      decreases Unseen(), 0
    {
      ghost var start := state;
      Open(id, path);
      ghost var walk := path + [id];
      assert walk[|walk| - 1] == id;
      var kids := if id in graph then graph[id] else [];
      assert kids == Kids(graph, id);
      found := VisitAll(kids, walk);
      if !found {
        Close(id, path, start);
      }
    }

    /** Colours a new node grey. */
    method Open(id: string, ghost path: seq<string>)
      requires Valid(path) && id in AllNodes(graph) && id !in state
      requires path != [] ==> id in Kids(graph, path[|path| - 1])
      modifies this
      ensures Valid(path + [id]) && id !in path && state == old(state)[id := Grey] && Unseen() < old(Unseen())
    {
      Enter(graph, state, rank, path, id);
      Shrinks(AllNodes(graph), state, id, Grey);
      state := state[id := Grey];
    }

    /** Colours a node black whose children all are. */
    method Close(id: string, ghost path: seq<string>, ghost start: map<string, Colour>)
      requires Valid(path + [id]) && id !in path && AllBlack(state, Kids(graph, id))
      requires id !in start && Extends(start[id := Grey], state)
      modifies this
      ensures Valid(path) && state == old(state)[id := Black]
      ensures Extends(start, state) && Unseen() <= |AllNodes(graph) - start.Keys|
    {
      Leave(graph, state, rank, path, id);
      Blacken(AllNodes(graph), start, state, id);
      rank := rank[id := Above(rank, Kids(graph, id))];
      state := state[id := Black];
    }

    /** Searches from every child of the node that was just coloured grey. */
    method VisitAll(kids: seq<string>, ghost walk: seq<string>) returns (found: bool)
      requires Valid(walk) && walk != [] && kids == Kids(graph, walk[|walk| - 1])
      modifies this
      ensures found ==> Cyclic(graph)
      ensures !found ==> Valid(walk) && Unseen() <= old(Unseen()) && Extends(old(state), state) && AllBlack(state, kids)
      decreases Unseen(), 2
    {
      ghost var start := state;
      var k := 0;
      KidsAreNodes(graph, walk[|walk| - 1]);
      while k < |kids|
        invariant 0 <= k <= |kids| && Valid(walk) && Unseen() <= old(Unseen())
        invariant Extends(start, state) && AllBlack(state, kids[..k])
      {
        ghost var before := state;
        found := Visit(kids[k], walk);
        if found {
          return;
        }
        OneMoreBlack(start, before, state, kids, k);
        k := k + 1;
      }
      assert kids[..k] == kids;
      return false;
    }

    /** Searches from every group, in any order. */
    method AnyCycle() returns (found: bool)
      requires state == map[] && Valid([])
      modifies this
      ensures found <==> Cyclic(graph)
    {
      var roots := graph.Keys;
      while roots != {}
        invariant roots <= graph.Keys && Valid([])
        invariant forall id :: id in graph.Keys - roots ==> id in state && state[id] == Black
      {
        var id :| id in roots;
        found := Visit(id, []);
        if found {
          return;
        }
        roots := roots - {id};
      }
      BlackIsRanked(graph, state, rank);
      RankedAcyclic(graph, rank);
      return false;
    }
  }

  ghost predicate AllBlack(state: map<string, Colour>, ids: seq<string>) {
    forall id :: id in ids ==> id in state && state[id] == Black
  }

  lemma OneMoreBlack(
    start: map<string, Colour>, before: map<string, Colour>, after: map<string, Colour>, ids: seq<string>, k: nat)
    requires k < |ids| && AllBlack(before, ids[..k]) && Extends(start, before) && Extends(before, after)
    requires ids[k] in after && after[ids[k]] == Black
    ensures AllBlack(after, ids[..k + 1]) && Extends(start, after)
  {
    assert ids[..k + 1] == ids[..k] + [ids[k]];
  }

  predicate Extends(before: map<string, Colour>, after: map<string, Colour>) {
    forall id | id in before :: id in after && after[id] == before[id]
  }

  lemma Shrinks(all: set<string>, state: map<string, Colour>, id: string, colour: Colour)
    requires id in all && id !in state
    ensures |all - state[id := colour].Keys| < |all - state.Keys|
  {
    assert all - state.Keys == (all - state[id := colour].Keys) + {id};
  }

  lemma Blacken(all: set<string>, start: map<string, Colour>, state: map<string, Colour>, id: string)
    requires id !in start && Extends(start[id := Grey], state)
    ensures Extends(start, state[id := Black])
    ensures |all - state[id := Black].Keys| <= |all - start.Keys|
  {
    var more := state[id := Black].Keys;
    assert all - start.Keys == (all - more) + ((all - start.Keys) * more);
  }

  lemma BlackIsRanked(g: Graph, state: map<string, Colour>, rank: map<string, nat>)
    requires Sound(g, state, rank, []) && forall id :: id in g ==> id in state && state[id] == Black
    ensures Ranked(g, rank)
  {
    forall id, kid | id in g && kid in g[id] ensures id in rank && kid in rank && rank[kid] < rank[id] {
      assert kid in Kids(g, id) && Finished(g, state, rank, id);
    }
  }

  lemma ClosesCycle(g: Graph, path: seq<string>, id: string)
    requires id in path && Walk(g, path) && id in Kids(g, path[|path| - 1])
    ensures Cyclic(g)
  {
    var k :| 0 <= k < |path| && path[k] == id;
    WalkSuffix(g, path, k);
    var p := path[k..] + [id];
    assert p[..|p| - 1] == path[k..];
    assert Cycle(g, p);
  }

  // A rank above those of all the given nodes.
  ghost function Above(rank: map<string, nat>, ids: seq<string>): (r: nat)
    ensures forall id :: id in ids && id in rank ==> rank[id] < r
  {
    if ids == [] then 0
    else
      var rest := Above(rank, ids[1..]);
      if ids[0] in rank && rank[ids[0]] >= rest then rank[ids[0]] + 1 else rest
  }

  // -------------------------------------------------------------- hierarchy

  datatype Group = Group(children: seq<string>, enabled: bool, isDefault: bool)

  type Hierarchy = map<string, Group>

  datatype GroupError = Invalid | NotFound | Conflict

  // A save request; an empty id creates a group under the new one.
  datatype Write = Write(id: string, newId: string, group: Group)

  function GraphOf(h: Hierarchy): (g: Graph)
    ensures g.Keys == h.Keys
  {
    map id | id in h :: h[id].children
  }

  function TargetOf(w: Write): string {
    if w.id == "" then w.newId else w.id
  }

  predicate ChildrenValid(id: string, children: seq<string>) {
    && |id| <= 128 && |children| <= 100
    && (forall i | 0 <= i < |children| :: children[i] != "" && |children[i]| <= 128 && children[i] != id)
    && (forall i, j | 0 <= i < j < |children| :: children[i] != children[j])
  }

  function EditedGraph(h: Hierarchy, w: Write): Graph {
    GraphOf(h)[TargetOf(w) := w.group.children]
  }

  /** Why a save is refused, apart from cycles. */
  function SaveRefusal(h: Hierarchy, w: Write): Option<GroupError> {
    if !ChildrenValid(w.id, w.group.children) then Some(Invalid)
    else if w.id != "" && w.id !in h then Some(NotFound)
    else if exists i | 0 <= i < |w.group.children| :: w.group.children[i] !in h then Some(Invalid)
    else None
  }

  function Demote(h: Hierarchy): (r: Hierarchy)
    ensures r.Keys == h.Keys
    ensures forall id :: id in h ==> r[id] == h[id].(isDefault := false)
  {
    map id | id in h :: h[id].(isDefault := false)
  }

  function Saved(h: Hierarchy, w: Write): Hierarchy {
    (if w.group.isDefault then Demote(h) else h)[TargetOf(w) := w.group]
  }

  /** Whether a group may be deleted; `used` says whether a member or key refers to it. */
  function DeleteRefusal(h: Hierarchy, id: string, used: bool): Option<GroupError> {
    if id == "" then Some(Invalid)
    else if id !in h then Some(NotFound)
    else if h[id].isDefault then Some(Conflict)
    else if used || h[id].children != [] || (exists other | other in h :: id in h[other].children) then Some(Conflict)
    else None
  }

  datatype Edit = Save(w: Write) | Delete(id: string, used: bool)

  /** The hierarchy after an edit; a refused edit changes nothing. */
  ghost function Next(h: Hierarchy, e: Edit): Hierarchy {
    match e
    case Save(w) => if SaveRefusal(h, w).None? && !Cyclic(EditedGraph(h, w)) then Saved(h, w) else h
    case Delete(id, used) => if DeleteRefusal(h, id, used).None? then h - {id} else h
  }

  ghost function Run(h: Hierarchy, edits: seq<Edit>): Hierarchy {
    if edits == [] then h else Next(Run(h, edits[..|edits| - 1]), edits[|edits| - 1])
  }

  /** Acyclic, closed under children, and with at most one default group. */
  ghost predicate Healthy(h: Hierarchy) {
    && !Cyclic(GraphOf(h))
    && (forall id, kid :: kid in Kids(GraphOf(h), id) ==> kid in h)
    && (forall a, b :: a in h && b in h && h[a].isDefault && h[b].isDefault ==> a == b)
  }

  lemma SaveHealthy(h: Hierarchy, w: Write)
    requires Healthy(h) && SaveRefusal(h, w).None? && !Cyclic(EditedGraph(h, w))
    requires w.id == "" ==> w.newId !in h
    ensures Healthy(Saved(h, w))
  {
    assert GraphOf(Saved(h, w)) == EditedGraph(h, w);
    forall id, kid | kid in Kids(GraphOf(Saved(h, w)), id) ensures kid in Saved(h, w) {
      if id != TargetOf(w) {
        assert kid in Kids(GraphOf(h), id);
      }
    }
  }

  lemma DeleteHealthy(h: Hierarchy, id: string, used: bool)
    requires Healthy(h) && DeleteRefusal(h, id, used).None?
    ensures Healthy(h - {id})
  {
    var rest := h - {id};
    forall other, kid | kid in Kids(GraphOf(rest), other) ensures kid in Kids(GraphOf(h), other) && kid != id {
    }
    SubgraphAcyclic(GraphOf(h), GraphOf(rest));
  }

  // A created group never reuses an identifier.
  ghost predicate FreshIds(h: Hierarchy, edits: seq<Edit>) {
    forall k :: 0 <= k < |edits| && edits[k].Save? && edits[k].w.id == "" ==> edits[k].w.newId !in Run(h, edits[..k])
  }

  /** Over every run of saves and deletes the stored hierarchy stays healthy. */
  lemma {:induction false} StaysHealthy(h: Hierarchy, edits: seq<Edit>)
    requires Healthy(h) && FreshIds(h, edits)
    ensures Healthy(Run(h, edits))
  {
    if edits != [] {
      var n := |edits| - 1;
      forall k | 0 <= k < n && edits[k].Save? && edits[k].w.id == ""
        ensures edits[..n][k].w.newId !in Run(h, edits[..n][..k])
      {
        assert edits[..n][..k] == edits[..k];
      }
      StaysHealthy(h, edits[..n]);
      var before := Run(h, edits[..n]);
      match edits[n]
      case Save(w) => if SaveRefusal(before, w).None? && !Cyclic(EditedGraph(before, w)) { SaveHealthy(before, w); }
      case Delete(id, used) => if DeleteRefusal(before, id, used).None? { DeleteHealthy(before, id, used); }
    }
  }

  /** Whatever was stored before, a save either changes nothing or leaves no cycle anywhere. */
  lemma AcceptedSaveAcyclic(h: Hierarchy, w: Write)
    ensures Next(h, Save(w)) == h || !Cyclic(GraphOf(Next(h, Save(w))))
  {
    assert GraphOf(Saved(h, w)) == EditedGraph(h, w);
  }

  class GroupTable {
    var groups: Hierarchy

    constructor ()
      ensures groups == map[]
    {
      groups := map[];
    }

    /** Saves a group unless its fields, its children or a cycle forbid it. */
    method SaveGroup(w: Write) returns (r: Result<string, GroupError>)
      modifies this
      ensures groups == Next(old(groups), Save(w))
      ensures r.Ok? <==> SaveRefusal(old(groups), w).None? && !Cyclic(EditedGraph(old(groups), w))
      ensures r.Ok? ==> r.value == TargetOf(w)
      ensures r.Err? ==> r.error == (if SaveRefusal(old(groups), w).Some? then SaveRefusal(old(groups), w).value else Invalid)
    {
      var refusal := SaveRefusal(groups, w);
      if refusal.Some? {
        return Err(refusal.value);
      }
      var search := new Search(EditedGraph(groups, w));
      var cyclic := search.AnyCycle();
      if cyclic {
        return Err(Invalid);
      }
      if w.group.isDefault {
        groups := Demote(groups);
      }
      groups := groups[TargetOf(w) := w.group];
      return Ok(TargetOf(w));
    }

    /** Deletes an unused group outside the hierarchy. */
    method DeleteGroup(id: string, used: bool) returns (r: Result<(), GroupError>)
      modifies this
      ensures groups == Next(old(groups), Delete(id, used))
      ensures r == (if DeleteRefusal(old(groups), id, used).Some? then Err(DeleteRefusal(old(groups), id, used).value) else Ok(()))
    {
      var refusal := DeleteRefusal(groups, id, used);
      if refusal.Some? {
        return Err(refusal.value);
      }
      groups := groups - {id};
      return Ok(());
    }
  }

  // ------------------------------------------------------------ reachability

  // Disabled groups neither start nor continue a traversal.
  function EnabledGraph(h: Hierarchy): Graph {
    map id | id in h && h[id].enabled :: EnabledChildren(h, h[id].children)
  }

  function EnabledChildren(h: Hierarchy, ids: seq<string>): (kids: seq<string>)
    ensures forall id :: id in kids <==> id in ids && id in h && h[id].enabled
  {
    if ids == [] then []
    else
      var rest := EnabledChildren(h, ids[1..]);
      if ids[0] in h && h[ids[0]].enabled then [ids[0]] + rest else rest
  }

  /** The rows one step adds to those found so far. */
  function Frontier(h: Hierarchy, found: set<string>, last: set<string>): set<string> {
    set kid | kid in h && h[kid].enabled && kid !in found && exists id :: id in last && id in h && kid in h[id].children
  }

  /** Repeats the step until it adds nothing, dropping rows already found. */
  function Expand(h: Hierarchy, found: set<string>, last: set<string>): set<string>
    requires found <= h.Keys
    decreases |h.Keys - found|
  {
    var more := Frontier(h, found, last);
    if more == {} then found
    else
      assert h.Keys - found == (h.Keys - (found + more)) + more;
      Expand(h, found + more, more)
  }

  function Authorised(h: Hierarchy, root: string): set<string> {
    if root in h && h[root].enabled then Expand(h, {root}, {root}) else {}
  }

  // Everything found is enabled and reachable, and only the last rows may still lead on.
  ghost predicate Traversal(h: Hierarchy, start: set<string>, found: set<string>, last: set<string>) {
    && found <= h.Keys && start <= found && last <= found
    && (forall id :: id in found ==> h[id].enabled && Reaches(EnabledGraph(h), start, id))
    && (forall id, kid :: id in found - last && kid in Kids(EnabledGraph(h), id) ==> kid in found)
  }

  lemma FrontierFollows(h: Hierarchy, start: set<string>, found: set<string>, last: set<string>)
    requires Traversal(h, start, found, last)
    ensures var more := Frontier(h, found, last); Traversal(h, start, found + more, more)
  {
    var g := EnabledGraph(h);
    var more := Frontier(h, found, last);
    forall id, kid | id in last && kid in Kids(g, id) ensures kid in found + more {
      assert kid in h[id].children;
    }
    forall kid | kid in more ensures Reaches(g, start, kid) {
      var id :| id in last && id in h && kid in h[id].children;
      ReachStep(g, start, id, kid);
    }
  }

  lemma {:induction false} ExpandCloses(h: Hierarchy, start: set<string>, found: set<string>, last: set<string>)
    requires Traversal(h, start, found, last)
    ensures IsClosure(EnabledGraph(h), start, Expand(h, found, last))
    ensures Expand(h, found, last) <= h.Keys
    decreases |h.Keys - found|
  {
    var more := Frontier(h, found, last);
    FrontierFollows(h, start, found, last);
    if more == {} {
      assert found + more == found;
    } else {
      assert h.Keys - found == (h.Keys - (found + more)) + more;
      ExpandCloses(h, start, found + more, more);
    }
  }

  /**
   * The authorised groups are exactly the enabled groups reachable from the root
   * through enabled groups, on cyclic hierarchies too, and the least set with the
   * root that is closed under enabled children.
   */
  lemma AuthorisedExactly(h: Hierarchy, root: string)
    requires root in h && h[root].enabled
    ensures forall id :: id in Authorised(h, root) <==> Reaches(EnabledGraph(h), {root}, id)
    ensures forall s :: root in s && Closed(EnabledGraph(h), s) ==> Authorised(h, root) <= s
    ensures forall id :: id in Authorised(h, root) ==> id in h
  {
    var g := EnabledGraph(h);
    ReachStart(g, {root}, root);
    ExpandCloses(h, {root}, {root}, {root});
    ClosureIsLeast(g, {root}, Authorised(h, root));
  }

  // The first identifier of a set in text order.
  ghost predicate Least(m: string, s: set<string>) {
    m in s && forall other :: other in s ==> other == m || TextBefore(m, other)
  }

  lemma LeastOfTwo(x: string, m: string, s: set<string>)
    requires Least(m, s) && x !in s
    ensures Least(x, s + {x}) || Least(m, s + {x})
  {
    TextTotal(x, m);
    if TextBefore(x, m) {
      forall other | other in s ensures TextBefore(x, other) {
        if other != m { TextTransitive(x, m, other); }
      }
    }
  }

  lemma LeastExists(s: set<string>)
    requires s != {}
    ensures exists m :: Least(m, s)
  {
    var x :| x in s;
    var rest := s - {x};
    assert s == rest + {x};
    if rest == {} {
      assert s == {x};
      assert Least(x, s);
    } else {
      LeastExists(rest);
      var m :| Least(m, rest);
      LeastOfTwo(x, m, rest);
    }
  }

  /** The identifiers in ascending order. */
  ghost function Ordered(s: set<string>): (ids: seq<string>)
    ensures forall id :: id in ids <==> id in s
    ensures forall i, j :: 0 <= i < j < |ids| ==> TextBefore(ids[i], ids[j])
  {
    if s == {} then []
    else
      LeastExists(s);
      var m :| Least(m, s);
      [m] + Ordered(s - {m})
  }

  /** The authorised groups of a root as they are returned. */
  ghost function ReachableMediaGroupIDs(h: Hierarchy, root: string): seq<string> {
    Ordered(Authorised(h, root))
  }

  /**
   * The returned list holds exactly the enabled groups reachable from an enabled
   * root through enabled groups, each once and in ascending order.
   */
  lemma ReachableInOrder(h: Hierarchy, root: string)
    ensures var ids := ReachableMediaGroupIDs(h, root);
      && (forall id :: id in ids <==> root in h && h[root].enabled && Reaches(EnabledGraph(h), {root}, id))
      && (forall i, j :: 0 <= i < j < |ids| ==> TextBefore(ids[i], ids[j]) && ids[i] != ids[j])
  {
    var ids := ReachableMediaGroupIDs(h, root);
    if root in h && h[root].enabled {
      AuthorisedExactly(h, root);
    }
    forall i, j | 0 <= i < j < |ids| ensures ids[i] != ids[j] {
      TextTotal(ids[i], ids[j]);
    }
  }
}

/**
 * The service dependency graph (backend/app/knowledge/dependency_graph.py).
 * `adjacency` maps a service to the services it depends on (upstream);
 * `reverse` maps a service to the services that depend on it (downstream).
 */
module DependencyGraphs {
  import opened Wrappers
  import opened SeqUtil
  import opened TextUtil

  datatype ServiceNode = ServiceNode(id: string, name: string, serviceType: string, tier: string)

  datatype DependencyEdge = DependencyEdge(fromService: string, toService: string, relation: string)

  /** The value of the graph's four fields, plus the insertion order of the
      `nodes` dictionary (observable through `to_dict`). */
  datatype GraphData = GraphData(
    nodes: map<string, ServiceNode>,
    nodeOrder: seq<string>,
    edges: seq<DependencyEdge>,
    adjacency: map<string, seq<string>>,
    reverse: map<string, seq<string>>)

  const EmptyGraph := GraphData(map[], [], [], map[], map[])

  /** `m.get(id, [])`. */
  function Neighbors(m: map<string, seq<string>>, id: string): (ns: seq<string>)
    ensures id !in m ==> ns == []
  {
    if id in m then m[id] else []
  }

  /** `m.setdefault(k, [])`, keeping an existing list. */
  function SetDefault(m: map<string, seq<string>>, k: string): (m': map<string, seq<string>>)
  {
    if k in m then m else m[k := []]
  }

  /** `m.setdefault(k, []).append(v)`. */
  function AppendTo(m: map<string, seq<string>>, k: string, v: string): map<string, seq<string>>
  {
    m[k := Neighbors(m, k) + [v]]
  }

  ghost predicate WellFormed(g: GraphData)
  {
    && NoDuplicates(g.nodeOrder)
    && (forall id :: id in g.nodes <==> id in g.nodeOrder)
    && (forall id :: id in g.nodes ==> g.nodes[id].id == id)
    && (forall id :: id in g.nodes ==> id in g.adjacency && id in g.reverse)
  }

  // ---- Loading ------------------------------------------------------------

  /** One iteration of the loop over `data["services"]`. */
  function AddService(g: GraphData, svc: ServiceNode): GraphData
  {
    g.(nodes := g.nodes[svc.id := svc],
       nodeOrder := if svc.id in g.nodes then g.nodeOrder else g.nodeOrder + [svc.id],
       adjacency := SetDefault(g.adjacency, svc.id),
       reverse := SetDefault(g.reverse, svc.id))
  }

  /** One iteration of the loop over `data["dependencies"]`. */
  function AddDependency(g: GraphData, dep: DependencyEdge): GraphData
  {
    g.(edges := g.edges + [dep],
       adjacency := AppendTo(g.adjacency, dep.fromService, dep.toService),
       reverse := AppendTo(g.reverse, dep.toService, dep.fromService))
  }

  function LoadServices(g: GraphData, services: seq<ServiceNode>): GraphData
  {
    if services == [] then g
    else AddService(LoadServices(g, services[..|services| - 1]), services[|services| - 1])
  }

  function LoadDependencies(g: GraphData, deps: seq<DependencyEdge>): GraphData
  {
    if deps == [] then g
    else AddDependency(LoadDependencies(g, deps[..|deps| - 1]), deps[|deps| - 1])
  }

  lemma LoadServicesPrefix(g: GraphData, services: seq<ServiceNode>, i: nat)
    requires i < |services|
    ensures LoadServices(g, services[..i + 1]) == AddService(LoadServices(g, services[..i]), services[i])
  {
    assert services[..i + 1][..i] == services[..i];
  }

  lemma LoadDependenciesPrefix(g: GraphData, deps: seq<DependencyEdge>, j: nat)
    requires j < |deps|
    ensures LoadDependencies(g, deps[..j + 1]) == AddDependency(LoadDependencies(g, deps[..j]), deps[j])
  {
    assert deps[..j + 1][..j] == deps[..j];
  }

  /** `load_from_file`, given the already-parsed service and dependency lists. */
  function Load(g: GraphData, services: seq<ServiceNode>, deps: seq<DependencyEdge>): GraphData
  {
    LoadDependencies(LoadServices(g, services), deps)
  }

  /** The `to` ends of the dependencies leaving `k`, in order, duplicates kept. */
  function TargetsOf(deps: seq<DependencyEdge>, k: string): seq<string>
  {
    if deps == [] then []
    else TargetsOf(deps[..|deps| - 1], k)
         + (if deps[|deps| - 1].fromService == k then [deps[|deps| - 1].toService] else [])
  }

  /** The `from` ends of the dependencies entering `k`, in order. */
  function SourcesOf(deps: seq<DependencyEdge>, k: string): seq<string>
  {
    if deps == [] then []
    else SourcesOf(deps[..|deps| - 1], k)
         + (if deps[|deps| - 1].toService == k then [deps[|deps| - 1].fromService] else [])
  }

  /** The ids of `services`, in order. */
  function Ids(services: seq<ServiceNode>): (ids: seq<string>)
    ensures |ids| == |services|
    ensures forall i :: 0 <= i < |services| ==> ids[i] == services[i].id
  {
    if services == [] then [] else Ids(services[..|services| - 1]) + [services[|services| - 1].id]
  }

  /** The position of the last listing of `k`. */
  function LastIndex(services: seq<ServiceNode>, k: string): (i: nat)
    requires k in Ids(services)
    ensures i < |services| && services[i].id == k
    ensures forall j :: i < j < |services| ==> services[j].id != k
  {
    if services[|services| - 1].id == k then |services| - 1
    else
      var p := services[..|services| - 1];
      assert k in Ids(p) by {
        var m :| 0 <= m < |services| && Ids(services)[m] == k;
        assert Ids(p)[m] == k;
      }
      LastIndex(p, k)
  }

  lemma {:induction false} LoadServicesKeeps(g: GraphData, services: seq<ServiceNode>)
    ensures var r := LoadServices(g, services);
            && r.edges == g.edges
            && (forall k :: Neighbors(r.adjacency, k) == Neighbors(g.adjacency, k))
            && (forall k :: Neighbors(r.reverse, k) == Neighbors(g.reverse, k))
            && (forall k :: k in r.adjacency <==> k in g.adjacency || k in Ids(services))
            && (forall k :: k in r.reverse <==> k in g.reverse || k in Ids(services))
  {
    if services != [] {
      LoadServicesKeeps(g, services[..|services| - 1]);
    }
  }

  lemma {:induction false} LoadServicesNodes(g: GraphData, services: seq<ServiceNode>)
    ensures var r := LoadServices(g, services);
            && (forall k :: k in r.nodes <==> k in g.nodes || k in Ids(services))
            && (forall k :: k in Ids(services) ==> r.nodes[k] == services[LastIndex(services, k)])
            && (forall k :: k in g.nodes && k !in Ids(services) ==> r.nodes[k] == g.nodes[k])
  {
    if services != [] {
      var p := services[..|services| - 1];
      LoadServicesNodes(g, p);
      forall k | k in Ids(services) ensures LoadServices(g, services).nodes[k] == services[LastIndex(services, k)] {
        if services[|services| - 1].id != k {
          assert k in Ids(p) by {
            var m :| 0 <= m < |services| && Ids(services)[m] == k;
            assert Ids(p)[m] == k;
          }
          assert LastIndex(services, k) == LastIndex(p, k);
        }
      }
    }
  }

  /** Loading services makes each listed service a node (the last listing of
      an id wins), gives it possibly empty adjacency and reverse entries and
      changes no existing list or edge. */
  lemma LoadServicesSpec(g: GraphData, services: seq<ServiceNode>)
    ensures var r := LoadServices(g, services);
            && r.edges == g.edges
            && (forall k :: k in r.nodes <==> k in g.nodes || k in Ids(services))
            && (forall k :: k in Ids(services) ==> r.nodes[k] == services[LastIndex(services, k)])
            && (forall k :: k in g.nodes && k !in Ids(services) ==> r.nodes[k] == g.nodes[k])
            && (forall k :: k in Ids(services) ==> k in r.adjacency && k in r.reverse)
            && (forall k :: Neighbors(r.adjacency, k) == Neighbors(g.adjacency, k))
            && (forall k :: Neighbors(r.reverse, k) == Neighbors(g.reverse, k))
  {
    LoadServicesKeeps(g, services);
    LoadServicesNodes(g, services);
  }

  lemma {:induction false} LoadDependenciesAdjacency(g: GraphData, deps: seq<DependencyEdge>)
    ensures var r := LoadDependencies(g, deps);
            && (forall k :: Neighbors(r.adjacency, k) == Neighbors(g.adjacency, k) + TargetsOf(deps, k))
            && (forall k :: k in r.adjacency <==> k in g.adjacency || TargetsOf(deps, k) != [])
  {
    if deps != [] {
      LoadDependenciesAdjacency(g, deps[..|deps| - 1]);
    }
  }

  lemma {:induction false} LoadDependenciesReverse(g: GraphData, deps: seq<DependencyEdge>)
    ensures var r := LoadDependencies(g, deps);
            && (forall k :: Neighbors(r.reverse, k) == Neighbors(g.reverse, k) + SourcesOf(deps, k))
            && (forall k :: k in r.reverse <==> k in g.reverse || SourcesOf(deps, k) != [])
  {
    if deps != [] {
      LoadDependenciesReverse(g, deps[..|deps| - 1]);
    }
  }

  lemma {:induction false} LoadDependenciesKeeps(g: GraphData, deps: seq<DependencyEdge>)
    ensures var r := LoadDependencies(g, deps);
            r.nodes == g.nodes && r.nodeOrder == g.nodeOrder && r.edges == g.edges + deps
  {
    if deps != [] {
      var p := deps[..|deps| - 1];
      LoadDependenciesKeeps(g, p);
      assert deps == p + [deps[|deps| - 1]];
    }
  }

  /** Loading dependencies appends every edge, and extends `adjacency[from]`
      by `to` and `reverse[to]` by `from`, in order and keeping duplicates;
      nodes are not touched. */
  lemma LoadDependenciesSpec(g: GraphData, deps: seq<DependencyEdge>)
    ensures var r := LoadDependencies(g, deps);
            && r.nodes == g.nodes && r.nodeOrder == g.nodeOrder
            && r.edges == g.edges + deps
            && (forall k :: Neighbors(r.adjacency, k) == Neighbors(g.adjacency, k) + TargetsOf(deps, k))
            && (forall k :: Neighbors(r.reverse, k) == Neighbors(g.reverse, k) + SourcesOf(deps, k))
            && (forall k :: k in r.adjacency <==> k in g.adjacency || TargetsOf(deps, k) != [])
            && (forall k :: k in r.reverse <==> k in g.reverse || SourcesOf(deps, k) != [])
  {
    LoadDependenciesKeeps(g, deps);
    LoadDependenciesAdjacency(g, deps);
    LoadDependenciesReverse(g, deps);
  }

  /** The edges with their relation label dropped. */
  function Ends(deps: seq<DependencyEdge>): (e: seq<DependencyEdge>)
    ensures |e| == |deps|
    ensures forall i :: 0 <= i < |deps| ==> e[i] == DependencyEdge(deps[i].fromService, deps[i].toService, "")
  {
    if deps == [] then []
    else Ends(deps[..|deps| - 1]) + [DependencyEdge(deps[|deps| - 1].fromService, deps[|deps| - 1].toService, "")]
  }

  /** Every dependency `a -> b` puts `b` among `a`'s targets, and the targets
      of `a` are exactly such `b`s. */
  lemma {:induction false} TargetsOfSpec(deps: seq<DependencyEdge>, a: string, b: string)
    ensures b in TargetsOf(deps, a) <==> DependencyEdge(a, b, "") in Ends(deps)
  {
    if deps != [] {
      TargetsOfSpec(deps[..|deps| - 1], a, b);
      assert Ends(deps) == Ends(deps[..|deps| - 1]) + [Ends(deps)[|deps| - 1]];
    }
  }

  lemma {:induction false} LoadServicesWellFormed(g: GraphData, services: seq<ServiceNode>)
    requires WellFormed(g)
    ensures WellFormed(LoadServices(g, services))
  {
    if services != [] {
      LoadServicesWellFormed(g, services[..|services| - 1]);
    }
  }

  lemma {:induction false} LoadDependenciesWellFormed(g: GraphData, deps: seq<DependencyEdge>)
    requires WellFormed(g)
    ensures WellFormed(LoadDependencies(g, deps))
  {
    if deps != [] {
      LoadDependenciesWellFormed(g, deps[..|deps| - 1]);
    }
  }

  // ---- Walks --------------------------------------------------------------

  /** `q` follows the lists of `m`: every step goes from a service to one of
      its neighbours in `m`. */
  ghost predicate IsWalk(m: map<string, seq<string>>, q: seq<string>)
  {
    |q| > 0 && forall i :: 0 <= i < |q| - 1 ==> q[i + 1] in Neighbors(m, q[i])
  }

  ghost predicate WalkFromTo(m: map<string, seq<string>>, q: seq<string>, a: string, b: string)
  {
    IsWalk(m, q) && q[0] == a && q[|q| - 1] == b
  }

  ghost predicate Reachable(m: map<string, seq<string>>, a: string, b: string)
  {
    exists q :: WalkFromTo(m, q, a, b)
  }

  lemma WalkExtend(m: map<string, seq<string>>, q: seq<string>, a: string, b: string, c: string)
    requires WalkFromTo(m, q, a, b) && c in Neighbors(m, b)
    ensures WalkFromTo(m, q + [c], a, c)
  {
    var q' := q + [c];
    forall i | 0 <= i < |q'| - 1 ensures q'[i + 1] in Neighbors(m, q'[i]) {
      if i < |q| - 1 { assert q'[i] == q[i] && q'[i + 1] == q[i + 1]; }
    }
  }

  lemma ReachableStep(m: map<string, seq<string>>, a: string, b: string, c: string)
    requires Reachable(m, a, b) && c in Neighbors(m, b)
    ensures Reachable(m, a, c)
  {
    var q :| WalkFromTo(m, q, a, b);
    WalkExtend(m, q, a, b, c);
  }

  lemma ReachableSelf(m: map<string, seq<string>>, a: string)
    ensures Reachable(m, a, a)
  {
    assert WalkFromTo(m, [a], a, a);
  }

  lemma WalkPrefix(m: map<string, seq<string>>, q: seq<string>, a: string, k: nat)
    requires IsWalk(m, q) && q[0] == a && 0 < k <= |q|
    ensures WalkFromTo(m, q[..k], a, q[k - 1])
  {
  }

  /** A set that holds `a` and is closed under `m`'s lists holds every
      service reachable from `a`. */
  lemma {:induction false} ClosedHoldsReachable(m: map<string, seq<string>>, s: set<string>, a: string, q: seq<string>, b: string)
    requires a in s
    requires forall v, u :: v in s && u in Neighbors(m, v) ==> u in s
    requires WalkFromTo(m, q, a, b)
    ensures b in s
    decreases |q|
  {
    if |q| > 1 {
      var p := q[..|q| - 1];
      WalkPrefix(m, q, a, |q| - 1);
      ClosedHoldsReachable(m, s, a, p, q[|q| - 2]);
    }
  }

  /** The services mentioned in any list of `m`. */
  function Mentioned(m: map<string, seq<string>>): set<string>
  {
    set k, j | k in m && 0 <= j < |m[k]| :: m[k][j]
  }

  lemma NeighborsMentioned(m: map<string, seq<string>>, v: string, u: string)
    requires u in Neighbors(m, v)
    ensures u in Mentioned(m)
  {
    var j :| 0 <= j < |m[v]| && m[v][j] == u;
  }

  // ---- Breadth-first impact search ----------------------------------------

  /** The loop invariant of `get_impact_path`'s BFS over `m` from `root`:
      `path` lists the visited services once each, starting at `root`; each
      later path entry and, once something is visited, each queued service is
      a neighbour of the earlier path entry recorded in `parent` or
      `queueParent`; every neighbour of a visited service is visited or still
      queued. */
  ghost predicate ImpactInv(m: map<string, seq<string>>, root: string,
                            queue: seq<string>, visited: set<string>, path: seq<string>,
                            parent: seq<nat>, queueParent: seq<nat>)
  {
    && PathShape(root, queue, visited, path)
    && Closed(m, queue, visited)
    && ParentsOk(m, path, parent)
    && QueueParentsOk(m, queue, path, queueParent)
  }

  ghost predicate PathShape(root: string, queue: seq<string>, visited: set<string>, path: seq<string>)
  {
    && NoDuplicates(path)
    && (forall x :: x in visited <==> x in path)
    && (path == [] ==> queue == [root])
    && (path != [] ==> path[0] == root)
  }

  ghost predicate Closed(m: map<string, seq<string>>, queue: seq<string>, visited: set<string>)
  {
    forall v, u :: v in visited && u in Neighbors(m, v) ==> u in visited || u in queue
  }

  ghost predicate ParentsOk(m: map<string, seq<string>>, path: seq<string>, parent: seq<nat>)
  {
    && |parent| == |path|
    && (forall i :: 0 < i < |path| ==> parent[i] < i && path[i] in Neighbors(m, path[parent[i]]))
  }

  ghost predicate QueueParentsOk(m: map<string, seq<string>>, queue: seq<string>, path: seq<string>, queueParent: seq<nat>)
  {
    && |queueParent| == |queue|
    && (path != [] ==> forall k :: 0 <= k < |queue| ==>
          queueParent[k] < |path| && queue[k] in Neighbors(m, path[queueParent[k]]))
  }

  /** `n` copies of `x`. */
  function Repeat(n: int, x: nat): (r: seq<nat>)
    ensures |r| == if n < 0 then 0 else n
    ensures forall i :: 0 <= i < |r| ==> r[i] == x
    decreases n
  {
    if n <= 0 then [] else Repeat(n - 1, x) + [x]
  }

  function NotIn(s: set<string>): string -> bool
  {
    u => u !in s
  }

  /** Every service a search can meet: the start and anything listed in `m`. */
  ghost function Universe(m: map<string, seq<string>>, root: string): set<string>
  {
    {root} + Mentioned(m)
  }

  ghost predicate Bounded(m: map<string, seq<string>>, root: string, queue: seq<string>, visited: set<string>)
  {
    visited <= Universe(m, root) && forall k :: 0 <= k < |queue| ==> queue[k] in Universe(m, root)
  }

  /** Queueing unvisited neighbours of a service in the universe stays within
      it, and visiting a new service shrinks what is left to visit. */
  lemma BoundedVisit(m: map<string, seq<string>>, root: string, queue: seq<string>, visited: set<string>)
    requires Bounded(m, root, queue, visited)
    requires queue != [] && queue[0] !in visited
    ensures var c := queue[0];
            Bounded(m, root, queue[1..] + Filter(Neighbors(m, c), NotIn(visited + {c})), visited + {c})
    ensures |Universe(m, root) - (visited + {queue[0]})| < |Universe(m, root) - visited|
  {
    var c := queue[0];
    var added := Filter(Neighbors(m, c), NotIn(visited + {c}));
    var queue' := queue[1..] + added;
    forall k | 0 <= k < |queue'| ensures queue'[k] in Universe(m, root) {
      if k < |queue| - 1 {
        assert queue'[k] == queue[k + 1];
      } else {
        assert queue'[k] in added;
        NeighborsMentioned(m, c, queue'[k]);
      }
    }
    VisitShrinks(Universe(m, root), visited, c);
  }

  /** Dropping a queued service that was already visited keeps the invariant. */
  lemma ImpactSkip(m: map<string, seq<string>>, root: string,
                   queue: seq<string>, visited: set<string>, path: seq<string>,
                   parent: seq<nat>, queueParent: seq<nat>)
    requires ImpactInv(m, root, queue, visited, path, parent, queueParent)
    requires queue != [] && queue[0] in visited
    ensures ImpactInv(m, root, queue[1..], visited, path, parent, queueParent[1..])
  {
    forall v, u | v in visited && u in Neighbors(m, v) ensures u in visited || u in queue[1..] {
      if u !in visited {
        var k :| 0 <= k < |queue| && queue[k] == u;
        assert k != 0;
        assert queue[1..][k - 1] == u;
      }
    }
  }

  /** Visiting the head of the queue and queueing its unvisited neighbours
      keeps the invariant. */
  lemma ImpactVisitClosed(m: map<string, seq<string>>, queue: seq<string>, visited: set<string>,
                          queue': seq<string>, visited': set<string>)
    requires Closed(m, queue, visited)
    requires queue != [] && visited' == visited + {queue[0]}
    requires queue' == queue[1..] + Filter(Neighbors(m, queue[0]), NotIn(visited'))
    ensures Closed(m, queue', visited')
  {
    var c := queue[0];
    var added := Filter(Neighbors(m, c), NotIn(visited'));
    FilterComplete(Neighbors(m, c), NotIn(visited'));
    forall v, u | v in visited' && u in Neighbors(m, v) ensures u in visited' || u in queue' {
      if u !in visited' {
        if v == c {
          assert u in added;
        } else {
          var k :| 0 <= k < |queue| && queue[k] == u;
          assert k != 0;
          assert queue'[k - 1] == u;
        }
      }
    }
  }

  lemma ImpactVisitParents(m: map<string, seq<string>>, root: string,
                           queue: seq<string>, visited: set<string>, path: seq<string>,
                           parent: seq<nat>, queueParent: seq<nat>,
                           path': seq<string>, parent': seq<nat>)
    requires ImpactInv(m, root, queue, visited, path, parent, queueParent)
    requires queue != [] && path' == path + [queue[0]]
    requires parent' == parent + [if path == [] then 0 else queueParent[0]]
    ensures ParentsOk(m, path', parent')
  {
    forall i | 0 < i < |path'| ensures parent'[i] < i && path'[i] in Neighbors(m, path'[parent'[i]]) {
      if i < |path| {
        assert path'[parent[i]] == path[parent[i]];
      } else {
        assert path'[queueParent[0]] == path[queueParent[0]];
      }
    }
  }

  lemma ImpactVisitQueueParents(m: map<string, seq<string>>, queue: seq<string>, visited': set<string>,
                                path: seq<string>, queueParent: seq<nat>,
                                queue': seq<string>, path': seq<string>, queueParent': seq<nat>)
    requires QueueParentsOk(m, queue, path, queueParent)
    requires queue != [] && path' == path + [queue[0]]
    requires path == [] ==> |queue| == 1
    requires queue' == queue[1..] + Filter(Neighbors(m, queue[0]), NotIn(visited'))
    requires queueParent' == queueParent[1..] + Repeat(|queue'| - (|queue| - 1), |path|)
    ensures QueueParentsOk(m, queue', path', queueParent')
  {
    var c := queue[0];
    var added := Filter(Neighbors(m, c), NotIn(visited'));
    forall k | 0 <= k < |queue'| ensures queueParent'[k] < |path'| && queue'[k] in Neighbors(m, path'[queueParent'[k]]) {
      if k < |queue| - 1 {
        assert queue'[k] == queue[k + 1] && queueParent'[k] == queueParent[k + 1];
        if path != [] {
          assert path'[queueParent[k + 1]] == path[queueParent[k + 1]];
        }
      } else {
        assert queue'[k] == added[k - (|queue| - 1)];
        assert queueParent'[k] == |path|;
        assert path'[|path|] == c;
      }
    }
  }

  /** Visiting the head of the queue and queueing its unvisited neighbours
      keeps the invariant. */
  lemma ImpactVisit(m: map<string, seq<string>>, root: string,
                    queue: seq<string>, visited: set<string>, path: seq<string>,
                    parent: seq<nat>, queueParent: seq<nat>,
                    queue': seq<string>, visited': set<string>, path': seq<string>,
                    parent': seq<nat>, queueParent': seq<nat>)
    requires ImpactInv(m, root, queue, visited, path, parent, queueParent)
    requires queue != [] && queue[0] !in visited
    requires visited' == visited + {queue[0]} && path' == path + [queue[0]]
    requires queue' == queue[1..] + Filter(Neighbors(m, queue[0]), NotIn(visited'))
    requires parent' == parent + [if path == [] then 0 else queueParent[0]]
    requires queueParent' == queueParent[1..] + Repeat(|queue'| - (|queue| - 1), |path|)
    ensures ImpactInv(m, root, queue', visited', path', parent', queueParent')
  {
    ImpactVisitClosed(m, queue, visited, queue', visited');
    ImpactVisitParents(m, root, queue, visited, path, parent, queueParent, path', parent');
    ImpactVisitQueueParents(m, queue, visited', path, queueParent, queue', path', queueParent');
    assert PathShape(root, queue', visited', path');
  }

  /** One visit of `get_impact_path`'s loop: pop the unvisited head, record
      it and queue its unvisited dependents. */
  method ImpactVisitStep(m: map<string, seq<string>>, root: string,
                         queue: seq<string>, visited: set<string>, path: seq<string>,
                         ghost parent: seq<nat>, ghost queueParent: seq<nat>,
                         ghost pos: seq<nat>, ghost queuePos: seq<nat>)
    returns (queue': seq<string>, visited': set<string>, path': seq<string>,
             ghost parent': seq<nat>, ghost queueParent': seq<nat>,
             ghost pos': seq<nat>, ghost queuePos': seq<nat>)
    requires ImpactInv(m, root, queue, visited, path, parent, queueParent)
    requires ImpactOrder(m, queue, visited, path, parent, pos, queueParent, queuePos)
    requires Bounded(m, root, queue, visited)
    requires queue != [] && queue[0] !in visited
    ensures ImpactInv(m, root, queue', visited', path', parent', queueParent')
    ensures ImpactOrder(m, queue', visited', path', parent', pos', queueParent', queuePos')
    ensures Bounded(m, root, queue', visited')
    ensures visited' == visited + {queue[0]} && path' == path + [queue[0]]
    ensures |Universe(m, root) - visited'| < |Universe(m, root) - visited|
  {
    var current := queue[0];
    BoundedVisit(m, root, queue, visited);
    visited' := visited + {current};
    path' := path + [current];
    queue' := AppendUnvisited(queue[1..], Neighbors(m, current), visited');
    parent' := parent + [if path == [] then 0 else queueParent[0]];
    queueParent' := queueParent[1..] + Repeat(|queue'| - (|queue| - 1), |path|);
    ImpactVisit(m, root, queue, visited, path, parent, queueParent,
                queue', visited', path', parent', queueParent');
    pos' := pos + [if path == [] then 0 else queuePos[0]];
    ghost var ps := UnvisitedPositions(Neighbors(m, current), visited');
    UnvisitedPositionsSpec(Neighbors(m, current), visited');
    queuePos' := queuePos[1..] + ps;
    OrderVisitQueueKeys(m, queue, visited', path, queueParent, queuePos, queue', path', queueParent', queuePos');
    OrderVisitQueueSorted(queueParent, queuePos, |path|, |ps|, ps, queueParent', queuePos');
    OrderVisitFirstKeys(m, queue, visited, path, parent, pos, queueParent, queuePos, path', parent', pos');
    OrderVisitPathKeys(parent, pos, queueParent, queuePos, parent', pos', queueParent', queuePos', ps);
    OrderVisitPending(m, queue, visited, path, queueParent, queuePos, visited', path', queueParent', queuePos', ps);
  }

  /** Every path entry is reachable from `root` through its chain of parents. */
  lemma {:induction false} ParentsReachable(m: map<string, seq<string>>, root: string,
                                            path: seq<string>, parent: seq<nat>, i: nat)
    requires path != [] && path[0] == root && |parent| == |path|
    requires forall i :: 0 < i < |path| ==> parent[i] < i && path[i] in Neighbors(m, path[parent[i]])
    requires i < |path|
    ensures Reachable(m, root, path[i])
    decreases i
  {
    if i == 0 {
      ReachableSelf(m, root);
    } else {
      ParentsReachable(m, root, path, parent, parent[i]);
      ReachableStep(m, root, path[parent[i]], path[i]);
    }
  }

  /** When the queue is exhausted the path holds exactly the reachable
      services. */
  lemma ImpactReachable(m: map<string, seq<string>>, root: string, visited: set<string>, path: seq<string>,
                        parent: seq<nat>)
    requires ImpactInv(m, root, [], visited, path, parent, [])
    ensures path != [] && path[0] == root
    ensures forall x :: x in path <==> Reachable(m, root, x)
  {
    forall x ensures x in path <==> Reachable(m, root, x) {
      if Reachable(m, root, x) {
        var q :| WalkFromTo(m, q, root, x);
        ClosedHoldsReachable(m, visited, root, q, x);
      }
      if x in path {
        var i :| 0 <= i < |path| && path[i] == x;
        ParentsReachable(m, root, path, parent, i);
      }
    }
  }

  /** When the queue is exhausted the path holds exactly the reachable
      services, in breadth-first discovery order. */
  lemma ImpactDone(m: map<string, seq<string>>, root: string, visited: set<string>, path: seq<string>,
                   parent: seq<nat>, pos: seq<nat>)
    requires ImpactInv(m, root, [], visited, path, parent, [])
    requires FirstKeys(m, path, parent, pos) && PathSorted(parent, pos)
    ensures path != [] && path[0] == root
    ensures forall x :: x in path <==> Reachable(m, root, x)
    ensures DiscoveredEarlier(m, path)
    ensures BreadthFirst(m, path)
  {
    ImpactReachable(m, root, visited, path, parent);
    OrderDone(m, path, parent, pos);
  }

  // ---- Breadth-first order of the impact path -------------------------------

  /** The index of the first entry of `path` that lists `x` among its
      neighbours in `m` (the entry whose visit queues `x` first), or
      `|path|` when none does. */
  function Discoverer(m: map<string, seq<string>>, path: seq<string>, x: string): (j: nat)
    ensures j <= |path|
    ensures j < |path| ==> x in Neighbors(m, path[j])
    ensures forall k :: 0 <= k < j ==> x !in Neighbors(m, path[k])
  {
    if path == [] then 0
    else if x in Neighbors(m, path[0]) then 0
    else
      var j := Discoverer(m, path[1..], x);
      assert forall k :: 0 < k < |path| ==> path[k] == path[1..][k - 1];
      1 + j
  }

  /** Queue keys: a service is queued by the visit of path entry `a` at
      position `p` of that entry's list; keys are compared lexicographically. */
  predicate KeyLess(a: nat, p: nat, b: nat, q: nat)
  {
    a < b || (a == b && p < q)
  }

  /** `path[i]` was queued before `path[k]`: its discoverer comes earlier
      in the path, or it is the same and lists `path[i]` first. */
  ghost predicate QueuedBefore(m: map<string, seq<string>>, path: seq<string>, i: int, k: int)
    requires 0 <= i < |path| && 0 <= k < |path|
  {
    var a := Discoverer(m, path, path[i]);
    var b := Discoverer(m, path, path[k]);
    a < b || (a == b && a < |path| && path[i] in Neighbors(m, path[a]) && path[k] in Neighbors(m, path[a])
              && IndexOf(Neighbors(m, path[a]), path[i]) < IndexOf(Neighbors(m, path[a]), path[k]))
  }

  /** Breadth-first discovery order: after the root, the entries appear in
      the order in which they were first queued. */
  ghost predicate BreadthFirst(m: map<string, seq<string>>, path: seq<string>)
  {
    forall i, k :: 0 < i < k < |path| ==> QueuedBefore(m, path, i, k)
  }

  /** Every later entry is discovered by an earlier one. */
  ghost predicate DiscoveredEarlier(m: map<string, seq<string>>, path: seq<string>)
  {
    forall i :: 0 < i < |path| ==> Discoverer(m, path, path[i]) < i
  }

  /** The positions in `ns` of the entries `AppendUnvisited` queues. */
  function UnvisitedPositions(ns: seq<string>, visited: set<string>): (ps: seq<nat>)
    ensures |ps| == |Filter(ns, NotIn(visited))|
  {
    if ns == [] then []
    else UnvisitedPositions(ns[..|ns| - 1], visited) + (if ns[|ns| - 1] !in visited then [|ns| - 1] else [])
  }

  /** `UnvisitedPositions` lists, in increasing order, positions of
      unvisited entries, each pointing at the matching entry of the
      filtered list. */
  lemma {:induction false} UnvisitedPositionsSpec(ns: seq<string>, visited: set<string>)
    ensures var ps := UnvisitedPositions(ns, visited);
            && (forall t :: 0 <= t < |ps| ==> ps[t] < |ns| && ns[ps[t]] == Filter(ns, NotIn(visited))[t])
            && (forall t1, t2 :: 0 <= t1 < t2 < |ps| ==> ps[t1] < ps[t2])
  {
    if ns != [] {
      var init := ns[..|ns| - 1];
      UnvisitedPositionsSpec(init, visited);
      var ps0 := UnvisitedPositions(init, visited);
      var f0 := Filter(init, NotIn(visited));
      var ps := UnvisitedPositions(ns, visited);
      var f := Filter(ns, NotIn(visited));
      assert forall p :: 0 <= p < |init| ==> init[p] == ns[p];
      assert f == f0 + (if ns[|ns| - 1] !in visited then [ns[|ns| - 1]] else []);
      assert ps == ps0 + (if ns[|ns| - 1] !in visited then [|ns| - 1] else []);
      assert forall t :: 0 <= t < |ps0| ==> ps[t] == ps0[t] && f[t] == f0[t];
    }
  }

  /** Every position of an unvisited entry is among `UnvisitedPositions`. */
  lemma {:induction false} UnvisitedPositionsComplete(ns: seq<string>, visited: set<string>)
    ensures forall p :: 0 <= p < |ns| && ns[p] !in visited ==> p in UnvisitedPositions(ns, visited)
  {
    if ns != [] {
      var init := ns[..|ns| - 1];
      UnvisitedPositionsComplete(init, visited);
      assert forall p :: 0 <= p < |init| ==> init[p] == ns[p];
      assert UnvisitedPositions(ns, visited)
          == UnvisitedPositions(init, visited) + (if ns[|ns| - 1] !in visited then [|ns| - 1] else []);
    }
  }

  /** Every queued service sits at its key's position, in the list of the
      path entry whose visit queued it. */
  ghost predicate QueueKeys(m: map<string, seq<string>>, queue: seq<string>, path: seq<string>,
                            queueParent: seq<nat>, queuePos: seq<nat>)
  {
    && |queueParent| == |queue| && |queuePos| == |queue|
    && (path != [] ==> forall k :: 0 <= k < |queue| ==>
          queueParent[k] < |path| && queuePos[k] < |Neighbors(m, path[queueParent[k]])|
          && Neighbors(m, path[queueParent[k]])[queuePos[k]] == queue[k])
  }

  ghost predicate QueueSorted(queueParent: seq<nat>, queuePos: seq<nat>)
  {
    |queuePos| == |queueParent|
    && forall k1, k2 :: 0 <= k1 < k2 < |queueParent| ==>
         KeyLess(queueParent[k1], queuePos[k1], queueParent[k2], queuePos[k2])
  }

  /** Each later path entry carries the least key under which it was ever
      queued: no earlier entry lists it, and its parent lists it first at
      `pos`. */
  ghost predicate FirstKeys(m: map<string, seq<string>>, path: seq<string>, parent: seq<nat>, pos: seq<nat>)
  {
    && |parent| == |path| && |pos| == |path|
    && forall i :: 0 < i < |path| ==>
         && parent[i] < i && pos[i] < |Neighbors(m, path[parent[i]])|
         && Neighbors(m, path[parent[i]])[pos[i]] == path[i]
         && (forall j :: 0 <= j < parent[i] ==> path[i] !in Neighbors(m, path[j]))
         && (forall p :: 0 <= p < pos[i] ==> Neighbors(m, path[parent[i]])[p] != path[i])
  }

  ghost predicate PathSorted(parent: seq<nat>, pos: seq<nat>)
  {
    |pos| == |parent|
    && forall i1, i2 :: 0 < i1 < i2 < |parent| ==> KeyLess(parent[i1], pos[i1], parent[i2], pos[i2])
  }

  ghost predicate PathBeforeQueue(parent: seq<nat>, pos: seq<nat>, queueParent: seq<nat>, queuePos: seq<nat>)
  {
    |pos| == |parent| && |queuePos| == |queueParent|
    && forall i, k :: 0 < i < |parent| && 0 <= k < |queueParent| ==>
         KeyLess(parent[i], pos[i], queueParent[k], queuePos[k])
  }

  /** Every listed dependent of a visited entry that is not visited itself
      is still queued under the key of that listing. */
  ghost predicate Pending(m: map<string, seq<string>>, path: seq<string>, visited: set<string>,
                          queueParent: seq<nat>, queuePos: seq<nat>)
  {
    forall j, p :: 0 <= j < |path| && 0 <= p < |Neighbors(m, path[j])| && Neighbors(m, path[j])[p] !in visited ==>
      exists k :: 0 <= k < |queueParent| && k < |queuePos| && queueParent[k] == j && queuePos[k] == p
  }

  /** The order half of the loop invariant of `get_impact_path`: the queue
      is sorted by key, every path entry was visited under its least key,
      in key order, and before everything still queued. */
  ghost predicate ImpactOrder(m: map<string, seq<string>>, queue: seq<string>, visited: set<string>,
                              path: seq<string>, parent: seq<nat>, pos: seq<nat>,
                              queueParent: seq<nat>, queuePos: seq<nat>)
  {
    && QueueKeys(m, queue, path, queueParent, queuePos)
    && QueueSorted(queueParent, queuePos)
    && FirstKeys(m, path, parent, pos)
    && PathSorted(parent, pos)
    && PathBeforeQueue(parent, pos, queueParent, queuePos)
    && Pending(m, path, visited, queueParent, queuePos)
  }

  /** Dropping a visited head keeps the order invariant. */
  lemma OrderSkip(m: map<string, seq<string>>, queue: seq<string>, visited: set<string>,
                  path: seq<string>, parent: seq<nat>, pos: seq<nat>,
                  queueParent: seq<nat>, queuePos: seq<nat>)
    requires ImpactOrder(m, queue, visited, path, parent, pos, queueParent, queuePos)
    requires queue != [] && queue[0] in visited
    ensures ImpactOrder(m, queue[1..], visited, path, parent, pos, queueParent[1..], queuePos[1..])
  {
    forall j, p | 0 <= j < |path| && 0 <= p < |Neighbors(m, path[j])| && Neighbors(m, path[j])[p] !in visited
      ensures exists k :: 0 <= k < |queueParent[1..]| && k < |queuePos[1..]|
                          && queueParent[1..][k] == j && queuePos[1..][k] == p
    {
      var k :| 0 <= k < |queueParent| && k < |queuePos| && queueParent[k] == j && queuePos[k] == p;
      assert queue[k] == Neighbors(m, path[j])[p];
      assert k != 0;
      assert queueParent[1..][k - 1] == j && queuePos[1..][k - 1] == p;
    }
  }

  /** The unvisited head of the queue carries the least key under which it
      was ever listed by a visited entry. */
  lemma HeadKeyIsLeast(m: map<string, seq<string>>, queue: seq<string>, visited: set<string>,
                       path: seq<string>, parent: seq<nat>, pos: seq<nat>,
                       queueParent: seq<nat>, queuePos: seq<nat>)
    requires ImpactOrder(m, queue, visited, path, parent, pos, queueParent, queuePos)
    requires queue != [] && queue[0] !in visited && path != []
    ensures forall j :: 0 <= j < queueParent[0] ==> queue[0] !in Neighbors(m, path[j])
    ensures forall p :: 0 <= p < queuePos[0] ==> Neighbors(m, path[queueParent[0]])[p] != queue[0]
  {
    forall j, p | 0 <= j < |path| && 0 <= p < |Neighbors(m, path[j])| && Neighbors(m, path[j])[p] == queue[0]
      ensures !KeyLess(j, p, queueParent[0], queuePos[0])
    {
      var k :| 0 <= k < |queueParent| && k < |queuePos| && queueParent[k] == j && queuePos[k] == p;
      if k > 0 {
        assert KeyLess(queueParent[0], queuePos[0], queueParent[k], queuePos[k]);
      }
    }
  }

  /** Visiting the head keeps every queued service at its key's position. */
  lemma OrderVisitQueueKeys(m: map<string, seq<string>>, queue: seq<string>, visited': set<string>,
                            path: seq<string>, queueParent: seq<nat>, queuePos: seq<nat>,
                            queue': seq<string>, path': seq<string>, queueParent': seq<nat>, queuePos': seq<nat>)
    requires QueueKeys(m, queue, path, queueParent, queuePos)
    requires queue != [] && path' == path + [queue[0]]
    requires path == [] ==> |queue| == 1
    requires queue' == queue[1..] + Filter(Neighbors(m, queue[0]), NotIn(visited'))
    requires queueParent' == queueParent[1..] + Repeat(|queue'| - (|queue| - 1), |path|)
    requires queuePos' == queuePos[1..] + UnvisitedPositions(Neighbors(m, queue[0]), visited')
    ensures QueueKeys(m, queue', path', queueParent', queuePos')
  {
    var c := queue[0];
    var added := Filter(Neighbors(m, c), NotIn(visited'));
    var ps := UnvisitedPositions(Neighbors(m, c), visited');
    UnvisitedPositionsSpec(Neighbors(m, c), visited');
    var n := |queue| - 1;
    forall k | 0 <= k < |queue'|
      ensures queueParent'[k] < |path'| && queuePos'[k] < |Neighbors(m, path'[queueParent'[k]])|
              && Neighbors(m, path'[queueParent'[k]])[queuePos'[k]] == queue'[k]
    {
      if k < n {
        assert queue'[k] == queue[k + 1] && queueParent'[k] == queueParent[k + 1] && queuePos'[k] == queuePos[k + 1];
        assert path'[queueParent[k + 1]] == path[queueParent[k + 1]];
      } else {
        assert queue'[k] == added[k - n] && queueParent'[k] == |path| && queuePos'[k] == ps[k - n];
        assert path'[|path|] == c;
      }
    }
  }

  /** Visiting the head queues its dependents under keys above every key
      still queued, in list order. */
  lemma OrderVisitQueueSorted(queueParent: seq<nat>, queuePos: seq<nat>, pathLength: nat,
                              added: nat, ps: seq<nat>, queueParent': seq<nat>, queuePos': seq<nat>)
    requires QueueSorted(queueParent, queuePos) && queueParent != []
    requires forall k :: 0 < k < |queueParent| ==> queueParent[k] < pathLength
    requires |ps| == added && forall t1, t2 :: 0 <= t1 < t2 < |ps| ==> ps[t1] < ps[t2]
    requires queueParent' == queueParent[1..] + Repeat(added, pathLength)
    requires queuePos' == queuePos[1..] + ps
    ensures QueueSorted(queueParent', queuePos')
  {
    var n := |queueParent| - 1;
    forall k1, k2 | 0 <= k1 < k2 < |queueParent'|
      ensures KeyLess(queueParent'[k1], queuePos'[k1], queueParent'[k2], queuePos'[k2])
    {
      if k2 < n {
        assert queueParent'[k1] == queueParent[k1 + 1] && queuePos'[k1] == queuePos[k1 + 1];
        assert queueParent'[k2] == queueParent[k2 + 1] && queuePos'[k2] == queuePos[k2 + 1];
      } else if k1 < n {
        assert queueParent'[k1] == queueParent[k1 + 1] && queueParent'[k2] == pathLength;
      } else {
        assert queueParent'[k1] == pathLength && queueParent'[k2] == pathLength;
        assert queuePos'[k1] == ps[k1 - n] && queuePos'[k2] == ps[k2 - n];
      }
    }
  }

  /** Visiting the head records it under its least key. */
  lemma OrderVisitFirstKeys(m: map<string, seq<string>>, queue: seq<string>, visited: set<string>,
                            path: seq<string>, parent: seq<nat>, pos: seq<nat>,
                            queueParent: seq<nat>, queuePos: seq<nat>,
                            path': seq<string>, parent': seq<nat>, pos': seq<nat>)
    requires ImpactOrder(m, queue, visited, path, parent, pos, queueParent, queuePos)
    requires queue != [] && queue[0] !in visited && path' == path + [queue[0]]
    requires parent' == parent + [if path == [] then 0 else queueParent[0]]
    requires pos' == pos + [if path == [] then 0 else queuePos[0]]
    ensures FirstKeys(m, path', parent', pos')
  {
    var c := queue[0];
    if path != [] {
      HeadKeyIsLeast(m, queue, visited, path, parent, pos, queueParent, queuePos);
    }
    forall i | 0 < i < |path'|
      ensures parent'[i] < i && pos'[i] < |Neighbors(m, path'[parent'[i]])|
              && Neighbors(m, path'[parent'[i]])[pos'[i]] == path'[i]
              && (forall j :: 0 <= j < parent'[i] ==> path'[i] !in Neighbors(m, path'[j]))
              && (forall p :: 0 <= p < pos'[i] ==> Neighbors(m, path'[parent'[i]])[p] != path'[i])
    {
      assert forall j :: 0 <= j < |path| ==> path'[j] == path[j];
      if i < |path| {
        assert path'[i] == path[i] && parent'[i] == parent[i] && pos'[i] == pos[i];
      } else {
        assert path'[i] == c && parent'[i] == queueParent[0] && pos'[i] == queuePos[0];
      }
    }
  }

  /** The head's key lies above every key visited and below every key still
      queued, so the new entry keeps the path sorted and below the queue. */
  lemma OrderVisitPathKeys(parent: seq<nat>, pos: seq<nat>, queueParent: seq<nat>, queuePos: seq<nat>,
                           parent': seq<nat>, pos': seq<nat>, queueParent': seq<nat>, queuePos': seq<nat>,
                           ps: seq<nat>)
    requires PathSorted(parent, pos) && PathBeforeQueue(parent, pos, queueParent, queuePos)
    requires QueueSorted(queueParent, queuePos) && queueParent != []
    requires forall i :: 0 < i < |parent| ==> parent[i] < i
    requires parent != [] ==> forall k :: 0 <= k < |queueParent| ==> queueParent[k] < |parent|
    requires parent' == parent + [if parent == [] then 0 else queueParent[0]]
    requires pos' == pos + [if parent == [] then 0 else queuePos[0]]
    requires queueParent' == queueParent[1..] + Repeat(|ps|, |parent|)
    requires queuePos' == queuePos[1..] + ps
    ensures PathSorted(parent', pos') && PathBeforeQueue(parent', pos', queueParent', queuePos')
  {
    var n := |queueParent| - 1;
    forall i1, i2 | 0 < i1 < i2 < |parent'| ensures KeyLess(parent'[i1], pos'[i1], parent'[i2], pos'[i2]) {
      if i2 == |parent| {
        assert parent'[i1] == parent[i1] && pos'[i1] == pos[i1];
      }
    }
    forall i, k | 0 < i < |parent'| && 0 <= k < |queueParent'|
      ensures KeyLess(parent'[i], pos'[i], queueParent'[k], queuePos'[k])
    {
      if k < n {
        assert queueParent'[k] == queueParent[k + 1] && queuePos'[k] == queuePos[k + 1];
        if i == |parent| {
          assert KeyLess(queueParent[0], queuePos[0], queueParent[k + 1], queuePos[k + 1]);
        }
      } else {
        assert queueParent'[k] == |parent|;
        if i < |parent| {
          assert parent'[i] == parent[i];
        } else {
          assert parent'[i] == queueParent[0];
        }
      }
    }
  }

  /** Visiting the head keeps every pending listing of an entry visited
      before it queued. */
  lemma OrderVisitPendingOld(m: map<string, seq<string>>, queue: seq<string>, visited: set<string>,
                             path: seq<string>, queueParent: seq<nat>, queuePos: seq<nat>,
                             visited': set<string>, path': seq<string>,
                             queueParent': seq<nat>, queuePos': seq<nat>)
    requires QueueKeys(m, queue, path, queueParent, queuePos)
    requires Pending(m, path, visited, queueParent, queuePos)
    requires queue != [] && visited' == visited + {queue[0]} && path' == path + [queue[0]]
    requires |queueParent'| >= |queueParent| - 1 && |queuePos'| >= |queuePos| - 1
    requires forall k :: 0 <= k < |queueParent| - 1 ==> queueParent'[k] == queueParent[k + 1] && queuePos'[k] == queuePos[k + 1]
    ensures forall j, p :: 0 <= j < |path| && 0 <= p < |Neighbors(m, path'[j])| && Neighbors(m, path'[j])[p] !in visited' ==>
              exists k :: 0 <= k < |queueParent'| && k < |queuePos'| && queueParent'[k] == j && queuePos'[k] == p
  {
    forall j, p | 0 <= j < |path| && 0 <= p < |Neighbors(m, path'[j])| && Neighbors(m, path'[j])[p] !in visited'
      ensures exists k :: 0 <= k < |queueParent'| && k < |queuePos'| && queueParent'[k] == j && queuePos'[k] == p
    {
      assert path'[j] == path[j];
      var k :| 0 <= k < |queueParent| && k < |queuePos| && queueParent[k] == j && queuePos[k] == p;
      assert queue[k] == Neighbors(m, path[j])[p];
      assert queueParent'[k - 1] == j && queuePos'[k - 1] == p;
    }
  }

  /** Visiting the head queues every unvisited listing of its own. */
  lemma OrderVisitPendingNew(m: map<string, seq<string>>, c: string, visited': set<string>, path': seq<string>,
                             n: nat, ps: seq<nat>, queueParent': seq<nat>, queuePos': seq<nat>)
    requires path' != [] && path'[|path'| - 1] == c
    requires forall p :: 0 <= p < |Neighbors(m, c)| && Neighbors(m, c)[p] !in visited' ==> p in ps
    requires |queueParent'| == n + |ps| && |queuePos'| == n + |ps|
    requires forall t :: 0 <= t < |ps| ==> queueParent'[n + t] == |path'| - 1 && queuePos'[n + t] == ps[t]
    ensures forall p :: 0 <= p < |Neighbors(m, c)| && Neighbors(m, c)[p] !in visited' ==>
              exists k :: 0 <= k < |queueParent'| && k < |queuePos'| && queueParent'[k] == |path'| - 1 && queuePos'[k] == p
  {
    forall p | 0 <= p < |Neighbors(m, c)| && Neighbors(m, c)[p] !in visited'
      ensures exists k :: 0 <= k < |queueParent'| && k < |queuePos'| && queueParent'[k] == |path'| - 1 && queuePos'[k] == p
    {
      var t :| 0 <= t < |ps| && ps[t] == p;
      assert queueParent'[n + t] == |path'| - 1 && queuePos'[n + t] == p;
    }
  }

  /** Dequeuing the head and appending the new keys shifts the old keys
      down by one. */
  lemma QueueShift(queueParent: seq<nat>, queuePos: seq<nat>, ps: seq<nat>, l: nat,
                   queueParent': seq<nat>, queuePos': seq<nat>)
    requires queueParent != [] && |queuePos| == |queueParent|
    requires queueParent' == queueParent[1..] + Repeat(|ps|, l) && queuePos' == queuePos[1..] + ps
    ensures |queueParent'| == |queueParent| - 1 + |ps| && |queuePos'| == |queueParent| - 1 + |ps|
    ensures forall t :: 0 <= t < |ps| ==> queueParent'[|queueParent| - 1 + t] == l && queuePos'[|queueParent| - 1 + t] == ps[t]
    ensures forall k :: 0 <= k < |queueParent| - 1 ==> queueParent'[k] == queueParent[k + 1] && queuePos'[k] == queuePos[k + 1]
  {
  }

  /** Visiting the head keeps every pending listing queued. */
  lemma OrderVisitPending(m: map<string, seq<string>>, queue: seq<string>, visited: set<string>,
                          path: seq<string>, queueParent: seq<nat>, queuePos: seq<nat>,
                          visited': set<string>, path': seq<string>,
                          queueParent': seq<nat>, queuePos': seq<nat>, ps: seq<nat>)
    requires QueueKeys(m, queue, path, queueParent, queuePos)
    requires Pending(m, path, visited, queueParent, queuePos)
    requires queue != [] && visited' == visited + {queue[0]} && path' == path + [queue[0]]
    requires ps == UnvisitedPositions(Neighbors(m, queue[0]), visited')
    requires queueParent' == queueParent[1..] + Repeat(|ps|, |path|)
    requires queuePos' == queuePos[1..] + ps
    ensures Pending(m, path', visited', queueParent', queuePos')
  {
    QueueShift(queueParent, queuePos, ps, |path|, queueParent', queuePos');
    OrderVisitPendingOld(m, queue, visited, path, queueParent, queuePos, visited', path', queueParent', queuePos');
    UnvisitedPositionsComplete(Neighbors(m, queue[0]), visited');
    OrderVisitPendingNew(m, queue[0], visited', path', |queue| - 1, ps, queueParent', queuePos');
  }

  /** At the root's visit the order invariant starts out. */
  lemma OrderStart(m: map<string, seq<string>>, root: string)
    ensures ImpactOrder(m, [root], {}, [], [], [], [0], [0])
  {
  }

  /** When the queue is exhausted, the recorded keys are the discoverers and
      list positions, so the path is in breadth-first order. */
  lemma OrderDone(m: map<string, seq<string>>, path: seq<string>, parent: seq<nat>, pos: seq<nat>)
    requires FirstKeys(m, path, parent, pos) && PathSorted(parent, pos)
    ensures DiscoveredEarlier(m, path)
    ensures BreadthFirst(m, path)
  {
    forall i | 0 < i < |path|
      ensures Discoverer(m, path, path[i]) == parent[i]
      ensures path[i] in Neighbors(m, path[parent[i]]) && IndexOf(Neighbors(m, path[parent[i]]), path[i]) == pos[i]
    {
      var d := Discoverer(m, path, path[i]);
      assert Neighbors(m, path[parent[i]])[pos[i]] == path[i];
      assert d <= parent[i];
    }
    forall i, k | 0 < i < k < |path| ensures QueuedBefore(m, path, i, k) {
      assert KeyLess(parent[i], pos[i], parent[k], pos[k]);
    }
  }

  /** A discoverer found within a shared prefix is the same in both
      sequences. */
  lemma DiscovererInPrefix(m: map<string, seq<string>>, p1: seq<string>, p2: seq<string>, n: nat, x: string)
    requires n <= |p1| && n <= |p2| && p1[..n] == p2[..n]
    requires Discoverer(m, p1, x) < n
    ensures Discoverer(m, p2, x) == Discoverer(m, p1, x)
  {
    assert forall k :: 0 <= k < n ==> p1[k] == p2[k] by {
      forall k | 0 <= k < n ensures p1[k] == p2[k] { assert p1[..n][k] == p2[..n][k]; }
    }
  }

  /** Breadth-first order fixes the entry after a shared prefix. */
  lemma SameEntryAfterPrefix(m: map<string, seq<string>>, p1: seq<string>, p2: seq<string>, n: nat)
    requires NoDuplicates(p1) && NoDuplicates(p2)
    requires forall x :: x in p1 <==> x in p2
    requires DiscoveredEarlier(m, p1) && DiscoveredEarlier(m, p2)
    requires BreadthFirst(m, p1) && BreadthFirst(m, p2)
    requires 0 < n < |p1| && n < |p2| && p1[..n] == p2[..n]
    ensures p1[n] == p2[n]
  {
    var a, b := p1[n], p2[n];
    assert b in p1;
    assert a in p2;
    var ib := IndexOf(p1, b);
    var ia := IndexOf(p2, a);
    assert forall k :: 0 <= k < n ==> p1[k] == p2[k] by {
      forall k | 0 <= k < n ensures p1[k] == p2[k] { assert p1[..n][k] == p2[..n][k]; }
    }
    assert n <= ib && n <= ia;
    DiscovererInPrefix(m, p1, p2, n, a);
    DiscovererInPrefix(m, p2, p1, n, b);
    QueuedAfterPrefix(m, p1, p2, n, ib, ia);
    assert ib == n || ia == n;
  }

  /** Both breadth-first orders place the entry at `n` before the later ones. */
  lemma QueuedAfterPrefix(m: map<string, seq<string>>, p1: seq<string>, p2: seq<string>, n: nat, ib: nat, ia: nat)
    requires BreadthFirst(m, p1) && BreadthFirst(m, p2)
    requires 0 < n <= ib < |p1| && n <= ia < |p2|
    ensures n < ib ==> QueuedBefore(m, p1, n, ib)
    ensures n < ia ==> QueuedBefore(m, p2, n, ia)
  {
  }

  lemma PrefixStep(p1: seq<string>, p2: seq<string>, n: nat)
    requires n < |p1| && n < |p2| && p1[..n] == p2[..n] && p1[n] == p2[n]
    ensures p1[..n + 1] == p2[..n + 1]
  {
    assert p1[..n + 1] == p1[..n] + [p1[n]] && p2[..n + 1] == p2[..n] + [p2[n]];
  }

  lemma {:induction false} PrefixesAgree(m: map<string, seq<string>>, p1: seq<string>, p2: seq<string>, n: nat)
    requires NoDuplicates(p1) && NoDuplicates(p2) && |p1| == |p2|
    requires forall x :: x in p1 <==> x in p2
    requires DiscoveredEarlier(m, p1) && DiscoveredEarlier(m, p2)
    requires BreadthFirst(m, p1) && BreadthFirst(m, p2)
    requires 0 < n <= |p1| && p1[..n] == p2[..n]
    ensures p1 == p2
    decreases |p1| - n
  {
    if n == |p1| {
      assert p1 == p1[..n] && p2 == p2[..n];
    } else {
      SameEntryAfterPrefix(m, p1, p2, n);
      PrefixStep(p1, p2, n);
      PrefixesAgree(m, p1, p2, n + 1);
    }
  }

  /** Two sequences that both start at the same service, list the same
      services once each, and are both discovered-earlier and breadth-first
      are equal: the contract of `get_impact_path` determines its result. */
  lemma BreadthFirstUnique(m: map<string, seq<string>>, p1: seq<string>, p2: seq<string>)
    requires p1 != [] && p2 != [] && p1[0] == p2[0]
    requires NoDuplicates(p1) && NoDuplicates(p2)
    requires forall x :: x in p1 <==> x in p2
    requires DiscoveredEarlier(m, p1) && DiscoveredEarlier(m, p2)
    requires BreadthFirst(m, p1) && BreadthFirst(m, p2)
    ensures p1 == p2
  {
    var keys := map x | x in p1 :: 0;
    NoDuplicatesCard(p1, keys);
    NoDuplicatesCard(p2, keys);
    assert p1[..1] == [p1[0]] && p2[..1] == [p2[0]];
    PrefixesAgree(m, p1, p2, 1);
  }

  /** On the dependents X -> [A, B], A -> [C], breadth-first order visits
      B before C; the depth-first order X, A, C, B is not breadth-first. */
  lemma BreadthFirstExample()
    ensures var m := map["X" := ["A", "B"], "A" := ["C"], "B" := [], "C" := []];
            BreadthFirst(m, ["X", "A", "B", "C"]) && !BreadthFirst(m, ["X", "A", "C", "B"])
  {
    var m := map["X" := ["A", "B"], "A" := ["C"], "B" := [], "C" := []];
    var bfs := ["X", "A", "B", "C"];
    var dfs := ["X", "A", "C", "B"];
    assert Discoverer(m, bfs, "A") == 0 && Discoverer(m, bfs, "B") == 0 && Discoverer(m, bfs, "C") == 1;
    assert Discoverer(m, dfs, "C") == 1 && Discoverer(m, dfs, "B") == 0;
    assert !QueuedBefore(m, dfs, 2, 3);
  }

  /** The inner `for` loop of both searches: append each listed service not
      yet visited, in order. */
  method AppendUnvisited(queue: seq<string>, ns: seq<string>, visited: set<string>) returns (q: seq<string>)
    ensures q == queue + Filter(ns, NotIn(visited))
  {
    q := queue;
    var j := 0;
    while j < |ns|
      invariant 0 <= j <= |ns|
      invariant q == queue + Filter(ns[..j], NotIn(visited))
    {
      assert ns[..j + 1][..j] == ns[..j];
      if ns[j] !in visited {
        q := q + [ns[j]];
      }
      j := j + 1;
    }
    assert ns[..j] == ns;
  }

  lemma VisitShrinks(u: set<string>, visited: set<string>, c: string)
    requires c in u && c !in visited
    ensures |u - (visited + {c})| < |u - visited|
  {
    assert u - (visited + {c}) == (u - visited) - {c};
  }

  // ---- Breadth-first dependency chain --------------------------------------

  /** A queued search state of `get_dependency_chain`: a service and the
      route that reached it. */
  datatype Candidate = Candidate(node: string, route: seq<string>)

  /** The loop invariant of `get_dependency_chain`'s BFS over `m` from `from`:
      every queued route is a walk to its service; route lengths never
      decrease along the queue and span at most one level; every neighbour of
      a visited service is visited or queued with a route at most one longer
      than the shortest route to that service (`dist`); the target has not
      been visited. */
  ghost predicate ChainInv(m: map<string, seq<string>>, from: string, to: string,
                           queue: seq<Candidate>, visited: set<string>, dist: map<string, nat>)
  {
    && RoutesOk(m, from, queue)
    && Levelled(queue)
    && ChainClosed(m, queue, visited, dist)
    && Shortest(m, from, visited, dist)
    && ChainStart(from, queue, visited)
    && to !in visited
  }

  ghost predicate RoutesOk(m: map<string, seq<string>>, from: string, queue: seq<Candidate>)
  {
    forall k :: 0 <= k < |queue| ==> WalkFromTo(m, queue[k].route, from, queue[k].node)
  }

  ghost predicate RoutesSorted(queue: seq<Candidate>)
  {
    forall k, l :: 0 <= k < l < |queue| ==> |queue[k].route| <= |queue[l].route|
  }

  ghost predicate Levelled(queue: seq<Candidate>)
  {
    RoutesSorted(queue) && (queue != [] ==> |queue[|queue| - 1].route| <= |queue[0].route| + 1)
  }

  /** `u` is queued with a route of at most `n` services. */
  ghost predicate Queued(queue: seq<Candidate>, u: string, n: int)
    decreases |queue|
  {
    queue != [] && ((queue[0].node == u && |queue[0].route| <= n) || Queued(queue[1..], u, n))
  }

  ghost predicate ChainClosed(m: map<string, seq<string>>, queue: seq<Candidate>, visited: set<string>, dist: map<string, nat>)
  {
    && (forall v :: v in visited ==> v in dist)
    && (forall v, u :: v in visited && u in Neighbors(m, v) ==> u in visited || Queued(queue, u, dist[v] + 1))
  }

  ghost predicate Shortest(m: map<string, seq<string>>, from: string, visited: set<string>, dist: map<string, nat>)
  {
    && (forall v :: v in visited ==> v in dist)
    && (forall v, q :: v in visited && WalkFromTo(m, q, from, v) ==> dist[v] <= |q|)
  }

  ghost predicate ChainStart(from: string, queue: seq<Candidate>, visited: set<string>)
  {
    && (visited == {} ==> queue == [Candidate(from, [from])])
    && (visited != {} ==> from in visited)
  }

  ghost predicate ChainBounded(m: map<string, seq<string>>, from: string, queue: seq<Candidate>, visited: set<string>)
  {
    visited <= Universe(m, from) && forall k :: 0 <= k < |queue| ==> queue[k].node in Universe(m, from)
  }

  lemma {:induction false} QueuedAppendLeft(a: seq<Candidate>, b: seq<Candidate>, u: string, n: int)
    requires Queued(a, u, n)
    ensures Queued(a + b, u, n)
    decreases |a|
  {
    assert (a + b)[0] == a[0];
    if !(a[0].node == u && |a[0].route| <= n) {
      QueuedAppendLeft(a[1..], b, u, n);
      assert (a + b)[1..] == a[1..] + b;
    }
  }

  lemma {:induction false} QueuedAppendRight(a: seq<Candidate>, b: seq<Candidate>, u: string, n: int)
    requires Queued(b, u, n)
    ensures Queued(a + b, u, n)
    decreases |a|
  {
    if a == [] {
      assert a + b == b;
    } else {
      QueuedAppendRight(a[1..], b, u, n);
      assert (a + b)[1..] == a[1..] + b;
    }
  }

  /** In a queue sorted by route length, anything queued within `n` means
      the head is within `n`. */
  lemma {:induction false} QueuedHead(queue: seq<Candidate>, u: string, n: int)
    requires RoutesSorted(queue) && Queued(queue, u, n)
    ensures queue != [] && |queue[0].route| <= n
    decreases |queue|
  {
    if !(queue[0].node == u && |queue[0].route| <= n) {
      var rest := queue[1..];
      assert RoutesSorted(rest) by {
        forall k, l | 0 <= k < l < |rest| ensures |rest[k].route| <= |rest[l].route| {
          assert rest[k] == queue[k + 1] && rest[l] == queue[l + 1];
        }
      }
      QueuedHead(rest, u, n);
      assert rest[0] == queue[1];
    }
  }

  /** The candidates the inner loop of `get_dependency_chain` queues: each
      listed service not yet visited, with `route` extended by it. */
  function Extend(ns: seq<string>, visited: set<string>, route: seq<string>): (r: seq<Candidate>)
    ensures forall k :: 0 <= k < |r| ==> r[k].route == route + [r[k].node] && r[k].node in ns && r[k].node !in visited
  {
    if ns == [] then []
    else
      var p := Extend(ns[..|ns| - 1], visited, route);
      var u := ns[|ns| - 1];
      var r := p + (if u !in visited then [Candidate(u, route + [u])] else []);
      assert forall k :: 0 <= k < |p| ==> r[k] == p[k] && p[k].node in ns[..|ns| - 1];
      r
  }

  lemma {:induction false} ExtendComplete(ns: seq<string>, visited: set<string>, route: seq<string>, u: string)
    requires u in ns && u !in visited
    ensures Queued(Extend(ns, visited, route), u, |route| + 1)
  {
    var p := ns[..|ns| - 1];
    var last := ns[|ns| - 1];
    if u == last {
      var tail := [Candidate(u, route + [u])];
      assert Queued(tail, u, |route| + 1);
      QueuedAppendRight(Extend(p, visited, route), tail, u, |route| + 1);
    } else {
      assert u in p by {
        var i :| 0 <= i < |ns| && ns[i] == u;
        assert p[i] == u;
      }
      ExtendComplete(p, visited, route, u);
      QueuedAppendLeft(Extend(p, visited, route), if last !in visited then [Candidate(last, route + [last])] else [], u, |route| + 1);
    }
  }

  /** Every walk from `from` to a service not yet visited passes through the
      frontier, so the head of the queue is no longer than that walk. */
  lemma {:induction false} FrontBound(m: map<string, seq<string>>, from: string,
                                      queue: seq<Candidate>, visited: set<string>, dist: map<string, nat>,
                                      q: seq<string>, w: string)
    requires RoutesSorted(queue) && ChainClosed(m, queue, visited, dist)
    requires Shortest(m, from, visited, dist) && ChainStart(from, queue, visited)
    requires WalkFromTo(m, q, from, w) && w !in visited
    ensures queue != [] && |queue[0].route| <= |q|
    decreases |q|
  {
    if |q| == 1 {
      assert visited == {};
    } else {
      var p := q[..|q| - 1];
      var v := q[|q| - 2];
      assert WalkFromTo(m, p, from, v) by {
        WalkPrefix(m, q, from, |q| - 1);
      }
      if v !in visited {
        FrontBound(m, from, queue, visited, dist, p, v);
      } else {
        assert dist[v] <= |p|;
        assert Queued(queue, w, dist[v] + 1) by {
          assert w in Neighbors(m, v);
        }
        QueuedHead(queue, w, dist[v] + 1);
      }
    }
  }


  /** Dropping a queued service that was already visited keeps the invariant. */
  lemma ChainSkip(m: map<string, seq<string>>, from: string, to: string,
                  queue: seq<Candidate>, visited: set<string>, dist: map<string, nat>)
    requires ChainInv(m, from, to, queue, visited, dist)
    requires ChainBounded(m, from, queue, visited)
    requires queue != [] && queue[0].node in visited
    ensures ChainInv(m, from, to, queue[1..], visited, dist)
    ensures ChainBounded(m, from, queue[1..], visited)
  {
    var rest := queue[1..];
    assert forall k :: 0 <= k < |rest| ==> rest[k] == queue[k + 1];
    assert Levelled(rest) by {
      if rest != [] {
        assert |queue[0].route| <= |rest[0].route|;
      }
    }
  }

  lemma ChainVisitLevels(queue: seq<Candidate>, ns: seq<string>, visited': set<string>, queue': seq<Candidate>)
    requires Levelled(queue) && queue != []
    requires queue' == queue[1..] + Extend(ns, visited', queue[0].route)
    ensures Levelled(queue')
  {
    var n := |queue[0].route|;
    var rest := queue[1..];
    var added := Extend(ns, visited', queue[0].route);
    assert forall k :: 0 <= k < |rest| ==> rest[k] == queue[k + 1] && n <= |rest[k].route| <= n + 1;
    assert forall k :: 0 <= k < |added| ==> |added[k].route| == n + 1;
    forall k, l | 0 <= k < l < |queue'| ensures |queue'[k].route| <= |queue'[l].route| {
      if l < |rest| {
        assert queue'[k] == queue[k + 1] && queue'[l] == queue[l + 1];
      } else if k < |rest| {
        assert queue'[k] == rest[k] && queue'[l] == added[l - |rest|];
      } else {
        assert queue'[k] == added[k - |rest|] && queue'[l] == added[l - |rest|];
      }
    }
    if queue' != [] {
      var last := queue'[|queue'| - 1];
      assert |last.route| <= n + 1 by {
        if added == [] {
          assert last == rest[|rest| - 1];
        } else {
          assert last == added[|added| - 1];
        }
      }
      if rest != [] {
        assert queue'[0] == rest[0];
      } else {
        assert queue'[0] == added[0];
      }
    }
  }

  lemma ChainVisitRoutes(m: map<string, seq<string>>, from: string, queue: seq<Candidate>,
                         visited': set<string>, queue': seq<Candidate>)
    requires RoutesOk(m, from, queue) && queue != []
    requires queue' == queue[1..] + Extend(Neighbors(m, queue[0].node), visited', queue[0].route)
    ensures RoutesOk(m, from, queue')
  {
    var c := queue[0];
    var rest := queue[1..];
    var added := Extend(Neighbors(m, c.node), visited', c.route);
    forall k | 0 <= k < |queue'| ensures WalkFromTo(m, queue'[k].route, from, queue'[k].node) {
      if k < |rest| {
        assert queue'[k] == queue[k + 1];
      } else {
        assert queue'[k] == added[k - |rest|];
        WalkExtend(m, c.route, from, c.node, queue'[k].node);
      }
    }
  }

  lemma ChainVisitClosed(m: map<string, seq<string>>, queue: seq<Candidate>, visited: set<string>, dist: map<string, nat>,
                         queue': seq<Candidate>, visited': set<string>, dist': map<string, nat>)
    requires ChainClosed(m, queue, visited, dist) && queue != []
    requires visited' == visited + {queue[0].node} && dist' == dist[queue[0].node := |queue[0].route|]
    requires queue' == queue[1..] + Extend(Neighbors(m, queue[0].node), visited', queue[0].route)
    ensures ChainClosed(m, queue', visited', dist')
  {
    forall v, u | v in visited' && u in Neighbors(m, v) ensures u in visited' || Queued(queue', u, dist'[v] + 1) {
      if u !in visited' {
        ChainVisitClosedOne(m, queue, visited, dist, queue', visited', dist', v, u);
      }
    }
  }

  lemma ChainVisitClosedOne(m: map<string, seq<string>>, queue: seq<Candidate>, visited: set<string>, dist: map<string, nat>,
                            queue': seq<Candidate>, visited': set<string>, dist': map<string, nat>, v: string, u: string)
    requires ChainClosed(m, queue, visited, dist) && queue != []
    requires visited' == visited + {queue[0].node} && dist' == dist[queue[0].node := |queue[0].route|]
    requires queue' == queue[1..] + Extend(Neighbors(m, queue[0].node), visited', queue[0].route)
    requires v in visited' && u in Neighbors(m, v) && u !in visited'
    ensures v in dist' && Queued(queue', u, dist'[v] + 1)
  {
    var c := queue[0];
    var rest := queue[1..];
    var added := Extend(Neighbors(m, c.node), visited', c.route);
    if v == c.node {
      ExtendComplete(Neighbors(m, c.node), visited', c.route, u);
      QueuedAppendRight(rest, added, u, dist'[v] + 1);
    } else {
      assert Queued(rest, u, dist[v] + 1) by {
        assert Queued(queue, u, dist[v] + 1);
      }
      QueuedAppendLeft(rest, added, u, dist[v] + 1);
    }
  }


  lemma ChainVisitShortest(m: map<string, seq<string>>, from: string, to: string,
                           queue: seq<Candidate>, visited: set<string>, dist: map<string, nat>,
                           visited': set<string>, dist': map<string, nat>)
    requires ChainInv(m, from, to, queue, visited, dist) && queue != [] && queue[0].node !in visited
    requires visited' == visited + {queue[0].node} && dist' == dist[queue[0].node := |queue[0].route|]
    ensures Shortest(m, from, visited', dist')
  {
    forall v, q | v in visited' && WalkFromTo(m, q, from, v) ensures dist'[v] <= |q| {
      if v == queue[0].node {
        FrontBound(m, from, queue, visited, dist, q, v);
      }
    }
  }

  lemma ChainVisitBounded(m: map<string, seq<string>>, from: string, queue: seq<Candidate>, visited: set<string>,
                          queue': seq<Candidate>, visited': set<string>)
    requires ChainBounded(m, from, queue, visited) && queue != [] && queue[0].node !in visited
    requires visited' == visited + {queue[0].node}
    requires queue' == queue[1..] + Extend(Neighbors(m, queue[0].node), visited', queue[0].route)
    ensures ChainBounded(m, from, queue', visited')
    ensures |Universe(m, from) - visited'| < |Universe(m, from) - visited|
  {
    var c := queue[0];
    var rest := queue[1..];
    var added := Extend(Neighbors(m, c.node), visited', c.route);
    forall k | 0 <= k < |queue'| ensures queue'[k].node in Universe(m, from) {
      if k < |rest| {
        assert queue'[k] == queue[k + 1];
      } else {
        assert queue'[k] == added[k - |rest|];
        NeighborsMentioned(m, c.node, queue'[k].node);
      }
    }
    VisitShrinks(Universe(m, from), visited, c.node);
  }

  lemma ChainVisit(m: map<string, seq<string>>, from: string, to: string,
                   queue: seq<Candidate>, visited: set<string>, dist: map<string, nat>,
                   queue': seq<Candidate>, visited': set<string>, dist': map<string, nat>)
    requires ChainInv(m, from, to, queue, visited, dist)
    requires queue != [] && queue[0].node !in visited && queue[0].node != to
    requires visited' == visited + {queue[0].node} && dist' == dist[queue[0].node := |queue[0].route|]
    requires queue' == queue[1..] + Extend(Neighbors(m, queue[0].node), visited', queue[0].route)
    ensures ChainInv(m, from, to, queue', visited', dist')
  {
    ChainVisitRoutes(m, from, queue, visited', queue');
    ChainVisitLevels(queue, Neighbors(m, queue[0].node), visited', queue');
    ChainVisitClosed(m, queue, visited, dist, queue', visited', dist');
    ChainVisitShortest(m, from, to, queue, visited, dist, visited', dist');
  }

  /** The inner `for` loop of `get_dependency_chain`. */
  method AppendCandidates(queue: seq<Candidate>, ns: seq<string>, visited: set<string>, route: seq<string>)
    returns (q: seq<Candidate>)
    ensures q == queue + Extend(ns, visited, route)
  {
    q := queue;
    var j := 0;
    while j < |ns|
      invariant 0 <= j <= |ns|
      invariant q == queue + Extend(ns[..j], visited, route)
    {
      ExtendPrefix(ns, visited, route, j);
      if ns[j] !in visited {
        AppendAssoc(queue, Extend(ns[..j], visited, route), [Candidate(ns[j], route + [ns[j]])]);
        q := q + [Candidate(ns[j], route + [ns[j]])];
      }
      j := j + 1;
    }
    assert ns[..j] == ns;
  }

  /** One more neighbour extends the candidates by it when unvisited. */
  lemma ExtendPrefix(ns: seq<string>, visited: set<string>, route: seq<string>, j: nat)
    requires j < |ns|
    ensures Extend(ns[..j + 1], visited, route)
            == Extend(ns[..j], visited, route) + (if ns[j] !in visited then [Candidate(ns[j], route + [ns[j]])] else [])
  {
    assert ns[..j + 1][..j] == ns[..j];
  }

  lemma AppendAssoc<T>(a: seq<T>, b: seq<T>, c: seq<T>)
    ensures (a + b) + c == a + (b + c)
  {
  }

  /** One visit of `get_dependency_chain`'s loop. */
  method ChainVisitStep(m: map<string, seq<string>>, from: string, to: string,
                        queue: seq<Candidate>, visited: set<string>, ghost dist: map<string, nat>)
    returns (queue': seq<Candidate>, visited': set<string>, ghost dist': map<string, nat>)
    requires ChainInv(m, from, to, queue, visited, dist)
    requires ChainBounded(m, from, queue, visited)
    requires queue != [] && queue[0].node !in visited && queue[0].node != to
    ensures ChainInv(m, from, to, queue', visited', dist')
    ensures ChainBounded(m, from, queue', visited')
    ensures |Universe(m, from) - visited'| < |Universe(m, from) - visited|
  {
    var current := queue[0];
    visited' := visited + {current.node};
    dist' := dist[current.node := |current.route|];
    queue' := AppendCandidates(queue[1..], Neighbors(m, current.node), visited', current.route);
    ChainVisit(m, from, to, queue, visited, dist, queue', visited', dist');
    ChainVisitBounded(m, from, queue, visited, queue', visited');
  }

  /** Reaching the target: the head's route is a fewest-hop walk to it. */
  lemma ChainFound(m: map<string, seq<string>>, from: string, to: string,
                   queue: seq<Candidate>, visited: set<string>, dist: map<string, nat>)
    requires ChainInv(m, from, to, queue, visited, dist)
    requires queue != [] && queue[0].node == to
    ensures WalkFromTo(m, queue[0].route, from, to) && Reachable(m, from, to)
    ensures forall q :: WalkFromTo(m, q, from, to) ==> |queue[0].route| <= |q|
    ensures from == to ==> queue[0].route == [from]
  {
    forall q | WalkFromTo(m, q, from, to) ensures |queue[0].route| <= |q| {
      FrontBound(m, from, queue, visited, dist, q, to);
    }
  }

  /** An exhausted queue means the target cannot be reached. */
  lemma ChainExhausted(m: map<string, seq<string>>, from: string, to: string,
                       visited: set<string>, dist: map<string, nat>)
    requires ChainInv(m, from, to, [], visited, dist)
    ensures !Reachable(m, from, to)
    ensures from != to
  {
    if Reachable(m, from, to) {
      var q :| WalkFromTo(m, q, from, to);
      FrontBound(m, from, [], visited, dist, q, to);
    }
    ReachableSelf(m, from);
  }

  // ---- The graph object ---------------------------------------------------

  /** The parsed form returned by `to_dict`. */
  datatype GraphDict = GraphDict(services: seq<ServiceNode>, dependencies: seq<DependencyEdge>)

  /** `[nodes[id] for id in order]`. */
  function NodesInOrder(nodes: map<string, ServiceNode>, order: seq<string>): (r: seq<ServiceNode>)
    requires forall i :: 0 <= i < |order| ==> order[i] in nodes
    ensures |r| == |order|
    ensures forall i :: 0 <= i < |order| ==> r[i] == nodes[order[i]]
  {
    if order == [] then [] else NodesInOrder(nodes, order[..|order| - 1]) + [nodes[order[|order| - 1]]]
  }

  /** `to_dict()` on the graph value. */
  function DictOf(g: GraphData): GraphDict
    requires WellFormed(g)
  {
    GraphDict(NodesInOrder(g.nodes, g.nodeOrder), g.edges)
  }

  lemma DictOfEntries(g: GraphData)
    requires WellFormed(g)
    ensures var svcs := DictOf(g).services;
            forall i :: 0 <= i < |svcs| ==> svcs[i].id in g.nodes && g.nodes[svcs[i].id] == svcs[i]
  {
    var svcs := DictOf(g).services;
    forall i | 0 <= i < |svcs| ensures svcs[i].id in g.nodes && g.nodes[svcs[i].id] == svcs[i] {
      assert svcs[i] == g.nodes[g.nodeOrder[i]];
    }
  }

  lemma DictOfCovers(g: GraphData)
    requires WellFormed(g)
    ensures forall id :: id in g.nodes ==> g.nodes[id] in DictOf(g).services
  {
    var svcs := DictOf(g).services;
    forall id | id in g.nodes ensures g.nodes[id] in svcs {
      assert svcs[IndexOf(g.nodeOrder, id)] == g.nodes[id];
    }
  }

  lemma DictOfIds(g: GraphData)
    requires WellFormed(g)
    ensures Ids(DictOf(g).services) == g.nodeOrder
  {
    var svcs := DictOf(g).services;
    forall i | 0 <= i < |svcs| ensures Ids(svcs)[i] == g.nodeOrder[i] {
      assert svcs[i] == g.nodes[g.nodeOrder[i]];
    }
  }

  /** `to_dict()` lists every node once, in insertion order, each under its
      own id, and every edge. */
  lemma DictOfSpec(g: GraphData)
    requires WellFormed(g)
    ensures var d := DictOf(g);
            && |d.services| == |g.nodes|
            && (forall id :: id in g.nodes ==> g.nodes[id] in d.services)
            && (forall i :: 0 <= i < |d.services| ==> d.services[i].id in g.nodes && g.nodes[d.services[i].id] == d.services[i])
            && Ids(d.services) == g.nodeOrder
            && d.dependencies == g.edges
  {
    DictOfEntries(g);
    DictOfCovers(g);
    DictOfIds(g);
    NoDuplicatesCard(g.nodeOrder, g.nodes);
  }

  /** Loading services into an empty graph records their ids in first-seen
      order. */
  lemma {:induction false} LoadServicesOrder(services: seq<ServiceNode>)
    ensures LoadServices(EmptyGraph, services).nodeOrder == FirstOccurrences(Ids(services))
    ensures forall k :: k in LoadServices(EmptyGraph, services).nodes <==> k in Ids(services)
  {
    if services != [] {
      var p := services[..|services| - 1];
      LoadServicesOrder(p);
      LoadServicesNodes(EmptyGraph, p);
      FirstOccurrencesSpec(Ids(p));
      LoadServicesNodes(EmptyGraph, services);
      assert Ids(services) == Ids(p) + [services[|services| - 1].id];
      FirstOccurrencesSnoc(Ids(p), services[|services| - 1].id);
    }
  }

  lemma {:induction false} FirstOccurrencesDistinct<T>(s: seq<T>)
    requires NoDuplicates(s)
    ensures FirstOccurrences(s) == s
  {
    if s != [] {
      var p := s[..|s| - 1];
      FirstOccurrencesDistinct(p);
      assert s[|s| - 1] !in p;
    }
  }

  /** Reloading the node list of a well-formed graph reproduces its node
      order ... */
  lemma ReloadOrder(g1: GraphData)
    requires WellFormed(g1)
    ensures LoadServices(EmptyGraph, NodesInOrder(g1.nodes, g1.nodeOrder)).nodeOrder == g1.nodeOrder
  {
    var d := NodesInOrder(g1.nodes, g1.nodeOrder);
    DictOfIds(g1);
    LoadServicesOrder(d);
    FirstOccurrencesDistinct(Ids(d));
  }

  lemma NodesInOrderLast(g1: GraphData, k: string)
    requires WellFormed(g1) && k in Ids(NodesInOrder(g1.nodes, g1.nodeOrder))
    ensures var d := NodesInOrder(g1.nodes, g1.nodeOrder);
            d[LastIndex(d, k)] == g1.nodes[k]
  {
    var d := NodesInOrder(g1.nodes, g1.nodeOrder);
    var i := LastIndex(d, k);
    assert d[i] == g1.nodes[g1.nodeOrder[i]];
  }

  /** ... and its nodes. */
  lemma ReloadNodes(g1: GraphData)
    requires WellFormed(g1)
    ensures LoadServices(EmptyGraph, NodesInOrder(g1.nodes, g1.nodeOrder)).nodes == g1.nodes
  {
    var d := NodesInOrder(g1.nodes, g1.nodeOrder);
    var nodes := LoadServices(EmptyGraph, d).nodes;
    assert forall k :: k in nodes <==> k in g1.nodes by {
      DictOfIds(g1);
      LoadServicesNodes(EmptyGraph, d);
    }
    forall k | k in nodes ensures nodes[k] == g1.nodes[k] {
      assert k in Ids(d) by {
        DictOfIds(g1);
      }
      assert nodes[k] == d[LastIndex(d, k)] by {
        LoadServicesNodes(EmptyGraph, d);
      }
      NodesInOrderLast(g1, k);
    }
  }


  /** A graph built from services alone: no edges, and an empty adjacency
      and reverse list for exactly the nodes. */
  ghost predicate OnlyNodes(g: GraphData)
  {
    && g.edges == []
    && (forall k :: k in g.adjacency <==> k in g.nodes)
    && (forall k :: k in g.reverse <==> k in g.nodes)
    && (forall k :: k in g.adjacency ==> g.adjacency[k] == [])
    && (forall k :: k in g.reverse ==> g.reverse[k] == [])
  }

  lemma {:induction false} LoadServicesOnlyNodes(services: seq<ServiceNode>)
    ensures OnlyNodes(LoadServices(EmptyGraph, services))
  {
    if services != [] {
      LoadServicesOnlyNodes(services[..|services| - 1]);
    }
  }

  lemma OnlyNodesEqual(a: GraphData, b: GraphData)
    requires OnlyNodes(a) && OnlyNodes(b)
    requires a.nodes == b.nodes && a.nodeOrder == b.nodeOrder
    ensures a == b
  {
    assert a.adjacency == b.adjacency;
    assert a.reverse == b.reverse;
  }

  /** Serialising a loaded graph with `to_dict` and loading the result into
      a fresh graph rebuilds the same graph. */
  lemma ToDictRoundTrip(services: seq<ServiceNode>, deps: seq<DependencyEdge>)
    ensures WellFormed(Load(EmptyGraph, services, deps))
    ensures var g := Load(EmptyGraph, services, deps);
            var d := DictOf(g);
            Load(EmptyGraph, d.services, d.dependencies) == g
  {
    var g1 := LoadServices(EmptyGraph, services);
    var g := Load(EmptyGraph, services, deps);
    assert WellFormed(g1) by {
      LoadServicesWellFormed(EmptyGraph, services);
    }
    assert WellFormed(g) by {
      LoadDependenciesWellFormed(g1, deps);
    }
    assert g.nodes == g1.nodes && g.nodeOrder == g1.nodeOrder && g.edges == g1.edges + deps by {
      LoadDependenciesKeeps(g1, deps);
    }
    var order := NodesInOrder(g1.nodes, g1.nodeOrder);
    assert LoadServices(EmptyGraph, order) == g1 by {
      ReloadOrder(g1);
      ReloadNodes(g1);
      LoadServicesOnlyNodes(services);
      LoadServicesOnlyNodes(order);
      OnlyNodesEqual(LoadServices(EmptyGraph, order), g1);
    }
    assert g1.edges == [] by {
      LoadServicesOnlyNodes(services);
    }
    assert DictOf(g) == GraphDict(order, deps);
  }


  // ---- Service context ----------------------------------------------------

  const ContextHeader := "Service Dependency Context:"

  /** One service's line: its name and id, then what it depends on and what
      depends on it, each comma-separated in brackets. */
  function ServiceLine(node: ServiceNode, upstream: seq<string>, downstream: seq<string>): string
  {
    "- " + node.name + " (" + node.id + "): depends on [" + Join(", ", upstream)
    + "], depended on by [" + Join(", ", downstream) + "]"
  }

  function LineFor(g: GraphData, id: string): string
    requires id in g.nodes
  {
    ServiceLine(g.nodes[id], Neighbors(g.adjacency, id), Neighbors(g.reverse, id))
  }

  /** The lines `get_service_context` joins. */
  function ContextLines(g: GraphData, ids: seq<string>): (lines: seq<string>)
    ensures lines != [] && lines[0] == ContextHeader
  {
    if ids == [] then [ContextHeader]
    else
      var p := ContextLines(g, ids[..|ids| - 1]);
      var id := ids[|ids| - 1];
      if id in g.nodes then p + [LineFor(g, id)] else p
  }

  /** The listed ids that name a node, in the order listed. */
  function KnownIds(g: GraphData, ids: seq<string>): (r: seq<string>)
    ensures |r| <= |ids|
    ensures forall x :: x in r <==> x in ids && x in g.nodes
  {
    if ids == [] then []
    else
      var p := ids[..|ids| - 1];
      var id := ids[|ids| - 1];
      assert forall x :: x in ids <==> x in p || x == id;
      KnownIds(g, p) + (if id in g.nodes then [id] else [])
  }

  /** The context is the header followed by the line of each listed id that
      names a node, in the order listed; unknown ids contribute nothing. */
  lemma {:induction false} ContextLinesSpec(g: GraphData, ids: seq<string>)
    ensures |ContextLines(g, ids)| == 1 + |KnownIds(g, ids)|
    ensures forall i :: 0 <= i < |KnownIds(g, ids)| ==>
              KnownIds(g, ids)[i] in g.nodes && ContextLines(g, ids)[i + 1] == LineFor(g, KnownIds(g, ids)[i])
  {
    if ids != [] {
      var p := ids[..|ids| - 1];
      var id := ids[|ids| - 1];
      ContextLinesSpec(g, p);
      var known := KnownIds(g, p);
      var lines := ContextLines(g, p);
      if id in g.nodes {
        assert KnownIds(g, ids) == known + [id];
        assert ContextLines(g, ids) == lines + [LineFor(g, id)];
        forall i | 0 <= i < |known| + 1
          ensures (known + [id])[i] in g.nodes && (lines + [LineFor(g, id)])[i + 1] == LineFor(g, (known + [id])[i])
        {
          if i < |known| {
            assert (known + [id])[i] == known[i] && known[i] in known;
          }
        }
      }
    }
  }

  class DependencyGraph {
    var nodes: map<string, ServiceNode>
    var nodeOrder: seq<string>
    var edges: seq<DependencyEdge>
    var adjacency: map<string, seq<string>>
    var reverse: map<string, seq<string>>

    function Data(): GraphData
      reads this
    {
      GraphData(nodes, nodeOrder, edges, adjacency, reverse)
    }

    ghost predicate Valid()
      reads this
    {
      WellFormed(Data())
    }

    constructor ()
      ensures Valid()
      ensures Data() == EmptyGraph
    {
      nodes, nodeOrder, edges, adjacency, reverse := map[], [], [], map[], map[];
    }

    /** `load_from_file` on already-parsed `services` and `dependencies`. */
    method LoadFromData(services: seq<ServiceNode>, dependencies: seq<DependencyEdge>)
      requires Valid()
      modifies this
      ensures Valid()
      ensures Data() == Load(old(Data()), services, dependencies)
    {
      AddServices(services);
      ghost var afterServices := Data();
      AddDependencies(dependencies);
      LoadServicesWellFormed(old(Data()), services);
      LoadDependenciesWellFormed(afterServices, dependencies);
    }

    /** The loop over `data["services"]`. */
    method AddServices(services: seq<ServiceNode>)
      modifies this
      ensures Data() == LoadServices(old(Data()), services)
    {
      var i := 0;
      while i < |services|
        invariant 0 <= i <= |services|
        invariant Data() == LoadServices(old(Data()), services[..i])
      {
        var svc := services[i];
        LoadServicesPrefix(old(Data()), services, i);
        if svc.id !in nodes {
          nodeOrder := nodeOrder + [svc.id];
        }
        nodes := nodes[svc.id := svc];
        if svc.id !in adjacency {
          adjacency := adjacency[svc.id := []];
        }
        if svc.id !in reverse {
          reverse := reverse[svc.id := []];
        }
        i := i + 1;
      }
      assert services[..i] == services;
    }

    /** The loop over `data["dependencies"]`. */
    method AddDependencies(dependencies: seq<DependencyEdge>)
      modifies this
      ensures Data() == LoadDependencies(old(Data()), dependencies)
    {
      var j := 0;
      while j < |dependencies|
        invariant 0 <= j <= |dependencies|
        invariant Data() == LoadDependencies(old(Data()), dependencies[..j])
      {
        var dep := dependencies[j];
        LoadDependenciesPrefix(old(Data()), dependencies, j);
        edges := edges + [dep];
        adjacency := adjacency[dep.fromService := GetUpstream(dep.fromService) + [dep.toService]];
        reverse := reverse[dep.toService := GetDownstream(dep.toService) + [dep.fromService]];
        j := j + 1;
      }
      assert dependencies[..j] == dependencies;
    }

    /** `get_upstream(id)`: the services `id` depends on; `[]` for an
        unknown id. */
    function GetUpstream(id: string): (r: seq<string>)
      reads this
      ensures id !in adjacency ==> r == []
      ensures id in adjacency ==> r == adjacency[id]
    {
      Neighbors(adjacency, id)
    }

    /** `get_downstream(id)`: the services that depend on `id`; `[]` for an
        unknown id. */
    function GetDownstream(id: string): (r: seq<string>)
      reads this
      ensures id !in reverse ==> r == []
      ensures id in reverse ==> r == reverse[id]
    {
      Neighbors(reverse, id)
    }

    /** `get_impact_path(root)`: breadth-first over `reverse`, the services a
        failure of `root` reaches, `root` first, each once, every later one
        a direct dependent of an earlier one, in the order in which the
        queue first receives them. `BreadthFirstUnique` shows that these
        facts leave exactly one possible path. */
    method GetImpactPath(root: string) returns (path: seq<string>)
      ensures path != [] && path[0] == root
      ensures NoDuplicates(path)
      ensures forall x :: x in path <==> Reachable(reverse, root, x)
      ensures DiscoveredEarlier(reverse, path)
      ensures BreadthFirst(reverse, path)
    {
      var visited: set<string> := {};
      var queue := [root];
      path := [];
      ghost var parent: seq<nat> := [];
      ghost var queueParent: seq<nat> := [0];
      ghost var pos: seq<nat> := [];
      ghost var queuePos: seq<nat> := [0];
      OrderStart(reverse, root);
      while queue != []
        invariant ImpactInv(reverse, root, queue, visited, path, parent, queueParent)
        invariant ImpactOrder(reverse, queue, visited, path, parent, pos, queueParent, queuePos)
        invariant Bounded(reverse, root, queue, visited)
        decreases |Universe(reverse, root) - visited|, |queue|
      {
        if queue[0] in visited {
          ImpactSkip(reverse, root, queue, visited, path, parent, queueParent);
          OrderSkip(reverse, queue, visited, path, parent, pos, queueParent, queuePos);
          queue := queue[1..];
          queueParent := queueParent[1..];
          queuePos := queuePos[1..];
        } else {
          queue, visited, path, parent, queueParent, pos, queuePos :=
            ImpactVisitStep(reverse, root, queue, visited, path, parent, queueParent, pos, queuePos);
        }
      }
      ImpactDone(reverse, root, visited, path, parent, pos);
    }

    /** `get_dependency_chain(from, to)`: breadth-first over `adjacency`, a
        fewest-hop chain of dependencies from `from` to `to`, or `[]` exactly
        when `to` cannot be reached. */
    method GetDependencyChain(from: string, to: string) returns (chain: seq<string>)
      ensures chain != [] ==> WalkFromTo(adjacency, chain, from, to)
      ensures chain == [] <==> !Reachable(adjacency, from, to)
      ensures chain != [] ==> forall q :: WalkFromTo(adjacency, q, from, to) ==> |chain| <= |q|
      ensures from == to ==> chain == [from]
    {
      var visited: set<string> := {};
      var queue := [Candidate(from, [from])];
      ghost var dist: map<string, nat> := map[];
      while queue != []
        invariant ChainInv(adjacency, from, to, queue, visited, dist)
        invariant ChainBounded(adjacency, from, queue, visited)
        decreases |Universe(adjacency, from) - visited|, |queue|
      {
        var current := queue[0];
        if current.node == to {
          ChainFound(adjacency, from, to, queue, visited, dist);
          return current.route;
        }
        if current.node in visited {
          ChainSkip(adjacency, from, to, queue, visited, dist);
          queue := queue[1..];
        } else {
          queue, visited, dist := ChainVisitStep(adjacency, from, to, queue, visited, dist);
        }
      }
      ChainExhausted(adjacency, from, to, visited, dist);
      return [];
    }

    /** `to_dict()`. */
    function ToDict(): (d: GraphDict)
      reads this
      requires Valid()
    {
      DictOf(Data())
    }

    /** `get_service_context(ids)`: a header line, then one line for each
        listed id that names a node (unknown ids are skipped), joined by
        newlines. */
    method GetServiceContext(serviceIds: seq<string>) returns (text: string)
      ensures text == Join("\n", ContextLines(Data(), serviceIds))
    {
      var lines := [ContextHeader];
      var i := 0;
      while i < |serviceIds|
        invariant 0 <= i <= |serviceIds|
        invariant lines == ContextLines(Data(), serviceIds[..i])
      {
        var sid := serviceIds[i];
        assert serviceIds[..i + 1][..i] == serviceIds[..i];
        if sid in nodes {
          var node := nodes[sid];
          var upstream := GetUpstream(sid);
          var downstream := GetDownstream(sid);
          lines := lines + [ServiceLine(node, upstream, downstream)];
        }
        i := i + 1;
      }
      assert serviceIds[..i] == serviceIds;
      text := Join("\n", lines);
    }
  }
}

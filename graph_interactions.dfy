/** The graph helpers of frontend/src/utils/graphUtils.js
    (`GraphInteractions`): the neighbourhood of a node, the search filter and
    the graph's counts. */
module GraphInteractions {
  import opened Common
  import opened NlpUtils
  import opened GraphDataGenerator

  // ---------------------------------------------------------------------
  // Endpoints: `endpoint.id || endpoint`

  /** What `endpoint.id || endpoint` evaluates to: a primitive id, or the
      node object itself when the force-graph library has substituted the
      node for the id and that node's id is falsy (`0` or `""`). A node
      object is identified by its id. */
  datatype Ref = Prim(id: Id) | Obj(id: Id)

  /** JavaScript truthiness of an id. */
  predicate Truthy(id: Id)
  {
    match id
    case Num(n) => n != 0
    case Str(s) => s != ""
  }

  function Resolve(e: Endpoint): (r: Ref)
    ensures r.id == e.id
    ensures r.Obj? <==> e.NodeRef? && !Truthy(e.id)
  {
    match e
    case Raw(x) => Prim(x)
    case NodeRef(x) => if Truthy(x) then Prim(x) else Obj(x)
  }

  /** `endpoint.id === nodeId || endpoint === nodeId` for a primitive
      `nodeId`: a raw id has no `id` property and a node object is never
      identical to a primitive, so the test is on the endpoint's id. */
  predicate Touches(e: Endpoint, nodeId: Id)
  {
    match e
    case Raw(x) => x == nodeId
    case NodeRef(x) => x == nodeId
  }

  // ---------------------------------------------------------------------
  // getConnectedNodes

  /** `connected.add(x)` on a set whose insertion order is `connected`. */
  function Add(connected: seq<Ref>, x: Ref): (r: seq<Ref>)
    ensures forall y :: y in r <==> y in connected || y == x
    ensures Distinct(connected) ==> Distinct(r)
  {
    if x in connected then connected else connected + [x]
  }

  /** One step of the `forEach`: the set after visiting link `l`. */
  function Visit(connected: seq<Ref>, nodeId: Id, l: Link): (r: seq<Ref>)
    ensures forall x :: x in r <==> x in connected || Neighbour(l, nodeId, x)
    ensures Distinct(connected) ==> Distinct(r)
  {
    var c := if Touches(l.source, nodeId) then Add(connected, Resolve(l.target)) else connected;
    if Touches(l.target, nodeId) then Add(c, Resolve(l.source)) else c
  }

  /** The array `getConnectedNodes(nodeId, links, includeSelf)` returns:
      the set's elements in insertion order. */
  function ConnectedNodes(nodeId: Id, links: seq<Link>, includeSelf: bool): seq<Ref>
  {
    if links == [] then (if includeSelf then [Prim(nodeId)] else [])
    else Visit(ConnectedNodes(nodeId, links[..|links| - 1], includeSelf), nodeId, links[|links| - 1])
  }

  /** A ref the link `l` contributes to the neighbourhood of `nodeId`. */
  predicate Neighbour(l: Link, nodeId: Id, x: Ref)
  {
    || (Touches(l.source, nodeId) && x == Resolve(l.target))
    || (Touches(l.target, nodeId) && x == Resolve(l.source))
  }

  /** `getConnectedNodes` returns each value once: `nodeId` itself when
      `includeSelf` holds, and the other end of every link having `nodeId`
      as source or target, whichever way the link points. */
  lemma {:induction false} ConnectedNodesSpec(nodeId: Id, links: seq<Link>, includeSelf: bool)
    ensures var r := ConnectedNodes(nodeId, links, includeSelf);
      && Distinct(r)
      && (forall x :: x in r <==>
            (includeSelf && x == Prim(nodeId)) || exists l :: l in links && Neighbour(l, nodeId, x))
  {
    if links != [] {
      var init, l := links[..|links| - 1], links[|links| - 1];
      assert links == init + [l];
      ConnectedNodesSpec(nodeId, init, includeSelf);
      forall x ensures (exists m :: m in links && Neighbour(m, nodeId, x)) <==>
        (exists m :: m in init && Neighbour(m, nodeId, x)) || Neighbour(l, nodeId, x)
      {
        if exists m :: m in links && Neighbour(m, nodeId, x) {
          var m :| m in links && Neighbour(m, nodeId, x);
          assert m in init || m == l;
        }
      }
    }
  }

  /** A link from a node to itself puts the node in its own neighbourhood,
      even when `includeSelf` is false. */
  lemma SelfLinkIncludesSelf(nodeId: Id, links: seq<Link>, l: Link)
    requires l in links && l.source == Raw(nodeId) && l.target == Raw(nodeId)
    ensures Prim(nodeId) in ConnectedNodes(nodeId, links, false)
  {
    ConnectedNodesSpec(nodeId, links, false);
    assert Neighbour(l, nodeId, Prim(nodeId));
  }

  /** The link with its two ends exchanged. */
  function Reversed(l: Link): (r: Link)
    ensures r.source == l.target && r.target == l.source
  {
    match l
    case SimilarityLink(s, t, v, st, w) => SimilarityLink(t, s, v, st, w)
    case TopicLink(s, t, v, w) => TopicLink(t, s, v, w)
  }

  /** Links are undirected for neighbourhoods: reversing every link gives
      the same neighbours. */
  lemma ConnectedNodesUndirected(nodeId: Id, links: seq<Link>, includeSelf: bool)
    ensures var reversed := seq(|links|, i requires 0 <= i < |links| => Reversed(links[i]));
      forall x :: x in ConnectedNodes(nodeId, links, includeSelf) <==> x in ConnectedNodes(nodeId, reversed, includeSelf)
  {
    var reversed := seq(|links|, i requires 0 <= i < |links| => Reversed(links[i]));
    ConnectedNodesSpec(nodeId, links, includeSelf);
    ConnectedNodesSpec(nodeId, reversed, includeSelf);
    forall x, l | l in links && Neighbour(l, nodeId, x) ensures exists m :: m in reversed && Neighbour(m, nodeId, x) {
      var i :| 0 <= i < |links| && links[i] == l;
      assert reversed[i] in reversed && Neighbour(reversed[i], nodeId, x);
    }
    forall x, m | m in reversed && Neighbour(m, nodeId, x) ensures exists l :: l in links && Neighbour(l, nodeId, x) {
      var i :| 0 <= i < |reversed| && reversed[i] == m;
      assert links[i] in links && Neighbour(links[i], nodeId, x);
    }
  }

  /** `getConnectedNodes(nodeId, links, includeSelf)`: one pass over the
      links adding to a set, whose insertion order the array keeps. */
  method GetConnectedNodes(nodeId: Id, links: seq<Link>, includeSelf: bool) returns (connected: seq<Ref>)
    ensures connected == ConnectedNodes(nodeId, links, includeSelf)
  {
    connected := [];
    if includeSelf {
      connected := Add(connected, Prim(nodeId));
    }
    for k := 0 to |links|
      invariant connected == ConnectedNodes(nodeId, links[..k], includeSelf)
    {
      var link := links[k];
      assert links[..k + 1][..k] == links[..k];
      if Touches(link.source, nodeId) {
        connected := Add(connected, Resolve(link.target));
      }
      if Touches(link.target, nodeId) {
        connected := Add(connected, Resolve(link.source));
      }
    }
    assert links[..|links|] == links;
  }

  // ---------------------------------------------------------------------
  // filterGraphData

  predicate OccursAt(s: string, t: string, i: int)
  {
    0 <= i && i + |t| <= |s| && s[i..i + |t|] == t
  }

  /** `s.includes(t)` */
  predicate Includes(s: string, t: string)
  {
    exists i :: 0 <= i <= |s| - |t| && OccursAt(s, t, i)
  }

  /** `node.title.toLowerCase().includes(searchLower)` */
  predicate MatchesSearch(n: Node, term: string)
  {
    Includes(Lower(n.title), Lower(term))
  }

  /** `matchingNodeIds.has(x)`: the set holds the ids of the matching nodes,
      which are primitives, so a node object is never in it. */
  predicate IsMatching(nodes: seq<Node>, term: string, x: Ref)
  {
    x.Prim? && exists n :: n in nodes && MatchesSearch(n, term) && n.id == x.id
  }

  /** `connectedNodes`: the matching ids and, for every link with a matching
      end, the other end. */
  predicate InConnected(g: Graph, term: string, x: Ref)
  {
    || IsMatching(g.nodes, term, x)
    || exists l :: l in g.links &&
         ((IsMatching(g.nodes, term, Resolve(l.source)) && x == Resolve(l.target))
          || (IsMatching(g.nodes, term, Resolve(l.target)) && x == Resolve(l.source)))
  }

  function ConnectedRefs(g: Graph, term: string): (r: set<Ref>)
    ensures forall x :: x in r <==> InConnected(g, term, x)
  {
    var matching := set n | n in g.nodes && MatchesSearch(n, term) :: Prim(n.id);
    var fromSource := set l | l in g.links && Resolve(l.source) in matching :: Resolve(l.target);
    var fromTarget := set l | l in g.links && Resolve(l.target) in matching :: Resolve(l.source);
    assert forall x :: x in matching <==> IsMatching(g.nodes, term, x);
    matching + fromSource + fromTarget
  }

  /** `nodes.filter(node => connectedNodes.has(node.id))` */
  function KeepNodes(nodes: seq<Node>, connected: set<Ref>): (r: seq<Node>)
    ensures forall n :: multiset(r)[n] == if Prim(n.id) in connected then multiset(nodes)[n] else 0
  {
    if nodes == [] then []
    else
      assert nodes == [nodes[0]] + nodes[1..];
      (if Prim(nodes[0].id) in connected then [nodes[0]] else []) + KeepNodes(nodes[1..], connected)
  }

  function KeptCount(links: seq<Link>, connected: set<Ref>, l: Link): nat
  {
    if Resolve(l.source) in connected && Resolve(l.target) in connected then multiset(links)[l] else 0
  }

  /** `links.filter(link => connectedNodes.has(sourceId) && connectedNodes.has(targetId))` */
  function KeepLinks(links: seq<Link>, connected: set<Ref>): (r: seq<Link>)
    ensures forall l :: multiset(r)[l] == KeptCount(links, connected, l)
  {
    if links == [] then []
    else
      var l := links[0];
      assert links == [l] + links[1..];
      (if Resolve(l.source) in connected && Resolve(l.target) in connected then [l] else [])
        + KeepLinks(links[1..], connected)
  }

  /** `filterGraphData(graphData, searchTerm)`; an absent term is modelled
      by the empty string, which the source handles by the same `!searchTerm`
      guard. */
  function FilterGraphData(g: Graph, term: string): (r: Graph)
    ensures term == "" ==> r == g
  {
    if term == "" then g
    else
      var connected := ConnectedRefs(g, term);
      Graph(KeepNodes(g.nodes, connected), KeepLinks(g.links, connected))
  }

  /** Filtering keeps the original order: it distributes over concatenation. */
  lemma {:induction false} KeepNodesAppend(a: seq<Node>, b: seq<Node>, connected: set<Ref>)
    ensures KeepNodes(a + b, connected) == KeepNodes(a, connected) + KeepNodes(b, connected)
  {
    if a == [] {
      assert a + b == b;
    } else {
      assert (a + b)[1..] == a[1..] + b;
      KeepNodesAppend(a[1..], b, connected);
    }
  }

  lemma {:induction false} KeepLinksAppend(a: seq<Link>, b: seq<Link>, connected: set<Ref>)
    ensures KeepLinks(a + b, connected) == KeepLinks(a, connected) + KeepLinks(b, connected)
  {
    if a == [] {
      assert a + b == b;
    } else {
      assert (a + b)[1..] == a[1..] + b;
      KeepLinksAppend(a[1..], b, connected);
    }
  }

  lemma FilteredNodes(g: Graph, term: string, n: Node)
    requires term != ""
    ensures var r := FilterGraphData(g, term);
      && (n in r.nodes <==> n in g.nodes && InConnected(g, term, Prim(n.id)))
      && (n in r.nodes ==> multiset(r.nodes)[n] == multiset(g.nodes)[n])
  {
    var r := FilterGraphData(g, term);
    var connected := ConnectedRefs(g, term);
    assert r.nodes == KeepNodes(g.nodes, connected);
    assert n in r.nodes <==> multiset(r.nodes)[n] > 0;
    assert n in g.nodes <==> multiset(g.nodes)[n] > 0;
  }

  lemma FilteredLinks(g: Graph, term: string, l: Link)
    requires term != ""
    ensures var r := FilterGraphData(g, term);
      && (l in r.links <==> l in g.links && InConnected(g, term, Resolve(l.source)) && InConnected(g, term, Resolve(l.target)))
      && (l in r.links ==> multiset(r.links)[l] == multiset(g.links)[l])
  {
    var r := FilterGraphData(g, term);
    var connected := ConnectedRefs(g, term);
    assert r.links == KeepLinks(g.links, connected);
    assert l in r.links <==> multiset(r.links)[l] > 0;
    assert l in g.links <==> multiset(g.links)[l] > 0;
  }

  /** For a non-empty term, a node is kept iff its title contains the term
      (ignoring case) or a link joins it to a node whose title does; every
      node and link is kept as often as it occurs or not at all; a link is
      kept iff both its ends are among the kept ids. */
  lemma FilterGraphDataSpec(g: Graph, term: string)
    requires term != ""
    ensures var r := FilterGraphData(g, term);
      && (forall n :: n in r.nodes <==> n in g.nodes && InConnected(g, term, Prim(n.id)))
      && (forall n :: n in g.nodes && MatchesSearch(n, term) ==> n in r.nodes)
      && (forall n :: n in r.nodes ==> multiset(r.nodes)[n] == multiset(g.nodes)[n])
      && (forall l :: l in r.links <==>
            l in g.links && InConnected(g, term, Resolve(l.source)) && InConnected(g, term, Resolve(l.target)))
      && (forall l :: l in r.links ==> multiset(r.links)[l] == multiset(g.links)[l])
  {
    var r := FilterGraphData(g, term);
    forall n ensures (n in r.nodes <==> n in g.nodes && InConnected(g, term, Prim(n.id)))
      && (n in r.nodes ==> multiset(r.nodes)[n] == multiset(g.nodes)[n])
    {
      FilteredNodes(g, term, n);
    }
    forall n | n in g.nodes && MatchesSearch(n, term) ensures n in r.nodes {
      assert IsMatching(g.nodes, term, Prim(n.id));
    }
    forall l ensures (l in r.links <==>
        l in g.links && InConnected(g, term, Resolve(l.source)) && InConnected(g, term, Resolve(l.target)))
      && (l in r.links ==> multiset(r.links)[l] == multiset(g.links)[l])
    {
      FilteredLinks(g, term, l);
    }
  }

  /** Applying the same filter twice changes nothing more: every matching
      node stays, so the matching ids, their neighbours and hence the kept
      nodes and links are the same the second time. */
  lemma FilterGraphDataIdempotent(g: Graph, term: string)
    ensures FilterGraphData(FilterGraphData(g, term), term) == FilterGraphData(g, term)
  {
    if term != "" {
      var r := FilterGraphData(g, term);
      FilterGraphDataSpec(g, term);
      assert forall x :: IsMatching(r.nodes, term, x) <==> IsMatching(g.nodes, term, x) by {
        forall x | IsMatching(g.nodes, term, x) ensures IsMatching(r.nodes, term, x) {
          var n :| n in g.nodes && MatchesSearch(n, term) && n.id == x.id;
          assert n in r.nodes;
        }
      }
      assert ConnectedRefs(r, term) == ConnectedRefs(g, term) by {
        forall x ensures InConnected(r, term, x) <==> InConnected(g, term, x) {
          if InConnected(g, term, x) && !IsMatching(g.nodes, term, x) {
            var l :| l in g.links &&
              ((IsMatching(g.nodes, term, Resolve(l.source)) && x == Resolve(l.target))
               || (IsMatching(g.nodes, term, Resolve(l.target)) && x == Resolve(l.source)));
            assert InConnected(g, term, Resolve(l.source)) && InConnected(g, term, Resolve(l.target));
            assert l in r.links;
          }
        }
      }
      KeepNodesTwice(g.nodes, ConnectedRefs(g, term));
      KeepLinksTwice(g.links, ConnectedRefs(g, term));
    }
  }

  lemma {:induction false} KeepNodesTwice(nodes: seq<Node>, connected: set<Ref>)
    ensures KeepNodes(KeepNodes(nodes, connected), connected) == KeepNodes(nodes, connected)
  {
    if nodes != [] {
      KeepNodesTwice(nodes[1..], connected);
      var head := if Prim(nodes[0].id) in connected then [nodes[0]] else [];
      KeepNodesAppend(head, KeepNodes(nodes[1..], connected), connected);
      if head != [] {
        assert head[1..] == [];
      }
    }
  }

  lemma {:induction false} KeepLinksTwice(links: seq<Link>, connected: set<Ref>)
    ensures KeepLinks(KeepLinks(links, connected), connected) == KeepLinks(links, connected)
  {
    if links != [] {
      KeepLinksTwice(links[1..], connected);
      var l := links[0];
      var head := if Resolve(l.source) in connected && Resolve(l.target) in connected then [l] else [];
      KeepLinksAppend(head, KeepLinks(links[1..], connected), connected);
      if head != [] {
        assert head[1..] == [];
      }
    }
  }

  /** A graph whose links only join its own nodes by raw ids, as the builder
      makes, keeps that property when filtered. */
  lemma FilterKeepsEndpointsClosed(g: Graph, term: string)
    requires EndpointsClosed(g)
    ensures EndpointsClosed(FilterGraphData(g, term))
  {
    if term != "" {
      var r := FilterGraphData(g, term);
      FilterGraphDataSpec(g, term);
      forall l | l in r.links
        ensures (exists n :: n in r.nodes && n.id == l.source.id) && (exists n :: n in r.nodes && n.id == l.target.id)
      {
        var n :| n in g.nodes && n.id == l.source.id;
        var m :| m in g.nodes && m.id == l.target.id;
        assert Resolve(l.source) == Prim(n.id) && Resolve(l.target) == Prim(m.id);
        assert n in r.nodes && m in r.nodes;
      }
    }
  }

  // ---------------------------------------------------------------------
  // calculateGraphStats

  /** The counts of `calculateGraphStats`, with its two ratios as exact
      rationals. */
  datatype GraphStats = GraphStats(
    totalNodes: nat, totalLinks: nat, completedNodes: nat, topicNodes: nat,
    averageConnections: real, connectivity: real)

  /** `nodes.filter(node => node.completed).length`: the number of
      positions holding a completed node. */
  function CountCompleted(nodes: seq<Node>): (c: nat)
    ensures c <= |nodes|
    ensures c == |set i | 0 <= i < |nodes| && nodes[i].IsCompleted()|
  {
    if nodes == [] then 0
    else
      var init, k := nodes[..|nodes| - 1], |nodes| - 1;
      assert (set i | 0 <= i < |nodes| && nodes[i].IsCompleted())
          == (set i | 0 <= i < |init| && init[i].IsCompleted()) + (if nodes[k].IsCompleted() then {k} else {});
      CountCompleted(init) + (if nodes[k].IsCompleted() then 1 else 0)
  }

  /** `nodes.filter(node => node.isTopic).length`: the number of positions
      holding a topic node. */
  function CountTopics(nodes: seq<Node>): (c: nat)
    ensures c <= |nodes|
    ensures c == |set i | 0 <= i < |nodes| && nodes[i].TopicNode?|
  {
    if nodes == [] then 0
    else
      var init, k := nodes[..|nodes| - 1], |nodes| - 1;
      assert (set i | 0 <= i < |nodes| && nodes[i].TopicNode?)
          == (set i | 0 <= i < |init| && init[i].TopicNode?) + (if nodes[k].TopicNode? then {k} else {});
      CountTopics(init) + (if nodes[k].TopicNode? then 1 else 0)
  }

  function Max(a: int, b: int): int
  {
    if a >= b then a else b
  }

  function CalculateGraphStats(g: Graph): (r: GraphStats)
    ensures r.totalNodes == |g.nodes| && r.totalLinks == |g.links|
    ensures r.completedNodes <= r.totalNodes && r.topicNodes <= r.totalNodes
    ensures r.completedNodes == |set i | 0 <= i < |g.nodes| && g.nodes[i].IsCompleted()|
    ensures r.topicNodes == |set i | 0 <= i < |g.nodes| && g.nodes[i].TopicNode?|
    ensures r.averageConnections >= 0.0 && r.connectivity >= 0.0
  {
    var n := |g.nodes|;
    GraphStats(n, |g.links|, CountCompleted(g.nodes), CountTopics(g.nodes),
               (|g.links| as real) / (Max(n, 1) as real),
               (2 * |g.links|) as real / (Max(n * (n - 1), 1) as real))
  }

  /** No node is both completed and a topic. */
  lemma {:induction false} CompletedAndTopics(nodes: seq<Node>)
    ensures CountCompleted(nodes) + CountTopics(nodes) <= |nodes|
  {
    if nodes != [] {
      CompletedAndTopics(nodes[..|nodes| - 1]);
    }
  }

  lemma {:induction false} CountAppend(a: seq<Node>, b: seq<Node>)
    ensures CountCompleted(a + b) == CountCompleted(a) + CountCompleted(b)
    ensures CountTopics(a + b) == CountTopics(a) + CountTopics(b)
    decreases |b|
  {
    if b == [] {
      assert a + b == a;
    } else {
      assert (a + b)[..|a + b| - 1] == a + b[..|b| - 1];
      CountAppend(a, b[..|b| - 1]);
    }
  }

  /** The number of completed tasks. */
  function CompletedTasks(tasks: seq<Task>): (c: nat)
    ensures c == |set i | 0 <= i < |tasks| && tasks[i].completed|
  {
    if tasks == [] then 0
    else
      var init, k := tasks[..|tasks| - 1], |tasks| - 1;
      assert (set i | 0 <= i < |tasks| && tasks[i].completed)
          == (set i | 0 <= i < |init| && init[i].completed) + (if tasks[k].completed then {k} else {});
      CompletedTasks(init) + (if tasks[k].completed then 1 else 0)
  }

  lemma {:induction false} TaskNodeCounts(tasks: seq<Task>)
    ensures CountCompleted(TaskNodes(tasks)) == CompletedTasks(tasks)
    ensures CountTopics(TaskNodes(tasks)) == 0
  {
    if tasks != [] {
      var init := tasks[..|tasks| - 1];
      TaskNodeCounts(init);
      assert TaskNodes(tasks)[..|tasks| - 1] == TaskNodes(init);
    }
  }

  lemma {:induction false} TopicNodeCounts(topics: seq<string>)
    ensures CountCompleted(TopicNodes(topics)) == 0
    ensures CountTopics(TopicNodes(topics)) == |topics|
  {
    if topics != [] {
      var init := topics[..|topics| - 1];
      TopicNodeCounts(init);
      assert TopicNodes(topics)[..|topics| - 1] == TopicNodes(init);
    }
  }

  /** The counts of a clustered graph: one node per task and per topic of
      `findCommonTopics` as written, the completed nodes are the completed
      tasks, and the topic nodes are those topics. */
  lemma ClusteredGraphStats(nlp: Nlp, tasks: seq<Task>, threshold: real)
    ensures var s := CalculateGraphStats(ClusteredGraphOf(nlp, tasks, threshold));
      var topics := CommonTopicsAsWritten(Titles(tasks));
      && s.totalNodes == |tasks| + |topics|
      && s.completedNodes == CompletedTasks(tasks)
      && s.topicNodes == |topics|
  {
    var topics := CommonTopicsAsWritten(Titles(tasks));
    TaskNodeCounts(tasks);
    TopicNodeCounts(topics);
    CountAppend(TaskNodes(tasks), TopicNodes(topics));
  }

  /** A count at most its positive bound gives a ratio of at most 1. */
  lemma RatioAtMostOne(a: nat, b: int)
    requires a <= Max(b, 1)
    ensures (a as real) / (Max(b, 1) as real) <= 1.0
  {
    var d := Max(b, 1) as real;
    assert (a as real) <= d;
    assert (a as real) / d * d == a as real;
  }

  /** The base graph has at most one link per unordered pair of tasks. */
  lemma GraphLinkBound(nlp: Nlp, tasks: seq<Task>, threshold: real)
    ensures var g := GraphOf(nlp, tasks, threshold);
      |g.nodes| == |tasks| && 2 * |g.links| <= Max(|tasks| * (|tasks| - 1), 1)
  {
    var n := |tasks|;
    PairsBeforeLength(nlp, tasks, threshold, n);
    assert n * (2 * n - n - 1) == n * (n - 1);
  }

  /** The base graph links each unordered pair of tasks at most once, so its
      connectivity lies between 0 and 1. */
  lemma GraphConnectivity(nlp: Nlp, tasks: seq<Task>, threshold: real)
    ensures var s := CalculateGraphStats(GraphOf(nlp, tasks, threshold));
      0.0 <= s.connectivity <= 1.0
  {
    var g := GraphOf(nlp, tasks, threshold);
    var n := |g.nodes|;
    GraphLinkBound(nlp, tasks, threshold);
    RatioAtMostOne(2 * |g.links|, n * (n - 1));
  }
}

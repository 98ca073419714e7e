/** The graph builder of frontend/src/utils/graphUtils.js (`GraphDataGenerator`):
    one node per task, a link between every two tasks whose titles are similar
    enough, and, in the clustered variant, one node per shared topic linked to
    the tasks that mention it. */
module GraphDataGenerator {
  import opened Common
  import opened NlpUtils

  /** A task or node id: the backend's integer keys, or a string. */
  datatype Id = Num(n: int) | Str(s: string)

  /** A task as the graph reads it. `priority` is the empty string when the
      task has none. */
  datatype Task = Task(id: Id, title: string, completed: bool, priority: string)

  datatype Group = CompletedGroup | PendingGroup | TopicGroup

  /** A graph node: one per task, or one per shared topic. A topic node has
      no `completed` field, which JavaScript reads as falsy. */
  datatype Node =
    | TaskNode(id: Id, title: string, completed: bool, priority: string, val: int, color: string, group: Group)
    | TopicNode(id: Id, title: string, val: int, color: string, group: Group)
  {
    predicate IsCompleted() { TaskNode? && completed }
  }

  /** A link endpoint: the raw id the builder writes, or the node object the
      force-graph library substitutes for it (read back as `endpoint.id`). */
  datatype Endpoint = Raw(id: Id) | NodeRef(id: Id)

  /** A similarity link between two tasks, or a link from a task to a topic
      (`isTopicLink: true`, which has no `strength`). Colours are left out. */
  datatype Link =
    | SimilarityLink(source: Endpoint, target: Endpoint, value: real, strength: real, width: real)
    | TopicLink(source: Endpoint, target: Endpoint, value: real, width: real)

  datatype Graph = Graph(nodes: seq<Node>, links: seq<Link>)

  /** The text analysis the builder calls: the similarity of two titles and
      the keyword set of a title. The application's analysis is
      `NlpUtils.Similarity` and `NlpUtils.KeywordSet` (`Application` below);
      the graph's properties are proved for any analysis whose similarity lies
      in [0, 1]. */
  datatype Nlp = Nlp(similarity: (string, string) -> real, keywordSet: string -> set<string>)

  const Application: Nlp := Nlp(Similarity, KeywordSet)

  ghost predicate Bounded(nlp: Nlp)
  {
    forall a, b :: 0.0 <= nlp.similarity(a, b) <= 1.0
  }

  lemma ApplicationBounded()
    ensures Bounded(Application)
  {
  }

  const CompletedColor := "#10b981"
  const PendingColor := "#8b5cf6"
  const TopicColor := "#ec4899"
  const TopicPrefix := "topic-"

  function Titles(tasks: seq<Task>): (r: seq<string>)
    ensures |r| == |tasks| && forall i :: 0 <= i < |tasks| ==> r[i] == tasks[i].title
  {
    seq(|tasks|, i requires 0 <= i < |tasks| => tasks[i].title)
  }

  /** The node `tasksToGraphData` makes for a task. */
  function NodeOf(task: Task): Node
  {
    TaskNode(task.id, task.title, task.completed,
             if task.priority == "" then "medium" else task.priority,
             if task.completed then 3 else 5,
             if task.completed then CompletedColor else PendingColor,
             if task.completed then CompletedGroup else PendingGroup)
  }

  function TaskNodes(tasks: seq<Task>): seq<Node>
  {
    seq(|tasks|, i requires 0 <= i < |tasks| => NodeOf(tasks[i]))
  }

  /** Exactly one node per task, in task order, carrying the task's id, title
      and completion; completed tasks are small and green, pending ones larger. */
  lemma TaskNodesSpec(tasks: seq<Task>)
    ensures |TaskNodes(tasks)| == |tasks|
    ensures forall i :: 0 <= i < |tasks| ==>
      var n := TaskNodes(tasks)[i];
      && n.TaskNode? && n.id == tasks[i].id && n.title == tasks[i].title
      && n.completed == tasks[i].completed
      && (n.val == 3 <==> tasks[i].completed) && (n.val == 5 <==> !tasks[i].completed)
      && (n.group == CompletedGroup <==> tasks[i].completed)
      && (n.group == PendingGroup <==> !tasks[i].completed)
  {
  }

  // ---------------------------------------------------------------------
  // Similarity links

  /** The pairs of task indices `(i, j)` with `i < j < end` in row `i`
      whose titles are at least `threshold` similar, in increasing `j`. */
  function RowPairs(nlp: Nlp, tasks: seq<Task>, threshold: real, i: nat, end: nat): (r: seq<(int, int)>)
    requires i < end <= |tasks|
    ensures forall p :: p in r ==> p.0 == i && i < p.1 < end
    decreases end
  {
    if end == i + 1 then []
    else
      RowPairs(nlp, tasks, threshold, i, end - 1)
        + (if nlp.similarity(tasks[i].title, tasks[end - 1].title) >= threshold then [(i, end - 1)] else [])
  }

  /** The linked pairs of the rows before `i`, in the nested loops' order. */
  function PairsBefore(nlp: Nlp, tasks: seq<Task>, threshold: real, i: nat): (r: seq<(int, int)>)
    requires i <= |tasks|
    ensures forall p :: p in r ==> 0 <= p.0 < i && p.0 < p.1 < |tasks|
  {
    if i == 0 then [] else PairsBefore(nlp, tasks, threshold, i - 1) + RowPairs(nlp, tasks, threshold, i - 1, |tasks|)
  }

  /** Every pair `(i, j)` with `i < j` whose similarity reaches the threshold,
      in the order the nested loops visit them. */
  function LinkedPairs(nlp: Nlp, tasks: seq<Task>, threshold: real): seq<(int, int)>
  {
    PairsBefore(nlp, tasks, threshold, |tasks|)
  }

  predicate LexLess(p: (int, int), q: (int, int))
  {
    p.0 < q.0 || (p.0 == q.0 && p.1 < q.1)
  }

  predicate Increasing(ps: seq<(int, int)>)
  {
    forall a, b :: 0 <= a < b < |ps| ==> LexLess(ps[a], ps[b])
  }

  lemma {:induction false} RowPairsComplete(nlp: Nlp, tasks: seq<Task>, threshold: real, i: nat, end: nat, j: nat)
    requires i < j < end <= |tasks|
    requires nlp.similarity(tasks[i].title, tasks[j].title) >= threshold
    ensures (i, j) in RowPairs(nlp, tasks, threshold, i, end)
    decreases end
  {
    if j < end - 1 {
      RowPairsComplete(nlp, tasks, threshold, i, end - 1, j);
    }
  }

  lemma {:induction false} RowPairsSound(nlp: Nlp, tasks: seq<Task>, threshold: real, i: nat, end: nat)
    requires i < end <= |tasks|
    ensures forall p :: p in RowPairs(nlp, tasks, threshold, i, end) ==>
      nlp.similarity(tasks[p.0].title, tasks[p.1].title) >= threshold
    decreases end
  {
    if end > i + 1 {
      RowPairsSound(nlp, tasks, threshold, i, end - 1);
    }
  }

  lemma {:induction false} RowPairsIncreasing(nlp: Nlp, tasks: seq<Task>, threshold: real, i: nat, end: nat)
    requires i < end <= |tasks|
    ensures Increasing(RowPairs(nlp, tasks, threshold, i, end))
    decreases end
  {
    if end > i + 1 {
      RowPairsIncreasing(nlp, tasks, threshold, i, end - 1);
    }
  }

  lemma AppendIncreasing(left: seq<(int, int)>, right: seq<(int, int)>, row: int)
    requires Increasing(left) && Increasing(right)
    requires forall p :: p in left ==> p.0 < row
    requires forall q :: q in right ==> q.0 == row
    ensures Increasing(left + right)
  {
    forall a, b | 0 <= a < b < |left + right| ensures LexLess((left + right)[a], (left + right)[b]) {
      if b < |left| {
      } else if a >= |left| {
        assert (left + right)[a] == right[a - |left|] && (left + right)[b] == right[b - |left|];
      } else {
        assert (left + right)[a] in left && (left + right)[b] in right;
      }
    }
  }

  lemma {:induction false} PairsBeforeIncreasing(nlp: Nlp, tasks: seq<Task>, threshold: real, i: nat)
    requires i <= |tasks|
    ensures Increasing(PairsBefore(nlp, tasks, threshold, i))
  {
    if i > 0 {
      var left := PairsBefore(nlp, tasks, threshold, i - 1);
      var right := RowPairs(nlp, tasks, threshold, i - 1, |tasks|);
      assert PairsBefore(nlp, tasks, threshold, i) == left + right;
      PairsBeforeIncreasing(nlp, tasks, threshold, i - 1);
      RowPairsIncreasing(nlp, tasks, threshold, i - 1, |tasks|);
      AppendIncreasing(left, right, i - 1);
    }
  }

  lemma {:induction false} PairsBeforeSound(nlp: Nlp, tasks: seq<Task>, threshold: real, i: nat)
    requires i <= |tasks|
    ensures forall p :: p in PairsBefore(nlp, tasks, threshold, i) ==>
      nlp.similarity(tasks[p.0].title, tasks[p.1].title) >= threshold
  {
    if i > 0 {
      PairsBeforeSound(nlp, tasks, threshold, i - 1);
      RowPairsSound(nlp, tasks, threshold, i - 1, |tasks|);
    }
  }

  lemma {:induction false} PairsBeforeComplete(nlp: Nlp, tasks: seq<Task>, threshold: real, i: nat, a: int, b: int)
    requires i <= |tasks| && 0 <= a < i && a < b < |tasks|
    requires nlp.similarity(tasks[a].title, tasks[b].title) >= threshold
    ensures (a, b) in PairsBefore(nlp, tasks, threshold, i)
  {
    if a == i - 1 {
      RowPairsComplete(nlp, tasks, threshold, a, |tasks|, b);
    } else {
      PairsBeforeComplete(nlp, tasks, threshold, i - 1, a, b);
    }
  }

  /** The pairs the builder links are exactly the index pairs `i < j` whose
      similarity reaches the threshold, each once, in strictly increasing
      lexicographic order. */
  lemma LinkedPairsSpec(nlp: Nlp, tasks: seq<Task>, threshold: real)
    ensures var ps := LinkedPairs(nlp, tasks, threshold);
      && (forall i, j :: (i, j) in ps <==>
            0 <= i < j < |tasks| && nlp.similarity(tasks[i].title, tasks[j].title) >= threshold)
      && Increasing(ps)
  {
    PairsBeforeIncreasing(nlp, tasks, threshold, |tasks|);
    PairsBeforeSound(nlp, tasks, threshold, |tasks|);
    forall a, b | 0 <= a < b < |tasks| && nlp.similarity(tasks[a].title, tasks[b].title) >= threshold
      ensures (a, b) in LinkedPairs(nlp, tasks, threshold)
    {
      PairsBeforeComplete(nlp, tasks, threshold, |tasks|, a, b);
    }
  }

  /** The link `tasksToGraphData` makes between two similar tasks. */
  function SimilarityLinkOf(nlp: Nlp, a: Task, b: Task): Link
  {
    var similarity := nlp.similarity(a.title, b.title);
    SimilarityLink(Raw(a.id), Raw(b.id), similarity, similarity, 1.0 + similarity * 2.0)
  }

  predicate ValidPairs(tasks: seq<Task>, ps: seq<(int, int)>)
  {
    forall p :: p in ps ==> 0 <= p.0 < |tasks| && 0 <= p.1 < |tasks|
  }

  function PairLinks(nlp: Nlp, tasks: seq<Task>, ps: seq<(int, int)>): (r: seq<Link>)
    requires ValidPairs(tasks, ps)
    ensures |r| == |ps| && forall k :: 0 <= k < |ps| ==> r[k] == SimilarityLinkOf(nlp, tasks[ps[k].0], tasks[ps[k].1])
  {
    seq(|ps|, k requires 0 <= k < |ps| => SimilarityLinkOf(nlp, tasks[ps[k].0], tasks[ps[k].1]))
  }

  function SimilarityLinks(nlp: Nlp, tasks: seq<Task>, threshold: real): seq<Link>
  {
    PairLinks(nlp, tasks, LinkedPairs(nlp, tasks, threshold))
  }

  /** The graph `tasksToGraphData(tasks, threshold)` returns. */
  function GraphOf(nlp: Nlp, tasks: seq<Task>, threshold: real): Graph
  {
    Graph(TaskNodes(tasks), SimilarityLinks(nlp, tasks, threshold))
  }

  lemma LinkFromPair(nlp: Nlp, tasks: seq<Task>, threshold: real, l: Link)
    requires l in SimilarityLinks(nlp, tasks, threshold)
    ensures exists i, j ::
      0 <= i < j < |tasks| && nlp.similarity(tasks[i].title, tasks[j].title) >= threshold && l == SimilarityLinkOf(nlp, tasks[i], tasks[j])
  {
    var ps := LinkedPairs(nlp, tasks, threshold);
    var links := SimilarityLinks(nlp, tasks, threshold);
    LinkedPairsSpec(nlp, tasks, threshold);
    var k :| 0 <= k < |links| && links[k] == l;
    assert ps[k] in ps;
    var i, j := ps[k].0, ps[k].1;
    assert l == SimilarityLinkOf(nlp, tasks[i], tasks[j]);
  }

  lemma PairGivesLink(nlp: Nlp, tasks: seq<Task>, threshold: real, i: int, j: int)
    requires 0 <= i < j < |tasks| && nlp.similarity(tasks[i].title, tasks[j].title) >= threshold
    ensures SimilarityLinkOf(nlp, tasks[i], tasks[j]) in SimilarityLinks(nlp, tasks, threshold)
  {
    var ps := LinkedPairs(nlp, tasks, threshold);
    LinkedPairsSpec(nlp, tasks, threshold);
    assert (i, j) in ps;
    var k :| 0 <= k < |ps| && ps[k] == (i, j);
    assert SimilarityLinks(nlp, tasks, threshold)[k] == SimilarityLinkOf(nlp, tasks[i], tasks[j]);
  }

  /** A link joins tasks `i < j` exactly when their similarity reaches the
      threshold; its value and strength are that similarity and its width
      is 1 + 2 * similarity. */
  lemma SimilarityLinksSpec(nlp: Nlp, tasks: seq<Task>, threshold: real)
    ensures forall l :: l in SimilarityLinks(nlp, tasks, threshold) <==>
      exists i, j :: 0 <= i < j < |tasks| && nlp.similarity(tasks[i].title, tasks[j].title) >= threshold
        && l == SimilarityLinkOf(nlp, tasks[i], tasks[j])
    ensures forall l :: l in SimilarityLinks(nlp, tasks, threshold) ==>
      (&& l.SimilarityLink? && l.source.Raw? && l.target.Raw?
       && l.value >= threshold && l.strength == l.value && l.width == 1.0 + 2.0 * l.value)
  {
    var links := SimilarityLinks(nlp, tasks, threshold);
    forall l ensures l in links <==> exists i, j ::
      (0 <= i < j < |tasks| && nlp.similarity(tasks[i].title, tasks[j].title) >= threshold
       && l == SimilarityLinkOf(nlp, tasks[i], tasks[j]))
    {
      if l in links {
        LinkFromPair(nlp, tasks, threshold, l);
      }
      if exists i, j ::
        (0 <= i < j < |tasks| && nlp.similarity(tasks[i].title, tasks[j].title) >= threshold
         && l == SimilarityLinkOf(nlp, tasks[i], tasks[j]))
      {
        var i, j :| 0 <= i < j < |tasks| && nlp.similarity(tasks[i].title, tasks[j].title) >= threshold
          && l == SimilarityLinkOf(nlp, tasks[i], tasks[j]);
        PairGivesLink(nlp, tasks, threshold, i, j);
      }
    }
  }

  /** With a similarity in [0, 1], such as the application's, every link
      value lies between the threshold and 1 and every width in [1, 3]. */
  lemma SimilarityLinkRange(nlp: Nlp, tasks: seq<Task>, threshold: real)
    requires Bounded(nlp)
    ensures forall l :: l in SimilarityLinks(nlp, tasks, threshold) ==>
      0.0 <= l.value <= 1.0 && threshold <= l.value && 1.0 <= l.width <= 3.0
  {
    SimilarityLinksSpec(nlp, tasks, threshold);
  }

  predicate DistinctIds(tasks: seq<Task>)
  {
    forall i, j :: 0 <= i < j < |tasks| ==> tasks[i].id != tasks[j].id
  }

  /** Two different pairs of the scan name different unordered pairs of tasks. */
  lemma PairsJoinDifferentTasks(tasks: seq<Task>, p: (int, int), q: (int, int))
    requires DistinctIds(tasks)
    requires 0 <= p.0 < p.1 < |tasks| && 0 <= q.0 < q.1 < |tasks| && LexLess(p, q)
    ensures {Raw(tasks[p.0].id), Raw(tasks[p.1].id)} != {Raw(tasks[q.0].id), Raw(tasks[q.1].id)}
  {
    var other := {Raw(tasks[q.0].id), Raw(tasks[q.1].id)};
    if p.0 < q.0 {
      assert tasks[p.0].id != tasks[q.0].id && tasks[p.0].id != tasks[q.1].id;
      assert Raw(tasks[p.0].id) !in other;
    } else {
      assert tasks[p.1].id != tasks[q.1].id;
      assert tasks[q.0].id != tasks[p.1].id;
      assert Raw(tasks[p.1].id) !in other;
    }
  }

  /** With distinct task ids, no link joins a task to itself and no two links
      join the same unordered pair of tasks. */
  lemma SimilarityLinksUnique(nlp: Nlp, tasks: seq<Task>, threshold: real)
    requires DistinctIds(tasks)
    ensures var links := SimilarityLinks(nlp, tasks, threshold);
      && (forall l :: l in links ==> l.source != l.target)
      && (forall a, b :: 0 <= a < b < |links| ==>
            {links[a].source, links[a].target} != {links[b].source, links[b].target})
  {
    var ps := LinkedPairs(nlp, tasks, threshold);
    var links := SimilarityLinks(nlp, tasks, threshold);
    LinkedPairsSpec(nlp, tasks, threshold);
    forall l | l in links ensures l.source != l.target {
      var k :| 0 <= k < |links| && links[k] == l;
      assert ps[k] in ps;
    }
    forall a, b | 0 <= a < b < |links|
      ensures {links[a].source, links[a].target} != {links[b].source, links[b].target}
    {
      assert ps[a] in ps && ps[b] in ps;
      PairsJoinDifferentTasks(tasks, ps[a], ps[b]);
    }
  }

  lemma PairLinksAppend(nlp: Nlp, tasks: seq<Task>, ps: seq<(int, int)>, i: int, j: int)
    requires ValidPairs(tasks, ps) && 0 <= i < |tasks| && 0 <= j < |tasks|
    ensures ValidPairs(tasks, ps + [(i, j)])
    ensures PairLinks(nlp, tasks, ps + [(i, j)]) == PairLinks(nlp, tasks, ps) + [SimilarityLinkOf(nlp, tasks[i], tasks[j])]
  {
    assert ValidPairs(tasks, ps + [(i, j)]);
    var r := PairLinks(nlp, tasks, ps + [(i, j)]);
    assert forall k :: 0 <= k < |ps| ==> (ps + [(i, j)])[k] == ps[k];
  }

  /** The inner loop of `tasksToGraphData` for row `i`: every `j > i` whose
      pair key has not been processed, linked when similar enough. */
  method LinkRow(nlp: Nlp, tasks: seq<Task>, threshold: real, i: nat,
                 links0: seq<Link>, processed0: set<(int, int)>, ghost pairs0: seq<(int, int)>)
    returns (links: seq<Link>, processed: set<(int, int)>, ghost pairs: seq<(int, int)>)
    requires i < |tasks|
    requires ValidPairs(tasks, pairs0) && links0 == PairLinks(nlp, tasks, pairs0)
    requires forall p :: p in processed0 ==> p.0 < i
    ensures pairs == pairs0 + RowPairs(nlp, tasks, threshold, i, |tasks|)
    ensures ValidPairs(tasks, pairs) && links == PairLinks(nlp, tasks, pairs)
    ensures forall p :: p in processed ==> p.0 <= i
  {
    links, processed, pairs := links0, processed0, pairs0;
    for j := i + 1 to |tasks|
      invariant pairs == pairs0 + RowPairs(nlp, tasks, threshold, i, j)
      invariant ValidPairs(tasks, pairs) && links == PairLinks(nlp, tasks, pairs)
      invariant forall p :: p in processed ==> p.0 < i || (p.0 == i && p.1 < j)
    {
      var pairKey := (if i < j then i else j, if i < j then j else i);
      if pairKey !in processed {
        var similarity := nlp.similarity(tasks[i].title, tasks[j].title);
        if similarity >= threshold {
          PairLinksAppend(nlp, tasks, pairs, i, j);
          links := links + [SimilarityLink(Raw(tasks[i].id), Raw(tasks[j].id), similarity, similarity, 1.0 + similarity * 2.0)];
          pairs := pairs + [(i, j)];
        }
        processed := processed + {pairKey};
      } else {
        assert false;
      }
    }
  }

  /** `tasksToGraphData(tasks, similarityThreshold)`: the nested loops over
      index pairs, with the set of processed pair keys; the key
      `${min}-${max}` is modelled by the pair itself. */
  method TasksToGraphData(nlp: Nlp, tasks: seq<Task>, threshold: real) returns (graph: Graph)
    ensures graph == GraphOf(nlp, tasks, threshold)
    ensures |tasks| == 0 ==> graph == Graph([], [])
  {
    if |tasks| == 0 {
      return Graph([], []);
    }
    var nodes := seq(|tasks|, i requires 0 <= i < |tasks| => NodeOf(tasks[i]));
    var links: seq<Link> := [];
    var processedPairs: set<(int, int)> := {};
    ghost var pairs: seq<(int, int)> := [];
    for i := 0 to |tasks|
      invariant pairs == PairsBefore(nlp, tasks, threshold, i)
      invariant ValidPairs(tasks, pairs) && links == PairLinks(nlp, tasks, pairs)
      invariant forall p :: p in processedPairs ==> p.0 < i
    {
      links, processedPairs, pairs := LinkRow(nlp, tasks, threshold, i, links, processedPairs, pairs);
    }
    graph := Graph(nodes, links);
  }

  // ---------------------------------------------------------------------
  // Topic clusters

  function TopicId(topic: string): Id
  {
    Str(TopicPrefix + topic)
  }

  lemma TopicIdInjective(t: string, u: string)
    ensures TopicId(t) == TopicId(u) <==> t == u
  {
    if TopicId(t) == TopicId(u) {
      assert t == (TopicPrefix + t)[|TopicPrefix|..];
      assert u == (TopicPrefix + u)[|TopicPrefix|..];
    }
  }

  function TopicNodeOf(topic: string): Node
  {
    TopicNode(TopicId(topic), topic, 8, TopicColor, TopicGroup)
  }

  function TopicNodes(topics: seq<string>): seq<Node>
  {
    seq(|topics|, i requires 0 <= i < |topics| => TopicNodeOf(topics[i]))
  }

  function TopicLinkOf(task: Task, topic: string): Link
  {
    TopicLink(Raw(task.id), Raw(TopicId(topic)), 0.5, 1.0)
  }

  /** The topic links of one task: one per topic in its keyword set, in topic order. */
  function TaskTopicLinks(nlp: Nlp, task: Task, topics: seq<string>): (r: seq<Link>)
    ensures forall l :: l in r <==> exists t :: t in topics && t in nlp.keywordSet(task.title) && l == TopicLinkOf(task, t)
  {
    if topics == [] then []
    else
      var last := topics[|topics| - 1];
      assert topics == topics[..|topics| - 1] + [last];
      TaskTopicLinks(nlp, task, topics[..|topics| - 1])
        + (if last in nlp.keywordSet(task.title) then [TopicLinkOf(task, last)] else [])
  }

  /** The topic links of all tasks, task after task. */
  function TopicLinks(nlp: Nlp, tasks: seq<Task>, topics: seq<string>): (r: seq<Link>)
    ensures forall l :: l in r <==> exists i, t ::
      (0 <= i < |tasks| && t in topics && t in nlp.keywordSet(tasks[i].title) && l == TopicLinkOf(tasks[i], t))
  {
    if tasks == [] then []
    else
      var init := tasks[..|tasks| - 1];
      var rest := TopicLinks(nlp, init, topics);
      var own := TaskTopicLinks(nlp, tasks[|tasks| - 1], topics);
      assert forall l :: l in rest + own <==> l in rest || l in own;
      assert forall i :: 0 <= i < |init| ==> init[i] == tasks[i];
      rest + own
  }

  /** The base graph extended with one node per topic and the topic links. */
  function WithTopics(nlp: Nlp, base: Graph, tasks: seq<Task>, topics: seq<string>): Graph
  {
    Graph(base.nodes + TopicNodes(topics), base.links + TopicLinks(nlp, tasks, topics))
  }

  /** The graph `tasksToClusteredGraphData(tasks, threshold)` returns: its
      topics are those of `findCommonTopics` as written, so `constructor`
      and `__proto__` never get a topic node. */
  function ClusteredGraphOf(nlp: Nlp, tasks: seq<Task>, threshold: real): Graph
  {
    WithTopics(nlp, GraphOf(nlp, tasks, threshold), tasks, CommonTopicsAsWritten(Titles(tasks)))
  }

  /** The clustered graph the code evidently intends: one topic node for
      every keyword occurring at least twice. */
  function IntendedClusteredGraphOf(nlp: Nlp, tasks: seq<Task>, threshold: real): Graph
  {
    WithTopics(nlp, GraphOf(nlp, tasks, threshold), tasks, CommonTopics(Titles(tasks)))
  }

  /** The inner `topics.forEach` for one task. */
  method LinkTaskToTopics(nlp: Nlp, task: Task, topics: seq<string>) returns (links: seq<Link>)
    ensures links == TaskTopicLinks(nlp, task, topics)
  {
    var taskKeywords := nlp.keywordSet(task.title);
    links := [];
    for k := 0 to |topics|
      invariant links == TaskTopicLinks(nlp, task, topics[..k])
    {
      if topics[k] in taskKeywords {
        links := links + [TopicLink(Raw(task.id), Raw(Str(TopicPrefix + topics[k])), 0.5, 1.0)];
      }
      assert topics[..k + 1][..k] == topics[..k];
    }
    assert topics[..|topics|] == topics;
  }

  /** The topic part of `tasksToClusteredGraphData`, for the given topics. */
  method AddTopics(nlp: Nlp, base: Graph, tasks: seq<Task>, topics: seq<string>) returns (graph: Graph)
    ensures graph == WithTopics(nlp, base, tasks, topics)
  {
    var topicNodes := seq(|topics|, i requires 0 <= i < |topics| => TopicNode(Str(TopicPrefix + topics[i]), topics[i], 8, TopicColor, TopicGroup));
    var topicLinks: seq<Link> := [];
    for i := 0 to |tasks|
      invariant topicLinks == TopicLinks(nlp, tasks[..i], topics)
    {
      var own := LinkTaskToTopics(nlp, tasks[i], topics);
      assert tasks[..i + 1][..i] == tasks[..i];
      topicLinks := topicLinks + own;
    }
    assert tasks[..|tasks|] == tasks;
    graph := Graph(base.nodes + topicNodes, base.links + topicLinks);
  }

  /** `tasksToClusteredGraphData(tasks, similarityThreshold)`: the base graph,
      then one node per common topic and one link per task and topic it mentions. */
  method TasksToClusteredGraphData(nlp: Nlp, tasks: seq<Task>, threshold: real) returns (graph: Graph)
    ensures graph == ClusteredGraphOf(nlp, tasks, threshold)
  {
    var baseGraph := TasksToGraphData(nlp, tasks, threshold);
    var topics := FindCommonTopicsAsWritten(Titles(tasks));
    graph := AddTopics(nlp, baseGraph, tasks, topics);
  }

  // ---------------------------------------------------------------------
  // Properties of the clustered graph

  /** Every link endpoint is a raw id that names a node of the graph. */
  predicate EndpointsClosed(g: Graph)
  {
    forall l :: l in g.links ==>
      && l.source.Raw? && l.target.Raw?
      && (exists n :: n in g.nodes && n.id == l.source.id)
      && (exists n :: n in g.nodes && n.id == l.target.id)
  }

  /** The base graph only links nodes it contains. */
  lemma GraphEndpointsClosed(nlp: Nlp, tasks: seq<Task>, threshold: real)
    ensures EndpointsClosed(GraphOf(nlp, tasks, threshold))
  {
    var g := GraphOf(nlp, tasks, threshold);
    SimilarityLinksSpec(nlp, tasks, threshold);
    forall l | l in g.links
      ensures (exists n :: n in g.nodes && n.id == l.source.id) && (exists n :: n in g.nodes && n.id == l.target.id)
    {
      var i, j :| 0 <= i < j < |tasks| && nlp.similarity(tasks[i].title, tasks[j].title) >= threshold
        && l == SimilarityLinkOf(nlp, tasks[i], tasks[j]);
      assert g.nodes[i] in g.nodes && g.nodes[j] in g.nodes;
    }
  }

  /** Adding topics keeps every link between nodes of the graph, whatever
      the topics are. */
  lemma WithTopicsEndpointsClosed(nlp: Nlp, tasks: seq<Task>, threshold: real, topics: seq<string>)
    ensures EndpointsClosed(WithTopics(nlp, GraphOf(nlp, tasks, threshold), tasks, topics))
  {
    var base := GraphOf(nlp, tasks, threshold);
    var g := WithTopics(nlp, base, tasks, topics);
    GraphEndpointsClosed(nlp, tasks, threshold);
    forall l | l in g.links
      ensures l.source.Raw? && l.target.Raw?
      ensures (exists n :: n in g.nodes && n.id == l.source.id) && (exists n :: n in g.nodes && n.id == l.target.id)
    {
      if l in base.links {
        var n :| n in base.nodes && n.id == l.source.id;
        var m :| m in base.nodes && m.id == l.target.id;
        assert n in g.nodes && m in g.nodes;
      } else {
        assert l in TopicLinks(nlp, tasks, topics);
        var i, t :| 0 <= i < |tasks| && t in topics && t in nlp.keywordSet(tasks[i].title) && l == TopicLinkOf(tasks[i], t);
        var k :| 0 <= k < |topics| && topics[k] == t;
        assert base.nodes[i] in g.nodes && TopicNodes(topics)[k] in g.nodes;
      }
    }
  }

  /** The base graph, the clustered graph as written and the intended one
      only link nodes they contain. */
  lemma ClusteredEndpointsClosed(nlp: Nlp, tasks: seq<Task>, threshold: real)
    ensures EndpointsClosed(GraphOf(nlp, tasks, threshold))
    ensures EndpointsClosed(ClusteredGraphOf(nlp, tasks, threshold))
    ensures EndpointsClosed(IntendedClusteredGraphOf(nlp, tasks, threshold))
  {
    GraphEndpointsClosed(nlp, tasks, threshold);
    WithTopicsEndpointsClosed(nlp, tasks, threshold, CommonTopicsAsWritten(Titles(tasks)));
    WithTopicsEndpointsClosed(nlp, tasks, threshold, CommonTopics(Titles(tasks)));
  }

  /** Adding topics keeps the base graph as prefix, adds one node per topic,
      and links a task to the node of topic `t` exactly when `t` is one of
      the topics and one of the task's keywords (task ids being distinct, as
      the backend's keys are). */
  lemma WithTopicsSpec(nlp: Nlp, tasks: seq<Task>, threshold: real, topics: seq<string>)
    requires DistinctIds(tasks)
    ensures var base := GraphOf(nlp, tasks, threshold);
      var g := WithTopics(nlp, base, tasks, topics);
      && g.nodes[..|base.nodes|] == base.nodes && g.links[..|base.links|] == base.links
      && |g.nodes| == |tasks| + |topics|
      && (forall k :: 0 <= k < |topics| ==>
            g.nodes[|tasks| + k] == TopicNode(Str("topic-" + topics[k]), topics[k], 8, TopicColor, TopicGroup))
      && (forall i, t :: 0 <= i < |tasks| ==>
            (TopicLink(Raw(tasks[i].id), Raw(Str("topic-" + t)), 0.5, 1.0) in g.links <==>
             t in topics && t in nlp.keywordSet(tasks[i].title)))
  {
    var base := GraphOf(nlp, tasks, threshold);
    var g := WithTopics(nlp, base, tasks, topics);
    assert g.nodes[..|base.nodes|] == base.nodes;
    assert g.links[..|base.links|] == base.links;
    SimilarityLinksSpec(nlp, tasks, threshold);
    forall i, t | 0 <= i < |tasks|
      ensures TopicLink(Raw(tasks[i].id), Raw(Str("topic-" + t)), 0.5, 1.0) in g.links <==>
        t in topics && t in nlp.keywordSet(tasks[i].title)
    {
      var l := TopicLinkOf(tasks[i], t);
      assert l !in base.links;
      if l in g.links {
        assert l in TopicLinks(nlp, tasks, topics);
        var i', t' :| 0 <= i' < |tasks| && t' in topics && t' in nlp.keywordSet(tasks[i'].title) && l == TopicLinkOf(tasks[i'], t');
        TopicIdInjective(t, t');
        assert tasks[i'].id == tasks[i].id;
        assert i' == i;
      }
    }
  }

  /** The clustered graph: the base graph, then one node per topic of
      `findCommonTopics` as written, that is per keyword occurring at least
      twice over all titles other than `constructor` and `__proto__`, and a
      link from a task to a topic's node exactly when the keyword is such a
      topic and one of the task's keywords. */
  lemma ClusteredGraphSpec(nlp: Nlp, tasks: seq<Task>, threshold: real)
    requires DistinctIds(tasks)
    ensures var base, g := GraphOf(nlp, tasks, threshold), ClusteredGraphOf(nlp, tasks, threshold);
      var topics := CommonTopicsAsWritten(Titles(tasks));
      && g.nodes[..|base.nodes|] == base.nodes && g.links[..|base.links|] == base.links
      && |g.nodes| == |tasks| + |topics|
      && (forall t :: t in topics <==> multiset(AllKeywords(Titles(tasks)))[t] >= 2 && !Inherited(t))
      && (forall k :: 0 <= k < |topics| ==>
            g.nodes[|tasks| + k] == TopicNode(Str("topic-" + topics[k]), topics[k], 8, TopicColor, TopicGroup))
      && (forall i, t :: 0 <= i < |tasks| ==>
            (TopicLink(Raw(tasks[i].id), Raw(Str("topic-" + t)), 0.5, 1.0) in g.links <==>
             t in topics && t in nlp.keywordSet(tasks[i].title)))
  {
    WithTopicsSpec(nlp, tasks, threshold, CommonTopicsAsWritten(Titles(tasks)));
    CommonTopicsAsWrittenMembers(Titles(tasks));
  }

  /** Two tasks whose only keyword is the same inherited name, such as two
      tasks titled "constructor": the intended graph has one topic node for
      it, the graph as written has none. */
  lemma InheritedClusterMissing(nlp: Nlp, tasks: seq<Task>, threshold: real, w: string)
    requires AllKeywords(Titles(tasks)) == [w, w] && Inherited(w)
    ensures |ClusteredGraphOf(nlp, tasks, threshold).nodes| == |tasks|
    ensures |IntendedClusteredGraphOf(nlp, tasks, threshold).nodes| == |tasks| + 1
  {
    InheritedTopics(Titles(tasks), w);
  }

  /** Two tasks titled "constructor": the graph as written has no topic
      node, the intended graph has the node `topic-constructor`. */
  lemma ConstructorClusterMissing(nlp: Nlp, tasks: seq<Task>, threshold: real)
    requires |tasks| == 2 && tasks[0].title == "constructor" && tasks[1].title == "constructor"
    ensures |ClusteredGraphOf(nlp, tasks, threshold).nodes| == 2
    ensures |IntendedClusteredGraphOf(nlp, tasks, threshold).nodes| == 3
  {
    var w := "constructor";
    var titles := Titles(tasks);
    assert titles[0] == w && titles[1] == w;
    assert titles == [w, w];
    ConstructorKeywords();
    InheritedClusterMissing(nlp, tasks, threshold, w);
  }

  lemma {:induction false} RowPairsLength(nlp: Nlp, tasks: seq<Task>, threshold: real, i: nat, end: nat)
    requires i < end <= |tasks|
    ensures |RowPairs(nlp, tasks, threshold, i, end)| <= end - i - 1
    decreases end
  {
    if end > i + 1 {
      RowPairsLength(nlp, tasks, threshold, i, end - 1);
    }
  }

  /** The scan of the first `i` rows yields at most one pair per unordered
      pair of tasks with a first index below `i`. */
  lemma {:induction false} PairsBeforeLength(nlp: Nlp, tasks: seq<Task>, threshold: real, i: nat)
    requires i <= |tasks|
    ensures 2 * |PairsBefore(nlp, tasks, threshold, i)| <= i * (2 * |tasks| - i - 1)
  {
    if i > 0 {
      PairsBeforeLength(nlp, tasks, threshold, i - 1);
      RowPairsLength(nlp, tasks, threshold, i - 1, |tasks|);
      var n := |tasks|;
      assert (i - 1) * (2 * n - (i - 1) - 1) + 2 * (n - i) == i * (2 * n - i - 1);
    }
  }
}

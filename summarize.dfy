/**
 * The plain-English summary of a workflow: its nodes in execution order (breadth first from the
 * first trigger along `main` connections, then every node the traversal did not reach), one
 * sentence per node, and the credentials the nodes need.
 */
module Summarize {
  import opened Wrappers
  import opened Text
  import opened Graph
  import opened NodeIcons

  /** The trigger types the summarizer recognises (a different set from the validator's). */
  const TriggerTypes: seq<string> := [
    BasePrefix + "webhook",
    BasePrefix + "cron",
    BasePrefix + "schedule",
    BasePrefix + "scheduleTrigger",
    BasePrefix + "manualTrigger",
    BasePrefix + "errorTrigger",
    BasePrefix + "workflowTrigger",
    BasePrefix + "emailTrigger"
  ]

  datatype WorkflowSummary = WorkflowSummary(title: string, steps: seq<string>,
                                             credentialRequirements: seq<string>)

  // ---------------------------------------------------------------- lookups

  /** `nodes.find((n) => TRIGGER_TYPES.includes(n.type))`. */
  function FindTrigger(nodes: seq<Node>): (r: Option<Node>)
    ensures r.None? <==> forall i :: 0 <= i < |nodes| ==> nodes[i].nodeType !in TriggerTypes
    ensures r.Some? ==> exists i :: 0 <= i < |nodes| && nodes[i] == r.value
                                    && r.value.nodeType in TriggerTypes
                                    && forall j :: 0 <= j < i ==> nodes[j].nodeType !in TriggerTypes
  {
    if |nodes| == 0 then None
    else if nodes[0].nodeType in TriggerTypes then Some(nodes[0])
    else
      var r := FindTrigger(nodes[1..]);
      assert forall j :: 1 <= j < |nodes| ==> nodes[j] == nodes[1..][j - 1];
      if r.Some? then
        ghost var i :| 0 <= i < |nodes[1..]| && nodes[1..][i] == r.value
                        && forall j :: 0 <= j < i ==> nodes[1..][j].nodeType !in TriggerTypes;
        assert nodes[i + 1] == r.value;
        r
      else r
  }

  /** `nodes.find((n) => n.name === name)`. */
  function FindByName(nodes: seq<Node>, name: string): (r: Option<Node>)
    ensures r.None? <==> forall i :: 0 <= i < |nodes| ==> nodes[i].name != name
    ensures r.Some? ==> exists i :: 0 <= i < |nodes| && nodes[i] == r.value && r.value.name == name
                                    && forall j :: 0 <= j < i ==> nodes[j].name != name
  {
    if |nodes| == 0 then None
    else if nodes[0].name == name then Some(nodes[0])
    else
      var r := FindByName(nodes[1..], name);
      assert forall j :: 1 <= j < |nodes| ==> nodes[j] == nodes[1..][j - 1];
      if r.Some? then
        ghost var i :| 0 <= i < |nodes[1..]| && nodes[1..][i] == r.value && r.value.name == name
                        && forall j :: 0 <= j < i ==> nodes[1..][j].name != name;
        assert nodes[i + 1] == r.value;
        r
      else r
  }

  predicate UniqueNames(nodes: seq<Node>) {
    forall i, j :: 0 <= i < j < |nodes| ==> nodes[i].name != nodes[j].name
  }

  // ---------------------------------------------------------------- breadth-first traversal

  /** Every name the traversal can meet: node names and connection targets. */
  function Universe(w: Workflow): set<string> {
    (set i | 0 <= i < |w.nodes| :: w.nodes[i].name) + Elems(AllTargets(w.connections))
  }

  /** The targets the traversal queues: non-empty and not yet visited, in order. */
  function Fresh(targets: seq<string>, visited: set<string>): seq<string> {
    if |targets| == 0 then []
    else
      var t := targets[|targets| - 1];
      Fresh(targets[..|targets| - 1], visited) + (if t != "" && t !in visited then [t] else [])
  }

  lemma {:induction false} FreshIsFiltered(targets: seq<string>, visited: set<string>)
    ensures forall t :: t in Fresh(targets, visited) ==> t in targets && t != "" && t !in visited
  {
    if |targets| > 0 {
      FreshIsFiltered(targets[..|targets| - 1], visited);
    }
  }

  lemma {:induction false} FreshAppend(a: seq<string>, b: seq<string>, visited: set<string>)
    ensures Fresh(a + b, visited) == Fresh(a, visited) + Fresh(b, visited)
    decreases |b|
  {
    if |b| == 0 {
      assert a + b == a;
    } else {
      assert (a + b)[..|a + b| - 1] == a + b[..|b| - 1];
      FreshAppend(a, b[..|b| - 1], visited);
    }
  }

  lemma {:induction false} SourceTargetsInAll(conns: Connections, i: nat)
    requires i < |conns|
    ensures forall t :: t in ConnectionTargets(conns[i].1) ==> t in AllTargets(conns)
    decreases |conns|
  {
    if i < |conns| - 1 {
      SourceTargetsInAll(conns[..|conns| - 1], i);
    }
  }

  /** The targets of a looked-up source are targets of the workflow. */
  lemma LookupTargetsInUniverse(w: Workflow, name: string, c: Connection)
    requires Lookup(w.connections, name) == Some(c)
    ensures forall t :: t in ConnectionTargets(c) ==> t in Universe(w)
  {
    LookupIsFirst(w.connections, name);
    var i :| 0 <= i < |w.connections| && w.connections[i] == (name, c);
    SourceTargetsInAll(w.connections, i);
  }

  /** The targets queued after visiting `current`. */
  function Successors(w: Workflow, current: string, visited: set<string>): (r: seq<string>)
    ensures forall t :: t in r ==> t in Universe(w) && t != "" && t !in visited
  {
    match Lookup(w.connections, current)
    case None => []
    case Some(c) =>
      LookupTargetsInUniverse(w, current, c);
      FreshIsFiltered(ConnectionTargets(c), visited);
      Fresh(ConnectionTargets(c), visited)
  }

  /**
   * The `while (queue.length > 0)` loop of `getExecutionOrder` from the given state: the nodes
   * in the order they are reached, and the set of visited names.
   */
  function Bfs(w: Workflow, queue: seq<string>, visited: set<string>, ordered: seq<Node>)
    : (r: (seq<Node>, set<string>))
    requires forall q :: q in queue ==> q in Universe(w)
    decreases Universe(w) - visited, |queue|
  {
    if |queue| == 0 then (ordered, visited)
    else
      var current := queue[0];
      if current == "" || current in visited then Bfs(w, queue[1..], visited, ordered)
      else
        var visited' := visited + {current};
        var ordered' := match FindByName(w.nodes, current)
                        case Some(n) => ordered + [n]
                        case None => ordered;
        assert Universe(w) - visited' < Universe(w) - visited by {
          assert current in Universe(w) - visited;
        }
        Bfs(w, queue[1..] + Successors(w, current, visited'), visited', ordered')
  }

  /** The nodes whose names are in `names`, in input order. */
  function NamedIn(nodes: seq<Node>, names: set<string>): seq<Node> {
    if |nodes| == 0 then []
    else
      var n := nodes[|nodes| - 1];
      NamedIn(nodes[..|nodes| - 1], names) + (if n.name in names then [n] else [])
  }

  /** The nodes whose names are not in `visited`, in input order. */
  function Unreached(nodes: seq<Node>, visited: set<string>): seq<Node> {
    if |nodes| == 0 then []
    else
      var n := nodes[|nodes| - 1];
      Unreached(nodes[..|nodes| - 1], visited) + (if n.name !in visited then [n] else [])
  }

  lemma {:induction false} UnreachedAre(nodes: seq<Node>, visited: set<string>)
    ensures forall n :: n in Unreached(nodes, visited) <==> n in nodes && n.name !in visited
  {
    if |nodes| > 0 {
      UnreachedAre(nodes[..|nodes| - 1], visited);
      assert nodes == nodes[..|nodes| - 1] + [nodes[|nodes| - 1]];
    }
  }

  /** `getExecutionOrder`. */
  function ExecutionOrder(w: Workflow): seq<Node> {
    match FindTrigger(w.nodes)
    case None => w.nodes
    case Some(t) =>
      var reached := Bfs(w, [t.name], {}, []);
      reached.0 + Unreached(w.nodes, reached.1)
  }

  /** The trigger's name is a node name, so the traversal may start from it. */
  lemma TriggerInUniverse(w: Workflow)
    requires FindTrigger(w.nodes).Some?
    ensures FindTrigger(w.nodes).value.name in Universe(w)
  {
    var i :| 0 <= i < |w.nodes| && w.nodes[i] == FindTrigger(w.nodes).value;
    assert w.nodes[i].name in (set i | 0 <= i < |w.nodes| :: w.nodes[i].name);
  }

  /** `getExecutionOrder` as the source writes it: a queue, a visited set and an output list. */
  method GetExecutionOrder(w: Workflow) returns (order: seq<Node>)
    ensures order == ExecutionOrder(w)
  {
    var trigger := FindTrigger(w.nodes);
    if trigger.None? {
      return w.nodes;
    }
    TriggerInUniverse(w);
    var ordered, visited := Traverse(w, trigger.value.name);
    order := AppendUnreached(ordered, w.nodes, visited);
  }

  /** The `while (queue.length > 0)` loop, started from one name. */
  method Traverse(w: Workflow, start: string) returns (ordered: seq<Node>, visited: set<string>)
    requires start in Universe(w)
    ensures (ordered, visited) == Bfs(w, [start], {}, [])
  {
    visited := {};
    ordered := [];
    var queue := [start];
    while |queue| > 0
      invariant forall q :: q in queue ==> q in Universe(w)
      invariant Bfs(w, queue, visited, ordered) == Bfs(w, [start], {}, [])
      decreases Universe(w) - visited, |queue|
    {
      ghost var queue0, visited0, ordered0 := queue, visited, ordered;
      var current := queue[0];
      queue := queue[1..];
      if current == "" || current in visited {
        assert Bfs(w, queue0, visited0, ordered0) == Bfs(w, queue, visited, ordered);
        continue;
      }
      assert Universe(w) - (visited + {current}) < Universe(w) - visited by {
        assert current in Universe(w) - visited;
      }
      visited := visited + {current};
      var node := FindByName(w.nodes, current);
      if node.Some? {
        ordered := ordered + [node.value];
      }
      var connection := Lookup(w.connections, current);
      if connection.Some? {
        assert Successors(w, current, visited) == Fresh(ConnectionTargets(connection.value), visited);
        if connection.value.main.Some? {
          queue := PushTargets(queue, connection.value.main.value, visited);
        } else {
          assert Fresh(ConnectionTargets(connection.value), visited) == [];
        }
      }
      assert queue == queue0[1..] + Successors(w, current, visited);
      assert Bfs(w, queue0, visited0, ordered0) == Bfs(w, queue, visited, ordered);
    }
  }

  /** The closing `forEach` that appends the nodes with an unvisited name. */
  method AppendUnreached(ordered: seq<Node>, nodes: seq<Node>, visited: set<string>)
    returns (r: seq<Node>)
    ensures r == ordered + Unreached(nodes, visited)
  {
    r := ordered;
    for i := 0 to |nodes|
      invariant r == ordered + Unreached(nodes[..i], visited)
    {
      assert nodes[..i + 1][..i] == nodes[..i];
      assert Unreached(nodes[..i + 1], visited) == Unreached(nodes[..i], visited)
                + (if nodes[i].name !in visited then [nodes[i]] else []);
      if nodes[i].name !in visited {
        r := r + [nodes[i]];
      }
    }
    assert nodes[..|nodes|] == nodes;
  }

  /** One more output group adds its fresh targets, or nothing when it is `null`. */
  lemma FreshMainSnoc(main: seq<Group>, i: nat, visited: set<string>)
    requires i < |main|
    ensures Fresh(MainTargets(main[..i + 1]), visited)
         == Fresh(MainTargets(main[..i]), visited)
            + (if main[i].Outputs? then Fresh(GroupTargets(main[i].entries), visited) else [])
  {
    assert main[..i + 1][..i] == main[..i];
    var group := if main[i].Outputs? then GroupTargets(main[i].entries) else [];
    assert MainTargets(main[..i + 1]) == MainTargets(main[..i]) + group;
    FreshAppend(MainTargets(main[..i]), group, visited);
    if !main[i].Outputs? {
      assert Fresh(group, visited) == [];
    }
  }

  /** The two nested `forEach` loops that queue the fresh targets of one source. */
  method PushTargets(queue: seq<string>, main: seq<Group>, visited: set<string>)
    returns (q: seq<string>)
    ensures q == queue + Fresh(MainTargets(main), visited)
  {
    q := queue;
    for i := 0 to |main|
      invariant q == queue + Fresh(MainTargets(main[..i]), visited)
    {
      FreshMainSnoc(main, i, visited);
      ghost var done := Fresh(MainTargets(main[..i]), visited);
      if main[i].Outputs? {
        ghost var more := Fresh(GroupTargets(main[i].entries), visited);
        q := PushGroup(q, main[i].entries, visited);
        assert q == (queue + done) + more;
        assert (queue + done) + more == queue + (done + more);
      } else {
        assert done + [] == done;
      }
    }
    assert main[..|main|] == main;
  }

  /** The inner `forEach` over one output array. */
  method PushGroup(queue: seq<string>, entries: seq<Entry>, visited: set<string>)
    returns (q: seq<string>)
    ensures q == queue + Fresh(GroupTargets(entries), visited)
  {
    q := queue;
    for j := 0 to |entries|
      invariant q == queue + Fresh(GroupTargets(entries[..j]), visited)
    {
      assert entries[..j + 1][..j] == entries[..j];
      var e := entries[j];
      var tail := if e.Target? then [e.node] else [];
      assert GroupTargets(entries[..j + 1]) == GroupTargets(entries[..j]) + tail;
      FreshAppend(GroupTargets(entries[..j]), tail, visited);
      assert tail[..|tail| - if |tail| > 0 then 1 else 0] == [];
      if e.Target? && e.node != "" && e.node !in visited {
        q := q + [e.node];
      }
    }
    assert entries[..|entries|] == entries;
  }

  // ---------------------------------------------------------------- properties of the order

  /** Without a trigger the nodes keep their input order. */
  lemma NoTriggerKeepsOrder(w: Workflow)
    requires forall i :: 0 <= i < |w.nodes| ==> w.nodes[i].nodeType !in TriggerTypes
    ensures ExecutionOrder(w) == w.nodes
  {
  }

  lemma {:induction false} NamedInUnion(nodes: seq<Node>, names: set<string>, c: string)
    requires c !in names
    ensures multiset(NamedIn(nodes, names + {c}))
            == multiset(NamedIn(nodes, names)) + multiset(NamedIn(nodes, {c}))
  {
    if |nodes| > 0 {
      NamedInUnion(nodes[..|nodes| - 1], names, c);
    }
  }

  lemma {:induction false} NamedInNone(nodes: seq<Node>, c: string)
    requires forall i :: 0 <= i < |nodes| ==> nodes[i].name != c
    ensures NamedIn(nodes, {c}) == []
  {
    if |nodes| > 0 {
      NamedInNone(nodes[..|nodes| - 1], c);
    }
  }

  /** With unique names, the node named `c` is the only one selected by `{c}`. */
  lemma {:induction false} NamedInSingle(nodes: seq<Node>, k: nat, c: string)
    requires UniqueNames(nodes) && k < |nodes| && nodes[k].name == c
    ensures NamedIn(nodes, {c}) == [nodes[k]]
  {
    var n := |nodes|;
    if k == n - 1 {
      NamedInNone(nodes[..n - 1], c);
    } else {
      NamedInSingle(nodes[..n - 1], k, c);
    }
  }

  lemma {:induction false} NamedInPartition(nodes: seq<Node>, names: set<string>)
    ensures multiset(NamedIn(nodes, names)) + multiset(Unreached(nodes, names)) == multiset(nodes)
  {
    if |nodes| > 0 {
      var p, x := nodes[..|nodes| - 1], nodes[|nodes| - 1];
      NamedInPartition(p, names);
      var a, b := NamedIn(p, names), Unreached(p, names);
      assert multiset(nodes) == multiset(p) + multiset{x} by {
        assert nodes == p + [x];
      }
      if x.name in names {
        assert NamedIn(nodes, names) == a + [x];
        assert Unreached(nodes, names) == b + [];
        assert multiset(a + [x]) == multiset(a) + multiset{x};
      } else {
        assert NamedIn(nodes, names) == a + [];
        assert Unreached(nodes, names) == b + [x];
        assert multiset(b + [x]) == multiset(b) + multiset{x};
      }
    }
  }

  /** The traversal keeps "`ordered` holds exactly the nodes with a visited name". */
  lemma {:induction false} BfsCollectsVisited(w: Workflow, queue: seq<string>, visited: set<string>,
                                              ordered: seq<Node>)
    requires UniqueNames(w.nodes)
    requires forall q :: q in queue ==> q in Universe(w)
    requires multiset(ordered) == multiset(NamedIn(w.nodes, visited))
    ensures var r := Bfs(w, queue, visited, ordered);
            multiset(r.0) == multiset(NamedIn(w.nodes, r.1))
    decreases Universe(w) - visited, |queue|
  {
    if |queue| > 0 {
      var current := queue[0];
      if current == "" || current in visited {
        assert Bfs(w, queue, visited, ordered) == Bfs(w, queue[1..], visited, ordered);
        BfsCollectsVisited(w, queue[1..], visited, ordered);
      } else {
        var visited' := visited + {current};
        var ordered' := match FindByName(w.nodes, current)
                        case Some(n) => ordered + [n]
                        case None => ordered;
        NamedInUnion(w.nodes, visited, current);
        match FindByName(w.nodes, current) {
          case None =>
            NamedInNone(w.nodes, current);
          case Some(n) =>
            var k :| 0 <= k < |w.nodes| && w.nodes[k] == n && n.name == current;
            NamedInSingle(w.nodes, k, current);
        }
        assert Universe(w) - visited' < Universe(w) - visited by {
          assert current in Universe(w) - visited;
        }
        assert Bfs(w, queue, visited, ordered)
            == Bfs(w, queue[1..] + Successors(w, current, visited'), visited', ordered');
        BfsCollectsVisited(w, queue[1..] + Successors(w, current, visited'), visited', ordered');
      }
    }
  }

  /** With unique node names the execution order is a permutation of the nodes. */
  lemma ExecutionOrderIsPermutation(w: Workflow)
    requires UniqueNames(w.nodes)
    ensures multiset(ExecutionOrder(w)) == multiset(w.nodes)
  {
    match FindTrigger(w.nodes) {
      case None =>
      case Some(t) =>
        TriggerInUniverse(w);
        assert NamedIn(w.nodes, {}) == [] by { NamedInEmpty(w.nodes); }
        BfsCollectsVisited(w, [t.name], {}, []);
        var (o, v) := Bfs(w, [t.name], {}, []);
        NamedInPartition(w.nodes, v);
    }
  }

  lemma {:induction false} NamedInEmpty(nodes: seq<Node>)
    ensures NamedIn(nodes, {}) == []
  {
    if |nodes| > 0 {
      NamedInEmpty(nodes[..|nodes| - 1]);
    }
  }

  /** The traversal only appends to `ordered`. */
  lemma {:induction false} BfsExtends(w: Workflow, queue: seq<string>, visited: set<string>,
                                      ordered: seq<Node>)
    requires forall q :: q in queue ==> q in Universe(w)
    ensures var r := Bfs(w, queue, visited, ordered);
            |ordered| <= |r.0| && r.0[..|ordered|] == ordered && visited <= r.1
    decreases Universe(w) - visited, |queue|
  {
    if |queue| > 0 {
      var current := queue[0];
      if current == "" || current in visited {
        assert Bfs(w, queue, visited, ordered) == Bfs(w, queue[1..], visited, ordered);
        BfsExtends(w, queue[1..], visited, ordered);
      } else {
        var visited' := visited + {current};
        var ordered' := match FindByName(w.nodes, current)
                        case Some(n) => ordered + [n]
                        case None => ordered;
        assert Universe(w) - visited' < Universe(w) - visited by {
          assert current in Universe(w) - visited;
        }
        assert Bfs(w, queue, visited, ordered)
            == Bfs(w, queue[1..] + Successors(w, current, visited'), visited', ordered');
        BfsExtends(w, queue[1..] + Successors(w, current, visited'), visited', ordered');
        var o := Bfs(w, queue, visited, ordered).0;
        assert o[..|ordered'|][..|ordered|] == o[..|ordered|];
      }
    }
  }

  /**
   * With unique names, the first trigger comes first (when its name is not empty: an empty
   * name is skipped by `if (!current ...)`, and the trigger then ends up among the unreached).
   */
  lemma TriggerComesFirst(w: Workflow)
    requires UniqueNames(w.nodes)
    requires FindTrigger(w.nodes).Some? && FindTrigger(w.nodes).value.name != ""
    ensures |ExecutionOrder(w)| > 0 && ExecutionOrder(w)[0] == FindTrigger(w.nodes).value
  {
    var t := FindTrigger(w.nodes).value;
    TriggerInUniverse(w);
    UnreachedFollow(w);
    TraversalStartsWith(w, t);
    var r := Bfs(w, [t.name], {}, []);
    assert (r.0 + Unreached(w.nodes, r.1))[0] == r.0[0];
  }

  /** A traversal from the name of a node with a unique, non-empty name reaches that node first. */
  lemma TraversalStartsWith(w: Workflow, t: Node)
    requires UniqueNames(w.nodes) && t in w.nodes && t.name != ""
    ensures t.name in Universe(w)
    ensures var r := Bfs(w, [t.name], {}, []); |r.0| > 0 && r.0[0] == t
  {
    var k :| 0 <= k < |w.nodes| && w.nodes[k] == t;
    assert t.name in Universe(w) by {
      assert w.nodes[k].name in (set i | 0 <= i < |w.nodes| :: w.nodes[i].name);
    }
    var n := FindByName(w.nodes, t.name).value;
    var j :| 0 <= j < |w.nodes| && w.nodes[j] == n && n.name == t.name
             && forall i :: 0 <= i < j ==> w.nodes[i].name != t.name;
    assert j == k;
    var visited' := {t.name};
    assert Universe(w) - visited' < Universe(w) - {} by {
      assert t.name in Universe(w) - {};
    }
    var next := [t.name][1..] + Successors(w, t.name, visited');
    assert {} + {t.name} == visited';
    assert [] + [n] == [t];
    assert Bfs(w, [t.name], {}, []) == Bfs(w, next, visited', [t]);
    BfsExtends(w, next, visited', [t]);
    var o := Bfs(w, next, visited', [t]).0;
    assert o[..1][0] == o[0];
  }

  lemma {:induction false} BfsDistinctNames(w: Workflow, queue: seq<string>, visited: set<string>,
                                            ordered: seq<Node>)
    requires forall q :: q in queue ==> q in Universe(w)
    requires forall i :: 0 <= i < |ordered| ==> ordered[i].name in visited
    requires UniqueNames(ordered)
    ensures UniqueNames(Bfs(w, queue, visited, ordered).0)
    decreases Universe(w) - visited, |queue|
  {
    if |queue| > 0 {
      var current := queue[0];
      if current == "" || current in visited {
        assert Bfs(w, queue, visited, ordered) == Bfs(w, queue[1..], visited, ordered);
        BfsDistinctNames(w, queue[1..], visited, ordered);
      } else {
        var visited' := visited + {current};
        var ordered' := match FindByName(w.nodes, current)
                        case Some(n) => ordered + [n]
                        case None => ordered;
        assert forall i :: 0 <= i < |ordered'| ==> ordered'[i].name in visited' by {
          assert forall i :: 0 <= i < |ordered| ==> ordered'[i] == ordered[i];
        }
        assert Universe(w) - visited' < Universe(w) - visited by {
          assert current in Universe(w) - visited;
        }
        assert Bfs(w, queue, visited, ordered)
            == Bfs(w, queue[1..] + Successors(w, current, visited'), visited', ordered');
        BfsDistinctNames(w, queue[1..] + Successors(w, current, visited'), visited', ordered');
      }
    }
  }

  /** Each name is visited at most once: the nodes the traversal reaches have distinct names. */
  lemma TraversalVisitsOnce(w: Workflow)
    requires FindTrigger(w.nodes).Some?
    ensures UniqueNames(Bfs(w, [FindTrigger(w.nodes).value.name], {}, []).0)
  {
    TriggerInUniverse(w);
    BfsDistinctNames(w, [FindTrigger(w.nodes).value.name], {}, []);
  }

  /** After the reached nodes come the unreached ones, each once and in input order. */
  lemma UnreachedFollow(w: Workflow)
    requires FindTrigger(w.nodes).Some?
    ensures var r := Bfs(w, [FindTrigger(w.nodes).value.name], {}, []);
            ExecutionOrder(w) == r.0 + Unreached(w.nodes, r.1)
            && forall n :: n in Unreached(w.nodes, r.1) <==> n in w.nodes && n.name !in r.1
  {
    UnreachedAre(w.nodes, Bfs(w, [FindTrigger(w.nodes).value.name], {}, []).1);
  }

  // ---------------------------------------------------------------- node descriptions

  /**
   * The fixed phrases of `describeNode`, keyed by what follows `n8n-nodes-base.`: every type
   * with a phrase carries that prefix.
   */
  function BasePhrase(name: string): (r: Option<string>)
    ensures r.Some? ==> |r.value| > 0
  {
    match name
    case "webhook" => Some(" a webhook request is received")
    case "cron" => Some(" the scheduled time occurs")
    case "schedule" => Some(" the scheduled time occurs")
    case "scheduleTrigger" => Some(" the scheduled time occurs")
    case "manualTrigger" => Some(" manually triggered")
    case "errorTrigger" => Some(" an error occurs in another workflow")
    case "emailTrigger" => Some(" an email is received")
    case "slack" => Some(" send a message to Slack")
    case "googleSheets" => Some(" update Google Sheets")
    case "airtable" => Some(" update Airtable")
    case "notion" => Some(" update Notion")
    case "gmail" => Some(" send via Gmail")
    case "discord" => Some(" send to Discord")
    case "telegram" => Some(" send via Telegram")
    case "httpRequest" => Some(" make an HTTP request")
    case "emailSend" => Some(" send an email")
    case "if" => Some(" check a condition")
    case "switch" => Some(" route based on value")
    case "merge" => Some(" merge data streams")
    case "filter" => Some(" filter the data")
    case "wait" => Some(" wait for a delay")
    case "set" => Some(" transform the data")
    case "function" => Some(" run custom code")
    case "code" => Some(" run custom code")
    case "respondToWebhook" => Some(" respond to the request")
    case _ => None
  }

  /** The fixed phrase of `describeNode` for a node type, after the prefix. */
  function Phrase(nodeType: string): (r: Option<string>)
    ensures r.Some? ==> |r.value| > 0
  {
    if |nodeType| > |BasePrefix| && nodeType[..|BasePrefix|] == BasePrefix then BasePhrase(nodeType[|BasePrefix|..]) else None
  }

  function Prefix(isFirst: bool): string { if isFirst then "When" else "Then" }

  /** The sentence for a node with the given phrase, or else the given display name. */
  function Sentence(phrase: Option<string>, displayName: string, isFirst: bool): (r: string)
    requires phrase.Some? ==> |phrase.value| > 0
    ensures StartsWith(r, Prefix(isFirst)) && |r| > |Prefix(isFirst)|
    ensures phrase.Some? ==> r == Prefix(isFirst) + phrase.value
    ensures phrase.None? ==> r == Prefix(isFirst) + " run " + displayName
  {
    var rest := match phrase
                case Some(p) => p
                case None => " run " + displayName;
    var r := Prefix(isFirst) + rest;
    assert r[..|Prefix(isFirst)|] == Prefix(isFirst);
    r
  }

  /** `describeNode`. */
  function DescribeNode(node: Node, isFirst: bool): (r: string)
    ensures StartsWith(r, Prefix(isFirst)) && |r| > |Prefix(isFirst)|
    ensures Phrase(node.nodeType).Some? ==> r == Prefix(isFirst) + Phrase(node.nodeType).value
    ensures Phrase(node.nodeType).None?
            ==> r == Prefix(isFirst) + " run " + GetNodeMeta(node.nodeType).displayName
  {
    Sentence(Phrase(node.nodeType), GetNodeMeta(node.nodeType).displayName, isFirst)
  }

  /** The workflow trigger has no phrase of its own: it is described through its display name. */
  lemma WorkflowTriggerDescription(node: Node)
    requires node.nodeType == "n8n-nodes-base.workflowTrigger"
    ensures DescribeNode(node, true) == "When run Workflow"
  {
    assert Phrase(node.nodeType).None?;
    assert NodeMetaEntry(node.nodeType) == Some(NodeMeta("Workflow", Trigger, "Workflow"));
  }

  /** `generateStepDescriptions`. */
  method StepDescriptions(w: Workflow) returns (steps: seq<string>)
    ensures |steps| == |ExecutionOrder(w)|
    ensures forall i :: 0 <= i < |steps| ==> steps[i] == DescribeNode(ExecutionOrder(w)[i], i == 0)
    ensures |steps| > 0 ==> StartsWith(steps[0], "When")
    ensures forall i :: 0 < i < |steps| ==> StartsWith(steps[i], "Then")
  {
    var ordered := GetExecutionOrder(w);
    steps := DescribeAll(ordered, DescribeNode);
  }

  /**
   * The loop of `generateStepDescriptions`, given the describing function: one description per
   * node, the first node described as the first.
   */
  method DescribeAll(ordered: seq<Node>, describe: (Node, bool) -> string) returns (steps: seq<string>)
    ensures |steps| == |ordered|
    ensures forall i :: 0 <= i < |steps| ==> steps[i] == describe(ordered[i], i == 0)
  {
    steps := [];
    for i := 0 to |ordered|
      invariant |steps| == i
      invariant forall k :: 0 <= k < i ==> steps[k] == describe(ordered[k], k == 0)
    {
      // The guard on an empty description never fails: `DescribeNode` is never empty.
      var description := describe(ordered[i], i == 0);
      steps := steps + [description];
    }
  }

  // ---------------------------------------------------------------- credentials

  /** The credential names of `inferCredentialFromType`, keyed by what follows `n8n-nodes-base.`. */
  function BaseCredential(name: string): (r: Option<string>)
    ensures r.Some? ==> r.value != ""
  {
    match name
    case "slack" => Some("Slack API")
    case "googleSheets" => Some("Google Sheets OAuth")
    case "airtable" => Some("Airtable API")
    case "notion" => Some("Notion API")
    case "gmail" => Some("Gmail OAuth")
    case "discord" => Some("Discord Webhook")
    case "telegram" => Some("Telegram API")
    case "github" => Some("GitHub API")
    case "jira" => Some("Jira API")
    case "salesforce" => Some("Salesforce OAuth")
    case "stripe" => Some("Stripe API")
    case "twilio" => Some("Twilio API")
    case _ => None
  }

  /** `inferCredentialFromType`: every type it knows carries the `n8n-nodes-base.` prefix. */
  function InferCredentialFromType(nodeType: string): (r: Option<string>)
    ensures r.Some? ==> r.value != ""
  {
    if |nodeType| > |BasePrefix| && nodeType[..|BasePrefix|] == BasePrefix then BaseCredential(nodeType[|BasePrefix|..]) else None
  }

  /** `s.replace(/<suffix>$/, rep)`. */
  function ReplaceSuffix(s: string, suffix: string, rep: string): (r: string)
    ensures EndsWith(s, suffix) ==> r == s[..|s| - |suffix|] + rep && EndsWith(r, rep)
    ensures !EndsWith(s, suffix) ==> r == s
  {
    if EndsWith(s, suffix) then
      var r := s[..|s| - |suffix|] + rep;
      assert r[|r| - |rep|..] == rep;
      r
    else s
  }

  /** A lower-case letter directly followed by a capital at index `i`. */
  predicate Hump(s: string, i: int) {
    0 <= i && i + 1 < |s| && IsLower(s[i]) && IsUpper(s[i + 1])
  }

  /** `.replace(/([a-z])([A-Z])/g, '$1 $2')`: a space inside every lower-to-upper pair. */
  function SplitCamelCase(s: string): (r: string)
    ensures |r| >= |s| && (|s| > 0 ==> |r| > 0 && r[|r| - 1] == s[|s| - 1])
  {
    if |s| == 0 then ""
    else
      var p := s[..|s| - 1];
      var c := s[|s| - 1];
      SplitCamelCase(p) + (if |p| > 0 && IsLower(p[|p| - 1]) && IsUpper(c) then [' ', c] else [c])
  }

  /** After splitting, no lower-case letter is directly followed by a capital. */
  lemma {:induction false} SplitCamelCaseLeavesNoHump(s: string)
    ensures forall i :: !Hump(SplitCamelCase(s), i)
  {
    if |s| > 0 {
      var p := s[..|s| - 1];
      var c := s[|s| - 1];
      SplitCamelCaseLeavesNoHump(p);
      var rp := SplitCamelCase(p);
      var r := SplitCamelCase(s);
      forall i ensures !Hump(r, i) {
        if 0 <= i && i + 1 < |r| {
          if i + 1 < |rp| {
            assert r[i] == rp[i] && r[i + 1] == rp[i + 1];
            assert !Hump(rp, i);
          } else if i + 1 == |rp| {
            assert r[i] == rp[|rp| - 1] == p[|p| - 1];
          }
        }
      }
    }
  }

  /** Text without a lower-to-upper pair is left as it is. */
  lemma {:induction false} SplitCamelCaseNoHump(s: string)
    requires forall i :: !Hump(s, i)
    ensures SplitCamelCase(s) == s
  {
    if |s| > 0 {
      var p := s[..|s| - 1];
      var c := s[|s| - 1];
      HumpFreePrefix(s, p);
      SplitCamelCaseNoHump(p);
      assert SplitCamelCase(s) == SplitCamelCase(p) + [c];
      assert s == p + [c];
    }
  }

  /** Dropping the last character keeps a text free of humps, and the last two are no hump. */
  lemma HumpFreePrefix(s: string, p: string)
    requires |s| > 0 && p == s[..|s| - 1] && forall i :: !Hump(s, i)
    ensures forall i :: !Hump(p, i)
    ensures |s| > 1 ==> !(IsLower(s[|s| - 2]) && IsUpper(s[|s| - 1]))
  {
    forall i | 0 <= i && i + 1 < |p|
      ensures !Hump(p, i)
    {
      assert !Hump(s, i);
    }
    if |s| > 1 {
      assert !Hump(s, |s| - 2);
    }
  }

  /** Splitting is idempotent. */
  lemma SplitCamelCaseIdempotent(s: string)
    ensures SplitCamelCase(SplitCamelCase(s)) == SplitCamelCase(s)
  {
    SplitCamelCaseLeavesNoHump(s);
    SplitCamelCaseNoHump(SplitCamelCase(s));
  }

  /** `formatCredentialName`. */
  function FormatCredentialName(name: string): string {
    SplitCamelCase(ReplaceSuffix(ReplaceSuffix(name, "Api", " API"), "OAuth2", " OAuth"))
  }

  /** The explicit key `slackApi` is shown as `slack API`. */
  lemma SlackApiFormatted()
    ensures FormatCredentialName("slackApi") == "slack API"
  {
    assert EndsWith("slackApi", "Api");
    assert ReplaceSuffix("slackApi", "Api", " API") == "slack API";
    assert !EndsWith("slack API", "OAuth2");
    assert forall i :: !Hump("slack API", i);
    SplitCamelCaseNoHump("slack API");
  }

  /** Every key passed through `format`, in order. */
  function MapAll(keys: seq<string>, format: string -> string): seq<string> {
    if |keys| == 0 then []
    else MapAll(keys[..|keys| - 1], format) + [format(keys[|keys| - 1])]
  }

  /** The credential keys of a node, formatted. */
  function FormatAll(keys: seq<string>): seq<string> {
    MapAll(keys, FormatCredentialName)
  }

  /** The names one node contributes: its formatted credential keys, then the inferred one. */
  function NodeCandidates(n: Node): seq<string> {
    var inferred := InferCredentialFromType(n.nodeType);
    FormatAll(n.credentials) + (if inferred.Some? && inferred.value != "" then [inferred.value] else [])
  }

  function Candidates(nodes: seq<Node>): seq<string> {
    if |nodes| == 0 then []
    else Candidates(nodes[..|nodes| - 1]) + NodeCandidates(nodes[|nodes| - 1])
  }

  /** `Array.from(new Set(values))`: first occurrences, in order. */
  function Dedup(s: seq<string>): seq<string> {
    if |s| == 0 then []
    else
      var p := Dedup(s[..|s| - 1]);
      var x := s[|s| - 1];
      if x in p then p else p + [x]
  }

  /** The deduplicated sequence has the same elements and repeats none of them. */
  lemma {:induction false} DedupProperties(s: seq<string>)
    ensures forall x :: x in Dedup(s) <==> x in s
    ensures forall i, j :: 0 <= i < j < |Dedup(s)| ==> Dedup(s)[i] != Dedup(s)[j]
  {
    if |s| > 0 {
      var x := s[|s| - 1];
      DedupProperties(s[..|s| - 1]);
      assert s == s[..|s| - 1] + [x];
    }
  }

  lemma DedupSnoc(s: seq<string>, x: string)
    ensures Dedup(s + [x]) == if x in Dedup(s) then Dedup(s) else Dedup(s) + [x]
  {
    assert (s + [x])[..|s|] == s;
  }

  /** Text that repeats nothing is its own deduplication. */
  lemma {:induction false} DedupDistinct(s: seq<string>)
    requires forall i, j :: 0 <= i < j < |s| ==> s[i] != s[j]
    ensures Dedup(s) == s
  {
    if |s| > 0 {
      var p := s[..|s| - 1];
      DedupDistinct(p);
      assert s[|s| - 1] !in p;
      assert s == p + [s[|s| - 1]];
    }
  }

  function CredentialRequirements(nodes: seq<Node>): seq<string> {
    Dedup(Candidates(nodes))
  }

  /** `extractCredentialRequirements`: a `Set` filled node by node. */
  method ExtractCredentialRequirements(nodes: seq<Node>) returns (credentials: seq<string>)
    ensures credentials == CredentialRequirements(nodes)
  {
    credentials := [];
    for i := 0 to |nodes|
      invariant credentials == Dedup(Candidates(nodes[..i]))
    {
      assert nodes[..i + 1][..i] == nodes[..i];
      assert Candidates(nodes[..i + 1]) == Candidates(nodes[..i]) + NodeCandidates(nodes[i]);
      credentials := AddNodeCredentials(credentials, Candidates(nodes[..i]), nodes[i]);
    }
    assert nodes[..|nodes|] == nodes;
  }

  /** One node's turn: its credential keys, formatted, then the credential its type implies. */
  method AddNodeCredentials(credentials: seq<string>, ghost prior: seq<string>, node: Node)
    returns (r: seq<string>)
    requires credentials == Dedup(prior)
    ensures r == Dedup(prior + NodeCandidates(node))
  {
    r := AddCredentialKeys(credentials, prior, node.credentials, FormatCredentialName);
    ghost var before := prior + FormatAll(node.credentials);
    var inferred := InferCredentialFromType(node.nodeType);
    if inferred.Some? && inferred.value != "" {
      DedupSnoc(before, inferred.value);
      if inferred.value !in r {
        r := r + [inferred.value];
      }
      assert NodeCandidates(node) == FormatAll(node.credentials) + [inferred.value];
      assert prior + NodeCandidates(node) == before + [inferred.value];
    } else {
      assert NodeCandidates(node) == FormatAll(node.credentials) + [];
      assert prior + NodeCandidates(node) == before;
    }
  }

  /** `x` is one of the names node `n` contributes. */
  predicate Contributes(n: Node, x: string) {
    x in NodeCandidates(n)
  }

  /** A node contributes its formatted keys and the name inferred from its type. */
  lemma NodeCandidatesAre(n: Node, x: string)
    ensures Contributes(n, x) <==> x in FormatAll(n.credentials) || InferCredentialFromType(n.nodeType) == Some(x)
  {
  }

  /** The inner `forEach` over one node's credential keys, given the formatter. */
  method AddCredentialKeys(credentials: seq<string>, ghost prior: seq<string>, keys: seq<string>,
                           format: string -> string)
    returns (r: seq<string>)
    requires credentials == Dedup(prior)
    ensures r == Dedup(prior + MapAll(keys, format))
  {
    r := credentials;
    assert MapAll(keys[..0], format) == [];
    assert prior + [] == prior;
    for j := 0 to |keys|
      invariant r == Dedup(prior + MapAll(keys[..j], format))
    {
      assert keys[..j + 1][..j] == keys[..j];
      var name := format(keys[j]);
      DedupSnoc(prior + MapAll(keys[..j], format), name);
      assert prior + MapAll(keys[..j + 1], format) == prior + MapAll(keys[..j], format) + [name];
      if name !in r {
        r := r + [name];
      }
    }
    assert keys[..|keys|] == keys;
  }

  /** Some element of `nodes` satisfies `f`. */
  predicate AnyOf(nodes: seq<Node>, f: Node -> bool) {
    |nodes| > 0 && (AnyOf(nodes[..|nodes| - 1], f) || f(nodes[|nodes| - 1]))
  }

  lemma {:induction false} AnyOfIff(nodes: seq<Node>, f: Node -> bool)
    ensures AnyOf(nodes, f) <==> exists i :: 0 <= i < |nodes| && f(nodes[i])
  {
    if |nodes| > 0 {
      var n := |nodes| - 1;
      var p := nodes[..n];
      AnyOfIff(p, f);
      if AnyOf(nodes, f) {
        if AnyOf(p, f) {
          var i :| 0 <= i < |p| && f(p[i]);
          assert nodes[i] == p[i];
        } else {
          assert f(nodes[n]);
        }
      } else {
        forall i | 0 <= i < |nodes| ensures !f(nodes[i]) {
          if i < n {
            assert nodes[i] == p[i];
          }
        }
      }
    }
  }

  lemma {:induction false} CandidatesAre(nodes: seq<Node>, x: string)
    ensures x in Candidates(nodes) <==> AnyOf(nodes, n => Contributes(n, x))
  {
    if |nodes| > 0 {
      CandidatesAre(nodes[..|nodes| - 1], x);
    }
  }

  /**
   * The requirements are the union, without repeats, of the formatted explicit keys and the
   * names inferred from the node types.
   */
  lemma CredentialRequirementsAre(nodes: seq<Node>)
    ensures forall x :: x in CredentialRequirements(nodes) <==>
              exists i :: 0 <= i < |nodes| && Contributes(nodes[i], x)
    ensures forall i, j :: 0 <= i < j < |CredentialRequirements(nodes)| ==>
              CredentialRequirements(nodes)[i] != CredentialRequirements(nodes)[j]
  {
    DedupProperties(Candidates(nodes));
    forall x ensures x in CredentialRequirements(nodes) <==>
                     exists i :: 0 <= i < |nodes| && Contributes(nodes[i], x)
    {
      CandidatesAre(nodes, x);
      AnyOfIff(nodes, n => Contributes(n, x));
    }
  }

  /** A Slack node with the key `slackApi` contributes its key's name, then the inferred one. */
  lemma SlackNodeCandidates(n: Node)
    requires n.nodeType == "n8n-nodes-base.slack" && n.credentials == ["slackApi"]
    ensures NodeCandidates(n) == ["slack API", "Slack API"]
  {
    SlackApiFormatted();
    var keys := ["slackApi"];
    assert keys[..0] == [];
    assert FormatAll(keys) == [] + ["slack API"];
    assert n.nodeType[..|BasePrefix|] == BasePrefix && n.nodeType[|BasePrefix|..] == "slack";
    assert InferCredentialFromType(n.nodeType) == Some("Slack API");
  }

  /** Two different names stay as they are. */
  lemma DedupPair(a: string, b: string)
    requires a != b
    ensures Dedup([a, b]) == [a, b]
  {
    assert [a, b][..1] == [a] && [a][..0] == [];
    assert Dedup([a]) == [a];
    assert b !in [a];
  }

  /** A Slack node with the key `slackApi` needs both "slack API" and "Slack API". */
  lemma SlackNodeCredentials(n: Node)
    requires n.nodeType == "n8n-nodes-base.slack" && n.credentials == ["slackApi"]
    ensures CredentialRequirements([n]) == ["slack API", "Slack API"]
  {
    SlackNodeCandidates(n);
    assert [n][..0] == [];
    var both := ["slack API", "Slack API"];
    assert Candidates([n]) == [] + NodeCandidates(n);
    assert [] + both == both;
    assert Candidates([n]) == both;
    assert "slack API"[0] != "Slack API"[0];
    DedupPair("slack API", "Slack API");
    assert CredentialRequirements([n]) == Dedup(both);
  }

  // ---------------------------------------------------------------- the summary

  function Title(name: string): (r: string)
    ensures StartsWith(r, "What \"") && EndsWith(r, "\" does") && |r| == |name| + 12
    ensures r[6..|r| - 6] == name
  {
    var r := "What \"" + name + "\" does";
    assert r[..6] == "What \"";
    assert r[|r| - 6..] == "\" does";
    r
  }

  /** Different workflow names give different titles. */
  lemma TitleInjective(a: string, b: string)
    requires Title(a) == Title(b)
    ensures a == b
  {
  }

  /** `generateWorkflowSummary`. */
  method GenerateWorkflowSummary(w: Workflow) returns (s: WorkflowSummary)
    ensures s.title == Title(w.name)
    ensures |s.steps| == |ExecutionOrder(w)|
    ensures forall i :: 0 <= i < |s.steps| ==> s.steps[i] == DescribeNode(ExecutionOrder(w)[i], i == 0)
    ensures s.credentialRequirements == CredentialRequirements(w.nodes)
  {
    var steps := StepDescriptions(w);
    var credentials := ExtractCredentialRequirements(w.nodes);
    s := WorkflowSummary(Title(w.name), steps, credentials);
  }

  // ---------------------------------------------------------------- agreement with the node catalog

  /** The type names of the catalog's trigger category, after `n8n-nodes-base.`. */
  lemma BaseTriggerNames(name: string)
    ensures BaseMetaEntry(name).Some? && BaseMetaEntry(name).value.category == Trigger
            <==> name in ["webhook", "cron", "schedule", "scheduleTrigger", "manualTrigger",
                          "errorTrigger", "workflowTrigger", "emailTrigger"]
  {
  }

  /** The catalog's trigger category is exactly the summarizer's trigger set. */
  lemma TriggerCategoryIsTriggerTypes(k: string)
    ensures (NodeMetaEntry(k).Some? && NodeMetaEntry(k).value.category == Trigger) <==> k in TriggerTypes
  {
    var names := ["webhook", "cron", "schedule", "scheduleTrigger", "manualTrigger",
                  "errorTrigger", "workflowTrigger", "emailTrigger"];
    assert forall j :: 0 <= j < |names| ==> TriggerTypes[j] == BasePrefix + names[j];
    if k in TriggerTypes {
      var j :| 0 <= j < |TriggerTypes| && TriggerTypes[j] == k;
      assert k[..|BasePrefix|] == BasePrefix && k[|BasePrefix|..] == names[j];
      BaseTriggerNames(names[j]);
    } else if |k| > |BasePrefix| && k[..|BasePrefix|] == BasePrefix {
      var name := k[|BasePrefix|..];
      assert k == BasePrefix + name;
      BaseTriggerNames(name);
    }
  }
}

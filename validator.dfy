/**
 * The structural validator run before a workflow is deployed: `validateWorkflow` collects
 * errors and warnings in one pass over the nodes and one over the connections, and the
 * workflow is valid when no error was collected.
 */
module Validator {
  import opened Wrappers
  import opened Text
  import opened Graph

  /** The validator's own trigger list: six types, without `scheduleTrigger` or `emailTrigger`. */
  const TriggerNodeTypes: set<string> := {
    "n8n-nodes-base.webhook", "n8n-nodes-base.cron", "n8n-nodes-base.schedule",
    "n8n-nodes-base.manualTrigger", "n8n-nodes-base.errorTrigger", "n8n-nodes-base.workflowTrigger"
  }

  datatype ValidationResult = ValidationResult(valid: bool, errors: seq<string>, warnings: seq<string>)

  // ---------------------------------------------------------------- messages

  const NotObjectMsg := "Workflow must be an object"
  const NoNameMsg := "Workflow must have a name"
  const NoNodesMsg := "Workflow must have a nodes array"
  const EmptyNodesMsg := "Workflow must have at least one node"
  const NodeNoNameMsg := "Each node must have a name"
  const NoTriggerMsg := "Workflow has no trigger node - "
                        + "it will need to be " + "triggered manually or " + "by another workflow"

  function NoTypeMsg(name: string): string { "Node \"" + name + "\" must have a type" }
  function DuplicateMsg(name: string): string { "Duplicate node name: \"" + name + "\"" }
  function SizeMsg(n: nat): string {
    "Workflow has " + NatToString(n) + " nodes - consider " + "splitting into smaller " + "workflows (recommended: " + "5-7 nodes)"
  }
  function MissingSourceMsg(s: string): string { "Connection references non-existent " + "source node: \"" + s + "\"" }
  function MissingTargetMsg(t: string): string { "Connection references non-existent " + "target node: \"" + t + "\"" }
  function OrphanMsg(name: string): string { "Node \"" + name + "\" has no incoming connections" }

  // ---------------------------------------------------------------- the node pass

  /** `x && typeof x === 'string'`: present and non-empty. */
  predicate Present(o: Option<string>) { o.Some? && o.value != "" }

  /** A node that passes both field checks and so reaches the duplicate and trigger checks. */
  predicate WellFormed(n: RawNode) { Present(n.name) && Present(n.nodeType) }

  predicate IsTrigger(n: RawNode) { n.nodeType.Some? && n.nodeType.value in TriggerNodeTypes }

  /** `nodeNames` after the node loop: the names of the well-formed nodes. */
  function NodeNames(nodes: seq<RawNode>): set<string> {
    if |nodes| == 0 then {}
    else
      var n := nodes[|nodes| - 1];
      NodeNames(nodes[..|nodes| - 1]) + (if WellFormed(n) then {n.name.value} else {})
  }

  /** The error, if any, for one node, given the names of the well-formed nodes before it. */
  function NodeError(n: RawNode, seen: set<string>): seq<string> {
    if !Present(n.name) then [NodeNoNameMsg]
    else if !Present(n.nodeType) then [NoTypeMsg(n.name.value)]
    else if n.name.value in seen then [DuplicateMsg(n.name.value)]
    else []
  }

  function NodeErrors(nodes: seq<RawNode>): seq<string> {
    if |nodes| == 0 then []
    else
      var prefix := nodes[..|nodes| - 1];
      NodeErrors(prefix) + NodeError(nodes[|nodes| - 1], NodeNames(prefix))
  }

  /** `hasTrigger` after the node loop. */
  function HasTrigger(nodes: seq<RawNode>): bool {
    if |nodes| == 0 then false
    else
      var n := nodes[|nodes| - 1];
      HasTrigger(nodes[..|nodes| - 1]) || (WellFormed(n) && IsTrigger(n))
  }

  // ---------------------------------------------------------------- the connection pass

  function EntryErrors(e: Entry, names: set<string>): seq<string> {
    if e.Target? && e.node !in names then [MissingTargetMsg(e.node)] else []
  }

  function GroupErrors(entries: seq<Entry>, names: set<string>): seq<string> {
    if |entries| == 0 then []
    else GroupErrors(entries[..|entries| - 1], names) + EntryErrors(entries[|entries| - 1], names)
  }

  function MainErrors(groups: seq<Group>, names: set<string>): seq<string> {
    if |groups| == 0 then []
    else
      var g := groups[|groups| - 1];
      MainErrors(groups[..|groups| - 1], names) + (if g.Outputs? then GroupErrors(g.entries, names) else [])
  }

  /** The errors for one `[sourceName, targets]` entry of `connections`. */
  function SourceErrors(source: string, c: Connection, names: set<string>): seq<string> {
    (if source in names then [] else [MissingSourceMsg(source)])
    + (if c.main.Some? then MainErrors(c.main.value, names) else [])
  }

  function ConnectionErrors(conns: Connections, names: set<string>): seq<string> {
    if |conns| == 0 then []
    else
      var last := conns[|conns| - 1];
      ConnectionErrors(conns[..|conns| - 1], names) + SourceErrors(last.0, last.1, names)
  }

  // ---------------------------------------------------------------- the orphan pass

  /** The key `node.name in connections` tests: an absent name is the string "undefined". */
  function KeyName(name: Option<string>): string { name.GetOr("undefined") }

  /** Not a trigger, never a target, and a source of some connection. */
  predicate IsOrphan(n: RawNode, connected: set<string>, conns: Option<Connections>) {
    && !IsTrigger(n)
    && !(n.name.Some? && n.name.value in connected)
    && conns.Some? && HasKey(conns.value, KeyName(n.name))
  }

  function OrphanWarnings(nodes: seq<RawNode>, connected: set<string>, conns: Option<Connections>): seq<string> {
    if |nodes| == 0 then []
    else
      var n := nodes[|nodes| - 1];
      OrphanWarnings(nodes[..|nodes| - 1], connected, conns)
      + (if IsOrphan(n, connected, conns) then [OrphanMsg(KeyName(n.name))] else [])
  }

  /** `connectedNodes`: every name that is the target of some connection. */
  function Connected(conns: Option<Connections>): set<string> {
    if conns.Some? then Elems(AllTargets(conns.value)) else {}
  }

  // ---------------------------------------------------------------- the whole validator

  function NameErrors(name: Option<string>): seq<string> { if Present(name) then [] else [NoNameMsg] }

  /** What `validateWorkflow` returns for a given input. */
  function Validate(wf: RawWorkflow): ValidationResult {
    match wf
    case NotAnObject => ValidationResult(false, [NotObjectMsg], [])
    case WorkflowObject(name, nodes, conns) =>
      if nodes.None? then ValidationResult(false, NameErrors(name) + [NoNodesMsg], [])
      else if |nodes.value| == 0 then ValidationResult(false, NameErrors(name) + [EmptyNodesMsg], [])
      else ValidateNodes(name, nodes.value, conns)
  }

  /** The result once the input has a non-empty `nodes` array. */
  function ValidateNodes(name: Option<string>, nodes: seq<RawNode>, conns: Option<Connections>): ValidationResult {
    var errors := NameErrors(name) + NodeErrors(nodes) + ConnectionPassErrors(conns, NodeNames(nodes));
    ValidationResult(|errors| == 0, errors, Warnings(nodes, conns))
  }

  function ConnectionPassErrors(conns: Option<Connections>, names: set<string>): seq<string> {
    if conns.Some? then ConnectionErrors(conns.value, names) else []
  }

  function Warnings(nodes: seq<RawNode>, conns: Option<Connections>): seq<string> {
    (if HasTrigger(nodes) then [] else [NoTriggerMsg])
    + (if |nodes| > 7 then [SizeMsg(|nodes|)] else [])
    + OrphanWarnings(nodes, Connected(conns), conns)
  }

  /** A named workflow whose nodes and connections raise no error is valid; only warnings remain. */
  lemma ErrorFreeIsValid(wf: RawWorkflow)
    requires wf.WorkflowObject? && Present(wf.name) && wf.nodes.Some? && |wf.nodes.value| > 0
    requires wf.connections.Some?
    requires NodeErrors(wf.nodes.value) == [] && ConnectionErrors(wf.connections.value, NodeNames(wf.nodes.value)) == []
    ensures Validate(wf).valid && Validate(wf).errors == []
    ensures Validate(wf).warnings == Warnings(wf.nodes.value, wf.connections)
  {
    ErrorFreeNodes(wf.name.value, wf.nodes.value, wf.connections.value);
  }

  lemma ErrorFreeNodes(name: string, nodes: seq<RawNode>, conns: Connections)
    requires name != ""
    requires NodeErrors(nodes) == [] && ConnectionErrors(conns, NodeNames(nodes)) == []
    ensures var r := ValidateNodes(Some(name), nodes, Some(conns)); r.valid && r.errors == []
  {
    assert NameErrors(Some(name)) + NodeErrors(nodes) + ConnectionPassErrors(Some(conns), NodeNames(nodes)) == [] + [] + [];
  }

  /** `validateWorkflow`, pushing onto `errors` and `warnings` in the source's order. */
  method ValidateWorkflow(wf: RawWorkflow) returns (r: ValidationResult)
    ensures r == Validate(wf)
    ensures r.valid <==> |r.errors| == 0
    ensures wf.NotAnObject? ==> r.errors == ["Workflow must be an object"] && r.warnings == []
    ensures wf.WorkflowObject? && (wf.nodes.None? || |wf.nodes.value| == 0) ==>
              !r.valid && r.warnings == [] && |r.errors| == |NameErrors(wf.name)| + 1
  {
    if wf.NotAnObject? {
      return ValidationResult(false, [NotObjectMsg], []);
    }
    var errors: seq<string> := [];
    if !Present(wf.name) {
      errors := errors + [NoNameMsg];
    }
    if wf.nodes.None? {
      errors := errors + [NoNodesMsg];
      return ValidationResult(false, errors, []);
    }
    var nodes := wf.nodes.value;
    if |nodes| == 0 {
      errors := errors + [EmptyNodesMsg];
      return ValidationResult(false, errors, []);
    }
    assert errors == NameErrors(wf.name);
    var nodeErrors, nodeNames, hasTrigger := CheckNodes(nodes);
    errors := errors + nodeErrors;
    var warnings := CheckWarnings(nodes, hasTrigger, wf.connections);
    var connectionErrors := [];
    if wf.connections.Some? {
      connectionErrors := CheckConnections(wf.connections.value, nodeNames);
    }
    assert connectionErrors == ConnectionPassErrors(wf.connections, NodeNames(nodes));
    errors := errors + connectionErrors;
    r := ValidationResult(|errors| == 0, errors, warnings);
    assert r == ValidateNodes(wf.name, nodes, wf.connections);
  }

  /** The warnings: no trigger, too many nodes, then the orphans. */
  method CheckWarnings(nodes: seq<RawNode>, hasTrigger: bool, conns: Option<Connections>) returns (warnings: seq<string>)
    requires hasTrigger == HasTrigger(nodes)
    ensures warnings == Warnings(nodes, conns)
  {
    warnings := [];
    if !hasTrigger {
      warnings := warnings + [NoTriggerMsg];
    }
    if |nodes| > 7 {
      warnings := warnings + [SizeMsg(|nodes|)];
    }
    var connectedNodes: set<string> := {};
    if conns.Some? {
      connectedNodes := CollectConnected(conns.value);
    }
    var orphans := CheckOrphans(nodes, connectedNodes, conns);
    warnings := warnings + orphans;
  }

  /** The loop over the nodes: field checks, duplicate names, and whether a trigger exists. */
  method CheckNodes(nodes: seq<RawNode>) returns (errors: seq<string>, nodeNames: set<string>, hasTrigger: bool)
    ensures errors == NodeErrors(nodes) && nodeNames == NodeNames(nodes) && hasTrigger == HasTrigger(nodes)
  {
    errors, nodeNames, hasTrigger := [], {}, false;
    for i := 0 to |nodes|
      invariant errors == NodeErrors(nodes[..i])
      invariant nodeNames == NodeNames(nodes[..i])
      invariant hasTrigger == HasTrigger(nodes[..i])
    {
      var node := nodes[i];
      assert nodes[..i + 1][..i] == nodes[..i];
      if !Present(node.name) {
        errors := errors + [NodeNoNameMsg];
        continue;
      }
      if !Present(node.nodeType) {
        errors := errors + [NoTypeMsg(node.name.value)];
        continue;
      }
      if node.name.value in nodeNames {
        errors := errors + [DuplicateMsg(node.name.value)];
      }
      nodeNames := nodeNames + {node.name.value};
      if node.nodeType.value in TriggerNodeTypes {
        hasTrigger := true;
      }
    }
    assert nodes[..|nodes|] == nodes;
  }

  /** The nested loops over `connections` that report sources and targets not in `nodeNames`. */
  method CheckConnections(conns: Connections, nodeNames: set<string>) returns (errors: seq<string>)
    ensures errors == ConnectionErrors(conns, nodeNames)
  {
    errors := [];
    for k := 0 to |conns|
      invariant errors == ConnectionErrors(conns[..k], nodeNames)
    {
      assert conns[..k + 1][..k] == conns[..k];
      var (sourceName, targets) := conns[k];
      if sourceName !in nodeNames {
        errors := errors + [MissingSourceMsg(sourceName)];
      }
      if targets.main.Some? {
        var more := CheckMain(targets.main.value, nodeNames);
        errors := errors + more;
      }
    }
    assert conns[..|conns|] == conns;
  }

  method CheckMain(main: seq<Group>, nodeNames: set<string>) returns (errors: seq<string>)
    ensures errors == MainErrors(main, nodeNames)
  {
    errors := [];
    for g := 0 to |main|
      invariant errors == MainErrors(main[..g], nodeNames)
    {
      assert main[..g + 1][..g] == main[..g];
      if main[g].Outputs? {
        var outputs := main[g].entries;
        ghost var before := errors;
        for e := 0 to |outputs|
          invariant errors == before + GroupErrors(outputs[..e], nodeNames)
        {
          assert outputs[..e + 1][..e] == outputs[..e];
          var conn := outputs[e];
          if conn.Target? && conn.node !in nodeNames {
            errors := errors + [MissingTargetMsg(conn.node)];
          }
        }
        assert outputs[..|outputs|] == outputs;
      }
    }
    assert main[..|main|] == main;
  }

  /** The nested loops that fill `connectedNodes`. */
  method CollectConnected(conns: Connections) returns (connectedNodes: set<string>)
    ensures connectedNodes == Elems(AllTargets(conns))
  {
    connectedNodes := {};
    for k := 0 to |conns|
      invariant connectedNodes == Elems(AllTargets(conns[..k]))
    {
      assert conns[..k + 1][..k] == conns[..k];
      var targets := conns[k].1;
      ghost var before := connectedNodes;
      if targets.main.Some? {
        var main := targets.main.value;
        for g := 0 to |main|
          invariant connectedNodes == before + Elems(MainTargets(main[..g]))
        {
          assert main[..g + 1][..g] == main[..g];
          if main[g].Outputs? {
            var outputs := main[g].entries;
            ghost var inner := connectedNodes;
            for e := 0 to |outputs|
              invariant connectedNodes == inner + Elems(GroupTargets(outputs[..e]))
            {
              assert outputs[..e + 1][..e] == outputs[..e];
              if outputs[e].Target? {
                connectedNodes := connectedNodes + {outputs[e].node};
              }
            }
            assert outputs[..|outputs|] == outputs;
          }
        }
        assert main[..|main|] == main;
      }
    }
    assert conns[..|conns|] == conns;
  }

  /** The final loop over the nodes that warns about orphans. */
  method CheckOrphans(nodes: seq<RawNode>, connectedNodes: set<string>, conns: Option<Connections>)
    returns (warnings: seq<string>)
    ensures warnings == OrphanWarnings(nodes, connectedNodes, conns)
  {
    warnings := [];
    for i := 0 to |nodes|
      invariant warnings == OrphanWarnings(nodes[..i], connectedNodes, conns)
    {
      assert nodes[..i + 1][..i] == nodes[..i];
      var node := nodes[i];
      var isTrigger := node.nodeType.Some? && node.nodeType.value in TriggerNodeTypes;
      var isConnected := node.name.Some? && node.name.value in connectedNodes;
      var hasOutgoingConnections := conns.Some? && HasKey(conns.value, KeyName(node.name));
      if !isTrigger && !isConnected && hasOutgoingConnections {
        warnings := warnings + [OrphanMsg(KeyName(node.name))];
      }
    }
    assert nodes[..|nodes|] == nodes;
  }

  // ---------------------------------------------------------------- telling messages apart

  lemma QuotedInjective(pre: string, a: string, b: string, post: string)
    requires pre + a + post == pre + b + post
    ensures a == b
  {
    var sa, sb := pre + a + post, pre + b + post;
    assert |a| == |b|;
    assert a == sa[|pre|..|pre| + |a|];
    assert b == sb[|pre|..|pre| + |b|];
  }

  lemma NodeMessagesDistinct(a: string, b: string)
    ensures DuplicateMsg(a) == DuplicateMsg(b) ==> a == b
    ensures DuplicateMsg(a) != NoTypeMsg(b) && DuplicateMsg(a) != NodeNoNameMsg && DuplicateMsg(a) != NoNameMsg
  {
    if DuplicateMsg(a) == DuplicateMsg(b) { QuotedInjective("Duplicate node name: \"", a, b, "\""); }
    assert DuplicateMsg(a)[0] == 'D' && NoTypeMsg(b)[0] == 'N';
  }

  lemma ConnectionMessagesDistinct(a: string, b: string)
    ensures MissingTargetMsg(a) == MissingTargetMsg(b) ==> a == b
    ensures MissingSourceMsg(a) == MissingSourceMsg(b) ==> a == b
    ensures MissingSourceMsg(a) != MissingTargetMsg(b)
    ensures MissingTargetMsg(a) !in [NoNameMsg, NodeNoNameMsg, NoTypeMsg(b), DuplicateMsg(b)]
    ensures MissingSourceMsg(a) !in [NoNameMsg, NodeNoNameMsg, NoTypeMsg(b), DuplicateMsg(b)]
  {
    if MissingTargetMsg(a) == MissingTargetMsg(b) {
      QuotedInjective("Connection references non-existent " + "target node: \"", a, b, "\"");
    }
    if MissingSourceMsg(a) == MissingSourceMsg(b) {
      QuotedInjective("Connection references non-existent " + "source node: \"", a, b, "\"");
    }
    assert MissingSourceMsg(a)[35] == 's' && MissingTargetMsg(b)[35] == 't';
    assert MissingSourceMsg(a)[0] == 'C' && MissingTargetMsg(a)[0] == 'C';
    assert NoTypeMsg(b)[0] == 'N' && DuplicateMsg(b)[0] == 'D';
  }

  lemma WarningMessagesDistinct(a: string, b: string, n: nat)
    ensures OrphanMsg(a) == OrphanMsg(b) ==> a == b
    ensures OrphanMsg(a) != NoTriggerMsg && OrphanMsg(a) != SizeMsg(n) && SizeMsg(n) != NoTriggerMsg
  {
    if OrphanMsg(a) == OrphanMsg(b) { QuotedInjective("Node \"", a, b, "\" has no incoming connections"); }
    assert OrphanMsg(a)[0] == 'N' && SizeMsg(n)[0] == 'W' && NoTriggerMsg[0] == 'W';
    assert SizeMsg(n)[13] == NatToString(n)[0];
    assert NoTriggerMsg[13] == 'n';
  }

  // ---------------------------------------------------------------- properties of the node pass

  /** `nodeNames` holds exactly the names of the nodes that have both a name and a type. */
  lemma {:induction false} NodeNamesAre(nodes: seq<RawNode>, x: string)
    ensures x in NodeNames(nodes) <==>
            exists i :: 0 <= i < |nodes| && WellFormed(nodes[i]) && nodes[i].name.value == x
  {
    if |nodes| > 0 {
      var prefix := nodes[..|nodes| - 1];
      NodeNamesAre(prefix, x);
      assert forall i :: 0 <= i < |prefix| ==> prefix[i] == nodes[i];
    }
  }

  /** `hasTrigger` holds exactly when some node with a name and a type has a trigger type. */
  lemma {:induction false} HasTriggerIff(nodes: seq<RawNode>)
    ensures HasTrigger(nodes) <==> exists i :: 0 <= i < |nodes| && WellFormed(nodes[i]) && IsTrigger(nodes[i])
  {
    if |nodes| > 0 {
      var prefix := nodes[..|nodes| - 1];
      HasTriggerIff(prefix);
      assert forall i :: 0 <= i < |prefix| ==> prefix[i] == nodes[i];
    }
  }

  /** How many nodes with both a name and a type carry the name `x`. */
  function NameCount(nodes: seq<RawNode>, x: string): nat {
    if |nodes| == 0 then 0
    else
      var n := nodes[|nodes| - 1];
      NameCount(nodes[..|nodes| - 1], x) + (if WellFormed(n) && n.name.value == x then 1 else 0)
  }

  lemma {:induction false} NameCountPositive(nodes: seq<RawNode>, x: string)
    ensures x in NodeNames(nodes) <==> NameCount(nodes, x) > 0
  {
    if |nodes| > 0 { NameCountPositive(nodes[..|nodes| - 1], x); }
  }

  /** A name borne by k well-formed nodes draws k - 1 duplicate errors: all but the first. */
  lemma {:induction false} DuplicateCount(nodes: seq<RawNode>, x: string)
    ensures multiset(NodeErrors(nodes))[DuplicateMsg(x)] == if NameCount(nodes, x) == 0 then 0 else NameCount(nodes, x) - 1
  {
    if |nodes| > 0 {
      var prefix, n := nodes[..|nodes| - 1], nodes[|nodes| - 1];
      DuplicateCount(prefix, x);
      NameCountPositive(prefix, x);
      NodeErrorDuplicates(n, NodeNames(prefix), x);
      assert NodeErrors(nodes) == NodeErrors(prefix) + NodeError(n, NodeNames(prefix));
    }
  }

  lemma NodeErrorDuplicates(n: RawNode, seen: set<string>, x: string)
    ensures multiset(NodeError(n, seen))[DuplicateMsg(x)] ==
            if WellFormed(n) && n.name.value == x && x in seen then 1 else 0
  {
    NodeMessagesDistinct(x, x);
    if n.name.Some? {
      NodeMessagesDistinct(x, n.name.value);
      NodeMessagesDistinct(n.name.value, x);
    }
  }

  /**
   * A node with a name and no type is reported, and unless a well-formed node shares its name,
   * the name is not in `nodeNames`, so every connection that targets it is reported too.
   */
  lemma UntypedNodeIsUnknown(wf: RawWorkflow, i: nat)
    requires wf.WorkflowObject? && wf.nodes.Some? && i < |wf.nodes.value|
    requires Present(wf.nodes.value[i].name) && !Present(wf.nodes.value[i].nodeType)
    requires forall j :: 0 <= j < |wf.nodes.value| && WellFormed(wf.nodes.value[j]) ==>
               wf.nodes.value[j].name != wf.nodes.value[i].name
    ensures NoTypeMsg(wf.nodes.value[i].name.value) in Validate(wf).errors
    ensures wf.nodes.value[i].name.value !in NodeNames(wf.nodes.value)
    ensures wf.connections.Some? && wf.nodes.value[i].name.value in AllTargets(wf.connections.value) ==>
              MissingTargetMsg(wf.nodes.value[i].name.value) in Validate(wf).errors
  {
    var nodes := wf.nodes.value;
    var x := nodes[i].name.value;
    NodeNamesAre(nodes, x);
    NodeErrorAt(nodes, i);
    if wf.connections.Some? && x in AllTargets(wf.connections.value) {
      ConnectionErrorCounts(wf.connections.value, NodeNames(nodes), x);
    }
  }

  /** The error for node i is among the node errors. */
  lemma {:induction false} NodeErrorAt(nodes: seq<RawNode>, i: nat)
    requires i < |nodes|
    ensures forall m :: m in NodeError(nodes[i], NodeNames(nodes[..i])) ==> m in NodeErrors(nodes)
  {
    if i < |nodes| - 1 {
      NodeErrorAt(nodes[..|nodes| - 1], i);
      assert nodes[..|nodes| - 1][..i] == nodes[..i];
    } else {
      assert nodes[..|nodes| - 1] == nodes[..i];
    }
  }

  // ---------------------------------------------------------------- properties of the connection pass

  lemma {:induction false} GroupErrorCount(entries: seq<Entry>, names: set<string>, x: string)
    ensures multiset(GroupErrors(entries, names))[MissingTargetMsg(x)] ==
            if x in names then 0 else multiset(GroupTargets(entries))[x]
    ensures multiset(GroupErrors(entries, names))[MissingSourceMsg(x)] == 0
  {
    if |entries| > 0 {
      var e := entries[|entries| - 1];
      GroupErrorCount(entries[..|entries| - 1], names, x);
      if e.Target? { ConnectionMessagesDistinct(x, e.node); ConnectionMessagesDistinct(e.node, x); }
    }
  }

  lemma {:induction false} MainErrorCount(groups: seq<Group>, names: set<string>, x: string)
    ensures multiset(MainErrors(groups, names))[MissingTargetMsg(x)] ==
            if x in names then 0 else multiset(MainTargets(groups))[x]
    ensures multiset(MainErrors(groups, names))[MissingSourceMsg(x)] == 0
  {
    if |groups| > 0 {
      var g := groups[|groups| - 1];
      MainErrorCount(groups[..|groups| - 1], names, x);
      if g.Outputs? { GroupErrorCount(g.entries, names, x); }
    }
  }

  /**
   * Exactly one error per source key missing from `names` and one per target occurrence missing
   * from `names`, over every output array and every parallel target.
   */
  lemma {:induction false} ConnectionErrorCounts(conns: Connections, names: set<string>, x: string)
    ensures multiset(ConnectionErrors(conns, names))[MissingTargetMsg(x)] ==
            if x in names then 0 else multiset(AllTargets(conns))[x]
    ensures multiset(ConnectionErrors(conns, names))[MissingSourceMsg(x)] ==
            if x in names then 0 else multiset(Keys(conns))[x]
  {
    if |conns| > 0 {
      var prefix, last := conns[..|conns| - 1], conns[|conns| - 1];
      ConnectionErrorCounts(prefix, names, x);
      if last.1.main.Some? { MainErrorCount(last.1.main.value, names, x); }
      ConnectionMessagesDistinct(x, last.0);
      ConnectionMessagesDistinct(last.0, x);
      assert Keys(conns) == Keys(prefix) + [last.0];
    }
  }

  /** The node pass never produces a dangling-reference message. */
  lemma {:induction false} NodeErrorsHaveNoReferences(nodes: seq<RawNode>, x: string)
    ensures MissingTargetMsg(x) !in NodeErrors(nodes) && MissingSourceMsg(x) !in NodeErrors(nodes)
  {
    if |nodes| > 0 {
      NodeErrorsHaveNoReferences(nodes[..|nodes| - 1], x);
      var n := nodes[|nodes| - 1];
      if n.name.Some? { ConnectionMessagesDistinct(x, n.name.value); }
    }
  }

  /** The counts of dangling-reference errors in the validator's whole result. */
  lemma DanglingReferenceCounts(wf: RawWorkflow, x: string)
    requires wf.WorkflowObject? && wf.nodes.Some? && |wf.nodes.value| > 0 && wf.connections.Some?
    ensures var names := NodeNames(wf.nodes.value);
            && multiset(Validate(wf).errors)[MissingTargetMsg(x)] ==
                 (if x in names then 0 else multiset(AllTargets(wf.connections.value))[x])
            && multiset(Validate(wf).errors)[MissingSourceMsg(x)] ==
                 (if x in names then 0 else multiset(Keys(wf.connections.value))[x])
  {
    var nodes := wf.nodes.value;
    var names := NodeNames(nodes);
    ConnectionErrorCounts(wf.connections.value, names, x);
    NodeErrorsHaveNoReferences(nodes, x);
    ConnectionMessagesDistinct(x, x);
    var before := NameErrors(wf.name) + NodeErrors(nodes);
    var errors := before + ConnectionErrors(wf.connections.value, names);
    assert Validate(wf).errors == errors;
    assert multiset(before)[MissingTargetMsg(x)] == 0 && multiset(before)[MissingSourceMsg(x)] == 0 by {
      assert multiset(NodeErrors(nodes))[MissingTargetMsg(x)] == 0;
      assert multiset(NodeErrors(nodes))[MissingSourceMsg(x)] == 0;
      assert MissingTargetMsg(x) != NoNameMsg && MissingSourceMsg(x) != NoNameMsg by {
        assert MissingTargetMsg(x)[0] != NoNameMsg[0];
        assert MissingSourceMsg(x)[0] != NoNameMsg[0];
      }
    }
    assert multiset(errors) == multiset(before) + multiset(ConnectionErrors(wf.connections.value, names));
  }

  // ---------------------------------------------------------------- properties of the warnings

  lemma {:induction false} OrphanWarningsIff(nodes: seq<RawNode>, connected: set<string>, conns: Option<Connections>, x: string)
    ensures OrphanMsg(x) in OrphanWarnings(nodes, connected, conns) <==>
            exists i :: 0 <= i < |nodes| && KeyName(nodes[i].name) == x && IsOrphan(nodes[i], connected, conns)
  {
    if |nodes| > 0 {
      var prefix, n := nodes[..|nodes| - 1], nodes[|nodes| - 1];
      OrphanWarningsIff(prefix, connected, conns, x);
      assert forall i :: 0 <= i < |prefix| ==> prefix[i] == nodes[i];
      WarningMessagesDistinct(x, KeyName(n.name), 0);
    }
  }

  /** Every orphan warning starts with "Node", unlike the two other warnings. */
  lemma {:induction false} OrphanWarningsStartWithN(nodes: seq<RawNode>, connected: set<string>, conns: Option<Connections>)
    ensures forall w :: w in OrphanWarnings(nodes, connected, conns) ==> |w| > 0 && w[0] == 'N'
  {
    if |nodes| > 0 {
      OrphanWarningsStartWithN(nodes[..|nodes| - 1], connected, conns);
      var n := nodes[|nodes| - 1];
      assert OrphanMsg(KeyName(n.name))[0] == 'N';
    }
  }

  /**
   * On a workflow with a non-empty `nodes` array, the no-trigger warning appears exactly when no
   * node with a name and a type has one of the six trigger types.
   */
  lemma NoTriggerWarningIff(wf: RawWorkflow)
    requires wf.WorkflowObject? && wf.nodes.Some? && |wf.nodes.value| > 0
    ensures NoTriggerMsg in Validate(wf).warnings <==>
            !exists i :: 0 <= i < |wf.nodes.value| && WellFormed(wf.nodes.value[i]) && IsTrigger(wf.nodes.value[i])
  {
    var nodes := wf.nodes.value;
    var orphans := OrphanWarnings(nodes, Connected(wf.connections), wf.connections);
    assert Validate(wf).warnings == Warnings(nodes, wf.connections);
    HasTriggerIff(nodes);
    OrphanWarningsStartWithN(nodes, Connected(wf.connections), wf.connections);
    assert NoTriggerMsg[0] == 'W' && NoTriggerMsg !in orphans;
    WarningMessagesDistinct("", "", |nodes|);
  }

  /** The size warning appears exactly when there are more than seven nodes. */
  lemma SizeWarningIff(wf: RawWorkflow)
    requires wf.WorkflowObject? && wf.nodes.Some? && |wf.nodes.value| > 0
    ensures SizeMsg(|wf.nodes.value|) in Validate(wf).warnings <==> |wf.nodes.value| > 7
  {
    var nodes := wf.nodes.value;
    var orphans := OrphanWarnings(nodes, Connected(wf.connections), wf.connections);
    assert Validate(wf).warnings == Warnings(nodes, wf.connections);
    OrphanWarningsStartWithN(nodes, Connected(wf.connections), wf.connections);
    assert SizeMsg(|nodes|)[0] == 'W' && SizeMsg(|nodes|) !in orphans;
    WarningMessagesDistinct("", "", |nodes|);
  }

  /**
   * An orphan warning for `x` appears exactly when some node keyed `x` is not a trigger, is never
   * the target of a connection, and is a key of `connections`; so a node with no connections at
   * all is not flagged.
   */
  lemma OrphanWarningIff(wf: RawWorkflow, x: string)
    requires wf.WorkflowObject? && wf.nodes.Some? && |wf.nodes.value| > 0
    ensures OrphanMsg(x) in Validate(wf).warnings <==>
            exists i :: 0 <= i < |wf.nodes.value| && KeyName(wf.nodes.value[i].name) == x
                        && !IsTrigger(wf.nodes.value[i])
                        && !(wf.nodes.value[i].name.Some? && wf.nodes.value[i].name.value in Connected(wf.connections))
                        && wf.connections.Some? && HasKey(wf.connections.value, x)
  {
    var nodes := wf.nodes.value;
    assert Validate(wf).warnings == Warnings(nodes, wf.connections);
    OrphanWarningsIff(nodes, Connected(wf.connections), wf.connections, x);
    WarningMessagesDistinct(x, x, |nodes|);
  }

  // ---------------------------------------------------------------- clean workflows

  /** Nodes that all have a name and a type, with pairwise distinct names, raise no node error. */
  lemma {:induction false} DistinctNodesNoErrors(nodes: seq<RawNode>)
    requires forall i :: 0 <= i < |nodes| ==> WellFormed(nodes[i])
    requires forall i, j :: 0 <= i < j < |nodes| ==> nodes[i].name != nodes[j].name
    ensures NodeErrors(nodes) == []
  {
    if |nodes| > 0 {
      var prefix, n := nodes[..|nodes| - 1], nodes[|nodes| - 1];
      DistinctNodesNoErrors(prefix);
      NodeNamesAre(prefix, n.name.value);
    }
  }

  /** The name of a node with a name and a type is in `nodeNames`. */
  lemma WellFormedNameKnown(nodes: seq<RawNode>, i: nat)
    requires i < |nodes| && WellFormed(nodes[i])
    ensures nodes[i].name.value in NodeNames(nodes)
  {
    NodeNamesAre(nodes, nodes[i].name.value);
  }

  lemma {:induction false} GroupErrorsResolved(entries: seq<Entry>, names: set<string>)
    requires forall x :: x in GroupTargets(entries) ==> x in names
    ensures GroupErrors(entries, names) == []
  {
    if |entries| > 0 {
      GroupErrorsResolved(entries[..|entries| - 1], names);
    }
  }

  lemma {:induction false} MainErrorsResolved(groups: seq<Group>, names: set<string>)
    requires forall x :: x in MainTargets(groups) ==> x in names
    ensures MainErrors(groups, names) == []
  {
    if |groups| > 0 {
      var g := groups[|groups| - 1];
      MainErrorsResolved(groups[..|groups| - 1], names);
      if g.Outputs? {
        GroupErrorsResolved(g.entries, names);
      }
    }
  }

  /** Connections whose sources and targets are all known node names raise no connection error. */
  lemma {:induction false} ResolvedConnectionsNoErrors(conns: Connections, names: set<string>)
    requires forall i :: 0 <= i < |conns| ==> conns[i].0 in names
    requires forall x :: x in AllTargets(conns) ==> x in names
    ensures ConnectionErrors(conns, names) == []
  {
    if |conns| > 0 {
      var prefix, last := conns[..|conns| - 1], conns[|conns| - 1];
      ResolvedConnectionsNoErrors(prefix, names);
      if last.1.main.Some? {
        MainErrorsResolved(last.1.main.value, names);
      }
    }
  }

  /** Only the first node is an orphan, so its warning is the only one. */
  lemma {:induction false} OnlyFirstOrphan(nodes: seq<RawNode>, connected: set<string>, conns: Option<Connections>)
    requires |nodes| > 0 && IsOrphan(nodes[0], connected, conns)
    requires forall i :: 1 <= i < |nodes| ==> !IsOrphan(nodes[i], connected, conns)
    ensures OrphanWarnings(nodes, connected, conns) == [OrphanMsg(KeyName(nodes[0].name))]
  {
    if |nodes| == 1 {
      assert nodes[..0] == [];
    } else {
      var prefix := nodes[..|nodes| - 1];
      assert forall i :: 0 <= i < |prefix| ==> prefix[i] == nodes[i];
      OnlyFirstOrphan(prefix, connected, conns);
    }
  }

  /** No node is an orphan, so there is no orphan warning. */
  lemma {:induction false} NoOrphanWarnings(nodes: seq<RawNode>, connected: set<string>, conns: Option<Connections>)
    requires forall i :: 0 <= i < |nodes| ==> !IsOrphan(nodes[i], connected, conns)
    ensures OrphanWarnings(nodes, connected, conns) == []
  {
    if |nodes| > 0 {
      NoOrphanWarnings(nodes[..|nodes| - 1], connected, conns);
    }
  }
}

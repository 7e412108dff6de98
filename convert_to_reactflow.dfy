/**
 * Conversion of an n8n workflow into the nodes and edges of the visual graph editor: one flow
 * node per workflow node, one edge per target entry of every `main` output, labelled "true" or
 * "false" when its source is an IF or a Switch node, and a short digest of each node's
 * configuration for its tooltip.
 */
module ConvertToReactFlow {
  import opened Wrappers
  import opened Text
  import opened Graph
  import opened NodeIcons
  import Summarize

  datatype NodeData = NodeData(nodeLabel: string, nodeType: string, category: Category, icon: string,
                               configSummary: string)

  datatype FlowNode = FlowNode(id: string, data: NodeData, position: Point)

  datatype EdgeData = EdgeData(isConditional: bool, edgeLabel: Option<string>)

  datatype FlowEdge = FlowEdge(id: string, source: string, target: string,
                               sourceHandle: string, targetHandle: string, data: EdgeData)

  // ---------------------------------------------------------------- conditional nodes

  /** `CONDITIONAL_TYPES`. */
  predicate IsConditionalType(t: string) {
    t == "n8n-nodes-base.if" || t == "n8n-nodes-base.switch"
  }

  /** `isConditionalNode`. */
  function IsConditionalNode(name: string, nodes: seq<Node>): bool {
    var n := Summarize.FindByName(nodes, name);
    n.Some? && IsConditionalType(n.value.nodeType)
  }

  /** A source is conditional exactly when the first node carrying its name is an IF or a Switch. */
  lemma IsConditionalNodeIff(name: string, nodes: seq<Node>)
    ensures IsConditionalNode(name, nodes)
            <==> exists i :: 0 <= i < |nodes| && nodes[i].name == name
                             && IsConditionalType(nodes[i].nodeType)
                             && forall j :: 0 <= j < i ==> nodes[j].name != name
  {
    var n := Summarize.FindByName(nodes, name);
    if n.Some? {
      var k :| 0 <= k < |nodes| && nodes[k] == n.value && n.value.name == name
               && forall j :: 0 <= j < k ==> nodes[j].name != name;
      assert forall i :: (0 <= i < |nodes| && nodes[i].name == name
                          && forall j :: 0 <= j < i ==> nodes[j].name != name) ==> i == k;
    }
  }

  /** `getOutputLabel`: the first output of a conditional node is its "true" branch. */
  function OutputLabel(outputIndex: nat): (r: string)
    ensures r == "true" <==> outputIndex == 0
    ensures r == "true" || r == "false"
  {
    if outputIndex == 0 then "true" else "false"
  }

  // ---------------------------------------------------------------- edges

  function EdgeId(source: string, target: string, outputIndex: nat, targetIndex: nat): string {
    source + "-" + target + "-" + NatToString(outputIndex) + "-" + NatToString(targetIndex)
  }

  /** `${target.index}`: the number, or "undefined" when the entry has no `index`. */
  function IndexText(index: Option<int>): (r: string)
    ensures index.None? <==> r == "undefined"
    ensures index.Some? ==> SignedValue(r) == index.value
  {
    if index.Some? then IntToString(index.value) else "undefined"
  }

  /** The edge for entry `targetIndex` of output `outputIndex` of `source`. */
  function MakeEdge(source: string, outputIndex: nat, targetIndex: nat, target: Entry,
                    conditional: bool): FlowEdge
    requires target.Target?
  {
    FlowEdge(EdgeId(source, target.node, outputIndex, targetIndex), source, target.node,
             "output-" + NatToString(outputIndex), "input-" + IndexText(target.index),
             EdgeData(conditional, if conditional then Some(OutputLabel(outputIndex)) else None))
  }

  /** The edges of one output array, in entry order; entries without a `node` are skipped. */
  function EntryEdges(source: string, outputIndex: nat, entries: seq<Entry>, conditional: bool): seq<FlowEdge> {
    if |entries| == 0 then []
    else
      var t := |entries| - 1;
      EntryEdges(source, outputIndex, entries[..t], conditional)
        + (if entries[t].Target? then [MakeEdge(source, outputIndex, t, entries[t], conditional)] else [])
  }

  /** The edges of every array output of `main`; an output that is not an array is skipped. */
  function GroupEdges(source: string, groups: seq<Group>, conditional: bool): seq<FlowEdge> {
    if |groups| == 0 then []
    else
      var o := |groups| - 1;
      GroupEdges(source, groups[..o], conditional)
        + (if groups[o].Outputs? then EntryEdges(source, o, groups[o].entries, conditional) else [])
  }

  /** The edges of one source; whether it is conditional depends on its name only. */
  function SourceEdges(source: string, c: Connection, nodes: seq<Node>): seq<FlowEdge> {
    if c.main.Some? then GroupEdges(source, c.main.value, IsConditionalNode(source, nodes)) else []
  }

  /** What `convertEdges` returns: the edges of every source, in `Object.entries` order. */
  function Edges(conns: Connections, nodes: seq<Node>): seq<FlowEdge> {
    if |conns| == 0 then []
    else
      var k := |conns| - 1;
      Edges(conns[..k], nodes) + SourceEdges(conns[k].0, conns[k].1, nodes)
  }

  /** The targets of a list of edges. */
  function EdgeTargets(edges: seq<FlowEdge>): seq<string> {
    seq(|edges|, i requires 0 <= i < |edges| => edges[i].target)
  }

  lemma EdgeTargetsAppend(a: seq<FlowEdge>, b: seq<FlowEdge>)
    ensures EdgeTargets(a + b) == EdgeTargets(a) + EdgeTargets(b)
  {
  }

  lemma {:induction false} EntryEdgesFollowTargets(source: string, o: nat, entries: seq<Entry>, conditional: bool)
    ensures EdgeTargets(EntryEdges(source, o, entries, conditional)) == GroupTargets(entries)
  {
    if |entries| > 0 {
      var t := |entries| - 1;
      EntryEdgesFollowTargets(source, o, entries[..t], conditional);
      EdgeTargetsAppend(EntryEdges(source, o, entries[..t], conditional),
                        if entries[t].Target?
                        then [MakeEdge(source, o, t, entries[t], conditional)]
                        else []);
    }
  }

  lemma {:induction false} GroupEdgesFollowTargets(source: string, groups: seq<Group>, conditional: bool)
    ensures EdgeTargets(GroupEdges(source, groups, conditional)) == MainTargets(groups)
  {
    if |groups| > 0 {
      var o := |groups| - 1;
      GroupEdgesFollowTargets(source, groups[..o], conditional);
      if groups[o].Outputs? {
        EntryEdgesFollowTargets(source, o, groups[o].entries, conditional);
        EdgeTargetsAppend(GroupEdges(source, groups[..o], conditional), EntryEdges(source, o, groups[o].entries, conditional));
      } else {
        EdgeTargetsAppend(GroupEdges(source, groups[..o], conditional), []);
      }
    }
  }

  /**
   * There is exactly one edge per target entry of an array output, and the edges point at those
   * targets in visiting order; sources without `main` and outputs that are not arrays add none.
   */
  lemma {:induction false} EdgesFollowTargets(conns: Connections, nodes: seq<Node>)
    ensures |Edges(conns, nodes)| == |AllTargets(conns)|
    ensures EdgeTargets(Edges(conns, nodes)) == AllTargets(conns)
  {
    if |conns| > 0 {
      var k := |conns| - 1;
      EdgesFollowTargets(conns[..k], nodes);
      var c := conns[k].1;
      if c.main.Some? {
        GroupEdgesFollowTargets(conns[k].0, c.main.value, IsConditionalNode(conns[k].0, nodes));
      }
      EdgeTargetsAppend(Edges(conns[..k], nodes), SourceEdges(conns[k].0, c, nodes));
    }
  }

  /** An edge of an output array is the edge of one of its target entries. */
  lemma {:induction false} EntryEdgesSound(source: string, o: nat, entries: seq<Entry>, conditional: bool, e: FlowEdge)
    requires e in EntryEdges(source, o, entries, conditional)
    ensures exists t :: 0 <= t < |entries| && entries[t].Target?
                        && e == MakeEdge(source, o, t, entries[t], conditional)
  {
    var t := |entries| - 1;
    var p := entries[..t];
    if e in EntryEdges(source, o, p, conditional) {
      EntryEdgesSound(source, o, p, conditional, e);
      var i :| 0 <= i < |p| && p[i].Target? && e == MakeEdge(source, o, i, p[i], conditional);
      assert p[i] == entries[i];
    }
  }

  /** Every target entry of an output array gives its edge. */
  lemma {:induction false} EntryEdgesComplete(source: string, o: nat, entries: seq<Entry>, conditional: bool, t: nat)
    requires t < |entries| && entries[t].Target?
    ensures MakeEdge(source, o, t, entries[t], conditional) in EntryEdges(source, o, entries, conditional)
  {
    var last := |entries| - 1;
    if t < last {
      var p := entries[..last];
      assert p[t] == entries[t];
      EntryEdgesComplete(source, o, p, conditional, t);
    }
  }

  /** An edge from output `o`, entry `t` of the outputs `groups`. */
  predicate EdgeAt(e: FlowEdge, source: string, groups: seq<Group>, o: int, t: int, conditional: bool) {
    && 0 <= o < |groups| && groups[o].Outputs?
    && 0 <= t < |groups[o].entries| && groups[o].entries[t].Target?
    && e == MakeEdge(source, o, t, groups[o].entries[t], conditional)
  }

  /** An edge of `main` is an edge of one of its array outputs. */
  lemma {:induction false} InSomeGroup(source: string, groups: seq<Group>, conditional: bool, e: FlowEdge)
    requires e in GroupEdges(source, groups, conditional)
    ensures exists o :: 0 <= o < |groups| && groups[o].Outputs?
                        && e in EntryEdges(source, o, groups[o].entries, conditional)
  {
    var last := |groups| - 1;
    var p := groups[..last];
    if e in GroupEdges(source, p, conditional) {
      InSomeGroup(source, p, conditional, e);
      var o :| 0 <= o < |p| && p[o].Outputs? && e in EntryEdges(source, o, p[o].entries, conditional);
      assert p[o] == groups[o];
    }
  }

  /** The edges of each array output are edges of `main`. */
  lemma {:induction false} GroupIncluded(source: string, groups: seq<Group>, conditional: bool, o: nat, e: FlowEdge)
    requires o < |groups| && groups[o].Outputs? && e in EntryEdges(source, o, groups[o].entries, conditional)
    ensures e in GroupEdges(source, groups, conditional)
  {
    var last := |groups| - 1;
    if o < last {
      var p := groups[..last];
      assert p[o] == groups[o];
      GroupIncluded(source, p, conditional, o, e);
    }
  }

  lemma GroupEdgesSound(source: string, groups: seq<Group>, conditional: bool, e: FlowEdge)
    requires e in GroupEdges(source, groups, conditional)
    ensures exists o, t :: EdgeAt(e, source, groups, o, t, conditional)
  {
    InSomeGroup(source, groups, conditional, e);
    var o :| 0 <= o < |groups| && groups[o].Outputs? && e in EntryEdges(source, o, groups[o].entries, conditional);
    EntryEdgesSound(source, o, groups[o].entries, conditional, e);
    var t :| 0 <= t < |groups[o].entries| && groups[o].entries[t].Target?
             && e == MakeEdge(source, o, t, groups[o].entries[t], conditional);
    assert EdgeAt(e, source, groups, o, t, conditional);
  }

  lemma GroupEdgesComplete(source: string, groups: seq<Group>, conditional: bool, e: FlowEdge, o: int, t: int)
    requires EdgeAt(e, source, groups, o, t, conditional)
    ensures e in GroupEdges(source, groups, conditional)
  {
    EntryEdgesComplete(source, o, groups[o].entries, conditional, t);
    GroupIncluded(source, groups, conditional, o, e);
  }

  /** Edge `e` comes from source `conns[k]`, output `o`, entry `t`. */
  predicate EdgeOf(e: FlowEdge, conns: Connections, k: int, o: int, t: int, nodes: seq<Node>) {
    && 0 <= k < |conns| && conns[k].1.main.Some?
    && EdgeAt(e, conns[k].0, conns[k].1.main.value, o, t, IsConditionalNode(conns[k].0, nodes))
  }

  /** An edge is an edge of one source. */
  lemma {:induction false} InSomeSource(conns: Connections, nodes: seq<Node>, e: FlowEdge)
    requires e in Edges(conns, nodes)
    ensures exists k :: 0 <= k < |conns| && e in SourceEdges(conns[k].0, conns[k].1, nodes)
  {
    var last := |conns| - 1;
    var p := conns[..last];
    if e in Edges(p, nodes) {
      InSomeSource(p, nodes, e);
      var k :| 0 <= k < |p| && e in SourceEdges(p[k].0, p[k].1, nodes);
      assert p[k] == conns[k];
    }
  }

  /** The edges of each source are edges of the workflow. */
  lemma {:induction false} SourceIncluded(conns: Connections, nodes: seq<Node>, k: nat, e: FlowEdge)
    requires k < |conns| && e in SourceEdges(conns[k].0, conns[k].1, nodes)
    ensures e in Edges(conns, nodes)
  {
    var last := |conns| - 1;
    if k < last {
      var p := conns[..last];
      assert p[k] == conns[k];
      SourceIncluded(p, nodes, k, e);
    }
  }

  lemma EdgesSound(conns: Connections, nodes: seq<Node>, e: FlowEdge)
    requires e in Edges(conns, nodes)
    ensures exists k, o, t :: EdgeOf(e, conns, k, o, t, nodes)
  {
    InSomeSource(conns, nodes, e);
    var k :| 0 <= k < |conns| && e in SourceEdges(conns[k].0, conns[k].1, nodes);
    var conditional := IsConditionalNode(conns[k].0, nodes);
    GroupEdgesSound(conns[k].0, conns[k].1.main.value, conditional, e);
    var o, t :| EdgeAt(e, conns[k].0, conns[k].1.main.value, o, t, conditional);
    assert EdgeOf(e, conns, k, o, t, nodes);
  }

  lemma EdgesComplete(conns: Connections, nodes: seq<Node>, e: FlowEdge, k: int, o: int, t: int)
    requires EdgeOf(e, conns, k, o, t, nodes)
    ensures e in Edges(conns, nodes)
  {
    GroupEdgesComplete(conns[k].0, conns[k].1.main.value, IsConditionalNode(conns[k].0, nodes), e, o, t);
    SourceIncluded(conns, nodes, k, e);
  }

  /**
   * Every edge is the edge of one target entry (source `conns[k]`, output `o`, entry `t`), and
   * every target entry of an array output of `main` gives its edge.
   */
  lemma EdgesAre(conns: Connections, nodes: seq<Node>, e: FlowEdge)
    ensures e in Edges(conns, nodes) <==> exists k, o, t :: EdgeOf(e, conns, k, o, t, nodes)
  {
    if e in Edges(conns, nodes) {
      EdgesSound(conns, nodes, e);
    }
    if exists k, o, t :: EdgeOf(e, conns, k, o, t, nodes) {
      var k, o, t :| EdgeOf(e, conns, k, o, t, nodes);
      EdgesComplete(conns, nodes, e, k, o, t);
    }
  }

  /**
   * The fields of every edge: its composite id, its handles, and a label exactly when its source
   * is conditional, "true" for output 0 and "false" for the others.
   */
  lemma EdgeFields(conns: Connections, nodes: seq<Node>, e: FlowEdge)
    requires e in Edges(conns, nodes)
    ensures exists o: nat, t: nat ::
              && e.id == EdgeId(e.source, e.target, o, t)
              && e.sourceHandle == "output-" + NatToString(o)
              && e.data.isConditional == IsConditionalNode(e.source, nodes)
              && (e.data.edgeLabel.Some? <==> e.data.isConditional)
              && (e.data.edgeLabel == Some("true") <==> e.data.isConditional && o == 0)
    ensures exists index: Option<int> :: e.targetHandle == "input-" + IndexText(index)
  {
    EdgesAre(conns, nodes, e);
    var k, o, t :| EdgeOf(e, conns, k, o, t, nodes);
    var o': nat, t': nat := o, t;
    assert e.id == EdgeId(e.source, e.target, o', t');
    var entry := conns[k].1.main.value[o].entries[t];
    assert e.targetHandle == "input-" + IndexText(entry.index);
  }

  /** `convertEdges`: nested loops over the sources, their outputs and the outputs' entries. */
  method ConvertEdges(conns: Connections, nodes: seq<Node>) returns (edges: seq<FlowEdge>)
    ensures edges == Edges(conns, nodes)
  {
    edges := [];
    for k := 0 to |conns|
      invariant edges == Edges(conns[..k], nodes)
    {
      var source := conns[k].0;
      var connection := conns[k].1;
      if connection.main.Some? {
        edges := PushGroups(edges, source, connection.main.value, nodes);
      } else {
        assert edges + SourceEdges(source, connection, nodes) == edges;
      }
      assert conns[..k + 1][..k] == conns[..k];
    }
    assert conns[..|conns|] == conns;
  }

  /** `connection.main.forEach(...)`. */
  method PushGroups(edges: seq<FlowEdge>, source: string, groups: seq<Group>, nodes: seq<Node>)
    returns (r: seq<FlowEdge>)
    ensures r == edges + GroupEdges(source, groups, IsConditionalNode(source, nodes))
  {
    r := edges;
    for o := 0 to |groups|
      invariant r == edges + GroupEdges(source, groups[..o], IsConditionalNode(source, nodes))
    {
      assert groups[..o + 1][..o] == groups[..o];
      if groups[o].Outputs? {
        var before := r;
        r := PushEntries(r, source, o, groups[o].entries, nodes);
        assert r == edges + (GroupEdges(source, groups[..o], IsConditionalNode(source, nodes))
                            + EntryEdges(source, o, groups[o].entries, IsConditionalNode(source, nodes)));
      }
    }
    assert groups[..|groups|] == groups;
  }

  /** `outputs.forEach(...)`: one edge per entry with a `node`. */
  method PushEntries(edges: seq<FlowEdge>, source: string, o: nat, entries: seq<Entry>, nodes: seq<Node>)
    returns (r: seq<FlowEdge>)
    ensures r == edges + EntryEdges(source, o, entries, IsConditionalNode(source, nodes))
  {
    r := edges;
    for t := 0 to |entries|
      invariant r == edges + EntryEdges(source, o, entries[..t], IsConditionalNode(source, nodes))
    {
      assert entries[..t + 1][..t] == entries[..t];
      if entries[t].Target? {
        var isConditional := IsConditionalNode(source, nodes);
        r := r + [MakeEdge(source, o, t, entries[t], isConditional)];
      }
    }
    assert entries[..|entries|] == entries;
  }

  // ---------------------------------------------------------------- configuration digest

  /** `params[key]` when it is a non-empty string. */
  function StringParam(params: map<string, Json>, key: string): Option<string> {
    if key in params && params[key].JStr? && params[key].s != "" then Some(params[key].s) else None
  }

  /** `params[key]`, None when the key is absent. */
  function Param(params: map<string, Json>, key: string): Option<Json> {
    if key in params then Some(params[key]) else None
  }

  /** A message longer than 40 characters is cut to its first 40 and "...". */
  function Truncate(text: string): (r: string)
    ensures |text| <= 40 ==> r == text
    ensures |text| > 40 ==> |r| == 43 && StartsWith(r, text[..40]) && EndsWith(r, "...")
  {
    if |text| > 40 then text[..40] + "..." else text
  }

  /** A line of the digest, present when its value is. */
  function Labeled(caption: string, value: Option<string>): Option<string> {
    if value.Some? then Some(caption + value.value) else None
  }

  /** `summaryParts.push(line)` when the line is present. */
  function Push(parts: seq<string>, line: Option<string>): seq<string> {
    if line.Some? then parts + [line.value] else parts
  }

  function MessageLine(text: Option<string>): Option<string> {
    if text.Some? then Some("Message: \"" + Truncate(text.value) + "\"") else None
  }

  function SheetLine(sheet: Option<Json>): Option<string> {
    if sheet.Some? && Truthy(sheet.value) then Some("Sheet configured") else None
  }

  /** The parts of the digest, in the fixed order channel, text, url, path, method, sheet, operation. */
  function SummaryParts(params: map<string, Json>): seq<string> {
    var p1 := Push([], Labeled("Channel: ", StringParam(params, "channel")));
    var p2 := Push(p1, MessageLine(StringParam(params, "text")));
    var p3 := Push(p2, Labeled("URL: ", StringParam(params, "url")));
    var p4 := Push(p3, Labeled("Path: ", StringParam(params, "path")));
    var p5 := Push(p4, Labeled("Method: ", StringParam(params, "httpMethod")));
    var p6 := Push(p5, SheetLine(Param(params, "spreadsheetId")));
    Push(p6, Labeled("Operation: ", StringParam(params, "operation")))
  }

  /** The parts on separate lines, or "No configuration" when there are none. */
  function JoinLines(parts: seq<string>): string {
    if |parts| > 0 then Join(parts, "\n") else "No configuration"
  }

  /** What `generateConfigSummary` returns. */
  function ConfigSummary(params: map<string, Json>): string {
    JoinLines(SummaryParts(params))
  }

  /** None of the seven keys is set to a usable value. */
  predicate Unconfigured(params: map<string, Json>) {
    && StringParam(params, "channel").None?
    && StringParam(params, "text").None?
    && StringParam(params, "url").None?
    && StringParam(params, "path").None?
    && StringParam(params, "httpMethod").None?
    && !(Param(params, "spreadsheetId").Some? && Truthy(Param(params, "spreadsheetId").value))
    && StringParam(params, "operation").None?
  }

  /** Every part is non-empty and does not start with an 'N'. */
  predicate Labelled(parts: seq<string>) {
    forall i :: 0 <= i < |parts| ==> |parts[i]| > 0 && parts[i][0] != 'N'
  }

  lemma PushLabelled(parts: seq<string>, line: Option<string>)
    requires Labelled(parts) && (line.Some? ==> |line.value| > 0 && line.value[0] != 'N')
    ensures Labelled(Push(parts, line))
    ensures Push(parts, line) == [] <==> parts == [] && line.None?
  {
  }

  /** Labelled parts join to "No configuration" only when there are none. */
  lemma JoinLinesEmpty(parts: seq<string>)
    requires Labelled(parts)
    ensures JoinLines(parts) == "No configuration" <==> parts == []
  {
    if |parts| > 0 {
      assert Join(parts, "\n")[0] == parts[0][0];
    }
  }

  /** The digest is "No configuration" exactly when none of the seven keys contributes a part. */
  lemma NoConfigurationIff(params: map<string, Json>)
    ensures ConfigSummary(params) == "No configuration" <==> Unconfigured(params)
  {
    var l1 := Labeled("Channel: ", StringParam(params, "channel"));
    var l2 := MessageLine(StringParam(params, "text"));
    var l3 := Labeled("URL: ", StringParam(params, "url"));
    var l4 := Labeled("Path: ", StringParam(params, "path"));
    var l5 := Labeled("Method: ", StringParam(params, "httpMethod"));
    var l6 := SheetLine(Param(params, "spreadsheetId"));
    var l7 := Labeled("Operation: ", StringParam(params, "operation"));
    var p1 := Push([], l1);
    PushLabelled([], l1);
    var p2 := Push(p1, l2);
    PushLabelled(p1, l2);
    var p3 := Push(p2, l3);
    PushLabelled(p2, l3);
    var p4 := Push(p3, l4);
    PushLabelled(p3, l4);
    var p5 := Push(p4, l5);
    PushLabelled(p4, l5);
    var p6 := Push(p5, l6);
    PushLabelled(p5, l6);
    PushLabelled(p6, l7);
    assert SummaryParts(params) == Push(p6, l7);
    JoinLinesEmpty(Push(p6, l7));
  }

  /** `generateConfigSummary`: the parts pushed one by one, then joined. */
  method GenerateConfigSummary(node: Node) returns (summary: string)
    ensures summary == ConfigSummary(node.parameters)
  {
    var params := node.parameters;
    var summaryParts: seq<string> := [];
    var channel := StringParam(params, "channel");
    if channel.Some? {
      summaryParts := summaryParts + ["Channel: " + channel.value];
    }
    ghost var p1 := summaryParts;
    assert p1 == Push([], Labeled("Channel: ", channel));
    var text := StringParam(params, "text");
    if text.Some? {
      var shown := Truncate(text.value);
      summaryParts := summaryParts + ["Message: \"" + shown + "\""];
    }
    ghost var p2 := summaryParts;
    assert p2 == Push(p1, MessageLine(text));
    var url := StringParam(params, "url");
    if url.Some? {
      summaryParts := summaryParts + ["URL: " + url.value];
    }
    ghost var p3 := summaryParts;
    assert p3 == Push(p2, Labeled("URL: ", url));
    var path := StringParam(params, "path");
    if path.Some? {
      summaryParts := summaryParts + ["Path: " + path.value];
    }
    ghost var p4 := summaryParts;
    assert p4 == Push(p3, Labeled("Path: ", path));
    var httpMethod := StringParam(params, "httpMethod");
    if httpMethod.Some? {
      summaryParts := summaryParts + ["Method: " + httpMethod.value];
    }
    ghost var p5 := summaryParts;
    assert p5 == Push(p4, Labeled("Method: ", httpMethod));
    var sheet := Param(params, "spreadsheetId");
    if sheet.Some? && Truthy(sheet.value) {
      summaryParts := summaryParts + ["Sheet configured"];
    }
    ghost var p6 := summaryParts;
    assert p6 == Push(p5, SheetLine(sheet));
    var operation := StringParam(params, "operation");
    if operation.Some? {
      summaryParts := summaryParts + ["Operation: " + operation.value];
    }
    assert summaryParts == Push(p6, Labeled("Operation: ", operation));
    assert summaryParts == SummaryParts(params);
    summary := JoinLines(summaryParts);
  }

  // ---------------------------------------------------------------- nodes

  /** The position of the node at `index`: its own, or `(index * 200, 0)`. */
  function FallbackPosition(node: Node, index: nat): Point {
    if node.position.Some? then node.position.value else Point((index * 200) as real, 0.0)
  }

  /** `convertNodes`: one flow node per workflow node, in the same order, identified by name. */
  function ConvertNodes(nodes: seq<Node>): (r: seq<FlowNode>)
    ensures |r| == |nodes|
    ensures forall i :: 0 <= i < |nodes| ==>
              && r[i].id == nodes[i].name && r[i].data.nodeLabel == nodes[i].name
              && r[i].data.nodeType == nodes[i].nodeType
              && r[i].data.category == GetNodeMeta(nodes[i].nodeType).category
              && r[i].data.icon == GetNodeMeta(nodes[i].nodeType).icon
              && r[i].data.configSummary == ConfigSummary(nodes[i].parameters)
              && r[i].position == (if nodes[i].position.Some? then nodes[i].position.value
                                   else Point((i * 200) as real, 0.0))
  {
    seq(|nodes|, i requires 0 <= i < |nodes| =>
      var meta := GetNodeMeta(nodes[i].nodeType);
      FlowNode(nodes[i].name,
               NodeData(nodes[i].name, nodes[i].nodeType, meta.category, meta.icon,
                        ConfigSummary(nodes[i].parameters)),
               FallbackPosition(nodes[i], i)))
  }

  /** `convertToReactFlow`. */
  method ConvertToReactFlow(w: Workflow) returns (nodes: seq<FlowNode>, edges: seq<FlowEdge>)
    ensures nodes == ConvertNodes(w.nodes)
    ensures edges == Edges(w.connections, w.nodes)
  {
    nodes := ConvertNodes(w.nodes);
    edges := ConvertEdges(w.connections, w.nodes);
  }
}

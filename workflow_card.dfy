/**
 * The workflow card of the chat: the test instruction chosen from the first trigger node, the
 * colour of the node-count badge, the deploy button rule, and the detection of a workflow in a
 * chat message (the first fenced block or the whole text, the span from the first '{' to the
 * last '}', and the shape check on what the JSON parser makes of it).
 */
module WorkflowCard {
  import opened Wrappers
  import opened Text
  import opened Graph

  // ---------------------------------------------------------------- test instructions

  /** The four trigger types the card knows how to test. */
  predicate IsTestTrigger(nodeType: string) {
    nodeType == "n8n-nodes-base.webhook" || nodeType == "n8n-nodes-base.cron"
    || nodeType == "n8n-nodes-base.schedule" || nodeType == "n8n-nodes-base.manualTrigger"
  }

  /** `nodes.find(...)` from index `from` on: the index of the first node of a test trigger type. */
  function FirstTrigger(nodes: seq<Node>, from: nat): (r: Option<nat>)
    requires from <= |nodes|
    ensures r.Some? ==> from <= r.value < |nodes| && IsTestTrigger(nodes[r.value].nodeType)
    decreases |nodes| - from
  {
    if from == |nodes| then None
    else if IsTestTrigger(nodes[from].nodeType) then Some(from)
    else FirstTrigger(nodes, from + 1)
  }

  /** The search finds the first such node, and finds none exactly when there is none. */
  lemma {:induction false} FirstTriggerIsFirst(nodes: seq<Node>, from: nat)
    requires from <= |nodes|
    ensures FirstTrigger(nodes, from).Some? ==>
              forall j :: from <= j < FirstTrigger(nodes, from).value ==> !IsTestTrigger(nodes[j].nodeType)
    ensures FirstTrigger(nodes, from).None? ==> forall j :: from <= j < |nodes| ==> !IsTestTrigger(nodes[j].nodeType)
    decreases |nodes| - from
  {
    if from < |nodes| && !IsTestTrigger(nodes[from].nodeType) {
      FirstTriggerIsFirst(nodes, from + 1);
    }
  }

  const ManualMsg := "Run the workflow manually in n8n to test"
  const WebhookMsg := "Test: Send a request " + "to the webhook URL " + "shown in n8n"
  const ScheduleMsg := "Test: Wait for the " + "scheduled time or run " + "manually in n8n"
  const ExecuteMsg := "Test: Click \"Execute Workflow\" in n8n"
  const OtherTriggerMsg := "Test: Trigger the workflow from n8n"

  /** The message for the type of the trigger found. */
  function TriggerMessage(nodeType: string): string {
    match nodeType
    case "n8n-nodes-base.webhook" => WebhookMsg
    case "n8n-nodes-base.cron" => ScheduleMsg
    case "n8n-nodes-base.schedule" => ScheduleMsg
    case "n8n-nodes-base.manualTrigger" => ExecuteMsg
    case _ => OtherTriggerMsg
  }

  /** `getTriggerInstructions`. */
  function TriggerInstructions(nodes: seq<Node>): string {
    match FirstTrigger(nodes, 0)
    case None => ManualMsg
    case Some(i) => TriggerMessage(nodes[i].nodeType)
  }

  /**
   * Without a test trigger the manual message is given; otherwise the first one decides, cron and
   * schedule sharing a message, and the default branch of the switch is never reached.
   */
  lemma TriggerInstructionsCases(nodes: seq<Node>)
    ensures (forall j :: 0 <= j < |nodes| ==> !IsTestTrigger(nodes[j].nodeType)) ==>
              TriggerInstructions(nodes) == ManualMsg
    ensures forall i :: 0 <= i < |nodes| && IsTestTrigger(nodes[i].nodeType)
                        && (forall j :: 0 <= j < i ==> !IsTestTrigger(nodes[j].nodeType)) ==>
              TriggerInstructions(nodes) ==
                match nodes[i].nodeType
                case "n8n-nodes-base.webhook" => WebhookMsg
                case "n8n-nodes-base.manualTrigger" => ExecuteMsg
                case _ => ScheduleMsg
    ensures TriggerInstructions(nodes) != OtherTriggerMsg
  {
    FirstTriggerIsFirst(nodes, 0);
  }

  /** Nodes appended after a test trigger do not change where the search stops. */
  lemma {:induction false} FirstTriggerAppend(nodes: seq<Node>, more: seq<Node>, from: nat)
    requires from <= |nodes| && FirstTrigger(nodes, from).Some?
    ensures FirstTrigger(nodes + more, from) == FirstTrigger(nodes, from)
    decreases |nodes| - from
  {
    assert (nodes + more)[from] == nodes[from];
    if !IsTestTrigger(nodes[from].nodeType) {
      FirstTriggerAppend(nodes, more, from + 1);
    }
  }

  /** Nodes after the first test trigger do not change the instruction. */
  lemma LaterNodesIgnored(nodes: seq<Node>, more: seq<Node>)
    requires exists i :: 0 <= i < |nodes| && IsTestTrigger(nodes[i].nodeType)
    ensures TriggerInstructions(nodes + more) == TriggerInstructions(nodes)
  {
    FirstTriggerIsFirst(nodes, 0);
    FirstTriggerAppend(nodes, more, 0);
    var i := FirstTrigger(nodes, 0).value;
    assert (nodes + more)[i] == nodes[i];
  }

  // ---------------------------------------------------------------- the node-count badge

  datatype BadgeColour = Green | Yellow | Red

  function NodeCountColour(nodeCount: nat): BadgeColour {
    if nodeCount <= 5 then Green else if nodeCount <= 7 then Yellow else Red
  }

  /** The colour never gets better as the workflow grows. */
  lemma ColourMonotone(a: nat, b: nat)
    requires a <= b
    ensures NodeCountColour(a) == Red ==> NodeCountColour(b) == Red
    ensures NodeCountColour(b) == Green ==> NodeCountColour(a) == Green
  {
  }

  /** Green up to 5 nodes, yellow for 6 and 7, red from 8. */
  lemma ColourThresholds()
    ensures NodeCountColour(5) == Green && NodeCountColour(6) == Yellow
    ensures NodeCountColour(7) == Yellow && NodeCountColour(8) == Red
  {
  }

  // ---------------------------------------------------------------- the deploy button

  datatype CardDeployResult = CardDeployResult(success: bool, workflowId: Option<string>,
                                               workflowUrl: Option<string>, error: Option<string>)

  /** `isDeploying || deployResult?.success`. */
  predicate DeployDisabled(isDeploying: bool, deployResult: Option<CardDeployResult>) {
    isDeploying || (deployResult.Some? && deployResult.value.success)
  }

  /** Idle, the button is enabled before any deploy and after a failed one, and never after a success. */
  lemma DeployButtonRule(deployResult: Option<CardDeployResult>)
    ensures DeployDisabled(true, deployResult)
    ensures !DeployDisabled(false, deployResult) <==> deployResult.None? || !deployResult.value.success
  {
  }

  /** How the deploy request ended: the parsed response, or an exception with its message if any. */
  datatype FetchOutcome = Responded(result: CardDeployResult) | Threw(message: Option<string>)

  /** The `deployResult` that `handleDeploy` stores once the request has ended. */
  function DeployOutcome(outcome: FetchOutcome): (r: CardDeployResult)
    ensures outcome.Responded? ==> r == outcome.result
    ensures outcome.Threw? ==> !r.success && r.workflowId.None? && r.workflowUrl.None?
                               && r.error == Some(outcome.message.GetOr("Unknown error"))
  {
    match outcome
    case Responded(result) => result
    case Threw(message) => CardDeployResult(false, None, None, Some(message.GetOr("Unknown error")))
  }

  /**
   * After the request has ended the button is disabled exactly when the response reported
   * success; an exception always leaves it enabled for another try.
   */
  lemma DeployEnds(outcome: FetchOutcome)
    ensures DeployDisabled(false, Some(DeployOutcome(outcome))) <==> outcome.Responded? && outcome.result.success
  {
  }

  // ---------------------------------------------------------------- the first fenced block

  const Fence := "```"

  /** The end of a run of white space starting at `i`. */
  function SkipSpaces(s: string, i: nat): (r: nat)
    requires i <= |s|
    ensures i <= r <= |s| && forall j :: i <= j < r ==> IsSpace(s[j])
    ensures r < |s| ==> !IsSpace(s[r])
    decreases |s| - i
  {
    if i < |s| && IsSpace(s[i]) then SkipSpaces(s, i + 1) else i
  }

  /** Where the body starts after the fence at `i`: the fence, an optional 'json', white space. */
  function BodyStart(s: string, i: nat): (r: nat)
    requires i + 3 <= |s|
    ensures i + 3 <= r <= |s| && forall j :: i + 3 <= j < r ==> s[j] != '`'
  {
    var a := i + 3;
    var b := if StartsWith(s[a..], "json") then a + 4 else a;
    assert forall j :: a <= j < b ==> s[j] == s[a..][j - a];
    SkipSpaces(s, b)
  }

  /**
   * The group of ```` ```(?:json)?\s*\n?([\s\S]*?)\n?``` ````: from the body start to the next
   * fence, without a newline just before that fence; None when the expression does not match.
   */
  function CodeBlockBody(s: string): Option<string> {
    match IndexOf(s, Fence)
    case None => None
    case Some(i) =>
      var e := BodyStart(s, i);
      match IndexOf(s[e..], Fence)
      case None => None
      case Some(q) =>
        var end := if q > 0 && s[e + q - 1] == '\n' then e + q - 1 else e + q;
        Some(s[e..end])
  }

  lemma OccursSuffix(s: string, e: nat, q: int)
    requires e <= |s|
    ensures Occurs(s[e..], Fence, q) <==> Occurs(s, Fence, e + q) && q >= 0
  {
    if q >= 0 && e + q + 3 <= |s| {
      assert s[e..][q..q + 3] == s[e + q..e + q + 3];
    }
  }

  /** No fence starts where the body start skipped text. */
  lemma NoFenceSkipped(s: string, i: nat, j: int)
    requires i + 3 <= |s| && i + 3 <= j < BodyStart(s, i)
    ensures !Occurs(s, Fence, j)
  {
    if j + 3 <= |s| {
      assert s[j..j + 3][0] == s[j];
    }
  }

  /** There is a fenced block exactly when the text has two fences that do not overlap. */
  lemma CodeBlockExists(s: string)
    ensures CodeBlockBody(s).Some? <==>
              exists i, j :: 0 <= i && i + 3 <= j && Occurs(s, Fence, i) && Occurs(s, Fence, j)
  {
    match IndexOf(s, Fence)
    case None =>
    case Some(i) =>
      var e := BodyStart(s, i);
      match IndexOf(s[e..], Fence)
      case None =>
        forall a, b | 0 <= a && a + 3 <= b && Occurs(s, Fence, a)
          ensures !Occurs(s, Fence, b)
        {
          if b < e {
            NoFenceSkipped(s, i, b);
          } else {
            OccursSuffix(s, e, b - e);
          }
        }
      case Some(q) =>
        OccursSuffix(s, e, q);
  }

  /** A fence inside a prefix is a fence of the whole text. */
  lemma PrefixOccurs(t: string, n: nat, k: int)
    requires n <= |t|
    ensures Occurs(t[..n], Fence, k) ==> Occurs(t, Fence, k)
  {
    if 0 <= k && k + 3 <= n {
      assert t[..n][k..k + 3] == t[k..k + 3];
    }
  }

  /** The body of the block contains no fence. */
  lemma CodeBlockBodyUnfenced(s: string)
    requires CodeBlockBody(s).Some?
    ensures !Contains(CodeBlockBody(s).value, Fence)
  {
    var i := IndexOf(s, Fence).value;
    var e := BodyStart(s, i);
    var t := s[e..];
    var q := IndexOf(t, Fence).value;
    var n := if q > 0 && s[e + q - 1] == '\n' then q - 1 else q;
    var body := t[..n];
    assert CodeBlockBody(s).value == body;
    forall k | 0 <= k <= |body|
      ensures !Occurs(body, Fence, k)
    {
      PrefixOccurs(t, n, k);
    }
  }

  /** `codeBlockMatch?.[1] ?? content`: an empty block body is used as it is. */
  function JsonString(content: string): string {
    CodeBlockBody(content).GetOr(content)
  }

  // ---------------------------------------------------------------- the brace span

  /** The last index of `c` in `s`. */
  function LastIndexOf(s: string, c: char): (r: Option<nat>)
    ensures r.Some? ==> r.value < |s| && s[r.value] == c && forall j :: r.value < j < |s| ==> s[j] != c
    ensures r.None? ==> forall j :: 0 <= j < |s| ==> s[j] != c
  {
    if |s| == 0 then None
    else if s[|s| - 1] == c then Some(|s| - 1)
    else LastIndexOf(s[..|s| - 1], c)
  }

  /** The match of `/\{[\s\S]*\}/`: from the first '{' to the last '}' after it. */
  function BraceSpan(s: string): Option<string> {
    match IndexOf(s, "{")
    case None => None
    case Some(a) =>
      match LastIndexOf(s, '}')
      case None => None
      case Some(b) => if a < b then Some(s[a..b + 1]) else None
  }

  lemma OccursChar(s: string, c: char, j: int)
    ensures Occurs(s, [c], j) <==> 0 <= j < |s| && s[j] == c
  {
    if 0 <= j < |s| {
      assert s[j..j + 1] == [s[j]];
    }
  }

  /**
   * A span exists exactly when some '{' has a '}' after it; it then runs from the first '{' to
   * the last '}'.
   */
  lemma BraceSpanIs(s: string)
    ensures BraceSpan(s).None? <==> !exists a, b :: 0 <= a < b < |s| && s[a] == '{' && s[b] == '}'
    ensures BraceSpan(s).Some? ==>
              exists a, b :: 0 <= a < b < |s| && BraceSpan(s).value == s[a..b + 1]
                             && s[a] == '{' && (forall j :: 0 <= j < a ==> s[j] != '{')
                             && s[b] == '}' && (forall j :: b < j < |s| ==> s[j] != '}')
  {
    forall j ensures Occurs(s, "{", j) <==> 0 <= j < |s| && s[j] == '{' {
      OccursChar(s, '{', j);
    }
  }

  // ---------------------------------------------------------------- the shape check

  /** `firstNode?.type` is truthy. */
  predicate FirstNodeTyped(node: Json) {
    node.JObj? && match Lookup(node.fields, "type")
                  case Some(t) => Truthy(t)
                  case None => false
  }

  /** An object with a `name`, and a non-empty `nodes` array whose first element has a type. */
  predicate WorkflowShaped(j: Json) {
    && j.JObj?
    && HasKey(j.fields, "name")
    && var nodes := Lookup(j.fields, "nodes");
       nodes.Some? && nodes.value.JArr? && |nodes.value.items| > 0 && FirstNodeTyped(nodes.value.items[0])
  }

  /** Only the first node is looked at. */
  lemma LaterNodesUnchecked(fields: seq<(string, Json)>, first: Json, rest: seq<Json>, others: seq<Json>)
    requires Lookup(fields, "nodes") == Some(JArr([first] + rest))
    requires HasKey(fields, "name")
    ensures WorkflowShaped(JObj(fields)) <==> FirstNodeTyped(first)
  {
  }

  /**
   * `detectWorkflowJson`.  `parse` is `JSON.parse`, None where it throws; objects it returns have
   * each key once, the last of duplicated keys in the text being kept.
   */
  function DetectWorkflowJson(content: string, parse: string -> Option<Json>): (r: Option<Json>)
    ensures r.Some? ==> WorkflowShaped(r.value)
  {
    match BraceSpan(JsonString(content))
    case None => None
    case Some(span) =>
      match parse(span)
      case Some(j) => if WorkflowShaped(j) then Some(j) else None
      case None => None
  }

  /**
   * A workflow is detected exactly when the span of the chosen text parses to a value of the
   * right shape, and that value is what is returned.
   */
  lemma DetectIff(content: string, parse: string -> Option<Json>)
    ensures DetectWorkflowJson(content, parse).Some? <==>
              BraceSpan(JsonString(content)).Some? && parse(BraceSpan(JsonString(content)).value).Some?
              && WorkflowShaped(parse(BraceSpan(JsonString(content)).value).value)
    ensures DetectWorkflowJson(content, parse).Some? ==>
              DetectWorkflowJson(content, parse).value == parse(BraceSpan(JsonString(content)).value).value
  {
  }
}

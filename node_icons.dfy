/**
 * Visual metadata of node types: a fixed table of icon, category and display name, and for a
 * type not in the table a generic entry whose display name is derived from the type string.
 */
module NodeIcons {
  import opened Wrappers
  import opened Text

  datatype Category = Trigger | Action | Logic | Transform | Output

  datatype NodeMeta = NodeMeta(icon: string, category: Category, displayName: string)

  /** The package prefix of the built-in node types. */
  const BasePrefix := "n8n-nodes-base."

  /** The entries of `NODE_META`, keyed by what follows `n8n-nodes-base.`. */
  function BaseMetaEntry(name: string): Option<NodeMeta> {
    match name
    case "webhook" => Some(NodeMeta("Webhook", Trigger, "Webhook"))
    case "cron" => Some(NodeMeta("Clock", Trigger, "Schedule"))
    case "schedule" => Some(NodeMeta("Calendar", Trigger, "Schedule"))
    case "scheduleTrigger" => Some(NodeMeta("Calendar", Trigger, "Schedule"))
    case "manualTrigger" => Some(NodeMeta("Play", Trigger, "Manual"))
    case "errorTrigger" => Some(NodeMeta("AlertTriangle", Trigger, "Error"))
    case "workflowTrigger" => Some(NodeMeta("Workflow", Trigger, "Workflow"))
    case "emailTrigger" => Some(NodeMeta("Mail", Trigger, "Email"))
    case "slack" => Some(NodeMeta("MessageSquare", Action, "Slack"))
    case "googleSheets" => Some(NodeMeta("Table", Action, "Google Sheets"))
    case "airtable" => Some(NodeMeta("Database", Action, "Airtable"))
    case "notion" => Some(NodeMeta("FileText", Action, "Notion"))
    case "httpRequest" => Some(NodeMeta("Globe", Action, "HTTP Request"))
    case "gmail" => Some(NodeMeta("Mail", Action, "Gmail"))
    case "discord" => Some(NodeMeta("MessageCircle", Action, "Discord"))
    case "github" => Some(NodeMeta("Github", Action, "GitHub"))
    case "jira" => Some(NodeMeta("CheckSquare", Action, "Jira"))
    case "salesforce" => Some(NodeMeta("Cloud", Action, "Salesforce"))
    case "stripe" => Some(NodeMeta("CreditCard", Action, "Stripe"))
    case "twilio" => Some(NodeMeta("Phone", Action, "Twilio"))
    case "telegram" => Some(NodeMeta("Send", Action, "Telegram"))
    case "if" => Some(NodeMeta("GitBranch", Logic, "IF"))
    case "switch" => Some(NodeMeta("GitMerge", Logic, "Switch"))
    case "merge" => Some(NodeMeta("GitPullRequest", Logic, "Merge"))
    case "filter" => Some(NodeMeta("Filter", Logic, "Filter"))
    case "splitInBatches" => Some(NodeMeta("Layers", Logic, "Split Batches"))
    case "wait" => Some(NodeMeta("Pause", Logic, "Wait"))
    case "set" => Some(NodeMeta("Edit3", Transform, "Set"))
    case "function" => Some(NodeMeta("Code", Transform, "Function"))
    case "code" => Some(NodeMeta("Terminal", Transform, "Code"))
    case "itemLists" => Some(NodeMeta("List", Transform, "Item Lists"))
    case "dateTime" => Some(NodeMeta("Clock", Transform, "Date/Time"))
    case "crypto" => Some(NodeMeta("Lock", Transform, "Crypto"))
    case "emailSend" => Some(NodeMeta("Send", Output, "Send Email"))
    case "respondToWebhook" => Some(NodeMeta("Reply", Output, "Respond"))
    case "noOp" => Some(NodeMeta("Circle", Output, "No Op"))
    case _ => None
  }

  /** `NODE_META`: the entry of a node type, None for a type that is not a key; every key carries the `n8n-nodes-base.` prefix. */
  function NodeMetaEntry(nodeType: string): Option<NodeMeta> {
    if |nodeType| > |BasePrefix| && nodeType[..|BasePrefix|] == BasePrefix then BaseMetaEntry(nodeType[|BasePrefix|..]) else None
  }

  /** `getNodeMeta`: the table entry, or a generic action with a derived display name. */
  function GetNodeMeta(nodeType: string): (m: NodeMeta)
    ensures NodeMetaEntry(nodeType).Some? ==> m == NodeMetaEntry(nodeType).value
    ensures NodeMetaEntry(nodeType).None?
            ==> m.icon == "Box" && m.category == Action && m.displayName == ExtractDisplayName(nodeType)
  {
    match NodeMetaEntry(nodeType)
    case Some(meta) => meta
    case None => NodeMeta("Box", Action, ExtractDisplayName(nodeType))
  }

  /** `parts[parts.length - 1]` for `parts = s.split('.')`. */
  function LastSegment(s: string): string {
    var parts := Split(s, ".");
    parts[|parts| - 1]
  }

  /** The last segment is the text after the last dot, or the whole string when it has none. */
  lemma LastSegmentIsAfterLastDot(s: string)
    ensures var r := LastSegment(s);
            && !Contains(r, ".")
            && EndsWith(s, r)
            && (|r| < |s| ==> s[|s| - |r| - 1] == '.')
            && (!Contains(s, ".") ==> r == s)
  {
    var parts := Split(s, ".");
    SplitPiecesFree(s, ".", |parts| - 1);
    JoinSplit(s, ".");
    JoinLast(parts, ".");
  }

  /** `.replace(/([A-Z])/g, ' $1')`: a space before every capital letter. */
  function SpaceBeforeCapitals(s: string): (r: string)
    ensures |r| >= |s|
  {
    if |s| == 0 then ""
    else
      var c := s[|s| - 1];
      SpaceBeforeCapitals(s[..|s| - 1]) + (if IsUpper(c) then [' ', c] else [c])
  }

  /** What the `.` of a JavaScript regular expression does not match. */
  predicate IsLineTerminator(c: char) { c == '\n' || c == '\r' || c == '\U{2028}' || c == '\U{2029}' }

  /** `.replace(/^./, (str) => str.toUpperCase())` on ASCII letters. */
  function CapitalizeFirst(s: string): (r: string)
    ensures |r| == |s| && (|s| > 0 ==> r[1..] == s[1..])
    ensures |s| > 0 && !IsLineTerminator(s[0]) ==> r[0] == ToUpperChar(s[0])
    ensures |s| > 0 && IsLineTerminator(s[0]) ==> r == s
  {
    if |s| == 0 || IsLineTerminator(s[0]) then s else [ToUpperChar(s[0])] + s[1..]
  }

  /** `extractDisplayName`: camelCase after the last dot into Title Case. */
  function ExtractDisplayName(nodeType: string): string {
    Trim(CapitalizeFirst(SpaceBeforeCapitals(LastSegment(nodeType))))
  }

  /** Every capital letter of the result has a space before it. */
  predicate CapitalsSpaced(r: string) {
    forall i :: 0 <= i < |r| && IsUpper(r[i]) ==> i > 0 && r[i - 1] == ' '
  }

  lemma {:induction false} CapitalsFollowSpaces(s: string)
    ensures CapitalsSpaced(SpaceBeforeCapitals(s))
  {
    if |s| > 0 {
      var p := s[..|s| - 1];
      var c := s[|s| - 1];
      CapitalsFollowSpaces(p);
      var rp := SpaceBeforeCapitals(p);
      var tail := if IsUpper(c) then [' ', c] else [c];
      var r := rp + tail;
      assert SpaceBeforeCapitals(s) == r;
      forall i | 0 <= i < |r| && IsUpper(r[i])
        ensures i > 0 && r[i - 1] == ' '
      {
        if i < |rp| {
          assert r[i] == rp[i];
          assert IsUpper(rp[i]);
          assert r[i - 1] == rp[i - 1];
        } else {
          assert IsUpper(c) && i == |rp| + 1 && r[i - 1] == ' ';
        }
      }
    }
  }

  lemma {:induction false} SpaceBeforeCapitalsAppend(a: string, b: string)
    ensures SpaceBeforeCapitals(a + b) == SpaceBeforeCapitals(a) + SpaceBeforeCapitals(b)
    decreases |b|
  {
    if |b| > 0 {
      var b' := b[..|b| - 1];
      assert (a + b)[..|a + b| - 1] == a + b';
      SpaceBeforeCapitalsAppend(a, b');
    } else {
      assert a + b == a;
    }
  }

  lemma {:induction false} NoCapitalsUnchanged(s: string)
    requires forall i :: 0 <= i < |s| ==> !IsUpper(s[i])
    ensures SpaceBeforeCapitals(s) == s
  {
    if |s| > 0 {
      NoCapitalsUnchanged(s[..|s| - 1]);
    }
  }

  lemma OpenAiLastSegment()
    ensures LastSegment("n8n-nodes-base.openAi") == "openAi"
  {
    var s := "n8n-nodes-base.openAi";
    IndexOfAbsentChar("openAi", '.');
    assert Split("openAi", ".") == ["openAi"];
    IndexOfChar(s, '.', 14);
    assert s[15..] == "openAi";
    assert Split(s, ".") == [s[..14]] + Split("openAi", ".");
  }

  lemma OpenAiSpaced()
    ensures SpaceBeforeCapitals("openAi") == "open Ai"
  {
    NoCapitalsUnchanged("open");
    NoCapitalsUnchanged("i");
    assert SpaceBeforeCapitals("A") == " A" by { assert "A"[..0] == ""; }
    SpaceBeforeCapitalsAppend("A", "i");
    assert "A" + "i" == "Ai";
    SpaceBeforeCapitalsAppend("open", "Ai");
    assert "open" + "Ai" == "openAi";
  }

  lemma OpenAiCapitalized()
    ensures CapitalizeFirst("open Ai") == "Open Ai"
  {
    assert ToUpperChar('o') == 'O';
    assert "open Ai"[1..] == "pen Ai";
    assert ['O'] + "pen Ai" == "Open Ai";
  }

  /** 'n8n-nodes-base.openAi' is shown as 'Open Ai'. */
  lemma OpenAiDisplayName()
    ensures ExtractDisplayName("n8n-nodes-base.openAi") == "Open Ai"
  {
    OpenAiLastSegment();
    OpenAiSpaced();
    OpenAiCapitalized();
    assert !IsSpace('O') && !IsSpace('i');
    TrimUnchanged("Open Ai");
  }
}

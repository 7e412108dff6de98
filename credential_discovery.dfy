/**
 * The credential overview at the start of a chat: the tools n8n has credentials for, the
 * commonly used tools still missing (at most eight of them shown, the rest counted), and
 * Continue handing on the connected tools.
 */
module CredentialDiscovery {
  import opened Wrappers
  import opened Text
  import opened CredentialsRoute
  import opened CredentialsView

  datatype ToolInfo = ToolInfo(name: string, icon: string)

  /** `TOOL_INFO` of this view, which also knows OAuth. */
  function ToolInfoTable(tool: string): Option<ToolInfo> {
    match tool
    case "slack" => Some(ToolInfo("Slack", "\U{1F4AC}"))
    case "googleSheets" => Some(ToolInfo("Google Sheets", "\U{1F4CA}"))
    case "airtable" => Some(ToolInfo("Airtable", "\U{1F5C4}\U{FE0F}"))
    case "notion" => Some(ToolInfo("Notion", "\U{1F4DD}"))
    case "gmail" => Some(ToolInfo("Gmail", "\U{1F4E7}"))
    case "hubspot" => Some(ToolInfo("HubSpot", "\U{1F3AF}"))
    case "salesforce" => Some(ToolInfo("Salesforce", "\U{2601}\U{FE0F}"))
    case "stripe" => Some(ToolInfo("Stripe", "\U{1F4B3}"))
    case "discord" => Some(ToolInfo("Discord", "\U{1F3AE}"))
    case "telegram" => Some(ToolInfo("Telegram", "\U{2708}\U{FE0F}"))
    case "github" => Some(ToolInfo("GitHub", "\U{1F419}"))
    case "jira" => Some(ToolInfo("Jira", "\U{1F4CB}"))
    case "trello" => Some(ToolInfo("Trello", "\U{1F4CC}"))
    case "typeform" => Some(ToolInfo("Typeform", "\U{1F4DD}"))
    case "calendly" => Some(ToolInfo("Calendly", "\U{1F4C5}"))
    case "twilio" => Some(ToolInfo("Twilio", "\U{1F4F1}"))
    case "sendgrid" => Some(ToolInfo("SendGrid", "\U{1F4E8}"))
    case "mailchimp" => Some(ToolInfo("Mailchimp", "\U{1F435}"))
    case "asana" => Some(ToolInfo("Asana", "\U{2705}"))
    case "zoom" => Some(ToolInfo("Zoom", "\U{1F4F9}"))
    case "http" => Some(ToolInfo("HTTP", "\U{1F310}"))
    case "oauth" => Some(ToolInfo("OAuth", "\U{1F510}"))
    case _ => None
  }

  /** `getToolInfo`: the table entry, else the tool's own id with a package icon. */
  function GetToolInfo(tool: string): (r: ToolInfo)
    ensures ToolInfoTable(tool).Some? ==> r == ToolInfoTable(tool).value
    ensures ToolInfoTable(tool).None? ==> r == ToolInfo(tool, "\U{1F4E6}")
  {
    ToolInfoTable(tool).GetOr(ToolInfo(tool, "\U{1F4E6}"))
  }

  /** The i-th of the 13 `COMMON_TOOLS`. */
  function CommonTool(i: nat): string
    requires i < 13
  {
    match i
    case 0 => "slack"
    case 1 => "googleSheets"
    case 2 => "airtable"
    case 3 => "notion"
    case 4 => "gmail"
    case 5 => "hubspot"
    case 6 => "discord"
    case 7 => "telegram"
    case 8 => "github"
    case 9 => "jira"
    case 10 => "trello"
    case 11 => "typeform"
    case _ => "calendly"
  }

  /** The common tools from index `from` on that are not connected, in table order. */
  function MissingFrom(connected: seq<string>, from: nat): (r: seq<string>)
    requires from <= 13
    ensures |r| <= 13 - from
    decreases 13 - from
  {
    if from == 13 then []
    else (if CommonTool(from) !in connected then [CommonTool(from)] else []) + MissingFrom(connected, from + 1)
  }

  /** `missingCommonTools`. */
  function MissingCommonTools(connected: seq<string>): seq<string> {
    MissingFrom(connected, 0)
  }

  /** The missing list holds exactly the common tools that are not connected. */
  lemma {:induction false} MissingFromMembers(connected: seq<string>, from: nat, t: string)
    requires from <= 13
    ensures t in MissingFrom(connected, from) <==> t !in connected && exists i :: from <= i < 13 && CommonTool(i) == t
    decreases 13 - from
  {
    if from < 13 {
      MissingFromMembers(connected, from + 1, t);
      if t in MissingFrom(connected, from + 1) {
        var i :| from + 1 <= i < 13 && CommonTool(i) == t;
        assert from <= i;
      }
      if t !in connected && t == CommonTool(from) {
        assert t in MissingFrom(connected, from);
      }
      if t !in connected && t != CommonTool(from) && exists i :: from <= i < 13 && CommonTool(i) == t {
        var i :| from <= i < 13 && CommonTool(i) == t;
        assert from + 1 <= i;
      }
    }
  }

  // ---------------------------------------------------------------- the not-connected section

  /** `missingCommonTools.slice(0, 8)`. */
  function ShownMissing(missing: seq<string>): (r: seq<string>)
    ensures |r| <= 8 && |r| <= |missing| && r == missing[..|r|]
    ensures |missing| <= 8 ==> r == missing
  {
    if |missing| <= 8 then missing else missing[..8]
  }

  /** The '+k more' count, shown only when there are more than eight. */
  function MoreCount(missing: seq<string>): (r: Option<nat>)
    ensures r.Some? <==> |missing| > 8
    ensures r.Some? ==> r.value == |missing| - 8 && |ShownMissing(missing)| + r.value == |missing|
  {
    if |missing| > 8 then Some(|missing| - 8) else None
  }

  /** The section is shown when something is missing and something is connected. */
  predicate NotConnectedShown(credentials: seq<Credential>) {
    |MissingCommonTools(ToolsOf(credentials))| > 0 && |credentials| > 0
  }

  /** With no credential every common tool is missing: 13 of them, so 8 shown and '+5 more'; yet the section stays hidden. */
  lemma NoCredentials()
    ensures |MissingCommonTools([])| == 13 && MoreCount(MissingCommonTools([])) == Some(5)
    ensures !NotConnectedShown([])
  {
    AllMissing(0);
  }

  lemma {:induction false} AllMissing(from: nat)
    requires from <= 13
    ensures |MissingFrom([], from)| == 13 - from
    decreases 13 - from
  {
    if from < 13 {
      AllMissing(from + 1);
    }
  }

  // ---------------------------------------------------------------- Continue

  /** The Continue label names the number of connected tools when there is at least one. */
  function ContinueLabel(credentials: seq<Credential>): (r: string)
    ensures |credentials| == 0 <==> r == "Continue"
  {
    if |credentials| > 0 then "Continue with " + NatToString(|credentials|) + " tools" else "Continue"
  }
}

/**
 * The credential check after the tool choice: the selected tools are split into those with a
 * credential in n8n and those without, and Continue hands on the tools that have credentials.
 * The credentials are the response of the credentials endpoint.
 */
module CredentialGapCheck {
  import opened Wrappers
  import opened CredentialsRoute
  import opened CredentialsView

  datatype ToolInfo = ToolInfo(name: string, icon: string)

  /** `TOOL_INFO`. */
  function ToolInfoTable(tool: string): Option<ToolInfo> {
    match tool
    case "slack" => Some(ToolInfo("Slack", "\U{1F4AC}"))
    case "googleSheets" => Some(ToolInfo("Google Sheets", "\U{1F4CA}"))
    case "airtable" => Some(ToolInfo("Airtable", "\U{1F5C4}\U{FE0F}"))
    case "notion" => Some(ToolInfo("Notion", "\U{1F4DD}"))
    case "gmail" => Some(ToolInfo("Gmail", "\U{1F4E7}"))
    case "hubspot" => Some(ToolInfo("HubSpot", "\U{1F3AF}"))
    case "salesforce" => Some(ToolInfo("Salesforce", "\U{2601}\U{FE0F}"))
    case "stripe" => Some(ToolInfo("Stripe", "\U{1F4B3}"))
    case "discord" => Some(ToolInfo("Discord", "\U{1F3AE}"))
    case "telegram" => Some(ToolInfo("Telegram", "\U{2708}\U{FE0F}"))
    case "github" => Some(ToolInfo("GitHub", "\U{1F419}"))
    case "jira" => Some(ToolInfo("Jira", "\U{1F4CB}"))
    case "trello" => Some(ToolInfo("Trello", "\U{1F4CC}"))
    case "typeform" => Some(ToolInfo("Typeform", "\U{1F4DD}"))
    case "calendly" => Some(ToolInfo("Calendly", "\U{1F4C5}"))
    case "twilio" => Some(ToolInfo("Twilio", "\U{1F4F1}"))
    case "sendgrid" => Some(ToolInfo("SendGrid", "\U{1F4E8}"))
    case "mailchimp" => Some(ToolInfo("Mailchimp", "\U{1F435}"))
    case "asana" => Some(ToolInfo("Asana", "\U{2705}"))
    case "zoom" => Some(ToolInfo("Zoom", "\U{1F4F9}"))
    case "http" => Some(ToolInfo("HTTP", "\U{1F310}"))
    case _ => None
  }

  const PackageIcon := "\U{1F4E6}"

  /** `getToolInfo`: the table entry, else the tool's own id with a package icon. */
  function GetToolInfo(tool: string): (r: ToolInfo)
    ensures ToolInfoTable(tool).Some? ==> r == ToolInfoTable(tool).value
    ensures ToolInfoTable(tool).None? ==> r == ToolInfo(tool, PackageIcon)
  {
    ToolInfoTable(tool).GetOr(ToolInfo(tool, PackageIcon))
  }

  /** The selected tools with a credential, in selection order. */
  function ConnectedSelected(selected: seq<string>, available: seq<string>): seq<string> {
    if |selected| == 0 then []
    else
      var t := selected[|selected| - 1];
      ConnectedSelected(selected[..|selected| - 1], available) + (if t in available then [t] else [])
  }

  /** The selected tools without one, in selection order. */
  function MissingSelected(selected: seq<string>, available: seq<string>): seq<string> {
    if |selected| == 0 then []
    else
      var t := selected[|selected| - 1];
      MissingSelected(selected[..|selected| - 1], available) + (if t !in available then [t] else [])
  }

  /**
   * The two lists split the selection: a selected tool is connected exactly when it has a
   * credential and missing exactly when it has none, and together they are as long as the
   * selection.
   */
  lemma {:induction false} Partition(selected: seq<string>, available: seq<string>)
    ensures |ConnectedSelected(selected, available)| + |MissingSelected(selected, available)| == |selected|
    ensures forall t :: t in ConnectedSelected(selected, available) <==> t in selected && t in available
    ensures forall t :: t in MissingSelected(selected, available) <==> t in selected && t !in available
  {
    if |selected| > 0 {
      var p := selected[..|selected| - 1];
      Partition(p, available);
      assert selected == p + [selected[|selected| - 1]];
    }
  }

  /** `allConnected`: no selected tool lacks a credential. */
  predicate AllConnected(selected: seq<string>, available: seq<string>) {
    |MissingSelected(selected, available)| == 0
  }

  lemma AllConnectedIff(selected: seq<string>, available: seq<string>)
    ensures AllConnected(selected, available) <==> forall t :: t in selected ==> t in available
    ensures AllConnected(selected, available) ==> ConnectedSelected(selected, available) == selected
  {
    Partition(selected, available);
    if AllConnected(selected, available) {
      NothingMissing(selected, available);
    }
  }

  lemma {:induction false} NothingMissing(selected: seq<string>, available: seq<string>)
    requires forall t :: t in selected ==> t in available
    ensures ConnectedSelected(selected, available) == selected
  {
    if |selected| > 0 {
      var p := selected[..|selected| - 1];
      NothingMissing(p, available);
      assert selected == p + [selected[|selected| - 1]];
    }
  }

  // ---------------------------------------------------------------- Continue

  /**
   * The hand-on list holds every connected selected tool, and may hold more: the button label
   * counts only the connected selected tools.
   */
  lemma ContinueCoversConnected(selected: seq<string>, credentials: seq<Credential>)
    ensures forall t :: t in ConnectedSelected(selected, ToolsOf(credentials)) ==>
                          t in ContinueTools(Loaded(credentials)).value
  {
    Partition(selected, ToolsOf(credentials));
  }

  /**
   * With Gmail selected and only a Slack credential, no selected tool is connected, yet Slack
   * is handed on.
   */
  lemma UnselectedHandedOn()
    ensures var creds := [Credential("1", "Team Slack", "slackApi", "slack")];
            ConnectedSelected(["gmail"], ToolsOf(creds)) == [] && ContinueTools(Loaded(creds)) == Some(["slack"])
  {
    var creds := [Credential("1", "Team Slack", "slackApi", "slack")];
    assert ToolsOf(creds) == ["slack"];
    assert ["gmail"][..0] == [];
  }
}

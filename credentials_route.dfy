/**
 * The credentials endpoint: every n8n credential is labelled with the tool it unlocks, and only
 * the first credential of each tool is reported.
 */
module CredentialsRoute {
  import opened Wrappers
  import opened Text

  /** A credential as n8n lists it. */
  datatype N8nCredential = N8nCredential(id: string, name: string, credType: string)

  /** A credential of the response, with its tool. */
  datatype Credential = Credential(id: string, name: string, credType: string, tool: string)

  /** `CREDENTIAL_TO_TOOL`: the tool of a known credential type, None for any other. */
  function CredentialToTool(credType: string): Option<string> {
    match credType
    case "slackApi" => Some("slack")
    case "slackOAuth2Api" => Some("slack")
    case "googleSheetsOAuth2Api" => Some("googleSheets")
    case "googleOAuth2Api" => Some("googleSheets")
    case "airtableApi" => Some("airtable")
    case "airtableTokenApi" => Some("airtable")
    case "notionApi" => Some("notion")
    case "notionOAuth2Api" => Some("notion")
    case "gmailOAuth2" => Some("gmail")
    case "hubspotApi" => Some("hubspot")
    case "hubspotOAuth2Api" => Some("hubspot")
    case "salesforceOAuth2Api" => Some("salesforce")
    case "stripeApi" => Some("stripe")
    case "discordApi" => Some("discord")
    case "discordOAuth2Api" => Some("discord")
    case "discordWebhookApi" => Some("discord")
    case "telegramApi" => Some("telegram")
    case "githubApi" => Some("github")
    case "githubOAuth2Api" => Some("github")
    case "jiraSoftwareCloudApi" => Some("jira")
    case "jiraSoftwareServerApi" => Some("jira")
    case "trelloApi" => Some("trello")
    case "typeformApi" => Some("typeform")
    case "typeformOAuth2Api" => Some("typeform")
    case "calendlyApi" => Some("calendly")
    case "calendlyOAuth2Api" => Some("calendly")
    case "twilioApi" => Some("twilio")
    case "sendGridApi" => Some("sendgrid")
    case "mailchimpApi" => Some("mailchimp")
    case "asanaApi" => Some("asana")
    case "asanaOAuth2Api" => Some("asana")
    case "zoomApi" => Some("zoom")
    case "zoomOAuth2Api" => Some("zoom")
    case "httpBasicAuth" => Some("http")
    case "httpHeaderAuth" => Some("http")
    case "oAuth2Api" => Some("oauth")
    case _ => None
  }

  /** Every table value is a non-empty string, so a hit is always truthy. */
  lemma TableValuesNonEmpty(credType: string)
    requires CredentialToTool(credType).Some?
    ensures |CredentialToTool(credType).value| > 0
  {
  }

  // ---------------------------------------------------------------- the regular expression

  /** The alternatives `Api|OAuth2Api|OAuth2|Token` followed by the end of the input. */
  predicate IsCredentialSuffix(rest: string) {
    rest == "Api" || rest == "OAuth2Api" || rest == "OAuth2" || rest == "Token"
  }

  /** The lazy group `([a-zA-Z]+?)` can end at `k`: k letters, then a suffix to the end. */
  predicate SplitsAt(s: string, k: nat) {
    1 <= k <= |s| && AllLetters(s[..k]) && IsCredentialSuffix(s[k..])
  }

  /** The lazy search: the first group length from `k` on at which the match succeeds. */
  function FirstSplit(s: string, k: nat): (r: Option<nat>)
    ensures r.Some? ==> k <= r.value <= |s| && SplitsAt(s, r.value)
    decreases |s| - k
  {
    if k > |s| then None
    else if k >= 1 && SplitsAt(s, k) then Some(k)
    else FirstSplit(s, k + 1)
  }

  /** The search from 1 finds the least split point, and finds none exactly when there is none. */
  lemma {:induction false} FirstSplitIsLeast(s: string, k: nat)
    requires k >= 1
    ensures FirstSplit(s, k).Some? ==> (var n := FirstSplit(s, k).value;
              k <= n && SplitsAt(s, n) && forall j :: k <= j < n ==> !SplitsAt(s, j))
    ensures FirstSplit(s, k).None? ==> forall j :: k <= j ==> !SplitsAt(s, j)
    decreases |s| - k
  {
    if k <= |s| && !SplitsAt(s, k) {
      FirstSplitIsLeast(s, k + 1);
    }
  }

  /** `mapCredentialToTool`. */
  function MapCredentialToTool(credType: string): string {
    match CredentialToTool(credType)
    case Some(tool) => tool
    case None =>
      match FirstSplit(credType, 1)
      case Some(k) => Lower(credType[..k])
      case None => credType
  }

  /**
   * A table key maps to its table value; any other type that the pattern matches maps to the
   * shortest letter-only prefix before a suffix, lowercased; every other type to itself.
   */
  lemma MapCredentialToToolCases(credType: string)
    ensures CredentialToTool(credType).Some? ==> MapCredentialToTool(credType) == CredentialToTool(credType).value
    ensures CredentialToTool(credType).None? && (exists k: nat :: SplitsAt(credType, k)) ==>
              exists k: nat :: SplitsAt(credType, k) && (forall j :: 1 <= j < k ==> !SplitsAt(credType, j))
                          && MapCredentialToTool(credType) == Lower(credType[..k])
    ensures CredentialToTool(credType).None? && (forall k: nat :: !SplitsAt(credType, k)) ==>
              MapCredentialToTool(credType) == credType
  {
    FirstSplitIsLeast(credType, 1);
  }

  /**
   * 'microsoftExcelOAuth2Api' maps to 'microsoftexcel': the lazy group stops at the first
   * suffix, and the group is lowercased.
   */
  lemma MicrosoftExcel()
    ensures MapCredentialToTool("microsoftExcelOAuth2Api") == "microsoftexcel"
  {
    ExcelNotInTable();
    ExcelSplit();
    ExcelLower();
  }

  lemma ExcelNotInTable()
    ensures CredentialToTool("microsoftExcelOAuth2Api").None?
  {
  }

  lemma ExcelSplit()
    ensures FirstSplit("microsoftExcelOAuth2Api", 1) == Some(14)
  {
    var s := "microsoftExcelOAuth2Api";
    forall j | 1 <= j < 14
      ensures !SplitsAt(s, j)
    {
      assert |s[j..]| > 9;
    }
    assert s[14..] == "OAuth2Api";
    assert SplitsAt(s, 14);
    FirstSplitIsLeast(s, 1);
  }

  lemma ExcelLower()
    ensures Lower("microsoftExcelOAuth2Api"[..14]) == "microsoftexcel"
  {
  }

  /** A type containing a non-letter before every suffix is returned as it is. */
  lemma NoPatternUnchanged(credType: string)
    requires CredentialToTool(credType).None?
    requires forall k :: 1 <= k <= |credType| && IsCredentialSuffix(credType[k..]) ==> !AllLetters(credType[..k])
    ensures MapCredentialToTool(credType) == credType
  {
    FirstSplitIsLeast(credType, 1);
  }

  // ---------------------------------------------------------------- the response

  /** The `map` labelling every credential with its tool. */
  function WithTools(creds: seq<N8nCredential>): (r: seq<Credential>)
    ensures |r| == |creds|
    ensures forall i :: 0 <= i < |creds| ==>
              r[i] == Credential(creds[i].id, creds[i].name, creds[i].credType, MapCredentialToTool(creds[i].credType))
  {
    seq(|creds|, i requires 0 <= i < |creds| =>
      Credential(creds[i].id, creds[i].name, creds[i].credType, MapCredentialToTool(creds[i].credType)))
  }

  /** No earlier credential has the same tool. */
  predicate FirstOfTool(creds: seq<Credential>, i: nat)
    requires i < |creds|
  {
    forall j :: 0 <= j < i ==> creds[j].tool != creds[i].tool
  }

  /** The credentials that are the first of their tool, in order. */
  function FirstOfEachTool(creds: seq<Credential>): seq<Credential> {
    if |creds| == 0 then []
    else
      FirstOfEachTool(creds[..|creds| - 1]) + (if FirstOfTool(creds, |creds| - 1) then [creds[|creds| - 1]] else [])
  }

  function ToolSet(creds: seq<Credential>): set<string> {
    set i | 0 <= i < |creds| :: creds[i].tool
  }

  /** The deduplicating `filter` over the labelled credentials, with its `toolsSeen` set. */
  method DeduplicateByTool(creds: seq<Credential>) returns (unique: seq<Credential>)
    ensures unique == FirstOfEachTool(creds)
  {
    var toolsSeen: set<string> := {};
    unique := [];
    for i := 0 to |creds|
      invariant toolsSeen == ToolSet(creds[..i])
      invariant unique == FirstOfEachTool(creds[..i])
    {
      var p := creds[..i + 1];
      assert p[..i] == creds[..i];
      assert FirstOfTool(p, i) <==> creds[i].tool !in toolsSeen by {
        assert forall j :: 0 <= j < i ==> p[j] == creds[..i][j];
      }
      assert ToolSet(p) == ToolSet(creds[..i]) + {creds[i].tool} by {
        assert forall j :: 0 <= j < i ==> p[j] == creds[..i][j];
      }
      if creds[i].tool !in toolsSeen {
        toolsSeen := toolsSeen + {creds[i].tool};
        unique := unique + [creds[i]];
      }
    }
    assert creds[..|creds|] == creds;
  }

  /** The kept credentials have pairwise distinct tools, and together they have every tool. */
  lemma {:induction false} FirstOfEachToolDistinct(creds: seq<Credential>)
    ensures var u := FirstOfEachTool(creds);
            forall i, j :: 0 <= i < j < |u| ==> u[i].tool != u[j].tool
    ensures ToolSet(FirstOfEachTool(creds)) == ToolSet(creds)
  {
    if |creds| > 0 {
      var p := creds[..|creds| - 1];
      var c := creds[|creds| - 1];
      FirstOfEachToolDistinct(p);
      var up := FirstOfEachTool(p);
      assert forall j :: 0 <= j < |p| ==> p[j] == creds[j];
      assert ToolSet(creds) == ToolSet(p) + {c.tool};
      if FirstOfTool(creds, |creds| - 1) {
        var u := up + [c];
        forall j | 0 <= j < |p|
          ensures p[j].tool != c.tool
        {
        }
        assert c.tool !in ToolSet(p);
        assert ToolSet(u) == ToolSet(up) + {c.tool} by {
          assert forall j :: 0 <= j < |up| ==> u[j] == up[j];
          assert u[|up|] == c;
        }
        forall i | 0 <= i < |up|
          ensures up[i].tool != c.tool
        {
          assert up[i].tool in ToolSet(up);
        }
      } else {
        var j :| 0 <= j < |creds| - 1 && creds[j].tool == c.tool;
        assert p[j].tool == c.tool && p[j].tool in ToolSet(p);
        assert FirstOfEachTool(creds) == up;
      }
    }
  }

  /** A credential is kept exactly when it occurs at a position where its tool first appears. */
  lemma {:induction false} FirstOfEachToolMembers(creds: seq<Credential>, c: Credential)
    ensures c in FirstOfEachTool(creds) <==> exists i :: 0 <= i < |creds| && creds[i] == c && FirstOfTool(creds, i)
  {
    if |creds| > 0 {
      var n := |creds| - 1;
      var p := creds[..n];
      FirstOfEachToolMembers(p, c);
      assert forall i :: 0 <= i < n ==> (FirstOfTool(p, i) <==> FirstOfTool(creds, i)) by {
        assert forall j :: 0 <= j < n ==> p[j] == creds[j];
      }
      if c in FirstOfEachTool(creds) && c !in FirstOfEachTool(p) {
        assert creds[n] == c && FirstOfTool(creds, n);
      }
      if i :| 0 <= i < |creds| && creds[i] == c && FirstOfTool(creds, i) {
        if i < n {
          assert p[i] == c && FirstOfTool(p, i);
        }
      }
    }
  }
}

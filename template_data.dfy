/**
 * The template catalogue: a template is a wizard (steps of fields the user fills in), a preview
 * of its nodes, and an n8n workflow whose parameters hold `{{fieldId}}` placeholders.  The three
 * shipped templates are written out, with the two lookups over them.  The free text of the
 * catalogue (taglines, descriptions, field placeholders, and the message texts of the workflows
 * that hold no field placeholder) carries no behaviour and is not part of this model.
 */
module Templates {
  import opened Wrappers
  import opened Text
  import opened Graph

  datatype TemplateCategory = Marketing | Ops | Sales
  datatype TemplateComplexity = Simple | Medium | Sophisticated
  datatype FieldType = TextField | SelectField | NumberField | ChannelField | EmailField

  /** A default value or a value entered in the wizard: a string or a number. */
  datatype FieldValue = StrValue(s: string) | NumValue(n: int)

  datatype SelectOption = SelectOption(value: string, optionLabel: string)

  datatype TemplateField = TemplateField(id: string, fieldType: FieldType, fieldLabel: string, required: bool,
                                         options: Option<seq<SelectOption>>,
                                         defaultValue: Option<FieldValue>, nodeId: string,
                                         paramPath: string)

  datatype TemplateStep = TemplateStep(id: string, title: string, fields: seq<TemplateField>)

  /** A node of the preview. */
  datatype PreviewNode = PreviewNode(id: string, name: string, icon: string)

  /** A node of a template's workflow; its parameters are a JSON object. */
  datatype TemplateNode = TemplateNode(name: string, nodeType: string, typeVersion: int,
                                       position: (int, int), parameters: seq<(string, Json)>)

  datatype N8nWorkflow = N8nWorkflow(name: string, nodes: seq<TemplateNode>, connections: Connections)

  datatype Template = Template(id: string, name: string, category: TemplateCategory, complexity: TemplateComplexity,
                               apps: seq<string>, setupTime: int, steps: seq<TemplateStep>,
                               previewNodes: seq<PreviewNode>, workflow: N8nWorkflow)

  /** The workflow as the validator receives it. */
  function AsRaw(w: N8nWorkflow): (r: RawWorkflow)
    ensures r.WorkflowObject? && r.name == Some(w.name) && r.connections == Some(w.connections)
    ensures r.nodes.Some? && |r.nodes.value| == |w.nodes|
    ensures forall i :: 0 <= i < |w.nodes| ==>
              r.nodes.value[i] == RawNode(Some(w.nodes[i].name), Some(w.nodes[i].nodeType))
  {
    WorkflowObject(Some(w.name),
                   Some(seq(|w.nodes|, i requires 0 <= i < |w.nodes| =>
                          RawNode(Some(w.nodes[i].name), Some(w.nodes[i].nodeType)))),
                   Some(w.connections))
  }

  /** One connection group holding a single target on input 0. */
  function To(node: string): Group { Outputs([Target(node, "main", Some(0))]) }

  // ---------------------------------------------------------------- template 1: lead scoring

  function LeadScoringSteps(): seq<TemplateStep> {
    [ TemplateStep("trigger", "Set Up Your Trigger",
        [TemplateField("webhookPath", TextField, "Webhook Path", true, None,
                       Some(StrValue("lead-intake")), "webhook", "path")]),
      TemplateStep("scoring", "Configure Lead Scoring",
        [TemplateField("scoreThreshold", NumberField, "Minimum Score for Sales Alert", true, None,
                       Some(NumValue(70)), "if", "conditions.number[0].value2")]),
      TemplateStep("notifications", "Set Up Notifications",
        [TemplateField("slackChannel", TextField, "Slack Channel", true, None,
                       Some(StrValue("#sales-leads")), "slack", "channel")]) ]
  }

  function LeadScoringPreview(): seq<PreviewNode> {
    [ PreviewNode("webhook", "Form Submitted", "webhook"), PreviewNode("set", "Calculate Score", "calculator"),
      PreviewNode("if", "Check Score", "branch"), PreviewNode("slack", "Alert Sales", "slack") ]
  }

  /** The n8n expression of 'Calculate Score' that computes `leadScore`. */
  const LeadScoreExpression := "={{ ($json.company ? 30 : 0) + ($json.email?.includes(\"@gmail\") ? 10 : 25)"
                               + " + ($json.budget > 1000 ? 35 : 15) }}"

  function LeadScoringNodes(): seq<TemplateNode> {
    [ TemplateNode("Webhook", "n8n-nodes-base.webhook", 1, (250, 300),
        [("httpMethod", JStr("POST")), ("path", JStr("{{webhookPath}}")),
         ("responseMode", JStr("onReceived")), ("responseData", JStr("allEntries"))]),
      TemplateNode("Calculate Score", "n8n-nodes-base.set", 1, (450, 300),
        [("keepOnlySet", JBool(false)),
         ("values", JObj([("number", JArr([JObj([("name", JStr("leadScore")), ("value", JStr(LeadScoreExpression))])]))]))]),
      TemplateNode("Check Score", "n8n-nodes-base.if", 1, (650, 300),
        [("conditions", JObj([("number", JArr([JObj([("value1", JStr("={{$json.leadScore}}")),
           ("operation", JStr("largerEqual")), ("value2", JStr("{{scoreThreshold}}"))])]))]))]),
      TemplateNode("Alert Sales", "n8n-nodes-base.slack", 1, (850, 200),
        [("channel", JStr("{{slackChannel}}")), ("attachments", JArr([])), ("otherOptions", JObj([]))]),
      TemplateNode("Add to Nurture", "n8n-nodes-base.set", 1, (850, 400),
        [("keepOnlySet", JBool(false)),
         ("values", JObj([("string", JArr([JObj([("name", JStr("status")), ("value", JStr("nurture"))])]))]))]) ]
  }

  function LeadScoringConnections(): Connections {
    [ ("Webhook", Connection(Some([To("Calculate Score")]))),
      ("Calculate Score", Connection(Some([To("Check Score")]))),
      ("Check Score", Connection(Some([To("Alert Sales"), To("Add to Nurture")]))) ]
  }

  function LeadScoringWorkflow(): N8nWorkflow {
    N8nWorkflow("Lead Scoring & Routing", LeadScoringNodes(), LeadScoringConnections())
  }

  function LeadScoring(): Template {
    Template("lead-scoring", "Lead Scoring & Routing", Sales, Sophisticated, ["webhook", "slack", "airtable"], 5,
             LeadScoringSteps(), LeadScoringPreview(), LeadScoringWorkflow())
  }

  // ---------------------------------------------------------------- template 2: customer health

  function CustomerHealthSteps(): seq<TemplateStep> {
    [ TemplateStep("schedule", "Set Check Frequency",
        [TemplateField("checkHour", SelectField, "Daily Check Time", true,
                       Some([SelectOption("6", "6:00 AM"), SelectOption("9", "9:00 AM"),
                             SelectOption("12", "12:00 PM"), SelectOption("18", "6:00 PM")]),
                       Some(StrValue("9")), "cron", "triggerTimes.item[0].hour")]),
      TemplateStep("data", "Connect Your Data",
        [TemplateField("apiUrl", TextField, "Customer Data API URL", true, None, None, "http", "url")]),
      TemplateStep("alerts", "Configure Alerts",
        [TemplateField("alertChannel", TextField, "Slack Channel for Alerts", true, None,
                       Some(StrValue("#customer-success")), "slack", "channel"),
         TemplateField("daysInactive", NumberField, "Days Inactive = At Risk", true, None,
                       Some(NumValue(14)), "if", "conditions.number[0].value2")]) ]
  }

  function CustomerHealthPreview(): seq<PreviewNode> {
    [ PreviewNode("cron", "Daily Check", "clock"), PreviewNode("http", "Fetch Customers", "database"),
      PreviewNode("if", "Check Activity", "branch"), PreviewNode("slack", "Alert Team", "slack") ]
  }

  function CustomerHealthNodes(): seq<TemplateNode> {
    [ TemplateNode("Daily Check", "n8n-nodes-base.cron", 1, (250, 300),
        [("triggerTimes", JObj([("item", JArr([JObj([("mode", JStr("everyDay")), ("hour", JStr("{{checkHour}}"))])]))]))]),
      TemplateNode("Fetch Customers", "n8n-nodes-base.httpRequest", 1, (450, 300),
        [("url", JStr("{{apiUrl}}")), ("method", JStr("GET")),
         ("options", JObj([("splitIntoItems", JBool(true))]))]),
      TemplateNode("Check Activity", "n8n-nodes-base.if", 1, (650, 300),
        [("conditions", JObj([("number", JArr([JObj([("value1", JStr("={{$json.daysSinceLastActivity}}")),
           ("operation", JStr("larger")), ("value2", JStr("{{daysInactive}}"))])]))]))]),
      TemplateNode("Alert Team", "n8n-nodes-base.slack", 1, (850, 200),
        [("channel", JStr("{{alertChannel}}"))]) ]
  }

  function CustomerHealthConnections(): Connections {
    [ ("Daily Check", Connection(Some([To("Fetch Customers")]))),
      ("Fetch Customers", Connection(Some([To("Check Activity")]))),
      ("Check Activity", Connection(Some([To("Alert Team"), Outputs([])]))) ]
  }

  function CustomerHealthWorkflow(): N8nWorkflow {
    N8nWorkflow("Customer Health Monitor", CustomerHealthNodes(), CustomerHealthConnections())
  }

  function CustomerHealth(): Template {
    Template("customer-health", "Customer Health Monitor", Ops, Sophisticated, ["schedule", "http", "slack"], 5,
             CustomerHealthSteps(), CustomerHealthPreview(), CustomerHealthWorkflow())
  }

  // ---------------------------------------------------------------- template 3: content distribution

  function ContentDistributionSteps(): seq<TemplateStep> {
    [ TemplateStep("source", "Connect Your Blog",
        [TemplateField("rssFeed", TextField, "Blog RSS Feed URL", true, None, None, "rss", "url")]),
      TemplateStep("ai", "Configure AI Generation",
        [TemplateField("tone", SelectField, "Social Post Tone", true,
                       Some([SelectOption("professional", "Professional"),
                             SelectOption("casual", "Casual & Friendly"),
                             SelectOption("witty", "Witty & Engaging"),
                             SelectOption("educational", "Educational")]),
                       Some(StrValue("professional")), "openai", "tone")]),
      TemplateStep("notify", "Notify Your Team",
        [TemplateField("marketingChannel", TextField, "Slack Channel", true, None,
                       Some(StrValue("#marketing")), "slack", "channel")]) ]
  }

  function ContentDistributionPreview(): seq<PreviewNode> {
    [ PreviewNode("rss", "New Blog Post", "rss"), PreviewNode("openai", "Generate Posts", "sparkles"),
      PreviewNode("slack", "Notify Team", "slack") ]
  }

  /** The prompt of 'Generate Posts': `{{tone}}` is a wizard field, the `{{$json...}}` parts n8n expressions. */
  const TonePrompt := "=Create 3 social media posts " + "for this blog article in a {{tone}} tone:"
                      + "\n\nTitle: {{$json.title}}\nSummary: {{$json.contentSnippet}}\nLink: {{$json.link}}"
                      + "\n\nFormat as:\n1. Twitter (280 chars max)\n2. LinkedIn (longer, professional)"
                      + "\n3. Instagram caption (with emoji)"

  function ContentDistributionNodes(): seq<TemplateNode> {
    [ TemplateNode("New Blog Post", "n8n-nodes-base.rssFeedReadTrigger", 1, (250, 300),
        [("url", JStr("{{rssFeed}}")),
         ("pollTimes", JObj([("item", JArr([JObj([("mode", JStr("everyHour"))])]))]))]),
      TemplateNode("Generate Posts", "n8n-nodes-base.openAi", 1, (450, 300),
        [("operation", JStr("text")), ("prompt", JStr(TonePrompt))]),
      TemplateNode("Notify Team", "n8n-nodes-base.slack", 1, (650, 300),
        [("channel", JStr("{{marketingChannel}}"))]) ]
  }

  function ContentDistributionConnections(): Connections {
    [ ("New Blog Post", Connection(Some([To("Generate Posts")]))),
      ("Generate Posts", Connection(Some([To("Notify Team")]))) ]
  }

  function ContentDistributionWorkflow(): N8nWorkflow {
    N8nWorkflow("Content Distribution Pipeline", ContentDistributionNodes(), ContentDistributionConnections())
  }

  function ContentDistribution(): Template {
    Template("content-distribution", "Content Distribution Pipeline", Marketing, Sophisticated,
             ["rss", "openai", "slack"], 5,
             ContentDistributionSteps(), ContentDistributionPreview(), ContentDistributionWorkflow())
  }

  /** `templates`. */
  function AllTemplates(): seq<Template> {
    [LeadScoring(), CustomerHealth(), ContentDistribution()]
  }

  // ---------------------------------------------------------------- lookups

  /** `templates.find((t) => t.id === id)` over a list of templates. */
  function FindById(ts: seq<Template>, id: string): (r: Option<Template>)
    ensures r.None? <==> forall i :: 0 <= i < |ts| ==> ts[i].id != id
    ensures r.Some? ==> exists i :: 0 <= i < |ts| && ts[i] == r.value && r.value.id == id
                                    && forall j :: 0 <= j < i ==> ts[j].id != id
  {
    if |ts| == 0 then None
    else if ts[0].id == id then Some(ts[0])
    else
      var r := FindById(ts[1..], id);
      assert forall i :: 0 <= i < |ts| - 1 ==> ts[1..][i] == ts[i + 1];
      r
  }

  /** `getTemplateById`. */
  function GetTemplateById(id: string): Option<Template> {
    FindById(AllTemplates(), id)
  }

  /** `templates.filter((t) => t.category === category)` over a list of templates. */
  function FilterByCategory(ts: seq<Template>, category: TemplateCategory): (r: seq<Template>)
    ensures forall t :: t in r ==> t.category == category && t in ts
    ensures forall i :: 0 <= i < |ts| && ts[i].category == category ==> ts[i] in r
    ensures |r| <= |ts|
  {
    if |ts| == 0 then []
    else
      FilterByCategory(ts[..|ts| - 1], category)
        + (if ts[|ts| - 1].category == category then [ts[|ts| - 1]] else [])
  }

  /** The filter keeps a single template exactly when it is of the category. */
  lemma FilterOne(t: Template, category: TemplateCategory)
    ensures FilterByCategory([t], category) == if t.category == category then [t] else []
  {
    assert [t][..0] == [];
  }

  /**
   * Filtering a concatenation filters each part and concatenates the results, so with
   * FilterOne the filter keeps the templates of the category in input order, each as often
   * as it occurs.
   */
  lemma {:induction false} FilterAppend(xs: seq<Template>, ys: seq<Template>, category: TemplateCategory)
    ensures FilterByCategory(xs + ys, category) == FilterByCategory(xs, category) + FilterByCategory(ys, category)
    decreases |ys|
  {
    if |ys| == 0 {
      assert xs + ys == xs;
    } else {
      var init := ys[..|ys| - 1];
      var last := ys[|ys| - 1];
      var tail := if last.category == category then [last] else [];
      assert (xs + ys)[..|xs + ys| - 1] == xs + init;
      assert (xs + ys)[|xs + ys| - 1] == last;
      assert FilterByCategory(xs + ys, category) == FilterByCategory(xs + init, category) + tail;
      FilterAppend(xs, init, category);
      assert FilterByCategory(ys, category) == FilterByCategory(init, category) + tail;
    }
  }

  /**
   * `getTemplatesByCategory`; a string naming no category, which selects nothing, is None.
   */
  function GetTemplatesByCategory(category: Option<TemplateCategory>): seq<Template> {
    if category.None? then [] else FilterByCategory(AllTemplates(), category.value)
  }

  /** In a list of three templates with distinct ids, each is found by its own id. */
  lemma FindAmongThree(a: Template, b: Template, c: Template, id: string)
    requires a.id != b.id && a.id != c.id && b.id != c.id
    ensures FindById([a, b, c], id) ==
              if id == a.id then Some(a) else if id == b.id then Some(b) else if id == c.id then Some(c) else None
  {
    assert [a, b, c][1..] == [b, c];
    assert [b, c][1..] == [c];
    assert [c][1..] == [];
    assert FindById([c], id) == if id == c.id then Some(c) else None;
    assert FindById([b, c], id) == if id == b.id then Some(b) else if id == c.id then Some(c) else None;
  }

  /** Each shipped template is found by its own id, and no other id finds anything. */
  lemma GetTemplateByIdCases(id: string)
    ensures GetTemplateById(id) ==
              if id == "lead-scoring" then Some(LeadScoring())
              else if id == "customer-health" then Some(CustomerHealth())
              else if id == "content-distribution" then Some(ContentDistribution())
              else None
  {
    FindAmongThree(LeadScoring(), CustomerHealth(), ContentDistribution(), id);
  }

  /** The filter over three templates keeps those of the category, in order. */
  lemma FilterThree(a: Template, b: Template, c: Template, category: TemplateCategory)
    ensures FilterByCategory([a, b, c], category) ==
              (if a.category == category then [a] else []) + (if b.category == category then [b] else [])
              + (if c.category == category then [c] else [])
  {
    assert [a, b, c][..2] == [a, b];
    assert [a, b][..1] == [a];
    assert [a][..0] == [];
    assert FilterByCategory([a], category) == if a.category == category then [a] else [];
    assert FilterByCategory([a, b], category) ==
             (if a.category == category then [a] else []) + (if b.category == category then [b] else []);
  }

  /** Each category has exactly one of the shipped templates; an unknown category has none. */
  lemma GetTemplatesByCategoryCases(category: Option<TemplateCategory>)
    ensures GetTemplatesByCategory(category) ==
              match category
              case None => []
              case Some(Sales) => [LeadScoring()]
              case Some(Ops) => [CustomerHealth()]
              case Some(Marketing) => [ContentDistribution()]
  {
    if category.Some? {
      FilterThree(LeadScoring(), CustomerHealth(), ContentDistribution(), category.value);
    }
  }

  // ---------------------------------------------------------------- placeholders and references

  /** The text occurs in some string of the JSON value. */
  predicate MentionedIn(j: Json, text: string)
    decreases j
  {
    match j
    case JStr(s) => Contains(s, text)
    case JArr(items) => exists i :: 0 <= i < |items| && MentionedIn(items[i], text)
    case JObj(fields) => exists i :: 0 <= i < |fields| && MentionedIn(fields[i].1, text)
    case _ => false
  }

  /** The text occurs in some parameter string of some node. */
  predicate NodesMention(nodes: seq<TemplateNode>, text: string) {
    exists n, k :: 0 <= n < |nodes| && 0 <= k < |nodes[n].parameters|
                   && MentionedIn(nodes[n].parameters[k].1, text)
  }

  function Placeholder(id: string): string { "{{" + id + "}}" }

  /** Every field of every step has its placeholder somewhere in the workflow's parameters. */
  predicate PlaceholdersPresent(steps: seq<TemplateStep>, nodes: seq<TemplateNode>) {
    forall s, i :: 0 <= s < |steps| && 0 <= i < |steps[s].fields| ==>
      NodesMention(nodes, Placeholder(steps[s].fields[i].id))
  }

  predicate InPreview(preview: seq<PreviewNode>, nodeId: string) {
    exists p :: 0 <= p < |preview| && preview[p].id == nodeId
  }

  /** Every field names a node of the preview as the node it configures. */
  predicate NodeIdsPreviewed(steps: seq<TemplateStep>, preview: seq<PreviewNode>) {
    forall s, i :: 0 <= s < |steps| && 0 <= i < |steps[s].fields| ==> InPreview(preview, steps[s].fields[i].nodeId)
  }

  lemma ContainsItself(s: string)
    ensures Contains(s, s)
  {
    assert Occurs(s, s, 0);
  }

  /** A string parameter that is exactly the placeholder. */
  lemma Direct(nodes: seq<TemplateNode>, n: nat, k: nat, id: string)
    requires n < |nodes| && k < |nodes[n].parameters|
    requires nodes[n].parameters[k].1 == JStr(Placeholder(id))
    ensures NodesMention(nodes, Placeholder(id))
  {
    ContainsItself(Placeholder(id));
    assert MentionedIn(nodes[n].parameters[k].1, Placeholder(id));
  }

  /** A placeholder one `{ key: [ { ..., key2: placeholder } ] }` level down. */
  lemma Nested(nodes: seq<TemplateNode>, n: nat, k: nat, id: string, a: nat)
    requires n < |nodes| && k < |nodes[n].parameters|
    requires nodes[n].parameters[k].1.JObj? && |nodes[n].parameters[k].1.fields| == 1
    requires nodes[n].parameters[k].1.fields[0].1.JArr? && |nodes[n].parameters[k].1.fields[0].1.items| == 1
    requires nodes[n].parameters[k].1.fields[0].1.items[0].JObj?
    requires a < |nodes[n].parameters[k].1.fields[0].1.items[0].fields|
    requires nodes[n].parameters[k].1.fields[0].1.items[0].fields[a].1 == JStr(Placeholder(id))
    ensures NodesMention(nodes, Placeholder(id))
  {
    var j := nodes[n].parameters[k].1;
    var inner := j.fields[0].1.items[0];
    ContainsItself(Placeholder(id));
    assert MentionedIn(inner.fields[a].1, Placeholder(id));
    assert MentionedIn(inner, Placeholder(id));
    assert MentionedIn(j.fields[0].1, Placeholder(id));
    assert MentionedIn(j, Placeholder(id));
  }

  lemma LeadScoringPlaceholders()
    ensures PlaceholdersPresent(LeadScoringSteps(), LeadScoringNodes())
  {
    var steps, nodes := LeadScoringSteps(), LeadScoringNodes();
    LeadScoringWebhookPath();
    LeadScoringThreshold();
    LeadScoringChannel();
    forall s, i | 0 <= s < |steps| && 0 <= i < |steps[s].fields|
      ensures NodesMention(nodes, Placeholder(steps[s].fields[i].id))
    {
      if s == 0 {
        assert steps[s].fields[i].id == "webhookPath";
      } else if s == 1 {
        assert steps[s].fields[i].id == "scoreThreshold";
      } else {
        assert steps[s].fields[i].id == "slackChannel";
      }
    }
  }

  lemma LeadScoringWebhookPath()
    ensures NodesMention(LeadScoringNodes(), Placeholder("webhookPath"))
  {
    Direct(LeadScoringNodes(), 0, 1, "webhookPath");
  }

  lemma LeadScoringThreshold()
    ensures NodesMention(LeadScoringNodes(), Placeholder("scoreThreshold"))
  {
    Nested(LeadScoringNodes(), 2, 0, "scoreThreshold", 2);
  }

  lemma LeadScoringChannel()
    ensures NodesMention(LeadScoringNodes(), Placeholder("slackChannel"))
  {
    Direct(LeadScoringNodes(), 3, 0, "slackChannel");
  }

  lemma LeadScoringPreviewed()
    ensures NodeIdsPreviewed(LeadScoringSteps(), LeadScoringPreview())
  {
    var steps, preview := LeadScoringSteps(), LeadScoringPreview();
    forall s, i | 0 <= s < |steps| && 0 <= i < |steps[s].fields|
      ensures InPreview(preview, steps[s].fields[i].nodeId)
    {
      var p := if s == 0 then 0 else if s == 1 then 2 else 3;
      assert preview[p].id == steps[s].fields[i].nodeId;
    }
  }

  lemma CustomerHealthPlaceholders()
    ensures PlaceholdersPresent(CustomerHealthSteps(), CustomerHealthNodes())
  {
    var steps, nodes := CustomerHealthSteps(), CustomerHealthNodes();
    CustomerHealthHour();
    CustomerHealthUrl();
    CustomerHealthDays();
    CustomerHealthChannel();
    forall s, i | 0 <= s < |steps| && 0 <= i < |steps[s].fields|
      ensures NodesMention(nodes, Placeholder(steps[s].fields[i].id))
    {
      if s == 0 {
        assert steps[s].fields[i].id == "checkHour";
      } else if s == 1 {
        assert steps[s].fields[i].id == "apiUrl";
      } else if i == 0 {
        assert steps[s].fields[i].id == "alertChannel";
      } else {
        assert steps[s].fields[i].id == "daysInactive";
      }
    }
  }

  lemma CustomerHealthHour()
    ensures NodesMention(CustomerHealthNodes(), Placeholder("checkHour"))
  {
    Nested(CustomerHealthNodes(), 0, 0, "checkHour", 1);
  }

  lemma CustomerHealthUrl()
    ensures NodesMention(CustomerHealthNodes(), Placeholder("apiUrl"))
  {
    Direct(CustomerHealthNodes(), 1, 0, "apiUrl");
  }

  lemma CustomerHealthDays()
    ensures NodesMention(CustomerHealthNodes(), Placeholder("daysInactive"))
  {
    Nested(CustomerHealthNodes(), 2, 0, "daysInactive", 2);
  }

  lemma CustomerHealthChannel()
    ensures NodesMention(CustomerHealthNodes(), Placeholder("alertChannel"))
  {
    Direct(CustomerHealthNodes(), 3, 0, "alertChannel");
  }

  lemma CustomerHealthPreviewed()
    ensures NodeIdsPreviewed(CustomerHealthSteps(), CustomerHealthPreview())
  {
    var steps, preview := CustomerHealthSteps(), CustomerHealthPreview();
    forall s, i | 0 <= s < |steps| && 0 <= i < |steps[s].fields|
      ensures InPreview(preview, steps[s].fields[i].nodeId)
    {
      var p := if s == 0 then 0 else if s == 1 then 1 else if i == 0 then 3 else 2;
      assert preview[p].id == steps[s].fields[i].nodeId;
    }
  }

  lemma ContentDistributionPlaceholders()
    ensures PlaceholdersPresent(ContentDistributionSteps(), ContentDistributionNodes())
  {
    var steps, nodes := ContentDistributionSteps(), ContentDistributionNodes();
    ContentDistributionFeed();
    ContentDistributionTone();
    ContentDistributionChannel();
    forall s, i | 0 <= s < |steps| && 0 <= i < |steps[s].fields|
      ensures NodesMention(nodes, Placeholder(steps[s].fields[i].id))
    {
      if s == 0 {
        assert steps[s].fields[i].id == "rssFeed";
      } else if s == 1 {
        assert steps[s].fields[i].id == "tone";
      } else {
        assert steps[s].fields[i].id == "marketingChannel";
      }
    }
  }

  lemma ContentDistributionFeed()
    ensures NodesMention(ContentDistributionNodes(), Placeholder("rssFeed"))
  {
    Direct(ContentDistributionNodes(), 0, 0, "rssFeed");
  }

  /** The tone placeholder sits inside the prompt text rather than making up a whole parameter. */
  lemma ContentDistributionTone()
    ensures NodesMention(ContentDistributionNodes(), Placeholder("tone"))
  {
    var nodes := ContentDistributionNodes();
    assert Occurs(TonePrompt, Placeholder("tone"), 56);
    assert MentionedIn(nodes[1].parameters[1].1, Placeholder("tone"));
  }

  lemma ContentDistributionChannel()
    ensures NodesMention(ContentDistributionNodes(), Placeholder("marketingChannel"))
  {
    Direct(ContentDistributionNodes(), 2, 0, "marketingChannel");
  }

  lemma ContentDistributionPreviewed()
    ensures NodeIdsPreviewed(ContentDistributionSteps(), ContentDistributionPreview())
  {
    var steps, preview := ContentDistributionSteps(), ContentDistributionPreview();
    forall s, i | 0 <= s < |steps| && 0 <= i < |steps[s].fields|
      ensures InPreview(preview, steps[s].fields[i].nodeId)
    {
      var p := s;
      assert preview[p].id == steps[s].fields[i].nodeId;
    }
  }
}

# n8n-automator: a Dafny model of the workflow engine and the UI rules

n8n-automator is a web app that helps people build n8n automations by chat or from templates. This project models two parts of it in Dafny and proves properties of the model.

**The workflow-graph engine.** This works on an n8n workflow: its nodes, plus `connections`, which maps a source node's name to its `main` outputs, each a list of targets.
- The structural validator collects errors and warnings (`validator.dfy`).
- The plain-English summary gives the nodes in breadth-first execution order from the first trigger, one "When … / Then …" sentence per node, and the credentials the workflow needs (`summarize.dfy`).
- The node metadata catalogue has a derived display name for unknown types (`node_icons.dfy`).
- The converter turns a workflow into the visual editor's nodes and edges (`convert_to_reactflow.dfy`).
- Automatic layout wraps the dagre library and falls back to a grid (`auto_layout.dfy`).
- A builder turns a tool call's connection list into n8n's connection object (`tools.dfy`).
- The credentials endpoint labels each n8n credential with the tool it unlocks and keeps one credential per tool (`credentials_route.dfy`).

**The UI and route rules.**
- Templates:
  - the three shipped templates and their lookups (`template_data.dfy`);
  - what the validator says of each of them (`template_checks.dfy`);
  - the template wizard: default values, the required-field check, step navigation, deployment and `{{id}}` placeholder substitution (`template_wizard.dfy`).
- The workflow card in the chat: the test instruction, the node-count colour, the deploy button, and detection of a workflow in a message (`workflow_card.dfy`).
- The automations endpoint: health, last run and weekly runs per workflow, plus the weekly total (`automations_route.dfy`).
- The automation card's relative time, badge and pause/resume toggle (`automation_card.dfy`).
- The conversation list's relative time and phase badge (`conversation_item.dfy`).
- The splitting of a chat message into code blocks and inline code (`message_bubble.dfy`).
- The transcript's visible messages and typing indicator (`message_list.dfy`).
- The three-step questionnaire (`context_questionnaire.dfy`).
- The tool selector (`tool_selector.dfy`).
- The two credential screens: how they read the endpoint's reply (`credentials_view.dfy`), the connected/missing split (`credential_gap_check.dfy`), and the overview of missing common tools (`credential_discovery.dfy`).
- The test-then-save connection form (`n8n_connection_form.dfy`).

**Shared modules.**
- `Wrappers` holds `Option`.
- `Text` holds the JavaScript string operations the code relies on: `split`, `join`, `indexOf`, global `replace` of a literal, `trim`, `toLowerCase`, `String(n)` and string comparison.
- `Graph` holds the workflow data model. JavaScript objects are association lists kept in `Object.entries` order.

**How the code is modelled.**
- Loops that push into arrays and sets become methods with loop invariants, proved against specification functions:
  - the validator's passes;
  - the breadth-first traversal;
  - edge conversion;
  - the connection builder;
  - the wizard's default values and substitution.
- Components whose handlers update state become classes:
  - the wizard;
  - the automation card;
  - the questionnaire;
  - the tool selector;
  - the connection form;
  - the dagre graph.
- Pure derivations become functions with lemmas.
- An `async` handler is split at its `await` into a start method and a finish method, and the outcome of the request is an input. A click on a disabled control, or typing in a disabled field, changes nothing.
- Time, the browser's locale formatting, `JSON.parse` and the dagre layout come in as inputs or function parameters:
  - time is the difference `diffMs` in milliseconds, or the ISO string of a week ago;
  - `JSON.parse` is a parameter `parse`;
  - the dagre layout is a parameter `layout`.

The files form one project, verified together with `dafny verify *.dfy` from this directory.

## Model

| member | source | states |
|---|---|---|
| Graph.LookupIsFirst | src/lib/workflow/summarize.ts:72 | a property lookup fails exactly when the key is absent, and otherwise yields the first entry with that key |
| Graph.Keys | src/components/templates/template-wizard.tsx:57 | `Object.keys`: one key per entry, in entry order |
| Graph.ToRaw | src/lib/n8n/validator.ts:7-20 | a typed workflow seen as validator input: an object with its name, its connections and every node's name and type |
| Text.Lower | src/app/api/n8n/credentials/route.ts:74 | `toLowerCase` keeps the length and lowers every ASCII capital, nothing else |
| Text.IndexOf | src/components/chat/message-bubble.tsx:25-27 | `indexOf` finds the first occurrence, and none exactly when there is none |
| Text.Split | src/components/chat/message-bubble.tsx:22 | `split` always gives at least one piece |
| Text.JoinSplit | src/components/chat/message-bubble.tsx:22 | the pieces of a split joined with the separator give back the string |
| Text.SplitCount | src/components/chat/message-bubble.tsx:22 | a split has one piece more than there are separators |
| Text.SplitPiecesFree | src/components/chat/message-bubble.tsx:22 | no piece of a split contains the separator |
| Text.ReplaceAllIsSplitJoin | src/components/templates/template-wizard.tsx:254 | a global replace of a literal pattern is a split on it joined with the replacement |
| Text.ReplaceAbsent | src/components/templates/template-wizard.tsx:254 | text without the pattern comes out of a global replace unchanged |
| Text.TrimStart | src/components/settings/n8n-connection-form.tsx:89 | the start trim is a suffix of the text |
| Text.TrimEnd | src/components/settings/n8n-connection-form.tsx:89 | the end trim is a prefix of the text |
| Text.TrimStartSpaces | src/components/settings/n8n-connection-form.tsx:89 | the start trim drops only white space and keeps no leading white space |
| Text.TrimEndSpaces | src/components/settings/n8n-connection-form.tsx:89 | the end trim drops only white space and keeps no trailing white space |
| Text.TrimUnchanged | src/components/chat/context-questionnaire.tsx:68 | text that neither starts nor ends with white space is its own trim |
| Text.TrimEmpty | src/components/chat/context-questionnaire.tsx:68 | a text trims to '' exactly when all of it is white space |
| Text.NatToString | src/components/automations/automation-card.tsx:81 | the decimal digits of a count: at least one, without a leading zero, and spelling the count's value |
| Text.NatToStringInjective | src/components/automations/automation-card.tsx:81 | different counts print differently |
| Text.IntToString | src/components/automations/automation-card.tsx:26 | a minus sign exactly for a negative number, then digits, spelling the number's value |
| Text.IntToStringInjective | src/components/automations/automation-card.tsx:26 | different integers print differently |
| Validator.ValidateWorkflow | src/lib/n8n/validator.ts:40-172 | the result is `Validate(wf)`; `valid` holds exactly when `errors` is empty; a non-object gives only 'Workflow must be an object'; a missing or empty `nodes` array stops with no warnings after the name error, if any, and one more error |
| Validator.CheckNodes | src/lib/n8n/validator.ts:67-92 | the node loop yields `NodeErrors`, `NodeNames` and `HasTrigger` of the node list |
| Validator.CheckConnections | src/lib/n8n/validator.ts:109-134 | the loops over `connections` yield `ConnectionErrors`: an error per unknown source key and per unknown target |
| Validator.CheckMain | src/lib/n8n/validator.ts:116-131 | the loops over one `main` array yield `MainErrors` |
| Validator.CollectConnected | src/lib/n8n/validator.ts:137-155 | `connectedNodes` is the set of all targets of all connections |
| Validator.CheckOrphans | src/lib/n8n/validator.ts:157-165 | the last node loop yields `OrphanWarnings` |
| Validator.CheckWarnings | src/lib/n8n/validator.ts:94-106 | the warnings are the no-trigger warning, the size warning and the orphan warnings, in that order (`Warnings`) |
| Validator.ErrorFreeIsValid | src/lib/n8n/validator.ts:52-64 | a named workflow with a non-empty `nodes` array whose node and connection passes raise nothing is valid with no errors, and its warnings are exactly `Warnings` |
| Validator.ErrorFreeNodes | src/lib/n8n/validator.ts:167-171 | with a name and no node or connection error, `valid` is true and `errors` is empty |
| Validator.QuotedInjective | src/lib/n8n/validator.ts:78-84 | two messages that differ only in the quoted name are equal only for equal names |
| Validator.NodeMessagesDistinct | src/lib/n8n/validator.ts:53-84 | duplicate-name messages determine the name and differ from every other node message |
| Validator.ConnectionMessagesDistinct | src/lib/n8n/validator.ts:112-125 | source and target messages determine their name, differ from each other and from every node message |
| Validator.WarningMessagesDistinct | src/lib/n8n/validator.ts:96-163 | the orphan warning determines the name and differs from the no-trigger and size warnings |
| Validator.NodeNamesAre | src/lib/n8n/validator.ts:70-86 | a name is in `nodeNames` exactly when some node with a name and a type carries it |
| Validator.HasTriggerIff | src/lib/n8n/validator.ts:88-91 | `hasTrigger` holds exactly when some node with a name and a type has one of the six trigger types |
| Validator.NameCountPositive | src/lib/n8n/validator.ts:83-86 | a name is in `nodeNames` exactly when at least one well-formed node carries it |
| Validator.DuplicateCount | src/lib/n8n/validator.ts:83-85 | a name borne by k well-formed nodes draws exactly k - 1 duplicate-name errors |
| Validator.NodeErrorDuplicates | src/lib/n8n/validator.ts:72-86 | one node adds a duplicate error for `x` exactly when it is well-formed, named `x`, and `x` was seen before |
| Validator.UntypedNodeIsUnknown | src/lib/n8n/validator.ts:77-80 | a named node without a type is reported, its name stays out of `nodeNames`, and a connection targeting it is reported as a missing target |
| Validator.NodeErrorAt | src/lib/n8n/validator.ts:70-92 | the error drawn by node i is among the node errors |
| Validator.GroupErrorCount | src/lib/n8n/validator.ts:120-128 | one output array draws a missing-target error per occurrence of an unknown target, and no source error |
| Validator.MainErrorCount | src/lib/n8n/validator.ts:116-131 | a `main` array draws a missing-target error per occurrence of an unknown target over all its outputs |
| Validator.ConnectionErrorCounts | src/lib/n8n/validator.ts:109-134 | exactly one error per unknown source key and one per occurrence of an unknown target |
| Validator.NodeErrorsHaveNoReferences | src/lib/n8n/validator.ts:70-92 | the node pass never reports a dangling reference |
| Validator.DanglingReferenceCounts | src/lib/n8n/validator.ts:108-134 | in the whole result, the dangling-reference errors for `x` count its occurrences as a source key and as a target when `x` is not a node name, and are absent otherwise |
| Validator.OrphanWarningsIff | src/lib/n8n/validator.ts:157-165 | an orphan warning for `x` exists exactly when some node keyed `x` is an orphan |
| Validator.OrphanWarningsStartWithN | src/lib/n8n/validator.ts:163 | every orphan warning starts with 'N' |
| Validator.NoTriggerWarningIff | src/lib/n8n/validator.ts:94-99 | the no-trigger warning appears exactly when no well-formed node has a trigger type |
| Validator.SizeWarningIff | src/lib/n8n/validator.ts:101-106 | the size warning appears exactly when there are more than seven nodes |
| Validator.OrphanWarningIff | src/lib/n8n/validator.ts:136-165 | an orphan warning for `x` appears exactly when a node keyed `x` is not a trigger, is no connection's target and is a key of `connections` |
| Validator.DistinctNodesNoErrors | src/lib/n8n/validator.ts:70-92 | nodes that all have a name and a type, with distinct names, raise no node error |
| Validator.WellFormedNameKnown | src/lib/n8n/validator.ts:86 | the name of a node with a name and a type is in `nodeNames` |
| Validator.GroupErrorsResolved | src/lib/n8n/validator.ts:120-128 | an output array whose targets are all known raises nothing |
| Validator.MainErrorsResolved | src/lib/n8n/validator.ts:116-131 | a `main` array whose targets are all known raises nothing |
| Validator.ResolvedConnectionsNoErrors | src/lib/n8n/validator.ts:109-134 | connections whose sources and targets are all known node names raise no error |
| Validator.OnlyFirstOrphan | src/lib/n8n/validator.ts:157-165 | when only the first node is an orphan, its warning is the only orphan warning |
| Validator.NoOrphanWarnings | src/lib/n8n/validator.ts:157-165 | when no node is an orphan, there is no orphan warning |
| Summarize.FindTrigger | src/lib/workflow/summarize.ts:51 | None exactly when no node has one of the eight trigger types; otherwise a node of the list |
| Summarize.FindByName | src/lib/workflow/summarize.ts:68 | None exactly when no node has the name; otherwise a node of the list with that name |
| Summarize.FreshIsFiltered | src/lib/workflow/summarize.ts:77-78 | every queued target is a target of the source, non-empty and not yet visited |
| Summarize.FreshAppend | src/lib/workflow/summarize.ts:74-82 | the targets queued for two output arrays are those of the first, then those of the second |
| Summarize.Successors | src/lib/workflow/summarize.ts:72-83 | every name queued after visiting a node is a node name or a connection target, non-empty and unvisited |
| Summarize.UnreachedAre | src/lib/workflow/summarize.ts:87-91 | the appended nodes are exactly the nodes whose name was not visited |
| Summarize.GetExecutionOrder | src/lib/workflow/summarize.ts:49-94 | the queue-and-visited-set loop computes `ExecutionOrder` |
| Summarize.Traverse | src/lib/workflow/summarize.ts:59-84 | the `while` loop from one start name yields the order and visited set of the breadth-first traversal `Bfs` |
| Summarize.AppendUnreached | src/lib/workflow/summarize.ts:87-91 | the closing loop appends the unvisited nodes in input order |
| Summarize.FreshMainSnoc | src/lib/workflow/summarize.ts:74-82 | one more output array adds its fresh targets, and a non-array adds none |
| Summarize.PushTargets | src/lib/workflow/summarize.ts:73-83 | the nested loops append to the queue the fresh targets of every output array, in order |
| Summarize.PushGroup | src/lib/workflow/summarize.ts:76-80 | the inner loop appends the fresh targets of one output array, in order |
| Summarize.NoTriggerKeepsOrder | src/lib/workflow/summarize.ts:53-56 | without a trigger the order is the node list itself |
| Summarize.NamedInPartition | src/lib/workflow/summarize.ts:86-93 | the reached and the unreached nodes together are the node list, as a multiset |
| Summarize.BfsCollectsVisited | src/lib/workflow/summarize.ts:63-84 | with unique names, the traversal keeps `ordered` equal, as a multiset, to the nodes with a visited name |
| Summarize.ExecutionOrderIsPermutation | src/lib/workflow/summarize.ts:49-94 | with unique node names the execution order is a permutation of the nodes |
| Summarize.BfsExtends | src/lib/workflow/summarize.ts:69 | the traversal only appends to `ordered` |
| Summarize.TriggerComesFirst | src/lib/workflow/summarize.ts:51-69 | with unique names and a non-empty trigger name, the first trigger is the first node of the order |
| Summarize.TraversalStartsWith | src/lib/workflow/summarize.ts:61-69 | a traversal started from a node's unique, non-empty name reaches that node first |
| Summarize.BfsDistinctNames | src/lib/workflow/summarize.ts:65-69 | each visited name is pushed at most once, so the reached nodes keep distinct names |
| Summarize.TraversalVisitsOnce | src/lib/workflow/summarize.ts:59-84 | the nodes the traversal reaches have pairwise distinct names |
| Summarize.UnreachedFollow | src/lib/workflow/summarize.ts:86-93 | the order is the reached nodes followed by the unreached nodes in input order |
| Summarize.BasePhrase | src/lib/workflow/summarize.ts:104-161 | every fixed phrase of `describeNode` is non-empty |
| Summarize.Phrase | src/lib/workflow/summarize.ts:104-161 | the phrase of a type, when it has one, is non-empty |
| Summarize.Sentence | src/lib/workflow/summarize.ts:101-164 | the sentence starts with 'When' or 'Then' and says more; it is the prefix plus the phrase, or else plus ' run ' and the display name |
| Summarize.DescribeNode | src/lib/workflow/summarize.ts:99-165 | the description starts with 'When' for the first node and 'Then' otherwise, is never just the prefix, and is the phrase of the type or ' run ' and the display name |
| Summarize.WorkflowTriggerDescription | src/lib/workflow/summarize.ts:162-163 | a workflow trigger, which has no phrase, is described as 'When run Workflow' |
| Summarize.StepDescriptions | src/lib/workflow/summarize.ts:32-44 | one description per node of the execution order, the first starting with 'When' and the rest with 'Then' |
| Summarize.DescribeAll | src/lib/workflow/summarize.ts:36-41 | the loop yields, in order, the description of each node, the first one described as first |
| Summarize.BaseCredential | src/lib/workflow/summarize.ts:193-206 | every inferred credential name is non-empty |
| Summarize.InferCredentialFromType | src/lib/workflow/summarize.ts:192-208 | an inferred credential name is non-empty |
| Summarize.ReplaceSuffix | src/lib/workflow/summarize.ts:215-216 | an anchored suffix is replaced when present, and the text is unchanged otherwise |
| Summarize.SplitCamelCase | src/lib/workflow/summarize.ts:217 | splitting never shortens the text and keeps its last character |
| Summarize.SplitCamelCaseLeavesNoHump | src/lib/workflow/summarize.ts:217 | after splitting, no lower-case letter is directly followed by a capital |
| Summarize.SplitCamelCaseNoHump | src/lib/workflow/summarize.ts:217 | text without a lower-to-upper pair is unchanged |
| Summarize.SplitCamelCaseIdempotent | src/lib/workflow/summarize.ts:217 | splitting twice is splitting once |
| Summarize.SlackApiFormatted | src/lib/workflow/summarize.ts:213-218 | the key 'slackApi' is shown as 'slack API' |
| Summarize.DedupProperties | src/lib/workflow/summarize.ts:186 | `Array.from(new Set(...))` keeps exactly the same elements and repeats none |
| Summarize.DedupSnoc | src/lib/workflow/summarize.ts:177 | adding a name to the set appends it exactly when it is new |
| Summarize.DedupDistinct | src/lib/workflow/summarize.ts:186 | a list without repeats is its own deduplication |
| Summarize.ExtractCredentialRequirements | src/lib/workflow/summarize.ts:170-187 | the loop over the nodes computes `CredentialRequirements` |
| Summarize.AddNodeCredentials | src/lib/workflow/summarize.ts:175-183 | one node adds its formatted keys, then its inferred credential, to the set |
| Summarize.AddCredentialKeys | src/lib/workflow/summarize.ts:176-178 | the loop adds each formatted key to the set, in order |
| Summarize.NodeCandidatesAre | src/lib/workflow/summarize.ts:175-183 | a node contributes exactly its formatted keys and the name inferred from its type |
| Summarize.CandidatesAre | src/lib/workflow/summarize.ts:173-184 | a name is a candidate exactly when some node contributes it |
| Summarize.CredentialRequirementsAre | src/lib/workflow/summarize.ts:170-187 | the requirements are exactly the formatted explicit keys and the inferred names of all nodes, without repeats |
| Summarize.SlackNodeCandidates | src/lib/workflow/summarize.ts:175-183 | a Slack node with the key 'slackApi' contributes 'slack API', then 'Slack API' |
| Summarize.SlackNodeCredentials | src/lib/workflow/summarize.ts:170-187 | such a node needs both 'slack API' and 'Slack API', two different names |
| Summarize.Title | src/lib/workflow/summarize.ts:23 | the title is 'What "', the name, then '" does' |
| Summarize.TitleInjective | src/lib/workflow/summarize.ts:23 | different workflow names give different titles |
| Summarize.GenerateWorkflowSummary | src/lib/workflow/summarize.ts:18-27 | the summary has the title, one description per node of the execution order, and `CredentialRequirements` of the nodes |
| Summarize.TriggerCategoryIsTriggerTypes | src/lib/workflow/summarize.ts:4-13 | a type is in the catalogue's trigger category exactly when it is one of the summarizer's eight trigger types |
| Summarize.BaseTriggerNames | src/lib/workflow/node-icons.ts:13-33 | the catalogue entries in the trigger category are exactly the eight trigger types |
| NodeIcons.GetNodeMeta | src/lib/workflow/node-icons.ts:130-138 | the table entry of a known type; for any other type an action with the 'Box' icon and the derived display name |
| NodeIcons.LastSegmentIsAfterLastDot | src/lib/workflow/node-icons.ts:145-146 | the last segment is the text after the last dot, or the whole string when there is none |
| NodeIcons.SpaceBeforeCapitals | src/lib/workflow/node-icons.ts:149 | inserting spaces never shortens the text |
| NodeIcons.CapitalizeFirst | src/lib/workflow/node-icons.ts:150 | only the first character changes, to upper case, unless it is a line terminator, which `.` does not match |
| NodeIcons.CapitalsFollowSpaces | src/lib/workflow/node-icons.ts:149 | every capital of the result has a space right before it |
| NodeIcons.SpaceBeforeCapitalsAppend | src/lib/workflow/node-icons.ts:149 | the global replace works piece by piece |
| NodeIcons.NoCapitalsUnchanged | src/lib/workflow/node-icons.ts:149 | text without capitals is unchanged |
| NodeIcons.OpenAiLastSegment | src/lib/workflow/node-icons.ts:145-146 | the last segment of 'n8n-nodes-base.openAi' is 'openAi' |
| NodeIcons.OpenAiSpaced | src/lib/workflow/node-icons.ts:149 | 'openAi' becomes 'open Ai' |
| NodeIcons.OpenAiCapitalized | src/lib/workflow/node-icons.ts:150 | 'open Ai' becomes 'Open Ai' |
| NodeIcons.OpenAiDisplayName | src/lib/workflow/node-icons.ts:144-152 | 'n8n-nodes-base.openAi' is displayed as 'Open Ai' |
| ConvertToReactFlow.IsConditionalNodeIff | src/lib/workflow/convert-to-reactflow.ts:99-102 | a source is conditional exactly when the first node with its name is an IF or a Switch node |
| ConvertToReactFlow.OutputLabel | src/lib/workflow/convert-to-reactflow.ts:107-109 | the label is 'true' exactly for output 0, and 'false' otherwise |
| ConvertToReactFlow.EdgeTargetsAppend | src/lib/workflow/convert-to-reactflow.ts:76 | the targets of appended edge lists are appended |
| ConvertToReactFlow.EntryEdgesFollowTargets | src/lib/workflow/convert-to-reactflow.ts:70-89 | the edges of one output array point at its target entries, in order |
| ConvertToReactFlow.GroupEdgesFollowTargets | src/lib/workflow/convert-to-reactflow.ts:67-90 | the edges of a `main` array point at the targets of its array outputs, in order |
| ConvertToReactFlow.EdgesFollowTargets | src/lib/workflow/convert-to-reactflow.ts:55-94 | exactly one edge per target entry of an array output, pointing at those targets in visiting order |
| ConvertToReactFlow.EntryEdgesSound | src/lib/workflow/convert-to-reactflow.ts:70-89 | an edge of an output array is the edge of one of its entries with a `node` |
| ConvertToReactFlow.EntryEdgesComplete | src/lib/workflow/convert-to-reactflow.ts:70-89 | every entry with a `node` gives its edge |
| ConvertToReactFlow.InSomeGroup | src/lib/workflow/convert-to-reactflow.ts:67-68 | an edge of `main` comes from one of its array outputs |
| ConvertToReactFlow.GroupIncluded | src/lib/workflow/convert-to-reactflow.ts:67-90 | the edges of each array output are edges of `main` |
| ConvertToReactFlow.GroupEdgesSound | src/lib/workflow/convert-to-reactflow.ts:67-90 | an edge of `main` is the edge of some output and entry |
| ConvertToReactFlow.GroupEdgesComplete | src/lib/workflow/convert-to-reactflow.ts:67-90 | the edge of every output and entry is an edge of `main` |
| ConvertToReactFlow.InSomeSource | src/lib/workflow/convert-to-reactflow.ts:64-91 | an edge comes from one source of `connections` |
| ConvertToReactFlow.SourceIncluded | src/lib/workflow/convert-to-reactflow.ts:64-91 | the edges of each source are edges of the result |
| ConvertToReactFlow.EdgesSound | src/lib/workflow/convert-to-reactflow.ts:55-94 | every edge is the edge of some source, output and entry |
| ConvertToReactFlow.EdgesComplete | src/lib/workflow/convert-to-reactflow.ts:55-94 | every source, array output and entry with a `node` gives its edge |
| ConvertToReactFlow.EdgesAre | src/lib/workflow/convert-to-reactflow.ts:55-94 | an edge is in the result exactly when it is the edge of some source, output and entry |
| ConvertToReactFlow.IndexText | src/lib/workflow/convert-to-reactflow.ts:81 | `${target.index}` is the index's decimal numeral, or 'undefined' exactly when the entry has no `index` |
| ConvertToReactFlow.EdgeFields | src/lib/workflow/convert-to-reactflow.ts:73-88 | every edge has the composite id, the output handle, an input handle naming the entry's index or 'undefined', and a label exactly when its source is conditional |
| ConvertToReactFlow.ConvertEdges | src/lib/workflow/convert-to-reactflow.ts:55-94 | the nested loops compute `Edges` |
| ConvertToReactFlow.PushGroups | src/lib/workflow/convert-to-reactflow.ts:67-90 | the loop over `main` appends the edges of its array outputs |
| ConvertToReactFlow.PushEntries | src/lib/workflow/convert-to-reactflow.ts:70-89 | the loop over one output array appends one edge per entry with a `node` |
| ConvertToReactFlow.Truncate | src/lib/workflow/convert-to-reactflow.ts:123 | a text of at most 40 characters is kept; a longer one becomes its first 40 and '...' |
| ConvertToReactFlow.PushLabelled | src/lib/workflow/convert-to-reactflow.ts:119-140 | pushing a captioned line keeps every part non-empty and not starting with 'N', and leaves the parts empty only when nothing was pushed |
| ConvertToReactFlow.JoinLinesEmpty | src/lib/workflow/convert-to-reactflow.ts:142 | such parts join to 'No configuration' only when there are none |
| ConvertToReactFlow.NoConfigurationIff | src/lib/workflow/convert-to-reactflow.ts:114-143 | the digest is 'No configuration' exactly when none of the seven keys has a usable value |
| ConvertToReactFlow.GenerateConfigSummary | src/lib/workflow/convert-to-reactflow.ts:114-143 | pushing the parts one by one and joining them computes `ConfigSummary` |
| ConvertToReactFlow.ConvertNodes | src/lib/workflow/convert-to-reactflow.ts:26-50 | one flow node per workflow node, in order, with the node's name as id and label, its type's category and icon, its digest, and its own position or `(index * 200, 0)` |
| ConvertToReactFlow.ConvertToReactFlow | src/lib/workflow/convert-to-reactflow.ts:17-21 | the result is `ConvertNodes` of the nodes and `Edges` of the connections |
| AutoLayout.DefaultConfig | src/lib/workflow/auto-layout.ts:27-50 | without options dagre lays out left to right with spacings 50 and 80 and margins 20 |
| AutoLayout.DagreGraph.constructor | src/lib/workflow/auto-layout.ts:42-50 | a new graph holds the settings, no node and no edge |
| AutoLayout.DagreGraph.SetNode | src/lib/workflow/auto-layout.ts:54 | `setNode` gives the id its box and changes nothing else |
| AutoLayout.DagreGraph.SetEdge | src/lib/workflow/auto-layout.ts:59 | `setEdge` appends the edge and changes nothing else |
| AutoLayout.BoxesOfNodes | src/lib/workflow/auto-layout.ts:53-55 | every node id, and nothing else, gets the 180 by 60 box |
| AutoLayout.Corner | src/lib/workflow/auto-layout.ts:76-79 | the box with that top-left corner is centred on the dagre point |
| AutoLayout.GridDistinct | src/lib/workflow/auto-layout.ts:99-105 | grid positions of different indices differ |
| AutoLayout.GridRowMajor | src/lib/workflow/auto-layout.ts:99-105 | grid positions go row by row, left to right within a row |
| AutoLayout.LayoutShape | src/lib/workflow/auto-layout.ts:29-39 | no nodes give an empty result; one node goes to (50, 50) with no edges; otherwise the edges are kept and every node keeps its place and all but its position |
| AutoLayout.LayoutCentres | src/lib/workflow/auto-layout.ts:66-81 | when dagre succeeds a placed node's box is centred on its dagre point, and an unplaced node is unchanged |
| AutoLayout.LayoutFallback | src/lib/workflow/auto-layout.ts:84-108 | when dagre fails node i goes to grid cell i: distinct positions in row-major order |
| AutoLayout.ApplyDagreLayout | src/lib/workflow/auto-layout.ts:22-89 | building the graph step by step and reading back the centres computes `DagreLayout` |
| N8nTools.Pad | src/lib/n8n/tools.ts:34-36 | padding keeps the existing groups and appends empty ones until there are more than the output index |
| N8nTools.PadGroups | src/lib/n8n/tools.ts:34-36 | the `while` loop computes `Pad` |
| N8nTools.AddConnection | src/lib/n8n/tools.ts:24-42 | one turn of the loop computes `Add`: the source's groups padded, and the target appended to its output's group |
| N8nTools.TransformConnections | src/lib/n8n/tools.ts:15-46 | the loop over the connections computes `Transform` |
| N8nTools.TransformKeys | src/lib/n8n/tools.ts:28-30 | the keys of the result are exactly the sources of the connections |
| N8nTools.TransformGroupCount | src/lib/n8n/tools.ts:26-36 | each source has exactly its largest output index plus one groups, the absent index counting as 0 |
| N8nTools.TransformGroupContents | src/lib/n8n/tools.ts:38-42 | each group holds, in input order, the targets of exactly the connections from that source through that output, with the absent input index counting as 0 |
| N8nTools.TargetsAtUnused | src/lib/n8n/tools.ts:34-38 | no connection uses an output past the groups of its source |
| N8nTools.PickKey | src/lib/n8n/tools.ts:18-21 | a key of a non-empty result |
| N8nTools.TotalWithout | src/lib/n8n/tools.ts:18-21 | counting the targets over all sources does not depend on the order of the keys |
| N8nTools.TotalUpdate | src/lib/n8n/tools.ts:28-38 | replacing one source's groups changes the count by the difference |
| N8nTools.GroupsSizeAppend | src/lib/n8n/tools.ts:35 | the count of appended groups is the sum of the counts |
| N8nTools.GroupsSizeEmpties | src/lib/n8n/tools.ts:35 | empty groups hold no target |
| N8nTools.GroupsSizeUpdate | src/lib/n8n/tools.ts:38 | appending to one group changes the count by that group's growth only |
| N8nTools.PadSize | src/lib/n8n/tools.ts:34-36 | padding adds no target |
| N8nTools.AddTotal | src/lib/n8n/tools.ts:23-43 | each connection adds exactly one target |
| N8nTools.TransformTotal | src/lib/n8n/tools.ts:15-46 | the result holds exactly one target per connection |
| CredentialsRoute.TableValuesNonEmpty | src/app/api/n8n/credentials/route.ts:24-67 | every table value is non-empty, so a table hit is always returned |
| CredentialsRoute.FirstSplit | src/app/api/n8n/credentials/route.ts:72 | a split point found by the lazy search is one where the letters-then-suffix match succeeds |
| CredentialsRoute.FirstSplitIsLeast | src/app/api/n8n/credentials/route.ts:72 | the lazy group ends at the least split point, and there is none exactly when the search finds none |
| CredentialsRoute.MapCredentialToToolCases | src/app/api/n8n/credentials/route.ts:64-79 | a table key maps to its value; another type the pattern matches maps to the shortest letter prefix before a suffix, lowercased; any other type to itself |
| CredentialsRoute.MicrosoftExcel | src/app/api/n8n/credentials/route.ts:71-75 | 'microsoftExcelOAuth2Api' maps to 'microsoftexcel' |
| CredentialsRoute.ExcelNotInTable | src/app/api/n8n/credentials/route.ts:24-62 | 'microsoftExcelOAuth2Api' is not a table key |
| CredentialsRoute.ExcelSplit | src/app/api/n8n/credentials/route.ts:72 | for it the lazy group is the first 14 characters |
| CredentialsRoute.ExcelLower | src/app/api/n8n/credentials/route.ts:74 | those lowercased are 'microsoftexcel' |
| CredentialsRoute.NoPatternUnchanged | src/app/api/n8n/credentials/route.ts:77-78 | a type with a non-letter before every suffix is returned as it is |
| CredentialsRoute.WithTools | src/app/api/n8n/credentials/route.ts:114-119 | one labelled credential per n8n credential, with its id, name and type, and the tool of its type |
| CredentialsRoute.DeduplicateByTool | src/app/api/n8n/credentials/route.ts:122-129 | the `filter` with its `toolsSeen` set keeps exactly the first credential of each tool, in order |
| CredentialsRoute.FirstOfEachToolDistinct | src/app/api/n8n/credentials/route.ts:121-129 | the kept credentials have pairwise distinct tools and together cover every tool |
| CredentialsRoute.FirstOfEachToolMembers | src/app/api/n8n/credentials/route.ts:123-129 | a credential is kept exactly when it sits where its tool first appears |
| Templates.AsRaw | src/lib/templates/data.ts:100-194 | the workflow handed to the validator is an object with the template's name, connections and nodes, each node with its name and type |
| Templates.FindById | src/lib/templates/data.ts:539-541 | None exactly when no template has the id; otherwise a template of the list with that id |
| Templates.FilterByCategory | src/lib/templates/data.ts:546-548 | the kept templates are exactly those of the list with the category |
| Templates.FilterOne | src/lib/templates/data.ts:546-548 | a single template is kept exactly when it is of the category |
| Templates.FilterAppend | src/lib/templates/data.ts:546-548 | the filter distributes over concatenation, so it keeps input order and multiplicity |
| Templates.FindAmongThree | src/lib/templates/data.ts:539-541 | among three templates with distinct ids, each is found by its own id and any other id finds nothing |
| Templates.GetTemplateByIdCases | src/lib/templates/data.ts:530-541 | 'lead-scoring', 'customer-health' and 'content-distribution' find their template; every other id finds nothing |
| Templates.FilterThree | src/lib/templates/data.ts:546-548 | the filter over three templates keeps those of the category, in order |
| Templates.GetTemplatesByCategoryCases | src/lib/templates/data.ts:530-548 | 'sales', 'ops' and 'marketing' each select exactly one shipped template; any other category none |
| Templates.ContainsItself | src/lib/templates/data.ts:110 | every text contains itself |
| Templates.Direct | src/lib/templates/data.ts:110 | a parameter that is exactly a placeholder puts it in the workflow |
| Templates.Nested | src/lib/templates/data.ts:144 | a placeholder nested one object and array level down puts it in the workflow |
| Templates.LeadScoringPlaceholders | src/lib/templates/data.ts:21-194 | every field of the lead-scoring wizard has its placeholder in the workflow's parameters |
| Templates.LeadScoringWebhookPath | src/lib/templates/data.ts:110 | '{{webhookPath}}' is in the workflow |
| Templates.LeadScoringThreshold | src/lib/templates/data.ts:144 | '{{scoreThreshold}}' is in the workflow |
| Templates.LeadScoringChannel | src/lib/templates/data.ts:156 | '{{slackChannel}}' is in the workflow |
| Templates.LeadScoringPreviewed | src/lib/templates/data.ts:21-99 | every field's node id is a node of the preview |
| Templates.CustomerHealthPlaceholders | src/lib/templates/data.ts:215-380 | every field of the customer-health wizard has its placeholder in the workflow's parameters |
| Templates.CustomerHealthHour | src/lib/templates/data.ts:322 | '{{checkHour}}' is in the workflow |
| Templates.CustomerHealthUrl | src/lib/templates/data.ts:334 | '{{apiUrl}}' is in the workflow |
| Templates.CustomerHealthDays | src/lib/templates/data.ts:352 | '{{daysInactive}}' is in the workflow |
| Templates.CustomerHealthChannel | src/lib/templates/data.ts:364 | '{{alertChannel}}' is in the workflow |
| Templates.CustomerHealthPreviewed | src/lib/templates/data.ts:215-308 | every field's node id is a node of the preview |
| Templates.ContentDistributionPlaceholders | src/lib/templates/data.ts:401-524 | every field of the content-distribution wizard has its placeholder in the workflow's parameters |
| Templates.ContentDistributionFeed | src/lib/templates/data.ts:488 | '{{rssFeed}}' is in the workflow |
| Templates.ContentDistributionTone | src/lib/templates/data.ts:502 | '{{tone}}' is in the workflow, inside the prompt text |
| Templates.ContentDistributionChannel | src/lib/templates/data.ts:511 | '{{marketingChannel}}' is in the workflow |
| Templates.ContentDistributionPreviewed | src/lib/templates/data.ts:401-478 | every field's node id is a node of the preview |
| TemplateChecks.TargetsOfTo | src/lib/templates/data.ts:180-193 | the targets of single-target output arrays, in order |
| TemplateChecks.TargetsOfTwo | src/lib/templates/data.ts:516-523 | the targets of two sources are those of the first, then those of the second |
| TemplateChecks.TargetsOfThree | src/lib/templates/data.ts:180-193 | the same for three sources |
| TemplateChecks.LeadScoringTargets | src/lib/templates/data.ts:180-193 | the lead-scoring connections target 'Calculate Score', 'Check Score', 'Alert Sales' and 'Add to Nurture' |
| TemplateChecks.LeadScoringNodesClean | src/lib/templates/data.ts:102-178 | the five lead-scoring nodes raise no node error and include a trigger |
| TemplateChecks.LeadScoringConnectionsClean | src/lib/templates/data.ts:180-193 | its connections raise no connection error |
| TemplateChecks.LeadScoringNoOrphans | src/lib/templates/data.ts:100-194 | none of its nodes is an orphan |
| TemplateChecks.LeadScoringValid | src/lib/templates/data.ts:100-194 | the lead-scoring workflow is valid with no errors and no warnings |
| TemplateChecks.CustomerHealthTargets | src/lib/templates/data.ts:369-380 | the customer-health connections target 'Fetch Customers', 'Check Activity' and 'Alert Team' |
| TemplateChecks.CustomerHealthNodesClean | src/lib/templates/data.ts:309-368 | its four nodes raise no node error and include a trigger |
| TemplateChecks.CustomerHealthConnectionsClean | src/lib/templates/data.ts:369-380 | its connections raise no connection error |
| TemplateChecks.CustomerHealthNoOrphans | src/lib/templates/data.ts:309-380 | none of its nodes is an orphan |
| TemplateChecks.CustomerHealthValid | src/lib/templates/data.ts:309-380 | the customer-health workflow is valid with no errors and no warnings |
| TemplateChecks.ContentDistributionTargets | src/lib/templates/data.ts:516-523 | the content-distribution connections target 'Generate Posts' and 'Notify Team' |
| TemplateChecks.ContentDistributionNodesClean | src/lib/templates/data.ts:481-515 | its three nodes raise no node error and, the RSS trigger not being a validator trigger type, include no trigger |
| TemplateChecks.ContentDistributionConnectionsClean | src/lib/templates/data.ts:516-523 | its connections raise no connection error |
| TemplateChecks.ContentDistributionOrphan | src/lib/templates/data.ts:479-524 | the only orphan warning is the one for 'New Blog Post' |
| TemplateChecks.ContentDistributionWarned | src/lib/templates/data.ts:479-524 | the content-distribution workflow is valid with exactly the no-trigger warning and the orphan warning for 'New Blog Post' |
| TemplateWizard.GetPut | src/components/templates/template-wizard.tsx:33 | after `r[k] = v`, `k` reads `v` and every other key reads what it read before |
| TemplateWizard.KeysCons | src/components/templates/template-wizard.tsx:253 | the keys of a record are its entry keys in order |
| TemplateWizard.GetPresent | src/components/templates/template-wizard.tsx:52 | a key reads a value exactly when it is a key of the record |
| TemplateWizard.KeysPut | src/components/templates/template-wizard.tsx:43 | assignment keeps the key order, and a new key goes to the end |
| TemplateWizard.PutDistinct | src/components/templates/template-wizard.tsx:43 | assignment never gives a record a key twice |
| TemplateWizard.DefaultsLaterWins | src/components/templates/template-wizard.tsx:28-38 | an id has a default exactly when some field with that id has one, and it is the default of the last such field |
| TemplateWizard.DefaultsDistinct | src/components/templates/template-wizard.tsx:28-38 | the defaults hold each id once |
| TemplateWizard.GetDefaultValues | src/components/templates/template-wizard.tsx:28-38 | the nested loops compute `DefaultsOf` the fields of all steps |
| TemplateWizard.StepErrorsAre | src/components/templates/template-wizard.tsx:50-55 | an id has an error exactly when some required field with that id has a falsy value, and the error is 'This field is required' |
| TemplateWizard.StepPasses | src/components/templates/template-wizard.tsx:57 | the step passes exactly when no required field is falsy |
| TemplateWizard.BuildWorkflow | src/components/templates/template-wizard.tsx:253-255 | replacing every entry's placeholder in turn computes `Substituted` |
| TemplateWizard.SubstitutedLast | src/components/templates/template-wizard.tsx:254 | the last entry cuts the text at every occurrence of its placeholder and joins the pieces with its value, and no piece holds the placeholder |
| TemplateWizard.SubstitutedAbsent | src/components/templates/template-wizard.tsx:253-255 | text holding none of the placeholders comes out unchanged |
| TemplateWizard.Wizard.constructor | src/components/templates/template-wizard.tsx:16-22 | the wizard starts on step 0 with the defaults, no errors, not deploying and no result |
| TemplateWizard.Wizard.HandleFieldChange | src/components/templates/template-wizard.tsx:40-46 | the value is set and that field's error cleared to '', nothing else changes |
| TemplateWizard.Wizard.ValidateCurrentStep | src/components/templates/template-wizard.tsx:48-58 | without a current step the check passes and changes nothing; otherwise the errors are replaced by the step's errors and the check passes exactly when there are none |
| TemplateWizard.Wizard.StartDeploy | src/components/templates/template-wizard.tsx:75-79 | the wizard is deploying and the body sent is the workflow with the values substituted |
| TemplateWizard.Wizard.FinishDeploy | src/components/templates/template-wizard.tsx:94-105 | deploying ends with the endpoint's answer, or 'Failed to deploy workflow' when the request throws |
| TemplateWizard.Wizard.HandleNext | src/components/templates/template-wizard.tsx:60-68 | failing fields keep the step; a passing step advances, or on the last step starts the deploy and returns what is sent |
| TemplateWizard.Wizard.HandleBack | src/components/templates/template-wizard.tsx:70-72 | the step goes back by one, nothing else changes |
| TemplateWizard.Wizard.TryAgain | src/components/templates/template-wizard.tsx:158-163 | 'Try Again' clears the failed result, nothing else changes |
| WorkflowCard.FirstTrigger | src/components/chat/workflow-card.tsx:36-43 | a found index lies in the searched range and has one of the four test trigger types |
| WorkflowCard.FirstTriggerIsFirst | src/components/chat/workflow-card.tsx:36-43 | the search finds the first such node, and finds none exactly when there is none |
| WorkflowCard.TriggerInstructionsCases | src/components/chat/workflow-card.tsx:34-60 | without a test trigger the manual message; otherwise the first test trigger's message, cron and schedule sharing one, and never the default branch |
| WorkflowCard.FirstTriggerAppend | src/components/chat/workflow-card.tsx:36-43 | nodes appended after a test trigger do not change where the search stops |
| WorkflowCard.LaterNodesIgnored | src/components/chat/workflow-card.tsx:36-60 | nodes after the first test trigger do not change the instruction |
| WorkflowCard.ColourMonotone | src/components/chat/workflow-card.tsx:68-69 | the badge colour never improves as the node count grows |
| WorkflowCard.ColourThresholds | src/components/chat/workflow-card.tsx:68-69 | green up to 5 nodes, yellow for 6 and 7, red from 8 |
| WorkflowCard.DeployButtonRule | src/components/chat/workflow-card.tsx:171 | the button is disabled while deploying, and when idle enabled exactly before any deploy or after a failed one |
| WorkflowCard.DeployOutcome | src/components/chat/workflow-card.tsx:75-88 | the stored result is the parsed response, or a failure without id or URL when the request throws |
| WorkflowCard.DeployEnds | src/components/chat/workflow-card.tsx:71-92 | once the request has ended the button is disabled exactly when the response reported success |
| WorkflowCard.SkipSpaces | src/components/chat/workflow-card.tsx:193 | `\s*` consumes a maximal run of white space |
| WorkflowCard.BodyStart | src/components/chat/workflow-card.tsx:193 | the body starts after the fence, an optional 'json' and white space, with no backtick skipped |
| WorkflowCard.OccursSuffix | src/components/chat/workflow-card.tsx:193 | a fence in a suffix is a fence of the whole text, shifted |
| WorkflowCard.NoFenceSkipped | src/components/chat/workflow-card.tsx:193 | no fence starts in the text skipped before the body |
| WorkflowCard.CodeBlockExists | src/components/chat/workflow-card.tsx:193 | there is a fenced block exactly when the text has two fences that do not overlap |
| WorkflowCard.PrefixOccurs | src/components/chat/workflow-card.tsx:193 | a fence inside a prefix is a fence of the whole text |
| WorkflowCard.CodeBlockBodyUnfenced | src/components/chat/workflow-card.tsx:193 | the lazy body of the block contains no fence |
| WorkflowCard.LastIndexOf | src/components/chat/workflow-card.tsx:198 | the last occurrence of the character, or None when there is none |
| WorkflowCard.OccursChar | src/components/chat/workflow-card.tsx:198 | a one-character pattern occurs exactly where the character is |
| WorkflowCard.BraceSpanIs | src/components/chat/workflow-card.tsx:198 | a span exists exactly when some '{' has a '}' after it, and it runs from the first '{' to the last '}' |
| WorkflowCard.LaterNodesUnchecked | src/components/chat/workflow-card.tsx:213-216 | only the first node's type is checked |
| WorkflowCard.DetectWorkflowJson | src/components/chat/workflow-card.tsx:191-223 | whatever is returned has a name and a non-empty nodes array whose first node has a type |
| WorkflowCard.DetectIff | src/components/chat/workflow-card.tsx:191-223 | a workflow is detected exactly when the span of the chosen text parses to a value of that shape, and that value is returned |
| AutomationsRoute.ExecutionsOfMembers | src/app/api/automations/route.ts:107 | an execution belongs to a workflow's list exactly when it is fetched and carries that workflow's id |
| AutomationsRoute.ExecutionsOfFirst | src/app/api/automations/route.ts:107-113 | the last execution of a workflow is an execution of the fetched list (the newest one comes first) |
| AutomationsRoute.NoneOf | src/app/api/automations/route.ts:107 | an empty list of a workflow's executions means no fetched execution carries its id |
| AutomationsRoute.WeeklyBounded | src/app/api/automations/route.ts:108-110 | the weekly executions are those with a non-empty start time not before a week ago, never more than all of them |
| AutomationsRoute.LastRunStatus | src/app/api/automations/route.ts:129-132 | the last run status is the newest execution's status when it is success or error, and null when there is no execution or it is waiting or running |
| AutomationsRoute.LastRunAt | src/app/api/automations/route.ts:128 | the last run time is the newest execution's start time, null when there is none or it is empty |
| AutomationsRoute.HealthCases | src/app/api/automations/route.ts:115-121 | paused exactly for an inactive workflow; an active one is unknown exactly without executions, else healthy exactly when its first execution in the list succeeded and failing otherwise |
| AutomationsRoute.WeeklyRunsAre | src/app/api/automations/route.ts:107-133 | the weekly runs count the workflow's own executions that started in the past week |
| AutomationsRoute.Automations | src/app/api/automations/route.ts:106-136 | one item per workflow, in the workflows' order, each built from that workflow |
| AutomationsRoute.ItemsFollowWorkflows | src/app/api/automations/route.ts:123-135 | each item carries its workflow's id, name and active flag, and the link host/workflow/id |
| AutomationsRoute.RecentOfAdd | src/app/api/automations/route.ts:139 | adding a new workflow id adds exactly that workflow's weekly runs to the recent executions |
| AutomationsRoute.RecentOfBounded | src/app/api/automations/route.ts:139 | the recent executions of any set of workflows are no more than those fetched |
| AutomationsRoute.WeeklyTotalCounts | src/app/api/automations/route.ts:139 | with distinct workflow ids the weekly total is the number of fetched recent executions of those workflows, so at most the number fetched |
| AutomationsRoute.IdsSnoc | src/app/api/automations/route.ts:106 | with distinct ids the last workflow's id is new to the ids before it |
| AutomationsRoute.EmptyIds | src/app/api/automations/route.ts:139 | no workflow has no recent executions |
| AutomationsRoute.Get | src/app/api/automations/route.ts:39-144 | signed out gives 401 Unauthorized; without credentials the not-connected message; a failed workflow request the connection message; no error exactly when all three succeed |
| AutomationsRoute.ExecutionsFailed | src/app/api/automations/route.ts:99-103 | a failed execution request leaves every active workflow unknown and every weekly count and the total at zero |
| AutomationsRoute.ZeroRuns | src/app/api/automations/route.ts:139 | items with no weekly runs total zero |
| AutomationCard.LastRunBuckets | src/components/automations/automation-card.tsx:15-30 | with a date, 'Just now' exactly under a minute, minutes exactly below an hour, hours below a day, days below a week, the date from a week on, each count floored |
| AutomationCard.NeverRun | src/components/automations/automation-card.tsx:15-16 | no date, or an empty one, reads 'Never', and only then is the bucket Never |
| AutomationCard.FloorOfFloor | src/components/automations/automation-card.tsx:21-23 | flooring minutes to hours and hours to days equals flooring the milliseconds directly |
| AutomationCard.PluralRule | src/components/automations/automation-card.tsx:27-28 | the 's' of hours and days appears exactly for counts above one |
| AutomationCard.ShownBadgeRule | src/components/automations/automation-card.tsx:52 | a locally paused card shows 'Paused'; an active one its own health's badge; 'Paused' shows exactly when paused locally or by health |
| AutomationCard.HealthLabelsDistinct | src/components/automations/automation-card.tsx:32-46 | each health value has its own label |
| AutomationCard.WeeklyRunsPlural | src/components/automations/automation-card.tsx:81 | the weekly count takes 'runs' exactly when it is not one, zero included |
| AutomationCard.Card.constructor | src/components/automations/automation-card.tsx:49-50 | the card starts idle with the automation's active flag |
| AutomationCard.Card.StartToggle | src/components/automations/automation-card.tsx:54-90 | an enabled toggle makes the card busy and requests the opposite of the shown flag; a click while busy requests nothing and changes nothing |
| AutomationCard.Card.FinishToggle | src/components/automations/automation-card.tsx:57-61 | the shown flag becomes the requested one only when the toggle resolved; the card is idle again either way |
| AutomationCard.HandleToggle | src/components/automations/automation-card.tsx:54-90 | a whole toggle is requested exactly on an idle card; it then flips the flag exactly when it resolved and ends idle, and on a busy card nothing changes |
| ConversationItem.PhaseLabelsTotal | src/components/layout/conversation-item.tsx:14-20 | every phase has a non-empty label and no two phases share one |
| ConversationItem.PhaseBadge | src/components/layout/conversation-item.tsx:59-63 | a badge is shown exactly for a phase other than chat, carrying that phase's label |
| ConversationItem.RelativeBuckets | src/components/layout/conversation-item.tsx:22-36 | each bucket of the relative time holds exactly its range of milliseconds: under a minute, an hour, a day, a week, and from a week on the date |
| ConversationItem.SameBucketsAsAutomationCard | src/components/layout/conversation-item.tsx:26-33 | flooring each unit from the milliseconds picks the same bucket and count as the automation card's chained flooring |
| ContextQuestionnaire.Without | src/components/chat/context-questionnaire.tsx:52 | the filter keeps exactly the tools other than the value, never more of them |
| ContextQuestionnaire.ToggledMembers | src/components/chat/context-questionnaire.tsx:51-53 | toggling flips the membership of that tool and of no other |
| ContextQuestionnaire.ToggleTwice | src/components/chat/context-questionnaire.tsx:51-53 | toggling twice gives back the same members |
| ContextQuestionnaire.Questionnaire.constructor | src/components/chat/context-questionnaire.tsx:43-47 | step 1, no goal, no trigger, the connected tools pre-selected |
| ContextQuestionnaire.Questionnaire.SetGoal | src/components/chat/context-questionnaire.tsx:97 | only the goal changes |
| ContextQuestionnaire.Questionnaire.SetTrigger | src/components/chat/context-questionnaire.tsx:113 | only the trigger changes, to the chosen one |
| ContextQuestionnaire.Questionnaire.ToggleTool | src/components/chat/context-questionnaire.tsx:51-53 | only the tools change, by the toggle |
| ContextQuestionnaire.Questionnaire.Next | src/components/chat/context-questionnaire.tsx:55-72 | an unanswered step blocks Next; otherwise steps 1 and 2 advance and step 3 hands on the goal, the chosen trigger and the tools; the step stays within 1 to 3 with a trigger chosen at step 3 |
| ContextQuestionnaire.Questionnaire.Back | src/components/chat/context-questionnaire.tsx:192-196 | from step 2 on the step goes back one, nothing else changes |
| ContextQuestionnaire.Complete | src/components/chat/context-questionnaire.tsx:55-70 | at the last step the context is handed on exactly when a tool is selected, and then with the chosen trigger and at least one tool |
| CredentialsView.Settle | src/components/chat/credential-gap-check.tsx:58-77 | after the request, the error view exactly when the body's error or the exception's message is non-empty, showing that text; otherwise the body's credentials, or none after an exception |
| CredentialsView.SettleCases | src/components/chat/credential-discovery.tsx:74-93 | a body with an error is never listed, one without is listed as it came, and a thrown non-Error shows 'Failed to check credentials' |
| CredentialsView.EmptyMessageListsNothing | src/components/chat/credential-discovery.tsx:85-88 | an exception with an empty message leaves the listing view with no credentials |
| CredentialsView.ToolsOf | src/components/chat/credential-discovery.tsx:95 | the tools of the credentials, one per credential in order (also credential-gap-check.tsx line 79) |
| CredentialsView.ContinueTools | src/components/chat/credential-gap-check.tsx:84-115 | no button while loading, [] after a failure, the tool of every credential found otherwise, selected or not (the same in credential-discovery.tsx lines 98-130) |
| CredentialDiscovery.GetToolInfo | src/components/chat/credential-discovery.tsx:62-64 | a known tool gets its table entry, any other its own id with the package icon |
| CredentialDiscovery.MissingFrom | src/components/chat/credential-discovery.tsx:96 | the missing list never holds more than the common tools looked at |
| CredentialDiscovery.MissingFromMembers | src/components/chat/credential-discovery.tsx:46-60 | a tool is missing exactly when it is one of the common tools and not connected |
| CredentialDiscovery.ShownMissing | src/components/chat/credential-discovery.tsx:187 | the first eight missing tools at most, all of them when there are no more than eight |
| CredentialDiscovery.MoreCount | src/components/chat/credential-discovery.tsx:199-202 | '+k more' appears exactly past eight, and the shown tools and k together are all the missing ones |
| CredentialDiscovery.NoCredentials | src/components/chat/credential-discovery.tsx:181 | with no credential all 13 common tools are missing, eight shown and five more, yet the section stays hidden |
| CredentialDiscovery.AllMissing | src/components/chat/credential-discovery.tsx:96 | with nothing connected every common tool from the start index on is missing |
| CredentialDiscovery.ContinueLabel | src/components/chat/credential-discovery.tsx:222-224 | the label is plain 'Continue' exactly when no credential is connected |
| CredentialGapCheck.GetToolInfo | src/components/chat/credential-gap-check.tsx:45-47 | a known tool gets its table entry, any other its own id with the package icon |
| CredentialGapCheck.Partition | src/components/chat/credential-gap-check.tsx:80-81 | connected holds exactly the selected tools with a credential, missing exactly those without, and both together are as many as the selection |
| CredentialGapCheck.AllConnectedIff | src/components/chat/credential-gap-check.tsx:82 | all connected exactly when every selected tool has a credential, and then the connected list is the selection |
| CredentialGapCheck.NothingMissing | src/components/chat/credential-gap-check.tsx:80 | when every selected tool has a credential the connected list is the selection |
| CredentialGapCheck.ContinueCoversConnected | src/components/chat/credential-gap-check.tsx:84-86 | every connected selected tool is handed on |
| CredentialGapCheck.UnselectedHandedOn | src/components/chat/credential-gap-check.tsx:80-86 | with Gmail selected and only a Slack credential nothing selected is connected, yet Slack is handed on |
| ToolSelector.Delete | src/components/chat/tool-selector.tsx:44 | the deletion keeps exactly the other tools |
| ToolSelector.DeleteNoRepeats | src/components/chat/tool-selector.tsx:44 | deleting keeps the selection free of repeats |
| ToolSelector.EssentialTools | src/components/chat/tool-selector.tsx:32-38 | the initial selection holds exactly the essential recommendations' tools, each once |
| ToolSelector.ToggledMembers | src/components/chat/tool-selector.tsx:40-50 | toggling flips that tool's membership, leaves every other tool alone and keeps the selection free of repeats |
| ToolSelector.ToggleInvolution | src/components/chat/tool-selector.tsx:40-50 | toggling twice gives back the same selection |
| ToolSelector.Selector.constructor | src/components/chat/tool-selector.tsx:32-38 | the essential tools start selected |
| ToolSelector.Selector.ToggleTool | src/components/chat/tool-selector.tsx:40-50 | the selection becomes the toggled one and stays free of repeats |
| ToolSelector.Selector.Continue | src/components/chat/tool-selector.tsx:52-54 | Continue hands on the selection without repeats, and only when it is non-empty |
| MessageBubble.Spans | src/components/chat/message-bubble.tsx:39-51 | one span per piece of the prose cut at single backticks, carrying that piece, inline code exactly at the odd positions |
| MessageBubble.Blocks | src/components/chat/message-bubble.tsx:22-52 | one block per piece of the message cut at triple backticks: code blocks exactly at the odd positions, otherwise prose spans of that piece |
| MessageBubble.PiecesRoundTrip | src/components/chat/message-bubble.tsx:22 | one block more than there are fences; the pieces joined back with the fence give the message, and no piece holds a fence |
| MessageBubble.UnterminatedFence | src/components/chat/message-bubble.tsx:22-23 | a message with a single fence has a prose block and then a code block that runs to the end |
| MessageBubble.CodeBlockCases | src/components/chat/message-bubble.tsx:25-34 | without a newline the piece is both label and code; otherwise the label is the first line, shown only when non-empty, and the code the rest, or the whole piece when the rest is empty |
| MessageBubble.SpansRoundTrip | src/components/chat/message-bubble.tsx:39 | the spans of a prose piece, joined back with the backtick, give the piece |
| MessageBubble.SpanTexts | src/components/chat/message-bubble.tsx:39-51 | the texts of the spans, one per span in order |
| MessageList.TextsOf | src/components/chat/message-list.tsx:33-37 | the texts of the text parts, never more than the parts |
| MessageList.JoinSnoc | src/components/chat/message-list.tsx:37 | joining with '' one more text appends it |
| MessageList.ContentParts | src/components/chat/message-list.tsx:33-38 | no parts give ''; a text part appends its text with nothing between; any other part adds nothing |
| MessageList.NoTextNoContent | src/components/chat/message-list.tsx:35 | a message without text parts has no texts |
| MessageList.VisibleMembers | src/components/chat/message-list.tsx:41-44 | a message gets a bubble exactly when it is in the list and is not a system message |
| MessageList.VisibleAppend | src/components/chat/message-list.tsx:41-44 | filtering keeps the messages' order: the filter of a concatenation concatenates the filters |
| MessageList.VisibleAll | src/components/chat/message-list.tsx:41-44 | with no system message every message is shown |
| MessageList.OnlySystem | src/components/chat/message-list.tsx:41-44 | with only system messages nothing is shown |
| MessageList.Render | src/components/chat/message-list.tsx:12-69 | the empty state exactly for no messages; otherwise one bubble per shown message in order with its id, role and content, and the typing indicator exactly while loading after a user's last message |
| MessageList.BubbleRoles | src/components/chat/message-list.tsx:49-55 | every bubble is a user or an assistant bubble |
| MessageList.TrailingSystemHidesTyping | src/components/chat/message-list.tsx:56 | a system message after the user's last one hides the indicator, though the user's bubble is the last shown |
| MessageList.SystemOnlyTranscript | src/components/chat/message-list.tsx:19-44 | only system messages render the transcript with no bubble and no indicator, not the empty state |
| N8nConnectionForm.FilledIsTrimmed | src/components/settings/n8n-connection-form.tsx:89 | neither field blank is the same condition as neither trimmed field empty |
| N8nConnectionForm.Form.constructor | src/components/settings/n8n-connection-form.tsx:18-24 | the form starts with the stored host, no key, no messages, idle and with no passed test |
| N8nConnectionForm.Form.EditUrl | src/components/settings/n8n-connection-form.tsx:122-132 | typing in the enabled URL field sets the URL and voids a passed test; a disabled field changes nothing |
| N8nConnectionForm.Form.EditKey | src/components/settings/n8n-connection-form.tsx:142-152 | typing in the enabled key field sets the key and voids a passed test; a disabled field changes nothing |
| N8nConnectionForm.Form.StartTest | src/components/settings/n8n-connection-form.tsx:30-41 | an enabled test clears both messages and the passed flag, marks the test under way and sends the URL and key; a disabled button changes nothing |
| N8nConnectionForm.Form.FinishTest | src/components/settings/n8n-connection-form.tsx:43-56 | only an ok response passes the test and shows success; a rejection shows its own error or 'Connection test failed', an exception 'Failed to test connection'; the test ends either way |
| N8nConnectionForm.Form.StartSave | src/components/settings/n8n-connection-form.tsx:59-69 | an enabled save clears both messages, marks the save under way and sends settings that are not blank; a disabled button changes nothing |
| N8nConnectionForm.Form.FinishSave | src/components/settings/n8n-connection-form.tsx:71-86 | an ok response shows success, clears the key and the passed test; a failure shows its own error or 'Failed to save settings'; the save ends either way |
| N8nConnectionForm.HandleTest | src/components/settings/n8n-connection-form.tsx:30-57 | a request is sent exactly when the test button is enabled, and the test then passes exactly on an ok response |
| N8nConnectionForm.HandleSave | src/components/settings/n8n-connection-form.tsx:59-90 | a save is sent exactly when the save button is enabled; after a successful one neither save nor test is enabled until a new key is entered and passes a test |

## Left out

**Inputs and libraries that are outside the model**
- The dagre layered-layout algorithm is a parameter: any answer it gives, or its failure, is allowed.
- `JSON.parse` is a parameter, and `JSON.stringify` is not modelled:
  - `buildWorkflow` works on the serialised text;
  - `detectWorkflowJson` checks the shape of whatever the parser returns.
- `Date`, `new Date().toISOString()` and `toLocaleDateString` are not modelled. The elapsed milliseconds, the ISO time of a week ago and the formatted date are inputs, and an unparsable date (NaN) is not modelled.
- Network requests (`fetch`) and their JSON bodies are not modelled, and neither are Supabase authentication or stored settings. Each request's outcome is an input.

**Route handlers**
- The automations route:
  - its `catch` branch, which answers 500 with the exception's message, is not modelled;
  - the `|| []` fallback for a body without `data`, and the requests themselves, are folded into the list inputs.
- The credentials route's `GET` handler is not modelled: the not-configured 400, the MCP failure 500 and the `catch`. The route's MCP client call is not part of this model. Its tool mapping and deduplication are modelled.
- `validateWorkflowDetailed` and the prompt helpers are imported by the code, but their source is not part of this model.

**UI effects with no effect on the model's state**
- These are not modelled:
  - the scroll-to-bottom effect of the message list;
  - `router.refresh()` after saving settings;
  - the connection form's help toggle;
  - copying the JSON and showing it on the workflow card;
  - the links on the automation card;
  - the celebration shown after a deploy.
- Rendering details are not modelled: class names, icons, emoji and free text. Only the texts the contracts speak about are modelled.
- Free text of the template catalogue is not modelled: taglines, descriptions, field placeholders, and the message texts of workflow nodes that hold no field placeholder.

**Data representation**
- Strings are sequences of Unicode scalar values, whereas JavaScript strings are UTF-16 code units. So `slice(0, 40)` on text with characters outside the Basic Multilingual Plane counts differently.
- `toLowerCase`, and the `toUpperCase` of NodeIcons.CapitalizeFirst, are modelled only for ASCII letters. JavaScript's full case mapping, such as 'é' to 'É', or 'ß' to 'SS', which lengthens the text, is not modelled. `\s` is JavaScript's white-space set.
- JSON numbers are integers (layout coordinates are reals). Fractional numbers and `Number(...)` giving NaN are not modelled.
- Graph.Entry: an object in a `main` output array whose `node` is not a string, such as `{ node: 5 }`, is not expressible. The code treats it differently in each file, and the model captures none of these:
  - the validator reports it as a missing target (`"5"`) and adds it to `connectedNodes`, where no node name matches it;
  - the converter skips it;
  - the summarizer queues a truthy one and looks up `connections` under its string form.
- Graph.Entry: an `index` is an integer or absent. An absent one is modelled, and gives the handle `input-undefined`. An `index` of another JSON type is not modelled.
- A JavaScript object is an association list. For a real object the keys are distinct, and the model assumes they are distinct where that matters. These object features are not modelled:
  - prototype keys such as `constructor` or `toString` found by a table lookup;
  - the integer-key-first order of `Object.keys`.
- The connection object built by `transformConnections` is a map from source to its list of groups. The order of its keys is not kept, and the `{ main: … }` wrapper is its list.

**Deliberate restrictions**
- TemplateWizard.BuildWorkflow: each key's `{{key}}` is replaced as a literal. That matches the code only for keys with no regular-expression metacharacters and values with no `$` replacement patterns (`$&`, `$$` and the like). The shipped templates' keys and default values fall in that case. What the user types is not restricted, so a typed value holding such a pattern, which `replace` expands, is not modelled.
- Validator.ValidateWorkflow: two inputs on which `validateWorkflow` throws a TypeError are not expressible in the model, so the model does not capture those throws:
  - a `null` or `undefined` element of `nodes` (reading `node.name`);
  - a truthy `connections` that is not an object, such as `"x"` or `5`. The connection loops skip it, but `node.name in wf.connections` then throws on the first node.
- N8nTools.TransformConnections: `sourceOutput` is a natural number. The tool schema admits negative or fractional outputs, which would make the code dereference `undefined`.
- Summarize.DescribeAll: every description is appended without the `if (description)` guard of `generateStepDescriptions`. The guard never fails, because every description of `describeNode` starts with "When" or "Then".

**Other code not in the model**
- The executors of the n8n tools' MCP calls (`list_workflows` and the others) are not part of this model, only their connection builder.
- The auto-save hook, the conversation hooks and the chat and deploy routes are I/O, timers or pass-through code.

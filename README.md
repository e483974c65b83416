# Certimate credential editor and deploy step, modelled in Dafny

This project models the small amount of real logic in a certificate-management console:

- **The deploy step of a workflow** (`deployNode.Run`, Go). It reads the node's previous output. It decodes the certificate source `nodeId#outputName` with `strings.Split`. It skips when the node is already deployed and the certificate is not newer. Otherwise it fetches the access credential, builds and runs the deployer, and saves an output record that keeps the previous record's id. Each path writes a fixed sequence of log lines.
- **The credential editor** (`AccessEditForm`, TypeScript). An envelope form holds `name`, `configType` and `config`. The `configType` state chooses one of 18 payload forms. Payload changes arrive as form-change events, and only events named with the editor's own scope name are acted on. `validateFields` succeeds only when both the envelope and the payload validate. In edit mode the type selector is disabled.
- **The Aliyun payload form**: its schema, its default model, and how it is mounted.
- **The credential list page**: the page window, the row numbers, the pagination state, and the records that the edit and copy actions open.
- **The webhook deploy-node form**: its defaults, its schema, the certificate option encoding `id#name`, and what a submit stores. Encoding an option and decoding it in the deploy step is proved to round-trip exactly when neither part contains `#`.

Files (one module each):

- `common.dfy`: Option and Result.
- `go_strings.dfy`: Go `strings.Split`/`Join` on `#`.
- `js_strings.dfy`: ECMAScript `trim`.
- `zod.dfy`: the zod string rules.
- `deploy_node.dfy`: `NodeProcessor`.
- `aliyun_config.dfy`: `AliyunConfig`.
- `access_edit_form.dfy`: `AccessEditForm`.
- `access_list.dfy`: `AccessList`.
- `deploy_to_webhook.dfy`: `DeployToWebhook`.

`deployNode.Run` is imperative: the class `NodeProcessor.DeployNode` holds the node and the logger's lines, and its `Run` method is proved to append exactly the lines, make exactly the requests and return exactly the status that the function `NodeProcessor.Execute` gives. The properties of a run are the postconditions of `Execute` and of the lemmas beside it. The collaborators are modelled as an `Environment` value. It holds the answers of the output repository, the access repository, the deployer factory, the deployer and the save call. `Run` records each request it makes, with its arguments, as a `Call`. The editor's state changes are methods of the class `AccessEditForm.Editor`. The rest is pure and is modelled as functions.

Some behaviours of the code that a reader might not expect, which the model follows as written:

- `validateFields` settles with `Promise.all`. On failure it rejects with the first rejection to settle, not with the union of both forms' errors. The model takes the order of the two rejections as a parameter (`Side`).
- The payload form is always seeded with `model.config`, whatever type is selected. When the model has a `config`, a type switch seeds the new type's form with that `config`, even if it belongs to another type. Without one, each form falls back to its own default.
- `resetFields` resets only the envelope form. It leaves the payload form and the `configType` state alone.
- An unlisted or unset type selects no payload form. Nothing fatal happens.

## Model

| member | source | states |
|---|---|---|
| GoStrings.Split | internal/workflow/node-processor/deploy_node.go:40 | splitting on `#` always yields at least one piece, as Go's `strings.Split` does |
| GoStrings.SplitLength | internal/workflow/node-processor/deploy_node.go:40-41 | there is one more piece than there are `#`, so "two pieces" means "exactly one `#`" |
| GoStrings.SplitSeparatorFree | internal/workflow/node-processor/deploy_node.go:40 | no piece contains `#` |
| GoStrings.JoinSplit | internal/workflow/node-processor/deploy_node.go:40 | joining the pieces with `#` gives back the source string |
| GoStrings.SplitJoin | internal/workflow/node-processor/deploy_node.go:40 | splitting `#`-free pieces joined with `#` gives back the same pieces |
| NodeProcessor.MessageTextsDistinct | internal/workflow/node-processor/deploy_node.go:28-122 | the eleven log messages have pairwise distinct texts |
| NodeProcessor.ParseCertSource | internal/workflow/node-processor/deploy_node.go:38-44 | a source decodes iff it has exactly one `#`; the node id and output name are `#`-free and rebuild the source |
| NodeProcessor.DeployStage | internal/workflow/node-processor/deploy_node.go:61-121 | the steps after the skip check never skip, log one or two lines, start with the access lookup by the node's `access` setting, and never ask for an output or a certificate |
| NodeProcessor.CheckStage | internal/workflow/node-processor/deploy_node.go:29-59 | the output lookup comes first; a run stopped before the deploy steps (an error, a malformed source or a skip) logs one line and asks only for the output and the certificate; otherwise it asks for the output, then the certificate by the source's node id, then continues exactly as the deploy steps do |
| NodeProcessor.Execute | internal/workflow/node-processor/deploy_node.go:28-122 | a run logs two or three lines, opening with the start line, and its first request is the output lookup |
| NodeProcessor.LookupErrorAborts | internal/workflow/node-processor/deploy_node.go:31-35 | a lookup error other than not-found aborts with that error after the lookup alone, logging "query output failed" |
| NodeProcessor.MalformedSourceAborts | internal/workflow/node-processor/deploy_node.go:38-44 | when the lookup passes, a source that does not split into two pieces aborts with a configuration error naming the source, after the lookup alone |
| NodeProcessor.CertificateFetchFailureAborts | internal/workflow/node-processor/deploy_node.go:46-50 | when the lookup and the parse pass, a failed certificate fetch aborts with the repository's error, logging "get certificate failed" with that error |
| NodeProcessor.DeployStepFailureAborts | internal/workflow/node-processor/deploy_node.go:61-112 | past the skip check, the first of the access fetch, the deployer, the deploy and the save to fail makes the run abort with that step's error, and the last line is that step's failure line carrying the error |
| NodeProcessor.SkipsIffUpToDate | internal/workflow/node-processor/deploy_node.go:54-59 | a run skips iff the lookup, the parse and the certificate fetch succeed and `deployed(output)` holds with `cert.created` before the output's `updated`; a skip logs only "already deployed" and never deploys |
| NodeProcessor.Deployed | internal/workflow/node-processor/deploy_node.go:124-126 | `deployed(output)`: no previous output is never deployed, and a previous output is deployed iff it records a success; `SkipsIffUpToDate` carries its use in the skip rule |
| NodeProcessor.FailureIsLastLine | internal/workflow/node-processor/deploy_node.go:28-122 | no line but the last is a failure line, and the last line is a failure line iff the run returns an error |
| NodeProcessor.DeployStageFailureIsLast | internal/workflow/node-processor/deploy_node.go:61-121 | in the deploy steps only the last line can be a failure line, and it is one iff they return an error |
| NodeProcessor.CompletesIffAllStepsSucceed | internal/workflow/node-processor/deploy_node.go:61-121 | a run completes iff it passes the skip check and the access fetch, the deployer, the deploy and the save all succeed; it then has deployed and logs "deploy succeeded" then "save succeeded" |
| NodeProcessor.CertificateFetchedBySourceNode | internal/workflow/node-processor/deploy_node.go:46 | the certificate is fetched by the source's node id; the output name is never used |
| NodeProcessor.DeployerConfiguredFromNode | internal/workflow/node-processor/deploy_node.go:67-87 | the deployer type and `DeployConfig.Type` are the node's `providerType` setting; `DeployConfig.Access` is the fetched access's id; `DomainId` and `DeployConfig.Id` are the node id |
| NodeProcessor.OptionFor | internal/workflow/node-processor/deploy_node.go:67-85 | the deployer option deploys the fetched certificate (SAN and all five certificate fields) for this node id, with the fetched access record and its config, and a `DeployConfig` of the node id, the access id, the node's `providerType` and the node's settings |
| NodeProcessor.DeployStepsRequested | internal/workflow/node-processor/deploy_node.go:61-118 | past the skip check a found access leads to a `GetDeployer` request with the node's provider type and `OptionFor` of the fetched certificate and access; a deployer built and run without error leads to the deploy and to saving `OutputRecord` |
| NodeProcessor.FailedStepStopsRun | internal/workflow/node-processor/deploy_node.go:61-118 | a failed step stops the run: a deployer is requested iff the run gets past the skip check and the access is found, the deploy iff the deployer is also built, and a save iff the deploy also succeeds, so no success record follows a failed step |
| NodeProcessor.SavedOutputReusesId | internal/workflow/node-processor/deploy_node.go:101-112 | the saved output has `Succeed = true`, this node's id and the workflow id, and the previous output's id if there was one, else "" |
| NodeProcessor.OutputRecord | internal/workflow/node-processor/deploy_node.go:102-112 | the recorded output is a success for this workflow and node, keeps the previous output's id (or "" without one), and leaves the timestamps at the zero time |
| NodeProcessor.DeployNode.constructor | internal/workflow/node-processor/deploy_node.go:20-26 | a new deploy node holds its node and an empty log |
| NodeProcessor.DeployNode.AddOutput | internal/workflow/node-processor/deploy_node.go:29 | a log call appends one line for this node's name |
| NodeProcessor.DeployNode.Run | internal/workflow/node-processor/deploy_node.go:28-122 | the run returns the status, makes the requests and appends the log lines that `Execute` gives |
| NodeProcessor.DeployNode.CheckAndDeploy | internal/workflow/node-processor/deploy_node.go:30-121 | everything after the start line returns, requests and logs what `CheckStage` gives |
| NodeProcessor.DeployNode.DeployAndRecord | internal/workflow/node-processor/deploy_node.go:61-121 | the steps after the skip check return, request and log what `DeployStage` gives |
| JsStrings.LeadingSpace | ui/src/components/access/AccessEditForm.tsx:54 | counts the white space that starts the string: all of it is white space, and the next character, if any, is not |
| JsStrings.TrailingSpace | ui/src/components/access/AccessEditForm.tsx:54 | counts the white space that ends the string: all of it is white space, and the character before it, if any, is not |
| JsStrings.TrimStart | ui/src/components/access/AccessEditForm.tsx:54 | the result is a suffix of the input that does not start with white space, and everything cut off is white space |
| JsStrings.TrimEnd | ui/src/components/access/AccessEditForm.tsx:54 | the result is a prefix of the input that does not end with white space, and everything cut off is white space |
| JsStrings.TrimSlice | ui/src/components/access/AccessEditForm.tsx:54 | trimming keeps a contiguous slice and removes only white space on both sides |
| JsStrings.Trim | ui/src/components/access/AccessEditForm.tsx:54 | `trim` never lengthens a string and leaves no white space at either end; `TrimSlice`, `TrimEmptyIffBlank` and `TrimIdempotent` carry the rest |
| JsStrings.TrimmedEnds | ui/src/components/access/AccessEditForm.tsx:54 | a trimmed string is empty or starts and ends with non-white-space |
| JsStrings.TrimEmptyIffBlank | ui/src/components/access/AccessEditForm.tsx:52-55 | a string trims to nothing iff it is all white space |
| JsStrings.TrimIdempotent | ui/src/components/access/AccessEditForm.tsx:54 | trimming twice equals trimming once |
| JsStrings.NonBlankWithin | ui/src/components/access/AccessEditForm.tsx:52-56 | a trimmed length of 1..max holds iff the string has a non-white-space character and trims to at most max characters |
| Zod.TrimmedString | ui/src/components/access/AccessEditForm.tsx:52-56 | the trimmed-string rule reports no issue iff the value is a string of trimmed length within the bounds, and at most one issue, on that field |
| Zod.MinString | ui/src/components/workflow/DeployToWebhook.tsx:45-46 | the untrimmed minimum-length rule reports no issue iff the value is a string at least that long |
| AliyunConfig.Validate | ui/src/components/access/AccessEditFormAliyunConfig.tsx:31-42 | passes iff `accessKeyId` and `accessKeySecret` are both strings of trimmed length 1..64, and then yields the values; on failure the issues name exactly the failing keys |
| AliyunConfig.InitModel | ui/src/components/access/AccessEditFormAliyunConfig.tsx:21-26 | the default model has both keys empty and fails validation on both |
| AliyunConfig.Mount | ui/src/components/access/AccessEditFormAliyunConfig.tsx:45-55 | the form registers under the caller's `formName`; it is disabled when loading or disabled; its initial values are the model if given, else the default model, which never validates |
| AccessEditForm.ProviderOf | ui/src/components/access/AccessEditForm.tsx:81-118 | every payload form is the dispatch's choice for its own provider type |
| AccessEditForm.FormFor | ui/src/components/access/AccessEditForm.tsx:81-118 | the `switch` arm of a listed type: the Aliyun type and only it mounts the Aliyun form, the webhook type and only it the webhook form; `ProviderOf` inverts it and `DispatchIsBijective` states it is one-to-one |
| AccessEditForm.SelectPayloadForm | ui/src/components/access/AccessEditForm.tsx:81-118 | a form is selected iff the type is one of the 18 listed types, and it is that type's form; an unlisted or unset type selects none |
| AccessEditForm.DispatchIsBijective | ui/src/components/access/AccessEditForm.tsx:81-118 | distinct types select distinct forms, and each form is selected by its own type |
| AccessEditForm.ValidateEnvelope | ui/src/components/access/AccessEditForm.tsx:51-59 | passes iff the name's trimmed length is 1..64 and the type is a listed value, and then yields the mounted fields `name` and `configType` only; the issues name exactly the failing fields |
| AccessEditForm.Mounted | ui/src/components/access/AccessEditForm.tsx:153-165 | the values of the two mounted fields, `name` and `configType`, without `config`, which has no field of its own |
| AccessEditForm.EnvelopeIgnoresConfig | ui/src/components/access/AccessEditForm.tsx:58 | the envelope's outcome, verdict and issues alike, does not depend on `config` |
| AccessEditForm.AggregateValidation | ui/src/components/access/AccessEditForm.tsx:143-147 | succeeds iff both halves succeed, yielding the envelope's value; a failure carries the error of a half that failed |
| AccessEditForm.AliyunRecordValid | ui/src/components/access/AccessEditForm.tsx:143-147 | with an Aliyun payload, validation succeeds iff the name, the type and both Aliyun keys are accepted |
| AccessEditForm.Editor.constructor | ui/src/components/access/AccessEditForm.tsx:63-74 | on mount, the initial values and the form hold the model (or nothing), the type state is `model?.configType`, and the scope name is fixed |
| AccessEditForm.Editor.PayloadProps | ui/src/components/access/AccessEditForm.tsx:80 | the payload form is always named by the scope name and seeded with `model.config`, whatever type is selected |
| AccessEditForm.Editor.HandleFormProviderChange | ui/src/components/access/AccessEditForm.tsx:121-126 | an event with the scope name sets `config` to the payload's values and reports the full values; any other name changes nothing |
| AccessEditForm.Editor.HandleFormChange | ui/src/components/access/AccessEditForm.tsx:128-134 | the type state, and so the mounted payload form, follow the form's type, and the values are always reported |
| AccessEditForm.Editor.SelectType | ui/src/components/access/AccessEditForm.tsx:153-164 | in add mode with the form unlocked, the chosen type becomes the form's type and the type state, its payload form is mounted, and the mounted fields are reported; in edit mode or while the form is locked nothing changes, the payload form included |
| AccessEditForm.Editor.EditName | ui/src/components/access/AccessEditForm.tsx:153-156 | with the form unlocked, a name edit updates the name, re-syncs the type state to the form's type and reports the mounted fields; while the form is locked nothing changes |
| AccessEditForm.Editor.GetFieldsValue | ui/src/components/access/AccessEditForm.tsx:137-139 | returns the form's current values |
| AccessEditForm.Editor.ResetFields | ui/src/components/access/AccessEditForm.tsx:140-142 | the envelope form returns to its initial values |
| AccessEditForm.Editor.ValidateFields | ui/src/components/access/AccessEditForm.tsx:143-147 | succeeds iff the current name and type pass and the payload passes, yielding the mounted fields `name` and `configType` without `config` |
| AccessEditForm.Editor.SetModel | ui/src/components/access/AccessEditForm.tsx:63-71 | a new model becomes the initial values; the type state is reset to the model's type only when `model.configType` changed, and otherwise it and the mounted payload form stay as they were |
| AccessEditForm.PickThenUpdateModel | ui/src/components/access/AccessEditForm.tsx:68-71 | a type picked in add mode with the form unlocked, and its payload form, survive a new model whose type is unchanged |
| AccessEditForm.DeliverToBoth | ui/src/components/access/AccessEditForm.tsx:121-126 | with two editors open, an event from one editor's payload form sets the first editor's `config` and reports it; the other editor's values and reports stay as they were, and nothing else of either editor can change |
| AccessEditForm.ResetTwice | ui/src/components/access/AccessEditForm.tsx:140-142 | reset is idempotent: the values after a second reset equal those after the first, the initial values |
| AccessList.SliceIndex | ui/src/pages/accesses/AccessList.tsx:130 | a slice index resolves into `0..len`: an in-range index is kept, a negative one counts from the end (at least 0), and one past the end becomes the length |
| AccessList.Slice | ui/src/pages/accesses/AccessList.tsx:130 | a slice is never longer than the list |
| AccessList.SliceInRange | ui/src/pages/accesses/AccessList.tsx:130 | on in-range indices a slice is the subsequence, a reversed range is empty, and an end past the list clips to the end |
| AccessList.Window | ui/src/pages/accesses/AccessList.tsx:130 | from a non-negative start, the window holds at most `size` items, is empty at or past the end, and is otherwise the run of items from the start, clipped to the end |
| AccessList.Page | ui/src/pages/accesses/AccessList.tsx:127-134 | the total is always the list length; for page >= 1 the items are `accesses[(page-1)*pageSize ..]`, at most `pageSize` of them, clipped to the end, and none when the start is at or past the end |
| AccessList.RowShowsNumberedRecord | ui/src/pages/accesses/AccessList.tsx:29 | the row at index i of page p shows `accesses[(p-1)*pageSize + i]`, and its number is that index plus 1 |
| AccessList.RowNumber | ui/src/pages/accesses/AccessList.tsx:29 | the index column shows the row index plus one on the first page, and never less on a later page; `RowShowsNumberedRecord` ties it to the record shown |
| AccessList.EveryRecordOnAPage | ui/src/pages/accesses/AccessList.tsx:127-130 | record j is shown on page `j / pageSize + 1` at row `j % pageSize`, numbered j + 1 |
| AccessList.EveryRecordOnOnePage | ui/src/pages/accesses/AccessList.tsx:127-130 | a row numbered j + 1 is on that page and at that row only, so no record is shown twice |
| AccessList.FirstPageShowsFirstRecords | ui/src/pages/accesses/AccessList.tsx:112-130 | the list opens on page 1 with ten rows a page, showing the first ten records (or all of them), numbered from 1 |
| AccessList.OnPaginationChange | ui/src/pages/accesses/AccessList.tsx:193-200 | a page or size change replaces both page and size |
| AccessList.CopyOf | ui/src/pages/accesses/AccessList.tsx:85 | the copy has no id and the name plus "-copy", and is otherwise the same record |
| AccessList.OpenEditor | ui/src/pages/accesses/AccessList.tsx:74-92 | edit opens the record unchanged in edit mode; copy opens the copy in add mode |
| DeployToWebhook.DefaultValues | ui/src/components/workflow/DeployToWebhook.tsx:50-66 | the provider type is always "webhook"; the other fields are the node's settings, or empty strings and an empty list when it has none |
| DeployToWebhook.Validate | ui/src/components/workflow/DeployToWebhook.tsx:43-48 | passes iff the provider type is present and `access` and `certificate` are non-empty strings (no trimming), with `variables` optional; the issues mention `providerType`, `access` and `certificate` each exactly when that field fails |
| DeployToWebhook.UnconfiguredNodeInvalid | ui/src/components/workflow/DeployToWebhook.tsx:50-66 | a node with no settings opens a form that fails on both `access` and `certificate` |
| DeployToWebhook.OptionValueSplits | ui/src/components/workflow/DeployToWebhook.tsx:142 | splitting `nodeId#outputName` on `#` gives exactly `[nodeId, outputName]` iff neither contains `#` |
| DeployToWebhook.OptionValueDecodes | ui/src/components/workflow/DeployToWebhook.tsx:142 | the deploy step decodes an option value to the chosen node and output iff neither contains `#` |
| DeployToWebhook.NodeOptions | ui/src/components/workflow/DeployToWebhook.tsx:141-142 | one option per declared output of a node, valued `id#name` |
| DeployToWebhook.OptionValue | ui/src/components/workflow/DeployToWebhook.tsx:142 | an option value is the node id, one `#`, then the output name; `OptionValueSplits` and `OptionValueDecodes` state when it decodes back |
| DeployToWebhook.CertificateOptions | ui/src/components/workflow/DeployToWebhook.tsx:137-147 | every option holds the `#` separator, and the first node's options come first; `OptionsComeFromEarlierOutputs` states where each option comes from, and `EveryEarlierOutputOffered` that every declared output of every given node is offered |
| DeployToWebhook.EveryEarlierOutputOffered | ui/src/components/workflow/DeployToWebhook.tsx:137-147 | every declared output of every given earlier node appears among the certificate options, valued `id#name` |
| DeployToWebhook.OptionsComeFromEarlierOutputs | ui/src/components/workflow/DeployToWebhook.tsx:137-147 | every option names an output of one of the given earlier nodes and, when ids and names are `#`-free, decodes to exactly that node and output |
| DeployToWebhook.Submitted | ui/src/components/workflow/DeployToWebhook.tsx:69-71 | a submit stores the values as the node's settings and marks it validated; id, name and outputs are unchanged |
| DeployToWebhook.HandleSubmit | ui/src/components/workflow/DeployToWebhook.tsx:81 | the node is updated iff the values validate |
| DeployToWebhook.ReopenShowsSubmitted | ui/src/components/workflow/DeployToWebhook.tsx:57-71 | reopening a submitted node shows the submitted values with the provider type forced to "webhook", and they still validate |

## Left out

- `node.GetConfigString` is not part of this model. `ConfigString` assumes it returns the setting's string, or "" when the setting is not set.
- `NewLogger` and the logger's storage are not part of this model. A new deploy node starts with an empty log, and `AddOutput` appends one line.
- The `context` is left out. The workflow id that `GetWorkflowId(ctx)` reads is a field of the `Environment`.
- Repositories, the deployer factory, the deployers and the save call are outcomes given in the `Environment`, not code. The access repository's mapping of "no rows" to `ErrRecordNotFound` (internal/repository/access.go:21-23) is represented by that error value.
- Time values are integers, and `Before` is `<`. The saved output's timestamps are 0, which stands for Go's zero time. The repository fills them in, and that is not modelled.
- Log details keep the error value (`ErrorText`) rather than the text of `err.Error()`.
- The string values of `ACCESS_PROVIDER_TYPES` are not part of this model. A type is either one of the 18 listed values or an unlisted string.
- The editor's values hold only `name`, `configType` and `config`. Other keys of the model that the antd store would also return (id, timestamps) are left out.
- Lengths count Unicode code points. zod counts UTF-16 code units, so the two differ only for characters outside the Basic Multilingual Plane.
- Payload values are string-valued maps. Non-string payload fields are not modelled.
- The other 17 payload forms are not shown. Each is represented only by its place in the dispatch.
- The Aliyun form's `handleFormChange` (ui/src/components/access/AccessEditFormAliyunConfig.tsx:50-52) forwards its fields unchanged to an optional `onModelChange`. The editor never passes that callback (ui/src/components/access/AccessEditForm.tsx:80), so the forwarding has no effect here and is not modelled.
- React and antd machinery is left out: hook lifecycles, memoisation, `Form.Provider` delivery, antd's and zod's internals, and rendering, i18n, icons and tooltips. The scope name's random and time-based construction (AccessEditForm.tsx:74) is an opaque string fixed at mount.
- `Promise.all`'s timing is left out. Each form's validation is a given outcome. When both reject, which rejection comes first is a parameter.
- The list page's fetch, notifications and delete confirmation (AccessList.tsx:115-159) are left out, and so are the dates it formats.
- AccessList.Page: states the window only for page >= 1 and pageSize >= 0, which are the values antd's pagination passes. For other values the slice's negative-index behaviour is modelled in `Slice` but not stated.
- Page arithmetic uses integers, not JavaScript's floating-point numbers.
- The store query `getWorkflowOuptutBeforeId(id, "certificate")` (DeployToWebhook.tsx:39) is not part of this model. The certificate options are built from whatever nodes it returns. "Only certificate outputs of earlier nodes" therefore rests on that query.
- An absent `output` list counts as an empty one.
- The webhook form's `as string` casts and the `variables` entries' types are taken at their declared types.
- `hidePanel` and the access picker are left out.
- WorkflowLogDetail.tsx only renders a log and is not modelled.

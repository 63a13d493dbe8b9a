# Linear GraphQL client: execution gateway and compound operations

This project models the core of `LinearGraphQLClient` (`src/graphql/client.ts`), the layer
between an MCP server and Linear's GraphQL API. It has three parts:

- **the execution gateway** (`execute`). It sends one GraphQL request and returns the response's
  `data`. When the transport throws an `Error`, the gateway re-throws it with the message prefixed by
  `"GraphQL operation failed: "`. Any other thrown value passes through unchanged.
- **the bulk update** (`updateIssues`). The API has no multi-identifier update, so this runs one
  single-issue update per identifier, strictly in order, and never aborts. It collects the issues
  that were confirmed as updated and AND-s a single success flag over all the calls.
- **project creation with issues** (`createProjectWithIssues`). It creates a project and stops if
  that fails. Otherwise it stamps the new project id onto every issue input, submits the inputs as
  one batch, fails if the batch reports failure, and otherwise returns both sub-results.

The transport, which in `client.ts` is the Linear SDK's `rawRequest`, is an **oracle**: a function
from (the requests already sent in this client operation, the new request) to either
`Responded(data)` or `Threw(throwable)`. Because the answer may depend on what was already sent, a
stateful remote is covered. Every operation also returns the requests it sent, in order. This makes
"one call per identifier, in order" and "no batch call after a failed project" statements about the
result.

Modules:

| file | module | contents |
|---|---|---|
| client_types.dfy | ClientTypes | JSON values, records, issues, throwables, transport outcomes, completions, requests, documents |
| gateway.dfy | Gateway | `execute`: request body, error normalisation and its inverse |
| operations.dfy | Operations | the single-operation requests the compound operations use, with decoders for their variables |
| bulk_update.dfy | BulkUpdate | `updateIssues` as a method with a loop, proved against reference functions over the transport's replies |
| project_with_issues.dfy | ProjectWithIssues | `createProjectWithIssues` and the `projectId` stamping |

The bulk update is imperative in `client.ts`: a `for` loop pushes into a local array and clears a
flag. It is modelled as a method with a `while` loop. Its postcondition ties the result to
`ConfirmedIssues`, `AllConfirmed` and `Diagnostics`, each applied to `Replies(server, sent)`. The
lemmas about those functions give the counting, ordering and membership properties.
`createProjectWithIssues` and `execute` are pure apart from their throws, so they are functions that
return a `Completion` (`Returned` / `Raised`).

## Model

| member | source | states |
|---|---|---|
| Gateway.Normalise | src/graphql/client.ts:42-53 | A response yields exactly its `data`. A thrown `Error` with message m yields an `Error` whose message is the prefix followed by m: `UnderlyingMessage` recovers m. Any other thrown value is re-thrown unchanged. The completion resolves iff the transport responded. |
| Gateway.UnderlyingMessage | src/graphql/client.ts:50 | This is the inverse of the message normalisation. It returns Some(m) iff the message starts with `"GraphQL operation failed: "`, and then the message is exactly the prefix followed by m. |
| Gateway.Execute | src/graphql/client.ts:37-54 | Exactly one request is sent. It carries the document's body (`document.loc?.source.body` or "") and the variables unchanged. The call settles as the normalised answer to that request. |
| Gateway.NormaliseInjective | src/graphql/client.ts:48-53 | The completion determines the transport outcome as modelled here: the response's `data`, whether an `Error` was thrown, its underlying message, and any non-`Error` value. The `Error` class and its other properties are not modelled; see "Left out". |
| Gateway.TimeoutIsPrefixed | src/graphql/client.ts:48-51 | A transport throwing `Error("timeout")` makes `execute` reject with `Error("GraphQL operation failed: timeout")`. |
| Operations.RecordsOfObjects | src/graphql/client.ts:79-81 | The issue inputs encoded as a JSON list of objects decode back to the same inputs, in the same order. |
| Operations.CreateProject | src/graphql/client.ts:71-74 | One request on the project document. Its only variable is `input`, which is the project input, unchanged. It settles as the normalised answer. |
| Operations.CreateBatchIssues | src/graphql/client.ts:77-82 | One request on the batch document. Its only variable is `input`, whose only field is `issues`, and `input.issues` is the whole list, in order and unchanged. Success is whatever the remote reports. |
| Operations.UpdateIssue | src/graphql/client.ts:112-118 | As written, one request is sent on the update document. Its variables are exactly `ids` and `input`. `ids` decodes to the one-element list `[id]`, `input` is the update input, and there is no single `id` variable. The call settles as the normalised answer. |
| Operations.UpdateIssueById | src/graphql/client.ts:129-132 | One request on the update document. Its variables are exactly `id`, which is the identifier, and `input`, which is the update input. It settles as the normalised answer. |
| Operations.UpdateShapesDisagree | src/graphql/client.ts:112-132 | For every identifier and input, `updateIssue` and the bulk loop's per-identifier call target the same document with different variables. |
| BulkUpdate.BulkRequests | src/graphql/client.ts:126-132 | There is one request per identifier, in input order. Request i is on the update document with `id` = ids[i] and `input` = the update input. |
| BulkUpdate.UpdateIssues | src/graphql/client.ts:121-155 | The loop sends exactly the requests `BulkRequests(ids)`, whatever earlier calls gave. The returned issues are `ConfirmedIssues` of the replies, success is `AllConfirmed` of the replies, and the log is `Diagnostics` of the ids and replies. |
| BulkUpdate.ConfirmedCount | src/graphql/client.ts:123-141 | With K calls confirmed out of N (`CountConfirmed`), the returned list has length K, K is at most N, and overall success holds iff K = N. |
| BulkUpdate.ConfirmedIssuesExactly | src/graphql/client.ts:133-134 | An issue is in the result iff some call returned it with `success` true and an `issue` present. |
| BulkUpdate.ConfirmedIssuesPrefix | src/graphql/client.ts:126-134 | The issues confirmed by the first k calls are a prefix of the final list. Later calls only append, so the result keeps input order. |
| BulkUpdate.IssueOrDiagnostic | src/graphql/client.ts:133-142 | Each call does exactly one of two things: it contributes one issue, or, when not confirmed, it logs one diagnostic naming its own identifier. |
| BulkUpdate.LogNamesFailures | src/graphql/client.ts:135-142 | The log names exactly the identifiers of the unconfirmed calls, once each, in input order. |
| BulkUpdate.ConfirmedOrLogged | src/graphql/client.ts:133-142 | In total, the number of returned issues plus the number of log entries equals the number of identifiers. |
| BulkUpdate.SuccessWithoutIssueFails | src/graphql/client.ts:133-136 | A call that reports `success` true without an `issue` still makes the overall result unsuccessful and contributes no issue. |
| BulkUpdate.ThrowOnBScenario | src/graphql/client.ts:126-143 | Updating ["a", "b", "c"] when "b" throws attempts all three. The result is unsuccessful and holds the issues of "a" and "c", in that order. |
| BulkUpdate.EmptyIdsSucceed | src/graphql/client.ts:123-124 | An empty identifier list sends nothing and succeeds with an empty issue list. |
| BulkUpdate.AllConfirmedAppend | src/graphql/client.ts:136-140 | One more call keeps overall success iff it confirmed its update. |
| ProjectWithIssues.StampProjectId | src/graphql/client.ts:94-97 | The result has the same length and order as the input. Each element has `projectId` set to the project id. Every other field is present iff it was present before, with the same value. |
| ProjectWithIssues.RestampLastWins | src/graphql/client.ts:94-97 | Stamping twice equals stamping once with the later id: the spread-merge overrides any earlier `projectId`. |
| ProjectWithIssues.CreateProjectWithIssues | src/graphql/client.ts:85-109 | The operation sends one or two requests, and the first is always the project creation. It resolves only after both requests, with both success flags true. |
| ProjectWithIssues.ProjectFailureStopsEarly | src/graphql/client.ts:87-91 | When the project creation reports failure, the operation rejects with `Error("Failed to create project")` and sends only the project request. |
| ProjectWithIssues.ProjectErrorPropagates | src/graphql/client.ts:87 | A transport failure while creating the project propagates as normalised, and no batch is requested. |
| ProjectWithIssues.BatchCarriesProjectId | src/graphql/client.ts:94-99 | After a successful project creation, exactly one more request follows. It is on the batch document and carries the issue inputs stamped with the new project id. |
| ProjectWithIssues.BatchFailureNoRollback | src/graphql/client.ts:99-103 | When the batch reports failure, the operation rejects with `Error("Failed to create issues")` after exactly two requests. No rollback request is sent. |
| ProjectWithIssues.BatchErrorPropagates | src/graphql/client.ts:99 | A transport failure while creating the batch makes the operation reject with the normalised batch error, after exactly two requests, the second on the batch document. No rollback request is sent. |
| ProjectWithIssues.ResolvesIffBothSucceed | src/graphql/client.ts:101-108 | The operation resolves iff both calls returned with `success` true, and then it holds the two sub-results unmodified. |

## Left out

- The Linear SDK transport (`LinearClient.client.rawRequest`) and GraphQL over HTTP: the transport is an oracle supplied as a parameter.
- The GraphQL documents and their loading with `import('./mutations.js')` / `import('./queries.js')`. `src/graphql/mutations.ts` and `src/graphql/queries.ts` are not part of this model. Documents are opaque values, seen only through `document.loc?.source.body`.
- `console.error` in the bulk loop: it becomes an entry in the returned diagnostic log and does not affect control flow.
- Promises and `async`/`await`: every chain is strictly sequential, so it is modelled as a sequence of calls.
- Pure pass-through methods, each a single `execute` with a fixed variables record: `createIssue`, `createIssueLabels`, `searchIssues`, `getTeams`, `getCurrentUser`, `getProject`, `searchProjects`, `deleteIssue`, `deleteIssues`. `createIssues` sends exactly the request of `createBatchIssues`, which is modelled.
- Response envelopes: the oracle answers with the object the client reads (`issueUpdate`, `projectCreate`, `issueBatchCreate`), not with the whole `data`. The `as T` casts are unchecked in the TypeScript client. The model assumes the declared shapes. A null `issueUpdate` would raise a JavaScript `TypeError`, which the loop's `catch` absorbs. A successful `projectCreate` without a `project` would raise a `TypeError` only when `issues` is non-empty, because `project.id` is read inside the `map` callback (lines 94-97). With no issues, nothing is read and an empty batch is sent.
- Gateway.NormaliseInjective: errors keep only their message. `name`, `stack`, other properties and the `Error` subclass are not modelled. The TypeScript client re-throws any subclass as a fresh plain `Error`, so a thrown `TypeError("x")` and a thrown `Error("x")` give the same rejection. The injectivity holds only for the message-only model.
- JSON numbers are doubles in JavaScript. `Num` holds an integer instead; nothing is lost, because the client passes values on and never computes with them.

Line 133 needs both `success` and an `issue` before a call counts as confirmed, so a call that reports
`success` true without an `issue` is a failure (`SuccessWithoutIssueFails`). `createIssues`
(lines 63-68) and `createBatchIssues` (lines 77-82) send the same request.

## Findings

| source | as written | input that shows it | evidently intended | confidence | as-written member | corrected member |
|---|---|---|---|---|---|---|
| src/graphql/client.ts:114-117 | `updateIssue(id, input)` sends `{ ids: [id], input }` on the same update document to which the bulk loop (line 131, "matching the modified mutation") sends `{ id, input }` | `updateIssue("ISS-1", {})`: its request has no `id` variable, while `updateIssues(["ISS-1"], {})` sends `id: "ISS-1"` on the same document | send `{ id, input }`, as the bulk loop does | medium: the document's declared variables are not part of this model; not executed | Operations.UpdateShapesDisagree | Operations.UpdateIssueById |

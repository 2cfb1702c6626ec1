# figma-analyzer, modelled in Dafny

figma-analyzer is a pair of command-line diagnostics for the Figma web API.

- The **connection checker** does four things in order. It validates the configuration. It sends one `GET /v1/me` with the token header. It classifies the answer. On failure it prints remediation hints.
- The **JSON inspector** runs three steps once a token is configured:
  - it fetches the user endpoint;
  - it fetches the file named by `PROJECT_URL` and saves it to disk;
  - it fetches that file again, collects up to three node ids by a pre-order walk of its document tree, and requests those nodes.

This project models the logic inside both tools. Network answers are inputs (a status, a body text, and the body as parsed JSON). Console output becomes values: check statuses, hint lists, reports, and the list of requests and file saves a step performs.

Modules, one per file:

- `Wrappers`: `Option`.
- `Strings`: occurrence at a position, `includes`, `join`.
- `Http`: the null body statuses of the Fetch standard.
- `Settings`: the environment record. It also holds the constructor defaults shared by both classes. `src/figma-json-inspector.ts:10-13` is identical to the checker's constructor.
- `NodeIds`: `extractNodeIds`. A class models the shared id list that the recursive closure pushes to. A method is proved against a pre-order specification.
- `FileKey`: the pattern `(?:file|design)/([a-zA-Z0-9]+)`, written as a string scan.
- `JsonInspector`: the preview, `analyzeStructure`'s dispatch, the three steps and `runAllInspections`.
- `ConnectionChecker`: the check loop, `suggestSolutions`, the classification and `checkConnection`.

Where the code does something other than its one-line description, the model follows the code:

- `checkConnection` returns true only for status 200 whose body parses to a JSON value other than `null`. An array, a number, a string or a boolean counts too: reading `data.user` of such a value gives `undefined` and does not throw. A 200 whose body is not JSON, or is JSON `null`, throws inside the `try`. It is then reported as a connection failure (false).
- The error message for a non-200 answer falls back to the raw text only when the body is not JSON or is JSON `null`. Any other JSON value without a non-empty `error` field gives `Error desconocido`, not the text.
- A response with a null body status (101, 103, 204, 205, 304 in the Fetch standard) has no body. It reads as the empty text and never parses as JSON, whatever the probe's text and parsed value say.
- The inspector's file steps use `response.ok` (any 2xx). The checker uses `=== 200`. A 204 or 205 passes `response.ok`, but `response.json()` then rejects on its missing body, so the step saves nothing and samples no nodes.

## Model

| member | source | states |
|---|---|---|
| `Settings.Resolve` | src/figma-connection-checker.ts:22-25 | the token is empty exactly when `TOKEN` is unset or empty; the base URL is never empty, and it is `BASE_URL` when set and non-empty, otherwise `https://api.figma.com` |
| `Strings.Includes` | src/figma-json-inspector.ts:222 | true exactly when the word occurs at some position of the string |
| `Strings.Join` | src/figma-json-inspector.ts:150-152 | joining no ids gives the empty string; joining one id gives that id |
| `Strings.JoinSnoc` | src/figma-json-inspector.ts:152 | joining one more id to a non-empty list appends exactly one separator and then that id |
| `NodeIds.Cap` | src/figma-json-inspector.ts:188-197 | the capped list is a prefix of the input, of length `min(max(limit, 0), n)` |
| `NodeIds.IdCollector.constructor` | src/figma-json-inspector.ts:185 | the shared list starts empty and the limit is the one given |
| `NodeIds.IdCollector.Visit` | src/figma-json-inspector.ts:187-200 | a full list is left unchanged; otherwise the list becomes the cap of the old list followed by the node's pre-order ids; the early `break` is covered |
| `NodeIds.ExtractNodeIds` | src/figma-json-inspector.ts:184-207 | the result is the first `min(limit, n)` ids of the document's pre-order list; it never holds more than `limit` ids; it is empty without a document or with a limit of 0 or less |
| `NodeIds.ChildStep` | src/figma-json-inspector.ts:195-198 | one turn of the child loop keeps the list equal to the cap of the ids visited so far, and once the list is full it already equals the final result |
| `NodeIds.CapAppend` | src/figma-json-inspector.ts:188 | capping a capped list after more ids are appended is the same as capping once; a full list stays as it is |
| `NodeIds.CapFull` | src/figma-json-inspector.ts:197 | once the cap is reached, extending the input does not change the result |
| `NodeIds.PreorderUpToPrefix` | src/figma-json-inspector.ts:195-198 | visiting more children only extends the ids collected |
| `NodeIds.OwnIdFirst` | src/figma-json-inspector.ts:190-196 | a node's own qualifying id comes before every id of its children |
| `NodeIds.PreorderUpToMembership` | src/figma-json-inspector.ts:190-198 | an id is among those of a node and its first k children exactly when the node itself or one of those k subtrees carries it |
| `NodeIds.PreorderMembership` | src/figma-json-inspector.ts:187-200 | the pre-order list holds exactly the non-empty string ids found anywhere in the tree; a node with a missing, non-string or empty id adds none, but the ids below it are still reached |
| `NodeIds.UnqualifiedNodeContributesChildrenOnly` | src/figma-json-inspector.ts:190-198 | a node without a qualifying id contributes what a node with no id and the same children contributes |
| `NodeIds.SampleDocument` | src/figma-json-inspector.ts:147 | a root `0:1` with four children, capped at 3, gives `0:1`, `1:1`, `1:2` |
| `FileKey.RunEnd` | src/figma-json-inspector.ts:65 | the greedy group ends at the first position that is not an ASCII letter or digit, and everything before it is one |
| `FileKey.KeyAt` | src/figma-json-inspector.ts:73 | the captured group is non-empty, all letters and digits, follows the marker, and cannot be extended |
| `FileKey.FindMatch` | src/figma-json-inspector.ts:65 | it returns the leftmost position from which the pattern matches, or nothing when no position matches |
| `FileKey.ExtractFileKey` | src/figma-json-inspector.ts:65-73 | a key exists exactly when some `file/` or `design/` is followed by a letter or digit; the key is non-empty, all letters and digits, and is the whole run at the leftmost such position |
| `FileKey.ExtractAtLeftmost` | src/figma-json-inspector.ts:65 | taken with the result, the leftmost match decides the key |
| `FileKey.NoMatchAt` | src/figma-json-inspector.ts:65 | no match starts at a position holding neither `f` nor `d` |
| `FileKey.NoMatchAtFigma` | src/figma-json-inspector.ts:65 | no match starts at the `f` of `figma.com` |
| `FileKey.NoMatchInHost` | src/figma-json-inspector.ts:69 | nothing in `https://www.figma.com/` matches |
| `FileKey.DesignKeyRun` | src/figma-json-inspector.ts:73 | in the sample design URL the key runs from position 29 to the slash at 35 |
| `FileKey.DesignUrlSample` | src/figma-json-inspector.ts:69 | `https://www.figma.com/design/ABC123/My-File` yields `ABC123` |
| `FileKey.ProtoUrlSample` | src/figma-json-inspector.ts:66-70 | the sample `/proto/` URL yields no key |
| `JsonInspector.Preview` | src/figma-json-inspector.ts:91-92 | the preview is the first `min(500, n)` characters of the JSON text followed by `...`, so it is at most 503 long; a text of 500 or fewer characters is kept whole |
| `JsonInspector.AnalyzeStructure` | src/figma-json-inspector.ts:212-228 | nothing is analysed unless the data is an object; user analysis exactly for the endpoint `/v1/me`; file analysis exactly for any other endpoint containing `/v1/files/` |
| `JsonInspector.StepEndpointsDispatch` | src/figma-json-inspector.ts:220-224 | the user endpoint selects user analysis, and both `/v1/files/<key>` and `/v1/files/<key>/nodes` select file analysis |
| `JsonInspector.ProjectKey` | src/figma-json-inspector.ts:57-73 | a key is derived only from a set, non-empty project URL that matches the pattern |
| `JsonInspector.FileStep` | src/figma-json-inspector.ts:56-109 | no key means no request and no save; otherwise exactly one request, for the file, followed by a save exactly when the answer is 2xx with a body that parses as JSON, which a 204 or 205 never has; the only file ever saved is `figma-file-<key>.json` |
| `JsonInspector.NodesUrlSample` | src/figma-json-inspector.ts:152 | the ids `0:1`, `1:1`, `1:2` are requested as `<base>/v1/files/<key>/nodes?ids=0:1,1:1,1:2` |
| `JsonInspector.NodesStep` | src/figma-json-inspector.ts:114-179 | the step's requests are those of its value-level description, with the ids computed by `ExtractNodeIds` with limit 3 |
| `JsonInspector.NodesStepRequests` | src/figma-json-inspector.ts:143-173 | no key, no request. With a key: one request for the file, then a second one exactly when the file parses and some node anywhere in its document tree carries a non-empty string id. That request names the first one to three ids in pre-order |
| `JsonInspector.RunAllInspections` | src/figma-json-inspector.ts:286-301 | with an empty token nothing is requested or saved; otherwise the user request, then the file step, then the nodes step, in that order |
| `ConnectionChecker.Status` | src/figma-connection-checker.ts:42-51 | each check is missing-required, configured or missing-optional, each exactly under its own condition |
| `ConnectionChecker.ValidateEnvironment` | src/figma-connection-checker.ts:30-54 | one status per check, in list order; the result is false exactly when some required check has no value |
| `ConnectionChecker.ValidationNeedsOnlyToken` | src/figma-connection-checker.ts:33-38 | since the base URL always has a value, validation fails exactly when the token is empty; changing the optional values never changes the outcome |
| `ConnectionChecker.SuggestSolutions` | src/figma-connection-checker.ts:124-155 | every status gets hints: three for 401, two for every other status |
| `ConnectionChecker.SuggestSolutionsTable` | src/figma-connection-checker.ts:127-154 | 500, 502 and 503 share the server hints. Every other code without a case gets the default hints. 401, 403, 404 and 429 each get hints of their own |
| `ConnectionChecker.ErrorMessage` | src/figma-connection-checker.ts:98-104 | never empty: the JSON `error` field when the body is a JSON value other than `null` and the field is non-empty; otherwise `Error desconocido` for such a body; otherwise the raw text, or `Error desconocido` when it is empty |
| `ConnectionChecker.ClassifyResponse` | src/figma-connection-checker.ts:81-118 | connected exactly for 200 with a JSON body other than `null`, carrying its user; every other status is rejected with that status's hints and the error message of its body, which is `Error desconocido` for a response without a body; no answer at all gets the network hints |
| `ConnectionChecker.CheckConnection` | src/figma-connection-checker.ts:59-119 | failed validation returns false with no request; otherwise exactly one request to `<base>/v1/me`, and true exactly when the classification says connected |
| `ConnectionChecker.ConnectedOnlyOn200` | src/figma-connection-checker.ts:81-94 | connected exactly when the token is set and the answer is 200 with a JSON body other than `null`; 201 to 299 are failures |
| `ConnectionChecker.ClassifyResponseAsWritten` | src/figma-connection-checker.ts:81-117 | as written, step by step: a rejected report carries the answer's own status and that status's hints; a connection failure carries the network hints; validation plays no part |
| `ConnectionChecker.AsWrittenDiffersOnlyOnReadBody` | src/figma-connection-checker.ts:98-110 | the code as written agrees with the corrected classification on every answer except a non-200 one whose body is present and is not JSON or is JSON `null`, which it reports as a connection failure with the network hints; an answer without a body is rejected with `Error desconocido` and its status hints |
| `ConnectionChecker.AsWrittenLosesStatusHints` | src/figma-connection-checker.ts:98-106 | a 404 with a plain-text body loses its message and its 404 hints as written; the corrected classification keeps both |

## Findings

| source | as written | input that shows it | evidently intended | confidence | as-written member | corrected member |
|---|---|---|---|---|---|---|
| src/figma-connection-checker.ts:98-104 | when `response.json()` fails on a body that is present, or reading `error` of a JSON `null` throws, the handler calls `response.text()` on a body that has already been read; by the Fetch standard that call rejects, so the error escapes to the outer handler at line 110. A response without a body (such as a 204) is not affected: its body was never read and `text()` gives the empty text | status 404 with body text `Not Found` | report the raw text as the error message and print the 404 hints | medium, not executed | `ConnectionChecker.ClassifyResponseAsWritten`, `ConnectionChecker.AsWrittenLosesStatusHints` | `ConnectionChecker.ClassifyResponse` (with `ConnectionChecker.ErrorMessage`) |

The rest of the model, `CheckConnection` included, uses the corrected classification. The boolean result is the same either way: false.

## Left out

- Network input and output: `fetch`, response headers, `response.json()` and `response.text()`. A response is an input: a status, the body text, and what parsing makes of it. The body stream is kept only as far as the as-written classification needs it: read or not read.
- The string conversion of a non-string `error` field in the checker's message. A truthy one arrives already converted to its text, and a falsy one as absent.
- Console output, formatting and emoji. Statuses, hints and reports are returned as values instead.
- `saveJsonToFile` (`src/figma-json-inspector.ts:262-281`): writing the file and creating its directory. A step's save appears only as a `SaveJson` effect carrying the file name.
- `JSON.stringify` and JSON round trips. `Preview` takes the serialised text as its input.
- `dotenv` and `process.env`. An `Environment` record is passed in.
- `new Date().toISOString()` in `runAllChecks`: it depends on the clock. The summary report is not modelled.
- The async sequencing of `main` and the `import.meta.url` entry guard.
- `analyzeUserData` and `analyzeFileData`. They only print the fields that are present. The model keeps the choice between them, not what they print.
- `inspectUserEndpoint` beyond its request. Its answer is only printed.
- The answer to the nodes request in `inspectNodesEndpoint`. It is only printed and analysed.
- `NodeIds.ExtractNodeIds`: assumes an integer limit. A fractional limit (it compares with `>=`) is not modelled. The only caller passes 3, and the unused default is 5.
- `NodeIds.IdCollector.Visit`: a `null` element inside a `children` array makes the source throw a TypeError. That case is not modelled: array elements are always nodes. A primitive element behaves like a node with no id and no children.
- `JsonInspector.Preview`: counts Unicode characters. JavaScript's `substring` counts UTF-16 code units, so the two differ for characters outside the Basic Multilingual Plane.
- `FileKey.ExtractFileKey`: the same code-unit caveat applies to the scan.
- The type-only interface files, except as the shape of `NodeIds.Node`. The front-end page stub.

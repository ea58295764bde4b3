# Cloud-function versions, deploys and invocations

A Dafny model of three pieces of the Noodl cloud service's cloud-function support:

- **Latest-version lookup and its cache** (`fetchLatestVersion`, `getLatestVersion`,
  `_latestVersionCache`). The lookup asks the backend's `Ndl_CF` class for its newest row.
  It yields a version only when the response is a success and holds exactly one row.
  A single process-wide slot caches the answer for 15 seconds after the lookup settles.
  A call made before the slot's `ttl` is answered from the slot. Any other call clears
  the slot, performs one lookup, and installs a fresh entry only when the lookup found
  a version. The slot is the field of the class `VersionCache`. A ghost trace
  (`lookups`) records every lookup request it issues.
- **Chunked deploy** (`deployFunctions`). The payload is `"const _exportedComponents = "`
  followed by the data. It is chunked with a bound of 100 × 1024. Each chunk is then
  uploaded by one awaited POST, in index order. Every POST carries the same version, the
  same runtime and an ACL that denies everyone but the master key. The class `Backend`
  records the POSTs this process issues, in issue order. These are requests sent, not
  rows stored.
  The method `DeployFunctions` is proved against the function `Deployment`. The lemmas
  prove count, order, uniform tagging, the returned version and reassembly of the payload.
- **Invocation** (`executeFunction`). The timeout and memory limit are resolved with
  JavaScript `||`, so they default to 15 s and 256 MB when unset or 0. The context key
  carries the timeout in milliseconds. There is exactly one acquisition, then one purge
  schedule, then one `handleRequest`, and the handler's answer is returned verbatim.
  The class `Collaborators` records the calls as events. `ExecuteFunction` is proved
  against the function `Execute`.

Inputs replace what cannot be modelled:

- The clock: `now` is the reading at the start of `getLatestVersion`. `resolvedAt` is the
  second reading, taken after the awaited lookup, when the new `ttl` is computed.
- Network answers: a `LookupReply` for the lookup, and `respond(i)` for the i-th upload.
- The random version: a `version` parameter.
- The chunker `Utils.chunkString`: a function parameter `chunkString`.
- `JSON.stringify`: a function parameter `stringify`.
- The answers of the context cache and of the handler: the parameters `acquired` and `handled`.

Only a rejected `fetch` (a network error) at function-deploy.ts:78 stops the upload loop
and propagates out of `deployFunctions`. The HTTP status of an upload is never inspected,
so after an error status the deploy goes on and returns the version. `StatusNotChecked`
states this. `DeployError.UploadRejected` carries the index of the rejected chunk; that
index exists only in the model, since the source rethrows the `fetch` error as it is.

Modules: `Wrappers` (Option, Result), `ParseServer` (the fields of the server handle that
these files read), `FunctionDeploy` (function-deploy.ts) and `CloudFunction` (function.ts).

## Model

| member | source | states |
|---|---|---|
| `FunctionDeploy.FetchLatestVersion` | packages/noodl-cloudservice/src/function-deploy.ts:10-34 | A rejected request propagates. Otherwise there is a version iff the status is ok and `results` holds exactly one row, and it is then `results[0].version`. |
| `FunctionDeploy.GetLatestVersionStep` | packages/noodl-cloudservice/src/function-deploy.ts:39-55 | Hit (`ttl > now`): returns the slot and makes no lookup. Otherwise exactly one lookup. The slot then holds exactly `{version, resolvedAt + 15000}` iff the lookup found one row, and that entry is returned. Otherwise the slot stays empty and the call returns undefined or the rejection. |
| `FunctionDeploy.VersionCache.constructor` | packages/noodl-cloudservice/src/function-deploy.ts:37 | The slot starts empty and no lookup has been made. |
| `FunctionDeploy.VersionCache.GetLatestVersion` | packages/noodl-cloudservice/src/function-deploy.ts:39-55 | The new slot and the result are those of `GetLatestVersionStep`. The lookup trace grows by the GET request exactly when a lookup is made. |
| `FunctionDeploy.RunCalls` | packages/noodl-cloudservice/src/function-deploy.ts:39-55 | A run of calls returns one answer per call and makes at most one lookup per call. |
| `FunctionDeploy.HitsWithinTtl` | packages/noodl-cloudservice/src/function-deploy.ts:40-42 | Every call made before an entry's ttl returns that entry, leaves the slot unchanged and makes no lookup. |
| `FunctionDeploy.FailureDoesNotPoison` | packages/noodl-cloudservice/src/function-deploy.ts:44-55 | A miss that finds no version leaves the slot empty. The next call, at any time, looks up again and behaves as on a fresh cache. |
| `FunctionDeploy.TtlScenario` | packages/noodl-cloudservice/src/function-deploy.ts:40-53 | Three calls: a lookup at t, a call at t + 5 s, a call at t + 15 s. The first two return the same entry and share one lookup. The third looks up again, because expiry is strict. |
| `FunctionDeploy.Uploads` | packages/noodl-cloudservice/src/function-deploy.ts:77-96 | One upload per chunk. |
| `FunctionDeploy.StopAt` | packages/noodl-cloudservice/src/function-deploy.ts:77-96 | The upload loop stops at the first rejected upload, or after the last chunk when none is rejected. |
| `FunctionDeploy.Deployment` | packages/noodl-cloudservice/src/function-deploy.ts:57-101 | Success iff no upload is rejected. Then every chunk is uploaded and the version is returned. Otherwise the chunks up to and including the first rejected one are uploaded and the failure is returned. |
| `FunctionDeploy.Backend.Post` | packages/noodl-cloudservice/src/function-deploy.ts:78-95 | A POST is appended to the issued POSTs, and nothing else changes. |
| `FunctionDeploy.DeployFunctions` | packages/noodl-cloudservice/src/function-deploy.ts:57-101 | The loop chunks `prefix + data` with bound 102400. It appends exactly `Deployment`'s uploads after the existing ones, in order, and returns `Deployment`'s result. |
| `FunctionDeploy.UploadsAt` | packages/noodl-cloudservice/src/function-deploy.ts:77-81 | The i-th upload carries `chunks[i]`: uploads follow index order. |
| `FunctionDeploy.UploadsUniformlyTagged` | packages/noodl-cloudservice/src/function-deploy.ts:78-94 | Every upload goes to `/classes/Ndl_CF` with the master-key headers. Each carries the one version, the one runtime and the ACL `{"*": {read: false, write: false}}`. |
| `FunctionDeploy.ReassembledUploads` | packages/noodl-cloudservice/src/function-deploy.ts:76-81 | Joining the issued POST bodies' code in issue order gives the chunks joined in order. |
| `FunctionDeploy.ChunkCount` | packages/noodl-cloudservice/src/function-deploy.ts:73-74 | If a chunking has chunks of length at most `bound`, it has at least `|s| / bound` chunks. |
| `FunctionDeploy.DeployTagsEveryUpload` | packages/noodl-cloudservice/src/function-deploy.ts:71-100 | Every upload of a deploy carries the deploy's version, runtime and deny-all ACL, whether or not the deploy finished. A finished deploy returns that same version. |
| `FunctionDeploy.DeployReassembles` | packages/noodl-cloudservice/src/function-deploy.ts:70-96 | Assume the chunker's contract. Then the code of a finished deploy's issued POST bodies, joined in issue order, gives back `"const _exportedComponents = " + data`. Each body's code holds at most 100 × 1024 characters. |
| `FunctionDeploy.StatusNotChecked` | packages/noodl-cloudservice/src/function-deploy.ts:78-95 | Two runs whose uploads are rejected at the same indices issue the same uploads and return the same result, whatever the HTTP statuses. |
| `CloudFunction.OrElse` | packages/noodl-cloudservice/src/function.ts:41-42 | An unset or 0 setting gives the default. Any other value is kept. |
| `CloudFunction.OrElseTruthy` | packages/noodl-cloudservice/src/function.ts:41-42 | With a nonzero default the resolved limit is never 0. |
| `CloudFunction.ContextKeyFor` | packages/noodl-cloudservice/src/function.ts:39-54 | The key holds the server URL, app id, master key and the caller's version. It holds the resolved timeout × 1000 and the resolved memory limit. |
| `CloudFunction.DefaultLimits` | packages/noodl-cloudservice/src/function.ts:41-52 | With limits unset or 0 the key asks for 15000 ms and 256 MB. |
| `CloudFunction.Execute` | packages/noodl-cloudservice/src/function.ts:31-66 | The first call is the one acquisition, with the full key and logger. If it fails, nothing else is called and the failure is returned. Otherwise one purge schedule follows, then one `handleRequest`. That call gets the acquired context, `functionId` and `headers` unchanged and the stringified body. Its answer is returned verbatim. |
| `CloudFunction.CallsInOrder` | packages/noodl-cloudservice/src/function.ts:46-63 | In every invocation the calls come in the order acquire, purge, handle, and none of them repeats. |
| `CloudFunction.Collaborators.GetCachedContext` | packages/noodl-cloudservice/src/function.ts:46-54 | Records one acquisition with its key and logger, and returns what the cache settles to. |
| `CloudFunction.Collaborators.ScheduleContextCachePurge` | packages/noodl-cloudservice/src/function.ts:56 | Records one purge schedule. It returns nothing, since the call is not awaited. |
| `CloudFunction.Collaborators.HandleRequest` | packages/noodl-cloudservice/src/function.ts:59-63 | Records one request to the given context, and returns what the handler settles to. |
| `CloudFunction.ExecuteFunction` | packages/noodl-cloudservice/src/function.ts:31-66 | Appends exactly `Execute`'s events to the trace and returns `Execute`'s result. |

## Left out

- HTTP via `node-fetch`: responses are inputs and requests are recorded values. A lookup reply is either a response or a rejection. The rejection covers both `fetch` and `res.json()` rejecting. The request bodies are the structured records, not their JSON text.
- The lookup's `results`: modelled as absent or as a list of rows that each carry a string `version`. A non-list `results` and a row without `version` are not modelled.
- JavaScript numbers: modelled as unbounded integers. NaN (also falsy for `||`), fractions and floating-point rounding of `timeOut * 1000` and `Date.now() + 15000` are not modelled.
- `Date.now()`: passed in as `now` and `resolvedAt`.
- The `ttl === undefined` test at function-deploy.ts:40: `ttl` always holds a number, so that branch cannot be taken.
- `Utils.randomString(16)` and `Utils.chunkString`: utils.ts is not part of this model. The version and the chunker are parameters. The chunker's contract (`IsChunking`) is assumed only by `DeployReassembles`; it is never proved.
- The number of uploads a payload needs: this depends on how `chunkString` cuts, which is not part of this model. Only the lower bound `ChunkCount` is proved: at least |payload| / 102400 uploads.
- Stored rows: the model records the POSTs issued, not the rows the store keeps. Because the HTTP status is never checked, the store's rows give back the payload only when every upload also got a success status; the model does not promise that.
- Strings are Dafny character sequences. Lengths, and so the chunk bound of 100 × 1024, are counted in Dafny characters (Unicode scalar values), not in the UTF-16 code units of JavaScript's `.length`.
- Request headers of `executeFunction` (typed `Record<string, unknown>`): modelled as `map<string, string>`. They are passed through unchanged, so only their identity matters.
- `runtime` and `data` (typed `any`): modelled as strings. `data` is its string conversion.
- `JSON.stringify` of the body: an abstract function parameter.
- The internals of `getCachedContext` and `scheduleContextCachePurge` (cfcontext.ts is not part of this model): context reuse, building a context and the idle-purge policy are not modelled. Only the calls made to them are.
- CloudFunction.Collaborators.ScheduleContextCachePurge: only the call is recorded. Its behaviour is unknown because cfcontext.ts is not part of this model. A synchronous throw, which would abort `executeFunction` before `handleRequest`, and a rejection of its unawaited promise are not modelled.
- `FunctionLogger` (function.ts:8-20): deferred log forwarding through `setImmediate`. Logging transport is not modelled. The caller's logger is an identity handed to the context cache.
- Concurrency: overlapping cache misses that each perform a lookup, and concurrent deploys that interleave their uploads. Each operation is modelled as one sequential run. "Each POST is awaited before the next" is the sequential loop itself.

# vercel-clone deployment pipeline, modelled in Dafny

This project models the deployment pipeline of a small static-site hosting
service and proves properties of the model. The pipeline has these parts:

- **Configure page.** The user picks a repository and a project name. The
  frontend sanitises the name and posts a deploy request.
- **Deploy route.** The backend creates a deployment record as `pending` and
  triggers a Cloud Run build job. It then marks the record `building`, or
  `failed` if the trigger throws. A GET route returns a record only to the user
  who owns it.
- **Build server.** It installs and builds the project, then uploads the `dist`
  folder to an R2 bucket. Two variants exist:
  - `build-server/script.js`, which aborts on the first failed upload;
  - `build-server/upload-to-r2.js`, which counts failures and carries on.
- **Docker build API** (`rest-api`). It runs the build image and broadcasts
  trimmed log lines and status events to socket.io rooms, through the
  `streamLogs` of `rest-api/index.js`. `rest-api/utils.js` exports a second
  `streamLogs` that accumulates the log text and the last section banner; the
  build route never calls it, since `index.js` imports only `validateRequest`.
- **Router** (a Cloudflare worker). It maps the host's leftmost label and the
  request path to an object in the bucket. It handles the single-page-app
  fallback, content types, `304 Not Modified` and the response headers.
- **Smaller parts:**
  - the GitHub webhook's guard chain;
  - the repository listing's filter and limit;
  - the frontend's status-poll policy.

One module per source file:

| file | module | models |
|---|---|---|
| `text.dfy` | `JsText` | the JavaScript string built-ins the code relies on: `trim`, `toLowerCase`/`toUpperCase` (ASCII), `indexOf`, `replace` with a string pattern, `substring`, `split`/`join`, `parseInt`, truthiness |
| `router.dfy` | `Router` | `cloudflare-router/src/index.ts` |
| `filetree.dfy` | `FileTree` | the file system both publishers walk, as an inductive tree |
| `build_script.dfy` | `BuildScript` | `build-server/script.js` |
| `upload_r2.dfy` | `UploadR2` | `build-server/upload-to-r2.js` |
| `rest_utils.dfy` | `RestUtils` | `rest-api/utils.js` |
| `rest_api.dfy` | `RestApi` | `rest-api/index.js` |
| `deploy.dfy` | `Deploy` | `packages/backend/src/routes/deploy.ts` |
| `webhook.dfy` | `Webhook` | `backend/src/routes/webhook.ts` |
| `repos.dfy` | `Repos` | `packages/backend/src/routes/repos.ts` |
| `status_poll.dfy` | `StatusPoll` | `packages/frontend/src/hooks/useDeploymentStatus.ts` |
| `configure.dfy` | `Configure` | `packages/frontend/src/pages/ConfigurePage.tsx` |
| `pipeline.dfy` | `Pipeline` | properties that connect several of the files above |

Code that updates state step by step is modelled imperatively:

- `Router.Fetch` fills a `Headers` object.
- `Deploy.Deployments` is a class over the table of records.
- `RestApi.Server` holds the room table and the trace of what the server did.
- The upload, build and log loops are methods with loop invariants.

Each of these is proved equal to a specification function. Lemmas about those
functions state what the source promises.

## Model

| member | source | states |
|---|---|---|
| Router.Extension | cloudflare-router/src/index.ts:5-10 | the extension exists exactly when the path has a dot that is not its last character; it is the non-empty, dot-free text after the last dot |
| Router.ContentType | cloudflare-router/src/index.ts:3-38 | with no extension, or an extension whose lower-cased form is not in the table, the type is octet-stream; a known lower-cased extension gives its table entry; a non-default type implies `hasFileExtension` |
| Router.ContentTypeKeys | cloudflare-router/src/index.ts:12-35 | every key of the 22-entry table is lower-case letters and digits, so a lower-cased extension can reach any of them |
| Router.ContentTypeAsWritten | cloudflare-router/src/index.ts:37 | the table lookup as written, where an object literal also answers inherited property names |
| Router.ContentTypeAsWrittenLeaksPrototype | cloudflare-router/src/index.ts:12-37 | `/app.constructor` gets a function's source text as its type as written, and octet-stream in the corrected model |
| Router.IsValidSubdomainIff | cloudflare-router/src/index.ts:40-43 | a label is valid iff it has 1 to 63 characters, each a letter of either case, a digit or `-`, and it neither starts nor ends with `-` |
| Router.HasFileExtensionIff | cloudflare-router/src/index.ts:45-56 | holds iff the path has a dot that is not its last character and no `/` follows the last dot |
| Router.IsNotModified | cloudflare-router/src/index.ts:65-83 | an exact non-empty ETag match is a 304; without one, the answer is 304 iff a non-empty If-Modified-Since parses to an instant no earlier than the upload time of an object that has one, even after an unmatched If-None-Match |
| Router.EffectiveType | cloudflare-router/src/index.ts:141-142 | the extension type wins unless it is octet-stream; then a truthy stored type is used, and otherwise octet-stream |
| Router.Serve | cloudflare-router/src/index.ts:132-167 | 304 iff not modified, with no body and no headers; otherwise 200 with the success headers; the body is absent exactly for HEAD, and a GET gets the object's own body |
| Router.Resolve | cloudflare-router/src/index.ts:86-172 | any method other than GET or HEAD gives 405 and no lookup; fewer than three host labels gives the root-domain 200 and no lookup; an invalid label gives 400 and no lookup; a valid label is answered exactly as `FromBucket` answers, so every hit, miss, fallback, 404 text and 500 is fixed |
| Router.FromBucket | cloudflare-router/src/index.ts:114-172 | the key is the label plus the normalised path: a faulty key gives 500, a stored one is served, a miss with an extension gives 404, each after that one lookup; after a clean miss without an extension `index.html` is looked up, and is served, or gives 500 if faulty, or 404 if missing |
| Router.Headers.Set | cloudflare-router/src/index.ts:143-159 | one header is set and every other one is kept |
| Router.AddSecurityHeaders | cloudflare-router/src/index.ts:58-63 | exactly the four security headers are added to what was there |
| Router.BucketGet | cloudflare-router/src/index.ts:119 | a lookup throws exactly for a faulty key and otherwise returns the stored object or nothing |
| Router.Fetch | cloudflare-router/src/index.ts:86-172 | the step-by-step handler returns exactly `Resolve`'s response and makes exactly its lookups |
| Router.FetchFromBucket | cloudflare-router/src/index.ts:114-167 | the lookup steps give exactly `FromBucket`'s response and lookups |
| Router.Succeed | cloudflare-router/src/index.ts:138-167 | the success response is 200 with the success headers, and a null body for HEAD |
| Router.RootIsIndex | cloudflare-router/src/index.ts:115-119 | `/` and `/index.html` resolve identically |
| Router.HeadMirrorsGet | cloudflare-router/src/index.ts:164-167 | HEAD gets the status and headers GET gets, with no body |
| Router.SuccessCarriesFixedHeaders | cloudflare-router/src/index.ts:155-162 | every 200 from the bucket carries `Content-Disposition: inline`, the cache header with max-age 3600, and the four security headers |
| Router.SuccessHeadersFixed | cloudflare-router/src/index.ts:141-162 | the 200 headers always hold the effective content type, `inline`, the cache header and the four security headers |
| Router.SuccessHeadersETag | cloudflare-router/src/index.ts:145-148 | the 200 headers carry an ETag iff the object has a non-empty one, and then it is that one |
| Router.SuccessHeadersLastModified | cloudflare-router/src/index.ts:150-153 | the 200 headers carry `Last-Modified` iff the object has an upload instant, and then it is that instant's date to the whole second |
| Router.ETagRevalidates | cloudflare-router/src/index.ts:68-148 | sending back the ETag of a served object yields 304 |
| Router.LastModifiedRevalidates | cloudflare-router/src/index.ts:65-153 | sending back the Last-Modified date of a served object yields 304 exactly when the object was uploaded on a whole second, because the date drops the milliseconds |
| Router.SubSecondUploadIsSentAgain | cloudflare-router/src/index.ts:65-153 | an object uploaded at 1.5 s is sent in full again when its own Last-Modified date comes back |
| Router.WholeSecond | cloudflare-router/src/index.ts:152 | `toUTCString` keeps the instant to the second: a multiple of 1000 no later than it and less than a second earlier |
| Router.StoredObjectIsServed | cloudflare-router/src/index.ts:114-167 | an unconditional GET for a stored key makes that one lookup and answers 200 with the object's body and its success headers |
| FileTree.FileEntries | build-server/script.js:169-173 | the entries kept are never directories, and there are no more of them than entries |
| FileTree.FilesAreListedFiles | build-server/upload-to-r2.js:80-93 | the depth-first file walk equals the paths of the pre-order listing with directories dropped, in order |
| FileTree.SubdirsSize | build-server/script.js:161-163 | queuing a directory's subdirectories keeps every node below them and drops one node per child, so Node's breadth-first reading ends |
| FileTree.LevelThenSubdirs | build-server/script.js:161-163 | reading one directory lists its own files now and queues the files of its subdirectories: together, as a multiset, the files of its depth-first walk |
| FileTree.BreadthFiles | build-server/script.js:161-163 | the breadth-first reading of a queue of directories lists every queued file exactly once |
| FileTree.BreadthListingHoldsFiles | build-server/script.js:161-163 | Node's breadth-first recursive listing, directories dropped, holds the same file paths as upload-to-r2.js's depth-first walk, each as often |
| FileTree.ListingOrdersDiffer | build-server/script.js:161-163 | for a folder holding `a/x` and `b`, the breadth-first listing is `a`, `b`, `a/x` and the pre-order listing is `a`, `a/x`, `b` |
| FileTree.FilesUnder | build-server/upload-to-r2.js:84-90 | walking the same tree from a deeper base gives the same files, each under that base |
| BuildScript.ExtName | build-server/script.js:139 | the extension is empty iff the name has no dot after its first character (or is `..`); otherwise it is a suffix that starts with its only dot |
| BuildScript.ContentTypeFor | build-server/script.js:138-152 | a lower-cased extension in the nine-entry table gives its entry, any other extension or none gives octet-stream; non-default only when there is an extension |
| BuildScript.ContentTypeIgnoresCase | build-server/script.js:139 | lower-casing the file name never changes its content type |
| BuildScript.StageOutcome | build-server/script.js:51-95 | a stage succeeds iff it started and closed with code 0; a failure is attributed to that stage |
| BuildScript.BuildOutcome | build-server/script.js:25-113 | success needs the output folder, install exit 0, build exit 0 and an existing `dist`; an install failure never reaches the build; a build failure carries the stderr of both stages |
| BuildScript.RunStage | build-server/script.js:46-66 | the stage's stderr is appended to what was collected, and its outcome is `StageOutcome` |
| BuildScript.ExecuteBuild | build-server/script.js:25-113 | the chained stages settle exactly as `BuildOutcome` |
| BuildScript.Puts | build-server/script.js:116-177 | one put per file, keyed by the lower-cased project id, `/`, and the path below `dist` |
| BuildScript.FirstFailing | build-server/script.js:131-183 | every file before the index uploads, and the file at the index (if any) throws |
| BuildScript.PublishOutcome | build-server/script.js:155-184 | a missing `dist` or an empty listing throws with nothing sent; otherwise files are sent in listing order up to the first that throws, which names the failure, and on success every file is sent exactly once |
| BuildScript.UploadDistFolder | build-server/script.js:155-184 | the loop with `continue` and `throw` does exactly what `Publish` describes |
| BuildScript.OnlyEmptyDirectoriesPublishNothing | build-server/script.js:161-174 | a `dist` holding only an empty directory passes the emptiness check and uploads nothing, successfully |
| BuildScript.Init | build-server/script.js:186-201 | nothing is uploaded unless the build succeeds; the exit code is 1 iff the build or the upload failed |
| UploadR2.CheckEnv | build-server/upload-to-r2.js:9-22 | reports a missing variable iff one of the five is unset or empty, and then it is the first such one |
| UploadR2.RelativeBelow | build-server/upload-to-r2.js:99 | the relative path from a root to a path below it is the remaining segments |
| UploadR2.S3KeyBelow | build-server/upload-to-r2.js:35-102 | the key is the relative path joined by `/`, after `basePath/` exactly when the base path is non-empty |
| UploadR2.GetAllFiles | build-server/upload-to-r2.js:80-93 | the recursive walk appends exactly the files below the directory, depth first, to the accumulator |
| UploadR2.UploadFile | build-server/upload-to-r2.js:58-75 | never throws; a refused send yields a failed result with the same key; a success records the size |
| UploadR2.FilesToUpload | build-server/upload-to-r2.js:45-127 | a target that does not exist ends the run; a file is uploaded alone with its parent as root; a directory uploads its walk |
| UploadR2.AllUploaded | build-server/upload-to-r2.js:153-161 | the success count equals the number of results iff every upload succeeded |
| UploadR2.UploadAll | build-server/upload-to-r2.js:117-145 | every file is attempted in order even after failures; successes plus failures equal the number of files; the total size is that of the successes only |
| UploadR2.Upload | build-server/upload-to-r2.js:107-162 | a missing variable, argument or target aborts with exit 1 before any upload, and with all of them present the run never aborts; otherwise each file is uploaded in order and the exit code is 1 iff some upload failed, so an empty directory finishes with 0 |
| UploadR2.DirectoryKeys | build-server/upload-to-r2.js:98-127 | for a directory target, each key is the base path and the file's path below the directory |
| UploadR2.SingleFileKey | build-server/upload-to-r2.js:113-127 | for a single-file target, the only key is the base path and the file's own name |
| RestUtils.FirstM | rest-api/utils.js:6 | the first `m` not preceded by a line terminator, which is where a lazy `.*?m` match stops |
| RestUtils.CodeLength | rest-api/utils.js:6 | a match starts with ESC `[` and ends at the first `m`, with no line terminator before it; there is none exactly when the text does not open with ESC `[` or every later `m` follows a line terminator |
| RestUtils.StripAnsiNoEscape | rest-api/utils.js:6 | text without an escape character passes unchanged |
| RestUtils.StripAnsiRemovesCode | rest-api/utils.js:6 | a complete colour code is removed whole, up to its nearest `m` |
| RestUtils.StripAnsiKeepsPrefix | rest-api/utils.js:6 | text before the first escape is kept as it is |
| RestUtils.StripAnsiKeepsUnterminated | rest-api/utils.js:6 | an escape that opens no complete code is kept, and the removal continues right after it |
| RestUtils.StripAnsiSinglePass | rest-api/utils.js:6 | one pass can leave a colour code that forms only once an inner code is removed |
| RestUtils.FormatDockerLog | rest-api/utils.js:4-16 | text that is not JSON is returned stripped and otherwise unchanged; JSON is pretty-printed from the stripped text |
| RestUtils.ValidateRequestAsWritten | rest-api/utils.js:27-36 | passes iff both fields are truthy; the missing-field branch throws because `logger` is undefined |
| RestUtils.ValidateRequestAsWrittenNever400 | rest-api/utils.js:1-30 | as written, no request is ever answered with 400 |
| RestUtils.ValidateRequest | rest-api/utils.js:27-36 | passes iff both fields are truthy, and otherwise answers 400 with the fixed message |
| RestUtils.Lines | rest-api/utils.js:52-57 | one non-empty trimmed line per chunk at most, in arrival order |
| RestUtils.BlankChunkAddsNothing | rest-api/utils.js:53-55 | a whitespace-only chunk contributes nothing, wherever it arrives |
| RestUtils.LastSection | rest-api/utils.js:59-64 | empty, or a line starting with `===` or `---` that is the trim of one of the chunks |
| RestUtils.LastSectionIsALine | rest-api/utils.js:52-64 | a non-empty last section is always one of the collected lines |
| RestUtils.CollectLogs | rest-api/utils.js:52-72 | the data listener over the whole stream collects exactly the trimmed non-blank lines, each followed by a newline, and the last section banner |
| RestUtils.StreamLogsAsWritten | rest-api/utils.js:38-84 | as written: resolves with the collected lines on end, but on a stream error the listener throws because `logger` is undefined, so the promise never settles |
| RestUtils.StreamLogs | rest-api/utils.js:38-84 | corrected: resolves with every line followed by a newline (section banners included) on end; rejects with the stream's error; tracks the last section |
| RestApi.MissingEnv | rest-api/index.js:109-116 | exactly the unset or empty variables: each listed one is missing and each missing one is listed; empty iff all are set |
| RestApi.MissingEnvAppend | rest-api/index.js:109-116 | the missing names keep the order of the required list |
| RestApi.ContainerEnv | rest-api/index.js:123-133 | six entries: the repository URL, the upper-cased project id, then `NAME=value` for each of the four bucket variables in order |
| RestApi.LogEmits | rest-api/index.js:72-78 | one `log` emit per line, carrying that line, to the same room, in order |
| RestApi.ErrorRun | rest-api/index.js:161-176 | the catch block emits `error` with the message and replies 500 |
| RestApi.BuildEmitsToUpperCasedRoom | rest-api/index.js:102-165 | every emit of a build goes to the room of the upper-cased project id |
| RestApi.RawIdJoinerHearsNothing | rest-api/index.js:53-102 | any socket outside the room of the upper-cased project id, such as one that joined with the id as typed, receives none of the build's events |
| RestApi.MissingEnvCreatesNoContainer | rest-api/index.js:109-161 | a missing bucket variable ends in the error path before any container is created |
| RestApi.SuccessPathOrder | rest-api/index.js:135-160 | `started`, then the log lines, wait, removal and the final status; success is exactly exit code 0, and the reply is 200 either way |
| RestApi.FailureSkipsRemoval | rest-api/index.js:143-176 | any failure ends with an `error` emit and a 500, and the container is never removed |
| RestApi.Server.JoinProject | rest-api/index.js:53-56 | the socket is added to the room named exactly by the received id, and no other room changes |
| RestApi.Server.Emit | rest-api/index.js:76 | the emit reaches the room's current members |
| RestApi.Server.StreamLogs | rest-api/index.js:64-97 | emits the log lines of every chunk and then settles as the stream ends or fails |
| RestApi.Server.EmitLines | rest-api/index.js:72-78 | the per-chunk loop emits exactly `LogEmits` of the non-empty trimmed lines |
| RestApi.Server.Build | rest-api/index.js:99-177 | the trace gains exactly `BuildRun`'s steps and the reply is its reply |
| RestApi.Server.Start | rest-api/index.js:135-160 | from `container.start()` on, the trace gains exactly `StartRun`'s steps and the reply is its reply |
| RestApi.Server.Follow | rest-api/index.js:141-160 | from the log stream on, the trace gains exactly `FollowRun`'s steps and the reply is its reply |
| RestApi.Server.Finish | rest-api/index.js:141-160 | from the end of the log stream on, the trace gains exactly `FinishRun`'s steps and the reply is its reply |
| RestApi.Server.ReportError | rest-api/index.js:161-176 | one `error` status emit with the message to the room, no room change, and the 500 reply |
| Deploy.ShortId | packages/backend/src/routes/deploy.ts:10-12 | at most six characters, each a base-36 digit; six when the random fraction has six digits |
| Deploy.GenerateR2BasePath | packages/backend/src/routes/deploy.ts:15-22 | exactly 12 characters, each from `a-z0-9`, never `-` |
| Deploy.Created | packages/backend/src/routes/deploy.ts:49-66 | the new record is `pending`, owned by the caller, with `deployUrl` = `https://` + name + `-` + short id + `.` + domain |
| Deploy.AfterTrigger | packages/backend/src/routes/deploy.ts:69-214 | an accepted trigger gives `building`; the job name and `Build job started...` are stored only when the operation has a name; a throwing one gives `failed` with `Failed to start build: ` + the error |
| Deploy.JobFor | packages/backend/src/routes/deploy.ts:70-193 | the job `projects/<project>/locations/<location>/jobs/<job>`, and six env overrides: the repository's clone URL, branch, node version and build command defaulted, the R2 base path and the decimal deployment id |
| Deploy.PostWrites | packages/backend/src/routes/deploy.ts:55-95 | the route writes `pending`, then `building` or `failed`, an edge of the designed lifecycle, and never `deployed` |
| Deploy.PostNeverDeploys | packages/backend/src/routes/deploy.ts:55-95 | no status written by the route is `deployed`, and the second write is `building` iff the trigger was accepted |
| Deploy.Deployments.Insert | packages/backend/src/routes/deploy.ts:55-66 | a fresh id is allocated and only its record is added |
| Deploy.Deployments.RecordJob | packages/backend/src/routes/deploy.ts:205-214 | only the job name and build log of that record change |
| Deploy.Deployments.MarkBuilding | packages/backend/src/routes/deploy.ts:81-84 | only the status of that record changes, to `building` |
| Deploy.Deployments.MarkFailed | packages/backend/src/routes/deploy.ts:87-94 | only the status and build log of that record change |
| Deploy.Deployments.Post | packages/backend/src/routes/deploy.ts:32-107 | 401 without a user and 404 for an unknown repo, both with no record, no status write and no id used; otherwise exactly one new record, settled by `AfterTrigger`, with its status writes and job request; the reply is success either way |
| Deploy.Deployments.Settle | packages/backend/src/routes/deploy.ts:68-94 | after the trigger, only that row changes, as `AfterTrigger` says, with one status write of building or failed; the id counter is kept |
| Deploy.Deployments.Get | packages/backend/src/routes/deploy.ts:118-154 | 401 without a user; 400 iff `parseInt` gives NaN; a record is returned only if its id matches and the caller owns it, and otherwise 404 |
| Deploy.NoDeployedPreserved | packages/backend/src/routes/deploy.ts:55-95 | a table with no `deployed` record keeps none after a POST |
| Deploy.OtherUsersDeploymentIsHidden | packages/backend/src/routes/deploy.ts:131-142 | another user's deployment id is answered 404, as if missing |
| JsText.ParseIntDecimal | packages/backend/src/routes/deploy.ts:124-192 | the decimal deployment id passed to the job reads back as the same id |
| JsText.ParseInt | packages/backend/src/routes/repos.ts:16 | `NaN` exactly when no digit follows the leading white space and optional sign; otherwise the value of that digit run, negated after `-` |
| JsText.Trim | rest-api/utils.js:53 | a slice of the text with only white space before and after it and none at its own ends; empty iff the text is all white space |
| JsText.ToLower | packages/backend/src/routes/repos.ts:29-31 | same length, each ASCII capital mapped to its small letter and every other character kept |
| JsText.ToUpper | rest-api/index.js:102 | same length, each ASCII small letter mapped to its capital and every other character kept |
| JsText.IndexOf | cloudflare-router/src/index.ts:55 | the first position where the pattern occurs, or none when it occurs nowhere |
| JsText.ReplaceFirst | backend/src/routes/webhook.ts:92 | only the first occurrence of the pattern is replaced; text without it is unchanged |
| JsText.LastIndexOf | cloudflare-router/src/index.ts:5 | the last position holding the character, or none when it does not occur |
| JsText.Substring | packages/backend/src/routes/deploy.ts:11 | for ordered bounds, the characters between them, both clamped to the text |
| JsText.Split | cloudflare-router/src/index.ts:97 | at least one part, no part holds the separator, and joining the parts with it gives the text back |
| JsText.OrElse | cloudflare-router/src/index.ts:142 | the value when it is a non-empty string, otherwise the fallback |
| Webhook.Branch | backend/src/routes/webhook.ts:92 | `refs/heads/x` gives `x`; a ref without the prefix is unchanged; only the first occurrence is cut |
| Webhook.OnlyFirstPrefixRemoved | backend/src/routes/webhook.ts:92 | `refs/heads/refs/heads/main` gives the branch `refs/heads/main`, not `main` |
| Webhook.LatestCommit | backend/src/routes/webhook.ts:117 | the first commit's message if truthy, otherwise `No commits` |
| Webhook.HandlePush | backend/src/routes/webhook.ts:88-131 | a deployment is reported iff the branch is the default branch, with the commit count and latest commit; otherwise the default branch is reported |
| Webhook.HandleWebhook | backend/src/routes/webhook.ts:35-85 | 401 without a signature, 500 without a secret, 401 on a failed check, 400 "Invalid JSON payload" on bad JSON, in that order; then push, ping or the not-handled message |
| Webhook.MissingSignatureIgnoresRest | backend/src/routes/webhook.ts:36-43 | without a signature the secret, body, verifier and parser do not affect the reply |
| Webhook.ParseOnlyAfterVerification | backend/src/routes/webhook.ts:53-70 | when verification fails the parser does not affect the 401 reply |
| Webhook.PushToDefaultBranchTriggers | backend/src/routes/webhook.ts:92-119 | a push to `refs/heads/<default>` triggers a deployment |
| Repos.Limit | packages/backend/src/routes/repos.ts:14-33 | a limit is in force iff the parameter is truthy and parses to a positive integer |
| Repos.Filter | packages/backend/src/routes/repos.ts:27-32 | every kept repo matches and comes from the fetched list |
| Repos.FilterIsSubsequence | packages/backend/src/routes/repos.ts:27-32 | the filtered list keeps the fetched order |
| Repos.FilterKeepsMatches | packages/backend/src/routes/repos.ts:27-32 | a repo is kept iff it was fetched and its name, or its non-empty description, contains the filter regardless of case |
| Repos.Kept | packages/backend/src/routes/repos.ts:25-36 | the filtered list cut to the limit: an ordered subsequence of the fetched list, all matching, a prefix of the filtered list, exactly the limit long when more match, the whole filtered list otherwise |
| Repos.ListRepos | packages/backend/src/routes/repos.ts:8-63 | 401 without a user; 500 when the fetch fails; without a filter the limit is forwarded and the list returned as is; with one, nothing is forwarded and `Kept` is returned; the count is the number returned |
| StatusPoll.DetailKey | packages/frontend/src/hooks/useDeploymentStatus.ts:5-12 | `["deployments", "detail", id]`, with `null` when there is no id |
| StatusPoll.Enabled | packages/frontend/src/hooks/useDeploymentStatus.ts:14 | enabled iff there is an id, which is when the query key holds that id rather than null |
| StatusPoll.RefetchInterval | packages/frontend/src/hooks/useDeploymentStatus.ts:16-22 | 2000 ms iff the status is `pending` or `building`, otherwise stop, including when there is no data |
| StatusPoll.DetailKeysDistinct | packages/frontend/src/hooks/useDeploymentStatus.ts:5-8 | different ids never share a key, and all keys sit under `["deployments"]` |
| StatusPoll.PollsWhileUnfinished | packages/frontend/src/hooks/useDeploymentStatus.ts:16-21 | a stored status keeps polling iff it is `pending` or `building` |
| Configure.Sanitize | packages/frontend/src/pages/ConfigurePage.tsx:34 | same length as the name; only `a-z`, `0-9` and `-`; each lower-cased character kept iff allowed, otherwise `-` |
| Configure.SanitizeIdempotent | packages/frontend/src/pages/ConfigurePage.tsx:34-45 | sanitising twice is sanitising once |
| Configure.SanitizeKeepsAllowed | packages/frontend/src/pages/ConfigurePage.tsx:34 | a name made of allowed characters is sent as typed |
| Configure.DisplayName | packages/frontend/src/pages/ConfigurePage.tsx:44-45 | `project` exactly when the sanitised name is empty (or is itself `project`); never empty |
| Configure.HandleDeploy | packages/frontend/src/pages/ConfigurePage.tsx:28-42 | sends only when both route parameters are present, with `owner/repo` and the sanitised name |
| Configure.ButtonDisabled | packages/frontend/src/pages/ConfigurePage.tsx:200 | enabled iff the trimmed name is non-empty and no mutation is pending |
| Configure.GuardIgnoresSurroundingBlanks | packages/frontend/src/pages/ConfigurePage.tsx:200 | blanks around a name do not change whether the button is enabled |
| Configure.SurroundingBlanksBecomeHyphens | packages/frontend/src/pages/ConfigurePage.tsx:34 | blanks around a name are sent as `-` |
| Pipeline.DeployUrlCarriesLabel | packages/backend/src/routes/deploy.ts:50-51 | the URL of a deployment made from the page carries the sanitised name, `-` and the short id as its label |
| Pipeline.SubdomainLabelValidIff | cloudflare-router/src/index.ts:40-43 | the router accepts that label iff the name is non-empty and does not sanitise to a leading `-`, the short id is non-empty, and it all fits in 63 characters |
| Pipeline.LeadingBlankNeverServed | packages/frontend/src/pages/ConfigurePage.tsx:34-200 | a name with a leading blank passes the button guard but names a site the router refuses |
| Pipeline.LongNameNeverServed | packages/backend/src/routes/deploy.ts:50 | a name longer than 56 characters with a full six-character short id is refused by the router |
| Pipeline.ZeroRandomNeverServed | packages/backend/src/routes/deploy.ts:10-50 | a random draw of 0 gives an empty short id and a label ending in `-`, which the router refuses |
| Pipeline.UploadedKeysAreNotServed | packages/backend/src/routes/deploy.ts:50-191 | an object uploaded under the R2 base path is never the one the router looks up under the site's label |
| Pipeline.PublishersAgreeOnKeys | build-server/script.js:118-177 | against a pre-order listing of `dist`, with the lower-cased project id as base path, script.js's keys are upload-to-r2.js's keys in the same order |
| Pipeline.PublishersSendSameKeys | build-server/script.js:161-177 | with Node's breadth-first listing, script.js sends the same keys as upload-to-r2.js's depth-first walk, each as often |
| Pipeline.KeysBelowPermute | build-server/script.js:169-177 | keying two rearrangements of the same paths gives rearrangements of the same keys |
| Pipeline.PublishOrdersDiffer | build-server/script.js:161-177 | for a `dist` holding `a/x` and `b`, script.js sends `p/b` then `p/a/x` and upload-to-r2.js sends `p/a/x` then `p/b` |
| Pipeline.TranscriptMatchesCollectedLogs | rest-api/utils.js:52-57 | given the same chunks, the `log` messages that index.js's `streamLogs` emits to the room, each followed by a newline, are exactly the text that utils.js's uncalled `streamLogs` accumulates |
| Pipeline.PollingAfterPost | packages/frontend/src/hooks/useDeploymentStatus.ts:16-21 | after POST the page keeps polling iff the job was accepted, since nothing shown ever moves a record on from `building` |

## Left out

- Network, SDK and process plumbing is not modelled: the Cloud Run `JobsClient`, the S3/R2 `PutObjectCommand`, dockerode, the socket.io transport, child processes, file reads and `console` output. Their outcomes are inputs: a set of keys whose upload is refused, a `Trigger`, a `Container` record of what each Docker call does, and a `Proc` record per child.
- Docker's multiplexed stream framing is not modelled. A log stream is a sequence of text chunks.
- `FileTree.BreadthListing` follows Node's recursive `readdirSync`, which reads the queued subdirectories after the current level. The order in which the file system returns one directory's entries is taken to be child order. `BuildScript.UploadDistFolder` takes the listing as an input.
- Pipeline.PublishersAgreeOnKeys: the same order holds only against the pre-order `FileTree.Listing`. Node's listing is breadth first and upload-to-r2.js walks depth first, so once `dist` has subfolders the real upload orders differ (`Pipeline.PublishOrdersDiffer`). Because script.js stops at its first failed upload, the keys sent before a failure differ too. Over the whole listing the keys agree only as a multiset (`Pipeline.PublishersSendSameKeys`).
- Symbolic links, permissions and file contents are not modelled. File sizes are naturals.
- Target paths with `..` segments and absolute paths in `upload-to-r2.js` are not modelled. A target is resolved against the working directory by its segments.
- `toLowerCase` and `toUpperCase` are modelled for ASCII letters only. JavaScript maps all of Unicode, and a few characters change length when lower-cased.
- `Configure.Sanitize`: the model works on characters, while the regular expression works on UTF-16 code units. A character outside the Basic Multilingual Plane therefore becomes `--` in the source and `-` here.
- Dates are integer milliseconds. If-Modified-Since parsing is an input: the header text together with the instant it parses to, if any. `toUTCString` is modelled only as dropping the milliseconds (`Router.WholeSecond`), not as text.
- `Math.random` is a nondeterministic pick in `Deploy.GenerateR2BasePath`, and an arbitrary base-36 fraction in `Deploy.ShortId`. Uniqueness is not claimed.
- `JSON.parse`, JSON pretty-printing, and chalk and boxen colouring are not modelled. "Is JSON" is a parameter of `RestUtils.FormatDockerLog`, and the pretty-printed text is not computed.
- The webhook's HMAC check (`verifyWebhookSignature`) and the JSON parse of the payload are function parameters.
- `getGitHubRepo` and `getGitHubUserRepos` are parameters. A failed fetch of the user's repositories is `None`.
- `Deploy.Deployments.Post`: database failures are not modelled, and neither is the 500 reply they cause (deploy.ts:102-106). Timestamps (`updatedAt`, `createdAt`) are not modelled either.
- `BuildScript.ExecuteBuild`: standard output (`buildOutput`) is not modelled, because the script never reads it. The one-second `setTimeout` before the `dist` check is a plain sequence step.
- The KB/MB size formatting and summary printing of `upload-to-r2.js` (lines 139 and 151) are omitted. `UploadR2.Upload` reports the counts and the total size as numbers.
- Rooms that sockets join while a build is running are not modelled. The recipients of each emit are the room's members when the build started.
- `Repos.Repo` keeps 6 of the 13 fields the route copies into each listed repository (repos.ts:42-56): id, name, full name, description, clone URL and default branch. The other seven are copied unchanged and nothing reads them.
- `Router.Resolve` and `Router.Fetch` use the corrected `Router.ContentType`. For a path such as `/x.constructor` or `/x.__proto__` their Content-Type therefore differs from index.ts:141-143 as written; `Router.ContentTypeAsWritten` models the lookup as written.
- `Webhook.HandlePush`: a push payload always has `repository`, `commits`, `ref` and `pusher.name` here. A payload lacking any of them throws a TypeError in `handlePushEvent` (`repository` and `commits` at webhook.ts:89-96, `ref` at webhook.ts:92, `pusher.name` at webhook.ts:97), and that failure is not modelled.
- `RestApi.Server`: socket.io removes a disconnected socket from all of its rooms. The model has no disconnect, so its rooms only grow.
- React rendering, navigation and the mutation hook are not modelled. `Configure.HandleDeploy` returns the request the page would send.

## Findings

| source | as written | input that shows it | evidently intended | confidence | as-written member | corrected member |
|---|---|---|---|---|---|---|
| rest-api/utils.js:27-36 | the missing-field branch calls `logger.error`, but no `logger` is defined in the file, so it throws a ReferenceError before the 400 reply | a request with `gitRepoUrl` set and no `projectId` | reply 400 with "Missing required fields: gitRepoUrl and projectId are required" | high, not executed | RestUtils.ValidateRequestAsWritten | RestUtils.ValidateRequest |
| cloudflare-router/src/index.ts:37 | `contentTypes[extension]` on an object literal also finds inherited properties | a request for `/app.constructor` gets `Object`'s source text as its Content-Type | octet-stream for any extension not in the table | high, not executed | Router.ContentTypeAsWritten | Router.ContentType |
| rest-api/utils.js:74-77 | the `error` listener of `streamLogs` calls `logger.error` before `reject`, and no `logger` is defined in the file, so the listener throws and the promise never settles | a log stream that emits `error` | reject with the stream's error | high, not executed | RestUtils.StreamLogsAsWritten | RestUtils.StreamLogs |

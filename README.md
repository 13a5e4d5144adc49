# AI multitool gateway — a Dafny model of its request pipeline

The system is a small HTTP gateway with one endpoint, `/ai-multitool`. A request
names one of four tasks (`code_explain`, `idea_generator`, `image_caption`,
`tone_detector`) and carries an input string. The handler works in these steps:

1. It fingerprints the request as the SHA-256 digest of `task + "_" + input`.
2. It scans the responses log from the start. The first entry whose own
   fingerprint matches is returned with `cached` set, and no log is touched.
3. On a miss, it turns the input into a prompt. For image captions it first
   resolves the image to a local path. It then calls the generation service.
4. On success it appends a query record and a response record. On any failure
   it appends one error record.

Each log is a JSON array on disk. `append_json_log` rewrites the whole file on
every append. Text that does not parse counts as an empty array.

The model is organised as follows:

- `tasks.dfy` (`Tasks`): the task enumeration of the request schema, and the
  validation of a task name.
- `prompts.dfy` (`Prompts`): `generate_prompt`, checked against a template table.
- `cache_keys.dfy` (`CacheKeys`): the key string `task + "_" + input`. The digest
  is a function parameter. The main result is that the key string is injective
  over the enumeration.
- `log_store.dfy` (`LogStore`): a log file's content, either an array of
  records or unparseable text. Also the `JsonLog` class, whose `Append` is the
  read–append–rewrite of `append_json_log`.
- `records.dfy` (`Records`): requests, the three record kinds, the outcomes of
  the external collaborators, and replies.
- `pipeline.dfy` (`Pipeline`): `ai_multitool` as a function `Serve` from the
  three logs to the new logs and the reply, plus the properties proved about it.
- `server.dfy` (`Server`): the `Multitool` class. It holds the three log
  objects and the digest. `LookUp` is the scan loop with its early return.
  `Handle` is the handler, and it is proved to equal `Serve`.

The external calls are parameters:

- The image resolver is an `Outcome`: a path, or a raised error's message.
- The generation service is a function from prompt to `Outcome`.
- The digest is a function from string to string.
- The timestamp is a string.

## Model

| member | source | states |
|---|---|---|
| `Tasks.Parse` | main.py:45-48 | Schema validation accepts exactly the four task names and returns the task with that name; every other string is refused |
| `Tasks.ParseName` | main.py:46 | Validating a task's own name returns that task |
| `Prompts.GeneratePrompt` | main.py:94-103 | A known task's prompt is its template followed by the input; an unknown task gives the input back unchanged; the input is always a suffix of the prompt |
| `Prompts.TaskHasTemplate` | main.py:94-102 | Every task of the enumeration has a template, so its prompt is strictly longer than the input |
| `Prompts.PromptLiterals` | main.py:95-102 | The exact literal prompt of each of the four tasks |
| `CacheKeys.KeyHeadDeterminesTask` | main.py:46 | The first two characters of a key tell the four tasks apart, so no task name plus `_` is a prefix of another's |
| `CacheKeys.KeyInjective` | main.py:54-55 | Over the enumeration, `task + "_" + input` is equal for two pairs exactly when both task and input are equal |
| `CacheKeys.KeyAmbiguousOutsideTasks` | main.py:54-55 | Outside the enumeration the key string is ambiguous: task `code` with input `explain_x` has the key of task `code_explain` with input `x` |
| `CacheKeys.FingerprintIdentifiesRequest` | main.py:54-55 | With a collision-free digest, two requests have the same fingerprint exactly when they have the same task and input |
| `LogStore.Appended` | main.py:57-64 | An append keeps every earlier record at its index, puts the entry last and grows the log by exactly one; unparseable content leaves exactly `[entry]` |
| `LogStore.AppendedTwice` | main.py:57-64 | Two appends keep both entries, in append order |
| `LogStore.JsonLog.Append` | main.py:57-64 | The file's new content is the parsed old content, or the empty list, with the entry appended |
| `Pipeline.FirstMatch` | main.py:114-116 | The position found is of an entry whose fingerprint matches, with no match before it; none is found exactly when no entry matches |
| `Pipeline.HitChangesNothing` | main.py:112-116 | On a hit no log changes, and the reply is 200 with the earliest matching entry marked `cached` |
| `Pipeline.MissThenSuccess` | main.py:120-146 | A miss and a successful generation append one query record and one response record, the latter uncached and carrying the request's own input. The errors log is unchanged and the reply is 200 with that record |
| `Pipeline.MissThenFailure` | main.py:148-156 | A miss and a failure append one error record, with the input, to the errors log only; the reply is 500 with the same record without an input |
| `Pipeline.ImageCaptionUsesResolvedPath` | main.py:121-126 | For image captions the template gets the resolved path; a failed resolution fails the request without generating |
| `Pipeline.TextTasksUseInput` | main.py:121-126 | For the other tasks the generator receives the task's template followed by the request's input, whatever image resolution would give |
| `Pipeline.FirstMatchAppend` | main.py:114-116 | Appending a matching entry to a log with no match makes it the first match |
| `Pipeline.RepeatIsHit` | main.py:112-146 | After a miss and a success, the same request again is a hit: no log changes, and the stored record comes back marked cached with the same output |
| `Pipeline.MatchIsSameRequest` | main.py:109-115 | With a collision-free digest, an entry whose task is a task name matches exactly when it was stored for the same task and input |
| `Pipeline.CacheFindsEarliestSameRequest` | main.py:112-118 | With a collision-free digest and handler-written entries, the lookup misses exactly when no entry has the same task and input; otherwise it returns the earliest such entry, marked cached |
| `Pipeline.ServeKeepsTaskNames` | main.py:128-144 | Every responses-log entry still has a task name after a request is served |
| `Pipeline.QueriesOf` | main.py:137-142 | A run of calls appends one query record per call, in call order |
| `Pipeline.ResponsesOf` | main.py:128-135 | A run of successful calls appends one uncached response per call, in call order, each for its call's task, input and timestamp |
| `Pipeline.FreshCallStored` | main.py:112-146 | A successful request whose key is not stored appends one query and one response and leaves errors unchanged |
| `Pipeline.RestStillFresh` | main.py:144 | After the first call of a run is stored, the remaining calls are still distinct and not stored |
| `Pipeline.FirstCallOfRun` | main.py:112-146 | Serving the first call of a fresh run appends its two records and keeps the rest of the run fresh |
| `Pipeline.LogGrowth` | main.py:137-144 | N successful requests with distinct keys, none stored before, append exactly their N query and N response records in request order; the errors log is unchanged |
| `Pipeline.ToneDetectorExample` | main.py:106-146 | A `tone_detector` request on empty logs, with the generator answering "Negative, sadness", gets the expected fresh reply and adds one record to each of the queries and responses logs |
| `Server.Multitool.LookUp` | main.py:112-118 | The left-to-right scan with early return yields exactly the pipeline's cache lookup: the earliest matching entry with `cached` set, or a miss for an unparseable log |
| `Server.Multitool.Handle` | main.py:106-156 | The handler leaves the three logs as `Serve` says and returns `Serve`'s reply |

## Left out

- `query_gemini` (an HTTP call) is the `generate` parameter. A non-200 status, an unexpected response shape or a network error all become `Raised(message)`.
- `process_image_input` is the `image` outcome. The model leaves out the URL fetch, base64 decoding, image decoding, the timestamp-named file and its write.
- SHA-256 is the `digest` parameter. Only the lemmas that need it assume the digest is collision-free. The round-trip lemma `RepeatIsHit` does not assume it.
- The process-wide lock: the model is sequential, so concurrent requests and the unlocked cache read are not modelled.
- `get_timestamp` and `datetime` are an opaque timestamp parameter. JSON formatting (`indent=2`) is not modelled.
- Startup is not modelled: `.env` loading, the API-key check, and creating the directories and initial `[]` log files.
- The FastAPI and pydantic wiring, the 422 reply to an invalid task, `/health` and the `__main__` runner are not modelled.
- `extra_params` values are strings in the model; in the source they are arbitrary JSON.
- A log file that is valid JSON but not an array, or is missing, makes `append_json_log` raise. The model's log content is either an array or unparseable text.
- Responses-log entries are typed response records. So an entry missing `task` or `input` (a `KeyError` that ends the scan as a miss) is not modelled.
- Because appends cannot fail in the model, an exception raised by an append on the success path (which the source would log as an error) is not modelled.
- test.py only sends HTTP requests and prints the replies; it has nothing to model.

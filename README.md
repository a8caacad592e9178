# riichi-seer review cog, modelled in Dafny

The review cog of riichi-seer is a chat-bot plugin that sends a Mahjong Soul
game record (a *paipu*) to an AI analysis backend and renders the backend's
report. For one `review` command it:

- extracts the paipu id from the link;
- serves the result from a file cache when the result file for
  (id, model, target actor) already exists;
- otherwise takes the raw record from the cache, or downloads it once and
  caches it;
- submits an analysis job with up to three attempts;
- polls the job up to sixty times, two seconds apart, editing a progress
  message on each round whose index is a multiple of five when the answer
  is "working";
- caches the finished result;
- counts severe and moderate bad moves in the result.

It also keeps the list of models the backend offers.

The model has seven modules, one per file:

- `Docs` (`docs.dfy`): the cached JSON documents and the typed view of the
  analysis payload (rounds, entries, ranked alternatives), with `Option` and
  `Result`.
- `MatchRef` (`match_ref.dfy`): the id pattern and `re.search`. The search
  returns the leftmost head of six word-character groups (6-8-4-4-4-12 joined
  by dashes) followed by the longest run of word characters and dashes.
- `CacheNames` (`cache_names.dfy`): the raw and result file names and what
  keeps them apart.
- `Metrics` (`metrics.dfy`): `parse_review_data` is a method with nested
  loops. It is proved equal to counting functions over the rounds, and those
  functions carry the lemmas about bad moves.
- `Remote` (`remote.dfy`): each reply a remote service can give, as a value.
  Every request consumes one scripted reply.
- `Jobs` (`jobs.dfy`): the submission loop and the poll loop. Each is given as
  a function of the scripted replies that returns how the loop ends and what
  it counted (POSTs, polls, sleeps, progress edits). The submission loop is
  also a method proved equal to that function.
- `Cog` (`cog.dfy`): the class `ReviewCog`. Its fields are the cache, a
  `map<string, Doc>` from file name to document, and the model list. Its
  methods are `GetPaipuData`, `PollTask`, `Review`, `UpdateModels` and
  `ListModels`. `ReviewSpec` is the `review` command as a function. The
  lemmas about it cover caching, bounds and outcomes.

Where the code's messages suggest other behaviour than the code has, the
model follows the code:

- After three transient submission exceptions (`ServerDisconnectedError` or
  `asyncio.TimeoutError`), the third one is re-raised
  (cogs/review.py:129-131). The outer handlers then report a lost connection
  or a crash with the exception's class name (cogs/review.py:164-168). The
  "submission failed" message is not shown. `Jobs.ThreeTransientsEscalate`
  states this.
- A submission answered with a status other than 200 and 404 is retried at
  once, without sleeping.
- A 200 submission answer without a `task_id` ends the loop, and the command
  reports a failed submission (cogs/review.py:125-126, 133-134).
- If writing the result file fails (cogs/review.py:148), the inner handler
  swallows the exception and polling continues. The result is not returned at
  that point.
- Result names join id, model and target with `" - "` and no escaping.
  A model or target that contains `" - "` can therefore share a file with
  another pair (`CacheNames.ResultNameCollision`). With the id and one of the
  two fixed, the names are distinct (`ResultNameSeparatesModels`,
  `ResultNameSeparatesTargets`).

## Model

| member | source | states |
|---|---|---|
| `MatchRef.SuffixEnd` | cogs/review.py:17 | the greedy suffix `((\w\|-\|_)*)` stops at the end of the longest run of word characters and dashes |
| `MatchRef.SearchFrom` | cogs/review.py:94 | the search returns the first position at or after the start where the 6-8-4-4-4-12 head matches, or nothing if there is none |
| `MatchRef.ExtractId` | cogs/review.py:94-98 | no id exactly when the head matches nowhere; otherwise the id is the text from the leftmost match through the maximal suffix |
| `MatchRef.ExtractedIdShape` | cogs/review.py:17 | an extracted id starts with a head and continues only with word characters and dashes |
| `MatchRef.ExtractWholeId` | cogs/review.py:17 | a string made of a head and suffix characters extracts to itself |
| `MatchRef.ExtractIdempotent` | cogs/review.py:17 | extracting from an extracted id gives the same id |
| `CacheNames.RawNameIsNoResultName` | cogs/review.py:100 | no raw-record name (line 55) equals any result name, since one ends in `raw.json` and the other in `review.json` |
| `CacheNames.RawNameInjective` | cogs/review.py:55 | distinct ids have distinct raw-record files |
| `CacheNames.ResultNameSeparatesModels` | cogs/review.py:99-100 | with the id and target fixed, distinct models have distinct result files, as the comment intends |
| `CacheNames.ResultNameSeparatesTargets` | cogs/review.py:100 | with the id and model fixed, distinct targets have distinct result files |
| `CacheNames.ResultNameCollision` | cogs/review.py:100 | model `a - b` with target `c` and model `a` with target `b - c` share one result file |
| `Metrics.Grade` | cogs/review.py:196-199 | severe exactly when prob ≤ 0.05, moderate exactly when 0.05 < prob ≤ 0.1, not bad otherwise |
| `Metrics.MatchedProbIsFirstMatch` | cogs/review.py:192-200 | only the first alternative whose action equals the played action is read, and its prob defaults to 1.0 |
| `Metrics.MatchedProbNone` | cogs/review.py:193-194 | no probability is read exactly when no alternative's action equals the played action |
| `Metrics.UnmatchedIsNotBad` | cogs/review.py:189-194 | an `is_equal` entry, or one whose played action has no alternative, counts as neither kind |
| `Metrics.JudgeByFirstMatch` | cogs/review.py:192-200 | a disputed entry is graded by its first matching alternative; a missing prob means not bad |
| `Metrics.BadMovesWithinDisputed` | cogs/review.py:187-200 | in one round, severe plus moderate is at most the number of non-`is_equal` entries |
| `Metrics.BadMovesWithinDisputedRounds` | cogs/review.py:186-202 | over all rounds, the bad-move total is at most the number of non-`is_equal` entries |
| `Metrics.JudgeEntry` | cogs/review.py:189-200 | scanning the alternatives with `break` at the first match gives the entry's verdict |
| `Metrics.ParseReviewData` | cogs/review.py:171-214 | None exactly when `total_reviewed` is 0; otherwise the severe and moderate counts over every round, and the total is their sum |
| `Metrics.TwoBadMovesExample` | cogs/review.py:183-202 | entries with probs 0.03 and 0.08, all others agreed, give one severe and one moderate bad move |
| `Jobs.Submit` | cogs/review.py:118-134 | the submission loop ends and counts POSTs and sleeps exactly as `SubmitFrom` of the replies |
| `Jobs.SubmitBounds` | cogs/review.py:121-131 | 1 to 3 POSTs; one sleep per transient exception on an attempt before the last, and no other sleeps |
| `Jobs.SubmitDecidedBy` | cogs/review.py:121-131 | the first reply that is not a retry decides: 200 stops, 404 ends with model-not-found, other exceptions and the third transient one escalate |
| `Jobs.SubmitExhausted` | cogs/review.py:121-134 | three retried attempts end without a task id after three POSTs |
| `Jobs.RetryThenSubmitted` | cogs/review.py:121-131 | two transient failures and then a task id give three POSTs, two sleeps and a submitted task |
| `Jobs.ThreeTransientsEscalate` | cogs/review.py:129-131 | three transient failures re-raise the third, after three POSTs and two sleeps |
| `Jobs.PollBounds` | cogs/review.py:137-162 | at most 60 polls, each after exactly one sleep; at most 12 progress edits; a timeout uses all 60 rounds |
| `Jobs.NoEditsWithoutWorking` | cogs/review.py:153-155 | no progress edit without a `working` answer in a round divisible by 5 |
| `Jobs.PollDecidedBy` | cogs/review.py:137-160 | the first 200 `done`/`failed` ends the loop (with `{}` for missing data and `未知原因` for a missing error); earlier non-200, exception and unknown answers only continue |
| `Jobs.PollNeverSettles` | cogs/review.py:137-162 | without `done` or `failed` the loop times out after exactly 60 polls |
| `Jobs.DoneInLastRound` | cogs/review.py:137-155 | 59 `working` answers then `done` finish in round 60 with 60 sleeps and 12 edits |
| `Jobs.WorkingEdits` | cogs/review.py:153-155 | when rounds `i` to 58 answer `working`, each multiple-of-five round among them makes exactly one edit, whatever round 59 answers |
| `Jobs.AllWorkingTimesOut` | cogs/review.py:137-162 | sixty `working` answers end in a timeout after sixty polls, sixty sleeps and twelve progress edits |
| `Cog.ReviewCog.constructor` | cogs/review.py:15-26 | the cog starts over the existing cache files with an empty model list |
| `Cog.RefreshedKeepsUnless200` | cogs/review.py:41-51 | the model list changes only on a readable 200 answer, and then becomes its `models` (empty when absent) |
| `Cog.ReviewCog.UpdateModels` | cogs/review.py:41-51 | the list is replaced wholesale on a 200 answer (empty without `models`); it is kept on other statuses, exceptions and unreadable bodies |
| `Cog.ReviewCog.ListModels` | cogs/review.py:77-81 | refreshes exactly when the list is empty, at most once, and reports failure exactly when the list is still empty |
| `Cog.ReviewCog.GetPaipuData` | cogs/review.py:53-72 | returns the cached record with no download, or downloads once, caching and returning the body only on 200 |
| `Cog.ReviewCog.PollTask` | cogs/review.py:137-162 | the poll loop behaves as `PollFrom`; the result file is written exactly when it ends with `done` |
| `Cog.ReviewCog.Review` | cogs/review.py:94-168 | the command's outcome, counters and new cache are those of `ReviewSpec` |
| `Cog.FetchCachesOnlyOn200` | cogs/review.py:53-72 | no download on a cache hit; on a miss, one download; the cache changes only on 200, by adding that record |
| `Cog.SecondFetchIsCacheHit` | cogs/review.py:55-59 | once a record was obtained, fetching it again makes no download and returns the same record |
| `Cog.InvalidLinkTouchesNothing` | cogs/review.py:94-96 | a link without an id ends with invalid-link, no calls and an unchanged cache |
| `Cog.CachedResultShortCircuits` | cogs/review.py:102-105 | an existing result file is returned as it is, with no download, POST or poll and no write |
| `Cog.ReviewBounds` | cogs/review.py:115-162 | at most 1 download, 3 POSTs, 60 polls, 62 sleeps, 12 edits and 2 writes; polls only after a submitted task |
| `Cog.NoPollsWithoutTask` | cogs/review.py:127-134 | model-not-found, a missing task id and escalated exceptions end with no polls or edits |
| `Cog.ReviewOnlyAddsFiles` | cogs/review.py:55-69 | existing cache files are never rewritten; only the id's raw file and its result file can be added |
| `Cog.ResultWrittenIffCompleted` | cogs/review.py:146-151 | the result file appears exactly when the command completes, and it holds the rendered result |
| `Cog.CompletedThenCached` | cogs/review.py:100-105 | after a completed review, the same review is served from the cache with no remote call |

## Left out

- Chat messages and embeds: `show_result` formatting and every
  `ctx.send`/`edit`/`delete`. Each message is an `Outcome` constructor, and
  progress edits are counted. Exceptions raised by the chat platform are not
  modelled.
- Message texts, including the decimal rendering of `Tensoul HTTP {status}`.
  The model keeps the status code (`FetchError.TensoulHttp`) and the exception
  class name instead.
- The rating, the match and bad-move percentages, their `:.3f` formatting and
  `review_time` (cogs/review.py:179-181, 202-213). They are floating-point
  presentation; only the integer counts and threshold comparisons are kept.
- aiohttp sessions, request payloads, query parameters, authentication and
  timeouts. The remote is a sequence of scripted replies. Submit and poll
  scripts have exactly 3 and 60 entries, one per possible request, and unused
  entries are ignored.
- `asyncio.sleep` is counted, not timed. The background `create_task` refresh
  at startup (cogs/review.py:26) is an `UpdateModels` call the caller may make
  at any time. Races between concurrent commands are not modelled.
- `refresh_config` environment loading, the cache directory path and
  `mkdir`: the cache is a map from file name to document.
- Unicode `\w`. Word characters are ASCII letters, digits and `_`.
- Cache writes are atomic: a write either stores the whole document or
  changes nothing. In the source, a failed `json.dump` can leave a truncated
  file. Reading a corrupt cache file, which raises outside any handler, is not
  modelled.
- JSON `null` for `data`, `prob`, `error` or `models` is not modelled. Those
  members are either present with a value of the expected type or absent.
  Non-list `kyokus`, `entries` or `details` are not modelled either.
- Malformed payloads whose side effect happens before the exception:
  - `update_models` with a 200 listing whose entry lacks `model_id`: the list
    is replaced (cogs/review.py:48) before the log line raises `KeyError`
    (cogs/review.py:49). `Listing` entries always carry a model id, and
    `Unreadable` keeps the old list.
  - A "done" answer whose `data` makes `show_result` raise: the result file is
    written (cogs/review.py:148-149), the exception is swallowed
    (cogs/review.py:159) and polling continues; later cache hits then raise
    outside any handler (cogs/review.py:104-105). `Done` always ends the loop
    with `Finished`.
- main.py (hot reload, help command, startup) and cogs/general.py (`ping`):
  bot glue with no logic.

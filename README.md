# harkley-server core, modelled in Dafny

This project models the logic of the harkley-server backend, an Express and
TypeORM service that records meetings, transcribes them and extracts action
items. The model covers these parts:

- **Meeting processing pipeline** (`processing.dfy`). `MeetingProcessingService`
  runs the status writes in a fixed order: transcribing, the transcription
  result, analyzing, the analysis, then completed. Its top-level catch writes
  `failed`. The run is a method over a `MeetingService`, and that service keeps
  a ghost log of every `updateMeeting` request. The method is proved equal to
  a pure plan (`Plan`) and to a replay of the table (`Replay`).
- **Record stores** (`meeting_store.dfy`, `action_item_store.dfy`, with
  `listing.dfy` for the shared newest-first order and skip/take window). These
  are classes over in-memory tables. They cover:
  - create with forced defaults;
  - owner-scoped lookup;
  - patch-merge update;
  - soft delete (meetings) and hard delete (action items);
  - filtered, ordered, paged listing;
  - the meeting statistics.
- **Transcript ingestion** (`webhook.dfy`). The Deepgram webhook yields one
  transcription row and one chat segment per utterance. Keyword-selected
  utterances become action items, each with a priority from the keyword
  ladder. The webhook's reply and the meeting's status update are modelled
  too.
- **LLM response handling** (`openai.dfy`): the config merge, placeholder
  substitution, markdown-fence stripping, the mapping of parsed items to
  rows, and the "never throws, returns null" contracts. The chat-completion
  call and `JSON.parse` are functions passed in as parameters.
- **Validators and helpers**:
  - the upload gate and storage path (`file_upload.dfy`);
  - the UUID-v4 route-parameter check (`param_validation.dfy`);
  - the signup and login schemas (`auth_schemas.dfy`);
  - the environment configuration (`env.dfy`);
  - pagination (`pagination.dfy`);
  - `removeNullValues` (`common.dfy`);
  - `getErrorMessage` and the error wrappers (`error_util.dfy`, `error_handler.dfy`);
  - the bearer-token middleware (`auth_middleware.dfy`);
  - the rate-limit keys and configurations (`rate_limit.dfy`);
  - `isAuthenticatedRequest` (`express_types.dfy`).

`js.dfy` holds the JavaScript semantics the code relies on:
- untyped values, `typeof`, truthiness and `String()`;
- `parseInt`, `trim`, `Math.round` and UTF-16 `length`.

`http.dfy` holds the request/response pair a middleware acts on: replies
sent, `next` calls and `req.user`. `prelude.dfy` holds Option/Result and the
string operations.

Meeting status is a plain string. The code uses three vocabularies, and a
string holds all of them:
- `'active'`, set by `createMeeting`;
- `'processing'`, the entity default;
- `queued` … `failed`, from the processing enum.

Behaviour of the source that the model makes explicit:

- As shipped, `transcriptionService.processTranscriptionResults` does not
  exist, so `processTranscription` always throws a TypeError. It is rethrown
  as "Transcription failed: …", and the run writes transcribing, failed,
  failed (`Processing.ShippedRunFails`). The transcription outcome is
  therefore an input of the model, not derived behaviour.
- The two enrichment tasks run under `Promise.allSettled`, so their outcomes
  never change the run. The model records that each task was started with
  the transcript, and takes its outcome as an input:
  - `processSummary` calls `generateSummaryAndTitle`, which does not exist,
    so that task always rejects with a TypeError;
  - `processActionItems` passes `(meetingId, transcript, userId)`.
    `extractActionItems` reads the first two and catches its own errors, so
    that task resolves after saving the rows `OpenAI.ExtractActionItems`
    describes.
- Every status write of the pipeline except the final completed write in
  `processAIAnalysis` passes `''` as the owner. Given the (id, owner) lookup,
  those writes change nothing unless the meeting's owner is `''`
  (`Processing.OwnerlessWritesChangeNothing`, `Processing.SuccessfulRunTable`).
- `error.message || 'Unknown error'` on a `null` or `undefined` error throws
  a TypeError instead of producing "Unknown error" (`Processing.Rethrown`).
- A limit of 0 is falsy. In `getUserMeetings` it means "no limit". In
  `getActionItems` it is passed to `take`, which TypeORM ignores when falsy.
- A negative limit or offset is truthy, so `getUserMeetings` passes it to the
  query, and PostgreSQL refuses it. The meeting controller computes the
  offset as `(page - 1) * limit`, so `?page=0` is refused
  (`MeetingStore.PageZeroRefused`).
- A 100-character name passes the signup schema, although the message says
  "less than 100". The password lookaheads use `.`, so they only see the
  first line of the password.

## Model

| member | source | states |
|---|---|---|
| Processing.MeetingProcessingService.ProcessMeetingInBackground | src/services/meetingProcessingService.ts:20-35 | The run's outcome is `Plan`'s. The store's request log grows by exactly the planned requests. The table becomes the replay of those requests. The enrichment tasks started are the planned ones. |
| Processing.MeetingProcessingService.UpdateProcessingStatus | src/services/meetingProcessingService.ts:95-99 | One status write with owner `''`. It is logged, and it throws the fault of that write when there is one. |
| Processing.MeetingProcessingService.ProcessTranscription | src/services/meetingProcessingService.ts:40-55 | Returns the transcript after logging the duration/completed write with owner `''`, or rethrows with the "Transcription failed: " prefix. |
| Processing.MeetingProcessingService.ProcessAIAnalysis | src/services/meetingProcessingService.ts:60-76 | The analyzing write, then both enrichment tasks with the same transcript, then the completed write for the real owner. Any write error is rethrown with the "AI analysis failed: " prefix. |
| Processing.MeetingProcessingService.HandleProcessingError | src/services/meetingProcessingService.ts:104-110 | Two failed writes with owner `''`; the run rejects only if one of them throws. |
| Processing.MeetingProcessingService.constructor | src/services/meetingProcessingService.ts:11-15 | Holds the given meeting service and no enrichment calls. |
| Processing.StatusStep | src/services/meetingProcessingService.ts:95-99 | Appends exactly one `''`-owner status request. It fails iff that write's fault is set, and with that fault. |
| Processing.TranscriptionStep | src/services/meetingProcessingService.ts:40-55 | A thrown transcription gives a rethrown error and no write. Otherwise there is one write of duration and completed, and the transcript is returned unless that write throws. |
| Processing.AnalysisStep | src/services/meetingProcessingService.ts:60-76 | If the analyzing write throws, no task starts and the error is rethrown with the analysis prefix. Otherwise both tasks receive the transcript and the owner's completed write follows. |
| Processing.HandlerStep | src/services/meetingProcessingService.ts:104-110 | One failed write, and a second unless the first throws. The result is the error of the write that threw. |
| Processing.AllSettled | src/services/meetingProcessingService.ts:66-69 | Resolves with both outcomes whatever they are. |
| Processing.Rethrown | src/services/meetingProcessingService.ts:52-54 | An Error whose message is prefix + the message, or prefix + "Unknown error" for a falsy message. A null or undefined error gives the TypeError from reading `.message`. |
| Processing.RethrownKeepsMessage | src/services/meetingProcessingService.ts:73-75 | An Error with a non-empty message is rethrown as prefix + that message. |
| Processing.AllSuccessTrace | src/services/meetingProcessingService.ts:20-35 | With no fault, the requests are, in order: transcribing, completed with the duration, analyzing, analyzing, completed for the owner, completed. Both tasks get the transcript and the run resolves. |
| Processing.TranscriptionFailureTrace | src/services/meetingProcessingService.ts:21-34 | A failed transcription gives transcribing, failed, failed. No task starts, and the catch receives the prefixed error. |
| Processing.AnalysisFailureTrace | src/services/meetingProcessingService.ts:60-76 | A throwing analyzing write inside the analysis starts no task and reaches the catch with the analysis prefix. |
| Processing.FailureHandling | src/services/meetingProcessingService.ts:32-34 | Any caught failure ends in failed writes (two unless the first throws). The run rejects only with the fault of one of the handler's writes. |
| Processing.RecoverEndsFailed | src/services/meetingProcessingService.ts:104-110 | The handler appends one or two failed writes and starts no task. |
| Processing.OwnerlessWritesChangeNothing | src/services/meetingProcessingService.ts:95-99 | Writes for owner `''` leave a table with no live `''`-owned row with that id unchanged. |
| Processing.SuccessfulRunTable | src/services/meetingProcessingService.ts:72 | When no live row with that id is owned by `''`, a successful run changes the table exactly as the one owner-scoped completed write does. |
| Processing.ShippedRunFails | src/services/meetingProcessingService.ts:42-43 | With the missing collaborator method the run writes transcribing, failed, failed and resolves. When no live row with that id is owned by `''`, the table is unchanged. |
| MeetingStore.MeetingService.CreateMeeting | src/services/meetingService.ts:16-24 | Appends the given fields with status 'active' and returns them; nothing else changes. A failing save returns its error and stores nothing. |
| MeetingStore.MeetingService.UpdateMeeting | src/services/meetingService.ts:79-91 | Logs the request. With no owned live match it returns null and changes nothing. Otherwise it merges the patch into that row only and returns it. |
| MeetingStore.MeetingService.DeleteMeeting | src/services/meetingService.ts:93-104 | True iff there is an owned live match, and then only that row is marked deleted. False changes nothing. |
| MeetingStore.MeetingService.SetStatusById | src/controllers/webhookController.ts:159-162 | Every row with the id, whoever owns it, gets the status; nothing else changes. |
| MeetingStore.MeetingService.constructor | src/services/meetingService.ts:9-11 | An empty table and an empty request log. |
| MeetingStore.ApplyPatch | src/services/meetingService.ts:88 | Each key present in the patch overwrites its field. Id, owner, creation time and deletion are kept. |
| MeetingStore.PatchLaws | src/services/meetingService.ts:88 | The empty patch is the identity, and applying a patch twice equals applying it once. |
| MeetingStore.FindOwned | src/services/meetingService.ts:80-82 | Finds the live row with that id and owner; none means no such row exists; unique ids give a unique row. |
| MeetingStore.GetMeetingById | src/services/meetingService.ts:68-74 | Some iff a live meeting with that id and owner exists, and it is that meeting. |
| MeetingStore.GetUserMeetings | src/services/meetingService.ts:29-63 | Refused iff a truthy offset or limit is negative, with PostgreSQL's OFFSET message first and its LIMIT message otherwise. Otherwise `total` counts every live match of the user (and status when truthy), and the page holds only matches, newest first, at most a truthy limit. |
| MeetingStore.PageZeroRefused | src/controllers/meetingController.ts:85-95 | The offset `(0 - 1) * limit` that `?page=0` produces is refused with "OFFSET must not be negative". |
| MeetingStore.PageIsSlice | src/services/meetingService.ts:50-55 | An accepted listing's page is the contiguous run of ordered matches after a truthy offset, of a truthy limit's length when available. |
| MeetingStore.UnpagedListsEveryMatch | src/services/meetingService.ts:50-55 | With no or zero limit and offset the listing is accepted, the page is every match exactly once, and its length equals `total`. |
| MeetingStore.OthersNeverListed | src/services/meetingService.ts:40-43 | Another user's meeting, or a deleted one, never appears in an accepted listing. |
| MeetingStore.RoundDiv | src/services/meetingService.ts:122-128 | Math.round(total/count): the result is within one half of the true quotient. |
| MeetingStore.GetUserMeetingStats | src/services/meetingService.ts:109-131 | Over the user's live meetings: their count; the sum of their durations, a missing one counting 0; the number whose status is 'active'; and the average, which is 0 with no meetings and otherwise total/count rounded. |
| MeetingStore.StatsAfterCreate | src/services/meetingService.ts:115-123 | A new active meeting adds 1 meeting, 1 active meeting and its duration (0 if missing). |
| MeetingStore.DeletedIsInvisible | src/services/meetingService.ts:102 | After the soft delete, neither `getMeetingById` nor the owned-row search that update and delete use finds the meeting. |
| ActionItemStore.ActionItemService.CreateActionItem | src/services/actionItemService.ts:62-77 | Appends the data with status 'pending' and priority `data.priority` or 'medium'; nothing else changes. A failing save returns its error and stores nothing. |
| ActionItemStore.ActionItemService.UpdateActionItem | src/services/actionItemService.ts:82-93 | A database error is returned with no change. An unknown id gives null and no change. Otherwise the patch is merged into that item only, with no owner check. |
| ActionItemStore.ActionItemService.DeleteActionItem | src/services/actionItemService.ts:98-107 | True iff the database does not throw, whether or not the id existed. Every item with the id is removed. |
| ActionItemStore.ActionItemService.constructor | src/services/actionItemService.ts:26-28 | An empty table. |
| ActionItemStore.GetActionItems | src/services/actionItemService.ts:33-57 | `total` counts all items satisfying the where-clause. The page holds only items matching the given options, newest first, at most the effective limit. |
| ActionItemStore.PageIsSlice | src/services/actionItemService.ts:46-51 | The page is the contiguous run of ordered matches after `offset` (default 0), of the effective limit's length when available. |
| ActionItemStore.EffectiveLimit | src/services/actionItemService.ts:37 | An absent limit is 20, a limit of 0 means no limit, and any other limit is kept. |
| ActionItemStore.DefaultPageSize | src/services/actionItemService.ts:37 | No options give at most 20 items. |
| ActionItemStore.WhereMembers | src/services/actionItemService.ts:39-44 | The where-clause holds exactly the option entries that are neither null nor undefined. |
| ActionItemStore.WhereMeansGivenOptions | src/services/actionItemService.ts:39-44 | Satisfying the where-clause is equivalent to every given option equalling its column. |
| ActionItemStore.SatisfiedWhereMatches | src/services/actionItemService.ts:39-47 | From where-clause to given options. |
| ActionItemStore.MatchingSatisfiesWhere | src/services/actionItemService.ts:39-47 | From given options to where-clause. |
| ActionItemStore.EmptyStatusStillFilters | src/services/actionItemService.ts:39-44 | An empty status option lists only items whose status is empty. |
| ActionItemStore.PriorityOrDefault | src/services/actionItemService.ts:73 | A non-empty given priority is kept; a missing or empty one becomes 'medium'. |
| ActionItemStore.ApplyPatch | src/services/actionItemService.ts:91 | Each present key overwrites its field. Id, meeting, creator and creation time are kept. |
| ActionItemStore.FindById | src/services/actionItemService.ts:83-85 | The index of an item with that id, or none when no item has it. |
| ActionItemStore.WithoutId | src/services/actionItemService.ts:100 | Keeps exactly the items with another id, in order. |
| ActionItemStore.DeletionRemovesExactly | src/services/actionItemService.ts:100 | After deletion no item has the id and every other item remains. |
| Listing.SortNewestFirst | src/services/meetingService.ts:47 | A permutation of the rows (same length and multiset). |
| Listing.SortedNewestFirst | src/services/meetingService.ts:47 | The result is ordered by descending `createdAt`. |
| Listing.InsertDesc | src/services/actionItemService.ts:48 | Insertion adds exactly the one element. |
| Listing.InsertKeepsSorted | src/services/actionItemService.ts:48 | Insertion keeps descending order. |
| Listing.SortedMembers | src/services/actionItemService.ts:48 | Ordering keeps exactly the rows it was given. |
| Listing.Window | src/services/actionItemService.ts:49-50 | skip then take: a contiguous slice at the offset, at most the limit, everything left when no limit. |
| Listing.ConsecutivePages | src/services/actionItemService.ts:49-50 | A page of n followed by the rest, from offset + n, is the whole listing from the offset. |
| Listing.WindowOfSorted | src/services/meetingService.ts:47-55 | A page of an ordered listing is ordered and holds only listed rows. |
| OpenAI.MergeConfig | src/services/openAIService.ts:87 | Each key given in the custom config overrides the default, key by key. |
| OpenAI.MergeLaws | src/services/openAIService.ts:87 | Merging nothing keeps the defaults, and merging twice is merging once. |
| OpenAI.SummaryConfig | src/services/openAIService.ts:204-206 | The summary uses gpt-3.5-turbo, 0.3 and 300 tokens. |
| OpenAI.SubstituteFirstPlaceholder | src/services/openAIService.ts:93 | With no `{` before the placeholder, only the first `{transcript}` is replaced, and later text stays verbatim. |
| OpenAI.UserMessageOf | src/services/openAIService.ts:93 | The user message is the template text before the placeholder, the transcript, then the rest. |
| OpenAI.MakeOpenAICall | src/services/openAIService.ts:84-109 | Ok iff the reply has non-empty content, and then it is the cleaned content. The API's own error is rethrown unchanged. Missing content gives "No response from OpenAI for <promptType>". |
| OpenAI.CleanResponseContent | src/services/openAIService.ts:114-124 | Trimmed text without a fence is returned as is. A "```json" or bare "```" opening is stripped with its whitespace, and a closing fence only at the end. |
| OpenAI.StripOpening | src/services/openAIService.ts:118-120 | The result is the text from some point after the opening fence, with only whitespace between the fence and that point and no whitespace at its start. So exactly the fence and the whitespace after it are removed. |
| OpenAI.StripClosing | src/services/openAIService.ts:118-120 | Text not ending in a fence is unchanged. Otherwise the result is a prefix with no trailing whitespace, and only whitespace lies between it and the closing fence. So exactly the fence and the whitespace before it are removed. |
| OpenAI.CleanJsonBlock | src/services/openAIService.ts:117-118 | A JSON-fenced block on its own lines gives back exactly its trimmed body. |
| OpenAI.CleanBareBlock | src/services/openAIService.ts:119-120 | A bare-fenced block gives back exactly its trimmed body (unless the body starts with "json"). |
| OpenAI.UnfencedIsTrimmed | src/services/openAIService.ts:115-123 | Text that does not open with a fence is only trimmed. |
| OpenAI.ToRows | src/services/openAIService.ts:157-163 | One row per item, in order, with the meeting id, description, priority, 'pending' and the assignee or undefined. |
| OpenAI.ToRowsAppend | src/services/openAIService.ts:157-163 | Mapping distributes over concatenation. |
| OpenAI.ExtractActionItems | src/services/openAIService.ts:172-195 | Never throws. It saves the rows of a non-empty parsed list only when the call succeeds and the save does not throw; otherwise it saves nothing. |
| OpenAI.ExtractSavesEveryItem | src/services/openAIService.ts:176-180 | A successful call and parse save exactly one row per parsed item. |
| OpenAI.GenerateSummary | src/services/openAIService.ts:200-219 | The request has 300 tokens and the default model and temperature. The result is the cleaned summary iff there is content, null otherwise. |
| OpenAI.ExtractTopics | src/services/openAIService.ts:224-273 | Null without content and null when the cleaned reply does not parse. A parsed object gives its `topics` list, or undefined when it has no `topics` key. |
| OpenAI.RateLimitGivesNull | src/services/openAIService.ts:210-218 | A thrown call, including one with status 429, gives null for the summary and for the topics. |
| Webhook.TranscriptStore.HandleTranscriptionWebhook | src/controllers/webhookController.ts:13-39 | A falsy meeting_id gives 400 INVALID_WEBHOOK and writes nothing. Otherwise the results are ingested, then the meeting is set to completed and the reply is 200. Any throw gives 500 WEBHOOK_ERROR without the status write. |
| Webhook.TranscriptStore.ProcessTranscriptionResults | src/controllers/webhookController.ts:44-92 | The three tables grow by exactly the rows of `Ingest`, and it completes iff `Ingest` does. |
| Webhook.Ingest | src/controllers/webhookController.ts:44-92 | No first alternative, or a failing transcription save, writes nothing. Otherwise the exact transcription row is written. The segments follow unless there are utterances and their save fails. Items are written only when the run completes: on failure what was saved before stays and nothing after it. |
| Webhook.PrimaryAlternative | src/controllers/webhookController.ts:45-49 | `channels[0].alternatives[0]`, present iff both arrays are non-empty. |
| Webhook.TranscriptionRecord | src/controllers/webhookController.ts:62-70 | Status 'completed' and language 'en'. Word count is spaces + 1, confidence is Math.round(c·100), and the summary is the short summary or null. |
| Webhook.WordCount | src/controllers/webhookController.ts:55 | At least 1. |
| Webhook.EmptyTextCountsOneWord | src/controllers/webhookController.ts:55 | Empty text counts one word. |
| Webhook.WordCountOfJoin | src/controllers/webhookController.ts:55 | Space-free words joined by single spaces are counted exactly. |
| Js.KeepTruthy | src/controllers/webhookController.ts:69 | `summary.short \|\| null` and `item.assignee \|\| undefined`: the string when non-empty, absent when empty or missing. |
| Webhook.SpeakerOrZero | src/controllers/webhookController.ts:76 | The speaker, or 0 when absent. |
| Webhook.ChatSegments | src/controllers/webhookController.ts:73-85 | One segment per utterance, in order, each with the transcription id. Speaker falls back to 0, times are Math.round(s·1000) and confidence Math.round(c·100). |
| Webhook.NoUtterancesNoSegments | src/controllers/webhookController.ts:73-85 | No utterances means no segments and no items. |
| Webhook.DeterminePriority | src/controllers/webhookController.ts:144-154 | 'high' iff urgent/asap/critical appears. 'medium' iff not high and important/priority appears. 'low' otherwise. |
| Webhook.ExtractActionItems | src/controllers/webhookController.ts:115-131 | The loop yields exactly the items of the keyword-selected utterances, in order. |
| Webhook.KeywordItemsSelect | src/controllers/webhookController.ts:99-131 | Every keyword utterance yields its item, and every item comes from one, with original text, speaker or 0, its priority and 'pending'. The order is kept. |
| Webhook.NoKeywordNoItems | src/controllers/webhookController.ts:134-138 | With no keyword utterance nothing is selected, so nothing is saved. |
| Webhook.KeywordMatchIgnoresCase | src/controllers/webhookController.ts:119-120 | Selection and priority depend only on the lower-cased text. |
| FileUpload.ValidateFile | src/services/fileUploadService.ts:14-32 | Valid iff size ≤ 50 MiB and the type is exactly video/webm or audio/webm. The size error takes precedence. |
| FileUpload.SizeBoundary | src/services/fileUploadService.ts:16 | Exactly 50 MiB passes; one byte more fails with the size error. |
| FileUpload.Extname | src/services/fileUploadService.ts:40 | Empty exactly when the last segment is ".." or has no '.' after its first character. Otherwise it is that segment's tail from its last '.'. |
| FileUpload.ExtnameOfStemAndExtension | src/services/fileUploadService.ts:40 | stem.ext in the last segment gives ".ext". |
| FileUpload.BasenameOfLastSegment | src/services/fileUploadService.ts:40 | The last segment of dir/name is name. |
| FileUpload.GenerateFilePath | src/services/fileUploadService.ts:37-45 | "users/<userId>/meetings/", then the decimal timestamp, then "_<fileId><extname>". |
| FileUpload.UploadFile | src/services/fileUploadService.ts:50-81 | An invalid file is refused with its validation error before storage. A storage error gives "Upload failed: …". Otherwise the result echoes the path, name, size and type. |
| ParamValidation.CheckParam | src/middleware/validation.ts:9-27 | A missing or empty param gives "<name> parameter is required". A non-UUID gives "Invalid <name> format". Passing iff the param is a v4 UUID. |
| ParamValidation.ValidateParam | src/middleware/validation.ts:9-27 | Either exactly that reply is sent, or `next` is called once; the user is untouched. |
| ParamValidation.GroupsAccepted | src/middleware/validation.ts:19 | Matching 8-4-4-4-12 groups joined by hyphens are accepted. |
| ParamValidation.AcceptedSplits | src/middleware/validation.ts:19 | An accepted id splits into those five matching groups (so it has length 36). |
| ParamValidation.CaseInsensitive | src/middleware/validation.ts:19 | Acceptance ignores the case of the letters. |
| AuthSchemas.SignupAccepted | src/validation/auth.ts:4-11 | A signup is accepted iff: the e-mail is a non-empty e-mail string; the password is at least 8 characters and matches the pattern; the name is absent or 1..100 characters. |
| AuthSchemas.LoginAccepted | src/validation/auth.ts:14-17 | A login is accepted iff the e-mail is a non-empty e-mail string and the password is non-empty. |
| AuthSchemas.EmailIssues | src/validation/auth.ts:5 | No issue iff a non-empty e-mail string. |
| AuthSchemas.SignupPasswordIssues | src/validation/auth.ts:6-9 | No issue iff a string of at least 8 UTF-16 units that matches the pattern. |
| AuthSchemas.NameIssues | src/validation/auth.ts:10 | No issue iff undefined, or a string of 1..100 units. |
| AuthSchemas.LoginPasswordIssues | src/validation/auth.ts:16 | No issue iff a non-empty string. |
| AuthSchemas.TypeIssue | src/validation/auth.ts:5 | A non-string gives one issue on that path: "Required" iff it is undefined, otherwise "Expected string, received " and the value's parsed type. |
| AuthSchemas.EmailIssuesFirst | src/validation/auth.ts:4-11 | E-mail issues are listed before password issues. |
| AuthSchemas.PatternStopsAtLineBreak | src/validation/auth.ts:9 | Digits after a line break do not satisfy the pattern. |
| AuthSchemas.HundredCharacterNameAccepted | src/validation/auth.ts:10 | A 100-character name is accepted. |
| Env.ValidateEnv | src/config/env.ts:31-71 | Throws iff a required variable is unset or empty, with the missing names joined by ", ". Otherwise the config has the values unchanged, NODE_ENV defaulting to development and PORT to 3001 (base 10). |
| Env.MissingVars | src/config/env.ts:42 | Exactly the unset names, in declared order. |
| Env.ReadConfig | src/config/env.ts:49-70 | The required values unchanged, with the defaults. |
| Env.AtMostOneEnvironment | src/config/env.ts:77-79 | At most one of isDevelopment, isProduction and isTest holds. |
| Env.DefaultPort | src/config/env.ts:52 | Without PORT the port is 3001. |
| Pagination.GetPaginationParams | src/utils/pagination.ts:11-17 | page ≥ 1, 1 ≤ limit ≤ 100 and offset = (page−1)·limit ≥ 0. |
| Pagination.Clamp | src/utils/pagination.ts:12-14 | Raw values below 1 become 1 and limits above 100 become 100. |
| Pagination.ParamsOfDecimalQuery | src/utils/pagination.ts:12-13 | A page of 0 gives 1. A limit of 0 gives 10, a negative limit 1 and one over 100 gives 100. |
| Pagination.DefaultsWhenUnparseable | src/utils/pagination.ts:12-13 | Unparseable values give page 1, limit 10, offset 0. |
| Pagination.ZeroQuery | src/utils/pagination.ts:12-13 | page=0&limit=0 gives 1, 10, 0. |
| Pagination.EmptyQuery | src/utils/pagination.ts:11-14 | An empty query gives 1, 10, 0. |
| Pagination.UndefinedIsNaN | src/utils/pagination.ts:12 | parseInt of an absent value is NaN. |
| Common.RemoveNullValues | src/utils/common.ts:1-3 | No null or undefined value remains, every other entry remains, and order is kept. |
| Common.KeptEntries | src/utils/common.ts:3 | A key is kept iff its value is neither null nor undefined, with its value unchanged (falsy values are kept). |
| Common.RemoveNullValuesIdempotent | src/utils/common.ts:3 | Applying it twice is applying it once. |
| ErrorUtil.GetErrorMessage | src/utils/error.ts:4-17 | An Error gives its message, even when empty. A string gives itself. An object with a message key gives String(message). Anything else gives the fallback. |
| ErrorHandler.WithErrorHandling | src/utils/errorHandler.ts:7-15 | Success is passed through unchanged. Failure becomes an Error "Failed to <action>: <message>", falling back to "Unknown error". |
| ErrorHandler.HandleErrors | src/utils/errorHandler.ts:20-29 | The decorator maps success and failure the same way. |
| ErrorHandler.DecoratorAgreesWithWrapper | src/utils/errorHandler.ts:20-29 | The decorator equals the wrapper around the bound method. |
| ErrorHandler.UnknownErrorFallback | src/utils/errorHandler.ts:12 | A rejection without a message gives "Failed to <action>: Unknown error". |
| AuthMiddleware.BearerToken | src/middleware/auth.ts:20-27 | A token iff the header starts with "Bearer ", and the header is "Bearer " + token. |
| AuthMiddleware.TokenIsHeaderTail | src/middleware/auth.ts:27 | The token is the header minus its first 7 characters. |
| AuthMiddleware.Authenticate | src/middleware/auth.ts:17-65 | Checks run in order. No Bearer header gives 401. Missing config gives 500 "Authentication configuration error". A provider error or no user gives 401 "Invalid or expired token". A throwing provider call gives 500 "Authentication failed". It continues iff the provider answers a user without error, and then `{id, email or '', role}` is attached. |
| AuthMiddleware.AuthenticateUser | src/middleware/auth.ts:17-65 | Either one reply with no `next` and no user, or the user attached and `next` called once. |
| AuthMiddleware.OptionalAuth | src/middleware/auth.ts:68-84 | Without a Bearer header the request continues anonymously. Otherwise `authenticateUser` decides. |
| AuthMiddleware.OptionalAuthenticate | src/middleware/auth.ts:68-84 | The same, applied to the request. |
| AuthMiddleware.OptionalAuthRejectsBadToken | src/middleware/auth.ts:79 | A rejected Bearer token is answered with 401 even by `optionalAuth`. |
| RateLimit.GetClientIP | src/middleware/rateLimit.ts:50-52 | `req.ip` when truthy, else a truthy `remoteAddress`, else 'unknown'; never empty. |
| RateLimit.GetUserId | src/middleware/rateLimit.ts:54-56 | The user id, else the 'user-id' header, else the IP key. |
| RateLimit.KeyFor | src/middleware/rateLimit.ts:58-62 | 'ip' uses the IP key and 'userId' the user key. |
| RateLimit.IpKeyIgnoresIdentity | src/middleware/rateLimit.ts:58-62 | The IP key does not depend on the user or the header. |
| RateLimit.OnlyMeetingCreationSkips | src/middleware/rateLimit.ts:77 | Only meetingCreation skips, and exactly the requests without a user id. |
| RateLimit.Budgets | src/middleware/rateLimit.ts:16-47 | 5/hour signup; 10/hour failed login with successes skipped; 10/day meeting creation by user; 100/minute API. |
| ExpressTypes.IsAuthenticatedRequest | src/types/express.ts:14-16 | True exactly for a non-null object with an `id` key. Undefined, null and non-objects give false. |
| ExpressTypes.AnyIdValuePasses | src/types/express.ts:15 | Any value under `id` passes. |
| Http.Exchange.Send | src/utils/response.ts:32-42 | Appends the reply; user and `next` count unchanged. |
| Http.Exchange.Next | src/middleware/auth.ts:60 | Counts one `next` call; nothing else changes. |
| Http.Exchange.SetUser | src/middleware/auth.ts:54-58 | Sets `req.user`; nothing else changes. |
| Js.MathRound | src/controllers/webhookController.ts:66 | The nearest integer: within half of x, with halves rounded up. |
| Js.Trim | src/services/openAIService.ts:115 | A contiguous slice of the text, with only whitespace cut off either end, and no whitespace left at either end. |
| Js.TypeOf | src/types/express.ts:15 | "object" exactly for null, objects and errors. |
| Js.ParseIntOfIntToString | src/config/env.ts:52 | parseInt of an integer's decimal text gives that integer. |
| Js.ParseIntOfNonNumeric | src/utils/pagination.ts:12-13 | Text opening with something that is not whitespace, a sign or a digit is NaN. |
| Js.Utf16Length | src/validation/auth.ts:10 | One unit per code point plus one more for each code point above U+FFFF. |

## Left out

- Database, storage, identity provider, Deepgram and OpenAI calls are foreign calls. Their results are parameters: fault inputs, a `getUser` function, a `complete` function, `parse` functions and a storage function. TypeORM internals, migrations and entity decorators are not modelled.
- The tables are in-memory `seq`s in insertion order. Ties on `createdAt` keep table order, which the database leaves unspecified.
- The snake_case keys and the missing `createdBy` in the webhook and OpenAI saves would be rejected by the real schema. The model saves them as given.
- `Date.now`, uuid generation and the ids and timestamps the database assigns are parameters.
- Processing does not link `processActionItems` to `OpenAI.ExtractActionItems`: the run records the task it starts, not the action-item rows that task saves.
- The background run and the `Promise.allSettled` fan-out are modelled as sequential steps with independent outcomes, not interleavings.
- Numbers are `int` and `real`. IEEE floating point (durations, confidences, Math.round on doubles) is not modelled.
- `toLowerCase` is ASCII-only: non-ASCII case mapping is not modelled.
- The zod e-mail regex is a predicate parameter `isEmail`. The type-issue texts are zod v3's defaults ("Required", "Expected string, received <type>"); other zod versions' wording is not modelled.
- The request-counting window of express-rate-limit and `getRateLimitInfo` are not modelled. Only the configurations, keys and skip rule are.
- A null `limit` or `offset` in `getActionItems` is written `Some(0)`: like 0 it sets no limit or offset, while the defaults apply only to an absent option.
- `$` patterns in the replacement text of `String.replace` are not modelled.
- Logging (`console.*`) is left out.
- A patch key present with the value `undefined` is not modelled: a key is absent or holds a value.
- A `meeting_id` that is truthy but not a string is not modelled.
- Controllers, routes, `src/index.ts`, `validate` in `src/middleware/validation.ts` and the storage operations after `uploadFile` are HTTP or storage glue outside this model.
- The TypeError message text for reading `.message` of null or undefined follows V8's wording.
- OpenAI.UserMessageOf: assumes the template text before `{transcript}` holds no `{`. That holds for the three templates by inspection, but it is stated as a precondition and not proved for the literal texts.
- MeetingStore.GetUserMeetings: its own contract does not pin the offset; `MeetingStore.PageIsSlice` states the exact page.
- ActionItemStore.GetActionItems: its own contract does not pin the offset; `ActionItemStore.PageIsSlice` states the exact page.

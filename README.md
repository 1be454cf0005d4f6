# groupme-exporter in Dafny

A verified model of the core of groupme-exporter, a command-line tool that
pages through a GroupMe conversation over the GroupMe REST API. It can keep
the chat history split by year. It also collects the media attachments and
downloads them in batches of ten into `<outputDir>/<year>/<Mon>/` with
date-based file names.

The model covers:

- the message transforms of `src/utils.ts`;
- media naming and batching, with the download loops;
- the string rules of the two prompts;
- the `GroupmeService` class of `src/service.ts`: query parameters, the
  bounded retry, and the cursor loop.

Modules, one concept each:

| module | file | what it holds |
|---|---|---|
| `Model` | model.dfy | the records of `src/model.ts`; a `moment` is replaced by a calendar date |
| `Seqs`, `Arith` | seqs.dfy | generic sequence helpers, and `Math.ceil(n / d)` |
| `Text` | text.dfy | JavaScript number rendering, zero padding, `String.prototype.trim` |
| `Messages` | messages.dfy | `getAttachmentMessages`, `appendMessages`, `appendMediaMessageIds`, `groupMessagesByYear` |
| `Media` | media.dfy | `getMediaFiles` |
| `Batches` | batches.dfy | `chunkArray`, and the batch slicing of `downloadMediaFiles` |
| `Naming` | naming.dfy | `createFilename` (a class holding the per-batch count dictionary) and the components of `createMediaPath` |
| `Downloads` | downloads.dfy | `downloadMediaFiles` and `initiateDownloadMediaFiles` |
| `Prompts` | prompts.dfy | the validate and normalise expressions of `getAccessToken` and `promptOutputDir` |
| `Service` | service.dfy | `GroupmeService`: `buildConfig`, `makeRequestWithRetries`, `downloadContent` |

### Form of the model

The code that changes state is imperative Dafny, and each method is proved
against a specification function:

- `chunkArray` is a loop that pushes into two lists.
- `groupMessagesByYear` fills a dictionary stored as a `map`.
- `createFilename` changes the `counts` map of a `MediaCounts` object.
- The batch loop of `downloadMediaFiles` and the counting loop of
  `initiateDownloadMediaFiles` are loops.
- `makeRequestWithRetries` is a `numRetries` loop.
- `downloadContent` is a `while true` loop.

Filters, maps and string expressions are functions. Lemmas state their
properties.

### Inputs that replace the outside world

- **Dates.** The local calendar date of an epoch time (`moment.unix`,
  `new Date`) is a parameter `localDate`.
- **Media fetches.** A call of `downloadMediaFiles` fails the fetches at
  the positions in a set `failures`.
- **Server.** An oracle `Server` answers try `n` of a GET request to a URL
  with parameters.
- **Waits.** The 4000 ms waits are counted, not performed.

### Where the code differs from what its design intends

The model follows the code in each case.

- `getMediaFiles` computes a filter by the collected ids and throws it
  away (`src/utils.ts:185`), so every attachment of every kept message is
  downloaded.
- Each iteration of `initiateDownloadMediaFiles` downloads the whole list,
  not its own chunk (`src/utils.ts:173`). It then credits its own chunk's
  length when that call does not throw.
- A single failed fetch makes `Promise.all` reject. `downloadMediaFiles`
  then throws as soon as a fetch of that batch fails, and starts no later
  batch. The failure is not caught per item.
- File names are taken before the empty-URL skip, so a skipped descriptor
  still uses up a number.
- The count dictionary is new in every batch. Numbering restarts per
  batch, and the same date in two batches can give the same path.
- The groups URL ends in a stray `}`.
- The page is always read from `data.response.direct_messages`.
- `before_id` is left out when the last id is the empty string.
- `promptOutputDir` checks the leading `/` on the untrimmed value.

### Verifying

All files are verified together:

    dafny verify --resource-limit 2000000 --verification-time-limit 0 *.dfy

## Model

| member | source | states |
|---|---|---|
| Batches.ChunkArray | src/utils.ts:262-280 | for a size of at least one the result is the partition `Chunks`; for a smaller size the whole non-empty list is one chunk, and the empty list gives none |
| Batches.ChunksFlatten | src/utils.ts:262-280 | the chunks concatenate back to the input |
| Batches.ChunksCount | src/utils.ts:262-280 | there are `CeilDiv(n, size)` chunks |
| Batches.ChunksSizes | src/utils.ts:262-280 | no chunk is empty or longer than the size; every chunk but the last has exactly the size |
| Batches.LastChunk | src/utils.ts:275-277 | the chunk left after the loop, if non-empty, is the last chunk |
| Batches.FullChunk | src/utils.ts:269-272 | a chunk that reaches the size is the next chunk of the partition |
| Batches.FirstChunk | src/utils.ts:266-272 | the partition of a suffix starts with its first `size` items |
| Batches.ChunkAt | src/utils.ts:214-215 | chunk `b` of `chunkArray` is the slice the loop of `downloadMediaFiles` takes in round `b` |
| Batches.BatchStartIs | src/utils.ts:215 | batch `b` starts at `min(b * size, n)`, the clamping `slice` does |
| Batches.BatchStartMono | src/utils.ts:214-215 | later batches start no earlier |
| Batches.BatchAt | src/utils.ts:215 | item `j` of batch `b` is item `start + j` of the list |
| Batches.BatchCountBounds | src/utils.ts:210-215 | the `Math.ceil(n / size)` batches end at the end of the list, and batch `b < ceil` starts at `b * size < n` |
| Batches.BatchShift | src/utils.ts:215 | batch `b` of a list is batch `b - 1` of the list without its first batch |
| Arith.CeilDivIs | src/utils.ts:210 | the batch count is `(n + d - 1) / d`, `Math.ceil(n / d)` in integers |
| Arith.CeilDivCovers | src/utils.ts:210 | that many batches of `d` cover `n`, and one fewer would not |
| Messages.GetAttachmentMessages | src/utils.ts:282-284 | the filter never lengthens the list |
| Messages.GetAttachmentMessagesHave | src/utils.ts:282-284 | every message kept has a non-empty attachment list |
| Messages.GetAttachmentMessagesMembership | src/utils.ts:282-284 | a message is kept exactly when it is in the input and has attachments |
| Messages.GetAttachmentMessagesAppend | src/utils.ts:282-284 | filtering a concatenation concatenates the filtered parts, so order is kept |
| Messages.GetAttachmentMessagesKeepsAll | src/utils.ts:282-284 | a list whose messages all have attachments is kept whole |
| Messages.GetAttachmentMessagesIdentity | src/utils.ts:282-284 | the filter is the identity exactly when every message has attachments |
| Messages.GetAttachmentMessagesIdempotent | src/utils.ts:282-284 | filtering twice is filtering once |
| Messages.AppendMessages | src/utils.ts:137-139 | the old accumulator is a prefix; what follows is the page when saving history and its attachment-bearing messages otherwise |
| Messages.Ids | src/utils.ts:144 | the ids in order, one per message |
| Messages.IdsAppend | src/utils.ts:144-145 | ids of a concatenation are the concatenated ids |
| Messages.AppendMediaMessageIds | src/utils.ts:141-146 | without history saving the result is empty, whatever was collected; with it, the ids of the page's attachment-bearing messages are appended in order |
| Messages.YearsSnoc | src/utils.ts:150-156 | one more message adds its year to the years seen |
| Messages.InYearSnoc | src/utils.ts:157 | one more message is appended to the bucket of its year only |
| Messages.InYearMembership | src/utils.ts:148-160 | a message is in the bucket of a year exactly when its year is that year |
| Messages.InYearAbsent | src/utils.ts:154-156 | a year not seen has an empty bucket |
| Messages.SumSizesRemove | src/utils.ts:157 | the total bucket size splits off any one bucket |
| Messages.SumSizesPush | src/utils.ts:154-157 | pushing one message, into a new or an existing bucket, adds one to the total size |
| Messages.KeysStep | src/utils.ts:154-157 | the keys after a round are the years of the messages so far |
| Messages.BucketsStep | src/utils.ts:154-157 | each bucket after a round holds exactly its year's messages so far, in order |
| Messages.NonEmptyStep | src/utils.ts:154-157 | no bucket becomes empty |
| Messages.GroupStep | src/utils.ts:150-158 | one round of the loop keeps the whole grouping invariant |
| Messages.GroupMessagesByYear | src/utils.ts:148-160 | one bucket per year that occurs, holding that year's messages in input order; no bucket is empty and the sizes add up to the input length |
| Media.ToMediaFile | src/utils.ts:194-203 | "image" gives a photo with ".jpeg", any other tag a video with ".mp4"; the URL is the attachment's and the date the message's |
| Media.MediaOf | src/utils.ts:187-193 | a message gives one descriptor per attachment, none when `attachments` is absent |
| Media.GetMediaFiles | src/utils.ts:184-205 | there is one descriptor per attachment over all messages |
| Media.GetMediaFilesAt | src/utils.ts:186-204 | attachment `j` of message `i` sits right after the attachments of the first `i` messages: message order, then attachment order |
| Media.GetMediaFilesLast | src/utils.ts:186-193 | the descriptors of the last message come last |
| Media.GetMediaFilesKeeps | src/utils.ts:186-193 | descriptors of earlier messages keep their places |
| Media.GetMediaFilesAppend | src/utils.ts:186-193 | the descriptors of a concatenation are the concatenated descriptors |
| Media.GetMediaFilesWellFormed | src/utils.ts:196-201 | every descriptor has the extension of its media type |
| Media.GetMediaFilesIgnoresIds | src/utils.ts:185 | the result is the same for every id list |
| Media.GetMediaFilesOfAttachmentMessages | src/utils.ts:188 | messages without attachments contribute nothing, so filtering them out first does not change the descriptors |
| Text.NatToString | src/utils.ts:252 | a decimal rendering is never empty |
| Text.ParseNatToString | src/utils.ts:252 | the rendering is decimal digits without a leading zero that read back as the number |
| Text.NatToStringInjective | src/utils.ts:152 | different years give different dictionary keys |
| Text.Pad2 | src/utils.ts:244 | the `MM` and `DD` fields have two characters |
| Text.Pad2Digits | src/utils.ts:244 | they are digits that read back as the value |
| Text.Pad4 | src/utils.ts:244 | the `YYYY` field has four characters |
| Text.Pad4Digits | src/utils.ts:244 | they are digits that read back as the year |
| Text.TrimStart | src/utils.ts:18 | the result is a suffix, everything cut off is white space, and it does not start with white space |
| Text.TrimEnd | src/utils.ts:18 | the result is a prefix, everything cut off is white space, and it does not end with white space |
| Text.Trim | src/utils.ts:18 | the trimmed string is no longer and has no white space at either end |
| Text.TrimEmptyIff | src/utils.ts:15 | a string trims to empty exactly when it is all white space |
| Text.TrimKeeps | src/utils.ts:82 | a string with a character that is not white space does not trim to empty |
| Text.TrimIsSlice | src/utils.ts:18 | the trimmed string is a slice of the input with only white space on either side |
| Text.TrimNoop | src/utils.ts:18 | a string without white space at its ends is left unchanged |
| Text.TrimIdempotent | src/utils.ts:18 | trimming twice is trimming once |
| Naming.DateString | src/utils.ts:244 | `MM-DD-YYYY` has ten characters |
| Naming.DateStringFields | src/utils.ts:244 | month, day and year are zero-padded digit fields, split by dashes, that read back as the date |
| Naming.DateStringInjective | src/utils.ts:244-246 | two dates share a key of the count dictionary only when they are the same date |
| Naming.MonthAbbrev | src/utils.ts:253 | the month directory is a three-letter English abbreviation |
| Naming.CountSuffix | src/utils.ts:247 | the suffix is empty exactly for a count of at most one |
| Naming.CountSuffixDigits | src/utils.ts:247 | for a count above one it is `_` and the count in decimal |
| Naming.FilenameText | src/utils.ts:248 | the length of a name is ten, plus the suffix, plus the extension |
| Naming.FilenameParts | src/utils.ts:248 | a name is the date string, then the count suffix, then the extension |
| Naming.FilenameRoundTrip | src/utils.ts:247-248 | date, count and extension can be read back from the name |
| Naming.FilenameTextInjective | src/utils.ts:247-248 | different names render to different strings |
| Naming.MediaCounts.constructor | src/utils.ts:216 | the dictionary of a batch starts empty |
| Naming.CreateFilename | src/utils.ts:243-249 | only the descriptor's date's count changes, by exactly one, and the name carries the new count |
| Naming.PathComponents | src/utils.ts:251-259 | a path has four components |
| Naming.MediaPathDirs | src/utils.ts:252-254 | the components are the output directory, the unpadded decimal year, the month abbreviation and the file name |
| Naming.OccurrencesGrow | src/utils.ts:245-246 | counts of a date never fall as the batch goes on |
| Naming.CountsStep | src/utils.ts:245-246 | after naming item `j - 1`, the dictionary counts each date among the first `j` items |
| Naming.BatchFilenamesDiffer | src/utils.ts:216-218 | two items of one batch get different names |
| Naming.BatchFilenamesDistinct | src/utils.ts:216-218 | nor the same name text |
| Naming.BatchPaths | src/utils.ts:218-219 | a batch gives one path per item |
| Naming.BatchPathsAt | src/utils.ts:218-219 | item `i` gets its year, month and batch file name |
| Naming.BatchPathsDistinct | src/utils.ts:216-219 | no two items of a batch are written to the same path |
| Naming.SameDayNames | src/utils.ts:218-221 | three photos of one day in a batch, the middle one without a URL, get `03-15-2024.jpeg`, `03-15-2024_2.jpeg` and `03-15-2024_3.jpeg` |
| Downloads.DownloadItem | src/utils.ts:217-229 | the callback names and places the file; it writes it exactly when the URL is not empty and the fetch succeeds, and it fails exactly when the URL is not empty and the fetch fails |
| Downloads.WrittenFlags | src/utils.ts:221-228 | one flag per item |
| Downloads.WrittenFlagsAt | src/utils.ts:221-228 | item `i` is written exactly when its URL is not empty and its fetch succeeds |
| Downloads.AnyFailedIff | src/utils.ts:217-236 | a batch has a failure exactly when some item with a URL has a failed fetch |
| Downloads.DownloadBatch | src/utils.ts:216-236 | a batch's failure flag, paths and written flags are those of its items, named over a fresh dictionary |
| Downloads.DownloadRound | src/utils.ts:214-217 | round `i` runs batch `i` |
| Downloads.NextBatch | src/utils.ts:215 | the slice of round `b` is batch `b`, and it starts at `b * size` |
| Downloads.PathsUpTo | src/utils.ts:214-219 | the first `b` batches name as many descriptors as they hold |
| Downloads.WrittenUpTo | src/utils.ts:214-228 | they give one written flag per descriptor |
| Downloads.DownloadMediaFiles | src/utils.ts:207-241 | the call throws exactly when a batch fails; it runs the batches up to the first failing one; its paths and flags are those of the batches run |
| Downloads.BatchDone | src/utils.ts:214-237 | the outputs after one more batch, when none failed before |
| Downloads.ThrewStays | src/utils.ts:214-237 | after a failing batch, no later batch starts |
| Downloads.ThrewIff | src/utils.ts:214-237 | the call throws exactly when one of its batches fails |
| Downloads.BatchFailsIff | src/utils.ts:215-236 | a batch fails exactly when the fetch of one of its descriptors with a URL fails |
| Downloads.BatchesRunShape | src/utils.ts:214-237 | all batches run unless one fails; otherwise the batches run end with the first failing one |
| Downloads.WrittenUpToAt | src/utils.ts:221-229 | every written flag says whether that descriptor was saved |
| Downloads.WrittenUpToKeeps | src/utils.ts:214-237 | a flag of an earlier batch keeps its place |
| Downloads.WrittenUpToLast | src/utils.ts:221-229 | the flags of the last batch |
| Downloads.PathsUpToAt | src/utils.ts:218-219 | item `j` of batch `c` gets the path its batch gives it |
| Downloads.PathsUpToKeeps | src/utils.ts:214-237 | a path of an earlier batch keeps its place |
| Downloads.PathsUpToLast | src/utils.ts:218-219 | the paths of the last batch |
| Downloads.NoFailureBefore | src/utils.ts:214-237 | no descriptor of a batch before the first failing one has a failed fetch |
| Downloads.DownloadThrowsIff | src/utils.ts:207-241 | a call throws exactly when the fetch of some descriptor with a URL fails |
| Downloads.DownloadNamed | src/utils.ts:210-215 | the descriptors named are the first `min(batchesRun * size, n)`, and all of them when the call does not throw |
| Downloads.DownloadStopsAtFirstFailure | src/utils.ts:214-237 | a call that throws stops with the first batch that has a failed fetch, and no earlier descriptor failed |
| Downloads.LastBatchFails | src/utils.ts:214-237 | the last batch run fails and no earlier descriptor does |
| Downloads.PathInBatch | src/utils.ts:215-219 | a descriptor's path sits at its own index, with its batch file name, under its year and month |
| Downloads.NameInBatch | src/utils.ts:215-218 | a descriptor's file name is its batch file name |
| Downloads.NamesInBatch | src/utils.ts:216-219 | two descriptors of one batch get different file names |
| Downloads.BatchRestarts | src/utils.ts:216-218 | the first descriptor of every batch gets count 1, whatever earlier batches named |
| Downloads.InitiateDownloadMediaFiles | src/utils.ts:162-182 | `totalDownloads` is the number of descriptors; `successfulDownloads` is the sum of the chunk lengths of the iterations whose call did not throw |
| Downloads.RoundCounts | src/utils.ts:171-179 | one iteration adds its chunk to the total, and to the successes unless its call throws |
| Downloads.ChunksTotal | src/utils.ts:165-166 | the chunk lengths add up to the number of descriptors |
| Downloads.TallyBound | src/utils.ts:168-179 | successes never exceed the total counted so far |
| Downloads.TallySameFailures | src/utils.ts:171-179 | when every call fails the same fetches, every iteration counts or none does |
| Downloads.InitiateAllOrNothing | src/utils.ts:171-179 | then `successfulDownloads` is zero or the number of descriptors |
| Prompts.ValidateAccessToken | src/utils.ts:15 | the only rejection message is "Access token is required" |
| Prompts.ValidateAccessTokenIff | src/utils.ts:15 | a token is accepted exactly when it has a character that is not white space |
| Prompts.AccessTokenOf | src/utils.ts:18 | the token returned is no longer than the input |
| Prompts.AccessTokenOfAccepted | src/utils.ts:15-18 | an accepted token comes back non-empty, with no white space at its ends, and trimming it again changes nothing |
| Prompts.ValidateOutputDir | src/utils.ts:81-85 | a rejection carries one of the two messages |
| Prompts.ValidateOutputDirIff | src/utils.ts:81-85 | a directory is accepted exactly when the untrimmed value starts with `/` |
| Prompts.ValidateOutputDirRequired | src/utils.ts:82 | "Output directory is required" is shown exactly for an all-white-space value |
| Prompts.CollapseSlashes | src/utils.ts:88 | collapsing never lengthens the string |
| Prompts.CollapseSlashesEnds | src/utils.ts:88 | the first and the last character survive |
| Prompts.CollapseSlashesNoDouble | src/utils.ts:88 | no `//` is left |
| Prompts.CollapseSlashesFixpoint | src/utils.ts:88 | a string without `//` is unchanged |
| Prompts.CollapseSlashesIdentityIff | src/utils.ts:88 | the collapse changes a string exactly when it contains `//` |
| Prompts.CollapseSlashesIdempotent | src/utils.ts:88 | collapsing twice is collapsing once |
| Prompts.CollapseSlashesKeepsText | src/utils.ts:88 | only slashes are removed; the other characters stay in order |
| Prompts.CollapseSlashesDropOne | src/utils.ts:88 | removing one slash of a `//` does not change the result |
| Prompts.NormaliseOutputDir | src/utils.ts:88 | the normalised directory is no longer than the input |
| Prompts.NormaliseOutputDirAccepted | src/utils.ts:81-88 | an accepted directory normalises to a string that starts with `/`, has no `//` and no trailing white space, and normalises to itself |
| Service.RetriesFrom | src/service.ts:65-76 | when the rest of the tries before try `k` fail and try `k` is answered, that response is returned after `k` retries |
| Service.RetrySucceedsAfter | src/service.ts:63-76 | if the first `k <= maxRetries` tries fail and the next is answered, that response is returned after exactly `k` retries |
| Service.GivesUpFrom | src/service.ts:65-79 | when the remaining tries all fail, the error of try `maxRetries + 1` is thrown |
| Service.RetryGivesUp | src/service.ts:65-79 | if `maxRetries + 1` tries fail, the last error is rethrown after `maxRetries + 1` tries, and no more are made |
| Service.RetryNone | src/service.ts:65-84 | with `maxRetries < 0` no request is made and the status-500 placeholder is returned |
| Service.ShapeFrom | src/service.ts:63-85 | from any try on: the tries stay within the bound, all but the last fail, and the last decides the outcome |
| Service.RetryShape | src/service.ts:63-85 | between 1 and `maxRetries + 1` tries, one wait before each retry; all tries but the last fail; the call throws only on try `maxRetries + 1` |
| Service.ContentUrl | src/service.ts:32 | for `"groups"` the address is `/groups/`, then the chat id, then `/messages}` with its stray `}`; any other type reads `direct_messages` |
| Service.KeptStep | src/service.ts:43-44 | adding page by page keeps what keeping over all pages at once keeps |
| Service.ExportedMedia | src/service.ts:47 | the media handed to the download are those of all pages, whether or not history is saved |
| Service.GroupmeService.constructor | src/service.ts:10-12 | the service holds the token it is given |
| Service.GroupmeService.BuildConfig | src/service.ts:50-61 | token, other user id, `limit` 20 and `timeout` 10000 are always set; `before_id` is set exactly when the cursor is defined and not empty, and then holds it; there are no other keys |
| Service.GroupmeService.MakeRequestWithRetries | src/service.ts:63-85 | the outcome and number of tries are those of `Retries`, and 4000 ms are waited per retry |
| Service.GroupmeService.RequestPage | src/service.ts:34-37 | a round's request uses the parameters built from the cursor of the pages so far, with 5 retries |
| Service.GroupmeService.DownloadContent | src/service.ts:23-48 | the pages read form a chain; it exports exactly when the next request gives an empty page, and aborts with the error of the request that failed; the exported lists are the pages' messages (or their attachment-bearing ones) and ids; the download counts are those of `initiateDownloadMediaFiles` on the media of the pages |
| Service.GroupmeService.Advance | src/service.ts:38-44 | a round with a non-empty page keeps the loop invariant and uses up one unit of fuel |
| Service.GroupmeService.EndsStep | src/service.ts:33-38 | after a non-empty page the paging still ends within one request fewer |
| Service.GroupmeService.ChainStep | src/service.ts:38-40 | a non-empty page extends the chain, and its last id is the next cursor |
| Service.GroupmeService.ChainAt | src/service.ts:33-40 | every page of the chain is non-empty and is what the request after the earlier pages gave |
| Service.GroupmeService.RequestCursor | src/service.ts:30-40 | the first request has no `before_id`; every later one has the last id of the page before, unless that id is empty |

## Left out

- The terminal and prompt flow: `getConversationType`, `getConversationId`, `promptSaveChatHistory`, the confirm loop of `promptOutputDir`, `process.exit`, and the wiring in `src/app.ts`. These are I/O glue; only the validate and normalise expressions are modelled.
- `logMessage`. It draws from `Math.random` and moves the terminal cursor.
- Service.GroupmeService.DownloadContent never aborts through `logMessage`. In the source, `logMessage` (`src/utils.ts:115-121`) can throw a `TypeError` on a page of fewer than five messages: when `Number(lastMessageId) % randomFactor === 0`, `messages[startMessageIndex]` is `undefined` and its `created_at` is read. That rejects `downloadContent` (`src/service.ts:41`), and the model does not capture this error path, so its `Exported` outcome also covers such runs.
- `getConversations`, and the real HTTP client. `axios.get` is the `Server` oracle, and a media fetch is a member of `failures`.
- Streams and the file system: `response.data.pipe`, the stream `finish` event, `fs.existsSync` and `fs.mkdirSync`. A written file is a flag, and a path is its four components.
- `path.join` normalisation. The components are kept as handed to it.
- Concurrency. The callbacks of one `Promise.all` run in order. This keeps the naming faithful: `createFilename` runs before the first `await` of each callback.
- Downloads.DownloadBatch: all fetches of a failing batch are modelled as settled, and their successes as written. In the source, later writes of that batch may still be in flight when the call rejects.
- The un-awaited calls of `initiateDownloadMediaFiles` (`src/service.ts:47`) and `downloadContent` (`src/app.ts`). The model runs the download to its end before `DownloadContent` returns.
- The `chatId` argument of `initiateDownloadMediaFiles`, passed on as `otherUserId` of `downloadMediaFiles`. It is never used there, so it is not a parameter.
- Console output and the spinner, including the progress arithmetic.
- The real `setTimeout`. The waits are counted.
- Time zones. `moment.unix` and `new Date` give local dates, and `localDate` stands for them. Years outside 0..9999 are not modelled: `CalendarDate` bounds the year so that it renders as four digits.
- The `moment` value: a descriptor holds only its calendar date, since only the date is formatted.
- Reading a descriptor's URL as falsy covers only the empty string. Undefined and null URLs are not modelled.
- The attachment's own `created_at` and `name` are never read, so they are not modelled.
- Service.GroupmeService.DownloadContent requires that paging ends within some number of requests, with an empty page or an error. A server that never sends an empty page makes the source loop forever, and that run is not modelled.
- Service.GroupmeService.MakeRequestWithRetries: the error of a failed try is a string, and the `axios` error object and `error.message` are not modelled.
- A response that is not an array at `data.response.direct_messages` gives the error `TypeError`. This covers the placeholder's `null` data and a groups reply, whose array sits under another field. JavaScript's other exceptions are not modelled.
- The dictionary keyed by the formatted date is keyed by the date itself. `Naming.DateStringInjective` shows the two count the same.

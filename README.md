# Quill: a Dafny model of the upload, chat and viewer core

Quill lets a signed-in user upload PDF or CSV files, have them split into documents and
indexed under the file's id, and then chat about a file. This project models the parts of
the Next.js application that decide what happens, with the third-party services turned into
inputs:

- **Upload handling** (`UploadThing`, `StripePlans`, `Session`). The upload middleware's
  authentication check and the plan table are modelled. So is `onUploadComplete`: the
  duplicate-key early return, the `PROCESSING` record, the file type taken from the name,
  the `pdf`/`csv` loader dispatch, the per-plan page quota, and indexing under the record's
  id, with `FAILED` on every error path. The file table, its key index and the vector
  namespaces are fields of a `FileStore` class that the handler updates in place.
- **Message endpoint** (`SendMessageValidator`, `MessageRoute`). Covers the zod schema over
  a JSON value, the 401 / schema error / 404 / store ordering of `POST /api/message`, and a
  message table that gains exactly one row on success.
- **Chat context** (`ChatContext`). The optimistic updater of the infinite message list,
  the streamed `ai-response` upsert, and the mutation lifecycle (`onMutate`, the streaming
  loop of `onSuccess`, `onError`, `onSettled`) as methods of a `ChatSession` class.
- **Utilities** (`Utils`). `absoluteUrl` over an explicit environment record, and
  `constructMetadata` with optional arguments.
- **Auth callback** (`AuthCallback`). The page's decision between spinner, nothing,
  navigation and the fallback message.
- **PDF viewer** (`PdfRenderer`). The page-number validator over a model of `Number`, the
  previous/next updaters, zoom, rotation and the `isLoading` flag, as a `PdfViewer` class.
- **Dashboard** (`Dashboard`). The in-place newest-first sort of the fetched files, the
  grid / skeleton / empty-state choice, and the `currentlyDeletingFile` tracker.

Calls to the database, the auth session, the loaders, the embedding model, the vector
index, `fetch` and the clock are not executed by the model. The answers of the loaders
(`LoadOutcome`), the vector index (`IndexOutcome`), `fetch` (`FetchOutcome`) and the auth
session (the user), and the ids and timestamps, are parameters, so every outcome of those
is covered by the contracts. The database tables are the state of `FileStore` and
`MessageTable`; their reads and writes always succeed in the model (see "## Left out").

`POST /api/message` stores the user's message and returns nothing
(`src/app/api/message/route.ts:40-42`); no assistant answer exists, so none is modelled.
Upload records are written `PROCESSING`, then `FAILED` or `SUCCESS`; `PENDING` is never
written.

## Model

| member | source | states |
|---|---|---|
| StripePlans.FindPlan | src/config/stripe.ts:1-28 | a found plan is in the table and carries the name asked for; nothing is found exactly when no plan has that name |
| StripePlans.FindPlanByOwnName | src/config/stripe.ts:1-28 | in a table with distinct names, looking up a plan's own name finds that plan (lookup is deterministic) |
| StripePlans.PlanTable | src/config/stripe.ts:1-28 | exactly two plans with distinct names; Free is 5 pages per PDF, quota 10, amount 0; Pro is 25 pages, quota 50, amount 100 |
| StripePlans.ProExceedsFree | src/config/stripe.ts:5-6 | Pro's pages per PDF and quota are both strictly greater than Free's |
| Session.UserId | src/app/api/uploadthing/core.ts:22-26 | an authenticated user's id is non-empty and is the id the session reports |
| UploadThing.Middleware | src/app/api/uploadthing/core.ts:17-27 | fails with "Unauthorized" exactly when there is no user or no user id; otherwise returns that user's id and the plan |
| UploadThing.RouteLimits | src/app/api/uploadthing/core.ts:154-167 | the four routes: CSV routes take text and PDF routes take PDFs; Free routes allow 4 MB and Pro routes 16 MB |
| UploadThing.FileTypeOf | src/app/api/uploadthing/core.ts:72 | the type has no '.', is a suffix of the name, and when shorter than the name is preceded by '.' (the text after the last dot) |
| UploadThing.FileTypeOfNoDot | src/app/api/uploadthing/core.ts:72 | a name without a dot is its own type |
| UploadThing.FileTypeOfExtension | src/app/api/uploadthing/core.ts:72 | `base + "." + ext` has type `ext` whenever `ext` has no dot |
| UploadThing.Dispatch | src/app/api/uploadthing/core.ts:32-51 | only "pdf" and "csv" can succeed, each with its own loader's documents; any other type is an unsupported-type error |
| UploadThing.ProcessFile | src/app/api/uploadthing/core.ts:32-51 | returns the dispatch result for the type and the loader outcomes |
| UploadThing.QuotaRule | src/app/api/uploadthing/core.ts:96-102 | the limit is 25 when subscribed and 5 otherwise; the quota is exceeded exactly for a PDF with strictly more pages than the limit |
| UploadThing.QuotaBoundary | src/app/api/uploadthing/core.ts:96-102 | a PDF with exactly the limit's page count passes; one more page is rejected |
| UploadThing.IngestOutcome | src/app/api/uploadthing/core.ts:85-151 | the status is SUCCESS or FAILED; SUCCESS exactly when dispatch succeeded, the quota was not exceeded and indexing succeeded; documents are indexed exactly on SUCCESS and they are the loaded ones |
| UploadThing.UnsupportedTypeFails | src/app/api/uploadthing/core.ts:37-48 | a type other than pdf or csv ends FAILED with nothing indexed |
| UploadThing.QuotaRejectionFails | src/app/api/uploadthing/core.ts:100-115 | a PDF over the limit ends FAILED and no indexing is attempted, whatever the index would have done |
| UploadThing.CsvIgnoresQuota | src/app/api/uploadthing/core.ts:100-102 | a CSV's outcome is the same whatever its row count and plan; only its loader and the index decide it |
| UploadThing.FreePlanScenarios | src/app/api/uploadthing/core.ts:96-139 | on the Free plan a 3-page PDF is indexed and ends SUCCESS; a 30-page PDF ends FAILED |
| UploadThing.FileUrlReadsBack | src/app/api/uploadthing/core.ts:79 | the stored url is the utfs prefix followed by the key, the key can be read back from it, and two urls are equal exactly when their keys are |
| UploadThing.FileStore.constructor | src/app/api/uploadthing/core.ts:53-152 | the store starts empty and consistent |
| UploadThing.FileStore.FindByKey | src/app/api/uploadthing/core.ts:65-69 | finds a record exactly when some record has the key, and returns a stored record with that key |
| UploadThing.FileStore.Create | src/app/api/uploadthing/core.ts:74-83 | adds exactly the new PROCESSING record and its key, and records the PROCESSING write in the history; the store stays consistent |
| UploadThing.FileStore.MarkFailed | src/app/api/uploadthing/core.ts:100-150 | sets exactly that record's status to FAILED, records that write in the history, and changes nothing else |
| UploadThing.FileStore.MarkIndexed | src/app/api/uploadthing/core.ts:117-139 | stores the documents under the record's id as namespace and sets its status to SUCCESS, only together, and records the SUCCESS write |
| UploadThing.FileStore.Ingest | src/app/api/uploadthing/core.ts:85-151 | the record ends with the status of `IngestOutcome`, its namespace holds the documents exactly when that is SUCCESS, and exactly that one status write is added to the history |
| UploadThing.FileStore.OnUploadComplete | src/app/api/uploadthing/core.ts:53-152 | an existing key returns at once and writes nothing; otherwise exactly one record is created with the utfs url and the type from the name, and its status writes are exactly PROCESSING then the ingestion outcome |
| SendMessageValidator.FieldIssues | src/lib/validators/SendMesssageValidator.ts:5-8 | an issue is reported for a field exactly when that field is missing or not a string, and no other issue is reported |
| SendMessageValidator.Parse | src/lib/validators/SendMesssageValidator.ts:5-8 | accepts exactly an object whose fileId and message are both strings (any length, empty included) and returns them; a non-object is rejected as such; a rejection always carries an issue |
| SendMessageValidator.Encode | src/lib/validators/SendMesssageValidator.ts:5-8 | a request is an object with exactly the two fields |
| SendMessageValidator.ParseEncode | src/lib/validators/SendMesssageValidator.ts:5-8 | parsing an encoded request gives it back |
| SendMessageValidator.ParseIgnoresOtherKeys | src/lib/validators/SendMesssageValidator.ts:5-8 | extra keys do not change the parse result |
| MessageRoute.FindOwnedFile | src/app/api/message/route.ts:22-27 | finds a file exactly when one has both the requested id and the caller's user id |
| MessageRoute.Decide | src/app/api/message/route.ts:6-42 | 401 comes before the body is checked, a schema error before the lookup, 404 exactly when no owned file matches, and storing exactly when all three checks pass |
| MessageRoute.ForeignFileNotFound | src/app/api/message/route.ts:22-29 | a valid request for a file owned by someone else gets 404 |
| MessageRoute.MessageTable.constructor | src/app/api/message/route.ts:31-38 | the table starts empty |
| MessageRoute.MessageTable.Post | src/app/api/message/route.ts:6-42 | the outcome is `Decide`'s; only a stored outcome appends exactly one row, holding the text, isUserMessage true, the caller's id and the file id |
| ChatContext.InsertOptimistic | src/context/ChatContext.tsx:75-103 | no cached data gives empty pages and params; cached data with pages gets the message prepended to page 0 with the other pages and the params unchanged; zero pages is a TypeError |
| ChatContext.FlattenReplaceFirst | src/context/ChatContext.tsx:97-108 | flattening after replacing page 0 is the new page followed by the remaining pages' messages |
| ChatContext.InsertOptimisticFlatten | src/context/ChatContext.tsx:75-103 | after the optimistic insert, the flat message list is the new message followed by the messages from before it |
| ChatContext.RollbackAsWritten | src/context/ChatContext.tsx:66-109 | the context as the source computes it: a snapshot of the keyed entry is flattened after the in-place insert, so it is the new message followed by the messages from before; a read that finds nothing gives no messages; another entry gives that entry's messages |
| ChatContext.RollbackKeepsOptimistic | src/context/ChatContext.tsx:66-109 | as written, the rollback of the keyed entry starts with the optimistic message, and a missed read rolls back to nothing; neither is the list from before the insert |
| ChatContext.IntendedRollbackUndoesInsert | src/context/ChatContext.tsx:66-109 | the list after the insert, without its first message, is exactly the list from before it, which is the rollback evidently intended |
| ChatContext.SetAiText | src/context/ChatContext.tsx:158-178 | same length; `ai-response` messages get the new text and every other message is unchanged |
| ChatContext.UpsertAiResponse | src/context/ChatContext.tsx:137-181 | with no ai-response anywhere, one holding the text is prepended to page 0; otherwise only page 0's ai-response messages get the text; other pages and params never change |
| ChatContext.SetAiTextNoAi | src/context/ChatContext.tsx:158-178 | without an ai-response the messages are left exactly as they were |
| ChatContext.UpsertHasAiResponse | src/context/ChatContext.tsx:140-178 | after an upsert on cached pages an ai-response exists |
| ChatContext.SetAiTextTwice | src/context/ChatContext.tsx:158-178 | setting the text twice is the same as setting it once to the later text |
| ChatContext.SetAiTextAfterInsert | src/context/ChatContext.tsx:140-178 | the text update after the prepend only changes the prepended message |
| ChatContext.UpsertTwice | src/context/ChatContext.tsx:129-181 | a second upsert replaces the first's text and keeps its timestamp, so the cache after any number of reads holds only the latest accumulated text |
| ChatContext.AiCountAppend | src/context/ChatContext.tsx:140-178 | the ai-response count of a concatenation is the sum of the counts |
| ChatContext.AiCountSetAiText | src/context/ChatContext.tsx:158-178 | replacing texts keeps the number of ai-response messages |
| ChatContext.HasAiResponseCount | src/context/ChatContext.tsx:140-143 | the "is there an ai-response" test holds exactly when the count is positive |
| ChatContext.MessagesHaveAi | src/context/ChatContext.tsx:140-143 | a message list has an ai-response exactly when its count is positive |
| ChatContext.UpsertLeavesOneAiResponse | src/context/ChatContext.tsx:137-181 | starting from at most one ai-response, an upsert leaves exactly one |
| ChatContext.InsertOptimisticAiCount | src/context/ChatContext.tsx:83-102 | the optimistic user message adds no ai-response |
| ChatContext.SendKeepsOneAiResponse | src/context/ChatContext.tsx:75-180 | from a cache with at most one `ai-response`, neither the optimistic insert of a non-`ai-response` message nor the upsert of any answer text after it makes a second one |
| ChatContext.ChatSession.constructor | src/context/ChatContext.tsx:37-42 | empty input and backup, not loading, the given cache, no flat slot, no invalidations |
| ChatContext.ChatSession.HandleInputChange | src/context/ChatContext.tsx:205-207 | only the input text changes |
| ChatContext.ChatSession.OnMutate | src/context/ChatContext.tsx:59-110 | the typed text is backed up and the input cleared, loading starts, the cache takes the optimistic insert (unchanged when the updater throws, with no context), and the context is `RollbackAsWritten` of the entry the snapshot read finds |
| ChatContext.ChatSession.OnSuccess | src/context/ChatContext.tsx:111-184 | loading stops; with no body nothing changes; otherwise the text is the in-order concatenation of the chunks read (the loop invariant after every read), the cache is one upsert of it, or unchanged when the very first read rejects, and a rejected read is reported as a throw |
| ChatContext.ChatSession.OnError | src/context/ChatContext.tsx:185-196 | the input is restored from the backup and the flat message slot is set to the snapshot (or empty) |
| ChatContext.ChatSession.OnSettled | src/context/ChatContext.tsx:197-202 | loading stops and the message query is invalidated once |
| ChatContext.ChatSession.AddMessage | src/context/ChatContext.tsx:44-208 | one send: the typed text is backed up and inserted; a thrown updater, a failed request or a rejected read restores the input and writes the context as the source computes it to the flat slot, after any upserts already made; a complete stream leaves the input empty with the whole answer upserted; always one invalidation and loading off; the optimistic message and the answer carry their own timestamps; with a non-`ai-response` optimistic id, a cache holding at most one `ai-response` still holds at most one after the send |
| Utils.AbsoluteUrl | src/lib/utils.ts:9-14 | the path unchanged in the browser; "https://" + VERCEL_URL + path when VERCEL_APP is set; otherwise "http://localhost:" + (PORT or 3000) + path |
| Utils.AbsoluteUrlEndsWithPath | src/lib/utils.ts:9-14 | every result ends with the path |
| Utils.ConstructMetadata | src/lib/utils.ts:15-57 | title, description and icons default when absent; title and description are copied into openGraph and twitter; the image is openGraph's only image url and twitter's only image; robots noindex/nofollow is present exactly when noIndex is true |
| Utils.DefaultMetadata | src/lib/utils.ts:15-27 | with no argument: the default title and description, /thumbnail.png, /favicon.ico and no robots entry |
| AuthCallback.RedirectTargetReadsBack | src/app/auth-callback/page.tsx:38 | the target is always a path: "/" + origin for a non-empty origin, read back from it so distinct origins go to distinct pages, and "/dashboard" otherwise; origin "dashboard" goes where no origin does |
| AuthCallback.Decide | src/app/auth-callback/page.tsx:8-47 | loading shows the spinner and never navigates; an error with data renders nothing and goes to /sign-in only for UNAUTHORIZED; success navigates to the redirect target; everything else, including an error without data, is the fallback |
| AuthCallback.DecideNavigation | src/app/auth-callback/page.tsx:16-40 | navigation happens exactly when loading is over and either the error data is UNAUTHORIZED or there is no error data and the data reports success |
| PdfRenderer.JsNumber | src/components/PdfRenderer.tsx:43-45 | a number exactly for digit strings (empty string included), with their decimal value |
| PdfRenderer.NatToString | src/components/PdfRenderer.tsx:77 | a non-empty digit string without leading zeros |
| PdfRenderer.NumberOfString | src/components/PdfRenderer.tsx:60-63 | reading back the string of a number gives the number |
| PdfRenderer.PageValidRange | src/components/PdfRenderer.tsx:43-45 | the field validates exactly when it reads as a number in 1..numPages; for the string of k that is 0 < k <= numPages; with an unknown page count nothing validates |
| PdfRenderer.PreviousPage | src/components/PdfRenderer.tsx:74-76 | the updater as written: moves back one page exactly when the page is above 2, otherwise stays |
| PdfRenderer.PreviousNeverReachesFirstPage | src/components/PdfRenderer.tsx:74-76 | as written, from page 2 or beyond the page never gets below 2 |
| PdfRenderer.IntendedPreviousPage | src/components/PdfRenderer.tsx:72-77 | the corrected updater: never below page 1, one page back from any page above 1 |
| PdfRenderer.IntendedPreviousAgreesWithField | src/components/PdfRenderer.tsx:72-77 | when enabled, the corrected updater lands on the page the field shows; the one as written does not on page 2 |
| PdfRenderer.NextPage | src/components/PdfRenderer.tsx:106 | never beyond the page count; one page forward whenever that is within the count |
| PdfRenderer.Percent | src/components/PdfRenderer.tsx:127-134 | each zoom level is one of 50, 75, 100, 150, 200, 250 percent |
| PdfRenderer.PdfViewer.constructor | src/components/PdfRenderer.tsx:34-57 | page 1, 100 percent, rotation 0, nothing rendered, field "1", so loading |
| PdfRenderer.PdfViewer.OnLoadSuccess | src/components/PdfRenderer.tsx:161 | records the page count and nothing else |
| PdfRenderer.PdfViewer.EditPageField | src/components/PdfRenderer.tsx:86-87 | typing changes only the field |
| PdfRenderer.PdfViewer.SubmitPage | src/components/PdfRenderer.tsx:43-96 | accepted exactly when the field validates; then the page becomes the field's number, which lies in 1..numPages, and the field keeps its text; otherwise the page is unchanged |
| PdfRenderer.PdfViewer.Previous | src/components/PdfRenderer.tsx:71-78 | enabled exactly above page 1; then one page back (corrected updater) and the field shows that page |
| PdfRenderer.PdfViewer.PreviousAsWritten | src/components/PdfRenderer.tsx:71-78 | the button as written: enabled exactly above page 1, the page follows `PreviousPage` and the field shows the old page minus one, so from page 2 the page stays 2 while the field reads 1 |
| PdfRenderer.PdfViewer.Next | src/components/PdfRenderer.tsx:104-109 | enabled exactly when the count is known and not reached; then the page follows `NextPage` and stays within the count, and the field shows the old page plus one |
| PdfRenderer.PdfViewer.SetZoom | src/components/PdfRenderer.tsx:127-134 | sets the scale to the level; loading holds exactly when that is not the rendered scale |
| PdfRenderer.PdfViewer.Rotate | src/components/PdfRenderer.tsx:138-139 | adds 90 degrees, with no wrap-around |
| PdfRenderer.PdfViewer.OnRenderSuccess | src/components/PdfRenderer.tsx:194 | the rendered scale becomes the scale, so loading ends |
| Dashboard.SortNewestFirst | src/components/Dashboard.tsx:48-53 | the array ends in non-increasing createdAt order and is a permutation of what it held |
| Dashboard.Body | src/components/Dashboard.tsx:46-112 | the grid exactly for a defined non-empty list; otherwise six skeletons exactly while loading; otherwise the empty state |
| Dashboard.BodyPrecedence | src/components/Dashboard.tsx:46-112 | a non-empty list wins over loading; an empty or missing list shows skeletons while loading and the empty state after |
| Dashboard.DeleteTracker.constructor | src/components/Dashboard.tsx:20 | nothing is being deleted |
| Dashboard.DeleteTracker.OnMutate | src/components/Dashboard.tsx:28-30 | marks the file id as being deleted |
| Dashboard.DeleteTracker.OnSuccess | src/components/Dashboard.tsx:25-27 | invalidates the file list once |
| Dashboard.DeleteTracker.OnSettled | src/components/Dashboard.tsx:31-33 | clears the mark |
| Dashboard.DeleteTracker.DeleteFile | src/components/Dashboard.tsx:24-34 | the id is marked while in flight and cleared afterwards whether the delete succeeded or not; the list is invalidated only on success |

## Findings

| source | as written | input that shows it | evidently intended | confidence | as-written member | corrected member |
|---|---|---|---|---|---|---|
| src/components/PdfRenderer.tsx:74-76 | the "previous" updater moves back only when `prev - 1 > 1`, so it never reaches page 1 | on page 2, "previous" is enabled; the page stays 2 while the field shows "1" | one page back, down to page 1, in step with the field | high, not executed | PdfRenderer.PreviousPage, PdfRenderer.PreviousNeverReachesFirstPage, PdfRenderer.PdfViewer.PreviousAsWritten | PdfRenderer.IntendedPreviousPage, PdfRenderer.IntendedPreviousAgreesWithField, PdfRenderer.PdfViewer.Previous |
| src/context/ChatContext.tsx:66-109 | the rollback context is read with `getInfiniteData()` without the `{ fileId, limit }` input the insert writes under, and flattened after the insert has reassigned `messages` of the shared first page object | a cache with one page holding one message: reading the keyed entry gives the optimistic message followed by that one, and a read that finds nothing gives no messages | the messages from before the insert, so that rolling back removes exactly the optimistic message | medium, not executed | ChatContext.RollbackAsWritten, ChatContext.RollbackKeepsOptimistic | ChatContext.Snapshot, ChatContext.IntendedRollbackUndoesInsert |

## Left out

- Loaders, embeddings and the vector index (PDFLoader, CSVLoader, OpenAI embeddings, Pinecone). Their results are the `LoadOutcome` and `IndexOutcome` parameters. The `maxConcurrency` setting and a partially written index after a failed batch are not modelled.
- The `fetch` of the uploaded blob and the auth session are not modelled as calls: their answers are parameters. The database tables are the state of `FileStore` and `MessageTable`, and their reads and writes always succeed (see "Failing database calls"); only the ids the database assigns, and the timestamps, are passed in.
- `getUserSubscriptionPlan`: only `isSubscribed` is used; its other fields are not modelled.
- The byte conversion of the routes' size limits: limits are stated in megabytes.
- How Next.js turns a thrown `Response` or `ZodError`, or an undefined return, into an HTTP response: the outcome is a `PostOutcome` value.
- A `req.json()` that fails on a body that is not JSON: the body is a `Json` value.
- The assistant answer: the route has none, so none is modelled.
- react-query's machinery: query cancellation, retries and the async ordering of callbacks. The callbacks run in the order the mutation calls them.
- ChatContext.ChatSession.OnSuccess: pages are values, so page identity `page === old.pages[0]` is modelled as index 0. The in-place edit of the first page object at `src/context/ChatContext.tsx:87` is modelled only through its one visible effect, on the snapshot (`RollbackAsWritten`).
- ChatContext.ChatSession.OnMutate: which cache entry the unkeyed `getInfiniteData()` returns depends on the query library's key matching, so it is the `SnapshotRead` input. The session models the rollback as written, and the corrected snapshot is stated separately (see Findings).
- ChatContext.ChatSession.OnError: the flat slot `{ fileId }` that `onError` writes is a separate field from the paged data under `{ fileId, limit }`. The model does not decide whether the two keys were meant to coincide.
- The `TextDecoder` and stream reader: chunks are strings. The final read (`done`) decodes to the empty string, so the updater runs once more than there are chunks.
- PdfRenderer.JsNumber: models `Number` on digit strings only. Whitespace, signs, decimals, exponents and hexadecimal are read as NaN, not as JavaScript reads them.
- PdfRenderer.PdfViewer.SetZoom: scales are integer percentages, not the source's floating-point factors.
- Rendering and JSX of every component, toasts, resize detection, `cn` and styling.
- Dashboard.SortNewestFirst: an insertion sort stands for the engine's sort, so stability among equal timestamps is not claimed. Dates are their millisecond timestamps, and the fact that the sort reorders the cached array is not modelled beyond the array it is given.
- Failing database calls: every read and write of `db.file` and `db.message` succeeds in the model. So the model does not cover these paths:
  - `db.file.create` throwing (`src/app/api/uploadthing/core.ts:74-83`), which rejects the upload handler before any record exists.
  - The `SUCCESS` update throwing (`src/app/api/uploadthing/core.ts:132-139`) after `PineconeStore.fromDocuments` has written the namespace (`src/app/api/uploadthing/core.ts:126-130`). The catch block then marks the record `FAILED` while its namespace holds documents, a state `FileStore.Valid` excludes.
  - The catch block's own `FAILED` update throwing (`src/app/api/uploadthing/core.ts:141-150`), which leaves the record `PROCESSING` and rejects the handler.
  - `db.message.create` throwing (`src/app/api/message/route.ts:31-38`), which `MessageTable.Post` does not cover.
  A file deleted by another request during ingestion, which makes the status update fail, is one cause of the second and third paths.
- `src/components/csvRenderer/CsvRenderer.tsx`, `src/components/Navbar.tsx`, `src/components/PdfFullScreen.tsx`, `src/components/DeleteButton.tsx`, `src/components/MaxWidthWrapper.tsx`, `src/trpc/trpc.ts`, `src/app/dashboard/[fileid]/page.tsx` and `next.config.mjs` are not part of this model.

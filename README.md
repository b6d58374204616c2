# Chat with a PDF: the conversation, the vector namespace and the upload hook

A Dafny model of the sequential logic of a Next.js application that lets a user upload a PDF and ask
questions about it. The repository's own logic is small. Everything around it is a service or a
library: Clerk, Postgres, Vercel Blob, Pinecone, HuggingFace embeddings, the LangChain retrieval chain
and the PDF loader and splitter. The model keeps the logic and replaces every service by an
in-memory table or an oracle parameter.

- `types.dfy` (module `Types`): `Option`, the `Outcome` of a foreign call (a value, or an exception
  with its reason), the application's own `Error`s with their message texts, and `Result`.
- `tables.dfy` (module `Tables`): the `chat_messages` table as a class. It holds an append-only
  `seq<ChatRow>` and a clock that stands for the `created_at` default. Its invariant says insertion
  order is timestamp order. The module also declares the `FileRow` type and the Pinecone index, a
  class holding a map from namespace to chunks. The `files` table itself is a `seq<FileRow>`
  parameter of every operation that reads it, since the core never writes it.
- `langchain.dfy` (module `Langchain`, lib/langchain.ts): the history query and its role mapping,
  the PDF url lookup of `generateDocs`, `namespaceExists`, and build-or-reuse of the document's
  namespace. Build-or-reuse is a method against the index, specified by the function
  `BuildOrReuse`. The module also builds the two prompt lists and runs
  `generateLangchainCompletion` in the source's step order.
- `ask_question.dfy` (module `AskQuestion`, actions/askQuestion.ts): the auth guard, then the human
  row, the completion and the ai row. Lemmas say what the cycle does to the history of its own
  conversation and of every other one.
- `use_upload.dfy` (module `UseUpload`, hooks/useUpload.ts): the hook as a class with `progress`,
  `status` and `fileId`, the number of interval timers left running, and ghost logs of every
  `setStatus` value and every progress value, in order. It also models the progress tick, the blob name and `saveFileMetadata`.

Oracles:
- `user: Option<string>` is what Clerk's `auth()` returns for the request. Every nested `auth()`
  call sees the same value.
- `load` is fetch, then `PDFLoader`, then the text splitter. It maps a url to chunks or an exception.
- `embed` is the HuggingFace embedding plus the Pinecone upsert done by `PineconeStore.fromDocuments`.
- `chain` is the conversational retrieval chain. It gets the vector store, both prompts, the history
  and the question, and returns the answer or throws.
- In the hook: `put`, `save` (the POST to the metadata route), `generate` (the embeddings server
  action), `newId` (`uuidv4()`), and `ticks`, the number of timer firings while `put` is pending.

Three facts about the code that the model keeps:
- `generateLangchainCompletion` obtains the vector store before it reads the history.
- No lock guards the build of a namespace.
- Whether to build is decided only by `namespaces?.[docId] !== undefined` on the stats object. That
  lookup also finds the properties every JavaScript object inherits, so an id such as
  "constructor" or "toString" counts as an existing namespace. Such an id is reused with nothing
  built, and the chain runs over an empty namespace. The upload flow only produces uuid ids, but
  the document id comes from the URL of the chat page, so a hand-typed id reaches this path.

## Model

| member | source | states |
|---|---|---|
| Tables.ChatMessagesTable.Insert | actions/askQuestion.ts:24-34 | an INSERT appends exactly one row stamped with the current clock, after every existing row and later than all of them; earlier rows are unchanged |
| Tables.PineconeIndex.DescribeIndexStats | lib/langchain.ts:110 | the stats list exactly the index's namespaces with their record counts |
| Tables.PineconeIndex.Upsert | lib/langchain.ts:153-160 | into a namespace not yet present, the write puts the embedded chunks under it; a throwing embedding or an empty chunk list writes nothing |
| Langchain.SelectRows | lib/langchain.ts:31-36 | a row is selected iff it is in the table and has the given file_id and user_id |
| Langchain.SelectRowsAscending | lib/langchain.ts:31-36 | on a table in timestamp order the selection is in ascending created_at order |
| Langchain.OrderedWithSameRowsEqual | lib/langchain.ts:36 | two created_at-ordered lists with the same rows are equal, so ORDER BY fixes the result |
| Langchain.OrderByCreatedAt | lib/langchain.ts:31-36 | any ascending list holding exactly the conversation's rows is the selection: the history is exactly the file and user's rows in created_at order |
| Langchain.SelectRowsAppend | lib/langchain.ts:31-36 | selecting from a grown table gives the old selection followed by the selection from the new rows |
| Langchain.SelectRowsOfNone | lib/langchain.ts:34-35 | rows of other conversations select nothing |
| Langchain.ToMessage | lib/langchain.ts:39-41 | a row becomes a message with its text, and a HumanMessage exactly when its role is "human" |
| Langchain.ToMessages | lib/langchain.ts:38-42 | the mapping keeps the length and each row's message text; role "human" gives a HumanMessage and every other role an AIMessage |
| Langchain.ToMessagesAppend | lib/langchain.ts:38-42 | the mapping is row by row, so it distributes over concatenation |
| Langchain.History | lib/langchain.ts:31-42 | a conversation's history has no more messages than the table has rows, and is empty exactly when no row belongs to that file and user |
| Langchain.FetchMessagesFromDB | lib/langchain.ts:27-46 | "User not found" exactly when no user is signed in, before any table read; otherwise the user's history for the document |
| Langchain.HistoryAppendOwn | lib/langchain.ts:31-42 | a row added to one's own conversation becomes the last history message |
| Langchain.HistoryAppendOther | lib/langchain.ts:31-42 | a row added to another conversation leaves this history unchanged |
| Langchain.FirstFileRow | lib/langchain.ts:58-64 | the row found belongs to the document and the user; none is found iff no such row exists |
| Langchain.Truthy | lib/langchain.ts:67 | the url counts as present unless it is NULL or the empty string, as JavaScript's `!` judges it |
| Langchain.PdfUrl | lib/langchain.ts:66-79 | a url is found iff the first matching row's url is neither NULL nor empty, and the url found is that same first row's url |
| Langchain.GenerateDocs | lib/langchain.ts:49-101 | "User not found" without a user; then "PDF URL not found in database" exactly when there is no usable url; otherwise the result is exactly the loader's on that url: the split PDF, or its exception |
| Langchain.NamespaceExists | lib/langchain.ts:105-112 | true iff the stats list the document id as a namespace or the id names a property inherited from Object.prototype; false only for an id the index does not hold |
| Langchain.BuildOrReuse | lib/langchain.ts:114-164 | no user: "User not found" and no write; a namespace the lookup finds (held by the index, or an inherited property name): reused with no write; otherwise: generateDocs's error, or the embedding's exception, is the result and nothing is written, and when both succeed the chunks are written under docId (none for an empty list) and the store of docId is returned; any write touches only namespace docId |
| Langchain.SecondCallReuses | lib/langchain.ts:131-143 | after one successful call whose PDF gave at least one chunk, a second call for the same document reuses the namespace and writes nothing, whatever the files and oracles then do |
| Langchain.EmptyPdfRebuilds | lib/langchain.ts:131-162 | a PDF that split into no chunks leaves no namespace, so the next call runs generateDocs again and fails with "PDF URL not found in database" when the row's url is gone |
| Langchain.InheritedNameReused | lib/langchain.ts:111-143 | an id naming an inherited property such as "constructor" is reused on every index, with nothing built or written, whatever the files table holds |
| Langchain.GenerateEmbeddingsInPineconeVectorStore | lib/langchain.ts:114-164 | the method's result and the index afterwards are those of BuildOrReuse on the index before |
| Langchain.HistoryEntries | lib/langchain.ts:186 | spreading the history gives one entry per message, in order |
| Langchain.RephrasePrompt | lib/langchain.ts:185-193 | history, then the user input template, then the rephrase instruction; length of history plus 2 |
| Langchain.AnswerPrompt | lib/langchain.ts:205-214 | the system context template, then the history, then the user input template; length of history plus 2 |
| Langchain.PromptHistoryAppend | lib/langchain.ts:185-214 | the conversation messages of a concatenated prompt are those of its parts, in order |
| Langchain.HistoryEntriesRoundTrip | lib/langchain.ts:186 | reading the messages back out of the spread history returns the history |
| Langchain.PromptsKeepHistory | lib/langchain.ts:185-214 | both prompts carry exactly the history, in its order, and no other conversation message |
| Langchain.Completion | lib/langchain.ts:166-240 | a failed store step is the result and the history is not consulted; otherwise the answer is the chain's reply verbatim for the store of docId, both prompts over the user's history, and the question |
| Langchain.GenerateLangchainCompletion | lib/langchain.ts:166-240 | the method returns Completion over the index and table before the call, and leaves the index as BuildOrReuse does |
| AskQuestion.CountHumanMessages | actions/askQuestion.ts:16-21 | the count of the user's human rows for the file is at most the conversation's size, and zero when there are none |
| AskQuestion.HumanMessageCount | actions/askQuestion.ts:16-21 | the number of human messages in a history is at most its length, and equals it exactly when every message is human |
| AskQuestion.CountHumanMessagesIsHistoryCount | actions/askQuestion.ts:16-21 | the COUNT(*) over the conversation's human rows is the number of human messages in its history |
| AskQuestion.AskQuestion | actions/askQuestion.ts:11-37 | no user: "Unauthorized", nothing inserted, index untouched; otherwise the human row first and the completion over the table that already holds it; on failure only that row stays; on success the ai row with the reply verbatim follows and the result is success true, message null |
| AskQuestion.QuestionPrecedesCompletion | actions/askQuestion.ts:24-29 | the history the completion reads is the earlier history followed by the question just stored |
| AskQuestion.AnsweredCycleHistory | actions/askQuestion.ts:24-34 | an answered cycle adds exactly the question then the reply to its conversation |
| AskQuestion.OtherConversationsUnchanged | actions/askQuestion.ts:24-34 | rows appended for one (file, user) pair leave the history of every other pair unchanged |
| AskQuestion.FailedCycleAddsNoAnswer | actions/askQuestion.ts:26-34 | a failed cycle adds no AI message: every AI message still directly follows a human one, in every conversation |
| AskQuestion.AnsweredCycleKeepsPairs | actions/askQuestion.ts:24-34 | an answered cycle keeps every AI message directly after a human message, in every conversation |
| UseUpload.Tick | hooks/useUpload.ts:74-77 | null stays null, a value of at least 90 stays, any other value grows by 10 |
| UseUpload.TicksFromZero | hooks/useUpload.ts:67-78 | from 0, n firings give min(10n, 90), so progress stays within [0, 90] while put is pending |
| UseUpload.TicksFromNull | hooks/useUpload.ts:75 | from null, any number of firings leaves progress null |
| UseUpload.BlobName | hooks/useUpload.ts:70 | the path starts with users/{userId}/, ends with the file name, and is 14 characters longer than its three parts |
| UseUpload.BlobNameDeterminesUpload | hooks/useUpload.ts:70 | for ids without '/', the blob name users/{userId}/files/{fileId}/{name} determines the user id, file id and file name |
| UseUpload.SplitAtSlash | hooks/useUpload.ts:70 | a slash-free prefix followed by '/' can be split back off |
| UseUpload.SaveFileMetadata | hooks/useUpload.ts:32-54 | succeeds iff the POST returned an ok response; a non-ok response throws "Failed to save file metadata"; a failed fetch rethrows |
| UseUpload.StageAfterPut | hooks/useUpload.ts:86-108 | after put the run fails at the save exactly when saveFileMetadata fails on metadata with the new id, the user id and the blob url, and completes exactly when that save got an ok response and the embeddings returned |
| UseUpload.UploadStage | hooks/useUpload.ts:61-110 | the run fails at put exactly when put under the blob name throws; otherwise it goes on with the blob put returned |
| UseUpload.StatusSteps | hooks/useUpload.ts:66-118 | every run sets UPLOADING first; one past put sets UPLOADED then SAVING; the last status is GENERATING iff the run completed and null iff it failed; a failed save never reaches GENERATING, a failed embedding ends GENERATING then null |
| UseUpload.StatusTextsDistinct | hooks/useUpload.ts:8-13 | the four status texts are pairwise different, so the text shown names the step reached |
| UseUpload.TickValues | hooks/useUpload.ts:73-78 | the k-th timer firing of a run started at 0 sets the progress reached after k ticks, one value per firing |
| UseUpload.ProgressAfterPut | hooks/useUpload.ts:86-118 | after a failed put the only value is null; otherwise 100 first, and 100 is the last value exactly when the run completed |
| UseUpload.ProgressSteps | hooks/useUpload.ts:67-118 | a run's progress values: 0 first, then one per firing, then null right after a failed put or 100 right after a returned one; the last value is null exactly when the run failed |
| UseUpload.ProgressWhilePutPending | hooks/useUpload.ts:67-78 | while put is pending the k-th reported value is min(10k, 90), so it stays within [0, 90] |
| UseUpload.UploadHook.IntervalFires | hooks/useUpload.ts:73-78 | a timer firing applies the tick to progress, logs the new value and changes nothing else |
| UseUpload.UploadHook.StartUpload | hooks/useUpload.ts:66-78 | UPLOADING with progress 0, one more running timer, then the timer's firings while put is pending |
| UseUpload.UploadHook.TimerWhilePutPending | hooks/useUpload.ts:73-78 | n firings take progress from 0 to the value after n ticks and log each value; nothing else changes |
| UseUpload.UploadHook.FinishUpload | hooks/useUpload.ts:81-118 | a thrown put resets status and progress and leaves the timer running; a returned one clears the timer and goes on with the save and the embeddings |
| UseUpload.UploadHook.HandleUpload | hooks/useUpload.ts:56-120 | no file or no user: nothing changes; otherwise the status log is StatusSteps and the progress log ProgressSteps of the stage reached (0, the timer values, then 100 after a returned put); success leaves progress 100, GENERATING and fileId the new id; any failure leaves status and progress null and fileId as before; only a failed put leaves a timer running |
| UseUpload.UploadHook.SaveAndGenerate | hooks/useUpload.ts:86-110 | after put: progress 100 (logged on every path, so also while SAVING before a failure), UPLOADED, SAVING, the save with the same fileId and userId and the blob url, GENERATING, the embeddings, then fileId; a failure resets status and progress |

## Left out

- The LLM and the chain internals: history-aware retriever, stuff-documents chain, retrieval chain and Gemini. They are foreign code; the oracle `chain` stands for them and gets everything they are built from.
- Similarity search, retrieval ranking and the vectors themselves: they use floating point and foreign code. A chunk is an opaque value.
- PDF download, text extraction and `RecursiveCharacterTextSplitter`: the oracle `load` stands for them. The source does not check the fetch response's status, so that case is in the oracle too.
- The `namespace === null` guard of `namespaceExists` (lib/langchain.ts:109): `docId` is typed as a string and never null on the paths modelled, so the guard cannot fire.
- The "Pinecone vector store not found" guard (lib/langchain.ts:173-175): `generateEmbeddingsInPineconeVectorStore` either throws or returns a store, so the guard cannot fire. The model keeps the order: store first, then history.
- The second url check of `generateDocs` (lib/langchain.ts:77-79) repeats the first (lines 67-69) and cannot fire. One check models both.
- Failures of Postgres statements: every SELECT and INSERT is taken to succeed. In the code, each failure ends `askQuestion` with that exception. If the COUNT query (actions/askQuestion.ts:16-21) or the human-row INSERT (24-26) throws, nothing is stored and the index is untouched. If the ai-row INSERT (32-34) throws, the human row stays and the namespace built by the completion stays, like a failed completion.
- Tables.PineconeIndex.DescribeIndexStats: the stats request cannot fail in the model. In the code it is a network call whose exception would end `generateEmbeddingsInPineconeVectorStore` with no write, like a failed build.
- The `!userId` guards (lib/langchain.ts:29, 53, 117 and actions/askQuestion.ts:13) also reject an empty user id. The model treats only a missing user as signed out, since Clerk never issues an empty id.
- GenerateDocs: a `files` query without ORDER BY has no defined row order; the model takes the first matching row in table order.
- Tables.PineconeIndex.Upsert: a partially written upsert is not modelled; an embedding that throws writes nothing. A Pinecone namespace exists only while it holds records, so an empty chunk list leaves none.
- Concurrency: the source has no lock, and two concurrent first calls could both build the namespace (lib/langchain.ts:131-160). The model is sequential. Timer timing is reduced to a count of firings (`ticks`).
- React state batching: the hook records every `setStatus` value in order. React may render only some of them.
- FileMetadata carries no `uploadedAt` (a clock reading). Parsing the metadata route's JSON response is not modelled.
- `console.log` output, the UI components, the upload and save-file-metadata routes, the chat history route, and the `generateEmbeddings` server action. The hook calls that action through the oracle `generate`.
- The `id` serial column of `chat_messages` is not modelled. The clock gives distinct timestamps, so two rows never share a `created_at`.

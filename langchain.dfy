/** lib/langchain.ts: reading the conversation history, locating and splitting the PDF,
    building or reusing the document's Pinecone namespace, and assembling the two prompts
    the retrieval chain is run with. The chain, the splitter, the embeddings and the
    similarity search are foreign code and enter as oracle parameters. */
module Langchain {
  import opened Types
  import opened Tables

  /** The LangChain message a history row becomes. */
  datatype ChatMessage = HumanMessage(content: string) | AIMessage(content: string)

  /** One element of the list given to `ChatPromptTemplate.fromMessages`: a message
      spread in from the history, or a `[role, template]` pair. */
  datatype PromptEntry = HistoryMessage(message: ChatMessage) | Template(role: string, text: string)

  /** A `PineconeStore` bound to one namespace of the index. */
  datatype VectorStore = VectorStore(namespace: string)

  /** Everything the conversational retrieval chain is built from and invoked with:
      the store its retriever searches, the rephrase prompt, the answer prompt, and the
      `{chat_history, input}` of the `invoke` call. */
  datatype ChainInput = ChainInput(
    store: VectorStore,
    rephrasePrompt: seq<PromptEntry>,
    answerPrompt: seq<PromptEntry>,
    chatHistory: seq<ChatMessage>,
    input: string)

  /** The outcome of one build-or-reuse: what it returns and the index's namespaces after it. */
  datatype IndexStep = IndexStep(result: Result<VectorStore>, namespaces: map<string, seq<Chunk>>)

  const InputTemplate := "{input}"
  const RephraseInstruction := "Given the above conversation, generate a search query to look up in order to get information relevant to the conversation"
  const SystemTemplate := "Role: You are a helpful assistant with a friendly and engaging personality.You are an expert in analyzing & summarizing documents and answering questions based on the below context provided:\n\n{context}"

  // ---------------------------------------------------------------------------
  // Conversation history (fetchMessagesFromDB)
  // ---------------------------------------------------------------------------

  predicate InConversation(row: ChatRow, fileId: string, userId: string) {
    row.fileId == fileId && row.userId == userId
  }

  /** The rows of one (file, user) conversation, in table order. */
  function SelectRows(rows: seq<ChatRow>, fileId: string, userId: string): (r: seq<ChatRow>)
    ensures forall row :: row in r <==> row in rows && InConversation(row, fileId, userId)
    ensures |r| <= |rows|
  {
    if rows == [] then []
    else
      (if InConversation(rows[0], fileId, userId) then [rows[0]] else []) + SelectRows(rows[1..], fileId, userId)
  }

  /** The selection keeps the table's timestamp order. */
  lemma {:induction false} SelectRowsAscending(rows: seq<ChatRow>, fileId: string, userId: string)
    requires StrictlyIncreasing(rows)
    ensures StrictlyIncreasing(SelectRows(rows, fileId, userId))
  {
    if rows != [] {
      var tail := rows[1..];
      assert StrictlyIncreasing(tail) by {
        forall i, j | 0 <= i < j < |tail| ensures tail[i].createdAt < tail[j].createdAt {
          assert tail[i] == rows[i + 1] && tail[j] == rows[j + 1];
        }
      }
      SelectRowsAscending(tail, fileId, userId);
      var rest := SelectRows(tail, fileId, userId);
      forall k | 0 <= k < |rest| ensures rows[0].createdAt < rest[k].createdAt {
        assert rest[k] in tail;
        var m :| 0 <= m < |tail| && tail[m] == rest[k];
        assert tail[m] == rows[m + 1];
      }
    }
  }

  /** Dropping the first row keeps a list in timestamp order. */
  lemma TailAscending(a: seq<ChatRow>)
    requires StrictlyIncreasing(a) && a != []
    ensures StrictlyIncreasing(a[1..])
  {
  }

  /** In a list in timestamp order the first row is strictly the earliest. */
  lemma HeadEarliest(a: seq<ChatRow>)
    requires StrictlyIncreasing(a) && a != []
    ensures forall row :: row in a[1..] ==> a[0].createdAt < row.createdAt
    ensures forall row :: row in a ==> a[0].createdAt <= row.createdAt
  {
  }

  /** Two timestamp-ordered lists of the same rows are the same list. */
  lemma {:induction false} OrderedWithSameRowsEqual(a: seq<ChatRow>, b: seq<ChatRow>)
    requires StrictlyIncreasing(a) && StrictlyIncreasing(b)
    requires forall row :: row in a <==> row in b
    ensures a == b
  {
    assert a != [] ==> a[0] in b;
    assert b != [] ==> b[0] in a;
    if a != [] {
      HeadEarliest(a);
      HeadEarliest(b);
      assert a[0].createdAt == b[0].createdAt;
      assert a[0] !in b[1..];
      assert a[0] == b[0] by {
        assert b == [b[0]] + b[1..];
      }
      var a', b' := a[1..], b[1..];
      TailAscending(a);
      TailAscending(b);
      assert a == [a[0]] + a' && b == [b[0]] + b';
      forall row ensures row in a' <==> row in b' {
        if row in a' {
          assert row in a && row != a[0];
          assert row in b && row != b[0];
        }
        if row in b' {
          assert row in b && row != b[0];
          assert row in a && row != a[0];
        }
      }
      OrderedWithSameRowsEqual(a', b');
    }
  }

  /** `ORDER BY created_at ASC`: on a table whose insertion order is its timestamp
      order, the selection is the one ascending list of exactly the rows of the
      conversation, so it is what the query returns. */
  lemma OrderByCreatedAt(rows: seq<ChatRow>, fileId: string, userId: string, ordered: seq<ChatRow>)
    requires StrictlyIncreasing(rows)
    requires StrictlyIncreasing(ordered)
    requires forall row :: row in ordered <==> row in rows && InConversation(row, fileId, userId)
    ensures ordered == SelectRows(rows, fileId, userId)
  {
    SelectRowsAscending(rows, fileId, userId);
    OrderedWithSameRowsEqual(ordered, SelectRows(rows, fileId, userId));
  }

  /** Rows none of which belong to the conversation select nothing. */
  lemma {:induction false} SelectRowsOfNone(rows: seq<ChatRow>, fileId: string, userId: string)
    requires forall row :: row in rows ==> !InConversation(row, fileId, userId)
    ensures SelectRows(rows, fileId, userId) == []
  {
    if rows != [] {
      assert rows[0] in rows;
      SelectRowsOfNone(rows[1..], fileId, userId);
    }
  }

  /** Selecting from a table that has grown is selecting from the old rows, then from the new. */
  lemma {:induction false} SelectRowsAppend(rows: seq<ChatRow>, extra: seq<ChatRow>, fileId: string, userId: string)
    ensures SelectRows(rows + extra, fileId, userId) == SelectRows(rows, fileId, userId) + SelectRows(extra, fileId, userId)
  {
    if rows == [] {
      assert rows + extra == extra;
    } else {
      assert (rows + extra)[0] == rows[0];
      assert (rows + extra)[1..] == rows[1..] + extra;
      SelectRowsAppend(rows[1..], extra, fileId, userId);
    }
  }

  /** A row with role "human" becomes a human message; any other role an AI message. */
  function ToMessage(row: ChatRow): (m: ChatMessage)
    ensures m.content == row.message
    ensures m.HumanMessage? <==> row.role == "human"
  {
    if row.role == "human" then HumanMessage(row.message) else AIMessage(row.message)
  }

  /** The history mapping: one message per row, in row order, with the row's text, and
      human exactly for the rows whose role is "human". */
  function ToMessages(rows: seq<ChatRow>): (r: seq<ChatMessage>)
    ensures |r| == |rows|
    ensures forall i :: 0 <= i < |rows| ==>
      r[i].content == rows[i].message && (r[i].HumanMessage? <==> rows[i].role == "human")
  {
    seq(|rows|, i requires 0 <= i < |rows| => ToMessage(rows[i]))
  }

  lemma ToMessagesAppend(a: seq<ChatRow>, b: seq<ChatRow>)
    ensures ToMessages(a + b) == ToMessages(a) + ToMessages(b)
  {
  }

  /** The chat history of one (file, user) conversation. */
  function History(rows: seq<ChatRow>, fileId: string, userId: string): (h: seq<ChatMessage>)
    ensures |h| <= |rows|
    ensures h == [] <==> forall row :: row in rows ==> !InConversation(row, fileId, userId)
  {
    var selected := SelectRows(rows, fileId, userId);
    assert selected != [] ==> selected[0] in selected;
    ToMessages(selected)
  }

  /** `fetchMessagesFromDB`: "User not found" exactly when no user is signed in, before the
      table is read; otherwise the signed-in user's history for the document. */
  function FetchMessagesFromDB(user: Option<string>, rows: seq<ChatRow>, docId: string): (r: Result<seq<ChatMessage>>)
    ensures r.Err? <==> user.None?
    ensures r.Err? ==> r.error == UserNotFound && r.error.Message() == "User not found"
    ensures r.Ok? ==> r.value == History(rows, docId, user.value)
  {
    match user
    case None => Err(UserNotFound)
    case Some(userId) => Ok(History(rows, docId, userId))
  }

  /** A row appended to one's own conversation shows up as the last history message. */
  lemma HistoryAppendOwn(rows: seq<ChatRow>, row: ChatRow, fileId: string, userId: string)
    requires InConversation(row, fileId, userId)
    ensures History(rows + [row], fileId, userId) == History(rows, fileId, userId) + [ToMessage(row)]
  {
    SelectRowsAppend(rows, [row], fileId, userId);
    assert SelectRows([row], fileId, userId) == [row];
    ToMessagesAppend(SelectRows(rows, fileId, userId), [row]);
  }

  /** A row appended to another conversation leaves this one's history as it was. */
  lemma HistoryAppendOther(rows: seq<ChatRow>, row: ChatRow, fileId: string, userId: string)
    requires !InConversation(row, fileId, userId)
    ensures History(rows + [row], fileId, userId) == History(rows, fileId, userId)
  {
    SelectRowsAppend(rows, [row], fileId, userId);
    assert SelectRows([row], fileId, userId) == [];
    assert SelectRows(rows, fileId, userId) + [] == SelectRows(rows, fileId, userId);
  }

  // ---------------------------------------------------------------------------
  // The PDF behind a document (generateDocs)
  // ---------------------------------------------------------------------------

  /** The first `files` row for the document and user, if there is one. */
  function FirstFileRow(files: seq<FileRow>, docId: string, userId: string): (r: Option<FileRow>)
    ensures r.Some? ==> r.value in files && r.value.fileId == docId && r.value.userId == userId
    ensures r.None? <==> forall row :: row in files ==> !(row.fileId == docId && row.userId == userId)
  {
    if files == [] then None
    else if files[0].fileId == docId && files[0].userId == userId then Some(files[0])
    else FirstFileRow(files[1..], docId, userId)
  }

  /** JavaScript truthiness of the `url` column: NULL and the empty string are false. */
  predicate Truthy(url: Option<string>): (t: bool)
    ensures t <==> url != None && url != Some("")
  {
    url.Some? && url.value != ""
  }

  /** The PDF's location, when the first matching `files` row carries a non-empty url. */
  function PdfUrl(files: seq<FileRow>, docId: string, userId: string): (url: Option<string>)
    ensures url.Some? ==> url.value != "" && FileRow(docId, userId, url) in files
    ensures url.Some? ==> url == FirstFileRow(files, docId, userId).value.url
    ensures url.None? <==> FirstFileRow(files, docId, userId).None? || !Truthy(FirstFileRow(files, docId, userId).value.url)
  {
    match FirstFileRow(files, docId, userId)
    case None => None
    case Some(row) => if Truthy(row.url) then row.url else None
  }

  /** `generateDocs`: the user guard, then the url guard, then fetch, load and split the
      PDF (`load`, a foreign call whose exception propagates). */
  function GenerateDocs(user: Option<string>, files: seq<FileRow>, docId: string,
                        load: string -> Outcome<seq<Chunk>>): (r: Result<seq<Chunk>>)
    ensures user.None? ==> r == Err(UserNotFound)
    ensures user.Some? ==> (r == Err(PdfUrlNotFound) <==> PdfUrl(files, docId, user.value).None?)
    ensures r == Err(PdfUrlNotFound) ==> r.error.Message() == "PDF URL not found in database"
    ensures r.Ok? ==>
              (user.Some? && PdfUrl(files, docId, user.value).Some? &&
               load(PdfUrl(files, docId, user.value).value) == Returned(r.value))
    ensures user.Some? && PdfUrl(files, docId, user.value).Some? ==>
              r == Lift(load(PdfUrl(files, docId, user.value).value))
    ensures r.Err? && r.error.Foreign? ==>
              (user.Some? && PdfUrl(files, docId, user.value).Some? &&
               load(PdfUrl(files, docId, user.value).value) == Threw(r.error.reason))
  {
    match user
    case None => Err(UserNotFound)
    case Some(userId) =>
      match PdfUrl(files, docId, userId)
      case None => Err(PdfUrlNotFound)
      case Some(url) => Lift(load(url))
  }

  // ---------------------------------------------------------------------------
  // Build-or-reuse of the document's namespace
  // ---------------------------------------------------------------------------

  /** The property names every JavaScript object inherits from `Object.prototype`. Looking
      one of them up in the stats' `namespaces` object finds the inherited member, which
      is never `undefined`. */
  const ObjectPrototypeKeys: set<string> :=
    {"constructor", "__proto__", "hasOwnProperty", "isPrototypeOf", "propertyIsEnumerable",
     "toString", "toLocaleString", "valueOf", "__defineGetter__", "__defineSetter__",
     "__lookupGetter__", "__lookupSetter__"}

  /** `namespaces?.[namespace] !== undefined` on the stats object: a namespace the index
      holds, or the name of an inherited property. */
  predicate Listed(namespaces: map<string, seq<Chunk>>, namespace: string) {
    namespace in namespaces || namespace in ObjectPrototypeKeys
  }

  /** `namespaceExists`: whether the lookup of the namespace in the index's stats finds
      anything. */
  method NamespaceExists(index: PineconeIndex, namespace: string) returns (found: bool)
    ensures found <==> namespace in index.DescribeIndexStats() || namespace in ObjectPrototypeKeys
    ensures found <==> Listed(index.namespaces, namespace)
    ensures !found ==> namespace !in index.namespaces
  {
    var stats := index.DescribeIndexStats();
    found := namespace in stats || namespace in ObjectPrototypeKeys;
  }

  /** What `generateEmbeddingsInPineconeVectorStore` returns and leaves behind, given the
      namespaces before the call. */
  function BuildOrReuse(namespaces: map<string, seq<Chunk>>, user: Option<string>, files: seq<FileRow>,
                        docId: string, load: string -> Outcome<seq<Chunk>>,
                        embed: seq<Chunk> -> Outcome<()>): (s: IndexStep)
    // the user guard, then reuse of an existing namespace
    ensures user.None? ==> s == IndexStep(Err(UserNotFound), namespaces)
    ensures user.Some? && Listed(namespaces, docId) ==> s == IndexStep(Ok(VectorStore(docId)), namespaces)
    // a missing namespace is built from generateDocs; its errors and the embedding's propagate
    ensures user.Some? && !Listed(namespaces, docId) ==>
              (var docs := GenerateDocs(user, files, docId, load);
               (docs.Err? ==> s == IndexStep(Err(docs.error), namespaces)) &&
               (docs.Ok? && embed(docs.value).Threw? ==>
                  s == IndexStep(Err(Foreign(embed(docs.value).reason)), namespaces)) &&
               (docs.Ok? && embed(docs.value).Returned? && docs.value != [] ==>
                  s == IndexStep(Ok(VectorStore(docId)), namespaces[docId := docs.value])) &&
               (docs.Ok? && embed(docs.value).Returned? && docs.value == [] ==>
                  s == IndexStep(Ok(VectorStore(docId)), namespaces)))
    // what any call promises
    ensures s.result.Ok? ==> user.Some? && s.result.value == VectorStore(docId)
    ensures s.result.Ok? ==>
              (docId in s.namespaces || docId in ObjectPrototypeKeys ||
               GenerateDocs(user, files, docId, load) == Ok([]))
    ensures s.result.Err? ==> s.namespaces == namespaces
    ensures s.namespaces != namespaces ==>
              (user.Some? && !Listed(namespaces, docId) && s.result.Ok? &&
               s.namespaces == namespaces[docId := s.namespaces[docId]] && s.namespaces[docId] != [] &&
               GenerateDocs(user, files, docId, load) == Ok(s.namespaces[docId]) &&
               embed(s.namespaces[docId]).Returned?)
  {
    if user.None? then IndexStep(Err(UserNotFound), namespaces)
    else if Listed(namespaces, docId) then IndexStep(Ok(VectorStore(docId)), namespaces)
    else
      match GenerateDocs(user, files, docId, load)
      case Err(e) => IndexStep(Err(e), namespaces)
      case Ok(docs) =>
        match embed(docs)
        case Threw(reason) => IndexStep(Err(Foreign(reason)), namespaces)
        case Returned(_) =>
          IndexStep(Ok(VectorStore(docId)), if docs == [] then namespaces else namespaces[docId := docs])
  }

  /** Idempotence: once a call has succeeded with a PDF that split into at least one chunk,
      a later call for the same document reuses the namespace and writes nothing, whatever
      the files table and the foreign calls do then. */
  lemma SecondCallReuses(namespaces: map<string, seq<Chunk>>, user: Option<string>, files: seq<FileRow>,
                         docId: string, load: string -> Outcome<seq<Chunk>>, embed: seq<Chunk> -> Outcome<()>,
                         laterFiles: seq<FileRow>, laterLoad: string -> Outcome<seq<Chunk>>,
                         laterEmbed: seq<Chunk> -> Outcome<()>)
    requires BuildOrReuse(namespaces, user, files, docId, load, embed).result.Ok?
    requires Listed(namespaces, docId) || GenerateDocs(user, files, docId, load) != Ok([])
    ensures var first := BuildOrReuse(namespaces, user, files, docId, load, embed);
            BuildOrReuse(first.namespaces, user, laterFiles, docId, laterLoad, laterEmbed)
              == IndexStep(Ok(VectorStore(docId)), first.namespaces)
  {
  }

  /** A PDF that splits into no chunks leaves no namespace behind, so the next call for the
      document starts over: it looks the PDF up again and fails if its row has gone. */
  lemma EmptyPdfRebuilds(namespaces: map<string, seq<Chunk>>, userId: string, files: seq<FileRow>,
                         docId: string, load: string -> Outcome<seq<Chunk>>, embed: seq<Chunk> -> Outcome<()>,
                         laterFiles: seq<FileRow>, laterLoad: string -> Outcome<seq<Chunk>>,
                         laterEmbed: seq<Chunk> -> Outcome<()>)
    requires !Listed(namespaces, docId)
    requires GenerateDocs(Some(userId), files, docId, load) == Ok([]) && embed([]).Returned?
    ensures var first := BuildOrReuse(namespaces, Some(userId), files, docId, load, embed);
            first == IndexStep(Ok(VectorStore(docId)), namespaces) &&
            BuildOrReuse(first.namespaces, Some(userId), laterFiles, docId, laterLoad, laterEmbed)
              == BuildOrReuse(namespaces, Some(userId), laterFiles, docId, laterLoad, laterEmbed)
    ensures PdfUrl(laterFiles, docId, userId).None? ==>
              BuildOrReuse(namespaces, Some(userId), laterFiles, docId, laterLoad, laterEmbed).result
                == Err(PdfUrlNotFound)
  {
  }

  /** An id that names an inherited property, such as "constructor", passes the existence
      test on every index: it is reused with nothing built and nothing written, even when
      the index holds no namespace and the files table no row for it. */
  lemma InheritedNameReused(namespaces: map<string, seq<Chunk>>, userId: string, files: seq<FileRow>,
                            docId: string, load: string -> Outcome<seq<Chunk>>,
                            embed: seq<Chunk> -> Outcome<()>)
    requires docId in ObjectPrototypeKeys
    ensures BuildOrReuse(namespaces, Some(userId), files, docId, load, embed)
              == IndexStep(Ok(VectorStore(docId)), namespaces)
  {
  }

  /** `generateEmbeddingsInPineconeVectorStore`: the user guard, then the namespace check;
      an existing namespace is reused, otherwise the split PDF is embedded and written
      under namespace `docId`. */
  method GenerateEmbeddingsInPineconeVectorStore(index: PineconeIndex, user: Option<string>,
                                                 files: seq<FileRow>, docId: string,
                                                 load: string -> Outcome<seq<Chunk>>,
                                                 embed: seq<Chunk> -> Outcome<()>)
    returns (r: Result<VectorStore>)
    modifies index
    ensures IndexStep(r, index.namespaces) == BuildOrReuse(old(index.namespaces), user, files, docId, load, embed)
  {
    if user.None? {
      return Err(UserNotFound);
    }
    var namespaceAlreadyExists := NamespaceExists(index, docId);
    if namespaceAlreadyExists {
      // PineconeStore.fromExistingIndex: bound to the namespace, nothing embedded
      return Ok(VectorStore(docId));
    }
    var splitDocs := GenerateDocs(user, files, docId, load);
    match splitDocs {
      case Err(e) =>
        r := Err(e);
      case Ok(docs) =>
        // PineconeStore.fromDocuments
        var written := index.Upsert(docId, docs, embed);
        r := if written.Returned? then Ok(VectorStore(docId)) else Err(Foreign(written.reason));
    }
  }

  // ---------------------------------------------------------------------------
  // The two prompts
  // ---------------------------------------------------------------------------

  /** `...chatHistory` inside a message list. */
  function HistoryEntries(history: seq<ChatMessage>): (r: seq<PromptEntry>)
    ensures |r| == |history|
    ensures forall i :: 0 <= i < |history| ==> r[i] == HistoryMessage(history[i])
  {
    seq(|history|, i requires 0 <= i < |history| => HistoryMessage(history[i]))
  }

  /** The history-aware (rephrase) prompt: the history, then the question, then the
      instruction to write a standalone search query. */
  function RephrasePrompt(history: seq<ChatMessage>): (p: seq<PromptEntry>)
    ensures |p| == |history| + 2
    ensures p[..|history|] == HistoryEntries(history)
    ensures p[|history|] == Template("user", InputTemplate)
    ensures p[|history| + 1] == Template("user", RephraseInstruction)
  {
    HistoryEntries(history) + [Template("user", InputTemplate), Template("user", RephraseInstruction)]
  }

  /** The answer prompt: the system message holding the retrieved context, then the
      history, then the question. */
  function AnswerPrompt(history: seq<ChatMessage>): (p: seq<PromptEntry>)
    ensures |p| == |history| + 2
    ensures p[0] == Template("system", SystemTemplate)
    ensures p[1..|history| + 1] == HistoryEntries(history)
    ensures p[|history| + 1] == Template("user", InputTemplate)
  {
    [Template("system", SystemTemplate)] + HistoryEntries(history) + [Template("user", InputTemplate)]
  }

  /** The conversation messages a prompt carries, in prompt order. */
  function PromptHistory(p: seq<PromptEntry>): (h: seq<ChatMessage>)
    ensures |h| <= |p|
  {
    if p == [] then []
    else (if p[0].HistoryMessage? then [p[0].message] else []) + PromptHistory(p[1..])
  }

  lemma {:induction false} PromptHistoryAppend(a: seq<PromptEntry>, b: seq<PromptEntry>)
    ensures PromptHistory(a + b) == PromptHistory(a) + PromptHistory(b)
  {
    if a == [] {
      assert a + b == b;
    } else {
      assert (a + b)[0] == a[0];
      assert (a + b)[1..] == a[1..] + b;
      PromptHistoryAppend(a[1..], b);
    }
  }

  lemma {:induction false} HistoryEntriesRoundTrip(history: seq<ChatMessage>)
    ensures PromptHistory(HistoryEntries(history)) == history
  {
    if history != [] {
      var entries := HistoryEntries(history);
      assert entries[1..] == HistoryEntries(history[1..]);
      HistoryEntriesRoundTrip(history[1..]);
      assert history == [history[0]] + history[1..];
    }
  }

  /** Both prompts carry exactly the history, in its order, and nothing else from the
      conversation: the templates around it are not messages of the history. */
  lemma PromptsKeepHistory(history: seq<ChatMessage>)
    ensures PromptHistory(RephrasePrompt(history)) == history
    ensures PromptHistory(AnswerPrompt(history)) == history
  {
    var entries := HistoryEntries(history);
    var question := [Template("user", InputTemplate)];
    var instruction := [Template("user", RephraseInstruction)];
    var system := [Template("system", SystemTemplate)];
    HistoryEntriesRoundTrip(history);
    assert PromptHistory(question) == [];
    assert PromptHistory(instruction) == [];
    assert PromptHistory(system) == [];
    assert RephrasePrompt(history) == entries + (question + instruction);
    PromptHistoryAppend(question, instruction);
    PromptHistoryAppend(entries, question + instruction);
    assert AnswerPrompt(history) == system + (entries + question);
    PromptHistoryAppend(entries, question);
    PromptHistoryAppend(system, entries + question);
  }

  // ---------------------------------------------------------------------------
  // generateLangchainCompletion
  // ---------------------------------------------------------------------------

  /** What `generateLangchainCompletion` returns: the vector store comes first (its
      failure ends the call before the history is read), then the history, then one
      invocation of the chain, whose answer is returned verbatim. */
  function Completion(namespaces: map<string, seq<Chunk>>, rows: seq<ChatRow>, user: Option<string>,
                      files: seq<FileRow>, docId: string, question: string,
                      load: string -> Outcome<seq<Chunk>>, embed: seq<Chunk> -> Outcome<()>,
                      chain: ChainInput -> Outcome<string>): (r: Result<string>)
    ensures BuildOrReuse(namespaces, user, files, docId, load, embed).result.Err? ==>
              r == Err(BuildOrReuse(namespaces, user, files, docId, load, embed).result.error)
    ensures r.Ok? ==>
              (user.Some? &&
               var history := History(rows, docId, user.value);
               chain(ChainInput(VectorStore(docId), RephrasePrompt(history), AnswerPrompt(history), history, question))
                 == Returned(r.value))
    ensures r.Err? && BuildOrReuse(namespaces, user, files, docId, load, embed).result.Ok? ==>
              (user.Some? && r.error.Foreign? &&
               var history := History(rows, docId, user.value);
               chain(ChainInput(VectorStore(docId), RephrasePrompt(history), AnswerPrompt(history), history, question))
                 == Threw(r.error.reason))
  {
    match BuildOrReuse(namespaces, user, files, docId, load, embed).result
    case Err(e) => Err(e)
    case Ok(store) =>
      match FetchMessagesFromDB(user, rows, docId)
      case Err(e) => Err(e)
      case Ok(history) =>
        Lift(chain(ChainInput(store, RephrasePrompt(history), AnswerPrompt(history), history, question)))
  }

  /** `generateLangchainCompletion` run against the index and the chat table. */
  method GenerateLangchainCompletion(index: PineconeIndex, chat: ChatMessagesTable, user: Option<string>,
                                     files: seq<FileRow>, docId: string, question: string,
                                     load: string -> Outcome<seq<Chunk>>, embed: seq<Chunk> -> Outcome<()>,
                                     chain: ChainInput -> Outcome<string>)
    returns (r: Result<string>)
    modifies index
    ensures r == Completion(old(index.namespaces), chat.rows, user, files, docId, question, load, embed, chain)
    ensures index.namespaces == BuildOrReuse(old(index.namespaces), user, files, docId, load, embed).namespaces
  {
    var pineconeVectorStore := GenerateEmbeddingsInPineconeVectorStore(index, user, files, docId, load, embed);
    match pineconeVectorStore {
      case Err(e) =>
        r := Err(e);
      case Ok(store) =>
        // the embedding step has already turned away a missing user
        var fetched := FetchMessagesFromDB(user, chat.rows, docId);
        var chatHistory := fetched.value;
        var historyAwarePrompt := RephrasePrompt(chatHistory);
        var historyAwareRetrievalPrompt := AnswerPrompt(chatHistory);
        var reply := chain(ChainInput(store, historyAwarePrompt, historyAwareRetrievalPrompt, chatHistory, question));
        r := Lift(reply);
    }
  }
}

/** actions/askQuestion.ts: one question-answer cycle. The question is stored as a human
    row before the completion runs; the answer is stored as an ai row only when the
    completion returns one. */
module AskQuestion {
  import opened Types
  import opened Tables
  import opened Langchain

  /** The server action's `{ success, message }` reply. */
  datatype AskReply = AskReply(success: bool, message: Option<string>)

  /** The human messages the user has sent about the file (the count the action reads
      and then ignores). */
  function CountHumanMessages(rows: seq<ChatRow>, fileId: string, userId: string): (n: nat)
    ensures n <= |SelectRows(rows, fileId, userId)|
    ensures n == 0 <== forall row :: row in rows ==> !(InConversation(row, fileId, userId) && row.role == "human")
  {
    if rows == [] then 0
    else
      (if InConversation(rows[0], fileId, userId) && rows[0].role == "human" then 1 else 0)
        + CountHumanMessages(rows[1..], fileId, userId)
  }

  /** The human messages of a conversation, counted on its history. */
  function HumanMessageCount(history: seq<ChatMessage>): (n: nat)
    ensures n <= |history|
    ensures n == |history| <==> forall i :: 0 <= i < |history| ==> history[i].HumanMessage?
  {
    if history == [] then 0
    else (if history[0].HumanMessage? then 1 else 0) + HumanMessageCount(history[1..])
  }

  /** The row count the action reads is the number of human messages in the
      conversation's history, so the query counts the right rows. */
  lemma {:induction false} CountHumanMessagesIsHistoryCount(rows: seq<ChatRow>, fileId: string, userId: string)
    ensures CountHumanMessages(rows, fileId, userId) == HumanMessageCount(History(rows, fileId, userId))
  {
    if rows != [] {
      CountHumanMessagesIsHistoryCount(rows[1..], fileId, userId);
      var head := if InConversation(rows[0], fileId, userId) then [rows[0]] else [];
      var rest := SelectRows(rows[1..], fileId, userId);
      assert SelectRows(rows, fileId, userId) == head + rest;
      ToMessagesAppend(head, rest);
      var h := ToMessages(head) + History(rows[1..], fileId, userId);
      if head == [] {
        assert h == History(rows[1..], fileId, userId);
      } else {
        assert ToMessages(head) == [ToMessage(rows[0])];
        assert h[0] == ToMessage(rows[0]) && h[1..] == History(rows[1..], fileId, userId);
      }
    }
  }

  /** `askQuestion`: the auth guard, the unused count, the human row, the completion,
      and the ai row holding the reply verbatim. */
  method AskQuestion(chat: ChatMessagesTable, index: PineconeIndex, user: Option<string>,
                     files: seq<FileRow>, id: string, question: string,
                     load: string -> Outcome<seq<Chunk>>, embed: seq<Chunk> -> Outcome<()>,
                     chain: ChainInput -> Outcome<string>)
    returns (r: Result<AskReply>)
    requires chat.Valid()
    modifies chat, index
    ensures chat.Valid()
    ensures user.None? ==>
              r == Err(Unauthorized) && r.error.Message() == "Unauthorized" && chat.rows == old(chat.rows) && chat.clock == old(chat.clock) &&
              index.namespaces == old(index.namespaces)
    ensures user.Some? ==>
              (var asked := old(chat.rows) + [ChatRow(id, user.value, "human", question, old(chat.clock))];
               var reply := Completion(old(index.namespaces), asked, user, files, id, question, load, embed, chain);
               index.namespaces == BuildOrReuse(old(index.namespaces), user, files, id, load, embed).namespaces &&
               (reply.Err? ==> r == Err(reply.error) && chat.rows == asked) &&
               (reply.Ok? ==>
                  r == Ok(AskReply(true, None)) &&
                  chat.rows == asked + [ChatRow(id, user.value, "ai", reply.value, old(chat.clock) + 1)]))
  {
    if user.None? {
      return Err(Unauthorized);
    }
    var userId := user.value;
    var messageCount := CountHumanMessages(chat.rows, id, userId);
    chat.Insert(id, userId, "human", question);
    var reply := GenerateLangchainCompletion(index, chat, user, files, id, question, load, embed, chain);
    match reply {
      case Err(e) =>
        r := Err(e);
      case Ok(answer) =>
        chat.Insert(id, userId, "ai", answer);
        r := Ok(AskReply(true, None));
    }
  }

  /** The history the completion reads is the earlier history followed by the question
      just stored, so it always ends with that question. */
  lemma QuestionPrecedesCompletion(rows: seq<ChatRow>, id: string, userId: string, question: string, stamp: nat)
    ensures History(rows + [ChatRow(id, userId, "human", question, stamp)], id, userId)
              == History(rows, id, userId) + [HumanMessage(question)]
  {
    HistoryAppendOwn(rows, ChatRow(id, userId, "human", question, stamp), id, userId);
  }

  /** After an answered cycle the conversation has grown by the question and the reply,
      in that order and nothing else. */
  lemma AnsweredCycleHistory(rows: seq<ChatRow>, id: string, userId: string, question: string,
                             reply: string, stamp: nat)
    ensures History(rows + [ChatRow(id, userId, "human", question, stamp), ChatRow(id, userId, "ai", reply, stamp + 1)], id, userId)
              == History(rows, id, userId) + [HumanMessage(question), AIMessage(reply)]
  {
    var human := ChatRow(id, userId, "human", question, stamp);
    var ai := ChatRow(id, userId, "ai", reply, stamp + 1);
    assert rows + [human, ai] == (rows + [human]) + [ai];
    HistoryAppendOwn(rows, human, id, userId);
    HistoryAppendOwn(rows + [human], ai, id, userId);
  }

  /** Rows stored for one (file, user) pair never appear in, or change, the history of
      any other pair. */
  lemma OtherConversationsUnchanged(rows: seq<ChatRow>, added: seq<ChatRow>, id: string, userId: string,
                                    fileId: string, otherUser: string)
    requires forall row :: row in added ==> InConversation(row, id, userId)
    requires fileId != id || otherUser != userId
    ensures History(rows + added, fileId, otherUser) == History(rows, fileId, otherUser)
  {
    SelectRowsAppend(rows, added, fileId, otherUser);
    SelectRowsOfNone(added, fileId, otherUser);
    assert SelectRows(rows, fileId, otherUser) + [] == SelectRows(rows, fileId, otherUser);
  }

  /** Every AI message answers the human message right before it. */
  ghost predicate AnswersFollowQuestions(history: seq<ChatMessage>) {
    forall i :: 0 <= i < |history| && history[i].AIMessage? ==> i > 0 && history[i - 1].HumanMessage?
  }

  /** A cycle whose completion failed leaves the question unanswered and adds no AI
      message anywhere: every conversation keeps its answers after their questions. */
  lemma FailedCycleAddsNoAnswer(rows: seq<ChatRow>, id: string, userId: string, question: string, stamp: nat,
                                fileId: string, anyUser: string)
    requires AnswersFollowQuestions(History(rows, fileId, anyUser))
    ensures AnswersFollowQuestions(History(rows + [ChatRow(id, userId, "human", question, stamp)], fileId, anyUser))
  {
    var human := ChatRow(id, userId, "human", question, stamp);
    if InConversation(human, fileId, anyUser) {
      HistoryAppendOwn(rows, human, fileId, anyUser);
      var h := History(rows, fileId, anyUser);
      var h' := h + [HumanMessage(question)];
      forall i | 0 <= i < |h'| && h'[i].AIMessage? ensures i > 0 && h'[i - 1].HumanMessage? {
        assert i < |h| && h'[i] == h[i];
        if i > 0 { assert h'[i - 1] == h[i - 1]; }
      }
    } else {
      HistoryAppendOther(rows, human, fileId, anyUser);
    }
  }

  /** An answered cycle keeps every AI message right after the question it answers. */
  lemma AnsweredCycleKeepsPairs(rows: seq<ChatRow>, id: string, userId: string, question: string,
                                reply: string, stamp: nat, fileId: string, anyUser: string)
    requires AnswersFollowQuestions(History(rows, fileId, anyUser))
    ensures AnswersFollowQuestions(History(rows + [ChatRow(id, userId, "human", question, stamp),
                                                   ChatRow(id, userId, "ai", reply, stamp + 1)], fileId, anyUser))
  {
    var human := ChatRow(id, userId, "human", question, stamp);
    var ai := ChatRow(id, userId, "ai", reply, stamp + 1);
    var added := [human, ai];
    if InConversation(human, fileId, anyUser) {
      AnsweredCycleHistory(rows, id, userId, question, reply, stamp);
      var h := History(rows, fileId, anyUser);
      var h' := h + [HumanMessage(question), AIMessage(reply)];
      forall i | 0 <= i < |h'| && h'[i].AIMessage? ensures i > 0 && h'[i - 1].HumanMessage? {
        if i < |h| {
          assert h'[i] == h[i];
          if i > 0 { assert h'[i - 1] == h[i - 1]; }
        } else {
          assert i == |h| + 1 && h'[i - 1] == HumanMessage(question);
        }
      }
    } else {
      OtherConversationsUnchanged(rows, added, id, userId, fileId, anyUser);
    }
  }
}

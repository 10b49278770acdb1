/**
 * The session of the chat front end: the current thread id, the sidebar's
 * thread list and the displayed message history, and the handlers that
 * change them (new chat, selecting a thread, submitting a message).
 *
 * Widgets, streaming and id generation are not modelled: a fresh thread id,
 * the stored conversation of a selected thread and the streamed reply are
 * parameters of the handlers.
 */
module ChatFrontend {
  import opened Wrappers
  import opened Text
  import opened ChatTypes
  import ChatBackend

  /** The placeholder title of a thread nobody has written in yet. */
  const DefaultTitle: string := "New Chat"

  /** Renamed titles keep at most this many characters of the first input. */
  const TitleLength: nat := 30

  datatype Role = User | Assistant

  /** A displayed message: `{"role": ..., "content": ...}`. */
  datatype ChatEntry = ChatEntry(role: Role, content: string)

  /** `add_thread` on a list: append the entry only when its id is absent. */
  function WithThread(ts: seq<ThreadInfo>, id: string, title: string): seq<ThreadInfo> {
    if id in IdSet(ts) then ts else ts + [ThreadInfo(id, title)]
  }

  /** The thread is listed afterwards, and nothing else is added. */
  lemma WithThreadIds(ts: seq<ThreadInfo>, id: string, title: string)
    ensures IdSet(WithThread(ts, id, title)) == IdSet(ts) + {id}
  {
    IdSetAppend(ts, ThreadInfo(id, title));
  }

  /** Existing entries stay in place and in order; at most one is added, at the end. */
  lemma WithThreadExtends(ts: seq<ThreadInfo>, id: string, title: string)
    ensures ts <= WithThread(ts, id, title)
    ensures |WithThread(ts, id, title)| == |ts| + (if id in IdSet(ts) then 0 else 1)
  {
  }

  /** Adding a thread twice is adding it once, whatever the second title. */
  lemma WithThreadIdempotent(ts: seq<ThreadInfo>, id: string, title: string, title': string)
    ensures WithThread(WithThread(ts, id, title), id, title') == WithThread(ts, id, title)
  {
    WithThreadIds(ts, id, title);
  }

  lemma WithThreadDistinct(ts: seq<ThreadInfo>, id: string, title: string)
    requires DistinctIds(ts)
    ensures DistinctIds(WithThread(ts, id, title))
  {
    var r := WithThread(ts, id, title);
    if id !in IdSet(ts) {
      forall i, j | 0 <= i < j < |r| ensures r[i].id != r[j].id {
        if j == |ts| {
          assert r[i].id == ts[i].id && ts[i].id in IdSet(ts);
        }
      }
    }
  }

  /** The new title: the first 30 characters of the input, marked with "..." when cut. */
  function NewTitle(input: string): string {
    Prefix(input, TitleLength) + (if |input| > TitleLength then "..." else "")
  }

  /**
   * The title is never longer than 33 characters; an input that fits is kept
   * as it is, a longer one is cut to its first 30 characters followed by the
   * ellipsis.
   */
  lemma NewTitleShape(input: string)
    ensures |NewTitle(input)| <= TitleLength + 3
    ensures |input| <= TitleLength ==> NewTitle(input) == input
    ensures |input| > TitleLength ==>
      NewTitle(input) == input[..TitleLength] + "..." && |NewTitle(input)| == TitleLength + 3
  {
    if |input| <= TitleLength {
      assert Prefix(input, TitleLength) == input;
    } else {
      assert Prefix(input, TitleLength) == input[..TitleLength];
    }
  }

  /** One step of the rename loop. */
  function RenameEntry(t: ThreadInfo, current: string, title: string): ThreadInfo {
    if t.id == current && t.title == DefaultTitle then t.(title := title) else t
  }

  /** The thread list after the rename loop has passed over every entry. */
  function Renamed(ts: seq<ThreadInfo>, current: string, title: string): seq<ThreadInfo> {
    seq(|ts|, k requires 0 <= k < |ts| => RenameEntry(ts[k], current, title))
  }

  /**
   * Renaming changes only the title of the current thread's entries still
   * called "New Chat"; every other entry, and every id, stays as it was.
   */
  lemma RenamedTouchesOnly(ts: seq<ThreadInfo>, current: string, title: string)
    ensures |Renamed(ts, current, title)| == |ts|
    ensures forall k :: 0 <= k < |ts| ==> Renamed(ts, current, title)[k].id == ts[k].id
    ensures forall k :: 0 <= k < |ts| && (ts[k].id != current || ts[k].title != DefaultTitle) ==>
      Renamed(ts, current, title)[k] == ts[k]
    ensures forall k :: 0 <= k < |ts| && ts[k].id == current && ts[k].title == DefaultTitle ==>
      Renamed(ts, current, title)[k].title == title
  {
  }

  lemma RenamedIds(ts: seq<ThreadInfo>, current: string, title: string)
    ensures IdSet(Renamed(ts, current, title)) == IdSet(ts)
    ensures DistinctIds(ts) ==> DistinctIds(Renamed(ts, current, title))
  {
    var r := Renamed(ts, current, title);
    forall id | id in IdSet(ts) ensures id in IdSet(r) {
      var i :| 0 <= i < |ts| && ts[i].id == id;
      assert r[i].id == id;
    }
  }

  /** With distinct ids at most one entry is renamed. */
  lemma RenamedAtMostOne(ts: seq<ThreadInfo>, current: string, title: string, i: int, j: int)
    requires DistinctIds(ts)
    requires 0 <= i < |ts| && 0 <= j < |ts|
    requires Renamed(ts, current, title)[i] != ts[i] && Renamed(ts, current, title)[j] != ts[j]
    ensures i == j
  {
  }

  /** A second pass with the same title changes nothing more. */
  lemma RenamedIdempotent(ts: seq<ThreadInfo>, current: string, title: string)
    ensures Renamed(Renamed(ts, current, title), current, title) == Renamed(ts, current, title)
  {
  }

  /**
   * The message conversion of a selected thread: a stored conversation that
   * is missing or empty shows nothing; otherwise every message is shown in
   * order, as the user's exactly when it is a human message.
   */
  method ToChatEntries(messages: Option<seq<Message>>) returns (entries: seq<ChatEntry>)
    ensures messages.None? ==> entries == []
    ensures messages.Some? ==> |entries| == |messages.value|
    ensures messages.Some? ==> forall k :: 0 <= k < |entries| ==>
      && entries[k].content == messages.value[k].content
      && (entries[k].role == User <==> messages.value[k].kind == Human)
  {
    entries := [];
    if messages.Some? && messages.value != [] {
      var msgs := messages.value;
      var i := 0;
      while i < |msgs|
        invariant 0 <= i <= |msgs|
        invariant |entries| == i
        invariant forall k :: 0 <= k < i ==>
          && entries[k].content == msgs[k].content
          && (entries[k].role == User <==> msgs[k].kind == Human)
      {
        var role := if msgs[i].kind == Human then User else Assistant;
        entries := entries + [ChatEntry(role, msgs[i].content)];
        i := i + 1;
      }
    }
  }

  /** The session state the script keeps between reruns. */
  class ChatSession {
    var threadId: string
    var chatThreads: seq<ThreadInfo>
    var messageHistory: seq<ChatEntry>

    /** The current thread is listed, and no thread is listed twice. */
    ghost predicate Valid()
      reads this
    {
      DistinctIds(chatThreads) && threadId in IdSet(chatThreads)
    }

    /**
     * Session setup: an empty history, a fresh thread id, the catalogue read
     * from the store, and the current thread added to it. A catalogue without
     * repeated ids, as the back end produces, gives a valid session.
     */
    constructor(initialId: string, retrieved: seq<ThreadInfo>)
      ensures threadId == initialId
      ensures chatThreads == WithThread(retrieved, initialId, DefaultTitle)
      ensures messageHistory == []
      ensures initialId in IdSet(chatThreads)
      ensures DistinctIds(retrieved) ==> Valid()
    {
      threadId := initialId;
      chatThreads := retrieved;
      messageHistory := [];
      new;
      AddThread(initialId, DefaultTitle);
      WithThreadIds(retrieved, initialId, DefaultTitle);
      if DistinctIds(retrieved) {
        WithThreadDistinct(retrieved, initialId, DefaultTitle);
      }
    }

    /** `add_thread`: append the entry in place unless the id is already listed. */
    method AddThread(id: string, title: string)
      modifies this`chatThreads
      ensures chatThreads == WithThread(old(chatThreads), id, title)
    {
      if id !in IdSet(chatThreads) {
        chatThreads := chatThreads + [ThreadInfo(id, title)];
      }
    }

    /**
     * The `add_thread` every rerun of the script performs for the current
     * thread; on a valid session it changes nothing.
     */
    method Rerun()
      modifies this`chatThreads
      ensures chatThreads == WithThread(old(chatThreads), threadId, DefaultTitle)
      ensures old(Valid()) ==> chatThreads == old(chatThreads)
    {
      AddThread(threadId, DefaultTitle);
    }

    /** `reset_chat` with the generated id `newId`. */
    method ResetChat(newId: string)
      modifies this
      ensures threadId == newId
      ensures chatThreads == WithThread(old(chatThreads), newId, DefaultTitle)
      ensures newId in IdSet(chatThreads)
      ensures messageHistory == []
      ensures old(DistinctIds(chatThreads)) ==> Valid()
    {
      threadId := newId;
      AddThread(threadId, DefaultTitle);
      messageHistory := [];
      WithThreadIds(old(chatThreads), newId, DefaultTitle);
      if old(DistinctIds(chatThreads)) {
        WithThreadDistinct(old(chatThreads), newId, DefaultTitle);
      }
    }

    /**
     * A click on a sidebar entry: switch to its thread and show its stored
     * conversation (`messages` is what the store holds for it, if anything).
     */
    method SelectThread(thread: ThreadInfo, messages: Option<seq<Message>>)
      requires thread in chatThreads
      modifies this`threadId, this`messageHistory
      ensures threadId == thread.id
      ensures messages.None? ==> messageHistory == []
      ensures messages.Some? ==> |messageHistory| == |messages.value|
      ensures messages.Some? ==> forall k :: 0 <= k < |messageHistory| ==>
        && messageHistory[k].content == messages.value[k].content
        && (messageHistory[k].role == User <==> messages.value[k].kind == Human)
      ensures old(DistinctIds(chatThreads)) ==> Valid()
    {
      threadId := thread.id;
      var entries := ToChatEntries(messages);
      messageHistory := entries;
      var k :| 0 <= k < |chatThreads| && chatThreads[k] == thread;
      assert chatThreads[k].id == threadId;
    }

    /** The rename loop: retitle the current thread's "New Chat" entries in place. */
    method RenameTitles(input: string)
      modifies this`chatThreads
      ensures chatThreads == Renamed(old(chatThreads), threadId, NewTitle(input))
    {
      ghost var original := chatThreads;
      var title := NewTitle(input);
      var i := 0;
      while i < |chatThreads|
        invariant 0 <= i <= |chatThreads| == |original|
        invariant forall k :: 0 <= k < i ==> chatThreads[k] == RenameEntry(original[k], threadId, title)
        invariant forall k :: i <= k < |original| ==> chatThreads[k] == original[k]
      {
        if chatThreads[i].id == threadId && chatThreads[i].title == DefaultTitle {
          chatThreads := chatThreads[i := chatThreads[i].(title := title)];
        }
        i := i + 1;
      }
      assert chatThreads == Renamed(original, threadId, title);
    }

    /**
     * Submitting `userInput`: nothing happens for an empty input; otherwise
     * the current thread is retitled, and the input and then the streamed
     * reply `aiReply` are appended to the history.
     */
    method SubmitInput(userInput: string, aiReply: string)
      modifies this`chatThreads, this`messageHistory
      ensures userInput == "" ==> chatThreads == old(chatThreads) && messageHistory == old(messageHistory)
      ensures userInput != "" ==>
        && chatThreads == Renamed(old(chatThreads), threadId, NewTitle(userInput))
        && messageHistory == old(messageHistory) + [ChatEntry(User, userInput), ChatEntry(Assistant, aiReply)]
      ensures old(Valid()) ==> Valid()
    {
      if userInput != "" {
        RenameTitles(userInput);
        messageHistory := messageHistory + [ChatEntry(User, userInput)];
        messageHistory := messageHistory + [ChatEntry(Assistant, aiReply)];
        RenamedIds(old(chatThreads), threadId, NewTitle(userInput));
      }
    }
  }

  /**
   * The session setup of the script: the catalogue comes from
   * `retrieve_all_threads`, which lists no id twice, so the session it starts
   * is valid. When the back end raises, so does the setup.
   */
  method SetUpSession(listing: seq<ChatBackend.Checkpoint>, initialId: string)
    returns (r: Result<ChatSession, ChatBackend.RetrieveError>)
    ensures r.Err? <==> ChatBackend.Retrieve(listing).Err?
    ensures r.Err? ==> r.error == ChatBackend.Retrieve(listing).error
    ensures r.Ok? ==>
      && fresh(r.value) && r.value.Valid()
      && r.value.threadId == initialId
      && r.value.chatThreads == WithThread(ChatBackend.Retrieve(listing).value, initialId, DefaultTitle)
      && r.value.messageHistory == []
  {
    var threads := ChatBackend.RetrieveAllThreads(listing);
    if threads.Err? {
      return Err(threads.error);
    }
    ChatBackend.RetrieveDistinct(listing);
    var session := new ChatSession(initialId, threads.value);
    r := Ok(session);
  }
}

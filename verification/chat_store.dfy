/** The streaming-session store (`useChatStore` in src/store/chatStore.ts).

    Each zustand `set` is a field assignment. The `EventSource` is an opaque
    `Handle` chosen by the caller of `StartStream`; its `close()` is `Close`,
    which only records, in the ghost `closeLog`, which handle was closed and
    whether `isClosing` was already set at that moment. Every listener the
    source registers on a connection is a method here that takes the
    assistant id the listener captured (`target`) as a parameter, so the
    callbacks may be called in any order. */
module Store {
  import opened Types
  import opened Conversation

  /** An open `EventSource`. */
  type Handle = nat

  /** One `es.close()`: which connection, and whether `isClosing` was true
      when it was issued. */
  datatype CloseRecord = CloseRecord(handle: Handle, closingWasSet: bool)

  const PlanningStep: string := "Phase 1: Planning..."
  const UndefinedError: string := "An undefined error occurred."
  const NetworkError: string := "Stream connection failed (Network)."
  const ErrorMarker: string := "\n\n[Error] "

  /** `event.data ? event.data : 'An undefined error occurred.'`: an absent or
      empty payload falls back to the generic message, so the surfaced error
      is never empty. */
  function ErrorText(data: Option<string>): (msg: string)
    ensures msg != ""
    ensures data.Some? && data.value != "" ==> msg == data.value
    ensures data.None? || data.value == "" ==> msg == UndefinedError
  {
    if data.Some? && data.value != "" then data.value else UndefinedError
  }

  /** The three observable situations of the session: nothing ever opened
      (or a fresh start), a connection held, and a connection given up by
      the client or by a failure. */
  datatype Phase = Idle | Streaming | Closed

  class ChatStore {
    var history: seq<ChatMessage>
    var isLoading: bool
    var error: Option<string>
    var eventSource: Option<Handle>
    var isClosing: bool

    /** Every `es.close()` issued so far, in order. */
    ghost var closeLog: seq<CloseRecord>

    /** The store's invariant: a connection is held exactly while loading, a
        held connection is never marked as closing, and every close was issued
        after `isClosing` had been set, so the transport's echo of a close can
        never be read as a fresh failure. */
    ghost predicate Valid()
      reads this
    {
      && (isLoading <==> eventSource.Some?)
      && (eventSource.Some? ==> !isClosing)
      && forall i :: 0 <= i < |closeLog| ==> closeLog[i].closingWasSet
    }

    ghost function CurrentPhase(): Phase
      reads this
    {
      if eventSource.Some? then Streaming else if isClosing then Closed else Idle
    }

    /** The store's initial state. */
    constructor ()
      ensures Valid() && CurrentPhase() == Idle
      ensures history == [] && !isLoading && error == None && eventSource == None && !isClosing
      ensures closeLog == []
    {
      history := [];
      isLoading := false;
      error := None;
      eventSource := None;
      isClosing := false;
      closeLog := [];
    }

    /** `es.close()`. */
    method Close(es: Handle)
      modifies this`closeLog
      ensures closeLog == old(closeLog) + [CloseRecord(es, isClosing)]
    {
      closeLog := closeLog + [CloseRecord(es, isClosing)];
    }

    /** `stopStream`: a no-op without a connection (hence idempotent);
        otherwise set `isClosing`, close, release the handle and stop loading.
        The error and the conversation are never touched. */
    method StopStream()
      requires Valid()
      modifies this
      ensures Valid() && CurrentPhase() != Streaming
      ensures old(eventSource).None? ==> unchanged(this)
      ensures old(eventSource).Some? ==>
        && eventSource == None && !isLoading && isClosing
        && closeLog == old(closeLog) + [CloseRecord(old(eventSource).value, true)]
      ensures history == old(history) && error == old(error)
    {
      var es := eventSource;
      if es.Some? {
        if !isClosing {
          isClosing := true;
        }
        Close(es.value);
        eventSource, isLoading := None, false;
      }
    }

    /** `startStream(query)`: stop any held connection first, reset the flags,
        append a user turn and an empty assistant turn, then hold the new
        connection. `userId`, `assistantId` and `es` stand for the two
        `crypto.randomUUID()` values and the new `EventSource`. */
    method StartStream(query: string, userId: string, assistantId: string, es: Handle)
      requires Valid()
      modifies this
      ensures Valid() && CurrentPhase() == Streaming
      ensures history == old(history) + [UserMessage(userId, query),
                                         AssistantMessage(assistantId, "", [], Some(PlanningStep))]
      ensures isLoading && error == None && !isClosing && eventSource == Some(es)
      ensures old(eventSource).Some? ==> closeLog == old(closeLog) + [CloseRecord(old(eventSource).value, true)]
      ensures old(eventSource).None? ==> closeLog == old(closeLog)
    {
      if eventSource.Some? {
        StopStream();
      }
      isLoading, error, isClosing := true, None, false;
      var userMessage := UserMessage(userId, query);
      var assistantMessage := AssistantMessage(assistantId, "", [], Some(PlanningStep));
      history := history + [userMessage, assistantMessage];
      eventSource := Some(es);
    }

    /** The `trace` listener: the target's trace step becomes the payload. */
    method OnTrace(target: string, data: string)
      modifies this`history
      ensures history == UpdateAssistantMessage(old(history), target, SetTraceStep(Some(data)))
    {
      history := UpdateAssistantMessage(history, target, SetTraceStep(Some(data)));
    }

    /** The `sources` listener, given the already decoded payload: the
        target's sources are replaced wholesale. */
    method OnSources(target: string, decoded: seq<Source>)
      modifies this`history
      ensures history == UpdateAssistantMessage(old(history), target, SetSources(decoded))
    {
      history := UpdateAssistantMessage(history, target, SetSources(decoded));
    }

    /** The `chunk` listener: the payload ("None" meaning nothing) is appended
        to the target's content; its trace step and sources stay. */
    method OnChunk(target: string, data: string)
      modifies this`history
      ensures history == UpdateAssistantMessage(old(history), target, AppendContent(ChunkText(data)))
    {
      var chunkText := ChunkText(data);
      history := UpdateAssistantMessage(history, target, AppendContent(chunkText));
    }

    /** The `error` listener: dropped while closing; otherwise the message
        (or the generic one) becomes `error` and is appended, marked, to the
        target's content. The trace step is left as it is. */
    method OnErrorEvent(target: string, data: Option<string>)
      modifies this`history, this`error
      ensures old(isClosing) ==> history == old(history) && error == old(error)
      ensures !old(isClosing) ==>
        && error == Some(ErrorText(data))
        && history == UpdateAssistantMessage(old(history), target, AppendContent(ErrorMarker + ErrorText(data)))
    {
      if isClosing {
        return;
      }
      var errorData := ErrorText(data);
      error := Some(errorData);
      history := UpdateAssistantMessage(history, target, AppendContent(ErrorMarker + errorData));
    }

    /** The `done` listener: clear the target's trace step, then stop the
        stream so the transport does not reconnect. */
    method OnDone(target: string)
      requires Valid()
      modifies this
      ensures Valid() && CurrentPhase() != Streaming
      ensures history == UpdateAssistantMessage(old(history), target, SetTraceStep(None))
      ensures error == old(error) && eventSource == None && !isLoading
      ensures old(eventSource).Some? ==>
        isClosing && closeLog == old(closeLog) + [CloseRecord(old(eventSource).value, true)]
      ensures old(eventSource).None? ==> isClosing == old(isClosing) && closeLog == old(closeLog)
    {
      history := UpdateAssistantMessage(history, target, SetTraceStep(None));
      StopStream();
    }

    /** `es.onerror`: swallowed while closing; otherwise a genuine network
        failure: stop loading, surface the network error, mark closing (so
        the close below and any later callback are swallowed), close `es`
        and release the handle. */
    method OnTransportError(es: Handle)
      requires Valid()
      modifies this
      ensures Valid()
      ensures old(isClosing) ==> unchanged(this)
      ensures !old(isClosing) ==>
        && CurrentPhase() == Closed
        && !isLoading && error == Some(NetworkError) && isClosing && eventSource == None
        && history == old(history)
        && closeLog == old(closeLog) + [CloseRecord(es, true)]
    {
      if isClosing {
        return;
      }
      isLoading, error, isClosing := false, Some(NetworkError), true;
      Close(es);
      eventSource := None;
    }
  }

  /** A question answered without trouble, on a fresh store: start, trace,
      sources, two chunks, done, then the transport's echo of the close (to
      the `error` listener and to `onerror`). The answer holds exactly the two
      chunks in order, the sources as sent and no trace step; nothing is
      loading, the handle is released and the echo surfaces no error. */
  method CompletedSession(query: string, userId: string, assistantId: string, es: Handle,
                          step: string, sources: seq<Source>, c1: string, c2: string, echo: Option<string>)
    returns (history: seq<ChatMessage>, loading: bool, held: Option<Handle>, failure: Option<string>)
    ensures history == [UserMessage(userId, query),
                        AssistantMessage(assistantId, ChunkText(c1) + ChunkText(c2), sources, None)]
    ensures !loading && held == None && failure == None
  {
    var store := new ChatStore();
    var user := UserMessage(userId, query);
    var turn := AssistantMessage(assistantId, "", [], Some(PlanningStep));
    store.StartStream(query, userId, assistantId, es);
    assert store.history == [] + [user, turn];

    UpdateFreshTurn([], user, turn, SetTraceStep(Some(step)));
    store.OnTrace(assistantId, step);
    turn := turn.(traceStep := Some(step));

    UpdateFreshTurn([], user, turn, SetSources(sources));
    store.OnSources(assistantId, sources);
    turn := turn.(sources := sources);

    UpdateFreshTurn([], user, turn, AppendContent(ChunkText(c1)));
    store.OnChunk(assistantId, c1);
    turn := turn.(content := ChunkText(c1));
    assert "" + ChunkText(c1) == ChunkText(c1);

    UpdateFreshTurn([], user, turn, AppendContent(ChunkText(c2)));
    store.OnChunk(assistantId, c2);
    turn := turn.(content := ChunkText(c1) + ChunkText(c2));

    UpdateFreshTurn([], user, turn, SetTraceStep(None));
    store.OnDone(assistantId);
    assert [] + [user, turn.(traceStep := None)] == [user, turn.(traceStep := None)];
    store.OnErrorEvent(assistantId, echo);
    store.OnTransportError(es);
    history, loading, held, failure := store.history, store.isLoading, store.eventSource, store.error;
  }

  /** A stop in mid-stream, a second stop, then the transport's own echo of
      the close (to both the `error` listener and `onerror`): the echo is
      swallowed, no error is surfaced, the handle stays released and the
      partial answer stays. */
  method StopThenCloseEcho(query: string, userId: string, assistantId: string, es: Handle,
                           chunk: string, echo: Option<string>)
    returns (history: seq<ChatMessage>, loading: bool, held: Option<Handle>, failure: Option<string>)
    ensures history == [UserMessage(userId, query),
                        AssistantMessage(assistantId, ChunkText(chunk), [], Some(PlanningStep))]
    ensures !loading && held == None && failure == None
  {
    var store := new ChatStore();
    var user := UserMessage(userId, query);
    var turn := AssistantMessage(assistantId, "", [], Some(PlanningStep));
    store.StartStream(query, userId, assistantId, es);
    assert store.history == [] + [user, turn];
    UpdateFreshTurn([], user, turn, AppendContent(ChunkText(chunk)));
    store.OnChunk(assistantId, chunk);
    assert "" + ChunkText(chunk) == ChunkText(chunk);
    store.StopStream();
    store.StopStream();
    store.OnErrorEvent(assistantId, echo);
    store.OnTransportError(es);
    history, loading, held, failure := store.history, store.isLoading, store.eventSource, store.error;
  }

  /** A network failure with no prior `done` or stop. The browser hands the
      data-less `error` event first to the `error` listener, which appends the
      generic note, and then to `onerror`, which replaces the surfaced error
      by the network error, stops loading and releases the handle. After that
      a late `error` event or transport callback changes nothing. */
  method NetworkFailure(query: string, userId: string, assistantId: string, es: Handle, late: Option<string>)
    returns (history: seq<ChatMessage>, loading: bool, held: Option<Handle>, failure: Option<string>)
    ensures history == [UserMessage(userId, query),
                        AssistantMessage(assistantId, ErrorMarker + UndefinedError, [], Some(PlanningStep))]
    ensures !loading && held == None && failure == Some(NetworkError)
  {
    var store := new ChatStore();
    var user := UserMessage(userId, query);
    var turn := AssistantMessage(assistantId, "", [], Some(PlanningStep));
    store.StartStream(query, userId, assistantId, es);
    assert store.history == [] + [user, turn];
    UpdateFreshTurn([], user, turn, AppendContent(ErrorMarker + UndefinedError));
    store.OnErrorEvent(assistantId, None);
    assert "" + (ErrorMarker + UndefinedError) == ErrorMarker + UndefinedError;
    store.OnTransportError(es);
    store.OnErrorEvent(assistantId, late);
    store.OnTransportError(es);
    history, loading, held, failure := store.history, store.isLoading, store.eventSource, store.error;
  }

  /** A server-sent `error` event reaches the `error` listener and then
      `onerror` as well: the server's message is appended to the answer and
      surfaced first, and is then replaced by the network error as the
      session ends. */
  method ServerErrorEvent(query: string, userId: string, assistantId: string, es: Handle, message: string)
    returns (history: seq<ChatMessage>, surfacedFirst: Option<string>, loading: bool, held: Option<Handle>,
             failure: Option<string>)
    ensures history == [UserMessage(userId, query),
                        AssistantMessage(assistantId, ErrorMarker + ErrorText(Some(message)), [], Some(PlanningStep))]
    ensures surfacedFirst == Some(ErrorText(Some(message)))
    ensures !loading && held == None && failure == Some(NetworkError)
  {
    var store := new ChatStore();
    var user := UserMessage(userId, query);
    var turn := AssistantMessage(assistantId, "", [], Some(PlanningStep));
    var note := ErrorMarker + ErrorText(Some(message));
    store.StartStream(query, userId, assistantId, es);
    assert store.history == [] + [user, turn];
    UpdateFreshTurn([], user, turn, AppendContent(note));
    store.OnErrorEvent(assistantId, Some(message));
    assert "" + note == note;
    surfacedFirst := store.error;
    store.OnTransportError(es);
    history, loading, held, failure := store.history, store.isLoading, store.eventSource, store.error;
  }

  /** A second query while the first is still streaming: the first
      connection is closed, flag first, before the second is held; the new
      turn is filled by its own events only, and the first answer stays. */
  method SupersededSession(first: string, second: string, u1: string, a1: string, u2: string, a2: string,
                           es1: Handle, es2: Handle, c1: string, c2: string)
    returns (history: seq<ChatMessage>, held: Option<Handle>, ghost closes: seq<CloseRecord>)
    requires a2 != a1
    ensures history == [UserMessage(u1, first), AssistantMessage(a1, ChunkText(c1), [], Some(PlanningStep)),
                        UserMessage(u2, second), AssistantMessage(a2, ChunkText(c2), [], Some(PlanningStep))]
    ensures held == Some(es2) && closes == [CloseRecord(es1, true)]
  {
    var store := new ChatStore();
    var user1, user2 := UserMessage(u1, first), UserMessage(u2, second);
    var t1 := AssistantMessage(a1, "", [], Some(PlanningStep));
    store.StartStream(first, u1, a1, es1);
    assert store.history == [] + [user1, t1];
    UpdateFreshTurn([], user1, t1, AppendContent(ChunkText(c1)));
    store.OnChunk(a1, c1);
    assert "" + ChunkText(c1) == ChunkText(c1);
    var h1 := [user1, t1.(content := ChunkText(c1))];
    assert store.history == h1;
    var t2 := AssistantMessage(a2, "", [], Some(PlanningStep));
    store.StartStream(second, u2, a2, es2);
    var h2 := h1 + [user2, t2];
    assert store.history == h2;
    store.OnChunk(a2, c2);
    assert "" + ChunkText(c2) == ChunkText(c2);
    assert store.history == h1 + [user2, t2.(content := ChunkText(c2))] by {
      var r := UpdateAssistantMessage(h2, a2, AppendContent(ChunkText(c2)));
      assert !IsTarget(h2[0], a2) && !IsTarget(h2[1], a2) && !IsTarget(h2[2], a2);
      assert r[0] == h2[0] && r[1] == h2[1] && r[2] == h2[2];
    }
    history, held, closes := store.history, store.eventSource, store.closeLog;
  }
}

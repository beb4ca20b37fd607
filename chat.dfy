/** The per-session state of src/api/routers/chat.py: `session_store`, the chat
    endpoint that answers through the RAG system and locks the first file found,
    and the reset endpoint. The routing result comes in as a value (`route` catches
    its own errors) and the RAG call as a function that may raise. */
module Chat {
  import opened Wrappers
  import opened PyValue
  import opened Router

  /** `{"history": [...], "locked_file": ...}` */
  datatype Session = Session(history: seq<string>, lockedFile: Option<string>)

  const NewSession: Session := Session([], None)

  /** `ChatResponse(response=..., category=..., reason=...)` */
  datatype ChatResponse = ChatResponse(response: string, category: string, reason: string)

  /** `rag_system.answer(query, category, history, target_file_path)`: the answer and
      the file used, or Raises. */
  type RagCall = (string, Option<Value>, seq<string>, Option<string>) -> Py<(string, Option<string>)>

  /** A session as the endpoint leaves it: two history entries per answered request,
      and a locked file, once there is one, that is a non-empty path. */
  predicate WellFormed(s: Session) {
    |s.history| % 2 == 0 && (s.lockedFile.Some? ==> s.lockedFile.value != "")
  }

  /** `history[-6:]` */
  function Last(history: seq<string>, n: nat): (r: seq<string>)
    ensures |r| == (if |history| < n then |history| else n)
    ensures history == history[..|history| - |r|] + r
  {
    if |history| <= n then history else history[|history| - n..]
  }

  /** Steps 4 and 5 of the endpoint: lock the file if none is locked yet and the RAG
      used one, then record the exchange. */
  function AfterAnswer(s: Session, query: string, answer: string, usedFile: Option<string>): Session {
    var locked := if s.lockedFile.None? && usedFile.Some? && usedFile.value != "" then usedFile else s.lockedFile;
    Session(s.history + ["User: " + query] + ["AI: " + answer], locked)
  }

  /** `"Locked" if session["locked_file"] else "Search"` */
  function Category(s: Session): string {
    if s.lockedFile.Some? && s.lockedFile.value != "" then "Locked" else "Search"
  }

  /** One request to the chat endpoint, with the RAG call as intended (the locked
      file passed as `target_file_path`): the response or Raises (the HTTP 500
      path), and the new store. */
  function Handle(store: map<string, Session>, sessionId: string, query: string,
                  routeResult: RouteResult, rag: RagCall): (Py<ChatResponse>, map<string, Session>)
  {
    var s := if sessionId in store then store[sessionId] else NewSession;
    var created := store[sessionId := s];
    match rag(query, routeResult.filter, Last(s.history, 6), s.lockedFile)
    case Raises => (Raises, created)
    case Ok((answer, usedFile)) =>
      var s' := AfterAnswer(s, query, answer, usedFile);
      (Ok(ChatResponse(answer, Category(s'), routeResult.reason)), created[sessionId := s'])
  }

  /** The same request as the source writes it: `fixed_file_path=` is not a parameter
      of `MultimodalRAG.answer`, so the call raises a TypeError before any answer. */
  function HandleAsWritten(store: map<string, Session>, sessionId: string, query: string,
                           routeResult: RouteResult): (Py<ChatResponse>, map<string, Session>)
  {
    var s := if sessionId in store then store[sessionId] else NewSession;
    (Raises, store[sessionId := s])
  }

  const ResetNotFound: string := "세션을 찾을 수 없습니다."

  /** The reset message as written: the braces are not an f-string, so the session
      id never appears in it. */
  function ResetMessageAsWritten(sessionId: string): string {
    "{session_id} 세션이 초기화되었습니다."
  }

  /** The reset message as intended, naming the session. */
  function ResetMessage(sessionId: string): string {
    sessionId + " 세션이 초기화되었습니다."
  }

  /** `reset_session(session_id)`: the message and the new store. */
  function Reset(store: map<string, Session>, sessionId: string): (string, map<string, Session>) {
    if sessionId in store then (ResetMessage(sessionId), store - {sessionId}) else (ResetNotFound, store)
  }

  /** `session_store`, updated in place by the two endpoints. */
  class SessionStore {
    var sessions: map<string, Session>

    ghost predicate Valid()
      reads this
    {
      forall id :: id in sessions ==> WellFormed(sessions[id])
    }

    constructor ()
      ensures sessions == map[] && Valid()
    {
      sessions := map[];
    }

    /** `chat_endpoint(request)` with the RAG call as intended. */
    method ChatEndpoint(sessionId: string, query: string, routeResult: RouteResult, rag: RagCall)
      returns (r: Py<ChatResponse>)
      requires Valid()
      modifies this
      ensures Valid()
      ensures (r, sessions) == Handle(old(sessions), sessionId, query, routeResult, rag)
    {
      if sessionId !in sessions {
        sessions := sessions[sessionId := NewSession];
      }
      var session := sessions[sessionId];
      assert sessions == old(sessions)[sessionId := session];
      var result := rag(query, routeResult.filter, Last(session.history, 6), session.lockedFile);
      if result.Raises? {
        return Raises;
      }
      var (answer, usedFile) := result.value;
      if session.lockedFile.None? && usedFile.Some? && usedFile.value != "" {
        session := session.(lockedFile := usedFile);
      }
      session := session.(history := session.history + ["User: " + query]);
      session := session.(history := session.history + ["AI: " + answer]);
      sessions := sessions[sessionId := session];
      r := Ok(ChatResponse(answer, if session.lockedFile.Some? && session.lockedFile.value != "" then "Locked" else "Search",
                           routeResult.reason));
    }

    /** `chat_endpoint(request)` as written: the session is created, then the RAG
      call fails on its keyword argument. */
    method ChatEndpointAsWritten(sessionId: string, query: string, routeResult: RouteResult)
      returns (r: Py<ChatResponse>)
      requires Valid()
      modifies this
      ensures Valid()
      ensures (r, sessions) == HandleAsWritten(old(sessions), sessionId, query, routeResult)
    {
      if sessionId !in sessions {
        sessions := sessions[sessionId := NewSession];
      }
      assert sessions == old(sessions)[sessionId := sessions[sessionId]];
      return Raises;
    }

    /** `reset_session(session_id)` */
    method ResetSession(sessionId: string) returns (message: string)
      requires Valid()
      modifies this
      ensures Valid()
      ensures (message, sessions) == Reset(old(sessions), sessionId)
    {
      if sessionId in sessions {
        sessions := sessions - {sessionId};
        return ResetMessage(sessionId);
      }
      return ResetNotFound;
    }
  }

  // ---------------------------------------------------------------------------
  // Properties
  // ---------------------------------------------------------------------------

  /** An answered request keeps a session well formed. */
  lemma AfterAnswerWellFormed(s: Session, query: string, answer: string, usedFile: Option<string>)
    requires WellFormed(s)
    ensures WellFormed(AfterAnswer(s, query, answer, usedFile))
  {
  }

  /** Both endpoints keep every session well formed. */
  lemma HandleKeepsWellFormed(store: map<string, Session>, sessionId: string, query: string,
                              routeResult: RouteResult, rag: RagCall)
    requires forall id :: id in store ==> WellFormed(store[id])
    ensures var store' := Handle(store, sessionId, query, routeResult, rag).1;
      forall id :: id in store' ==> WellFormed(store'[id])
  {
    var s := if sessionId in store then store[sessionId] else NewSession;
    var result := rag(query, routeResult.filter, Last(s.history, 6), s.lockedFile);
    if result.Ok? {
      AfterAnswerWellFormed(s, query, result.value.0, result.value.1);
    }
  }

  /** A request touches only its own session, which exists afterwards (empty if it
      was unknown), and leaves every other session as it was. */
  lemma HandleTouchesOneSession(store: map<string, Session>, sessionId: string, query: string,
                                routeResult: RouteResult, rag: RagCall)
    ensures var store' := Handle(store, sessionId, query, routeResult, rag).1;
      store'.Keys == store.Keys + {sessionId} &&
      forall id :: id in store && id != sessionId ==> store'[id] == store[id]
  {
  }

  /** A failing RAG call leaves the session's history and locked file as they were;
      an unknown session is then the new empty session. */
  lemma HandleFailureKeepsSession(store: map<string, Session>, sessionId: string, query: string,
                                  routeResult: RouteResult, rag: RagCall)
    requires var s := if sessionId in store then store[sessionId] else NewSession;
      rag(query, routeResult.filter, Last(s.history, 6), s.lockedFile).Raises?
    ensures Handle(store, sessionId, query, routeResult, rag).0.Raises?
    ensures Handle(store, sessionId, query, routeResult, rag).1[sessionId] ==
      if sessionId in store then store[sessionId] else NewSession
  {
  }

  /** A successful request appends exactly "User: {query}" then "AI: {answer}", hands
      the RAG at most the last six entries, and answers "Locked" exactly when a file
      is locked afterwards. */
  lemma HandleSuccess(store: map<string, Session>, sessionId: string, query: string,
                      routeResult: RouteResult, rag: RagCall)
    requires var s := if sessionId in store then store[sessionId] else NewSession;
      rag(query, routeResult.filter, Last(s.history, 6), s.lockedFile).Ok?
    ensures var s := if sessionId in store then store[sessionId] else NewSession;
      var (answer, usedFile) := rag(query, routeResult.filter, Last(s.history, 6), s.lockedFile).value;
      var (r, store') := Handle(store, sessionId, query, routeResult, rag);
      r.Ok? && r.value.response == answer && r.value.reason == routeResult.reason &&
      store'[sessionId].history == s.history + ["User: " + query, "AI: " + answer] &&
      (r.value.category == "Locked" <==> store'[sessionId].lockedFile.Some? && store'[sessionId].lockedFile.value != "") &&
      |Last(s.history, 6)| <= 6
  {
    var s := if sessionId in store then store[sessionId] else NewSession;
    var (answer, usedFile) := rag(query, routeResult.filter, Last(s.history, 6), s.lockedFile).value;
    assert s.history + ["User: " + query] + ["AI: " + answer] == s.history + ["User: " + query, "AI: " + answer];
  }

  /** A locked file never changes, and a file is locked only when none was and the
      RAG used a non-empty path. */
  lemma LockOnce(s: Session, query: string, answer: string, usedFile: Option<string>)
    ensures s.lockedFile.Some? ==> AfterAnswer(s, query, answer, usedFile).lockedFile == s.lockedFile
    ensures AfterAnswer(s, query, answer, usedFile).lockedFile != s.lockedFile <==>
      s.lockedFile.None? && usedFile.Some? && usedFile.value != ""
    ensures AfterAnswer(s, query, answer, usedFile).lockedFile != s.lockedFile ==>
      AfterAnswer(s, query, answer, usedFile).lockedFile == usedFile
  {
  }

  /** The history window is the tail of the history, at most six entries. */
  lemma HistoryWindow(history: seq<string>)
    ensures |Last(history, 6)| <= 6
    ensures |history| <= 6 ==> Last(history, 6) == history
    ensures |history| > 6 ==> Last(history, 6) == history[|history| - 6..]
  {
  }

  /** As written, no request is ever answered: every request takes the error path,
      only creating its session, so no file is ever locked. */
  lemma AsWrittenNeverAnswers(store: map<string, Session>, sessionId: string, query: string,
                              routeResult: RouteResult)
    requires forall id :: id in store ==> store[id].lockedFile.None?
    ensures HandleAsWritten(store, sessionId, query, routeResult).0.Raises?
    ensures var store' := HandleAsWritten(store, sessionId, query, routeResult).1;
      forall id :: id in store' ==> store'[id].lockedFile.None?
  {
  }

  /** A RAG call that answers with a file locks it on a fresh session, which the
      code as written never reaches. */
  lemma IntendedLocksFirstFile(store: map<string, Session>, sessionId: string, query: string,
                               routeResult: RouteResult, rag: RagCall, answer: string, path: string)
    requires sessionId !in store && path != ""
    requires rag(query, routeResult.filter, [], None) == Ok((answer, Some(path)))
    ensures Handle(store, sessionId, query, routeResult, rag).1[sessionId].lockedFile == Some(path)
    ensures Handle(store, sessionId, query, routeResult, rag).0 == Ok(ChatResponse(answer, "Locked", routeResult.reason))
    ensures HandleAsWritten(store, sessionId, query, routeResult).1[sessionId].lockedFile == None
  {
  }

  /** Reset deletes the session exactly when it exists and touches no other. */
  lemma ResetOnlyThatSession(store: map<string, Session>, sessionId: string)
    ensures var (message, store') := Reset(store, sessionId);
      sessionId !in store' && store'.Keys == store.Keys - {sessionId} &&
      (forall id :: id in store' ==> store'[id] == store[id]) &&
      (message == ResetNotFound <==> sessionId !in store)
  {
    if sessionId in store {
      if sessionId == [] {
        assert ResetMessage(sessionId)[0] == ' ' && ResetNotFound[0] == '세';
      } else {
        assert |ResetMessage(sessionId)| > |ResetNotFound|;
      }
    }
  }

  /** The message as written is the same for every session; the intended one starts
      with the session id, so two sessions get two different messages. */
  lemma ResetMessageNamesSession(a: string, b: string)
    ensures ResetMessageAsWritten(a) == ResetMessageAsWritten(b)
    ensures ResetMessage(a)[..|a|] == a
    ensures a != b ==> ResetMessage(a) != ResetMessage(b)
  {
    var t := " 세션이 초기화되었습니다.";
    assert (a + t)[..|a|] == a && (b + t)[..|b|] == b;
  }
}

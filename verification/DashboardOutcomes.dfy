// What every answer and every action comes to on the page, outcome by outcome.
module DashboardOutcomes {
  import opened Wrappers
  import opened Text
  import opened Json
  import opened ResumableStore
  import opened DashboardMerge
  import opened DashboardState
  import opened DashboardHook
  import opened DashboardRuns

  // ---- the request in flight ----

  // A refusal denies access exactly with the statuses 401 and 403: the data is dropped then, and kept with any other.
  // What the page says is the server's word, trimmed, or a word of its own.
  lemma RefusalDecides(h: Hook, since: nat, normalise: Normalise, id: nat, status: int, body: Fields, atMs: int)
    requires Tidy(h.state) && OneRequest(h, since) && InFlightIs(h.state, id)
    ensures var s, t := h.state, Settle(h, normalise, id, DashboardHook.Refused(status, body), atMs).state;
            && (status == 401 || status == 403 ==> t.accessDenied && t.data == None && t.payload == Absent
                                                   && t.request == DashboardState.Error)
            && (status != 401 && status != 403 ==> t.accessDenied == s.accessDenied && t.data == s.data)
            && t.failureCount == s.failureCount + 1 && t.inFlight == None
            && (forall word: string :: FieldOf(body, "error") == Str(word) && Trim(word) != "" ==>
                  t.lastError == Some(Trim(word)))
            && ((forall word: string :: FieldOf(body, "error") != Str(word)) ==>
                  t.lastError == Some("Dashboard data could not be loaded."))
  {
    SettleIs(h, since, normalise, id, DashboardHook.Refused(status, body), atMs);
    hide Settle, Trim, DashboardState.Backoff;
    match FieldOf(body, "error") {
      case Str(word) =>
      case _ =>
    }
  }

  // A request that breaks, or that is answered without a version, is a failure like any other and denies nothing.
  lemma BreakDecides(h: Hook, since: nat, normalise: Normalise, id: nat, message: string, atMs: int)
    requires Tidy(h.state) && OneRequest(h, since) && InFlightIs(h.state, id)
    ensures var s, t := h.state, Settle(h, normalise, id, DashboardHook.Broken(message), atMs).state;
            && t.data == s.data && t.accessDenied == s.accessDenied && t.lastError == Some(message)
            && t.failureCount == s.failureCount + 1 && t.inFlight == None
            && (s.data.Some? ==> t.payload == Stale && t.request == Settled)
            && (s.data.None? ==> t.payload == Absent && t.request == DashboardState.Error)
  {
    SettleIs(h, since, normalise, id, DashboardHook.Broken(message), atMs);
    hide Settle, DashboardState.Backoff;
  }

  // An answer that does not merge is reported by its message: to a request that named a version as an invalid state,
  // which keeps the data and asks again for everything, to any other as a failure.
  lemma UnmergedDecides(h: Hook, since: nat, normalise: Normalise, id: nat, body: Fields, atMs: int)
    requires Tidy(h.state) && OneRequest(h, since) && InFlightIs(h.state, id)
    requires Merge(normalise, h.state.data, body, h.fetches[id].request.floor).Err?
    ensures var s, t := h.state, Settle(h, normalise, id, Delivered(body), atMs).state;
            var e := Merge(normalise, s.data, body, h.fetches[id].request.floor).error;
            && t.data == s.data && t.version == s.version && t.accessDenied == s.accessDenied && t.inFlight == None
            && t.lastError == Some(MessageOf(e))
            && (h.fetches[id].request.knownVersion.Some? ==>
                  && t.request == CanonicalState && t.refetchPending && t.suppressKnownVersion
                  && t.failureCount == s.failureCount)
            && (h.fetches[id].request.knownVersion.None? ==>
                  t.failureCount == s.failureCount + 1 && t.suppressKnownVersion == s.suppressKnownVersion)
  {
    SettleIs(h, since, normalise, id, Delivered(body), atMs);
    UnmergedAction(normalise, h.state.data, h.fetches[id], body, atMs);
    assert !h.fetches[id].aborted;
    hide Settle, Merge, MessageOf, AnswerAction, Reduce, OneRequest, Tidy, Stays;
    EndingLeaves(h.state, AnswerAction(normalise, h.state.data, h.fetches[id], Delivered(body), atMs));
  }

  lemma UnmergedAction(normalise: Normalise, current: Option<Data>, fetch: Fetch, body: Fields, atMs: int)
    requires Merge(normalise, current, body, fetch.request.floor).Err?
    ensures AnswerAction(normalise, current, fetch, Delivered(body), atMs)
         == Thrown(fetch, true, atMs, MessageOf(Merge(normalise, current, body, fetch.request.floor).error))
  {
    hide Merge, MessageOf;
  }

  lemma EndingLeaves(s: State, a: Action)
    requires !Stays(s, a) && (a.StateInvalid? || (a.RequestFailed? && !a.denied))
    ensures var t := Reduce(s, a);
            && t.data == s.data && t.version == s.version && t.accessDenied == s.accessDenied && t.inFlight == None
            && t.lastError == Some(a.message)
            && (a.StateInvalid? ==>
                  t.request == CanonicalState && t.refetchPending && t.suppressKnownVersion
                  && t.failureCount == s.failureCount)
            && (a.RequestFailed? ==>
                  t.failureCount == s.failureCount + 1 && t.suppressKnownVersion == s.suppressKnownVersion)
  {
    hide DashboardState.Backoff, Stays;
  }

  // An aborted request, answered late, is no request any more: whatever comes back changes nothing.
  lemma AbortedIsForgotten(h: Hook, since: nat, normalise: Normalise, id: nat, answer: DashboardHook.Answer, atMs: int)
    requires OneRequest(h, since) && id in h.fetches && h.fetches[id].aborted
    ensures Settle(h, normalise, id, answer, atMs) == h.(fetches := h.fetches - {id})
  {
    StaleChangesNothing(h, since, normalise, id, answer, atMs);
  }

  // ---- a denial over runs ----

  lemma DenialStays(s: State, a: Action)
    requires s.accessDenied && Tidy(s) && !Takes(s, a) && !a.FloorChanged?
    ensures Reduce(s, a).accessDenied && Reduce(s, a).data == None
  {
    StaysTidy(s, a);
    hide FloorText, DashboardState.Backoff, Tidy;
  }

  predicate Denied(s: State) {
    s.accessDenied && s.data == None
  }

  lemma StepStaysDenied(server: Server, w: World, normalise: Normalise, e: Event)
    requires Sound(server, w) && Denied(w.hook.state)
    requires !Brings(w.hook, normalise, e) && !Changes(w.hook, e)
    ensures Denied(Step(w, normalise, e).hook.state)
  {
    var h := w.hook;
    SoundIsTidy(server, w);
    hide Reduce, Stays, AnswerAction, Describe, ScopeKey, Effect, Takes, ChangeScope, Start, Sound, Denied, Tidy;
    if e.Committed? {
      EffectStaysDenied(h, e.atMs);
    } else if e.Called? {
      StartStaysDenied(h, e.key);
    } else {
      forall a: Action | !Takes(h.state, a) && !a.FloorChanged? ensures Denied(Reduce(h.state, a)) {
        ActionStaysDenied(h.state, a);
      }
      forall a: Action | !a.StateChanged? && !a.StateNotModified? ensures !Takes(h.state, a) {
        TakesOnlyState(h.state, a);
      }
    }
  }

  lemma ActionStaysDenied(s: State, a: Action)
    requires Denied(s) && Tidy(s) && !Takes(s, a) && !a.FloorChanged?
    ensures Denied(Reduce(s, a))
  {
    hide Reduce, Takes, Tidy;
    DenialStays(s, a);
  }

  lemma DispatchStaysDenied(h: Hook, a: Action)
    requires Denied(h.state) && Tidy(h.state) && !a.StateChanged? && !a.StateNotModified? && !a.FloorChanged?
    ensures Denied(Dispatch(h, a).state)
  {
    hide Reduce, Stays, Takes, Denied, Tidy;
    TakesOnlyState(h.state, a);
    ActionStaysDenied(h.state, a);
  }

  lemma StartStaysDenied(h: Hook, key: string)
    requires Denied(h.state) && Tidy(h.state)
    ensures Denied(Start(h, key).state)
  {
    hide Dispatch, Denied, Describe, Tidy;
    var d := Describe(h.state, h.nextId + 1);
    if d.Some? {
      var h1 := h.(nextId := h.nextId + 1, controller := Some(d.value.requestId));
      DispatchStaysDenied(h1, RequestStarted(d.value.Identity()));
    }
  }

  lemma EffectStaysDenied(h: Hook, nowMs: int)
    requires Denied(h.state) && Tidy(h.state)
    ensures Denied(Effect(h, nowMs).state)
  {
    hide Dispatch, Denied, Start, Due, PollDelay, Tidy;
    var h1 := h.(seen := h.renderedRevision, timer := None);
    StartStaysDenied(h1, h.scope);
    DispatchStaysDenied(h1, SafetyDue(nowMs));
  }

  // After a denial the page shows nothing until an answer is taken or the scope changes, whatever happens.
  lemma {:induction false} DenialLasts(server: Server, w: World, normalise: Normalise, events: seq<Event>)
    requires normalise == server.normalise
    requires OnePerScope(server) && Sound(server, w) && HonestRun(server, w, normalise, events)
    requires Denied(w.hook.state) && NoneBrought(w, normalise, events) && Unmoved(w, normalise, events)
    ensures Denied(DashboardRuns.Run(w, normalise, events).hook.state)
    decreases |events|
  {
    hide Denied, Sound, Honest, OnePerScope, Step, Brings, Changes;
    if events != [] {
      StepIsSound(server, w, normalise, events[0]);
      StepStaysDenied(server, w, normalise, events[0]);
      DenialLasts(server, Step(w, normalise, events[0]), normalise, events[1..]);
    }
  }

  // ---- an answer taken ----

  // A taken answer shows its data; a failed recalculation keeps it as stale with the reason, anything else is current.
  lemma TakenShows(s: State, a: Action)
    requires Takes(s, a)
    ensures var t := Reduce(s, a);
            && t.data == Some(a.data) && t.version == Some(a.version) && !t.accessDenied && t.failureCount == 0
            && t.inFlight == None && t.lastSuccessfulAtMs == Some(a.atMs) && t.refresh == a.refresh
            && t.safetyDeadlineMs == Some(a.atMs + 2500) && !t.suppressKnownVersion
            && t.request == (if s.refetchPending then CanonicalState else Settled)
            && t.refetchPending == s.refetchPending && t.visibility == s.visibility
            && t.floor == s.floor && t.scopeKey == s.scopeKey
            && (a.refresh != Failed ==> t.payload == Current && t.lastError == None)
            && (a.refresh == Failed ==>
                  && t.payload == Stale
                  && t.lastError == (if a.refreshError.Some? then a.refreshError
                                     else Some("Planning recalculation failed.")))
            && t.coverage == (if a.StateChanged? then a.coverage else s.coverage)
  {
  }

  // An answer older than the data held, or "not modified" for a version not held, is turned down with its reason.
  lemma TurnedDown(s: State, a: Action)
    requires (a.StateChanged? || a.StateNotModified?) && Owns(s, a.id)
    ensures a.StateChanged? ==> (Takes(s, a) <==> s.version == None || s.version.value <= a.version)
    ensures a.StateNotModified? ==> (Takes(s, a) <==> s.data.Some? && s.version == Some(a.version))
    ensures !Takes(s, a) ==>
              var t := Reduce(s, a);
              && t.data == s.data && t.version == s.version && t.accessDenied == s.accessDenied
              && t.request == CanonicalState && t.refetchPending && t.suppressKnownVersion && t.inFlight == None
              && t.lastError == Some(if a.StateChanged?
                  then "A regressive dashboard version was rejected; canonical refetch required."
                  else "An unchanged response requires retained same-floor dashboard data.")
  {
  }

  // What an answer that merges says: its version, how the recalculation stands and whether every section is complete.
  lemma AnswerSays(normalise: Normalise, atMs: int, current: Option<Data>, request: Descriptor, body: Fields)
    requires ResponseAction(normalise, atMs, current, request, body).Ok?
    ensures var a := ResponseAction(normalise, atMs, current, request, body).value;
            var merged := Merge(normalise, current, body, request.floor);
            && merged == Ok(a.data) && a.atMs == atMs && a.id == request.Identity()
            && (a.StateNotModified? <==> FieldOf(body, "notModified") == Bool(true))
            && (a.StateChanged? <==> FieldOf(body, "notModified") != Bool(true))
            && var status := OrEmpty(RecordAt(a.data, "status"));
               && a.refresh == RefreshOf(status)
               && a.refreshError == TrimmedText(FieldOf(status, "lastError"))
  {
    hide Merge, RefreshOf, TrimmedText, CoverageState;
  }

  lemma StatusWords(status: Fields)
    ensures FieldOf(status, "status") == Str("queued") ==> RefreshOf(status) == Pending
    ensures FieldOf(status, "status") == Str("running") ==> RefreshOf(status) == Running
    ensures FieldOf(status, "status") == Str("failed") ==> RefreshOf(status) == Failed
    ensures FieldOf(status, "status") !in {Str("queued"), Str("running"), Str("failed")} ==>
              RefreshOf(status) == if FieldOf(status, "isRefreshing") == Bool(true) then Pending else Idle
  {
  }

  lemma PartialExactly(normalise: Normalise, data: Fields)
    ensures CoverageState(normalise, data) == Partial <==>
              CoverageOf(normalise, data).Some? && exists name <- CoverageOf(normalise, data).value ::
                RecordAt(CoverageOf(normalise, data).value, name).Some?
                && FieldOf(RecordAt(CoverageOf(normalise, data).value, name).value, "truncated") == Bool(true)
  {
    hide CoverageOf;
    var coverage := CoverageOf(normalise, data);
    if coverage.Some? {
      forall name <- coverage.value.Keys
        ensures Truncated(coverage.value[name]) <==>
                  RecordAt(coverage.value, name).Some?
                  && FieldOf(RecordAt(coverage.value, name).value, "truncated") == Bool(true)
      {
      }
    }
  }

  // ---- the other actions ----

  // A refresh asked for asks again; a failed one keeps the data as stale.
  lemma RefreshActions(s: State, message: string)
    ensures Reduce(s, RefreshRequested) == s.(refresh := Pending, refetchPending := true, request := CanonicalState)
    ensures Reduce(s, RefreshRunning) == s.(refresh := Running)
    ensures var t := Reduce(s, RefreshFailed(message));
            && t == s.(refresh := Failed, lastError := Some(message), payload := t.payload, request := t.request)
            && (s.data.Some? ==> t.payload == Stale && t.request == Settled)
            && (s.data.None? ==> t.payload == Absent && t.request == DashboardState.Error)
  {
  }

  // A request that was aborted while it was the one in flight is over, and is asked again.
  lemma AbortedAsksAgain(s: State, id: Request)
    requires s.inFlight == Some(id) && id.floor == s.floor && (id.scopeKey == None || id.scopeKey == Some(s.scopeKey))
    ensures var t := Reduce(s, RequestAborted(id));
            && t.inFlight == None && t.refetchPending && t == s.(inFlight := t.inFlight, refetchPending := true)
  {
  }

  // A retry, a page shown again, a poll that is due and a deadline that has passed ask again; hidden, only a retry.
  lemma AskingActions(s: State, nowMs: int)
    ensures var t := Reduce(s, RetryRequested);
            && t.lastError == None && t.refetchPending && t.data == s.data
            && t.request == (if s.data.None? then Initial else CanonicalState)
    ensures var t := Reduce(s, VisibilityChanged(Visible));
            && t.visibility == Visible && t.refetchPending && t.data == s.data && t.lastError == s.lastError
            && t.request == (if s.data.None? then Initial else CanonicalState)
    ensures Reduce(s, VisibilityChanged(Hidden)) == s.(visibility := Hidden)
    ensures Reduce(s, RefreshPollDue) ==
              if s.visibility == Visible && (s.refresh == Pending || s.refresh == Running)
              then s.(refetchPending := true, request := CanonicalState) else s
    ensures Reduce(s, SafetyDue(nowMs)) ==
              if s.visibility == Visible && s.safetyDeadlineMs.Some? && s.safetyDeadlineMs.value <= nowMs
              then s.(refetchPending := true, request := CanonicalState) else s
  {
  }

  // The wait after a failure doubles from five seconds on and stays at thirty.
  lemma Waits(s: State, id: Request, atMs: int, message: string, denied: bool)
    requires Owns(s, id)
    ensures var t := Reduce(s, RequestFailed(id, atMs, message, denied));
            && t.safetyDeadlineMs.Some?
            && var wait := t.safetyDeadlineMs.value - atMs;
               && (s.failureCount == 0 ==> wait == 5000)
               && (s.failureCount == 1 ==> wait == 10000)
               && (s.failureCount == 2 ==> wait == 20000)
               && (s.failureCount >= 3 ==> wait == 30000)
  {
  }

  // A request names the version held unless everything is asked for.
  lemma Described(s: State, requestId: nat)
    ensures var d := Describe(s, requestId);
            && (d.Some? <==> s.visibility == Visible && s.inFlight == None && s.request in {Initial, CanonicalState})
            && (d.Some? ==>
                  && d.value.floor == s.floor && d.value.scopeKey == s.scopeKey && d.value.requestId == requestId
                  && (d.value.knownVersion.Some? ==> d.value.knownVersion == s.version)
                  && (d.value.knownVersion.Some? <==> s.request == CanonicalState && s.data.Some?
                                                      && !s.suppressKnownVersion && s.version.Some?))
  {
  }
}

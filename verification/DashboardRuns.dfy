// Every run of the hook against a server that publishes one payload per scope, floor and version.
module DashboardRuns {
  import opened Wrappers
  import opened Json
  import opened ResumableStore
  import opened DashboardMerge
  import opened DashboardState
  import opened DashboardHook

  // A server: the payload it publishes for a scope, floor and version, and how coverage is normalised.
  datatype Server = Server(payload: (string, Floor, nat) -> Fields, normalise: Normalise)

  function In(server: Server, scope: string): Published {
    Published((floor: Floor, version: nat) => server.payload(scope, floor, version), server.normalise)
  }

  ghost predicate OnePerScope(server: Server) {
    forall scope: string {:trigger In(server, scope)} :: OnePerVersion(In(server, scope))
  }

  // The hook, the last request number given out before the scope last changed, and the request that
  // brought the data held.
  datatype World = World(hook: Hook, since: nat, source: Option<nat>)

  predicate Changes(h: Hook, e: Event) {
    e.ScopeChanged? && h.scope != ScopeKey(e.floor, e.url)
  }

  predicate Brings(h: Hook, normalise: Normalise, e: Event) {
    && e.Answered? && e.id in h.fetches
    && Takes(h.state, AnswerAction(normalise, h.state.data, h.fetches[e.id], e.answer, e.atMs))
  }

  function Step(w: World, normalise: Normalise, e: Event): World {
    World(Next(w.hook, normalise, e),
      if Changes(w.hook, e) then w.hook.nextId else w.since,
      if Brings(w.hook, normalise, e) then Some(e.id) else w.source)
  }

  function Run(w: World, normalise: Normalise, events: seq<Event>): World
    decreases |events|
  {
    if events == [] then w else Run(Step(w, normalise, events[0]), normalise, events[1..])
  }

  ghost predicate Honest(server: Server, h: Hook, e: Event) {
    e.Answered? && e.id in h.fetches && e.answer.Delivered? ==>
      var request := h.fetches[e.id].request;
      HonestResponse(In(server, request.scopeKey), request.floor, request.knownVersion, e.answer.body)
  }

  ghost predicate HonestRun(server: Server, w: World, normalise: Normalise, events: seq<Event>)
    decreases |events|
  {
    events == [] || (Honest(server, w.hook, events[0])
      && HonestRun(server, Step(w, normalise, events[0]), normalise, events[1..]))
  }

  // No request made now would name a version.
  predicate Forgotten(s: State) {
    s.data.None? || s.suppressKnownVersion
  }

  // A request names the version of the data held, or none where that is forgotten.
  predicate Remembers(s: State, known: Option<nat>) {
    if known.Some? then s.data.Some? && s.version == known else Forgotten(s)
  }

  // At most one request is neither answered nor aborted: the one in flight.
  predicate OneRequest(h: Hook, since: nat) {
    && h.controller == (if h.state.inFlight.Some? then Some(h.state.inFlight.value.requestId) else None)
    && (h.state.inFlight.Some? ==>
          && var id := h.state.inFlight.value.requestId;
          && id in h.fetches && since < id
          && h.fetches[id].request.Identity() == h.state.inFlight.value
          && Remembers(h.state, h.fetches[id].request.knownVersion))
    && forall id <- h.fetches ::
         id <= h.nextId && h.fetches[id].request.requestId == id
           && (h.fetches[id].aborted <==> !InFlightIs(h.state, id))
  }

  // Data held is the published payload of the current scope, floor and version.
  ghost predicate Shows(server: Server, s: State) {
    s.data.Some? ==> s.version.Some? && Coherent(In(server, s.scopeKey), s.floor, s.version.value, s.data.value)
  }

  // It came from a request started since the scope last changed.
  predicate Fresh(w: World) {
    && w.since <= w.hook.nextId
    && (w.hook.state.data.Some? ==> w.source.Some? && w.since < w.source.value <= w.hook.nextId)
  }

  // A timeout set for the newest state stands for its deadline.
  predicate Armed(h: Hook) {
    && h.seen <= h.renderedRevision <= h.revision
    && (h.renderedRevision == h.revision ==> h.rendered == h.state)
    && (h.timer.Some? && h.seen == h.revision ==>
          && h.enabled && h.state.visibility == Visible && h.state.inFlight == None
          && !Due(h.state) && h.state.safetyDeadlineMs == h.timer)
  }

  ghost predicate Sound(server: Server, w: World) {
    && Tidy(w.hook.state) && w.hook.state.scopeKey == w.hook.scope
    && OneRequest(w.hook, w.since) && Shows(server, w.hook.state) && Fresh(w) && Armed(w.hook)
  }

  // ---- what the reducer leaves alone ----

  predicate Same(s: State, t: State) {
    && t.data == s.data && t.version == s.version && t.floor == s.floor && t.scopeKey == s.scopeKey
    && t.inFlight == s.inFlight && t.suppressKnownVersion == s.suppressKnownVersion
  }

  lemma AsideKeeps(s: State, a: Action)
    requires !a.Ends() && !a.FloorChanged? && !a.RequestStarted?
    ensures Same(s, Reduce(s, a))
  {
    hide FloorText, Backoff, PLANNING_FAILED, REGRESSIVE, UNRETAINED;
  }

  lemma EndLeaves(s: State, a: Action)
    requires a.Ends() && Owns(s, a.id)
    ensures !Stays(s, a)
    ensures var t := Reduce(s, a);
            && t.inFlight == None && t.floor == s.floor && t.scopeKey == s.scopeKey
            && if Takes(s, a) then t.data == Some(a.data) && t.version == Some(a.version)
               else t.version == s.version && (t.data == s.data || t.data == None)
  {
    hide FloorText, Backoff, PLANNING_FAILED, REGRESSIVE, UNRETAINED;
  }

  lemma StartTakes(s: State, requestId: nat)
    requires Tidy(s) && Describe(s, requestId).Some?
    ensures var d := Describe(s, requestId).value; var id := d.Identity();
            && d.requestId == requestId && d.floor == s.floor && d.scopeKey == s.scopeKey
            && Remembers(s, d.knownVersion)
            && !Stays(s, RequestStarted(id))
            && Reduce(s, RequestStarted(id)) == s.(inFlight := Some(id), refetchPending := false)
  {
    hide FloorText, Backoff, PLANNING_FAILED, REGRESSIVE, UNRETAINED;
  }

  // ---- one step ----

  // Actions of the page other than a start, an answer or a change of floor.
  lemma AsideIsSound(server: Server, w: World, a: Action)
    requires Sound(server, w) && !a.Ends() && !a.FloorChanged? && !a.RequestStarted?
    ensures Sound(server, w.(hook := Dispatch(w.hook, a)))
    ensures Sound(server, w.(hook := Dispatch(w.hook.(timer := None), a)))
    ensures Dispatch(w.hook, a).state.version == w.hook.state.version
            == Dispatch(w.hook.(timer := None), a).state.version
  {
    AsideKeeps(w.hook.state, a);
    SoundIsTidy(server, w);
    StaysTidy(w.hook.state, a);
    hide Sound, Reduce, Stays, Tidy;
    ClearedIsSound(server, w);
    NewStateIsSound(server, w, Reduce(w.hook.state, a));
    NewStateIsSound(server, w.(hook := w.hook.(timer := None)), Reduce(w.hook.state, a));
  }

  lemma SoundIsTidy(server: Server, w: World)
    requires Sound(server, w)
    ensures Tidy(w.hook.state)
  {
    hide Tidy, OneRequest, Shows, Fresh, Armed;
  }

  lemma ClearedIsSound(server: Server, w: World)
    requires Sound(server, w)
    ensures Sound(server, w.(hook := w.hook.(timer := None)))
  {
    hide Tidy, Shows;
  }

  // A new state that leaves the data and the request alone.
  lemma NewStateIsSound(server: Server, w: World, t: State)
    requires Sound(server, w) && Tidy(t) && Same(w.hook.state, t)
    ensures Sound(server, w.(hook := w.hook.(state := t, revision := w.hook.revision + 1)))
  {
    hide Tidy, Coherent, In, Due;
  }

  // What a call of `requestCanonicalState` comes to.
  lemma StartIs(h: Hook, key: string)
    requires Tidy(h.state)
    ensures Start(h, key) ==
      if !h.enabled || h.state.scopeKey != key || h.controller.Some? then h
      else if Describe(h.state, h.nextId + 1).None? then h.(nextId := h.nextId + 1)
      else var request := Describe(h.state, h.nextId + 1).value;
        h.(nextId := h.nextId + 1, controller := Some(request.requestId), revision := h.revision + 1,
           state := h.state.(inFlight := Some(request.Identity()), refetchPending := false),
           fetches := h.fetches[request.requestId := Fetch(request, false)])
  {
    var d := Describe(h.state, h.nextId + 1);
    if d.Some? {
      StartTakes(h.state, h.nextId + 1);
    }
    hide Reduce, Stays, Describe, Tidy;
  }

  lemma StartIsSound(server: Server, w: World, key: string)
    requires Sound(server, w)
    ensures Sound(server, w.(hook := Start(w.hook, key)))
    ensures Start(w.hook, key).state.version == w.hook.state.version
  {
    var h := w.hook;
    StartIs(h, key);
    var d := Describe(h.state, h.nextId + 1);
    if d.Some? {
      StartTakes(h.state, h.nextId + 1);
    }
    hide Reduce, Stays, Describe, Start, Coherent, In;
    var h2 := Start(h, key);
    assert Tidy(h2.state);
    hide Tidy;
    assert OneRequest(h2, w.since);
  }

  lemma ChangeIsSound(server: Server, w: World, floor: Floor, url: string, enabled: bool)
    requires Sound(server, w) && w.hook.scope != ScopeKey(floor, url)
    ensures Sound(server, World(ChangeScope(w.hook, floor, url, enabled), w.hook.nextId, w.source))
  {
    hide FloorText, Backoff, ScopeKey, Coherent, In;
    StaysTidy(w.hook.state, FloorChanged(floor, Some(ScopeKey(floor, url))));
  }

  lemma ScopeIsSound(server: Server, w: World, normalise: Normalise, e: Event)
    requires Sound(server, w) && e.ScopeChanged?
    ensures Sound(server, Step(w, normalise, e))
    ensures !Changes(w.hook, e) ==> Step(w, normalise, e).hook == w.hook
  {
    hide Sound, ChangeScope, Effect, ScopeKey;
    if Changes(w.hook, e) {
      ChangeIsSound(server, w, e.floor, e.url, e.enabled);
      var moved := World(ChangeScope(w.hook, e.floor, e.url, e.enabled), w.hook.nextId, w.source);
      EffectIsSound(server, moved, e.atMs);
    }
  }

  lemma RenderIsSound(server: Server, w: World)
    requires Sound(server, w)
    ensures Sound(server, w.(hook := Render(w.hook))) && Render(w.hook).state == w.hook.state
  {
    hide Tidy, Shows;
  }

  lemma EffectIsSound(server: Server, w: World, atMs: int)
    requires Sound(server, w)
    ensures Sound(server, w.(hook := Effect(w.hook, atMs)))
    ensures Effect(w.hook, atMs).state.version == w.hook.state.version
  {
    var h := w.hook;
    var h1 := h.(seen := h.renderedRevision, timer := None);
    hide Reduce, Stays, Tidy, Describe, Coherent, In, Start, Dispatch;
    StartIsSound(server, w.(hook := h1), h.scope);
    AsideIsSound(server, w.(hook := h1), SafetyDue(atMs));
  }

  lemma PollIsSound(server: Server, w: World, atMs: int)
    requires Sound(server, w)
    ensures Sound(server, w.(hook := Poll(w.hook, atMs)))
    ensures Poll(w.hook, atMs).state.version == w.hook.state.version
  {
    hide Sound, Effect;
    EffectIsSound(server, w, atMs);
  }

  // ---- an answer ----

  lemma StaleChangesNothing(h: Hook, since: nat, normalise: Normalise, id: nat, answer: Answer, atMs: int)
    requires OneRequest(h, since) && !InFlightIs(h.state, id)
    ensures Settle(h, normalise, id, answer, atMs) == h.(fetches := h.fetches - {id})
  {
    hide AnswerAction, Reduce;
    if id !in h.fetches { assert h.fetches - {id} == h.fetches; }
  }

  lemma UnversionedIsNoAction(normalise: Normalise, atMs: int, current: Option<Data>, request: Descriptor, body: Fields)
    requires VersionOf(body) == None && FieldOf(body, "notModified") != Bool(true) && RecordAt(body, "patch") == None
    ensures ResponseAction(normalise, atMs, current, request, body).Err?
  {
    UnversionedStaysSo(normalise, current, body, request.floor);
    hide Merge, CoverageState, RefreshOf, TrimmedText, CanonicalVersion;
  }

  // An honest response becomes an action exactly when it has a version and merges, and the action carries its
  // version.
  lemma ActionIsCoherent(published: Published, atMs: int, current: Option<Data>, request: Descriptor, body: Fields)
    requires OnePerVersion(published) && HonestResponse(published, request.floor, request.knownVersion, body)
    requires Retains(published, request.floor, request.knownVersion, current)
    ensures ResponseAction(published.normalise, atMs, current, request, body).Ok?
            <==> VersionOf(body).Some? && Merge(published.normalise, current, body, request.floor).Ok?
    ensures ResponseAction(published.normalise, atMs, current, request, body).Ok? ==>
              var a := ResponseAction(published.normalise, atMs, current, request, body).value;
              && a.id == request.Identity()
              && (if FieldOf(body, "notModified") == Bool(true) then a.StateNotModified? else a.StateChanged?)
              && a.version == VersionOf(body).value
              && Coherent(published, request.floor, a.version, a.data)
  {
    HonestReads(published, request.floor, request.knownVersion, body);
    if VersionOf(body) == None {
      UnversionedIsNoAction(published.normalise, atMs, current, request, body);
    } else {
      MergeIsCoherent(published, request.floor, request.knownVersion, current, body);
      hide Merge, VersionOf, FloorOf, CoverageState, RefreshOf, TrimmedText, SamePayload, HonestResponse, OnePerVersion;
    }
  }

  // What the answer to the request in flight comes to.
  lemma SettleIs(h: Hook, since: nat, normalise: Normalise, id: nat, answer: Answer, atMs: int)
    requires Tidy(h.state) && OneRequest(h, since) && InFlightIs(h.state, id)
    ensures var a := AnswerAction(normalise, h.state.data, h.fetches[id], answer, atMs);
            && Owns(h.state, a.id) && !Stays(h.state, a)
            && Settle(h, normalise, id, answer, atMs)
               == h.(fetches := h.fetches - {id}, controller := None, state := Reduce(h.state, a),
                     revision := h.revision + 1)
  {
    hide AnswerAction, Reduce, FloorText;
  }

  lemma EndedIsSound(server: Server, w: World, id: nat, t: State, taken: bool)
    requires Sound(server, w) && InFlightIs(w.hook.state, id)
    requires Tidy(t) && t.inFlight == None && t.floor == w.hook.state.floor && t.scopeKey == w.hook.state.scopeKey
    requires Shows(server, t) && (t.data.Some? ==> taken || w.hook.state.data.Some?)
    ensures Sound(server, World(
              w.hook.(fetches := w.hook.fetches - {id}, controller := None, state := t,
                      revision := w.hook.revision + 1),
              w.since, if taken then Some(id) else w.source))
  {
    hide Tidy, Shows, Due;
  }

  // The state an answer to the request in flight leaves behind.
  lemma AnsweredShows(server: Server, s: State, normalise: Normalise, fetch: Fetch, answer: Answer, atMs: int)
    requires normalise == server.normalise
    requires Tidy(s) && Shows(server, s) && OnePerVersion(In(server, s.scopeKey))
    requires s.inFlight == Some(fetch.request.Identity()) && Remembers(s, fetch.request.knownVersion)
    requires answer.Delivered? ==>
               HonestResponse(In(server, s.scopeKey), fetch.request.floor, fetch.request.knownVersion, answer.body)
    ensures var a := AnswerAction(normalise, s.data, fetch, answer, atMs); var t := Reduce(s, a);
            && Tidy(t) && Shows(server, t)
            && t.inFlight == None && t.floor == s.floor && t.scopeKey == s.scopeKey
            && (t.data.Some? ==> Takes(s, a) || s.data.Some?)
            && Last(s.version) <= Last(t.version)
  {
    var a := AnswerAction(normalise, s.data, fetch, answer, atMs);
    EndLeaves(s, a);
    StaysTidy(s, a);
    StepKeepsOrder(s, a);
    if Takes(s, a) {
      TakenIsCoherent(In(server, s.scopeKey), s, normalise, fetch, answer, atMs);
    }
    hide Reduce, Stays, Takes, AnswerAction, Coherent, In, HonestResponse, OnePerVersion, FloorText, Last;
  }

  lemma OwnAnswerIsSound(server: Server, w: World, normalise: Normalise, e: Event)
    requires normalise == server.normalise
    requires OnePerScope(server) && Sound(server, w) && e.Answered? && Honest(server, w.hook, e)
    requires InFlightIs(w.hook.state, e.id)
    ensures Sound(server, Step(w, normalise, e))
    ensures Last(w.hook.state.version) <= Last(Step(w, normalise, e).hook.state.version)
  {
    hide Reduce, Stays, Takes, AnswerAction, Coherent, In, Settle, HonestResponse, OnePerVersion, FloorText, ScopeKey;
    var h, s := w.hook, w.hook.state;
    SettleIs(h, w.since, normalise, e.id, e.answer, e.atMs);
    var fetch := h.fetches[e.id];
    assert OnePerVersion(In(server, s.scopeKey));
    AnsweredShows(server, s, normalise, fetch, e.answer, e.atMs);
    hide OneRequest, Armed, Fresh, Tidy, Shows, OnePerScope, Honest, Last;
    var a := AnswerAction(normalise, s.data, fetch, e.answer, e.atMs);
    EndedIsSound(server, w, e.id, Reduce(s, a), Takes(s, a));
  }

  lemma StaleAnswerIsSound(server: Server, w: World, normalise: Normalise, e: Event)
    requires Sound(server, w) && e.Answered? && !InFlightIs(w.hook.state, e.id)
    ensures Step(w, normalise, e) == w.(hook := w.hook.(fetches := w.hook.fetches - {e.id}))
    ensures Sound(server, Step(w, normalise, e))
  {
    hide Reduce, Tidy, AnswerAction, Coherent, In, Settle, ScopeKey, FloorText, Shows;
    StaleChangesNothing(w.hook, w.since, normalise, e.id, e.answer, e.atMs);
    if e.id in w.hook.fetches {
      var a := AnswerAction(normalise, w.hook.state.data, w.hook.fetches[e.id], e.answer, e.atMs);
      assert a.id.requestId == e.id;
      assert !Takes(w.hook.state, a);
    }
  }

  lemma AnswerIsSound(server: Server, w: World, normalise: Normalise, e: Event)
    requires normalise == server.normalise
    requires OnePerScope(server) && Sound(server, w) && e.Answered? && Honest(server, w.hook, e)
    ensures Sound(server, Step(w, normalise, e))
    ensures Last(w.hook.state.version) <= Last(Step(w, normalise, e).hook.state.version)
  {
    hide Sound, Step, Honest, OnePerScope;
    if InFlightIs(w.hook.state, e.id) {
      OwnAnswerIsSound(server, w, normalise, e);
    } else {
      StaleAnswerIsSound(server, w, normalise, e);
    }
  }

  lemma TakenIsCoherent(published: Published, s: State, normalise: Normalise, fetch: Fetch, answer: Answer, atMs: int)
    requires normalise == published.normalise && OnePerVersion(published) && Tidy(s)
    requires s.data.Some? ==> Coherent(published, s.floor, s.version.value, s.data.value)
    requires fetch.request.floor == s.floor && Remembers(s, fetch.request.knownVersion)
    requires answer.Delivered? ==> HonestResponse(published, fetch.request.floor, fetch.request.knownVersion,
             answer.body)
    requires Takes(s, AnswerAction(normalise, s.data, fetch, answer, atMs))
    ensures var a := AnswerAction(normalise, s.data, fetch, answer, atMs);
            (a.StateChanged? || a.StateNotModified?) && Coherent(published, s.floor, a.version, a.data)
  {
    hide ResponseAction, MessageOf, HonestResponse, OnePerVersion, SamePayload, Stays, TrimmedText, NOT_LOADED,
      NO_VERSION;
    assert answer.Delivered? && ResponseAction(normalise, atMs, s.data, fetch.request, answer.body).Ok?;
    ActionIsCoherent(published, atMs, s.data, fetch.request, answer.body);
  }

  lemma StepIsSound(server: Server, w: World, normalise: Normalise, e: Event)
    requires normalise == server.normalise
    requires OnePerScope(server) && Sound(server, w) && Honest(server, w.hook, e)
    ensures Sound(server, Step(w, normalise, e))
    ensures !Changes(w.hook, e) ==> Last(w.hook.state.version) <= Last(Step(w, normalise, e).hook.state.version)
  {
    hide Sound, Honest, OnePerScope, Poll, Move, Dispatch, Start, Settle;
    match e {
      case ScopeChanged(_, _, _, _) => ScopeIsSound(server, w, normalise, e);
      case VisibilityTurned(v, _) => AsideIsSound(server, w, VisibilityChanged(v));
      case RetryAsked => AsideIsSound(server, w, RetryRequested);
      case RefreshAsked => AsideIsSound(server, w, RefreshRequested);
      case RefreshBroke(message) => AsideIsSound(server, w, RefreshFailed(message));
      case Called(key) => StartIsSound(server, w, key);
      case Answered(_, _, _) => AnswerIsSound(server, w, normalise, e);
      case Rendered => RenderIsSound(server, w);
      case Committed(atMs) => PollIsSound(server, w, atMs);
      case TimerFired(atMs) =>
        AsideIsSound(server, w, RefreshPollDue);
        AsideIsSound(server, w, SafetyDue(atMs));
    }
  }

  // The page as it is rendered first, then seen as it turns out to be seen.
  function Begin(floor: Floor, url: string, enabled: bool, visibility: Visibility, seen: Visibility, nowMs: int)
      : World {
    World(Mounted(floor, url, enabled, visibility, seen, nowMs), 0, None)
  }

  lemma BeginIsSound(server: Server, floor: Floor, url: string, enabled: bool, visibility: Visibility,
      seen: Visibility, nowMs: int)
    ensures Sound(server, Begin(floor, url, enabled, visibility, seen, nowMs))
  {
    hide ScopeKey, FloorText, In;
    var w := World(Created(floor, url, enabled, visibility), 0, None);
    assert Sound(server, w);
    hide Sound, Effect, Dispatch, Created;
    AsideIsSound(server, w, VisibilityChanged(seen));
    EffectIsSound(server, w.(hook := Dispatch(w.hook, VisibilityChanged(seen))), nowMs);
  }

  lemma {:induction false} SoundnessLasts(server: Server, w: World, normalise: Normalise, events: seq<Event>)
    requires normalise == server.normalise
    requires OnePerScope(server) && Sound(server, w) && HonestRun(server, w, normalise, events)
    ensures Sound(server, Run(w, normalise, events))
    decreases |events|
  {
    hide Sound, Honest, OnePerScope, Step;
    if events != [] {
      StepIsSound(server, w, normalise, events[0]);
      SoundnessLasts(server, Step(w, normalise, events[0]), normalise, events[1..]);
    }
  }

  // Every run from the mounting of the page is sound.
  lemma RunsAreSound(server: Server, floor: Floor, url: string, enabled: bool, visibility: Visibility,
      seen: Visibility, nowMs: int, normalise: Normalise, events: seq<Event>)
    requires normalise == server.normalise && OnePerScope(server)
    requires HonestRun(server, Begin(floor, url, enabled, visibility, seen, nowMs), normalise, events)
    ensures Sound(server, Run(Begin(floor, url, enabled, visibility, seen, nowMs), normalise, events))
  {
    hide Sound, Begin;
    BeginIsSound(server, floor, url, enabled, visibility, seen, nowMs);
    SoundnessLasts(server, Begin(floor, url, enabled, visibility, seen, nowMs), normalise, events);
  }

  // ---- what every run keeps ----

  predicate Unmoved(w: World, normalise: Normalise, events: seq<Event>)
    decreases |events|
  {
    events == [] || (!Changes(w.hook, events[0]) && Unmoved(Step(w, normalise, events[0]), normalise, events[1..]))
  }

  // Until the scope changes the version never falls.
  lemma {:induction false} VersionsNeverFall(server: Server, w: World, normalise: Normalise, events: seq<Event>)
    requires normalise == server.normalise
    requires OnePerScope(server) && Sound(server, w) && HonestRun(server, w, normalise, events)
    requires Unmoved(w, normalise, events)
    ensures Last(w.hook.state.version) <= Last(Run(w, normalise, events).hook.state.version)
    decreases |events|
  {
    hide Sound, Honest, OnePerScope, Step, Changes, Last;
    if events != [] {
      StepIsSound(server, w, normalise, events[0]);
      VersionsNeverFall(server, Step(w, normalise, events[0]), normalise, events[1..]);
    }
  }

  // What becomes of an honest response when its action is owned.
  lemma OwnedIsTaken(published: Published, s: State, fetch: Fetch, body: Fields, atMs: int)
    requires OnePerVersion(published) && Tidy(s) && Remembers(s, fetch.request.knownVersion)
    requires s.data.Some? ==> Coherent(published, s.floor, s.version.value, s.data.value)
    requires s.inFlight == Some(fetch.request.Identity())
    requires HonestResponse(published, fetch.request.floor, fetch.request.knownVersion, body)
    ensures Takes(s, AnswerAction(published.normalise, s.data, fetch, Delivered(body), atMs))
            <==> VersionOf(body).Some? && Last(s.version) <= VersionOf(body).value
  {
    hide Merge, ResponseAction, Coherent, FloorOf, VersionOf, OnePerVersion, HonestResponse, FloorText, MessageOf,
      TrimmedText, OrEmpty, RecordAt;
    var floor, known := fetch.request.floor, fetch.request.knownVersion;
    if s.data.Some? { CoherentReads(published, s.floor, s.version.value, s.data.value); }
    HonestReads(published, floor, known, body);
    if VersionOf(body).Some? { MergeIsCoherent(published, floor, known, s.data, body); }
    ActionIsCoherent(published, atMs, s.data, fetch.request, body);
  }

  // The honest answer to the request in flight is taken, whatever happened since it was sent, exactly when it has a
  // version and is not older than the version held; an answer "not modified" or a patch always is.
  lemma HonestAnswerIsTaken(server: Server, w: World, normalise: Normalise, e: Event)
    requires normalise == server.normalise
    requires OnePerScope(server) && Sound(server, w) && e.Answered? && Honest(server, w.hook, e)
    requires InFlightIs(w.hook.state, e.id) && e.answer.Delivered?
    ensures Brings(w.hook, normalise, e)
            <==> VersionOf(e.answer.body).Some? && Last(w.hook.state.version) <= VersionOf(e.answer.body).value
    ensures FieldOf(e.answer.body, "notModified") == Bool(true) || RecordAt(e.answer.body, "patch").Some?
            ==> Brings(w.hook, normalise, e)
  {
    var s, fetch := w.hook.state, w.hook.fetches[e.id];
    var here := In(server, s.scopeKey);
    assert here.normalise == normalise && OnePerVersion(here);
    hide OnePerScope, OnePerVersion, AnswerAction, Takes, VersionOf, FloorOf, HonestResponse, Coherent, In, FloorText;
    OwnedIsTaken(here, s, fetch, e.answer.body, e.atMs);
    HonestReads(here, s.floor, fetch.request.knownVersion, e.answer.body);
  }

  // ---- rejection ----

  // The request in flight was answered with something that is not, or not any more, the state's successor.
  predicate TurnedAway(h: Hook, normalise: Normalise, e: Event) {
    && e.Answered? && InFlightIs(h.state, e.id) && e.id in h.fetches && e.answer.Delivered?
    && match ResponseAction(normalise, e.atMs, h.state.data, h.fetches[e.id].request, e.answer.body)
       case Ok(a) => !Takes(h.state, a)
       case Err(failure) => failure.Unnormalised?
  }

  predicate NoneBrought(w: World, normalise: Normalise, events: seq<Event>)
    decreases |events|
  {
    events == [] || (!Brings(w.hook, normalise, events[0])
      && NoneBrought(Step(w, normalise, events[0]), normalise, events[1..]))
  }

  lemma StaysForgotten(s: State, a: Action)
    requires Forgotten(s) && !Takes(s, a)
    ensures Forgotten(Reduce(s, a))
  {
    hide FloorText, Backoff, PLANNING_FAILED, REGRESSIVE, UNRETAINED;
  }

  lemma StepForgets(w: World, normalise: Normalise, e: Event)
    requires Forgotten(w.hook.state) && !Brings(w.hook, normalise, e)
    ensures Forgotten(Step(w, normalise, e).hook.state)
  {
    var h := w.hook;
    hide Reduce, Stays, AnswerAction, Describe, ScopeKey, Forgotten, Effect, Takes, ChangeScope, Start;
    if e.Committed? {
      EffectForgets(h, e.atMs);
    } else if e.Called? {
      StartForgets(h, e.key);
    } else if e.ScopeChanged? {
      if h.scope != ScopeKey(e.floor, e.url) {
        MoveForgets(h, e.floor, e.url, e.enabled);
        EffectForgets(ChangeScope(h, e.floor, e.url, e.enabled), e.atMs);
      }
    } else {
      forall a: Action | !Takes(h.state, a) ensures Forgotten(Reduce(h.state, a)) { StaysForgotten(h.state, a); }
      forall a: Action | !a.StateChanged? && !a.StateNotModified? ensures !Takes(h.state, a) {
        TakesOnlyState(h.state, a);
      }
    }
  }

  lemma DispatchForgets(h: Hook, a: Action)
    requires Forgotten(h.state) && !a.StateChanged? && !a.StateNotModified?
    ensures Forgotten(Dispatch(h, a).state)
  {
    hide Reduce, Stays, Takes;
    TakesOnlyState(h.state, a);
    StaysForgotten(h.state, a);
  }

  lemma MoveForgets(h: Hook, floor: Floor, url: string, enabled: bool)
    requires Forgotten(h.state)
    ensures Forgotten(ChangeScope(h, floor, url, enabled).state)
  {
    hide Dispatch, Forgotten, ScopeKey;
    var a := FloorChanged(floor, Some(ScopeKey(floor, url)));
    var h1 := h.(fetches := Abort(h.fetches, h.controller), controller := None, scope := ScopeKey(floor, url),
                 enabled := enabled);
    DispatchForgets(h1, a);
  }

  lemma StartForgets(h: Hook, key: string)
    requires Forgotten(h.state)
    ensures Forgotten(Start(h, key).state)
  {
    hide Dispatch, Forgotten, Describe;
    var d := Describe(h.state, h.nextId + 1);
    if d.Some? {
      var h1 := h.(nextId := h.nextId + 1, controller := Some(d.value.requestId));
      DispatchForgets(h1, RequestStarted(d.value.Identity()));
    }
  }

  lemma EffectForgets(h: Hook, nowMs: int)
    requires Forgotten(h.state)
    ensures Forgotten(Effect(h, nowMs).state)
  {
    hide Dispatch, Forgotten, Start, Due, PollDelay;
    var h1 := h.(seen := h.renderedRevision, timer := None);
    StartForgets(h1, h.scope);
    DispatchForgets(h1, SafetyDue(nowMs));
  }

  lemma {:induction false} ForgottenLasts(w: World, normalise: Normalise, events: seq<Event>)
    requires Forgotten(w.hook.state) && NoneBrought(w, normalise, events)
    ensures Forgotten(Run(w, normalise, events).hook.state)
    decreases |events|
  {
    hide Forgotten, Brings, Step;
    if events != [] {
      StepForgets(w, normalise, events[0]);
      ForgottenLasts(Step(w, normalise, events[0]), normalise, events[1..]);
    }
  }

  lemma RejectingForgets(s: State, a: Action)
    requires (a.StateInvalid? || a.StateChanged? || a.StateNotModified?) && Owns(s, a.id) && !Takes(s, a)
    ensures Forgotten(Reduce(s, a))
  {
    hide FloorText, Backoff, PLANNING_FAILED, REGRESSIVE, UNRETAINED;
  }

  lemma RejectionForgets(w: World, normalise: Normalise, e: Event)
    requires Tidy(w.hook.state) && OneRequest(w.hook, w.since) && TurnedAway(w.hook, normalise, e)
    ensures Forgotten(Step(w, normalise, e).hook.state)
  {
    hide Reduce, Takes, Stays, ScopeKey, ResponseAction, MessageOf, Settle, Tidy;
    var s, fetch := w.hook.state, w.hook.fetches[e.id];
    SettleIs(w.hook, w.since, normalise, e.id, e.answer, e.atMs);
    MergedIsAState(normalise, e.atMs, s.data, fetch.request, e.answer.body);
    var a := AnswerAction(normalise, s.data, fetch, e.answer, e.atMs);
    assert !fetch.aborted;
    if a.RequestFailed? {
      assert fetch.request.knownVersion == None;
      assert !Takes(s, a) by { hide *; TakesOnlyState(s, a); }
      StaysForgotten(s, a);
    } else {
      assert !Takes(s, a) by { if a.StateInvalid? { TakesOnlyState(s, a); } }
      RejectingForgets(s, a);
    }
  }

  lemma MergedIsAState(normalise: Normalise, atMs: int, current: Option<Data>, request: Descriptor, body: Fields)
    ensures var r := ResponseAction(normalise, atMs, current, request, body);
            r.Ok? ==> r.value.StateChanged? || r.value.StateNotModified?
  {
    hide Merge, VersionOf, CoverageState, RefreshOf, TrimmedText;
  }

  lemma TakesOnlyState(s: State, a: Action)
    requires !a.StateChanged? && !a.StateNotModified?
    ensures !Takes(s, a)
  {
  }

  // After a response was turned away, whatever happens until an answer is taken, no request names a version.
  lemma RejectedNamesNoVersion(w: World, normalise: Normalise, e: Event, later: seq<Event>, requestId: nat)
    requires Tidy(w.hook.state) && OneRequest(w.hook, w.since) && TurnedAway(w.hook, normalise, e)
    requires NoneBrought(Step(w, normalise, e), normalise, later)
    ensures var d := Describe(Run(Step(w, normalise, e), normalise, later).hook.state, requestId);
            d.Some? ==> d.value.knownVersion == None
  {
    RejectionForgets(w, normalise, e);
    ForgottenLasts(Step(w, normalise, e), normalise, later);
    hide Step, NoneBrought;
  }
}

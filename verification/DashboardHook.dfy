// The hook that runs the dashboard delivery: what a response becomes, and the effects and callbacks
// that drive the reducer. An awaited call is two steps, one up to the request and one for its answer,
// so that anything may happen between them.
module DashboardHook {
  import opened Wrappers
  import opened Text
  import opened Json
  import opened ResumableStore
  import opened DashboardMerge
  import opened DashboardState

  const NOT_LOADED := "Dashboard data could not be loaded."
  const NO_VERSION := "Dashboard canonical state did not include a valid version."

  // ---- what a response becomes ----

  function RefreshOf(status: Fields): Refresh {
    var word := FieldOf(status, "status");
    if word == Str("queued") then Pending
    else if word == Str("running") then Running
    else if word == Str("failed") then Failed
    else if FieldOf(status, "isRefreshing") == Bool(true) then Pending
    else Idle
  }

  function TrimmedText(value: Json): Option<string> {
    match value
    case Str(s) => (var t := Trim(s); if t == "" then None else Some(t))
    case _ => None
  }

  predicate Truncated(section: Json) {
    match section case Obj(fields) => FieldOf(fields, "truncated") == Bool(true) case _ => false
  }

  function CoverageState(normalise: Normalise, data: Fields): Coverage {
    match CoverageOf(normalise, data)
    case Some(sections) => if exists name <- sections.Keys :: Truncated(sections[name]) then Partial else Complete
    case None => Complete
  }

  datatype Failure = Unnormalised(error: MergeError) | Unversioned

  // `dashboardDeliveryResponseAction`
  function ResponseAction(normalise: Normalise, atMs: int, current: Option<Data>, request: Descriptor, body: Fields)
    : Result<Action, Failure>
  {
    match Merge(normalise, current, body, request.floor)
    case Err(e) => Err(Unnormalised(e))
    case Ok(data) =>
      var dashboard := OrEmpty(RecordAt(data, "dashboard"));
      match OrElse(CanonicalVersion(FieldOf(data, "version")), CanonicalVersion(FieldOf(dashboard, "readModelVersion")))
      case None => Err(Unversioned)
      case Some(version) =>
        var status := OrEmpty(RecordAt(data, "status"));
        var refreshError := TrimmedText(FieldOf(status, "lastError"));
        if FieldOf(body, "notModified") == Bool(true) then
          Ok(StateNotModified(request.Identity(), atMs, data, RefreshOf(status), refreshError, version))
        else
          Ok(StateChanged(request.Identity(), atMs, CoverageState(normalise, data), data, RefreshOf(status),
            refreshError, version))
  }

  datatype Answer = Delivered(body: Fields) | Refused(status: int, body: Fields) | Broken(message: string)

  datatype Fetch = Fetch(request: Descriptor, aborted: bool)

  // The catch clause: an aborted request, a response that cannot be the retained state's, or a failure.
  function Thrown(fetch: Fetch, unnormalised: bool, atMs: int, message: string): Action {
    if fetch.aborted then RequestAborted(fetch.request.Identity())
    else if unnormalised && fetch.request.knownVersion.Some? then StateInvalid(fetch.request.Identity(), message)
    else RequestFailed(fetch.request.Identity(), atMs, message, false)
  }

  function AnswerAction(normalise: Normalise, current: Option<Data>, fetch: Fetch, answer: Answer,
      atMs: int): (a: Action)
    ensures a.Ends() && a.id == fetch.request.Identity()
  {
    match answer
    case Refused(status, body) =>
      RequestFailed(fetch.request.Identity(), atMs, TrimmedText(FieldOf(body, "error")).GetOr(NOT_LOADED),
        status == 401 || status == 403)
    case Broken(message) => Thrown(fetch, false, atMs, message)
    case Delivered(body) =>
      match ResponseAction(normalise, atMs, current, fetch.request, body)
      case Ok(action) => action
      case Err(Unnormalised(e)) => Thrown(fetch, true, atMs, MessageOf(e))
      case Err(Unversioned) => Thrown(fetch, false, atMs, NO_VERSION)
  }

  // ---- the hook's variables ----

  // `state` is the newest state, which the callbacks read, and `revision` counts the new states the reducer has
  // made. `rendered` is the state the page was last rendered with, the one of `renderedRevision`, and `seen` the
  // revision the poll effect last ran for. `timer` is the time a set timeout is meant to fire at.
  datatype Hook = Hook(
    state: State, revision: nat, rendered: State, renderedRevision: nat, seen: nat, timer: Option<int>,
    nextId: nat, controller: Option<nat>, fetches: map<nat, Fetch>, scope: string, enabled: bool)

  function ScopeKey(floor: Floor, url: string): string {
    FloorText(floor) + ":" + url
  }

  // The first render.
  function Created(floor: Floor, url: string, enabled: bool, visibility: Visibility): Hook {
    var s := Create(floor, visibility, ScopeKey(floor, url));
    Hook(s, 1, s, 1, 0, None, 0, None, map[], ScopeKey(floor, url), enabled)
  }

  function Dispatch(h: Hook, a: Action): Hook {
    if Stays(h.state, a) then h else h.(state := Reduce(h.state, a), revision := h.revision + 1)
  }

  predicate InFlightIs(s: State, requestId: nat) {
    s.inFlight.Some? && s.inFlight.value.requestId == requestId
  }

  // `requestCanonicalState` up to its fetch, as the callback made for the given scope.
  function Start(h: Hook, key: string): Hook {
    if !h.enabled || h.state.scopeKey != key || h.controller.Some? then h
    else
      var h1 := h.(nextId := h.nextId + 1);
      match Describe(h.state, h1.nextId)
      case None => h1
      case Some(request) =>
        var h2 := Dispatch(h1.(controller := Some(request.requestId)), RequestStarted(request.Identity()));
        if !InFlightIs(h2.state, request.requestId) then h2.(controller := None)
        else h2.(fetches := h2.fetches[request.requestId := Fetch(request, false)])
  }

  lemma DescribedByNumber(s: State, requestId: nat)
    ensures var d := Describe(s, requestId); d.Some? ==> d.value.requestId == requestId
  {
  }

  lemma NewScopeStartsOver(s: State, floor: Floor, key: string)
    ensures var a := FloorChanged(floor, Some(key)); !Stays(s, a) && Reduce(s, a) == Create(floor, s.visibility, key)
  {
  }

  lemma StartKeepsPlace(h: Hook, key: string)
    ensures var t := Start(h, key);
            t == h.(state := t.state, revision := t.revision, nextId := t.nextId,
                    controller := t.controller, fetches := t.fetches)
  {
    hide Reduce, Stays, Describe;
  }

  // The rest of it, when the fetch is answered.
  function Settle(h: Hook, normalise: Normalise, id: nat, answer: Answer, atMs: int): Hook {
    if id !in h.fetches then h
    else
      var action := AnswerAction(normalise, h.state.data, h.fetches[id], answer, atMs);
      var h1 := Dispatch(h.(fetches := h.fetches - {id}), action);
      if h1.controller == Some(id) then h1.(controller := None) else h1
  }

  function Abort(fetches: map<nat, Fetch>, controller: Option<nat>): map<nat, Fetch> {
    if controller.Some? && controller.value in fetches
    then fetches[controller.value := fetches[controller.value].(aborted := true)] else fetches
  }

  function ChangeScope(h: Hook, floor: Floor, url: string, enabled: bool): Hook {
    var key := ScopeKey(floor, url);
    if h.scope == key then h
    else
      Dispatch(h.(fetches := Abort(h.fetches, h.controller), controller := None, scope := key, enabled := enabled),
               FloorChanged(floor, Some(key)))
  }

  // The page is rendered with the newest state.
  function Render(h: Hook): Hook {
    h.(rendered := h.state, renderedRevision := h.revision)
  }

  // The poll effect: it clears the timeout it set before and reads the rendered state, which may be overtaken
  // already.
  function Effect(h: Hook, nowMs: int): Hook {
    var h1 := h.(seen := h.renderedRevision, timer := None);
    if !h.enabled then h1
    else
      match PollDelay(h.rendered, nowMs)
      case None => h1
      case Some(delay) =>
        if delay > 0 then h1.(timer := Some(nowMs + delay))
        else if Due(h.rendered) then Start(h1, h.scope)
        else Dispatch(h1, SafetyDue(nowMs))
  }

  // The effects after a render in the same scope: the poll effect runs if the state rendered is another.
  function Poll(h: Hook, nowMs: int): Hook {
    if h.seen == h.renderedRevision then h else Effect(h, nowMs)
  }

  // The effects after a render in another scope: the poll effect follows the change of scope and still reads the
  // state rendered before it.
  function Move(h: Hook, floor: Floor, url: string, enabled: bool, nowMs: int): Hook {
    if h.scope == ScopeKey(floor, url) then h else Effect(ChangeScope(h, floor, url, enabled), nowMs)
  }

  // The effects after the first render: how the page is seen is told to the reducer, then the poll effect runs.
  function Mounted(floor: Floor, url: string, enabled: bool, visibility: Visibility, seen: Visibility, nowMs: int)
      : Hook {
    Effect(Dispatch(Created(floor, url, enabled, visibility), VisibilityChanged(seen)), nowMs)
  }

  function FireTimer(h: Hook, nowMs: int): Hook {
    if h.timer == None then h
    else
      Dispatch(h.(timer := None),
        if h.state.refresh == Pending || h.state.refresh == Running then RefreshPollDue else SafetyDue(nowMs))
  }

  datatype Event =
    | ScopeChanged(floor: Floor, url: string, enabled: bool, atMs: int)
    | VisibilityTurned(seen: Visibility, atMs: int)
    | RetryAsked
    | RefreshAsked
    | RefreshBroke(message: string)
    | Called(key: string)
    | Answered(id: nat, answer: Answer, atMs: int)
    | Rendered
    | Committed(atMs: int)
    | TimerFired(atMs: int)

  function Next(h: Hook, normalise: Normalise, e: Event): Hook {
    match e
    case ScopeChanged(floor, url, enabled, atMs) => Move(h, floor, url, enabled, atMs)
    case VisibilityTurned(seen, _) => Dispatch(h, VisibilityChanged(seen))
    case RetryAsked => Dispatch(h, RetryRequested)
    case RefreshAsked => Dispatch(h, RefreshRequested)
    case RefreshBroke(message) => Dispatch(h, RefreshFailed(message))
    case Called(key) => Start(h, key)
    case Answered(id, answer, atMs) => Settle(h, normalise, id, answer, atMs)
    case Rendered => Render(h)
    case Committed(atMs) => Poll(h, atMs)
    case TimerFired(atMs) => FireTimer(h, atMs)
  }

  // ---- the hook itself ----

  class Delivery {
    const normalise: Normalise
    var stateRef: State
    var revision: nat
    var rendered: State
    var renderedRevision: nat
    var seen: nat
    var timer: Option<int>
    var requestIdRef: nat
    var requestControllerRef: Option<nat>
    var fetches: map<nat, Fetch>
    var scopeRef: string
    var enabled: bool

    function View(): Hook
      reads this
    {
      Hook(stateRef, revision, rendered, renderedRevision, seen, timer, requestIdRef, requestControllerRef, fetches,
           scopeRef, enabled)
    }

    constructor (normalise: Normalise, floor: Floor, url: string, enabled: bool, visibility: Visibility)
      ensures View() == Created(floor, url, enabled, visibility) && this.normalise == normalise
    {
      this.normalise := normalise;
      stateRef := Create(floor, visibility, ScopeKey(floor, url));
      rendered := Create(floor, visibility, ScopeKey(floor, url));
      revision, renderedRevision, seen, timer := 1, 1, 0, None;
      requestIdRef, requestControllerRef, fetches := 0, None, map[];
      scopeRef := ScopeKey(floor, url);
      this.enabled := enabled;
    }

    method Dispatched(a: Action)
      modifies this`stateRef, this`revision
      ensures old(revision) <= revision
      ensures View() == Dispatch(old(View()), a)
    {
      hide Reduce, Stays;
      if !Stays(stateRef, a) {
        stateRef := Reduce(stateRef, a);
        revision := revision + 1;
      }
    }

    method RequestCanonicalState(key: string)
      modifies this`stateRef, this`revision, this`requestIdRef, this`requestControllerRef, this`fetches
      ensures old(revision) <= revision
      ensures old(requestIdRef) <= requestIdRef <= old(requestIdRef) + 1
      ensures View() == Start(old(View()), key)
      ensures fetches != old(fetches) ==>
                && enabled && scopeRef == old(scopeRef) && key == old(stateRef).scopeKey
                   && old(requestControllerRef) == None
                && fetches == old(fetches)[requestIdRef := Fetch(fetches[requestIdRef].request, false)]
                && requestIdRef == old(requestIdRef) + 1 && requestControllerRef == Some(requestIdRef)
                && InFlightIs(stateRef, requestIdRef)
    {
      hide Reduce, Stays, Describe;
      if !enabled { return; }
      if stateRef.scopeKey != key { return; }
      if requestControllerRef.Some? { return; }
      requestIdRef := requestIdRef + 1;
      var described := Describe(stateRef, requestIdRef);
      DescribedByNumber(stateRef, requestIdRef);
      if described.None? { return; }
      var request := described.value;
      requestControllerRef := Some(request.requestId);
      Dispatched(RequestStarted(request.Identity()));
      if !InFlightIs(stateRef, request.requestId) {
        requestControllerRef := None;
        return;
      }
      fetches := fetches[request.requestId := Fetch(request, false)];
    }

    method Settled(id: nat, answer: Answer, atMs: int)
      modifies this`stateRef, this`revision, this`requestControllerRef, this`fetches
      ensures old(revision) <= revision
      ensures View() == Settle(old(View()), normalise, id, answer, atMs)
      ensures fetches == old(fetches) - {id}
      ensures id in old(fetches) ==> requestControllerRef != Some(id)
      ensures id !in old(fetches) ==> View() == old(View())
    {
      hide Reduce, Stays, AnswerAction;
      if id !in fetches { return; }
      var action := AnswerAction(normalise, stateRef.data, fetches[id], answer, atMs);
      fetches := fetches - {id};
      Dispatched(action);
      if requestControllerRef == Some(id) { requestControllerRef := None; }
    }

    method ScopeEffect(floor: Floor, url: string, deliveryEnabled: bool)
      modifies this`stateRef, this`revision, this`requestControllerRef, this`fetches, this`scopeRef, this`enabled
      ensures old(revision) <= revision
      ensures fetches.Keys == old(fetches).Keys
      ensures View() == ChangeScope(old(View()), floor, url, deliveryEnabled)
      ensures scopeRef == ScopeKey(floor, url)
      ensures old(scopeRef) == scopeRef ==> View() == old(View())
      ensures old(scopeRef) != scopeRef ==>
                && requestControllerRef == None && stateRef.data == None && stateRef.inFlight == None
                   && stateRef.scopeKey == scopeRef
                && (old(requestControllerRef).Some? && old(requestControllerRef).value in old(fetches) ==>
                      fetches[old(requestControllerRef).value].aborted)
    {
      NewScopeStartsOver(stateRef, floor, ScopeKey(floor, url));
      hide Reduce, Stays, ScopeKey;
      var key := ScopeKey(floor, url);
      if scopeRef == key { return; }
      enabled := deliveryEnabled;
      if requestControllerRef.Some? && requestControllerRef.value in fetches {
        var id := requestControllerRef.value;
        fetches := fetches[id := fetches[id].(aborted := true)];
      }
      requestControllerRef := None;
      scopeRef := key;
      Dispatched(FloorChanged(floor, Some(key)));
    }

    method Rerender()
      modifies this`rendered, this`renderedRevision
      ensures View() == Render(old(View()))
      ensures rendered == stateRef && renderedRevision == revision
    {
      rendered, renderedRevision := stateRef, revision;
    }

    method PollEffect(nowMs: int)
      modifies this`stateRef, this`revision, this`requestIdRef, this`requestControllerRef, this`fetches
      modifies this`seen, this`timer
      ensures old(revision) <= revision
      ensures old(requestIdRef) <= requestIdRef <= old(requestIdRef) + 1
      ensures forall id :: id in fetches && id !in old(fetches) ==> id == requestIdRef == old(requestIdRef) + 1
      ensures View() == Effect(old(View()), nowMs)
      ensures seen == renderedRevision
      ensures timer.Some? && timer != old(timer) ==>
                && enabled && stateRef == old(stateRef) && timer.value > nowMs
                && rendered.visibility == Visible && rendered.safetyDeadlineMs == timer
    {
      hide Reduce, Stays, Start;
      seen, timer := renderedRevision, None;
      if !enabled { return; }
      var delay := PollDelay(rendered, nowMs);
      if delay == None { return; }
      if delay.value == 0 {
        StartKeepsPlace(View(), scopeRef);
        if rendered.request == Initial || rendered.request == CanonicalState {
          RequestCanonicalState(scopeRef);
        } else {
          Dispatched(SafetyDue(nowMs));
        }
        return;
      }
      timer := Some(nowMs + delay.value);
    }

    method Timeout(nowMs: int)
      modifies this`stateRef, this`revision, this`timer
      ensures old(revision) <= revision
      ensures View() == FireTimer(old(View()), nowMs)
      ensures timer == None
    {
      hide Reduce, Stays;
      if timer == None { return; }
      timer := None;
      if stateRef.refresh == Pending || stateRef.refresh == Running {
        Dispatched(RefreshPollDue);
      } else {
        Dispatched(SafetyDue(nowMs));
      }
    }

    // The effects that run once, after the first render.
    method MountEffects(seen: Visibility, nowMs: int)
      modifies this
      ensures View() == Effect(Dispatch(old(View()), VisibilityChanged(seen)), nowMs)
    {
      hide Effect, Dispatch;
      Dispatched(VisibilityChanged(seen));
      PollEffect(nowMs);
    }

    // Any event, in the form the runs below speak of.
    method Handle(e: Event)
      modifies this
      ensures View() == Next(old(View()), normalise, e)
      ensures old(revision) <= revision && old(requestIdRef) <= requestIdRef <= old(requestIdRef) + 1
      ensures forall id :: id in fetches && id !in old(fetches) ==> id == requestIdRef == old(requestIdRef) + 1
      ensures e.Answered? ==> e.id !in fetches
      ensures e.ScopeChanged? ==> scopeRef == ScopeKey(e.floor, e.url)
      ensures !e.ScopeChanged? ==> scopeRef == old(scopeRef) && enabled == old(enabled)
      ensures e.Rendered? ==> rendered == stateRef == old(stateRef) && renderedRevision == revision
      ensures !e.Rendered? ==> rendered == old(rendered) && renderedRevision == old(renderedRevision)
    {
      hide Start, Settle, ChangeScope, Render, Effect, FireTimer, Dispatch, ScopeKey;
      match e {
        case ScopeChanged(floor, url, on, atMs) =>
          if scopeRef != ScopeKey(floor, url) {
            ScopeEffect(floor, url, on);
            PollEffect(atMs);
          }
        case VisibilityTurned(s, _) => Dispatched(VisibilityChanged(s));
        case RetryAsked => Dispatched(RetryRequested);
        case RefreshAsked => Dispatched(RefreshRequested);
        case RefreshBroke(message) => Dispatched(RefreshFailed(message));
        case Called(key) => RequestCanonicalState(key);
        case Answered(id, answer, atMs) => Settled(id, answer, atMs);
        case Rendered => Rerender();
        case Committed(atMs) => if seen != renderedRevision { PollEffect(atMs); }
        case TimerFired(atMs) => Timeout(atMs);
      }
    }
  }
}

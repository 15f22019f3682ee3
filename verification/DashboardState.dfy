// The client's dashboard delivery state: one reducer over every action, and what it asks for next.
module DashboardState {
  import opened Wrappers
  import opened Json

  // The dashboard record the client holds.
  type Data = Fields

  const SAFETY_REFRESH_MS := 2500
  const PLANNING_FAILED := "Planning recalculation failed."
  const REGRESSIVE := "A regressive dashboard version was rejected; canonical refetch required."
  const UNRETAINED := "An unchanged response requires retained same-floor dashboard data."

  datatype Payload = Absent | Current | Stale
  datatype RequestState = Initial | CanonicalState | Settled | Error
  datatype Refresh = Idle | Pending | Running | Failed
  datatype Coverage = Complete | Partial
  datatype Visibility = Visible | Hidden

  datatype Request = Request(floor: Floor, scopeKey: Option<string>, requestId: nat)

  datatype Descriptor = Descriptor(floor: Floor, scopeKey: string, requestId: nat, knownVersion: Option<nat>) {
    function Identity(): Request {
      Request(floor, Some(scopeKey), requestId)
    }
  }

  datatype State = State(
    accessDenied: bool,
    failureCount: nat,
    scopeKey: string,
    coverage: Coverage,
    data: Option<Data>,
    floor: Floor,
    inFlight: Option<Request>,
    lastError: Option<string>,
    lastSuccessfulAtMs: Option<int>,
    payload: Payload,
    refresh: Refresh,
    refetchPending: bool,
    request: RequestState,
    safetyDeadlineMs: Option<int>,
    suppressKnownVersion: bool,
    version: Option<nat>,
    visibility: Visibility)

  datatype Action =
    | FloorChanged(to: Floor, toScope: Option<string>)
    | RefreshFailed(message: string)
    | RefreshPollDue
    | RefreshRequested
    | RefreshRunning
    | RetryRequested
    | SafetyDue(dueAtMs: int)
    | VisibilityChanged(seen: Visibility)
    | RequestStarted(id: Request)
    | RequestFailed(id: Request, atMs: int, message: string, denied: bool)
    | RequestAborted(id: Request)
    | StateInvalid(id: Request, message: string)
    | StateChanged(id: Request, atMs: int, coverage: Coverage, data: Data, refresh: Refresh,
      refreshError: Option<string>, version: nat)
    | StateNotModified(id: Request, atMs: int, data: Data, refresh: Refresh, refreshError: Option<string>, version: nat)
  {
    // Actions that report how a request ended.
    predicate Ends() {
      RequestFailed? || RequestAborted? || StateInvalid? || StateChanged? || StateNotModified?
    }
  }

  function Create(floor: Floor, visibility: Visibility, scopeKey: string): State {
    State(false, 0, scopeKey, Complete, None, floor, None, None, None, Absent, Idle, false, Initial, None, false, None,
      visibility)
  }

  predicate Owns(s: State, id: Request) {
    && s.inFlight.Some? && s.inFlight.value.requestId == id.requestId
    && s.inFlight.value.floor == id.floor
    && s.floor == id.floor
    && (id.scopeKey == None || Some(s.scopeKey) == id.scopeKey)
  }

  predicate Due(s: State) {
    s.request == Initial || s.request == CanonicalState
  }

  // The actions on which the reducer returns the very state it was given.
  predicate Stays(s: State, a: Action) {
    match a
    case RefreshPollDue => s.visibility == Hidden || (s.refresh != Pending && s.refresh != Running)
    case SafetyDue(at) => s.visibility == Hidden || s.safetyDeadlineMs == None || at < s.safetyDeadlineMs.value
    case RequestStarted(id) =>
      s.floor != id.floor || (id.scopeKey != None && Some(s.scopeKey) != id.scopeKey)
      || s.inFlight != None || !Due(s) || s.visibility == Hidden
    case _ => a.Ends() && !Owns(s, a.id)
  }

  function Held(data: Option<Data>): Payload {
    if data.None? then Absent else Stale
  }

  function Backoff(failures: nat): (ms: int)
    ensures SAFETY_REFRESH_MS < ms <= 30000
  {
    var factor := if failures == 0 then 2 else if failures == 1 then 4 else if failures == 2 then 8 else 16;
    if SAFETY_REFRESH_MS * factor < 30000 then SAFETY_REFRESH_MS * factor else 30000
  }

  function Rejected(s: State, message: string): State {
    s.(inFlight := None, lastError := Some(message), payload := Held(s.data), refetchPending := true,
       request := CanonicalState, suppressKnownVersion := true)
  }

  // An accepted answer, modified or not; the coverage and the version stay when it was not modified.
  function Accepted(s: State, atMs: int, data: Data, refresh: Refresh, refreshError: Option<string>): State {
    s.(accessDenied := false, failureCount := 0, data := Some(data), inFlight := None,
       lastError := if refresh == Failed then Some(refreshError.GetOr(PLANNING_FAILED)) else None,
       lastSuccessfulAtMs := Some(atMs),
       payload := if refresh == Failed then Stale else Current,
       refresh := refresh,
       request := if s.refetchPending then CanonicalState else Settled,
       safetyDeadlineMs := Some(atMs + SAFETY_REFRESH_MS),
       suppressKnownVersion := false)
  }

  // Whether an owned answer is taken.
  predicate Takes(s: State, a: Action) {
    && !Stays(s, a)
    && match a
       case StateChanged(_, _, _, _, _, _, version) => s.version.Some? ==> s.version.value <= version
       case StateNotModified(_, _, _, _, _, version) => s.data.Some? && s.version == Some(version)
       case _ => false
  }

  // `dashboardDeliveryReducer`
  function Reduce(s: State, a: Action): State {
    if Stays(s, a) then s else
    match a
    case FloorChanged(to, toScope) => Create(to, s.visibility, toScope.GetOr(FloorText(to)))
    case RefreshRequested => s.(refresh := Pending, refetchPending := true, request := CanonicalState)
    case RefreshRunning => s.(refresh := Running)
    case RefreshFailed(message) =>
      s.(lastError := Some(message), payload := Held(s.data), refresh := Failed,
         request := if s.data.None? then Error else Settled)
    case RefreshPollDue => s.(refetchPending := true, request := CanonicalState)
    case RetryRequested =>
      s.(lastError := None, refetchPending := true, request := if s.data.None? then Initial else CanonicalState)
    case SafetyDue(_) => s.(refetchPending := true, request := CanonicalState)
    case VisibilityChanged(seen) =>
      if seen == Hidden then s.(visibility := Hidden)
      else
        s.(refetchPending := true, request := if s.data.None? then Initial else CanonicalState, visibility := Visible)
    case RequestStarted(id) => s.(inFlight := Some(id), refetchPending := false)
    case RequestFailed(_, atMs, message, denied) =>
      var data := if denied then None else s.data;
      s.(inFlight := None, lastError := Some(message), accessDenied := s.accessDenied || denied, data := data,
         failureCount := s.failureCount + 1, payload := Held(data), request := if data.None? then Error else Settled,
         safetyDeadlineMs := Some(atMs + Backoff(s.failureCount)))
    case RequestAborted(_) => s.(inFlight := None, refetchPending := true)
    case StateInvalid(_, message) => Rejected(s, message)
    case StateChanged(_, atMs, coverage, data, refresh, refreshError, version) =>
      if Takes(s, a) then
        Accepted(s, atMs, data, refresh, refreshError).(coverage := coverage, version := Some(version))
      else
        Rejected(s, REGRESSIVE)
    case StateNotModified(_, atMs, data, refresh, refreshError, version) =>
      if Takes(s, a) then Accepted(s, atMs, data, refresh, refreshError)
      else Rejected(s, UNRETAINED)
  }

  // `dashboardDeliveryPollDelay`
  function PollDelay(s: State, nowMs: int): Option<nat> {
    if s.visibility == Hidden || s.inFlight != None then None
    else if Due(s) then Some(0)
    else if s.safetyDeadlineMs == None then None
    else if s.safetyDeadlineMs.value <= nowMs then Some(0)
    else Some(s.safetyDeadlineMs.value - nowMs)
  }

  // `dashboardRequestDescriptor`
  function Describe(s: State, requestId: nat): Option<Descriptor> {
    if s.visibility == Hidden || s.inFlight != None || !Due(s) then None
    else Some(Descriptor(s.floor, s.scopeKey, requestId,
      if s.request == Initial || s.data.None? || s.suppressKnownVersion then None else s.version))
  }

  // What every reachable state satisfies.
  predicate Tidy(s: State) {
    && (s.payload == Absent <==> s.data.None?)
    && (s.accessDenied ==> s.data.None?)
    && (s.data.Some? ==> s.version.Some? && s.safetyDeadlineMs.Some? && s.lastSuccessfulAtMs.Some?)
    && (s.request == Settled ==> s.data.Some?)
    && (s.request == Initial || s.request == Error ==> s.data.None?)
    && (s.inFlight.Some? ==> s.inFlight.value.floor == s.floor
                             && (s.inFlight.value.scopeKey == None || s.inFlight.value.scopeKey == Some(s.scopeKey)))
  }

  function Last(version: Option<nat>): int {
    if version.Some? then version.value else -1
  }

  lemma AnswerStaysTidy(s: State, a: Action)
    requires Tidy(s) && (a.StateChanged? || a.StateNotModified? || a.StateInvalid?)
    ensures Tidy(Reduce(s, a))
  {
    hide FloorText, Backoff, PLANNING_FAILED, REGRESSIVE, UNRETAINED;
  }

  // What one action keeps, whatever it is.
  lemma StaysTidy(s: State, a: Action)
    requires Tidy(s)
    ensures Tidy(Reduce(s, a))
  {
    hide FloorText, Backoff, PLANNING_FAILED, REGRESSIVE, UNRETAINED, Takes;
    if a.StateChanged? || a.StateNotModified? || a.StateInvalid? {
      AnswerStaysTidy(s, a);
    }
  }

  lemma StepKeepsOrder(s: State, a: Action)
    ensures !a.FloorChanged? ==> Last(s.version) <= Last(Reduce(s, a).version)
    ensures !a.FloorChanged? && !a.RequestStarted? && s.refetchPending ==> Reduce(s, a).refetchPending
    ensures !a.FloorChanged? && !Takes(s, a) && s.suppressKnownVersion ==> Reduce(s, a).suppressKnownVersion
  {
    hide FloorText, Backoff, PLANNING_FAILED, REGRESSIVE, UNRETAINED;
  }

  function Run(s: State, actions: seq<Action>): State
    decreases |actions|
  {
    if actions == [] then s else Run(Reduce(s, actions[0]), actions[1..])
  }

  predicate WithoutFloorChange(actions: seq<Action>) {
    forall a <- actions :: !a.FloorChanged?
  }

  // Over every sequence of actions the state is tidy; until the floor changes the version never falls,
  // and a pending refetch waits for the next start.
  lemma {:induction false} RunsKeepOrder(s: State, actions: seq<Action>)
    requires Tidy(s)
    ensures Tidy(Run(s, actions))
    ensures WithoutFloorChange(actions) ==> Last(s.version) <= Last(Run(s, actions).version)
    ensures WithoutFloorChange(actions) && (forall a <- actions :: !a.RequestStarted?) && s.refetchPending ==>
              Run(s, actions).refetchPending
    decreases |actions|
  {
    hide Reduce, Takes, Tidy, Last;
    if actions != [] {
      StaysTidy(s, actions[0]);
      StepKeepsOrder(s, actions[0]);
      assert actions[0] in actions && forall a <- actions[1..] :: a in actions;
      RunsKeepOrder(Reduce(s, actions[0]), actions[1..]);
    }
  }

  // Polling is silent in a visible state with nothing in flight exactly when a refresh failure was reported
  // before any request had completed.
  lemma SilentExactly(s: State, nowMs: int)
    requires Tidy(s) && s.visibility == Visible && s.inFlight == None
    ensures PollDelay(s, nowMs) == None <==> s.request == Error && s.safetyDeadlineMs == None
  {
  }

  // When polling says now, either a request is described and its start is accepted, or the safety refresh
  // is due and makes one describable.
  lemma DueStarts(s: State, nowMs: int, requestId: nat)
    requires PollDelay(s, nowMs) == Some(0)
    ensures Due(s) <==> Describe(s, requestId).Some?
    ensures Due(s) ==> var id := Describe(s, requestId).value.Identity();
              !Stays(s, RequestStarted(id)) && Reduce(s, RequestStarted(id)).inFlight == Some(id)
    ensures !Due(s) ==> !Stays(s, SafetyDue(nowMs)) && Describe(Reduce(s, SafetyDue(nowMs)), requestId).Some?
  {
  }

  // An answer after which a version would be held back: the one rejected by the reducer or by the merge.
  predicate Rejects(s: State, a: Action) {
    && !Stays(s, a)
    && (a.StateInvalid? || ((a.StateChanged? || a.StateNotModified?) && !Takes(s, a)))
  }

  // After a rejected answer, whatever happens until an answer is taken or the floor changes,
  // no request names a known version.
  lemma RejectionForgetsVersion(s: State, a: Action, later: seq<Action>, requestId: nat)
    requires Tidy(s) && Rejects(s, a)
    requires NoneTaken(Reduce(s, a), later)
    ensures var d := Describe(Run(Reduce(s, a), later), requestId); d.Some? ==> d.value.knownVersion == None
  {
    hide FloorText, Backoff, PLANNING_FAILED, REGRESSIVE, UNRETAINED;
    StaysTidy(s, a);
    StaysSuppressed(Reduce(s, a), later);
  }

  predicate NoneTaken(s: State, actions: seq<Action>)
    decreases |actions|
  {
    actions == []
    || (!actions[0].FloorChanged? && !Takes(s, actions[0]) && NoneTaken(Reduce(s, actions[0]), actions[1..]))
  }

  lemma {:induction false} StaysSuppressed(s: State, actions: seq<Action>)
    requires Tidy(s) && s.suppressKnownVersion && NoneTaken(s, actions)
    ensures Run(s, actions).suppressKnownVersion
    decreases |actions|
  {
    hide Reduce, Takes;
    if actions != [] {
      StaysTidy(s, actions[0]);
      StepKeepsOrder(s, actions[0]);
      StaysSuppressed(Reduce(s, actions[0]), actions[1..]);
    }
  }

  predicate AsksRefetch(s: State, a: Action) {
    a.RefreshRequested? || a.RetryRequested? || ((a.RefreshPollDue? || a.SafetyDue?) && !Stays(s, a))
  }

  lemma AskingIsRemembered(s: State, ask: Action)
    requires Tidy(s) && AsksRefetch(s, ask)
    ensures var m := Reduce(s, ask);
            && Tidy(m) && m.refetchPending && Due(m)
            && m.inFlight == s.inFlight && m.visibility == s.visibility && m.floor == s.floor
               && m.scopeKey == s.scopeKey
  {
  }

  // A refetch pending when a request ends is due at once,
  // unless that request failed: then it waits for the backoff, at most thirty seconds.
  lemma EndServesRefetch(m: State, end: Action, nowMs: int)
    requires Tidy(m) && m.refetchPending && Due(m) && m.visibility == Visible && end.Ends() && Owns(m, end.id)
    ensures var r := Reduce(m, end);
            && r.inFlight == None && r.refetchPending
            && PollDelay(r, nowMs) ==
               (if end.RequestFailed? && nowMs < end.atMs + Backoff(m.failureCount) then
                  Some(end.atMs + Backoff(m.failureCount) - nowMs)
                else
                  Some(0))
  {
    hide FloorText, Backoff, PLANNING_FAILED, REGRESSIVE, UNRETAINED;
  }

  // So a refetch asked for while a request is in flight is served after that request.
  lemma RefetchIsServed(s: State, ask: Action, end: Action, nowMs: int)
    requires Tidy(s) && s.inFlight.Some? && s.visibility == Visible && AsksRefetch(s, ask) && end.Ends()
             && Owns(s, end.id)
    ensures var r := Reduce(Reduce(s, ask), end);
            && r.inFlight == None && r.refetchPending
            && PollDelay(r, nowMs).Some?
            && PollDelay(r, nowMs).value
               <= if end.RequestFailed? && nowMs < end.atMs + 30000 then end.atMs + 30000 - nowMs else 0
  {
    AskingIsRemembered(s, ask);
    hide Reduce, PollDelay;
    EndServesRefetch(Reduce(s, ask), end, nowMs);
  }

  // A refetch asked for while the first request is out, which then fails, waits five seconds.
  lemma FailedRequestDelaysRefetch()
    ensures var id := Request(Cnc, Some("cnc:dashboard"), 1);
            var started := Reduce(Create(Cnc, Visible, "cnc:dashboard"), RequestStarted(id));
            var end := Reduce(Reduce(started, RefreshRequested), RequestFailed(id, 0, "offline", false));
            && started.inFlight == Some(id)
            && end.refetchPending && end.inFlight == None && PollDelay(end, 0) == Some(5000)
  {
    hide FloorText;
  }
}

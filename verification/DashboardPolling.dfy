// Polling over every run: when it goes on, and the two ways in which it stops.
module DashboardPolling {
  import opened Wrappers
  import opened Json
  import opened DashboardMerge
  import opened DashboardState
  import opened DashboardHook
  import opened DashboardRuns

  // A page on show with delivery enabled.
  predicate Watching(h: Hook) {
    h.state.visibility == Visible && h.enabled
  }

  // No request in flight, no timeout set and no new state to render or for the poll effect to run for.
  predicate Stopped(h: Hook) {
    Watching(h) && h.state.inFlight == None && h.seen == h.renderedRevision == h.revision && h.timer == None
  }

  // The poll effect runs for the newest state, and its poll delay is null.
  predicate SilentPoll(h: Hook, e: Event) {
    && e.Committed? && h.seen != h.renderedRevision == h.revision && Watching(h)
    && h.state.inFlight == None && h.state.request == Error && h.state.safetyDeadlineMs == None
  }

  // The timeout of the newest state fires when the clock reads less than its deadline.
  predicate EarlyTimer(h: Hook, e: Event) {
    && e.TimerFired? && h.timer.Some? && h.seen == h.revision
    && h.state.refresh != Pending && h.state.refresh != Running
    && e.atMs < h.timer.value
  }

  predicate PollsOnly(e: Event) {
    e.Rendered? || e.Committed? || e.TimerFired? || e.Called?
  }

  // Whatever happens, polling that goes on stops in exactly two ways.
  lemma StopsExactly(server: Server, w: World, normalise: Normalise, e: Event)
    requires Sound(server, w) && !Stopped(w.hook)
    ensures Stopped(Next(w.hook, normalise, e)) <==> SilentPoll(w.hook, e) || EarlyTimer(w.hook, e)
    ensures Stopped(Next(w.hook, normalise, e)) ==> !Due(Next(w.hook, normalise, e).state)
  {
    hide Sound, Next, Stopped;
    if e.Committed? {
      PollStops(server, w, e.atMs);
      NextPolls(w.hook, normalise, e);
    } else if e.TimerFired? {
      TimerStops(server, w, e.atMs);
      NextPolls(w.hook, normalise, e);
    } else if e.Called? || e.Answered? || e.Rendered? {
      RequestGoesOn(server, w, normalise, e);
    } else if e.ScopeChanged? {
      MoveGoesOn(server, w, normalise, e);
    } else {
      Stamped(server, w);
      PageGoesOn(w.hook, normalise, e);
    }
  }

  lemma NextPolls(h: Hook, normalise: Normalise, e: Event)
    ensures e.Committed? ==> Next(h, normalise, e) == Poll(h, e.atMs)
    ensures e.TimerFired? ==> Next(h, normalise, e) == FireTimer(h, e.atMs)
  {
  }

  lemma Stamped(server: Server, w: World)
    requires Sound(server, w)
    ensures w.hook.seen <= w.hook.renderedRevision <= w.hook.revision
  {
  }

  lemma RequestGoesOn(server: Server, w: World, normalise: Normalise, e: Event)
    requires Sound(server, w) && !Stopped(w.hook) && (e.Called? || e.Answered? || e.Rendered?)
    ensures !Stopped(Next(w.hook, normalise, e))
  {
    var h := w.hook;
    hide Shows, Tidy;
    if e.Called? {
      StartIs(h, e.key);
      hide Start, Describe;
    } else if e.Answered? {
      if InFlightIs(h.state, e.id) {
        SettleIs(h, w.since, normalise, e.id, e.answer, e.atMs);
      } else {
        StaleChangesNothing(h, w.since, normalise, e.id, e.answer, e.atMs);
      }
      hide Settle, AnswerAction, Reduce, Stays;
    }
  }

  // A change of scope leaves a state that is not rendered yet.
  lemma MoveGoesOn(server: Server, w: World, normalise: Normalise, e: Event)
    requires Sound(server, w) && !Stopped(w.hook) && e.ScopeChanged?
    ensures !Stopped(Next(w.hook, normalise, e))
  {
    var h := w.hook;
    if h.scope != ScopeKey(e.floor, e.url) {
      var h1 := ChangeScope(h, e.floor, e.url, e.enabled);
      assert h1.renderedRevision < h1.revision by { hide Reduce, ScopeKey; }
      EffectCountsOn(h1, e.atMs);
      hide Effect, ChangeScope;
    }
  }

  lemma EffectCountsOn(h: Hook, nowMs: int)
    ensures var t := Effect(h, nowMs); t.revision >= h.revision && t.renderedRevision == h.renderedRevision
  {
    hide Reduce, Stays, Describe;
  }

  // What the page or the user does is a new state, or nothing.
  lemma PageGoesOn(h: Hook, normalise: Normalise, e: Event)
    requires !Stopped(h) && h.seen <= h.renderedRevision <= h.revision
    requires e.VisibilityTurned? || e.RetryAsked? || e.RefreshAsked? || e.RefreshBroke?
    ensures !Stopped(Next(h, normalise, e))
  {
    hide Reduce, ScopeKey;
  }

  lemma PollStops(server: Server, w: World, atMs: int)
    requires Sound(server, w) && !Stopped(w.hook)
    ensures Stopped(Poll(w.hook, atMs)) <==> SilentPoll(w.hook, Committed(atMs))
    ensures Stopped(Poll(w.hook, atMs)) ==> !Due(Poll(w.hook, atMs).state)
  {
    var h := w.hook;
    if h.seen != h.renderedRevision {
      var h1 := h.(seen := h.renderedRevision, timer := None);
      StartIs(h1, h.scope);
      if PollDelay(h.state, atMs) == Some(0) { DueStarts(h.state, atMs, h.nextId + 1); }
      hide Reduce, Start, Stays, Shows;
    }
  }

  lemma TimerStops(server: Server, w: World, atMs: int)
    requires Sound(server, w) && !Stopped(w.hook)
    ensures Stopped(FireTimer(w.hook, atMs)) <==> EarlyTimer(w.hook, TimerFired(atMs))
    ensures Stopped(FireTimer(w.hook, atMs)) ==> !Due(FireTimer(w.hook, atMs).state)
  {
    hide Reduce, Shows, Due;
  }

  // Polling alone never starts again what has stopped: it takes the page, the user or a change of scope.
  lemma {:induction false} StoppedLasts(w: World, normalise: Normalise, events: seq<Event>)
    requires Stopped(w.hook) && !Due(w.hook.state) && forall e <- events :: PollsOnly(e)
    ensures Stopped(DashboardRuns.Run(w, normalise, events).hook)
    ensures DashboardRuns.Run(w, normalise, events).hook.state == w.hook.state
    decreases |events|
  {
    if events != [] {
      assert PollsOnly(events[0]) && forall e <- events[1..] :: e in events;
      assert Stopped(Next(w.hook, normalise, events[0])) && Next(w.hook, normalise, events[0]).state == w.hook.state;
      hide Stopped, Next, PollsOnly, Due, Changes, Brings;
      StoppedLasts(Step(w, normalise, events[0]), normalise, events[1..]);
    }
  }

  predicate Punctual(w: World, normalise: Normalise, events: seq<Event>)
    decreases |events|
  {
    events == []
    || (!SilentPoll(w.hook, events[0]) && !EarlyTimer(w.hook, events[0])
       && Punctual(Step(w, normalise, events[0]), normalise, events[1..]))
  }

  lemma {:induction false} PollingLasts(server: Server, w: World, normalise: Normalise, events: seq<Event>)
    requires normalise == server.normalise
    requires OnePerScope(server) && Sound(server, w) && HonestRun(server, w, normalise, events)
    requires !Stopped(w.hook) && Punctual(w, normalise, events)
    ensures !Stopped(DashboardRuns.Run(w, normalise, events).hook)
    decreases |events|
  {
    hide Sound, Honest, OnePerScope, Stopped, Next, SilentPoll, EarlyTimer;
    if events != [] {
      StepIsSound(server, w, normalise, events[0]);
      StopsExactly(server, w, normalise, events[0]);
      PollingLasts(server, Step(w, normalise, events[0]), normalise, events[1..]);
    }
  }

  // The page is rendered and the poll effect runs.
  function Turn(h: Hook, nowMs: int): Hook {
    Poll(Render(h), nowMs)
  }

  // While polling goes on a visible page makes another request: the poll effect starts it or sets a timeout for
  // the deadline, and that timeout, fired on time, brings it.
  lemma PollingComesRound(server: Server, w: World, nowMs: int, laterMs: int)
    requires Sound(server, w) && Watching(w.hook) && !Stopped(w.hook) && !SilentPoll(Render(w.hook), Committed(nowMs))
    ensures var h1 := Turn(w.hook, nowMs);
            || h1.state.inFlight.Some?
            || Turn(h1, nowMs).state.inFlight.Some?
            || (h1.timer.Some? && h1.seen == h1.revision
                && (h1.timer.value <= laterMs ==> Turn(FireTimer(h1, laterMs), laterMs).state.inFlight.Some?))
  {
    var w0 := w.(hook := Render(w.hook));
    var h1 := Turn(w.hook, nowMs);
    RenderIsSound(server, w);
    RenderGoesOn(server, w);
    PollIsSound(server, w0, nowMs);
    PollStops(server, w0, nowMs);
    hide Sound, Poll, FireTimer;
    if h1.state.inFlight.Some? {
    } else if h1.seen != h1.revision {
      SafetyPolls(server, w, nowMs);
    } else {
      PollSees(server, w0, nowMs);
      TimerBrings(server, w.(hook := h1), laterMs);
    }
  }

  lemma RenderGoesOn(server: Server, w: World)
    requires Sound(server, w) && !Stopped(w.hook)
    ensures !Stopped(Render(w.hook))
  {
    hide Tidy, Shows, OneRequest;
  }

  lemma PollSees(server: Server, w: World, nowMs: int)
    requires Sound(server, w) && w.hook.renderedRevision == w.hook.revision && Watching(w.hook)
    requires var h1 := Poll(w.hook, nowMs); h1.state.inFlight == None && h1.seen == h1.revision && !Stopped(h1)
    ensures Poll(w.hook, nowMs).timer.Some? && Watching(Poll(w.hook, nowMs))
  {
    var h := w.hook;
    StartIs(h.(seen := h.renderedRevision, timer := None), h.scope);
    hide Start, Reduce, Shows;
  }

  lemma DuePolls(server: Server, w: World, nowMs: int)
    requires Sound(server, w) && Watching(w.hook) && w.hook.state.inFlight == None
    requires w.hook.seen != w.hook.revision && Due(w.hook.state)
    ensures Turn(w.hook, nowMs).state.inFlight.Some?
  {
    var h := Render(w.hook);
    var h1 := h.(seen := h.revision, timer := None);
    StartIs(h1, h1.scope);
    DueStarts(h.state, nowMs, h.nextId + 1);
    hide Reduce, Start, Stays, Shows;
  }

  lemma SafetyPolls(server: Server, w: World, nowMs: int)
    requires Sound(server, w) && Watching(w.hook)
    requires var h1 := Turn(w.hook, nowMs); h1.state.inFlight == None && h1.seen != h1.revision
    ensures Turn(Turn(w.hook, nowMs), nowMs).state.inFlight.Some?
  {
    var h := Render(w.hook);
    var h1 := Turn(w.hook, nowMs);
    RenderIsSound(server, w);
    PollIsSound(server, w.(hook := h), nowMs);
    StartIs(h.(seen := h.revision, timer := None), h.scope);
    assert !Due(h.state) && h1.state == Reduce(h.state, SafetyDue(nowMs)) && !Stays(h.state, SafetyDue(nowMs));
    DuePolls(server, w.(hook := h1), nowMs);
  }

  lemma TimerBrings(server: Server, w: World, laterMs: int)
    requires Sound(server, w) && Watching(w.hook) && w.hook.timer.Some? && w.hook.seen == w.hook.revision
    ensures w.hook.timer.value <= laterMs ==> Turn(FireTimer(w.hook, laterMs), laterMs).state.inFlight.Some?
  {
    if w.hook.timer.value <= laterMs {
      var h := w.hook;
      var a := if h.state.refresh == Pending || h.state.refresh == Running then RefreshPollDue else SafetyDue(laterMs);
      AskingIsRemembered(h.state, a);
      AsideIsSound(server, w, a);
      assert FireTimer(h, laterMs) == Dispatch(h.(timer := None), a) by { hide Reduce, Stays; }
      hide Reduce, Poll, Shows, OneRequest, Fresh;
      DuePolls(server, w.(hook := FireTimer(w.hook, laterMs)), laterMs);
    }
  }

  // ---- both ways of stopping occur ----

  // A run goes through these hooks when each is what its event makes of the one before.
  lemma {:induction false} GoesThrough(w: World, normalise: Normalise, events: seq<Event>, hooks: seq<Hook>)
    requires |hooks| == |events| + 1 && hooks[0] == w.hook
    requires forall i :: 0 <= i < |events| ==> Next(hooks[i], normalise, events[i]) == hooks[i + 1]
    ensures DashboardRuns.Run(w, normalise, events).hook == hooks[|events|]
    decreases |events|
  {
    hide Next, Brings, Changes;
    if events != [] {
      var rest := events[1..];
      forall i | 0 <= i < |rest| ensures Next(hooks[1..][i], normalise, rest[i]) == hooks[1..][i + 1] {
        assert rest[i] == events[i + 1];
      }
      GoesThrough(Step(w, normalise, events[0]), normalise, rest, hooks[1..]);
    }
  }

  // The first request is out, in a state that is not rendered yet.
  function AskingIn(floor: Floor, url: string): Hook {
    var s := Create(floor, Visible, ScopeKey(floor, url));
    Hook(s.(inFlight := Some(Request(floor, Some(s.scopeKey), 1))), 3, s, 1, 1, None, 1, Some(1),
      map[1 := Fetch(Descriptor(floor, s.scopeKey, 1, None), false)], s.scopeKey, true)
  }

  // A page that is mounted on show asks at once.
  lemma MountingAsks(floor: Floor, url: string, nowMs: int)
    ensures Mounted(floor, url, true, Visible, Visible, nowMs) == AskingIn(floor, url)
  {
    hide ScopeKey, FloorText;
    var h := Created(floor, url, true, Visible);
    var shown := Dispatch(h, VisibilityChanged(Visible));
    assert shown == h.(revision := 2, state := h.state.(refetchPending := true));
    var h1 := shown.(seen := 1);
    StartIs(h1, h.scope);
    hide Reduce, Start, Dispatch;
  }

  function Asking(): Hook {
    AskingIn(Cnc, "dashboard")
  }

  // When that request breaks, the page waits five seconds.
  function Waiting(): Hook {
    var h := Asking();
    var s := h.state.(inFlight := None, lastError := Some("offline"), failureCount := 1, payload := Absent,
                      request := Error, safetyDeadlineMs := Some(5000));
    h.(state := s, revision := 4, rendered := s, renderedRevision := 4, seen := 4, timer := Some(5000),
       controller := None, fetches := map[])
  }

  lemma BrokenWaits(normalise: Normalise)
    ensures Poll(Render(Settle(Asking(), normalise, 1, Broken("offline"), 0)), 0) == Waiting()
  {
    hide ScopeKey, FloorText;
    var h := Asking();
    var a := RequestFailed(h.state.inFlight.value, 0, "offline", false);
    assert Owns(h.state, a.id);
    assert Reduce(h.state, a) == Waiting().state;
    hide Reduce;
    assert Settle(h, normalise, 1, Broken("offline"), 0)
        == h.(state := Waiting().state, revision := 4, controller := None, fetches := map[]);
    hide Settle;
  }

  // The timeout of that wait fires a millisecond early, and nothing is left that would poll.
  lemma EarlyTimerStopsPolling(normalise: Normalise)
    ensures var events := [Answered(1, Broken("offline"), 0), Rendered, Committed(0), TimerFired(4999)];
            Stopped(DashboardRuns.Run(Begin(Cnc, "dashboard", true, Visible, Visible, 0), normalise, events).hook)
  {
    hide ScopeKey, Settle, Reduce, DashboardRuns.Run, Mounted;
    MountingAsks(Cnc, "dashboard", 0);
    BrokenWaits(normalise);
    var events := [Answered(1, Broken("offline"), 0), Rendered, Committed(0), TimerFired(4999)];
    var h1 := Settle(Asking(), normalise, 1, Broken("offline"), 0);
    var hooks := [Asking(), h1, Render(h1), Waiting(), Waiting().(timer := None)];
    GoesThrough(Begin(Cnc, "dashboard", true, Visible, Visible, 0), normalise, events, hooks);
  }

  // A refresh failure is reported after a change of scope and before the page is rendered in the new scope: it
  // overtakes the request that the new state asks for.
  lemma EarlyFailureStopsPolling(normalise: Normalise)
    ensures var events := [Answered(1, Broken("offline"), 0), Rendered, Committed(0),
                           ScopeChanged(Cnc, "store", true, 1), RefreshBroke("no plan"), Rendered, Committed(2)];
            Stopped(DashboardRuns.Run(Begin(Cnc, "dashboard", true, Visible, Visible, 0), normalise, events).hook)
  {
    hide ScopeKey, Settle, Reduce, DashboardRuns.Run, Mounted, Move, Poll, Render, Dispatch, Stopped;
    MountingAsks(Cnc, "dashboard", 0);
    BrokenWaits(normalise);
    WaitingMoves();
    MovedBreaks();
    var events := [Answered(1, Broken("offline"), 0), Rendered, Committed(0),
                   ScopeChanged(Cnc, "store", true, 1), RefreshBroke("no plan"), Rendered, Committed(2)];
    var h1 := Settle(Asking(), normalise, 1, Broken("offline"), 0);
    var h5 := Dispatch(Moved(), RefreshFailed("no plan"));
    var h6 := Render(h5);
    var hooks := [Asking(), h1, Render(h1), Waiting(), Moved(), h5, h6, Poll(h6, 2)];
    GoesThrough(Begin(Cnc, "dashboard", true, Visible, Visible, 0), normalise, events, hooks);
  }

  // The page after the effects of the change of scope: a state not rendered yet, and a timeout for the deadline of
  // the state before.
  function Moved(): Hook {
    var key := ScopeKey(Cnc, "store");
    Waiting().(state := Create(Cnc, Visible, key), revision := 5, scope := key)
  }

  lemma WaitingMoves()
    ensures Move(Waiting(), Cnc, "store", true, 1) == Moved()
  {
    var key := ScopeKey(Cnc, "store");
    assert |Waiting().scope| == |FloorText(Cnc)| + 10 && |key| == |FloorText(Cnc)| + 6;
    NewScopeStartsOver(Waiting().state, Cnc, key);
    hide Reduce, ScopeKey, Stays;
    assert ChangeScope(Waiting(), Cnc, "store", true) == Moved().(timer := Some(5000));
  }

  lemma MovedBreaks()
    ensures Stopped(Poll(Render(Dispatch(Moved(), RefreshFailed("no plan"))), 2))
  {
    hide ScopeKey;
    var s := Reduce(Moved().state, RefreshFailed("no plan"));
    assert s.request == Error && s.safetyDeadlineMs == None && s.inFlight == None && s.visibility == Visible;
    hide Reduce;
  }
}

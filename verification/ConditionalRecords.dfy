// The loop that keeps a register's rows current: one fetch at a time, one timeout at a time.
module ConditionalRecords {
  import opened Wrappers
  import opened Json

  // `timers` are the timeouts the browser holds, by handle, with their delays; `fetches` the requests not
  // answered yet, by number, with the revision each names.
  datatype Loop = Loop(
    data: Option<Fields>, revision: Option<string>, inFlight: bool, pending: bool, failures: nat, denied: bool,
    timeout: Option<nat>, timers: map<nat, nat>, setTimers: nat,
    fetches: map<nat, Option<string>>, started: nat, hidden: bool, aborted: bool)

  function ClearTimer(l: Loop): Loop {
    l.(timers := if l.timeout.Some? then l.timers - {l.timeout.value} else l.timers, timeout := None)
  }

  function Known(revision: Option<string>): Option<string> {
    if revision == Some("") then None else revision
  }

  // `load` up to its fetch.
  function Load(l: Loop): Loop {
    var l1 := ClearTimer(l);
    if l.hidden || l.aborted then l1
    else if l.inFlight then l1.(pending := true)
    else l1.(inFlight := true, fetches := l.fetches[l.started := Known(l.revision)], started := l.started + 1)
  }

  function Backoff(failures: nat): nat {
    if failures == 0 then 2500 else if failures == 1 then 5000 else if failures == 2 then 10000
    else if failures == 3 then 20000 else 30000
  }

  lemma WaitsSomeTime(failures: nat)
    ensures Backoff(failures) >= 2500
  {
  }

  function Finally(l: Loop): Loop {
    if l.aborted || l.hidden then l.(inFlight := false)
    else l.(inFlight := false, pending := false, timeout := Some(l.setTimers), setTimers := l.setTimers + 1,
            timers := l.timers[l.setTimers := if l.pending then 0 else Backoff(l.failures)])
  }

  function SourceRevision(body: Fields): Option<string> {
    match FieldOf(body, "sourceRevision") case Str(r) => Some(r) case _ => None
  }

  predicate NotModified(body: Fields) {
    FieldOf(body, "notModified") == Bool(true)
  }

  // The answer to a fetch, all its pages read.
  datatype Answer = Delivered(body: Fields) | Refused(status: int) | Broken

  function Taken(l: Loop, answer: Answer): Loop {
    match answer
    case Broken => l.(failures := l.failures + 1)
    case Refused(status) =>
      if status == 401 || status == 403 then
        l.(data := None, revision := None, denied := true, failures := l.failures + 1)
      else
        l.(failures := l.failures + 1)
    case Delivered(body) =>
      l.(failures := 0, denied := false,
         revision := if SourceRevision(body).Some? then SourceRevision(body) else l.revision,
         data := if NotModified(body) then l.data else Some(body))
  }

  // The rest of `load`.
  function Settle(l: Loop, id: nat, answer: Answer): Loop {
    if id !in l.fetches then l
    else
      var l1 := l.(fetches := l.fetches - {id});
      Finally(if l.aborted then l1 else Taken(l1, answer))
  }

  datatype Event =
    | Refreshed
    | Turned(hidden: bool)
    | TimerFired(handle: nat)
    | Answered(id: nat, answer: Answer)
    | Unmounted

  function Next(l: Loop, e: Event): Loop {
    match e
    case Refreshed => Load(l)
    case Turned(hidden) => if hidden then ClearTimer(l.(hidden := true)) else Load(l.(hidden := false))
    case TimerFired(handle) => if handle in l.timers then Load(l.(timers := l.timers - {handle})) else l
    case Answered(id, answer) => Settle(l, id, answer)
    case Unmounted => ClearTimer(l.(aborted := true))
  }

  function Mounted(hidden: bool): Loop {
    Load(Loop(None, None, false, false, 0, false, None, map[], 0, map[], 0, hidden, false))
  }

  // ---- what an answer and a load come to ----

  // A refusal with the statuses 401 and 403 denies access and drops the rows; any other failure keeps them, and so does
  // an answer "not modified". A success ends a denial and the count of failures.
  lemma AnswerOutcomes(l: Loop, id: nat, answer: Answer)
    requires id in l.fetches && !l.aborted
    ensures var t := Settle(l, id, answer);
            && !t.inFlight && t.fetches == l.fetches - {id} && t.started == l.started
            && (answer.Refused? && (answer.status == 401 || answer.status == 403) ==>
                  t.denied && t.data == None && t.revision == None && t.failures == l.failures + 1)
            && (answer.Broken? || (answer.Refused? && answer.status != 401 && answer.status != 403) ==>
                  t.denied == l.denied && t.data == l.data && t.revision == l.revision && t.failures == l.failures + 1)
            && (answer.Delivered? ==>
                  && !t.denied && t.failures == 0
                  && t.data == (if FieldOf(answer.body, "notModified") == Bool(true) then l.data else Some(answer.body))
                  && (forall r: string :: FieldOf(answer.body, "sourceRevision") == Str(r) ==> t.revision == Some(r))
                  && ((forall r: string :: FieldOf(answer.body, "sourceRevision") != Str(r)) ==>
                        t.revision == l.revision))
  {
    hide Backoff;
    if answer.Delivered? {
      match FieldOf(answer.body, "sourceRevision") {
        case Str(r) =>
        case _ =>
      }
    }
  }

  // The next load waits as long as the failures in a row say, from two and a half to thirty seconds, or not at all when
  // one was asked for meanwhile; a hidden page waits to be shown.
  lemma WaitOutcomes(l: Loop, id: nat, answer: Answer)
    requires id in l.fetches && !l.aborted
    ensures var t := Settle(l, id, answer);
            && (l.hidden ==> t.timeout == l.timeout && t.timers == l.timers && t.pending == l.pending)
            && (!l.hidden ==>
                  && t.timeout.Some? && t.timeout.value in t.timers && !t.pending
                  && var delay := t.timers[t.timeout.value];
                     && (l.pending ==> delay == 0)
                     && (!l.pending && t.failures == 0 ==> delay == 2500)
                     && (!l.pending && t.failures == 1 ==> delay == 5000)
                     && (!l.pending && t.failures == 2 ==> delay == 10000)
                     && (!l.pending && t.failures == 3 ==> delay == 20000)
                     && (!l.pending && t.failures >= 4 ==> delay == 30000))
  {
    var taken := Taken(l.(fetches := l.fetches - {id}), answer);
    assert taken.pending == l.pending && taken.hidden == l.hidden && !taken.aborted
        && taken.timeout == l.timeout && taken.timers == l.timers;
    assert Settle(l, id, answer) == Finally(taken);
    hide Taken, Settle;
  }

  // A load fetches, naming a revision that is not empty, unless a fetch is out, which then owes another, or the page is
  // hidden or gone.
  lemma LoadOutcomes(l: Loop)
    ensures var t := Load(l);
            && t.timeout == None && (l.timeout.Some? ==> l.timeout.value !in t.timers)
            && t.data == l.data && t.revision == l.revision && t.failures == l.failures
            && (l.hidden || l.aborted ==> t.inFlight == l.inFlight && t.pending == l.pending && t.fetches == l.fetches)
            && (!l.hidden && !l.aborted && l.inFlight ==> t.pending && t.fetches == l.fetches)
            && (!l.hidden && !l.aborted && !l.inFlight ==>
                  && t.inFlight && t.pending == l.pending && t.started == l.started + 1
                  && t.fetches == l.fetches[l.started := if l.revision == Some("") then None else l.revision])
  {
  }

  // A page that is hidden or left sets no timeout and fetches nothing more; shown again it loads at once. Only a
  // timeout that is set can fire.
  lemma EventOutcomes(l: Loop, handle: nat)
    requires l.timeout.Some? ==> l.timeout.value in l.timers
    ensures var t := Next(l, Turned(true));
            t.hidden && t.timeout == None && (l.timeout.Some? ==> t.timers == l.timers - {l.timeout.value})
              && t.fetches == l.fetches && t.started == l.started
    ensures Next(l, Turned(false)) == Load(l.(hidden := false)) && Next(l, Refreshed) == Load(l)
    ensures var t := Next(l, Unmounted);
            t.aborted && t.timeout == None && (l.timeout.Some? ==> t.timers == l.timers - {l.timeout.value})
              && t.fetches == l.fetches
    ensures handle in l.timers ==> Next(l, TimerFired(handle)) == Load(l.(timers := l.timers - {handle}))
    ensures handle !in l.timers ==> Next(l, TimerFired(handle)) == l
  {
    hide Load;
  }

  // An answer that comes after the page was left changes nothing shown and starts nothing.
  lemma LateAnswer(l: Loop, id: nat, answer: Answer)
    requires id in l.fetches && l.aborted
    ensures Settle(l, id, answer) == l.(fetches := l.fetches - {id}, inFlight := false)
  {
  }

  class RecordLoop {
    var data: Option<Fields>
    var revision: Option<string>
    var inFlight: bool
    var pending: bool
    var failures: nat
    var denied: bool
    var timeout: Option<nat>
    var timers: map<nat, nat>
    var setTimers: nat
    var fetches: map<nat, Option<string>>
    var started: nat
    var hidden: bool
    var aborted: bool

    function View(): Loop
      reads this
    {
      Loop(data, revision, inFlight, pending, failures, denied, timeout, timers, setTimers, fetches, started, hidden,
        aborted)
    }

    constructor (hidden: bool)
      ensures View() == Mounted(hidden)
    {
      data, revision, inFlight, pending, failures, denied := None, None, false, false, 0, false;
      timeout, timers, setTimers, fetches, started := None, map[], 0, map[], 0;
      this.hidden, aborted := hidden, false;
      new;
      Loading();
    }

    method Clear()
      modifies this`timeout, this`timers
      ensures View() == ClearTimer(old(View())) && timeout == None
    {
      if timeout.Some? { timers := timers - {timeout.value}; }
      timeout := None;
    }

    method Loading()
      modifies this`timeout, this`timers, this`inFlight, this`pending, this`fetches, this`started
      ensures View() == Load(old(View()))
      ensures timeout == None && data == old(data) && revision == old(revision)
      ensures hidden || aborted ==> fetches == old(fetches) && pending == old(pending) && started == old(started)
      ensures !hidden && !aborted ==> inFlight
      ensures !hidden && !aborted && old(inFlight) ==> pending && fetches == old(fetches) && started == old(started)
      ensures !hidden && !aborted && !old(inFlight) ==>
                fetches == old(fetches)[old(started) := Known(revision)] && started == old(started) + 1
    {
      Clear();
      if hidden || aborted { return; }
      if inFlight { pending := true; return; }
      inFlight := true;
      fetches := fetches[started := Known(revision)];
      started := started + 1;
    }

    method Take(answer: Answer)
      modifies this`data, this`revision, this`failures, this`denied
      ensures View() == Taken(old(View()), answer)
    {
      hide SourceRevision, NotModified;
      match answer {
        case Broken => failures := failures + 1;
        case Refused(status) =>
          if status == 401 || status == 403 { data, revision, denied := None, None, true; }
          failures := failures + 1;
        case Delivered(body) =>
          failures, denied := 0, false;
          if SourceRevision(body).Some? { revision := SourceRevision(body); }
          if !NotModified(body) { data := Some(body); }
      }
    }

    method Finish()
      modifies this`inFlight, this`pending, this`timeout, this`timers, this`setTimers
      ensures View() == Finally(old(View()))
      ensures !inFlight && (aborted || hidden ==> timeout == old(timeout))
      ensures !aborted && !hidden ==>
                timeout.Some? && timeout.value in timers && !pending && (old(pending) <==> timers[timeout.value] == 0)
    {
      WaitsSomeTime(failures);
      hide Backoff;
      inFlight := false;
      if !aborted && !hidden {
        var delay := if pending then 0 else Backoff(failures);
        pending := false;
        timers := timers[setTimers := delay];
        timeout, setTimers := Some(setTimers), setTimers + 1;
      }
    }

    method Settled(id: nat, answer: Answer)
      modifies this`data, this`revision, this`failures, this`denied, this`fetches, this`inFlight, this`pending,
        this`timeout, this`timers, this`setTimers
      ensures View() == Settle(old(View()), id, answer)
      ensures id !in old(fetches) ==> View() == old(View())
      ensures id in old(fetches) ==>
                && !inFlight && fetches == old(fetches) - {id}
                && (aborted ==>
                      && data == old(data) && revision == old(revision) && failures == old(failures)
                      && timeout == old(timeout))
                && (!aborted && !hidden ==>
                      timeout.Some? && timeout.value in timers && !pending
                        && (old(pending) <==> timers[timeout.value] == 0))
    {
      hide Taken, Finally;
      if id !in fetches { return; }
      fetches := fetches - {id};
      if !aborted { Take(answer); }
      Finish();
    }

    // The visibility listener.
    method Turn(nowHidden: bool)
      modifies this`hidden, this`timeout, this`timers, this`inFlight, this`pending, this`fetches, this`started
      ensures View() == Next(old(View()), Turned(nowHidden))
      ensures hidden == nowHidden && timeout == None
      ensures hidden ==> fetches == old(fetches) && started == old(started)
      ensures old(started) <= started <= old(started) + 1 && (aborted ==> started == old(started))
    {
      hide Load, ClearTimer;
      hidden := nowHidden;
      if hidden { Clear(); } else { Loading(); }
    }

    // The timeout's callback.
    method Fire(handle: nat)
      modifies this`timeout, this`timers, this`inFlight, this`pending, this`fetches, this`started
      ensures View() == Next(old(View()), TimerFired(handle))
      ensures old(started) <= started <= old(started) + 1 && (aborted ==> started == old(started))
    {
      hide Load, ClearTimer;
      if handle in timers {
        timers := timers - {handle};
        Loading();
      }
    }

    // The effect's clean-up.
    method Leave()
      modifies this`aborted, this`timeout, this`timers
      ensures View() == Next(old(View()), Unmounted) && aborted && timeout == None
    {
      aborted := true;
      Clear();
    }

    method Handle(e: Event)
      modifies this
      ensures View() == Next(old(View()), e)
      ensures aborted == (old(aborted) || e.Unmounted?) && hidden == (if e.Turned? then e.hidden else old(hidden))
      ensures !e.Answered? || aborted ==> data == old(data) && revision == old(revision) && failures == old(failures)
      ensures old(started) <= started <= old(started) + 1 && (old(aborted) ==> started == old(started))
      ensures e.Refreshed? && !hidden && !aborted ==>
                inFlight && (if old(inFlight) then pending else started == old(started) + 1)
      ensures e.Turned? && e.hidden ==> timeout == None && fetches == old(fetches)
    {
      hide Load, Settle, ClearTimer;
      match e {
        case Refreshed => Loading();
        case Turned(h) => Turn(h);
        case TimerFired(handle) => Fire(handle);
        case Answered(id, answer) => Settled(id, answer);
        case Unmounted => Leave();
      }
    }
  }

  // ---- what every run keeps ----

  predicate OneAtATime(l: Loop) {
    && l.timers.Keys == (if l.timeout.Some? then {l.timeout.value} else {})
    && (forall handle <- l.timers :: handle < l.setTimers)
    && (forall id <- l.fetches :: id < l.started)
    && (if l.inFlight then |l.fetches| == 1 && l.timeout == None else l.fetches == map[])
  }

  // On show and mounted, either a fetch is out or a timeout will start one; unmounted, none will.
  predicate KeepsGoing(l: Loop) {
    && (!l.hidden && !l.aborted ==> l.inFlight || l.timeout.Some?)
    && (l.aborted ==> l.timeout == None)
    && (l.pending && !l.hidden && !l.aborted ==> l.inFlight)
  }

  // A refresh asked for when `since` fetches had been started is served by a later one, unless the page is hidden
  // (it fetches when shown) or gone.
  predicate Owed(l: Loop, since: nat) {
    || l.hidden || l.aborted
    || since < l.started
    || (l.inFlight && l.pending)
    || (l.timeout.Some? && l.timeout.value in l.timers && l.timers[l.timeout.value] == 0)
  }

  function Run(l: Loop, events: seq<Event>): Loop
    decreases |events|
  {
    if events == [] then l else Run(Next(l, events[0]), events[1..])
  }

  lemma SoleFetch(fetches: map<nat, Option<string>>, id: nat)
    requires id in fetches && |fetches| == 1
    ensures fetches - {id} == map[]
  {
    assert |fetches.Keys - {id}| == 0;
    assert (fetches - {id}).Keys == fetches.Keys - {id};
  }

  lemma FirstFetch(id: nat, known: Option<string>)
    ensures |map[id := known]| == 1
  {
    assert map[id := known].Keys == {id};
  }

  lemma LoadKeepsGoing(l: Loop, since: nat)
    requires OneAtATime(l) && since <= l.started && (l.aborted ==> l.timeout == None)
    ensures OneAtATime(Load(l)) && KeepsGoing(Load(l)) && l.started <= Load(l).started
    ensures Owed(Load(l), l.started) && Owed(Load(l), since)
  {
    hide Known;
    if !l.hidden && !l.aborted && !l.inFlight {
      FirstFetch(l.started, Known(l.revision));
      assert l.fetches[l.started := Known(l.revision)] == map[l.started := Known(l.revision)];
    }
  }

  lemma FiredIsCleared(l: Loop, handle: nat)
    requires OneAtATime(l) && handle in l.timers
    ensures Load(l.(timers := l.timers - {handle})) == Load(l)
  {
    assert l.timers - {handle} - {handle} == l.timers - {handle};
  }

  lemma SettleKeepsGoing(l: Loop, id: nat, answer: Answer, since: nat)
    requires OneAtATime(l) && KeepsGoing(l)
    ensures var t := Settle(l, id, answer);
            && OneAtATime(t) && KeepsGoing(t) && t.started == l.started
            && (Owed(l, since) ==> Owed(t, since))
  {
    hide Taken, Backoff;
    if id in l.fetches {
      SoleFetch(l.fetches, id);
      TakenKeepsPlace(l.(fetches := l.fetches - {id}), answer);
    }
  }

  lemma StepKeepsGoing(l: Loop, e: Event, since: nat)
    requires OneAtATime(l) && KeepsGoing(l) && since <= l.started
    ensures l.started <= Next(l, e).started
    ensures OneAtATime(Next(l, e)) && KeepsGoing(Next(l, e))
    ensures Owed(l, since) ==> Owed(Next(l, e), since)
    ensures (e.Refreshed? || e == Turned(false)) ==> Owed(Next(l, e), l.started)
  {
    hide Load, Settle;
    match e {
      case Refreshed => LoadKeepsGoing(l, since);
      case Turned(hidden) =>
        if !hidden { LoadKeepsGoing(l.(hidden := false), since); }
      case TimerFired(handle) =>
        if handle in l.timers { FiredIsCleared(l, handle); LoadKeepsGoing(l, since); }
      case Answered(id, answer) => SettleKeepsGoing(l, id, answer, since);
      case Unmounted =>
    }
  }

  lemma TakenKeepsPlace(l: Loop, answer: Answer)
    ensures var t := Taken(l, answer);
            t == l.(data := t.data, revision := t.revision, failures := t.failures, denied := t.denied)
  {
    hide SourceRevision, NotModified;
  }

  // Over every run there is at most one fetch and one timeout, a page on show keeps fetching, and a refresh asked
  // for at any point of the run is never lost.
  lemma {:induction false} RunsKeepGoing(l: Loop, events: seq<Event>, since: nat)
    requires OneAtATime(l) && KeepsGoing(l) && since <= l.started
    ensures OneAtATime(Run(l, events)) && KeepsGoing(Run(l, events))
    ensures Owed(l, since) ==> Owed(Run(l, events), since)
    decreases |events|
  {
    hide OneAtATime, KeepsGoing, Owed, Next;
    if events != [] {
      StepKeepsGoing(l, events[0], since);
      RunsKeepGoing(Next(l, events[0]), events[1..], since);
    }
  }

  lemma RefreshIsNeverLost(hidden: bool, before: seq<Event>, after: seq<Event>)
    ensures var asked := Run(Mounted(hidden), before); var end := Run(Next(asked, Refreshed), after);
            && OneAtATime(end) && KeepsGoing(end)
            && Owed(end, asked.started)
  {
    FirstFetch(0, None);
    assert OneAtATime(Mounted(hidden)) && KeepsGoing(Mounted(hidden));
    RunsKeepGoing(Mounted(hidden), before, 0);
    var asked := Run(Mounted(hidden), before);
    StepKeepsGoing(asked, Refreshed, 0);
    RunsKeepGoing(Next(asked, Refreshed), after, asked.started);
    hide Next, Run, Mounted;
  }

  // ---- against a server with one set of rows per revision ----

  type Published = string -> Fields

  ghost predicate Revisions(published: Published) {
    forall r: string {:trigger published(r)} :: r != "" ==>
      SourceRevision(published(r)) == Some(r) && !NotModified(published(r))
  }

  ghost predicate HonestAnswer(published: Published, known: Option<string>, answer: Answer) {
    answer.Delivered? ==>
      if NotModified(answer.body) then known.Some? && SourceRevision(answer.body) == known
      else exists r: string :: r != "" && answer.body == published(r)
  }

  ghost predicate HonestRun(published: Published, l: Loop, events: seq<Event>)
    decreases |events|
  {
    events == []
    || ((events[0].Answered? && events[0].id in l.fetches
       ==> HonestAnswer(published, l.fetches[events[0].id], events[0].answer))
        && HonestRun(published, Next(l, events[0]), events[1..]))
  }

  // The rows held are those of the revision held.
  ghost predicate CurrentRows(published: Published, l: Loop) {
    && (l.revision.Some? <==> l.data.Some?)
    && (l.revision.Some? ==> l.revision != Some("") && l.data == Some(published(l.revision.value)))
    && (l.denied ==> l.data == None)
  }

  // And a request out names that revision or none.
  ghost predicate Current(published: Published, l: Loop) {
    && CurrentRows(published, l)
    && (forall id <- l.fetches :: l.fetches[id].Some? ==> l.fetches[id] == l.revision)
  }

  lemma TakenIsCurrent(published: Published, l: Loop, known: Option<string>, answer: Answer)
    requires Revisions(published) && CurrentRows(published, l) && (known.Some? ==> known == l.revision)
    requires HonestAnswer(published, known, answer)
    ensures CurrentRows(published, Taken(l, answer))
  {
    hide SourceRevision, NotModified;
    if answer.Delivered? && !NotModified(answer.body) {
      var r: string :| r != "" && answer.body == published(r);
    }
  }

  lemma AnswerStaysCurrent(published: Published, l: Loop, id: nat, answer: Answer)
    requires Revisions(published) && OneAtATime(l) && Current(published, l)
    requires id in l.fetches && HonestAnswer(published, l.fetches[id], answer)
    ensures Current(published, Settle(l, id, answer))
  {
    hide Taken, Backoff, CurrentRows, Revisions, HonestAnswer, Load;
    SoleOrNone(l, id);
    var l1 := l.(fetches := l.fetches - {id});
    Rows(published, l, l1);
    TakenIsCurrent(published, l1, l.fetches[id], answer);
    TakenKeepsPlace(l1, answer);
    var l2 := if l.aborted then l1 else Taken(l1, answer);
    Rows(published, l2, Finally(l2));
    assert Settle(l, id, answer).fetches == map[];
  }

  lemma LoadStaysCurrent(published: Published, l: Loop)
    requires Current(published, l)
    ensures Current(published, Load(l))
  {
    hide CurrentRows;
    Rows(published, l, Load(l));
  }

  lemma StepStaysCurrent(published: Published, l: Loop, e: Event)
    requires Revisions(published) && OneAtATime(l) && Current(published, l)
    requires e.Answered? && e.id in l.fetches ==> HonestAnswer(published, l.fetches[e.id], e.answer)
    ensures Current(published, Next(l, e))
  {
    hide CurrentRows, Load, Settle, Revisions, HonestAnswer;
    match e {
      case Answered(id, answer) =>
        if id in l.fetches { AnswerStaysCurrent(published, l, id, answer); } else { UnknownAnswer(l, id, answer); }
      case Refreshed => LoadStaysCurrent(published, l);
      case Turned(hidden) =>
        Rows(published, l, l.(hidden := hidden));
        Rows(published, l, ClearTimer(l.(hidden := hidden)));
        LoadStaysCurrent(published, l.(hidden := hidden));
      case TimerFired(handle) =>
        Rows(published, l, l.(timers := l.timers - {handle}));
        LoadStaysCurrent(published, l.(timers := l.timers - {handle}));
      case Unmounted => Rows(published, l, ClearTimer(l.(aborted := true)));
    }
  }

  lemma UnknownAnswer(l: Loop, id: nat, answer: Answer)
    requires id !in l.fetches
    ensures Settle(l, id, answer) == l
  {
  }

  lemma Rows(published: Published, l: Loop, m: Loop)
    requires l.revision == m.revision && l.data == m.data && l.denied == m.denied && CurrentRows(published, l)
    ensures CurrentRows(published, m)
  {
  }

  lemma SoleOrNone(l: Loop, id: nat)
    requires OneAtATime(l) && id in l.fetches
    ensures l.fetches - {id} == map[]
  {
    SoleFetch(l.fetches, id);
  }

  lemma {:induction false} RunsStayCurrent(published: Published, l: Loop, events: seq<Event>)
    requires Revisions(published) && OneAtATime(l) && KeepsGoing(l) && Current(published, l)
             && HonestRun(published, l, events)
    ensures Current(published, Run(l, events))
    decreases |events|
  {
    hide OneAtATime, KeepsGoing, Current, Next, Revisions, HonestAnswer, Owed;
    if events != [] {
      StepKeepsGoing(l, events[0], 0);
      StepStaysCurrent(published, l, events[0]);
      RunsStayCurrent(published, Next(l, events[0]), events[1..]);
    }
  }
}

// The order acceptance search as the program runs it: pruned trials, a bounded table of planner
// answers keyed by object identity, and certified failures whose reasons are filled in at the end.
module FastSearch {
  import opened Wrappers
  import opened Text
  import opened Calendar
  import opened Sequences
  import opened Proposal
  import opened PlainSearch
  import opened CertifiedFailure

  // A commitment as the search holds it; the table of answers goes by which one it is.
  class Schedule {
    const held: Commitments

    constructor (held: Commitments)
      ensures this.held == held
    {
      this.held := held;
    }
  }

  // What `schedule` returns.
  datatype Answer = Answer(reason: string, completion: string, rmRequiredBy: string, plans: seq<PlanRow>,
    target: Schedule)

  ghost predicate Matches(a: Answer, o: Outcome) {
    Outcome(a.reason, a.completion, a.rmRequiredBy, a.plans, a.target.held) == o
  }

  datatype MemoEntry = MemoEntry(rm: string, answer: Answer)

  type Memo = map<(Schedule, Line), MemoEntry>

  ghost predicate GoodEntry(s: Setting, key: (Schedule, Line), entry: MemoEntry) {
    Matches(entry.answer, Attempt(s, key.1.facts, key.0.held, entry.rm, true))
  }

  ghost predicate GoodMemo(s: Setting, memo: Memo) {
    forall key :: key in memo ==> GoodEntry(s, key, memo[key])
  }

  lemma Remember(s: Setting, memo: Memo, key: (Schedule, Line), entry: MemoEntry)
    requires GoodMemo(s, memo) && GoodEntry(s, key, entry)
    ensures GoodMemo(s, memo[key := entry]) && |memo[key := entry]| <= |memo| + 1
  {
    hide GoodEntry;
    var more := memo[key := entry];
    assert more.Keys == memo.Keys + {key};
    assert |more| == |more.Keys| && |memo| == |memo.Keys|;
  }

  datatype Deferral = Deferral(line: Line, target: Schedule, rm: string)

  datatype Entry = Entry(result: LineResult, deferred: Option<Deferral>)

  datatype FastTrial = FastTrial(
    candidate: seq<Line>, target: Schedule, results: map<string, Entry>, selected: int, utilisation: real)

  // An entry once its deferred reason is filled in.
  function Settled(s: Setting, entry: Entry): LineResult {
    match entry.deferred
    case None => entry.result
    case Some(d) => entry.result.(reason := Attempt(s, d.line.facts, d.target.held, d.rm, true).reason)
  }

  function SettledAll(s: Setting, results: map<string, Entry>): map<string, LineResult> {
    map id | id in results :: Settled(s, results[id])
  }

  function View(s: Setting, t: FastTrial): Trial {
    Trial(t.candidate, t.target.held, SettledAll(s, t.results), t.selected, t.utilisation)
  }

  // `compare(a, b) > 0`
  predicate Worse(a: FastTrial, b: FastTrial) {
    Outdoes(a.selected, a.utilisation, b.selected, b.utilisation)
  }

  // Any arrangement of completed trials by that comparison begins with the one a scan in their order keeps.
  lemma AnySortBeginsWithBest(completed: seq<FastTrial>, t: seq<FastTrial>)
    requires completed != [] && Arranged(Worse, completed, t)
    ensures t != [] && t[0] == FirstBest(Worse, completed)
  {
    assert Consistent(Worse, completed);
    hide Consistent, Arranged, Worse;
    OnlyArrangement(Worse, completed, t);
    SortPutsFirstBestFirst(Worse, completed);
  }

  predicate Chosen(results: map<string, Entry>, id: string) {
    id in results && results[id].result.selected
  }

  // The entry recorded for a line. A put-off failure is recorded without its reason.
  function EntryFor(s: Setting, blockers: seq<string>, line: Line, target: Schedule, answer: Option<Answer>,
      deferred: bool): Entry {
    var facts := line.facts;
    var rm := ProposedRm(s, facts);
    var selected := answer.Some? && answer.value.reason == "";
    Entry(
      LineResult(
        facts.id, facts.part, facts.quantity, selected,
        if selected then answer.value.completion else "",
        if selected then answer.value.rmRequiredBy else "",
        if deferred then ""
        else if facts.issue != "" then facts.issue
        else if blockers != [] then "Resolve existing workload blockers"
        else if rm == "" then "Awaiting RM date"
        else if answer.Some? && answer.value.reason != "" then answer.value.reason
        else if s.input.mode == ByDeadline then "Capacity feasible; conditional on RM"
        else "Tentative; subject to RM",
        if selected then Stints(s.planner, answer.value.plans) else []),
      if deferred then Some(Deferral(line, target, rm)) else None)
  }

  // The answer is the planner's, and what is put off is a failure.
  ghost predicate Consulted(s: Setting, line: Line, target: Schedule, answer: Option<Answer>, deferred: bool) {
    var o := Attempt(s, line.facts, target.held, ProposedRm(s, line.facts), true);
    && (answer.Some? ==> Matches(answer.value, o))
    && (deferred ==> o.reason != "")
  }

  lemma EntrySettles(s: Setting, blockers: seq<string>, line: Line, target: Schedule, answer: Option<Answer>,
      deferred: bool)
    requires Consulted(s, line, target, answer, deferred)
    requires answer.Some? <==> Attempted(s, blockers, line.facts) && !deferred
    requires deferred ==> Attempted(s, blockers, line.facts)
    ensures var o := Attempt(s, line.facts, target.held, ProposedRm(s, line.facts), true);
            var entry := EntryFor(s, blockers, line, target, answer, deferred);
            && Settled(s, entry)
               == Decide(s, blockers, line.facts, if Attempted(s, blockers, line.facts) then Some(o) else None)
            && (entry.result.selected <==> Settled(s, entry).selected)
            && (entry.result.selected ==> answer.Some? && answer.value.target.held == o.target)
  {
    hide Attempt, Stints;
  }

  // The lines whose failures the search is ready to certify.
  predicate Preparable(s: Setting, blockers: seq<string>, committed: Commitments, line: PlanningLine) {
    && CertificationOn(s, blockers)
    && var base := TakeSnapshot(s, committed);
       var machine := IsolatedMachine(s.planner, s.context.masters, line);
       base.Some? && machine.Some?
       && Covers(base.value, [machine.value],
            if s.input.tentativeRmDate != "" then s.input.tentativeRmDate else s.input.startDate,
            s.input.deadline)
  }

  const MEMO_LIMIT := 4096

  class ProposalSearch {
    const s: Setting
    const blockers: seq<string>
    const committed: Schedule
    var prepared: map<Line, string>
    var memo: Memo
    var memoCount: nat

    ghost function Start(): Existing {
      Existing(committed.held, blockers)
    }

    // Every remembered answer is what the planner would answer now, and the table is bounded.
    ghost predicate Valid()
      reads this
    {
      && memoCount <= MEMO_LIMIT
      && |memo| <= memoCount
      && GoodMemo(s, memo)
      && (forall line :: line in prepared ==>
            && CertificationOn(s, blockers)
            && IsolatedMachine(s.planner, s.context.masters, line.facts) == Some(prepared[line]))
    }

    constructor (s: Setting, blockers: seq<string>, committed: Schedule)
      ensures Valid()
      ensures this.s == s && this.blockers == blockers && this.committed == committed && prepared == map[]
    {
      this.s, this.blockers, this.committed := s, blockers, committed;
      prepared, memo, memoCount := map[], map[], 0;
    }

    method AskPlanner(line: Line, target: Schedule, rm: string) returns (a: Answer)
      ensures Matches(a, Attempt(s, line.facts, target.held, rm, true))
    {
      var o := Attempt(s, line.facts, target.held, rm, true);
      var next := new Schedule(o.target);
      a := Answer(o.reason, o.completion, o.rmRequiredBy, o.plans, next);
    }

    // `scheduleProposed`
    method ScheduleProposed(line: Line, target: Schedule, rm: string) returns (a: Answer)
      requires Valid()
      modifies this`memo, this`memoCount
      ensures Valid()
      ensures Matches(a, Attempt(s, line.facts, target.held, rm, true))
    {
      hide Attempt, IsolatedMachine, CertificationOn, Matches;
      if s.input.mode != ByDeadline {
        a := AskPlanner(line, target, rm);
        return;
      }
      var key := (target, line);
      if key in memo && memo[key].rm == rm {
        assert GoodEntry(s, key, memo[key]);
        return memo[key].answer;
      }
      a := AskPlanner(line, target, rm);
      if memoCount >= MEMO_LIMIT {
        memo, memoCount := map[], 0;
      }
      Remember(s, memo, key, MemoEntry(rm, a));
      memo, memoCount := memo[key := MemoEntry(rm, a)], memoCount + 1;
    }

    // The lines whose failures may be certified, found against the committed work: exactly the isolated ones whose
    // machine is reserved from RM-ready to the deadline.
    method Prepare(lines: seq<Line>)
      requires Valid() && prepared == map[]
      modifies this`prepared
      ensures Valid()
      ensures forall i :: 0 <= i < |lines| ==>
                (lines[i] in prepared <==> Preparable(s, blockers, committed.held, lines[i].facts))
      ensures forall line :: line in prepared ==> line in lines
    {
      hide Attempt, IsolatedMachine, CertificationOn, TakeSnapshot, Covers, GoodMemo;
      if !CertificationOn(s, blockers) {
        return;
      }
      var base := TakeSnapshot(s, committed.held);
      if base == None {
        return;
      }
      var ready := if s.input.tentativeRmDate != "" then s.input.tentativeRmDate else s.input.startDate;
      for i := 0 to |lines|
        invariant Valid()
        invariant forall k :: 0 <= k < i ==>
                    (lines[k] in prepared <==> Preparable(s, blockers, committed.held, lines[k].facts))
        invariant forall line :: line in prepared ==> line in lines[..i]
        invariant forall k :: 0 <= k < |lines| && lines[k] in prepared ==>
                    Preparable(s, blockers, committed.held, lines[k].facts)
      {
        assert lines[..i + 1] == lines[..i] + [lines[i]];
        var machine := IsolatedMachine(s.planner, s.context.masters, lines[i].facts);
        if machine.Some? && Covers(base.value, [machine.value], ready, s.input.deadline) {
          prepared := prepared[lines[i] := machine.value];
        }
      }
    }

    // `trial`: none when the order can no longer reach the selected count it has to.
    method RunPruned(candidate: seq<Line>, minimumSelected: int) returns (r: Option<FastTrial>)
      requires Valid() && HonestPlanner(s.planner, s.context.masters)
      modifies this`memo, this`memoCount
      ensures Valid()
      ensures r == None ==> PlainTrial(s, Start(), candidate).selected < minimumSelected
      ensures r.Some? ==> View(s, r.value) == PlainTrial(s, Start(), candidate)
    {
      hide Attempt, HonestPlanner, IsolatedMachine, CertificationOn, Step, GoodMemo;
      var target := committed;
      var results: map<string, Entry> := map[];
      var selectedCount := 0;
      assert SettledAll(s, results) == map[];
      for index := 0 to |candidate|
        invariant Valid()
        invariant RunTrial(s, Start(), candidate[..index])
                  == TrialState(target.held, SettledAll(s, results), selectedCount)
      {
        if selectedCount + |candidate| - index < minimumSelected {
          RemainingBound(s, Start(), candidate, index);
          return None;
        }
        var line := candidate[index];
        assert candidate[..index + 1][..index] == candidate[..index];
        ghost var before := TrialState(target.held, SettledAll(s, results), selectedCount);
        target, results, selectedCount := Consider(line, target, results, selectedCount);
        assert RunTrial(s, Start(), candidate[..index + 1]) == Step(s, blockers, before, line.facts);
      }
      assert candidate[..|candidate|] == candidate;
      r := Some(FastTrial(candidate, target, results, selectedCount, MachinesLoad(s, target.held, s.context.machines)));
    }

    // Ask, recall or certify: the answer for one line, or none when it is not asked or put off.
    method Consult(line: Line, target: Schedule) returns (answer: Option<Answer>, deferred: bool)
      requires Valid() && HonestPlanner(s.planner, s.context.masters)
      modifies this`memo, this`memoCount
      ensures Valid()
      ensures answer.Some? <==> Attempted(s, blockers, line.facts) && !deferred
      ensures Consulted(s, line, target, answer, deferred)
      ensures deferred ==> Attempted(s, blockers, line.facts)
    {
      hide Attempt, HonestPlanner, IsolatedMachine, Certified, Matches, GoodMemo;
      var rm := ProposedRm(s, line.facts);
      var attempted := Attempted(s, blockers, line.facts);
      deferred := attempted && line in prepared && Certified(s, line.facts, prepared[line], target.held, rm);
      answer := None;
      if deferred {
        CertifiedIsSound(s, line.facts, target.held, rm);
      } else if attempted {
        var a := ScheduleProposed(line, target, rm);
        answer := Some(a);
      }
    }

    // One turn of the trial loop.
    method Consider(line: Line, target: Schedule, results: map<string, Entry>, selectedCount: int)
      returns (nextTarget: Schedule, nextResults: map<string, Entry>, nextCount: int)
      requires Valid() && HonestPlanner(s.planner, s.context.masters)
      modifies this`memo, this`memoCount
      ensures Valid()
      ensures TrialState(nextTarget.held, SettledAll(s, nextResults), nextCount)
           == Step(s, blockers, TrialState(target.held, SettledAll(s, results), selectedCount), line.facts)
    {
      hide Attempt, HonestPlanner, Valid, Consulted, EntryFor, Decide, Attempted;
      var answer, deferred := Consult(line, target);
      EntrySettles(s, blockers, line, target, answer, deferred);
      var entry := EntryFor(s, blockers, line, target, answer, deferred);
      nextTarget := if entry.result.selected then answer.value.target else target;
      nextCount := selectedCount;
      if Chosen(results, line.facts.id) { nextCount := nextCount - 1; }
      if entry.result.selected { nextCount := nextCount + 1; }
      nextResults := results[line.facts.id := entry];
      assert SettledAll(s, nextResults) == SettledAll(s, results)[line.facts.id := Settled(s, entry)];
    }

    // The trials of the candidate orders and the best of those that finished.
    method BestCandidate(candidates: seq<seq<Line>>) returns (best: FastTrial)
      requires Valid() && HonestPlanner(s.planner, s.context.masters) && candidates != []
      modifies this`memo, this`memoCount
      ensures Valid()
      ensures View(s, best) == BestOf(s, Start(), candidates)
    {
      hide PlainTrial, HonestPlanner, Valid, SettledAll, StableSort;
      var completed: seq<FastTrial> := [];
      var minimumSelected := 0;
      for i := 0 to |candidates|
        invariant Valid()
        invariant i == 0 ==> completed == [] && minimumSelected == 0
        invariant i > 0 ==>
                    && completed != []
                    && View(s, FirstBest(Worse, completed)) == BestOf(s, Start(), candidates[..i])
        invariant i > 0 ==> minimumSelected == BestOf(s, Start(), candidates[..i]).selected
      {
        assert candidates[..i + 1][..i] == candidates[..i];
        var result := RunPruned(candidates[i], minimumSelected);
        if result.Some? {
          assert (completed + [result.value])[..|completed|] == completed;
          completed := completed + [result.value];
          minimumSelected := if result.value.selected > minimumSelected then result.value.selected else minimumSelected;
        }
        NeverNegative(s, Start(), candidates[i]);
      }
      assert candidates[..|candidates|] == candidates;
      SortPutsFirstBestFirst(Worse, completed);
      best := StableSort(Worse, completed)[0];
    }

    // The refinement by family.
    method Repair(lines: seq<Line>, first: FastTrial) returns (best: FastTrial)
      requires Valid() && HonestPlanner(s.planner, s.context.masters)
      modifies this`memo, this`memoCount
      ensures Valid()
      ensures View(s, best) == RepairAll(s, Start(), lines, View(s, first), DistinctSorted(LineFamilies(lines)))
    {
      hide PlainTrial, HonestPlanner, Valid, DistinctSorted, LineFamilies, InFamily, Repaired;
      best := first;
      var families := DistinctSorted(LineFamilies(lines));
      for i := 0 to |families|
        invariant Valid()
        invariant View(s, best) == RepairAll(s, Start(), lines, View(s, first), families[..i])
      {
        assert families[..i + 1][..i] == families[..i];
        if exists k :: 0 <= k < |lines| && !Chosen(best.results, lines[k].facts.id) && InFamily(families[i], lines[k]) {
          var repaired := RunPruned(Repaired(families[i], best.candidate), best.selected);
          if repaired.Some? && Worse(best, repaired.value) {
            best := repaired.value;
          }
        }
      }
      assert families[..|families|] == families;
    }

    // Fill in the reasons that were put off.
    method FillReasons(results: map<string, Entry>) returns (settled: map<string, LineResult>)
      ensures settled == SettledAll(s, results)
    {
      settled := map id | id in results :: results[id].result;
      var left := results.Keys;
      while left != {}
        invariant left <= results.Keys && settled.Keys == results.Keys
        invariant forall id :: id in results ==>
                    settled[id] == if id in left then results[id].result else Settled(s, results[id])
        decreases |left|
      {
        var id :| id in left;
        left := left - {id};
        if results[id].deferred.Some? {
          var d := results[id].deferred.value;
          settled := settled[id := settled[id].(reason := Attempt(s, d.line.facts, d.target.held, d.rm, true).reason)];
        }
      }
    }
  }

  lemma NeverNegative(s: Setting, e: Existing, candidate: seq<Line>)
    ensures PlainTrial(s, e, candidate).selected >= 0
  {
    CounterIsSelected(s, e, candidate);
  }

  method ReserveExistingWork(s: Setting) returns (committed: Commitments, blockers: seq<string>)
    ensures Existing(committed, blockers) == ReserveExisting(s, InTurn(s))
  {
    hide Attempt, StableSort;
    var existing := StableSort(s.planner.takesAfter, s.context.existing);
    blockers := s.context.blockers;
    committed := Commitments(s.context.reservedPlans, s.context.reservations);
    for i := 0 to |existing|
      invariant Existing(committed, blockers) == ReserveExisting(s, existing[..i])
    {
      var line := existing[i];
      assert existing[..i + 1][..i] == existing[..i];
      var rm := ExistingRm(s, line);
      if line.issue != "" || rm == "" {
        blockers := blockers + [line.id + ": " + if line.issue != "" then line.issue else "awaiting tentative RM date"];
      } else if line.operations != [] {
        var result := Attempt(s, line, committed, rm, false);
        if result.reason != "" {
          blockers := blockers + [line.id + ": " + result.reason];
        } else {
          committed := result.target;
        }
      }
    }
    assert existing[..|existing|] == existing;
  }

  // The search over one setting, reasons filled in.
  method FindBest(s: Setting, e: Existing, lines: seq<Line>)
      returns (target: Commitments, results: map<string, LineResult>)
    requires HonestPlanner(s.planner, s.context.masters)
    ensures var best := Search(s, e, lines); target == best.target && results == best.results
  {
    hide HonestPlanner, BestOf, RepairAll, Candidates, SettledAll;
    var start := new Schedule(e.committed);
    var search := new ProposalSearch(s, e.blockers, start);
    search.Prepare(lines);
    var best := search.BestCandidate(Candidates(s, lines));
    if s.input.mode == ByDeadline && e.blockers == [] {
      best := search.Repair(lines, best);
    }
    assert View(s, best) == Search(s, e, lines);
    target := best.target.held;
    results := search.FillReasons(best.results);
  }

  method MakeSetting(planner: Planner, input: ProposalInput, context: PlanningContext) returns (s: Setting)
    requires Validate(input) == None && input.startDate != "9997-12-31"
    ensures s == SettingFor(planner, input, context)
  {
    hide Validate, AddDays, DatesFrom, ValidDate, Less, Works, DayOf, DateShape, Fields, Real, LoopEnds;
    HorizonPasses(input);
    PeriodStarts(input);
    var horizon := AddDays(input.startDate, 730);
    var dates := PlanningDates(context.calendar, input.startDate, horizon);
    var daily := match context.productiveHoursPerDay
      case Some(hours) => hours
      case None => input.hoursPerDay * input.efficiency / 100.0;
    s := Setting(planner, input, context, horizon, dates, daily);
  }

  // `calculateProposal`. It returns the plan of the plain search, for every planner that keeps its
  // word. For the one start date whose horizon is the last four-digit date it does not return.
  method CalculateProposal(
      planner: Planner, input: ProposalInput, context: PlanningContext, lines: seq<Line>)
    returns (r: Result<ProposalPlan, ProposalError>)
    requires HonestPlanner(planner, context.masters)
    requires Validate(input) == None ==> input.startDate != "9997-12-31"
    ensures Validate(input).Some? ==> r == Err(Validate(input).value)
    ensures Validate(input) == None ==> r == Ok(PlainPlan(planner, input, context, lines))
  {
    hide Validate, HonestPlanner, Search, ReserveExisting, SettingFor, FamilyUses, DistinctSorted;
    var error := Validate(input);
    if error.Some? {
      return Err(error.value);
    }
    var s := MakeSetting(planner, input, context);
    SettingKeeps(planner, input, context);
    var committed, blockers := ReserveExistingWork(s);
    var target, results := FindBest(s, Existing(committed, blockers), lines);
    EveryLineDecided(s, Existing(committed, blockers), lines);
    r := Ok(ProposalPlan(context.version, Decisions(lines, results),
      FamilyUses(s, committed, target, DistinctSorted(MachineFamilies(context.machines))), blockers));
  }

  lemma SettingKeeps(planner: Planner, input: ProposalInput, context: PlanningContext)
    requires Validate(input) == None && input.startDate != "9997-12-31"
    ensures var s := SettingFor(planner, input, context);
            s.planner == planner && s.context == context && s.input == input
  {
    hide Validate;
  }

  lemma PeriodStarts(input: ProposalInput)
    requires Validate(input) == None
    ensures ValidDate(input.startDate)
  {
  }
}

// What a finished plan promises: capacity that adds up, and selected lines that meet the deadline.
module PlanPromises {
  import opened Wrappers
  import opened Text
  import opened Calendar
  import opened Sequences
  import opened Proposal
  import opened PlainSearch

  ghost predicate NonNegativeDays(s: Setting) {
    s.daily >= 0.0 && forall date :: date in s.context.capacityFractions ==> s.context.capacityFractions[date] >= 0.0
  }

  lemma DayHoursNonNegative(s: Setting, date: string)
    requires NonNegativeDays(s)
    ensures DayHours(s, date) >= 0.0
  {
  }

  // More reservations never mean less load, and no machine is loaded beyond what it offers: a date
  // under several reservations counts once.
  lemma {:induction false} LoadIsBounded(s: Setting, dates: seq<string>, few: seq<Reservation>, more: seq<Reservation>,
      machine: string)
    requires NonNegativeDays(s)
    requires forall row :: row in few ==> row in more
    ensures 0.0 <= LoadOver(s, dates, few, machine) <= LoadOver(s, dates, more, machine) <= Available(s, dates)
  {
    if dates != [] {
      hide DayHours, Less;
      LoadIsBounded(s, dates[1..], few, more, machine);
      DayHoursNonNegative(s, dates[0]);
    }
  }

  // The same share n times over.
  function Shares(n: nat, share: real): real {
    if n == 0 then 0.0 else share + Shares(n - 1, share)
  }

  lemma {:induction false} SharesAreAProduct(n: nat, share: real)
    ensures Shares(n, share) == n as real * share
  {
    if n > 0 {
      SharesAreAProduct(n - 1, share);
      var m := (n - 1) as real;
      assert n as real == m + 1.0;
      assert (m + 1.0) * share == m * share + share;
    }
  }

  lemma {:induction false} MachinesLoadIsBounded(s: Setting, few: Commitments, more: Commitments,
      machines: seq<Machine>)
    requires NonNegativeDays(s)
    requires forall row :: row in few.reservations ==> row in more.reservations
    ensures 0.0 <= MachinesLoad(s, few, machines) <= MachinesLoad(s, more, machines)
            <= Shares(|machines|, Available(s, s.dates))
  {
    if machines != [] {
      hide LoadOver, Available, NonNegativeDays;
      LoadIsBounded(s, s.dates, few.reservations, more.reservations, machines[0].id);
      MachinesLoadIsBounded(s, few, more, machines[1..]);
    }
  }

  ghost predicate AddsUp(use: FamilyUse) {
    && 0.0 <= use.committed <= use.committed + use.proposed <= use.available
    && 0.0 <= use.proposed
    && 0.0 <= use.utilisation <= 1.0
    && (use.available > 0.0 ==> use.utilisation * use.available == use.committed + use.proposed)
  }

  lemma FamilyAddsUp(s: Setting, committed: Commitments, target: Commitments, family: string)
    requires NonNegativeDays(s) && committed.reservations <= target.reservations
    ensures AddsUp(FamilyUseOf(s, committed, target, family))
  {
    hide MachinesLoad, Available, MachinesOf;
    var machines := MachinesOf(s.context.machines, family);
    MachinesLoadIsBounded(s, committed, target, machines);
    SharesAreAProduct(|machines|, Available(s, s.dates));
    var used, available := MachinesLoad(s, target, machines), |machines| as real * Available(s, s.dates);
    if available > 0.0 {
      Ratio(used, available);
    }
  }

  lemma Ratio(part: real, whole: real)
    requires 0.0 <= part <= whole && whole > 0.0
    ensures 0.0 <= part / whole <= 1.0 && part / whole * whole == part
  {
    var q := part / whole;
    assert q * whole == part;
    assert (q - 1.0) * whole <= 0.0 && q * whole >= 0.0;
  }

  // In every plan, each family's committed, proposed and available hours add up.
  lemma PlanAddsUp(planner: Planner, input: ProposalInput, context: PlanningContext, lines: seq<Line>)
    requires Validate(input) == None && input.startDate != "9997-12-31"
    requires NonNegativeDays(SettingFor(planner, input, context))
    ensures forall i :: var families := PlainPlan(planner, input, context, lines).families;
              0 <= i < |families| ==> AddsUp(families[i])
  {
    hide Validate, NonNegativeDays, SettingFor, Search, RunTrial, FamilyUseOf, ReserveExisting, DistinctSorted, AddsUp;
    var s := SettingFor(planner, input, context);
    var e := ReserveExisting(s, InTurn(s));
    SearchIsBest(s, e, lines);
    TrialAppends(s, e, Search(s, e, lines).candidate);
    forall family ensures AddsUp(FamilyUseOf(s, e.committed, Search(s, e, lines).target, family)) {
      FamilyAddsUp(s, e.committed, Search(s, e, lines).target, family);
    }
  }

  // ---- the deadline ----

  // The planner returns rows only for the setups it is asked for.
  ghost predicate OnlyRequestedSetups(planner: Planner) {
    forall request: Request, row: PlanRow :: row in planner.simulate(request)
      ==> exists op :: op in request.line.operations && op.setup == row.setup
  }

  // What a selected line is promised: a completion and a machine plan that end by the deadline, with rows for every
  // operation it has.
  ghost predicate MeetsDeadline(s: Setting, line: PlanningLine, result: LineResult) {
    result.selected ==>
      && result.id == line.id
      && AtMost(result.completion, s.input.deadline)
      && (line.operations != [] ==> result.completion != "")
      && (forall op <- line.operations :: Planned(op, result.machinePlan))
      && forall i :: 0 <= i < |result.machinePlan| ==>
           && result.machinePlan[i].end != ""
           && AtMost(result.machinePlan[i].end, s.input.deadline)
           && AtMost(result.machinePlan[i].end, result.completion)
  }

  predicate Planned(op: Operation, plan: seq<Stint>) {
    exists i :: 0 <= i < |plan| && plan[i].setup == op.setup
  }

  lemma {:induction false} StintAt(planner: Planner, rows: seq<PlanRow>, i: nat)
    requires i < |rows|
    ensures |Stints(planner, rows)| == |rows|
    ensures Stints(planner, rows)[i] == Stint(rows[i].setup, rows[i].machine, rows[i].quantity,
            Iso(planner, rows[i].start), Iso(planner, rows[i].end))
  {
    hide Iso;
    if |rows| > 1 { StintAt(planner, rows[1..], if i > 0 then i - 1 else 0); }
  }

  lemma AcceptedMeetsDeadline(s: Setting, blockers: seq<string>, line: PlanningLine, target: Commitments)
    requires s.input.mode == ByDeadline && OnlyRequestedSetups(s.planner)
    ensures MeetsDeadline(s, line, Decide(s, blockers, line, Some(Attempt(s, line, target, ProposedRm(s, line), true))))
  {
    hide ValidDate, Less, OperationReason, Iso, Join, OnlyRequestedSetups, FinishesBy, Stints;
    var o := Attempt(s, line, target, ProposedRm(s, line), true);
    if o.reason == "" {
      AcceptedFinishesInTime(s, line, target, ProposedRm(s, line), true);
      var ends := Ends(s.planner, o.plans);
      forall i | 0 <= i < |o.plans|
        ensures ends[i] != "" && AtMost(ends[i], s.input.deadline) && AtMost(ends[i], o.completion)
      {
        RowFinishes(s, line, target, o.plans[i]);
        assert ends[i] in ends;
      }
      if o.plans != [] {
        assert o.completion in ends;
      } else {
        EmptyIsFirst(s.input.deadline);
        NoStints(s.planner);
      }
      forall op <- line.operations ensures o.plans != [] && Planned(op, Stints(s.planner, o.plans)) {
        HasStint(s.planner, op, o.plans, Limit(s, true));
      }
      if line.operations != [] { assert line.operations[0] in line.operations; }
      forall i | 0 <= i < |o.plans|
        ensures |Stints(s.planner, o.plans)| == |o.plans| && Stints(s.planner, o.plans)[i].end == ends[i]
      {
        StintAt(s.planner, o.plans, i);
      }
    }
  }

  lemma HasStint(planner: Planner, op: Operation, rows: seq<PlanRow>, limit: string)
    requires FinishesBy(planner, op, rows, limit)
    ensures rows != [] && Planned(op, Stints(planner, rows))
  {
    hide Iso, Less, Stints;
    var row :| row in rows && row.setup == op.setup;
    var i :| 0 <= i < |rows| && rows[i] == row;
    StintAt(planner, rows, i);
  }

  lemma NoStints(planner: Planner)
    ensures Stints(planner, []) == []
  {
  }

  lemma EmptyIsFirst(text: string)
    ensures AtMost("", text)
  {
  }

  lemma RowFinishes(s: Setting, line: PlanningLine, target: Commitments, row: PlanRow)
    requires s.input.mode == ByDeadline && OnlyRequestedSetups(s.planner)
    requires var o := Attempt(s, line, target, ProposedRm(s, line), true);
             row in o.plans && forall op :: op in line.operations ==> FinishesBy(s.planner, op, o.plans, Limit(s, true))
    ensures Iso(s.planner, row.end) != "" && AtMost(Iso(s.planner, row.end), s.input.deadline)
  {
    hide Less, Iso, OperationReasons, Own;
    var request := Request(line, Ready(s.input, ProposedRm(s, line)), target.reservations, target.plans,
      Limit(s, true));
    assert row in s.planner.simulate(request);
    var op :| op in request.line.operations && op.setup == row.setup;
  }

  // A line is selected only with a completion, and a machine plan, that ends by the deadline.
  lemma {:induction false} SelectedMeetsDeadline(s: Setting, e: Existing, candidate: seq<Line>)
    requires s.input.mode == ByDeadline && OnlyRequestedSetups(s.planner)
    ensures forall id :: id in RunTrial(s, e, candidate).results ==>
              OneMeetsDeadline(s, candidate, id, RunTrial(s, e, candidate).results[id])
  {
    if candidate != [] {
      hide Attempt, Decide, MeetsDeadline, OnlyRequestedSetups;
      var n := |candidate| - 1;
      SelectedMeetsDeadline(s, e, candidate[..n]);
      var before := RunTrial(s, e, candidate[..n]);
      AcceptedMeetsDeadline(s, e.blockers, candidate[n].facts, before.target);
      UnaskedMeetsDeadline(s, e.blockers, candidate[n].facts);
      var after := RunTrial(s, e, candidate);
      forall id | id in after.results ensures OneMeetsDeadline(s, candidate, id, after.results[id]) {
        if id == candidate[n].facts.id {
          assert candidate[n] in candidate;
        } else {
          var line :| line in candidate[..n] && line.facts.id == id && MeetsDeadline(s, line.facts, before.results[id]);
          assert line in candidate;
        }
      }
    }
  }

  // One of the lines with the id; ids are distinct in a valid proposal.
  ghost predicate OneMeetsDeadline(s: Setting, lines: seq<Line>, id: string, result: LineResult) {
    exists line <- lines :: line.facts.id == id && MeetsDeadline(s, line.facts, result)
  }

  lemma UnaskedMeetsDeadline(s: Setting, blockers: seq<string>, line: PlanningLine)
    ensures MeetsDeadline(s, line, Decide(s, blockers, line, None))
  {
  }

  lemma PlanMeetsDeadline(planner: Planner, input: ProposalInput, context: PlanningContext, lines: seq<Line>)
    requires Validate(input) == None && input.startDate != "9997-12-31"
    requires input.mode == ByDeadline && OnlyRequestedSetups(planner)
    ensures var decided := PlainPlan(planner, input, context, lines).lines;
            && |decided| == |lines|
            && forall i :: 0 <= i < |lines| ==>
                 OneMeetsDeadline(SettingFor(planner, input, context), lines, lines[i].facts.id, decided[i])
  {
    hide Validate, OnlyRequestedSetups, Search, RunTrial, ReserveExisting, MeetsDeadline, FamilyUses, DistinctSorted;
    var s := SettingFor(planner, input, context);
    var e := ReserveExisting(s, InTurn(s));
    SearchIsBest(s, e, lines);
    SelectedMeetsDeadline(s, e, Search(s, e, lines).candidate);
    EveryLineDecided(s, e, lines);
    var best := Search(s, e, lines);
    forall i | 0 <= i < |lines|
      ensures OneMeetsDeadline(s, lines, lines[i].facts.id, best.results[lines[i].facts.id])
    {
      var id := lines[i].facts.id;
      var line :| line in best.candidate && line.facts.id == id && MeetsDeadline(s, line.facts, best.results[id]);
      assert line in multiset(best.candidate);
    }
  }
}

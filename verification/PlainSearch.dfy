// The order acceptance search in its plain form: every trial is finished, every attempt asks the
// planner, nothing is remembered and nothing is put off. FastSearch is proved equal to it.
module PlainSearch {
  import opened Wrappers
  import opened Text
  import opened Calendar
  import opened Sequences
  import opened Proposal

  datatype Stint = Stint(setup: string, machine: string, quantity: int, start: string, end: string)

  datatype LineResult = LineResult(
    id: string, part: string, quantity: int, selected: bool, completion: string,
    rmRequiredBy: string, reason: string, machinePlan: seq<Stint>)

  datatype FamilyUse = FamilyUse(
    family: string, machines: nat, available: real, committed: real, proposed: real, utilisation: real)

  datatype ProposalPlan = ProposalPlan(
    version: int, lines: seq<LineResult>, families: seq<FamilyUse>, blockers: seq<string>)

  // ---- existing work ----

  datatype Existing = Existing(committed: Commitments, blockers: seq<string>)

  function ExistingRm(s: Setting, line: PlanningLine): string {
    if s.input.mode == ByDeadline then s.input.startDate
    else if line.rmDate != "" then line.rmDate
    else if line.id in s.input.existingRmDates then s.input.existingRmDates[line.id]
    else ""
  }

  function ReserveOne(s: Setting, e: Existing, line: PlanningLine): Existing {
    var rm := ExistingRm(s, line);
    if line.issue != "" || rm == "" then
      e.(blockers := e.blockers
           + [line.id + ": " + if line.issue != "" then line.issue else "awaiting tentative RM date"])
    else if line.operations == [] then e
    else
      var result := Attempt(s, line, e.committed, rm, false);
      if result.reason != "" then e.(blockers := e.blockers + [line.id + ": " + result.reason])
      else e.(committed := result.target)
  }

  function ReserveExisting(s: Setting, lines: seq<PlanningLine>): Existing {
    if lines == [] then
      Existing(Commitments(s.context.reservedPlans, s.context.reservations), s.context.blockers)
    else
      ReserveOne(s, ReserveExisting(s, lines[..|lines| - 1]), lines[|lines| - 1])
  }

  // The existing work in the order the planner takes it.
  function InTurn(s: Setting): seq<PlanningLine> {
    StableSort(s.planner.takesAfter, s.context.existing)
  }

  // Where the planner's comparison agrees with an order, that is the only arrangement by it.
  lemma InTurnIsArranged(s: Setting, t: seq<PlanningLine>)
    requires Consistent(s.planner.takesAfter, s.context.existing)
    ensures Arranged(s.planner.takesAfter, s.context.existing, t) <==> t == InTurn(s)
  {
    hide Arranged;
    OnlyArrangement(s.planner.takesAfter, s.context.existing, t);
  }

  // ---- loads ----

  function DayHours(s: Setting, date: string): real {
    s.daily * if date in s.context.capacityFractions then s.context.capacityFractions[date] else 1.0
  }

  predicate Occupied(reservations: seq<Reservation>, machine: string, date: string) {
    exists row :: row in reservations && row.machine == machine && AtMost(row.start, date) && AtMost(date, row.end)
  }

  // Hours of the planning dates up to the deadline on which the machine is reserved; a date under
  // several reservations counts once.
  function LoadOver(s: Setting, dates: seq<string>, reservations: seq<Reservation>, machine: string): real {
    if dates == [] then 0.0
    else
      (if AtMost(dates[0], s.input.deadline) && Occupied(reservations, machine, dates[0]) then
         DayHours(s, dates[0])
       else
         0.0)
      + LoadOver(s, dates[1..], reservations, machine)
  }

  function Load(s: Setting, target: Commitments, machine: string): real {
    LoadOver(s, s.dates, target.reservations, machine)
  }

  function MachinesLoad(s: Setting, target: Commitments, machines: seq<Machine>): real {
    if machines == [] then 0.0
    else Load(s, target, machines[0].id) + MachinesLoad(s, target, machines[1..])
  }

  // ---- candidate orders ----

  function Hours(ops: seq<Operation>): real {
    if ops == [] then 0.0 else ops[0].hours + Hours(ops[1..])
  }

  function MachinesOf(machines: seq<Machine>, family: string): (r: seq<Machine>)
    ensures forall m :: m in r <==> m in machines && m.family == family
  {
    Filter((m: Machine) => m.family == family, machines)
  }

  function Dominant(machines: seq<Machine>, ops: seq<Operation>): real {
    if ops == [] then 0.0
    else
      var count := |MachinesOf(machines, ops[0].family)|;
      var share := ops[0].hours / (if count < 1 then 1 else count) as real;
      var rest := Dominant(machines, ops[1..]);
      if share > rest then share else rest
  }

  function MoreHours(): (Line, Line) -> bool {
    (a: Line, b: Line) => Hours(a.facts.operations) > Hours(b.facts.operations)
  }

  function FewerHours(): (Line, Line) -> bool {
    (a: Line, b: Line) => Hours(a.facts.operations) < Hours(b.facts.operations)
  }

  function MoreDominant(machines: seq<Machine>): (Line, Line) -> bool {
    (a: Line, b: Line) => Dominant(machines, a.facts.operations) > Dominant(machines, b.facts.operations)
  }

  function Candidates(s: Setting, lines: seq<Line>): (r: seq<seq<Line>>)
    ensures r != []
    ensures forall i :: 0 <= i < |r| ==> multiset(r[i]) == multiset(lines)
  {
    if s.input.mode == ByDates then [lines]
    else
      [ StableSort(MoreHours(), lines), StableSort(MoreDominant(s.context.machines), lines),
        StableSort(FewerHours(), lines), lines ]
  }

  // The first three candidate orders are the only arrangements by hours, by the dominant share of a family and
  // by falling hours, whatever stable sort makes them.
  lemma CandidatesAreArranged(s: Setting, lines: seq<Line>, t: seq<Line>)
    requires s.input.mode == ByDeadline
    ensures var c := Candidates(s, lines);
            && |c| == 4 && c[3] == lines
            && (Arranged(MoreHours(), lines, t) <==> t == c[0])
            && (Arranged(MoreDominant(s.context.machines), lines, t) <==> t == c[1])
            && (Arranged(FewerHours(), lines, t) <==> t == c[2])
  {
    hide Arranged, Hours, Dominant;
    OnlyArrangement(MoreHours(), lines, t);
    OnlyArrangement(MoreDominant(s.context.machines), lines, t);
    OnlyArrangement(FewerHours(), lines, t);
  }

  lemma RisingHours(lines: seq<Line>)
    ensures var c := StableSort(MoreHours(), lines);
            && |c| == |lines|
            && forall i, j :: 0 <= i < j < |c| ==> Hours(c[i].facts.operations) <= Hours(c[j].facts.operations)
  {
    var hours := (line: Line) => Hours(line.facts.operations);
    SortOrdersKeys(MoreHours(), hours, lines);
    hide Hours;
    var c: seq<Line> := StableSort(MoreHours(), lines);
    assert |multiset(c)| == |multiset(lines)|;
    assert forall i, j :: 0 <= i < j < |c| ==> hours(c[i]) <= hours(c[j]);
  }

  lemma RisingShares(machines: seq<Machine>, lines: seq<Line>)
    ensures var c := StableSort(MoreDominant(machines), lines);
            && |c| == |lines|
            && forall i, j :: 0 <= i < j < |c| ==>
                 Dominant(machines, c[i].facts.operations) <= Dominant(machines, c[j].facts.operations)
  {
    var shares := (line: Line) => Dominant(machines, line.facts.operations);
    SortOrdersKeys(MoreDominant(machines), shares, lines);
    hide Dominant;
    var c: seq<Line> := StableSort(MoreDominant(machines), lines);
    assert |multiset(c)| == |multiset(lines)|;
    assert forall i, j :: 0 <= i < j < |c| ==> shares(c[i]) <= shares(c[j]);
  }

  lemma FallingHours(lines: seq<Line>)
    ensures var c := StableSort(FewerHours(), lines);
            && |c| == |lines|
            && forall i, j :: 0 <= i < j < |c| ==> Hours(c[i].facts.operations) >= Hours(c[j].facts.operations)
  {
    var falling := (line: Line) => -Hours(line.facts.operations);
    SortOrdersKeys(FewerHours(), falling, lines);
    hide Hours;
    var c: seq<Line> := StableSort(FewerHours(), lines);
    assert |multiset(c)| == |multiset(lines)|;
    assert forall i, j :: 0 <= i < j < |c| ==> falling(c[i]) <= falling(c[j]);
  }

  // Those are the orders of rising hours, of rising dominant shares and of falling hours; the last is the order given.
  lemma CandidateOrders(s: Setting, lines: seq<Line>)
    requires s.input.mode == ByDeadline
    ensures var c := Candidates(s, lines);
            && |c| == 4 && c[3] == lines && |c[0]| == |c[1]| == |c[2]| == |lines|
            && (forall i, j :: 0 <= i < j < |lines| ==>
                  Hours(c[0][i].facts.operations) <= Hours(c[0][j].facts.operations))
            && (forall i, j :: 0 <= i < j < |lines| ==>
                  Dominant(s.context.machines, c[1][i].facts.operations)
                  <= Dominant(s.context.machines, c[1][j].facts.operations))
            && (forall i, j :: 0 <= i < j < |lines| ==>
                  Hours(c[2][i].facts.operations) >= Hours(c[2][j].facts.operations))
  {
    RisingHours(lines);
    RisingShares(s.context.machines, lines);
    FallingHours(lines);
    hide Hours, Dominant, StableSort, MoreHours, MoreDominant, FewerHours;
  }

  // ---- one trial ----

  function ProposedRm(s: Setting, line: PlanningLine): string {
    if s.input.mode == ByDeadline then
      if s.input.tentativeRmDate != "" then s.input.tentativeRmDate else s.input.startDate
    else line.rmDate
  }

  function Stints(planner: Planner, rows: seq<PlanRow>): seq<Stint> {
    if rows == [] then []
    else
      [Stint(rows[0].setup, rows[0].machine, rows[0].quantity, Iso(planner, rows[0].start), Iso(planner, rows[0].end))]
      + Stints(planner, rows[1..])
  }

  predicate Attempted(s: Setting, blockers: seq<string>, line: PlanningLine) {
    blockers == [] && line.issue == "" && ProposedRm(s, line) != ""
  }

  function Decide(s: Setting, blockers: seq<string>, line: PlanningLine, outcome: Option<Outcome>): LineResult {
    var selected := outcome.Some? && outcome.value.reason == "";
    LineResult(
      line.id, line.part, line.quantity, selected,
      if selected then outcome.value.completion else "",
      if selected then outcome.value.rmRequiredBy else "",
      if line.issue != "" then line.issue
      else if blockers != [] then "Resolve existing workload blockers"
      else if ProposedRm(s, line) == "" then "Awaiting RM date"
      else if outcome.Some? && outcome.value.reason != "" then outcome.value.reason
      else if s.input.mode == ByDeadline then "Capacity feasible; conditional on RM"
      else "Tentative; subject to RM",
      if selected then Stints(s.planner, outcome.value.plans) else [])
  }

  datatype TrialState = TrialState(target: Commitments, results: map<string, LineResult>, selected: int)

  predicate SelectedId(results: map<string, LineResult>, id: string) {
    id in results && results[id].selected
  }

  function Step(s: Setting, blockers: seq<string>, t: TrialState, line: PlanningLine): TrialState {
    var outcome :=
      if Attempted(s, blockers, line) then Some(Attempt(s, line, t.target, ProposedRm(s, line), true)) else None;
    var result := Decide(s, blockers, line, outcome);
    TrialState(
      if result.selected then outcome.value.target else t.target,
      t.results[line.id := result],
      t.selected - (if SelectedId(t.results, line.id) then 1 else 0) + if result.selected then 1 else 0)
  }

  function RunTrial(s: Setting, e: Existing, candidate: seq<Line>): TrialState {
    if candidate == [] then TrialState(e.committed, map[], 0)
    else Step(s, e.blockers, RunTrial(s, e, candidate[..|candidate| - 1]), candidate[|candidate| - 1].facts)
  }

  datatype Trial = Trial(
    candidate: seq<Line>, target: Commitments, results: map<string, LineResult>, selected: int, utilisation: real)

  function PlainTrial(s: Setting, e: Existing, candidate: seq<Line>): Trial {
    var end := RunTrial(s, e, candidate);
    Trial(candidate, end.target, end.results, end.selected, MachinesLoad(s, end.target, s.context.machines))
  }

  // `compare(a, b) > 0`: b has more selected lines, or as many and more utilised hours.
  predicate Outdoes(selectedA: int, utilisationA: real, selectedB: int, utilisationB: real) {
    selectedB > selectedA || (selectedB == selectedA && utilisationB > utilisationA)
  }

  function BestOf(s: Setting, e: Existing, candidates: seq<seq<Line>>): Trial
    requires candidates != []
  {
    var last := PlainTrial(s, e, candidates[|candidates| - 1]);
    if |candidates| == 1 then last
    else
      var best := BestOf(s, e, candidates[..|candidates| - 1]);
      if Outdoes(best.selected, best.utilisation, last.selected, last.utilisation) then last else best
  }

  // ---- repair by family ----

  function FamilyHours(family: string, ops: seq<Operation>): real {
    Hours(Filter((op: Operation) => op.family == family, ops))
  }

  predicate InFamily(family: string, line: Line) {
    FamilyHours(family, line.facts.operations) > 0.0
  }

  function Members(family: string, candidate: seq<Line>): (r: seq<Line>)
    ensures forall i :: 0 <= i < |r| ==> InFamily(family, r[i])
  {
    if candidate == [] then []
    else (if InFamily(family, candidate[0]) then [candidate[0]] else []) + Members(family, candidate[1..])
  }

  function FewerFamilyHours(family: string): (Line, Line) -> bool {
    (a: Line, b: Line) => FamilyHours(family, a.facts.operations) < FamilyHours(family, b.facts.operations)
  }

  function Queue(family: string, candidate: seq<Line>): (r: seq<Line>)
    ensures multiset(r) == multiset(Members(family, candidate))
    ensures |r| == |Members(family, candidate)|
  {
    StableSort(FewerFamilyHours(family), Members(family, candidate))
  }

  // The queue is the only arrangement of the family's lines by falling hours.
  lemma QueueIsArranged(family: string, candidate: seq<Line>, t: seq<Line>)
    ensures Arranged(FewerFamilyHours(family), Members(family, candidate), t) <==> t == Queue(family, candidate)
  {
    hide Arranged, FamilyHours, Members;
    OnlyArrangement(FewerFamilyHours(family), Members(family, candidate), t);
  }

  // It holds the lines with hours in the family, and their hours fall.
  lemma QueueFalls(family: string, candidate: seq<Line>)
    ensures Members(family, candidate)
         == Filter((line: Line) => FamilyHours(family, line.facts.operations) > 0.0, candidate)
    ensures var queue := Queue(family, candidate);
            forall i, j :: 0 <= i < j < |queue| ==>
              FamilyHours(family, queue[i].facts.operations) >= FamilyHours(family, queue[j].facts.operations)
  {
    MembersFilter(family, candidate);
    var falling := (line: Line) => -FamilyHours(family, line.facts.operations);
    SortOrdersKeys(FewerFamilyHours(family), falling, Members(family, candidate));
    hide FamilyHours, Members;
    var queue: seq<Line> := Queue(family, candidate);
    assert forall i, j :: 0 <= i < j < |queue| ==> falling(queue[i]) <= falling(queue[j]);
  }

  lemma {:induction false} MembersFilter(family: string, candidate: seq<Line>)
    ensures Members(family, candidate)
         == Filter((line: Line) => FamilyHours(family, line.facts.operations) > 0.0, candidate)
  {
    hide FamilyHours;
    if candidate != [] { MembersFilter(family, candidate[1..]); }
  }

  // Refill the family's places from a queue, in order.
  function Refill(family: string, candidate: seq<Line>, queue: seq<Line>): (r: seq<Line>)
    requires |queue| == |Members(family, candidate)|
    ensures |r| == |candidate|
    ensures forall i :: 0 <= i < |r| && !InFamily(family, candidate[i]) ==> r[i] == candidate[i]
  {
    if candidate == [] then []
    else if InFamily(family, candidate[0]) then
      [queue[0]] + Refill(family, candidate[1..], queue[1..])
    else [candidate[0]] + Refill(family, candidate[1..], queue)
  }

  // The family's places hold the queue afterwards.
  lemma {:induction false} RefillFills(family: string, candidate: seq<Line>, queue: seq<Line>)
    requires |queue| == |Members(family, candidate)| && forall line <- queue :: InFamily(family, line)
    ensures Members(family, Refill(family, candidate, queue)) == queue
  {
    hide InFamily;
    if candidate != [] {
      if InFamily(family, candidate[0]) {
        RefillFills(family, candidate[1..], queue[1..]);
      } else {
        RefillFills(family, candidate[1..], queue);
      }
    }
  }

  function Repaired(family: string, candidate: seq<Line>): seq<Line> {
    Refill(family, candidate, Queue(family, candidate))
  }

  predicate AnyRejected(family: string, lines: seq<Line>, results: map<string, LineResult>) {
    exists i :: 0 <= i < |lines| && !SelectedId(results, lines[i].facts.id) && InFamily(family, lines[i])
  }

  function RepairOne(s: Setting, e: Existing, lines: seq<Line>, best: Trial, family: string): Trial {
    if !AnyRejected(family, lines, best.results) then best
    else
      var repaired := PlainTrial(s, e, Repaired(family, best.candidate));
      if Outdoes(best.selected, best.utilisation, repaired.selected, repaired.utilisation) then repaired else best
  }

  function RepairAll(s: Setting, e: Existing, lines: seq<Line>, best: Trial, families: seq<string>): Trial {
    if families == [] then best
    else RepairOne(s, e, lines, RepairAll(s, e, lines, best, families[..|families| - 1]), families[|families| - 1])
  }

  function OperationFamilies(ops: seq<Operation>): seq<string> {
    seq(|ops|, i requires 0 <= i < |ops| => ops[i].family)
  }

  function LineFamilies(lines: seq<Line>): seq<string> {
    if lines == [] then [] else OperationFamilies(lines[0].facts.operations) + LineFamilies(lines[1..])
  }

  function Search(s: Setting, e: Existing, lines: seq<Line>): Trial {
    var best := BestOf(s, e, Candidates(s, lines));
    if s.input.mode == ByDeadline && e.blockers == [] then
      RepairAll(s, e, lines, best, DistinctSorted(LineFamilies(lines)))
    else best
  }

  // ---- the plan ----

  function FamilyUseOf(s: Setting, committed: Commitments, target: Commitments, family: string): FamilyUse {
    var machines := MachinesOf(s.context.machines, family);
    var available := |machines| as real * Available(s, s.dates);
    var existing := MachinesLoad(s, committed, machines);
    var used := MachinesLoad(s, target, machines);
    FamilyUse(family, |machines|, available, existing, used - existing,
      if available == 0.0 then 0.0 else used / available)
  }

  // The hours one machine offers up to the deadline.
  function Available(s: Setting, dates: seq<string>): real {
    if dates == [] then 0.0
    else (if AtMost(dates[0], s.input.deadline) then DayHours(s, dates[0]) else 0.0) + Available(s, dates[1..])
  }

  function MachineFamilies(machines: seq<Machine>): seq<string> {
    seq(|machines|, i requires 0 <= i < |machines| => machines[i].family)
  }

  function FamilyUses(s: Setting, committed: Commitments, target: Commitments, families: seq<string>): seq<FamilyUse> {
    seq(|families|, i requires 0 <= i < |families| => FamilyUseOf(s, committed, target, families[i]))
  }

  function Decisions(lines: seq<Line>, results: map<string, LineResult>): seq<LineResult>
    requires forall i :: 0 <= i < |lines| ==> lines[i].facts.id in results
  {
    seq(|lines|, i requires 0 <= i < |lines| => results[lines[i].facts.id])
  }

  function SettingFor(planner: Planner, input: ProposalInput, context: PlanningContext): Setting
    requires Validate(input) == None && input.startDate != "9997-12-31"
  {
    ValidatedPeriod(input);
    HorizonPasses(input);
    var horizon := AddDays(input.startDate, 730);
    Setting(planner, input, context, horizon, DatesFrom(context.calendar, input.startDate, horizon),
      match context.productiveHoursPerDay
      case Some(hours) => hours
      case None => input.hoursPerDay * input.efficiency / 100.0)
  }

  lemma HorizonPasses(input: ProposalInput)
    requires Validate(input) == None
    ensures ValidDate(AddDays(input.startDate, 730))
    ensures AddDays(input.startDate, 730) != LAST_DATE <==> input.startDate != "9997-12-31"
  {
    hide AddDays, ValidDate, LoopEnds, LinesError, GoodLine, Less;
    ValidatedPeriod(input);
    var horizon := AddDays(input.startDate, 730);
    LessIsTransitive(input.startDate, input.deadline, horizon);
    PlanningLoopEnds(input.startDate, horizon);
  }

  function PlainPlan(planner: Planner, input: ProposalInput, context: PlanningContext, lines: seq<Line>): ProposalPlan
    requires Validate(input) == None && input.startDate != "9997-12-31"
  {
    var s := SettingFor(planner, input, context);
    var e := ReserveExisting(s, InTurn(s));
    var best := Search(s, e, lines);
    EveryLineDecided(s, e, lines);
    ProposalPlan(context.version, Decisions(lines, best.results),
      FamilyUses(s, e.committed, best.target, DistinctSorted(MachineFamilies(context.machines))), e.blockers)
  }

  // ---- in plain words ----

  // One line of existing work: in deadline mode it is planned from the start, otherwise from its own RM date or the one
  // entered for it. An issue, a missing date or a failed attempt blocks; work without operations is done.
  lemma ExistingLineReserved(s: Setting, e: Existing, line: PlanningLine)
    ensures var t := ReserveOne(s, e, line);
            var rm := if s.input.mode == ByDeadline then s.input.startDate
                      else if line.rmDate != "" || line.id !in s.input.existingRmDates then line.rmDate
                      else s.input.existingRmDates[line.id];
            var o := Attempt(s, line, e.committed, rm, false);
            if line.issue != "" then t == Existing(e.committed, e.blockers + [line.id + ": " + line.issue])
            else if rm == "" then t == Existing(e.committed, e.blockers + [line.id + ": awaiting tentative RM date"])
            else if line.operations == [] then t == e
            else if o.reason != "" then t == Existing(e.committed, e.blockers + [line.id + ": " + o.reason])
            else t == Existing(o.target, e.blockers)
  {
    hide Attempt;
    var text := "awaiting tentative RM date";
    assert line.id + ": " + text == line.id + ": awaiting tentative RM date";
  }

  // One line of a trial: it is attempted, from its RM date or in deadline mode from the tentative one or the start,
  // unless existing work blocks, it has an issue or no date; it is selected exactly when nothing is objected, and only
  // then does it commit anything.
  lemma ProposedLineDecided(s: Setting, blockers: seq<string>, t: TrialState, line: PlanningLine)
    ensures var v := Step(s, blockers, t, line);
            var rm := if s.input.mode == ByDates then line.rmDate
                      else if s.input.tentativeRmDate == "" then s.input.startDate
                      else s.input.tentativeRmDate;
            var o := Attempt(s, line, t.target, rm, true);
            && line.id in v.results && v.results == t.results[line.id := v.results[line.id]]
            && var r := v.results[line.id];
               && r.id == line.id && r.part == line.part && r.quantity == line.quantity
               && (r.selected <==> blockers == [] && line.issue == "" && rm != "" && o.reason == "")
               && (if r.selected then
                     && v.target == o.target && r.completion == o.completion && r.rmRequiredBy == o.rmRequiredBy
                     && |r.machinePlan| == |o.plans|
                     && r.reason == (if s.input.mode == ByDates then "Tentative; subject to RM"
                                     else "Capacity feasible; conditional on RM")
                   else
                     && v.target == t.target && r.completion == "" && r.rmRequiredBy == "" && r.machinePlan == []
                     && r.reason == (if line.issue != "" then line.issue
                                     else if blockers != [] then "Resolve existing workload blockers"
                                     else if rm == "" then "Awaiting RM date"
                                     else o.reason))
  {
    hide Attempt;
    var rm := ProposedRm(s, line);
    StintCount(s.planner, Attempt(s, line, t.target, rm, true).plans);
  }

  lemma {:induction false} StintCount(planner: Planner, rows: seq<PlanRow>)
    ensures |Stints(planner, rows)| == |rows|
  {
    hide Iso;
    if rows != [] { StintCount(planner, rows[1..]); }
  }

  // The load of a machine is a sum over dates: a date up to the deadline under a reservation of the machine counts with
  // its hours, any other not at all; and the hours of a date are the daily hours unless a fraction is given for it.
  lemma {:induction false} LoadIsASum(s: Setting, dates: seq<string>, more: seq<string>, held: seq<Reservation>,
      machine: string)
    ensures LoadOver(s, dates + more, held, machine)
         == LoadOver(s, dates, held, machine) + LoadOver(s, more, held, machine)
    ensures Available(s, dates + more) == Available(s, dates) + Available(s, more)
  {
    hide DayHours, Occupied, Less;
    if dates == [] {
      assert dates + more == more;
    } else {
      assert (dates + more)[1..] == dates[1..] + more;
      LoadIsASum(s, dates[1..], more, held, machine);
    }
  }

  lemma LoadOfADate(s: Setting, date: string, held: seq<Reservation>, machine: string)
    ensures var hours := if date !in s.context.capacityFractions then s.daily
                         else s.daily * s.context.capacityFractions[date];
            && (AtMost(date, s.input.deadline) ==> Available(s, [date]) == hours)
            && (Less(s.input.deadline, date) ==> Available(s, [date]) == 0.0)
            && (AtMost(date, s.input.deadline) ==>
                  (exists row <- held :: row.machine == machine && AtMost(row.start, date) && AtMost(date, row.end)) ==>
                    LoadOver(s, [date], held, machine) == hours)
            && ((forall row <- held :: row.machine == machine ==> Less(date, row.start) || Less(row.end, date)) ==>
                  LoadOver(s, [date], held, machine) == 0.0)
            && (Less(s.input.deadline, date) ==> LoadOver(s, [date], held, machine) == 0.0)
  {
    hide Less;
    assert [date][1..] == [];
  }

  lemma {:induction false} MachinesAddUp(s: Setting, target: Commitments, machines: seq<Machine>, more: seq<Machine>)
    ensures MachinesLoad(s, target, machines + more)
         == MachinesLoad(s, target, machines) + MachinesLoad(s, target, more)
    ensures forall m: Machine :: MachinesLoad(s, target, [m]) == LoadOver(s, s.dates, target.reservations, m.id)
  {
    hide LoadOver;
    forall m: Machine ensures MachinesLoad(s, target, [m]) == LoadOver(s, s.dates, target.reservations, m.id) {
      assert [m][1..] == [];
    }
    if machines == [] {
      assert machines + more == more;
    } else {
      assert (machines + more)[1..] == machines[1..] + more;
      MachinesAddUp(s, target, machines[1..], more);
    }
  }

  // The hours of a line are those of its operations together, those of a family of the operations of the family.
  lemma {:induction false} HoursAddUp(family: string, ops: seq<Operation>, more: seq<Operation>)
    ensures Hours(ops + more) == Hours(ops) + Hours(more)
    ensures FamilyHours(family, ops + more) == FamilyHours(family, ops) + FamilyHours(family, more)
  {
    if ops == [] {
      assert ops + more == more;
    } else {
      assert (ops + more)[1..] == ops[1..] + more;
      HoursAddUp(family, ops[1..], more);
    }
  }

  lemma HoursOfOne(family: string, op: Operation)
    ensures Hours([op]) == op.hours
    ensures FamilyHours(family, [op]) == if op.family == family then op.hours else 0.0
  {
    assert [op][1..] == [];
  }

  // What dominates a line is the greatest share of an operation: its hours divided among the machines of its family, a
  // family without machines counting as one.
  lemma {:induction false} DominantIsGreatest(machines: seq<Machine>, ops: seq<Operation>)
    ensures Dominant(machines, ops) >= 0.0
    ensures forall op <- ops :: ShareOf(machines, op) <= Dominant(machines, ops)
    ensures Dominant(machines, ops) > 0.0 ==> exists op <- ops :: Dominant(machines, ops) == ShareOf(machines, op)
  {
    hide ShareOf;
    if ops != [] {
      DominantIsGreatest(machines, ops[1..]);
      FirstShare(machines, ops);
      assert ops == [ops[0]] + ops[1..];
    }
  }

  ghost function ShareOf(machines: seq<Machine>, op: Operation): real {
    var n := |MachinesOf(machines, op.family)|;
    if n == 0 then op.hours else op.hours / n as real
  }

  lemma FirstShare(machines: seq<Machine>, ops: seq<Operation>)
    requires ops != []
    ensures Dominant(machines, ops) == if ShareOf(machines, ops[0]) > Dominant(machines, ops[1..])
              then ShareOf(machines, ops[0]) else Dominant(machines, ops[1..])
  {
    hide MachinesOf;
  }

  // The hours a plan shows for a family: what its machines offer, what existing work takes, and what the selected lines
  // add to that.
  lemma FamilyShows(s: Setting, committed: Commitments, target: Commitments, family: string)
    ensures var use := FamilyUseOf(s, committed, target, family);
            var machines := MachinesOf(s.context.machines, family);
            && use.family == family && use.machines == |machines|
            && use.available == use.machines as real * Available(s, s.dates)
            && use.committed == MachinesLoad(s, committed, machines)
            && use.committed + use.proposed == MachinesLoad(s, target, machines)
            && (use.available != 0.0 ==>
                  use.utilisation == (use.committed + use.proposed) / use.available)
            && (use.available == 0.0 ==> use.utilisation == 0.0)
  {
    hide Available, MachinesLoad, MachinesOf;
  }

  // A plan decides the lines in their order, by the best trial found on top of the existing work, and shows every
  // family of machines once, in string order.
  lemma PlanShows(planner: Planner, input: ProposalInput, context: PlanningContext, lines: seq<Line>)
    requires Validate(input) == None && input.startDate != "9997-12-31"
    ensures var s := SettingFor(planner, input, context);
            var e := ReserveExisting(s, InTurn(s));
            var best := Search(s, e, lines);
            var plan := PlainPlan(planner, input, context, lines);
            && plan.version == context.version && plan.blockers == e.blockers
            && |plan.lines| == |lines|
            && (forall i :: 0 <= i < |lines| ==>
                  lines[i].facts.id in best.results && plan.lines[i] == best.results[lines[i].facts.id])
            && (forall use <- plan.families ::
                  use == FamilyUseOf(s, e.committed, best.target, use.family))
            && (forall m <- context.machines :: exists use <- plan.families :: use.family == m.family)
            && (forall use <- plan.families :: exists m <- context.machines :: use.family == m.family)
            && (forall i, j :: 0 <= i < j < |plan.families| ==> Less(plan.families[i].family, plan.families[j].family))
  {
    hide SettingFor, ReserveExisting, Search, FamilyUseOf, Less, FamilyUses;
    var s := SettingFor(planner, input, context);
    var e := ReserveExisting(s, InTurn(s));
    var best := Search(s, e, lines);
    EveryLineDecided(s, e, lines);
    FamiliesShown(s, e.committed, best.target, context.machines);
  }

  lemma FamiliesShown(s: Setting, committed: Commitments, target: Commitments, machines: seq<Machine>)
    ensures var uses := FamilyUses(s, committed, target, DistinctSorted(MachineFamilies(machines)));
            && (forall use <- uses :: use == FamilyUseOf(s, committed, target, use.family))
            && (forall m <- machines :: exists use <- uses :: use.family == m.family)
            && (forall use <- uses :: exists m <- machines :: use.family == m.family)
            && (forall i, j :: 0 <= i < j < |uses| ==> Less(uses[i].family, uses[j].family))
  {
    hide FamilyUseOf, Less;
    var families := DistinctSorted(MachineFamilies(machines));
    var uses := FamilyUses(s, committed, target, families);
    forall i | 0 <= i < |families|
      ensures uses[i] == FamilyUseOf(s, committed, target, families[i]) && uses[i].family == families[i]
    {
      FamilyShows(s, committed, target, families[i]);
    }
    forall m <- machines ensures exists use <- uses :: use.family == m.family {
      var k :| 0 <= k < |machines| && machines[k] == m;
      assert MachineFamilies(machines)[k] in families;
      var i :| 0 <= i < |families| && families[i] == m.family;
      assert uses[i] in uses;
    }
    forall use <- uses ensures exists m <- machines :: use.family == m.family {
      var i :| 0 <= i < |families| && uses[i] == use;
      assert families[i] in MachineFamilies(machines);
      var k :| 0 <= k < |machines| && machines[k].family == families[i];
      assert machines[k] in machines;
    }
  }

  // The daily hours are the productive ones if given, else the share of the hours entered that is available; the
  // horizon is two years after the start.
  lemma SettingShows(planner: Planner, input: ProposalInput, context: PlanningContext)
    requires Validate(input) == None && input.startDate != "9997-12-31"
    ensures var s := SettingFor(planner, input, context);
            && s.planner == planner && s.input == input && s.context == context
            && (context.productiveHoursPerDay.Some? ==> s.daily == context.productiveHoursPerDay.value)
            && (context.productiveHoursPerDay.None? ==> 100.0 * s.daily == input.hoursPerDay * input.efficiency)
            && s.horizon == AddDays(input.startDate, 730)
            && ValidDate(input.startDate) && ValidDate(s.horizon) && s.horizon != LAST_DATE
            && s.dates == DatesFrom(context.calendar, input.startDate, s.horizon)
  {
    hide DatesFrom, LoopEnds, LinesError, GoodLine, Less, AddDays;
    ValidatedPeriod(input);
    HorizonPasses(input);
  }

  // ---- what holds of every trial ----

  ghost function SelectedIds(results: map<string, LineResult>): set<string> {
    set id | id in results && results[id].selected
  }

  lemma StepCounts(s: Setting, blockers: seq<string>, t: TrialState, line: PlanningLine)
    ensures |SelectedIds(Step(s, blockers, t, line).results)| - Step(s, blockers, t, line).selected
         == |SelectedIds(t.results)| - t.selected
  {
    hide Attempt, Decide;
    var before, after := SelectedIds(t.results), SelectedIds(Step(s, blockers, t, line).results);
    if line.id in after {
      assert after == before + {line.id};
    } else {
      assert after == before - {line.id};
    }
  }

  // The counter of a trial is the number of selected ids, also when an id comes up twice.
  lemma {:induction false} CounterIsSelected(s: Setting, e: Existing, candidate: seq<Line>)
    ensures RunTrial(s, e, candidate).selected == |SelectedIds(RunTrial(s, e, candidate).results)|
  {
    if candidate != [] {
      CounterIsSelected(s, e, candidate[..|candidate| - 1]);
      StepCounts(s, e.blockers, RunTrial(s, e, candidate[..|candidate| - 1]), candidate[|candidate| - 1].facts);
    }
  }

  // Each remaining line adds at most one to the counter, which is what pruning relies on.
  lemma {:induction false} RemainingBound(s: Setting, e: Existing, candidate: seq<Line>, n: nat)
    requires n <= |candidate|
    ensures RunTrial(s, e, candidate).selected <= RunTrial(s, e, candidate[..n]).selected + |candidate| - n
    decreases |candidate| - n
  {
    hide Attempt, Decide;
    if n == |candidate| {
      assert candidate[..n] == candidate;
    } else {
      RemainingBound(s, e, candidate, n + 1);
      assert candidate[..n + 1][..n] == candidate[..n];
    }
  }

  // A trial only ever appends to what was committed before it.
  lemma {:induction false} TrialAppends(s: Setting, e: Existing, candidate: seq<Line>)
    ensures var t := RunTrial(s, e, candidate).target;
            e.committed.plans <= t.plans && e.committed.reservations <= t.reservations
  {
    if candidate != [] {
      TrialAppends(s, e, candidate[..|candidate| - 1]);
    }
  }

  lemma {:induction false} TrialDecides(s: Setting, e: Existing, candidate: seq<Line>)
    ensures forall i :: 0 <= i < |candidate| ==> candidate[i].facts.id in RunTrial(s, e, candidate).results
  {
    if candidate != [] {
      hide Attempt, Decide;
      var before := candidate[..|candidate| - 1];
      TrialDecides(s, e, before);
      assert forall i :: 0 <= i < |before| ==> before[i] == candidate[i];
    }
  }

  // ---- the repair permutes ----

  lemma Exchange<T>(f: multiset<T>, h: multiset<T>, r: multiset<T>, m: multiset<T>, c: multiset<T>, q: multiset<T>)
    requires r + m == c + q
    ensures (f + r) + (h + m) == (h + c) + (f + q)
    ensures (h + r) + m == (h + c) + q
  {
    assert (f + r) + (h + m) == (f + h) + (r + m);
    assert (h + c) + (f + q) == (f + h) + (c + q);
    assert (h + r) + m == h + (r + m);
    assert (h + c) + q == h + (c + q);
  }

  lemma {:induction false} RefillPermutes(family: string, candidate: seq<Line>, queue: seq<Line>)
    requires |queue| == |Members(family, candidate)|
    ensures multiset(Refill(family, candidate, queue)) + multiset(Members(family, candidate))
            == multiset(candidate) + multiset(queue)
  {
    hide InFamily;
    if candidate != [] {
      var here, rest := [candidate[0]], candidate[1..];
      var inside := InFamily(family, candidate[0]);
      var first := if inside then [queue[0]] else here;
      var others := if inside then queue[1..] else queue;
      RefillPermutes(family, rest, others);
      Exchange(multiset(first), multiset(here), multiset(Refill(family, rest, others)),
        multiset(Members(family, rest)), multiset(rest), multiset(others));
      assert candidate == here + rest;
      assert Refill(family, candidate, queue) == first + Refill(family, rest, others);
      if inside {
        assert queue == first + others;
        assert Members(family, candidate) == here + Members(family, rest);
      } else {
        assert Members(family, candidate) == Members(family, rest);
      }
    }
  }

  lemma Cancel<T>(a: multiset<T>, b: multiset<T>, c: multiset<T>)
    requires a + b == c + b
    ensures a == c
  {
    assert a == a + b - b;
    assert c == c + b - b;
  }

  // The repaired order holds the same lines, and every line outside the family keeps its place.
  lemma RepairPermutes(family: string, candidate: seq<Line>)
    ensures multiset(Repaired(family, candidate)) == multiset(candidate)
    ensures |Repaired(family, candidate)| == |candidate|
    ensures forall i :: 0 <= i < |candidate| && !InFamily(family, candidate[i]) ==>
              Repaired(family, candidate)[i] == candidate[i]
  {
    hide InFamily, Members, Refill, Queue;
    var queue := Queue(family, candidate);
    RefillPermutes(family, candidate, queue);
    Cancel(multiset(Repaired(family, candidate)), multiset(queue), multiset(candidate));
  }

  // A trial of some order of the lines.
  ghost predicate TrialOf(s: Setting, e: Existing, lines: seq<Line>, t: Trial) {
    multiset(t.candidate) == multiset(lines) && t == PlainTrial(s, e, t.candidate)
  }

  // The trial is the one of this order, and those of all earlier orders fall short of it.
  ghost predicate FirstAtBest(s: Setting, e: Existing, candidates: seq<seq<Line>>, i: nat, b: Trial)
    requires i < |candidates|
  {
    && b == PlainTrial(s, e, candidates[i])
    && forall j :: 0 <= j < i ==>
         var t := PlainTrial(s, e, candidates[j]);
         t.selected < b.selected || (t.selected == b.selected && t.utilisation < b.utilisation)
  }

  // The best of some orders has more selected lines than the trial of any of them, or as many and no fewer hours in
  // use.
  lemma {:induction false} BestOfIsBest(s: Setting, e: Existing, lines: seq<Line>, candidates: seq<seq<Line>>)
    requires candidates != []
    requires forall i :: 0 <= i < |candidates| ==> multiset(candidates[i]) == multiset(lines)
    ensures TrialOf(s, e, lines, BestOf(s, e, candidates))
    ensures exists i :: 0 <= i < |candidates| && FirstAtBest(s, e, candidates, i, BestOf(s, e, candidates))
    ensures forall i :: 0 <= i < |candidates| ==>
              var b, t := BestOf(s, e, candidates), PlainTrial(s, e, candidates[i]);
              t.selected < b.selected || (t.selected == b.selected && t.utilisation <= b.utilisation)
  {
    hide RunTrial, MachinesLoad;
    var n := |candidates| - 1;
    if n > 0 {
      var before := candidates[..n];
      BestOfIsBest(s, e, lines, before);
      var k :| 0 <= k < n && FirstAtBest(s, e, before, k, BestOf(s, e, before));
      assert before[k] == candidates[k] && forall i :: 0 <= i < n ==> before[i] == candidates[i];
      hide PlainTrial;
      assert FirstAtBest(s, e, candidates, if BestOf(s, e, candidates) == BestOf(s, e, before) then k else n,
          BestOf(s, e, candidates));
      forall i | 0 <= i < |candidates|
        ensures var b, t := BestOf(s, e, candidates), PlainTrial(s, e, candidates[i]);
                t.selected < b.selected || (t.selected == b.selected && t.utilisation <= b.utilisation)
      {
        if i < n { assert before[i] == candidates[i]; }
      }
    } else {
      assert FirstAtBest(s, e, candidates, 0, BestOf(s, e, candidates));
    }
  }

  // One turn of the repair ends no worse than it began, and when a line of the family was rejected, no worse than the
  // trial of the order it tries.
  lemma RepairTurn(s: Setting, e: Existing, lines: seq<Line>, best: Trial, family: string)
    requires TrialOf(s, e, lines, best)
    ensures var b := RepairOne(s, e, lines, best, family); var t := PlainTrial(s, e, Repaired(family, best.candidate));
            && TrialOf(s, e, lines, b) && (b == best || b == t)
            && (b == best || best.selected < b.selected
                || (best.selected == b.selected && best.utilisation < b.utilisation))
            && ((forall line <- lines ::
                   FamilyHours(family, line.facts.operations) <= 0.0
                   || (line.facts.id in best.results && best.results[line.facts.id].selected)) ==> b == best)
            && ((exists line <- lines :: FamilyHours(family, line.facts.operations) > 0.0
                   && (line.facts.id in best.results ==> !best.results[line.facts.id].selected)) ==>
                  t.selected < b.selected || (t.selected == b.selected && t.utilisation <= b.utilisation))
  {
    hide PlainTrial, FamilyHours, Repaired;
    RepairPermutes(family, best.candidate);
    TrialKeepsCandidate(s, e, Repaired(family, best.candidate));
    forall line <- lines | FamilyHours(family, line.facts.operations) > 0.0
                           && (line.facts.id in best.results ==> !best.results[line.facts.id].selected)
      ensures AnyRejected(family, lines, best.results)
    {
      var i :| 0 <= i < |lines| && lines[i] == line;
    }
  }

  // The turns are taken one family after another, each on what the one before left.
  lemma RepairsInTurn(s: Setting, e: Existing, lines: seq<Line>, best: Trial, families: seq<string>, family: string)
    ensures RepairAll(s, e, lines, best, []) == best
    ensures RepairAll(s, e, lines, best, families + [family])
         == RepairOne(s, e, lines, RepairAll(s, e, lines, best, families), family)
  {
    hide RepairOne;
    assert (families + [family])[..|families|] == families;
  }

  // So the whole repair ends with the trial of a permutation that is no worse than the trial it began with.
  lemma {:induction false} RepairImproves(s: Setting, e: Existing, lines: seq<Line>, best: Trial, families: seq<string>)
    requires TrialOf(s, e, lines, best)
    ensures var b := RepairAll(s, e, lines, best, families);
            && TrialOf(s, e, lines, b)
            && (best.selected < b.selected || (best.selected == b.selected && best.utilisation <= b.utilisation))
  {
    hide PlainTrial, RepairOne, TrialOf;
    if families != [] {
      RepairImproves(s, e, lines, best, families[..|families| - 1]);
      RepairTurn(s, e, lines, RepairAll(s, e, lines, best, families[..|families| - 1]), families[|families| - 1]);
    }
  }

  lemma TrialKeepsCandidate(s: Setting, e: Existing, candidate: seq<Line>)
    ensures PlainTrial(s, e, candidate).candidate == candidate
  {
  }

  // The search ends with the trial of a permutation of the lines that has more selected lines than the trial of any
  // candidate order, or as many and no fewer hours in use; planned by dates, it is the trial of the order given.
  lemma SearchIsBest(s: Setting, e: Existing, lines: seq<Line>)
    ensures TrialOf(s, e, lines, Search(s, e, lines))
    ensures forall i :: 0 <= i < |Candidates(s, lines)| ==>
              var b, t := Search(s, e, lines), PlainTrial(s, e, Candidates(s, lines)[i]);
              t.selected < b.selected || (t.selected == b.selected && t.utilisation <= b.utilisation)
    ensures s.input.mode == ByDates ==> Search(s, e, lines) == PlainTrial(s, e, lines)
  {
    hide PlainTrial, RepairAll, TrialOf;
    var candidates := Candidates(s, lines);
    BestOfIsBest(s, e, lines, candidates);
    RepairImproves(s, e, lines, BestOf(s, e, candidates), DistinctSorted(LineFamilies(lines)));
  }

  // By deadline and without blockers the best candidate is repaired for every family of an operation, in string order.
  lemma SearchRepairs(s: Setting, e: Existing, lines: seq<Line>) returns (families: seq<string>)
    requires s.input.mode == ByDeadline && e.blockers == []
    ensures Increasing(families)
    ensures forall family :: family in families <==>
              exists line <- lines, op <- line.facts.operations :: op.family == family
    ensures Search(s, e, lines) == RepairAll(s, e, lines, BestOf(s, e, Candidates(s, lines)), families)
  {
    hide RepairAll, BestOf, Candidates;
    families := DistinctSorted(LineFamilies(lines));
    forall family ensures family in families <==>
      exists line <- lines, op <- line.facts.operations :: op.family == family
    {
      FamiliesOfLines(lines, family);
    }
  }

  lemma {:induction false} FamiliesOfLines(lines: seq<Line>, family: string)
    ensures family in LineFamilies(lines) <==> exists line <- lines, op <- line.facts.operations :: op.family == family
  {
    if lines != [] {
      FamiliesOfLines(lines[1..], family);
      FamiliesOfOne(lines[0].facts.operations, family);
      assert lines == [lines[0]] + lines[1..];
    }
  }

  lemma FamiliesOfOne(ops: seq<Operation>, family: string)
    ensures family in OperationFamilies(ops) <==> exists op <- ops :: op.family == family
  {
    if op :| op in ops && op.family == family {
      var i :| 0 <= i < |ops| && ops[i] == op;
      assert OperationFamilies(ops)[i] == family;
    }
  }

  // Every proposed line has a decision in the final result.
  lemma EveryLineDecided(s: Setting, e: Existing, lines: seq<Line>)
    ensures forall i :: 0 <= i < |lines| ==> lines[i].facts.id in Search(s, e, lines).results
  {
    hide Search, RunTrial, Candidates;
    SearchIsBest(s, e, lines);
    var best := Search(s, e, lines);
    TrialDecides(s, e, best.candidate);
    forall i | 0 <= i < |lines| ensures lines[i].facts.id in best.results {
      assert lines[i] in multiset(best.candidate);
    }
  }
}

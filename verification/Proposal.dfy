// A proposed order, the facts it is planned against, and one planner attempt for one line.
module Proposal {
  import opened Wrappers
  import opened Text
  import opened Calendar
  import opened Sequences

  datatype Mode = ByDates | ByDeadline

  datatype ProposedLine = ProposedLine(id: string, part: string, option: string, quantity: int, rmDate: string)

  // An absent tentative RM date is the empty text.
  datatype ProposalInput = ProposalInput(
    reference: string, startDate: string, tentativeRmDate: string, deadline: string,
    hoursPerDay: real, efficiency: real, setupHours: real, mode: Mode,
    lines: seq<ProposedLine>, existingRmDates: map<string, string>)

  datatype Operation = Operation(family: string, setup: string, hours: real, quantity: Option<int>)

  datatype PlanningLine = PlanningLine(
    id: string, part: string, option: string, quantity: int, rmDate: string,
    operations: seq<Operation>, issue: string)

  // A proposed line as the search holds it: two lines with equal facts are still two lines.
  class Line {
    const facts: PlanningLine

    constructor (facts: PlanningLine)
      ensures this.facts == facts
    {
      this.facts := facts;
    }
  }

  datatype Machine = Machine(id: string, family: string)

  datatype Reservation = Reservation(machine: string, start: string, end: string)

  // A row of the planner: one setup on one machine. `notes` are its other texts.
  datatype PlanRow = PlanRow(
    job: string, setup: string, machine: string, quantity: int, start: string, end: string,
    toolingBlocked: bool, toolingStatus: string, notes: seq<string>)

  datatype PlanningContext = PlanningContext(
    version: int, machines: seq<Machine>, masters: seq<Machine>, calendar: WorkCalendar,
    capacityFractions: map<string, real>, productiveHoursPerDay: Option<real>,
    existing: seq<PlanningLine>, reservations: seq<Reservation>, reservedPlans: seq<PlanRow>,
    blockers: seq<string>)

  datatype Request = Request(
    line: PlanningLine, ready: string, reservations: seq<Reservation>, plans: seq<PlanRow>, deadline: string)

  // The production planner and three readings that belong to other packages: whether the planner takes
  // one work order after another, the date a legacy label stands for (empty when it is none), and
  // whether a line's master facts are plain enough for certification (see CertifiedFailure).
  datatype Planner = Planner(
    simulate: Request -> seq<PlanRow>,
    takesAfter: (PlanningLine, PlanningLine) -> bool,
    legacyDate: string -> string,
    plainFacts: PlanningLine -> bool)

  // ---- validation ----

  datatype ProposalError =
    | BadReference | BadPeriod | BadDailyHours | BadTentativeRmDate | BadSetupHours
    | BadLineCount | DuplicateLine | BadLine | BadLineRmDate | BadExistingRmDate

  predicate Blank(s: string) {
    forall c :: c in s ==> WhiteSpace(c)
  }

  predicate GoodLine(line: ProposedLine) {
    !Blank(line.id) && !Blank(line.part) && 0 < line.quantity <= 100000000
  }

  function LinesError(lines: seq<ProposedLine>): Option<ProposalError> {
    if lines == [] then None
    else if !GoodLine(lines[0]) then Some(BadLine)
    else if lines[0].rmDate != "" && !ValidDate(lines[0].rmDate) then Some(BadLineRmDate)
    else LinesError(lines[1..])
  }

  function Validate(input: ProposalInput): Option<ProposalError> {
    if Blank(input.reference) || |input.reference| > 150 then Some(BadReference)
    else if !ValidDate(input.startDate) || !ValidDate(input.deadline) || Less(input.deadline, input.startDate)
            || Less(AddDays(input.startDate, 730), input.deadline) then Some(BadPeriod)
    else if !(0.0 < input.hoursPerDay <= 24.0) || !(0.0 < input.efficiency <= 100.0) then Some(BadDailyHours)
    else if input.mode == ByDeadline && input.tentativeRmDate != ""
            && (!ValidDate(input.tentativeRmDate) || Less(input.deadline, input.tentativeRmDate)) then
      Some(BadTentativeRmDate)
    else if !(0.0 <= input.setupHours <= 720.0) then Some(BadSetupHours)
    else if input.lines == [] || |input.lines| > 1000 then Some(BadLineCount)
    else if exists i, j :: 0 <= i < j < |input.lines| && input.lines[i].id == input.lines[j].id then Some(DuplicateLine)
    else if LinesError(input.lines) != None then LinesError(input.lines)
    else if
      exists id ::
        id in input.existingRmDates && input.existingRmDates[id] != "" && !ValidDate(input.existingRmDates[id])
    then
      Some(BadExistingRmDate)
    else None
  }

  predicate HasInk(s: string) {
    !AllBlank(s)
  }

  lemma Inked(s: string)
    ensures HasInk(s) <==> !Blank(s)
  {
    BlankMeans(s);
  }

  ghost predicate GoodLines(lines: seq<ProposedLine>) {
    forall line <- lines ::
      && HasInk(line.id) && HasInk(line.part) && 1 <= line.quantity <= 100000000
      && (line.rmDate == "" || ValidDate(line.rmDate))
  }

  lemma {:induction false} LinesAreGood(lines: seq<ProposedLine>)
    ensures LinesError(lines) == None <==> GoodLines(lines)
  {
    hide ValidDate, HasInk, Blank;
    if lines != [] {
      Inked(lines[0].id);
      Inked(lines[0].part);
      LinesAreGood(lines[1..]);
      assert lines == [lines[0]] + lines[1..];
    }
  }

  // What a proposal must be to pass: the limits of its fields, a period of two years at most, a deadline the raw
  // material does not overrun, and one to a thousand good lines of distinct references.
  lemma ValidExactly(input: ProposalInput)
    ensures Validate(input) == None <==>
              && HasInk(input.reference) && |input.reference| <= 150
              && ValidDate(input.startDate) && ValidDate(input.deadline)
              && AtMost(input.startDate, input.deadline) && AtMost(input.deadline, AddDays(input.startDate, 730))
              && 0.0 < input.hoursPerDay <= 24.0 && 0.0 < input.efficiency <= 100.0
              && 0.0 <= input.setupHours <= 720.0
              && (input.mode == ByDeadline && input.tentativeRmDate != "" ==>
                    ValidDate(input.tentativeRmDate) && AtMost(input.tentativeRmDate, input.deadline))
              && 1 <= |input.lines| <= 1000 && GoodLines(input.lines)
              && (forall i, j :: 0 <= i < j < |input.lines| ==> input.lines[i].id != input.lines[j].id)
              && (forall id <- input.existingRmDates :: input.existingRmDates[id] == ""
                                                        || ValidDate(input.existingRmDates[id]))
  {
    hide ValidDate, AddDays, Less, HasInk, Blank, GoodLines, LinesError;
    Inked(input.reference);
    LinesAreGood(input.lines);
  }

  // A validated period reaches its two-year horizon inside the four-digit years, and the loop over
  // its planning dates ends for every start but one.
  lemma ValidatedPeriod(input: ProposalInput)
    requires Validate(input) == None
    ensures var horizon := AddDays(input.startDate, 730);
            ValidDate(horizon) && AtMost(input.startDate, input.deadline) && AtMost(input.deadline, horizon)
    ensures LoopEnds(input.startDate, AddDays(input.startDate, 730)) <==> input.startDate != "9997-12-31"
  {
    hide DayOf, AddDays, ValidDate, LoopEnds, LinesError, GoodLine, Less;
    var start, horizon := input.startDate, AddDays(input.startDate, 730);
    DayRange(start);
    LessIsTotal(horizon, input.deadline);
    if DayOf(start) + 730 > LAST_DAY {
      CutOffHorizonSortsFirst(start, input.deadline);
    }
    AddDaysShifts(start, 730);
    TextOrderIsDayOrder(horizon, start);
    PlanningLoopEnds(start, horizon);
    HorizonHasNext(horizon);
    StartBeforeLastHorizon();
    TextOrderIsDayOrder(start, "9997-12-31");
  }

  lemma StartBeforeLastHorizon()
    ensures ValidDate("9997-12-31") && DayOf("9997-12-31") == LAST_DAY - 730
  {
    assert Four(9997) == "9997" && Two(12) == "12" && Two(31) == "31";
    var c := Civil(9997, 12, 31);
    FieldsOfText(c);
    assert IsoText(c) == "9997-12-31";
    hide IsoText, Fields, DateShape, ValidDate, DaysBeforeMonth;
    DecemberEnd(9997);
    assert DaysBeforeYear(9998) == LAST_DAY - 729;
  }

  lemma DecemberEnd(y: int)
    ensures DayNumber(Civil(y, 12, 31)) == DaysBeforeYear(y + 1) - 1
  {
    YearLength(y);
    hide DaysBeforeYear;
    assert DaysBeforeMonth(y, 13) == DaysBeforeMonth(y, 12) + 31;
  }

  // A horizon past year 9999 is cut-off text that sorts before every date.
  lemma CutOffHorizonSortsFirst(start: string, deadline: string)
    requires ValidDate(start) && ValidDate(deadline) && DayOf(start) + 730 > LAST_DAY
    ensures Less(AddDays(start, 730), deadline)
  {
    hide DayOf, DayNumber, DateShape, Fields, Real, YearOf, DaysBeforeYear, IsoText, ValidDate, Less, LAST_DAY;
    var c := CivilOf(DayOf(start) + 730);
    LaterYear(c);
    LateHorizon(start, c);
    SignedText(c);
    DateHasShape(deadline);
    SignSortsFirst(AddDays(start, 730), deadline);
  }

  lemma LateHorizon(start: string, c: Civil)
    requires ValidDate(start) && c == CivilOf(DayOf(start) + 730) && c.year > 9999
    ensures c.year <= 999999 && AddDays(start, 730) == IsoText(c)
  {
    hide DayOf, DayNumber, DateShape, Fields, Real, DaysBeforeYear, IsoText, YearOf, MonthOf, DaysBeforeMonth;
    DayRange(start);
    RepresentableYear(DayOf(start) + 730);
  }

  lemma DateHasShape(date: string)
    requires ValidDate(date)
    ensures DateShape(date)
  {
  }

  lemma SignedText(c: Civil)
    requires Real(c) && 9999 < c.year <= 999999
    ensures IsoText(c)[0] == '+'
  {
  }

  lemma SignSortsFirst(text: string, date: string)
    requires |text| > 0 && text[0] == '+' && DateShape(date)
    ensures Less(text, date)
  {
    assert date[..4][0] == date[0];
  }

  lemma LaterYear(c: Civil)
    requires Real(c) && DayNumber(c) > LAST_DAY
    ensures c.year > 9999
  {
    hide DayNumber, DaysBeforeYear, DaysBeforeMonth;
    YearInRange(c);
    if c.year < 0 {
      WithinYear(c);
      YearsIncrease(c.year, 0);
      YearZero();
    }
  }

  // A proposal of one line on the one date.
  function OneDayProposal(date: string, rmDate: string): ProposalInput {
    ProposalInput("r", date, "", date, 8.0, 80.0, 0.0, ByDates, [ProposedLine("1", "p", "", 1, rmDate)], map[])
  }

  lemma OneDayIsValid(date: string, rmDate: string)
    requires ValidDate(date) && DayOf(date) + 730 <= LAST_DAY && (rmDate == "" || ValidDate(rmDate))
    ensures Validate(OneDayProposal(date, rmDate)) == None
  {
    hide DayOf, ValidDate, AddDays, Less;
    var input := OneDayProposal(date, rmDate);
    DayRange(date);
    AddDaysShifts(date, 730);
    TextOrderIsDayOrder(AddDays(date, 730), date);
    LessIsTotal(date, date);
    NotBlank("r");
    NotBlank("1");
    NotBlank("p");
    assert LinesError([]) == None;
    assert LinesError(input.lines) == None;
  }

  lemma NotBlank(s: string)
    requires |s| == 1 && !WhiteSpace(s[0])
    ensures !Blank(s)
  {
    assert s[0] in s;
  }

  // A proposal that passes validation and whose planning loop does not end.
  lemma EndlessProposal()
    ensures var input := OneDayProposal("9997-12-31", "");
            Validate(input) == None && !LoopEnds(input.startDate, AddDays(input.startDate, 730))
  {
    StartBeforeLastHorizon();
    hide DayOf, ValidDate, AddDays, LoopEnds, Validate;
    OneDayIsValid("9997-12-31", "");
    ValidatedPeriod(OneDayProposal("9997-12-31", ""));
  }

  // ---- one attempt ----

  datatype Commitments = Commitments(plans: seq<PlanRow>, reservations: seq<Reservation>)

  datatype Outcome = Outcome(
    reason: string, completion: string, rmRequiredBy: string, plans: seq<PlanRow>, target: Commitments)

  // What is fixed for one calculation.
  datatype Setting = Setting(
    planner: Planner, input: ProposalInput, context: PlanningContext,
    horizon: string, dates: seq<string>, daily: real)

  function Iso(planner: Planner, raw: string): string {
    if ValidDate(raw) then raw else planner.legacyDate(raw)
  }

  function Own(rows: seq<PlanRow>, setup: string): seq<PlanRow> {
    Filter((row: PlanRow) => row.setup == setup, rows)
  }

  function Ends(planner: Planner, rows: seq<PlanRow>): (r: seq<string>)
    ensures |r| == |rows| && forall i :: 0 <= i < |rows| ==> r[i] == Iso(planner, rows[i].end)
  {
    seq(|rows|, i requires 0 <= i < |rows| => Iso(planner, rows[i].end))
  }

  function Starts(planner: Planner, rows: seq<PlanRow>): (r: seq<string>)
    ensures |r| == |rows| && forall i :: 0 <= i < |rows| ==> r[i] == Iso(planner, rows[i].start)
  {
    seq(|rows|, i requires 0 <= i < |rows| => Iso(planner, rows[i].start))
  }

  function Limit(s: Setting, proposed: bool): string {
    if proposed && s.input.mode == ByDeadline then s.input.deadline else s.horizon
  }

  function BlockedText(own: seq<PlanRow>): string {
    if own == [] then "production planner cannot assign a feasible machine/tooling plan"
    else if own[0].toolingBlocked then own[0].toolingStatus
    else BlockedText(own[1..])
  }

  // Why one operation cannot be promised; empty when it can.
  function OperationReason(s: Setting, op: Operation, planned: seq<PlanRow>, proposed: bool): string {
    var own := Own(planned, op.setup);
    var ends := Ends(s.planner, own);
    var end := Last(ends);
    if own == [] || end == "" || "" in ends then
      "Setup " + op.setup + " (" + op.family + "): " + BlockedText(own)
    else if Less(Limit(s, proposed), end) then
      "Setup " + op.setup + " (" + op.family + "): finishes " + end + ", after "
      + (if proposed && s.input.mode == ByDeadline then "deadline " + s.input.deadline else "planning horizon") + "."
    else ""
  }

  function OperationReasons(s: Setting, ops: seq<Operation>, planned: seq<PlanRow>, proposed: bool): (r: seq<string>)
    ensures forall x :: x in r ==> x != ""
  {
    if ops == [] then []
    else
      var rest := OperationReasons(s, ops[1..], planned, proposed);
      var first := OperationReason(s, ops[0], planned, proposed);
      if first == "" then rest else [first] + rest
  }

  lemma {:induction false} ReasonsAreAll(s: Setting, ops: seq<Operation>, planned: seq<PlanRow>, proposed: bool)
    ensures (exists op :: op in ops && OperationReason(s, op, planned, proposed) != "")
            <==> OperationReasons(s, ops, planned, proposed) != []
  {
    hide OperationReason;
    if ops != [] {
      ReasonsAreAll(s, ops[1..], planned, proposed);
      assert ops == [ops[0]] + ops[1..];
    }
  }

  function NewReservations(planner: Planner, rows: seq<PlanRow>): seq<Reservation> {
    if rows == [] then []
    else
      var start, end := Iso(planner, rows[0].start), Iso(planner, rows[0].end);
      (if rows[0].machine != "" && start != "" && end != "" then [Reservation(rows[0].machine, start, end)] else [])
      + NewReservations(planner, rows[1..])
  }

  function Ready(input: ProposalInput, rm: string): string {
    if Less(input.startDate, rm) then rm else input.startDate
  }

  // Ask the planner for one line on top of what is already committed.
  function Attempt(s: Setting, line: PlanningLine, target: Commitments, rm: string, proposed: bool): Outcome {
    var planned := s.planner.simulate(
      Request(line, Ready(s.input, rm), target.reservations, target.plans, Limit(s, proposed)));
    var first := if line.operations == [] then [] else Own(planned, line.operations[0].setup);
    Outcome(
      Join(OperationReasons(s, line.operations, planned, proposed), " "),
      Last(Ends(s.planner, planned)),
      First(Filter((date: string) => date != "", Starts(s.planner, first))),
      planned,
      Commitments(target.plans + planned, target.reservations + NewReservations(s.planner, planned)))
  }

  // The planner is asked for the line not before the start nor before its raw material, on top of everything
  // committed, up to the deadline for a proposed line of a deadline proposal and up to the horizon otherwise.
  lemma AttemptAsks(s: Setting, line: PlanningLine, target: Commitments, rm: string, proposed: bool)
    ensures exists request: Request ::
              && Attempt(s, line, target, rm, proposed).plans == s.planner.simulate(request)
              && request.line == line && request.reservations == target.reservations && request.plans == target.plans
              && AtMost(s.input.startDate, request.ready) && AtMost(rm, request.ready)
              && (request.ready == rm || request.ready == s.input.startDate)
              && (proposed && s.input.mode == ByDeadline ==> request.deadline == s.input.deadline)
              && (!proposed || s.input.mode == ByDates ==> request.deadline == s.horizon)
  {
    hide OperationReasons, NewReservations, Less;
    var request := Request(line, Ready(s.input, rm), target.reservations, target.plans, Limit(s, proposed));
    LessIsTotal(s.input.startDate, rm);
    LessIsTotal(rm, rm);
    LessIsTotal(s.input.startDate, s.input.startDate);
    assert Attempt(s, line, target, rm, proposed).plans == s.planner.simulate(request);
  }

  // A row of the line's first setup.
  predicate Opens(line: PlanningLine, row: PlanRow) {
    line.operations != [] && row.setup == line.operations[0].setup
  }

  // It completes with the last row, needs its raw material for the first row of the first setup that has a start, and
  // commits its rows and the machines they name for the days they take.
  lemma AttemptCommits(s: Setting, line: PlanningLine, target: Commitments, rm: string, proposed: bool)
    ensures var o := Attempt(s, line, target, rm, proposed);
            && (o.plans == [] ==> o.completion == "")
            && (o.plans != [] ==> exists row <- o.plans :: o.completion == Iso(s.planner, row.end))
            && (forall row <- o.plans :: AtMost(Iso(s.planner, row.end), o.completion))
            && o.target.plans == target.plans + o.plans
            && target.reservations <= o.target.reservations
            && (forall r: Reservation :: r in o.target.reservations[|target.reservations|..] <==>
                  exists row <- o.plans ::
                    && r == Reservation(row.machine, Iso(s.planner, row.start), Iso(s.planner, row.end))
                    && r.machine != "" && r.start != "" && r.end != "")
    ensures var o := Attempt(s, line, target, rm, proposed);
            && (forall row <- o.plans :: Opens(line, row) && Iso(s.planner, row.start) != "" ==>
                  o.rmRequiredBy != "" && AtMost(o.rmRequiredBy, Iso(s.planner, row.start)))
            && (o.rmRequiredBy != "" ==>
                  exists row <- o.plans :: Opens(line, row) && o.rmRequiredBy == Iso(s.planner, row.start))
  {
    hide OperationReasons, Less, Iso;
    var planned := Attempt(s, line, target, rm, proposed).plans;
    var ends := Ends(s.planner, planned);
    forall row <- planned ensures Iso(s.planner, row.end) in ends { RowAt(s.planner, planned, row); }
    if planned != [] {
      var i :| 0 <= i < |ends| && ends[i] == Last(ends);
      assert planned[i] in planned;
    }
    ReservedRows(s.planner, planned);
    var added := NewReservations(s.planner, planned);
    assert (target.reservations + added)[|target.reservations|..] == added;
    EarliestStart(s.planner, line, planned, Attempt(s, line, target, rm, proposed).rmRequiredBy);
  }

  lemma RowAt(planner: Planner, rows: seq<PlanRow>, row: PlanRow)
    requires row in rows
    ensures Iso(planner, row.end) in Ends(planner, rows) && Iso(planner, row.start) in Starts(planner, rows)
  {
    hide Iso;
    var i :| 0 <= i < |rows| && rows[i] == row;
    assert Ends(planner, rows)[i] == Iso(planner, row.end) && Starts(planner, rows)[i] == Iso(planner, row.start);
  }

  lemma {:induction false} ReservedRows(planner: Planner, rows: seq<PlanRow>)
    ensures forall r: Reservation :: r in NewReservations(planner, rows) <==>
              exists row <- rows :: r == Reservation(row.machine, Iso(planner, row.start), Iso(planner, row.end))
                                    && r.machine != "" && r.start != "" && r.end != ""
  {
    hide Iso;
    if rows != [] {
      ReservedRows(planner, rows[1..]);
      assert rows == [rows[0]] + rows[1..];
    }
  }

  lemma EarliestStart(planner: Planner, line: PlanningLine, planned: seq<PlanRow>, first: string)
    requires first == First(Filter((date: string) => date != "",
      Starts(planner, if line.operations == [] then [] else Own(planned, line.operations[0].setup))))
    ensures forall row <- planned :: Opens(line, row) && Iso(planner, row.start) != "" ==>
              first != "" && AtMost(first, Iso(planner, row.start))
    ensures first != "" ==> exists row <- planned :: Opens(line, row) && first == Iso(planner, row.start)
  {
    hide Iso, Less;
    var own := if line.operations == [] then [] else Own(planned, line.operations[0].setup);
    var starts := Starts(planner, own);
    var dates := Filter((date: string) => date != "", starts);
    forall row <- planned | Opens(line, row) && Iso(planner, row.start) != ""
      ensures first != "" && AtMost(first, Iso(planner, row.start))
    {
      assert row in own;
      RowAt(planner, own, row);
    }
    if first != "" {
      var i :| 0 <= i < |starts| && starts[i] == first;
      assert own[i] in own;
    }
  }

  // What an operation is reported for: no rows, a row without an end, or an end after the limit.
  lemma OperationReported(s: Setting, op: Operation, planned: seq<PlanRow>, proposed: bool)
    ensures OperationReason(s, op, planned, proposed) == "" <==> FinishesBy(s.planner, op, planned, Limit(s, proposed))
  {
    hide Less, Iso, Limit;
    var own := Own(planned, op.setup);
    var ends := Ends(s.planner, own);
    if OperationReason(s, op, planned, proposed) == "" {
      UnobjectedFinishes(s, op, planned, proposed);
    } else if FinishesBy(s.planner, op, planned, Limit(s, proposed)) {
      var row :| row in planned && row.setup == op.setup;
      assert row in own;
      forall i | 0 <= i < |own| ensures ends[i] != "" && AtMost(ends[i], Limit(s, proposed)) { assert own[i] in own; }
    }
  }

  // A date the planner writes as one stays; any other label is read by the other package.
  lemma LabelsRead(planner: Planner, raw: string)
    ensures ValidDate(raw) ==> Iso(planner, raw) == raw
    ensures !ValidDate(raw) ==> Iso(planner, raw) == planner.legacyDate(raw)
  {
    hide ValidDate;
  }

  // What it is reported with: the status of the first row of its setup whose tooling is blocked, if any, or the end
  // that is too late.
  lemma ReasonWords(s: Setting, op: Operation, planned: seq<PlanRow>, proposed: bool)
    requires OperationReason(s, op, planned, proposed) != ""
    ensures var own := Filter((row: PlanRow) => row.setup == op.setup, planned);
            var reason := OperationReason(s, op, planned, proposed);
            if own == [] || exists row <- own :: Iso(s.planner, row.end) == "" then
              && (forall i :: 0 <= i < |own| && own[i].toolingBlocked
                              && (forall j :: 0 <= j < i ==> !own[j].toolingBlocked) ==>
                    reason == "Setup " + op.setup + " (" + op.family + "): " + own[i].toolingStatus)
              && ((forall row <- own :: !row.toolingBlocked) ==>
                    reason == "Setup " + op.setup + " (" + op.family + "): "
                              + "production planner cannot assign a feasible machine/tooling plan")
            else exists row <- own :: reason == LateWords(s, op, Iso(s.planner, row.end), proposed)
  {
    hide Less, Iso, Limit, LateWords;
    var own := Own(planned, op.setup);
    BlockedWords(own);
    if own == [] || exists row <- own :: Iso(s.planner, row.end) == "" {
      BlockedReason(s, op, planned, proposed);
    } else {
      LateReason(s, op, planned, proposed);
    }
  }

  // The words for an operation that ends too late.
  ghost function LateWords(s: Setting, op: Operation, end: string, proposed: bool): string {
    "Setup " + op.setup + " (" + op.family + "): finishes " + end + ", after "
    + (if proposed && s.input.mode == ByDeadline then "deadline " + s.input.deadline else "planning horizon") + "."
  }

  lemma BlockedReason(s: Setting, op: Operation, planned: seq<PlanRow>, proposed: bool)
    requires var own := Own(planned, op.setup); own == [] || exists row <- own :: Iso(s.planner, row.end) == ""
    ensures OperationReason(s, op, planned, proposed)
         == "Setup " + op.setup + " (" + op.family + "): " + BlockedText(Own(planned, op.setup))
  {
    hide Less, Iso, Limit, BlockedText;
    var own := Own(planned, op.setup);
    forall row <- own ensures Iso(s.planner, row.end) in Ends(s.planner, own) { RowAt(s.planner, own, row); }
  }

  lemma LateReason(s: Setting, op: Operation, planned: seq<PlanRow>, proposed: bool)
    requires OperationReason(s, op, planned, proposed) != ""
    requires var own := Own(planned, op.setup); own != [] && forall row <- own :: Iso(s.planner, row.end) != ""
    ensures exists row <- Own(planned, op.setup) ::
              OperationReason(s, op, planned, proposed) == LateWords(s, op, Iso(s.planner, row.end), proposed)
  {
    hide Less, Iso, Limit, BlockedText, Own;
    var own := Own(planned, op.setup);
    var ends := Ends(s.planner, own);
    var i :| 0 <= i < |ends| && ends[i] == Last(ends);
    assert own[i] in own;
    assert forall k :: 0 <= k < |own| ==> own[k] in own;
  }

  lemma {:induction false} BlockedWords(own: seq<PlanRow>)
    ensures forall i :: 0 <= i < |own| && own[i].toolingBlocked && (forall j :: 0 <= j < i ==> !own[j].toolingBlocked)
              ==> BlockedText(own) == own[i].toolingStatus
    ensures (forall row <- own :: !row.toolingBlocked) ==>
              BlockedText(own) == "production planner cannot assign a feasible machine/tooling plan"
  {
    if own != [] && !own[0].toolingBlocked {
      BlockedWords(own[1..]);
      forall i | 0 <= i < |own| && own[i].toolingBlocked && forall j :: 0 <= j < i ==> !own[j].toolingBlocked
        ensures BlockedText(own) == own[i].toolingStatus
      {
        assert own[1..][i - 1] == own[i] && forall j :: 0 <= j < i - 1 ==> own[1..][j] == own[j + 1];
      }
    }
  }

  lemma AttemptFails(s: Setting, line: PlanningLine, target: Commitments, rm: string, proposed: bool, op: Operation)
    requires op in line.operations
    requires OperationReason(s, op, Attempt(s, line, target, rm, proposed).plans, proposed) != ""
    ensures Attempt(s, line, target, rm, proposed).reason != ""
  {
    var planned := Attempt(s, line, target, rm, proposed).plans;
    var reasons := OperationReasons(s, line.operations, planned, proposed);
    ReasonsAreAll(s, line.operations, planned, proposed);
    assert reasons != [] && reasons[0] in reasons;
    assert Attempt(s, line, target, rm, proposed).reason == Join(reasons, " ");
  }

  ghost predicate FinishesBy(planner: Planner, op: Operation, planned: seq<PlanRow>, limit: string) {
    && (exists row :: row in planned && row.setup == op.setup)
    && (forall row :: row in planned && row.setup == op.setup
          ==> Iso(planner, row.end) != "" && AtMost(Iso(planner, row.end), limit))
  }

  lemma UnobjectedFinishes(s: Setting, op: Operation, planned: seq<PlanRow>, proposed: bool)
    requires OperationReason(s, op, planned, proposed) == ""
    ensures FinishesBy(s.planner, op, planned, Limit(s, proposed))
  {
    hide Less, Iso, Limit;
    var own := Own(planned, op.setup);
    var ends := Ends(s.planner, own);
    assert own[0] in planned && own[0].setup == op.setup;
    forall row | row in planned && row.setup == op.setup
      ensures Iso(s.planner, row.end) != "" && AtMost(Iso(s.planner, row.end), Limit(s, proposed))
    {
      assert row in own;
      var i :| 0 <= i < |own| && own[i] == row;
      assert ends[i] in ends;
      LessIsTransitive(ends[i], Last(ends), Limit(s, proposed));
    }
  }

  // An attempt without a reason has rows for every operation and ends all of them inside the limit.
  lemma AcceptedFinishesInTime(s: Setting, line: PlanningLine, target: Commitments, rm: string, proposed: bool)
    requires Attempt(s, line, target, rm, proposed).reason == ""
    ensures forall op :: op in line.operations
              ==> FinishesBy(s.planner, op, Attempt(s, line, target, rm, proposed).plans, Limit(s, proposed))
  {
    hide Attempt, FinishesBy, Limit;
    forall op | op in line.operations
      ensures FinishesBy(s.planner, op, Attempt(s, line, target, rm, proposed).plans, Limit(s, proposed))
    {
      if OperationReason(s, op, Attempt(s, line, target, rm, proposed).plans, proposed) != "" {
        AttemptFails(s, line, target, rm, proposed, op);
      }
      UnobjectedFinishes(s, op, Attempt(s, line, target, rm, proposed).plans, proposed);
    }
  }
}

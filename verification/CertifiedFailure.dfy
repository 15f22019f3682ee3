// Failures the search certifies without asking the planner: the only machine for a line's first
// operation is reserved on every date from RM-ready to the deadline.
module CertifiedFailure {
  import opened Wrappers
  import opened Text
  import opened Calendar
  import opened Sequences
  import opened Proposal
  import opened PlainSearch

  // ---- keys ----

  function Lower(c: char): char {
    if 'A' <= c <= 'Z' then (c as int + 32) as char else c
  }

  // Machine, family and job names compare without white space and letter case.
  function Key(s: string): string {
    if s == "" then ""
    else if WhiteSpace(s[0]) then Key(s[1..])
    else [Lower(s[0])] + Key(s[1..])
  }

  function JobKey(id: string): string {
    Key("proposal:" + id)
  }

  // ---- what the search relies on the planner for ----

  ghost predicate ReservedOn(reservations: seq<Reservation>, machine: string, date: string) {
    exists row :: row in reservations && Key(row.machine) == Key(machine) && AtMost(row.start, date)
      && AtMost(date, row.end)
  }

  // A row is for a requested setup, on a machine of that setup's family, and its production starts on
  // a date that is not before RM-ready, not after its end and not reserved on its machine.
  ghost predicate HonestRow(planner: Planner, masters: seq<Machine>, request: Request, row: PlanRow) {
    && (exists op, master :: op in request.line.operations && op.setup == row.setup && master in masters
          && Key(master.family) == Key(op.family) && Key(master.id) == Key(row.machine))
    && (Iso(planner, row.end) != "" ==>
          && Iso(planner, row.start) != ""
          && AtMost(request.ready, Iso(planner, row.start))
          && AtMost(Iso(planner, row.start), Iso(planner, row.end))
          && !ReservedOn(request.reservations, row.machine, Iso(planner, row.start)))
  }

  // The planner keeps its word at least for plain lines that no reserved plan mentions.
  ghost predicate HonestPlanner(planner: Planner, masters: seq<Machine>) {
    && (forall raw :: planner.legacyDate(raw) == "" || ValidDate(planner.legacyDate(raw)))
    && (forall request: Request, row: PlanRow ::
          planner.plainFacts(request.line) && JobKey(request.line.id) !in References(request.plans)
            && row in planner.simulate(request)
          ==> HonestRow(planner, masters, request, row))
  }

  // ---- snapshot of a commitment ----

  const PROPOSAL_PREFIX := "proposal:"

  function TextReferences(texts: seq<string>): set<string> {
    if texts == [] then {}
    else (if PROPOSAL_PREFIX <= Key(texts[0]) then {Key(texts[0])} else {}) + TextReferences(texts[1..])
  }

  function RowTexts(row: PlanRow): seq<string> {
    [row.job, row.setup, row.machine, row.start, row.end, row.toolingStatus] + row.notes
  }

  // Every job a plan row mentions in any of its texts.
  function References(plans: seq<PlanRow>): set<string> {
    if plans == [] then {} else TextReferences(RowTexts(plans[0])) + References(plans[1..])
  }

  predicate InDateEra(value: string) {
    ValidDate(value) && AtMost("2000-01-01", value) && Less(value, "2050-01-01")
  }

  const MONTH_LABELS := ["Jan", "Feb", "Mar", "Apr", "May", "June", "July", "Aug", "Sept", "Oct", "Nov", "Dec"]

  // The three ways the planner itself writes a date: ISO, DD/MM/YYYY and D-Mon-YY.
  predicate NativeLabel(value: string, date: string)
    requires ValidDate(date)
  {
    var day := date[8..];
    value == date
    || value == day + "/" + date[5..7] + "/" + date[..4]
    || value == (if day[0] == '0' then day[1..] else day) + "-" + MONTH_LABELS[Fields(date).month - 1] + "-"
       + date[2..4]
  }

  function NativeDate(planner: Planner, value: string): string {
    var date := Iso(planner, value);
    if InDateEra(date) && NativeLabel(value, date) then date else ""
  }

  predicate GoodEnd(end: string) {
    ValidDate(AddDays(end, 1)) && Less(end, AddDays(end, 1))
  }

  predicate GoodPlan(planner: Planner, row: PlanRow) {
    var start, end := NativeDate(planner, row.start), NativeDate(planner, row.end);
    start != "" && end != "" && AtMost(start, end) && GoodEnd(end)
  }

  predicate GoodReservation(row: Reservation) {
    Key(row.machine) != "" && InDateEra(row.start) && InDateEra(row.end) && AtMost(row.start, row.end)
      && GoodEnd(row.end)
  }

  datatype Snapshot = Snapshot(references: set<string>, windows: map<string, seq<Reservation>>)

  function WindowsAt(windows: map<string, seq<Reservation>>, machine: string): seq<Reservation> {
    if machine in windows then windows[machine] else []
  }

  function Windows(reservations: seq<Reservation>): (r: map<string, seq<Reservation>>)
    ensures forall k, row :: row in WindowsAt(r, k) <==> row in reservations && Key(row.machine) == k
  {
    if reservations == [] then map[]
    else
      var last := reservations[|reservations| - 1];
      var before := Windows(reservations[..|reservations| - 1]);
      assert reservations == reservations[..|reservations| - 1] + [last];
      var r := before[Key(last.machine) := WindowsAt(before, Key(last.machine)) + [last]];
      assert forall k :: WindowsAt(r, k) == WindowsAt(before, k) + if k == Key(last.machine) then [last] else [];
      r
  }

  function DayAfterEnds(planner: Planner, target: Commitments): seq<string> {
    seq(|target.plans|, i requires 0 <= i < |target.plans| => AddDays(NativeDate(planner, target.plans[i].end), 1))
    + seq(|target.reservations|, i requires 0 <= i < |target.reservations| => AddDays(target.reservations[i].end, 1))
  }

  // The facts certification reads off a commitment; none when a row is malformed or the dates reach
  // too close to the end of the era in which labels round-trip.
  function TakeSnapshot(s: Setting, target: Commitments): Option<Snapshot> {
    if (exists i :: 0 <= i < |target.plans| && !GoodPlan(s.planner, target.plans[i]))
       || (exists i :: 0 <= i < |target.reservations| && !GoodReservation(target.reservations[i]))
       || !InDateEra(AddDays(Last([s.input.deadline] + DayAfterEnds(s.planner, target)),
          7000 + |s.context.calendar.holidays|))
    then None
    else Some(Snapshot(References(target.plans), Windows(target.reservations)))
  }

  // ---- covers ----

  function Relevant(windows: seq<Reservation>, ready: string, deadline: string): seq<Reservation> {
    Filter((row: Reservation) => AtMost(ready, row.end) && AtMost(row.start, deadline), windows)
  }

  predicate Continued(relevant: seq<Reservation>, end: string, deadline: string) {
    exists j ::
      0 <= j < |relevant| && AtMost(relevant[j].start, AddDays(end, 1)) && AtMost(deadline, relevant[j].end)
  }

  predicate CoveredBy(relevant: seq<Reservation>, ready: string, deadline: string) {
    exists i ::
      && 0 <= i < |relevant|
      && AtMost(relevant[i].start, ready)
      && AtMost(ready, relevant[i].end)
      && (AtMost(deadline, relevant[i].end) || Continued(relevant, relevant[i].end, deadline))
  }

  predicate Covers(snapshot: Snapshot, machines: seq<string>, ready: string, deadline: string) {
    forall i :: 0 <= i < |machines| ==>
      var relevant := Relevant(WindowsAt(snapshot.windows, machines[i]), ready, deadline);
      |relevant| <= 20 && CoveredBy(relevant, ready, deadline)
  }

  // ---- isolated lines ----

  function CompatibleKeys(masters: seq<Machine>, family: string): (r: seq<string>)
    ensures forall k :: k in r <==> exists m :: m in masters && Key(m.family) == Key(family) && Key(m.id) == k
  {
    if masters == [] then []
    else
      var rest := CompatibleKeys(masters[1..], family);
      assert masters == [masters[0]] + masters[1..];
      if Key(masters[0].family) == Key(family) then [Key(masters[0].id)] + rest else rest
  }

  predicate SharesMachine(masters: seq<Machine>, ops: seq<Operation>, machine: string) {
    exists i :: 0 <= i < |ops| && (machine in CompatibleKeys(masters, ops[i].family)
      || "" in CompatibleKeys(masters, ops[i].family))
  }

  // Text that a JavaScript number pattern /^[1-9]\d*$/ accepts.
  predicate SetupNumber(s: string) {
    s != "" && Digits(s) && s[0] != '0'
  }

  predicate SetupBefore(a: string, b: string) {
    |a| < |b| || (|a| == |b| && Less(a, b))
  }

  predicate PlainText(s: string) {
    !Blank(s) && '|' !in s
  }

  // A line whose facts are plain, whose first operation has exactly one possible machine, and whose
  // later operations cannot use that machine. The result is the machine's key.
  function IsolatedMachine(planner: Planner, masters: seq<Machine>, line: PlanningLine): Option<string> {
    if !PlainText(line.id) || !PlainText(line.part) || '|' in line.option || line.operations == [] || line.issue != ""
       || line.quantity <= 0 || (line.operations[0].quantity.Some? && line.operations[0].quantity.value <= 0) then None
    else
      var first, later := line.operations[0], line.operations[1..];
      var machines := Distinct(CompatibleKeys(masters, first.family));
      if (exists i :: 0 <= i < |line.operations| && !SetupNumber(line.operations[i].setup))
         || (exists i, j :: 0 <= i < j < |line.operations| && line.operations[i].setup == line.operations[j].setup)
         || Blank(first.family)
         || (exists i :: 0 <= i < |line.operations| && SetupBefore(line.operations[i].setup, first.setup))
         || !planner.plainFacts(line)
         || |machines| != 1 || machines[0] == "" || SharesMachine(masters, later, machines[0]) then None
      else Some(machines[0])
  }

  predicate CertificationOn(s: Setting, blockers: seq<string>) {
    s.input.mode == ByDeadline && blockers == [] && InDateEra(s.input.startDate) && InDateEra(s.input.deadline)
  }

  // Whether an attempt for an isolated line must fail.
  predicate Certified(s: Setting, line: PlanningLine, machine: string, target: Commitments, rm: string) {
    var snapshot := TakeSnapshot(s, target);
    var ready := Ready(s.input, rm);
    snapshot.Some? && InDateEra(ready) && AtMost(ready, s.input.deadline)
    && JobKey(line.id) !in snapshot.value.references
    && Covers(snapshot.value, [machine], ready, s.input.deadline)
  }

  // ---- soundness ----

  // One window, or two of which the second starts no later than the day after the first ends, leave
  // no date from ready to the deadline free.
  lemma CoveredDates(relevant: seq<Reservation>, ready: string, deadline: string, date: string)
    requires CoveredBy(relevant, ready, deadline)
    requires forall i :: 0 <= i < |relevant| ==> GoodReservation(relevant[i])
    requires ValidDate(date) && AtMost(ready, date) && AtMost(date, deadline)
    ensures exists row :: row in relevant && AtMost(row.start, date) && AtMost(date, row.end)
  {
    hide AddDays, ValidDate, Less, DayOf;
    var i :|
      && 0 <= i < |relevant|
      && AtMost(relevant[i].start, ready)
      && AtMost(ready, relevant[i].end)
      && (AtMost(deadline, relevant[i].end) || Continued(relevant, relevant[i].end, deadline));
    var a := relevant[i];
    assert GoodReservation(a) && a in relevant;
    LessIsTransitive(a.start, ready, date);
    if AtMost(deadline, a.end) {
      LessIsTransitive(date, deadline, a.end);
    } else if Less(a.end, date) {
      var j :| 0 <= j < |relevant| && AtMost(relevant[j].start, AddDays(a.end, 1)) && AtMost(deadline, relevant[j].end);
      assert relevant[j] in relevant;
      NextDayIsNext(a.end, date);
      LessIsTransitive(relevant[j].start, AddDays(a.end, 1), date);
      LessIsTransitive(date, deadline, relevant[j].end);
    }
  }

  lemma NextDayIsNext(end: string, date: string)
    requires ValidDate(end) && GoodEnd(end) && ValidDate(date) && Less(end, date)
    ensures AtMost(AddDays(end, 1), date)
  {
    hide AddDays, ValidDate, Less, DayOf;
    TextOrderIsDayOrder(end, date);
    DayRange(date);
    DayRange(end);
    AddDaysShifts(end, 1);
    TextOrderIsDayOrder(date, AddDays(end, 1));
  }

  // Certified: every date from RM-ready to the deadline is reserved on the machine.
  lemma CertifiedMeansReserved(s: Setting, line: PlanningLine, name: string, target: Commitments, rm: string,
      date: string)
    requires Certified(s, line, Key(name), target, rm)
    requires ValidDate(date) && AtMost(Ready(s.input, rm), date) && AtMost(date, s.input.deadline)
    ensures ReservedOn(target.reservations, name, date)
  {
    hide AddDays, ValidDate, Less, Key, InDateEra, GoodPlan, CoveredBy, GoodReservation, References;
    var machine := Key(name);
    var snapshot := TakeSnapshot(s, target).value;
    var ready := Ready(s.input, rm);
    var windows := WindowsAt(snapshot.windows, machine);
    var relevant := Relevant(windows, ready, s.input.deadline);
    assert [machine][0] == machine;
    assert CoveredBy(relevant, ready, s.input.deadline);
    forall i | 0 <= i < |relevant| ensures GoodReservation(relevant[i]) && relevant[i] in target.reservations {
      assert relevant[i] in windows;
    }
    CoveredDates(relevant, ready, s.input.deadline, date);
    var row :| row in relevant && AtMost(row.start, date) && AtMost(date, row.end);
    assert row in windows;
  }

  lemma IsolatedFacts(planner: Planner, masters: seq<Machine>, line: PlanningLine)
    requires IsolatedMachine(planner, masters, line).Some?
    ensures line.operations != [] && planner.plainFacts(line)
    ensures forall op :: op in line.operations && op.setup == line.operations[0].setup ==> op == line.operations[0]
    ensures forall m :: m in masters && Key(m.family) == Key(line.operations[0].family)
              ==> Key(m.id) == IsolatedMachine(planner, masters, line).value
  {
    hide Key, SharesMachine, SetupNumber, SetupBefore, PlainText;
    var keys := CompatibleKeys(masters, line.operations[0].family);
    forall m | m in masters && Key(m.family) == Key(line.operations[0].family)
      ensures Key(m.id) == IsolatedMachine(planner, masters, line).value
    {
      assert Key(m.id) in keys;
      assert Key(m.id) in Distinct(keys);
    }
  }

  // A row of the first operation that has an end date ends after the deadline.
  lemma FirstRowsEndLate(s: Setting, line: PlanningLine, target: Commitments, rm: string, row: PlanRow)
    requires HonestPlanner(s.planner, s.context.masters)
    requires var machine := IsolatedMachine(s.planner, s.context.masters, line);
             machine.Some? && Certified(s, line, machine.value, target, rm)
    requires row in Attempt(s, line, target, rm, true).plans && row.setup == line.operations[0].setup
    requires s.input.mode == ByDeadline
    ensures Iso(s.planner, row.end) != "" ==> Less(s.input.deadline, Iso(s.planner, row.end))
  {
    hide AddDays, ValidDate, Less, Key, InDateEra, IsolatedMachine, Covers, References, JobKey, Own, OperationReasons;
    var machine := IsolatedMachine(s.planner, s.context.masters, line).value;
    var request := Request(line, Ready(s.input, rm), target.reservations, target.plans, Limit(s, true));
    assert row in s.planner.simulate(request);
    IsolatedFacts(s.planner, s.context.masters, line);
    assert HonestRow(s.planner, s.context.masters, request, row);
    var start, end := Iso(s.planner, row.start), Iso(s.planner, row.end);
    if end != "" {
      assert Key(row.machine) == machine;
      if AtMost(start, s.input.deadline) {
        IsoIsDate(s.planner, s.context.masters, row.start);
        CertifiedMeansReserved(s, line, row.machine, target, rm, start);
      }
      LessIsTotal(start, s.input.deadline);
      LessIsTotal(s.input.deadline, end);
      LessIsTransitive(s.input.deadline, start, end);
    }
  }

  lemma IsoIsDate(planner: Planner, masters: seq<Machine>, raw: string)
    requires HonestPlanner(planner, masters)
    ensures Iso(planner, raw) == "" || ValidDate(Iso(planner, raw))
  {
    hide ValidDate, HonestRow;
  }

  // A certified failure is a failure: asking the planner would have given a reason.
  lemma CertifiedIsSound(s: Setting, line: PlanningLine, target: Commitments, rm: string)
    requires HonestPlanner(s.planner, s.context.masters)
    requires var machine := IsolatedMachine(s.planner, s.context.masters, line);
             machine.Some? && Certified(s, line, machine.value, target, rm)
    requires s.input.mode == ByDeadline
    ensures Attempt(s, line, target, rm, true).reason != ""
  {
    hide AddDays, ValidDate, Less, Key, IsolatedMachine, Certified, HonestPlanner, Attempt, Iso;
    IsolatedFacts(s.planner, s.context.masters, line);
    var first := line.operations[0];
    var planned := Attempt(s, line, target, rm, true).plans;
    var own := Own(planned, first.setup);
    var ends := Ends(s.planner, own);
    assert first in line.operations;
    if own != [] && Last(ends) != "" && "" !in ends {
      var i :| 0 <= i < |ends| && ends[i] == Last(ends);
      assert own[i] in planned;
      FirstRowsEndLate(s, line, target, rm, own[i]);
    }
    assert OperationReason(s, first, planned, true) != "";
    AttemptFails(s, line, target, rm, true, first);
  }
}

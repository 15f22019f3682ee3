// The workbook that carries RM dates out of a proposal and back into it.
module RmWorkbook {
  import opened Wrappers
  import opened Text
  import opened Calendar
  import opened ResumableStore
  import opened Proposal

  // A data row of the sheet. The quantity is the number its text stands for, if it stands for one.
  datatype Row = Row(proposal: string, source: string, id: string, product: string, quantity: Option<int>, date: string)

  datatype RmError = BadDate | OtherProposal | DuplicateRow | NoMatch | MissingLines

  const EXISTING := "Existing"
  const PROPOSED := "Proposed"

  // ---- dates ----

  predicate DayFirst(t: string) {
    |t| == 10 && Digits(t[..2]) && t[2] == '-' && Digits(t[3..5]) && t[5] == '-' && Digits(t[6..])
  }

  function DayFirstFields(t: string): Civil
    requires DayFirst(t)
  {
    Civil(FourValue(t[6..]), TwoValue(t[3..5]), TwoValue(t[..2]))
  }

  // `csvDateValue`
  function CsvDate(text: string): Result<string, RmError> {
    var t := Trim(text);
    if t == "" then Ok("")
    else if DayFirst(t) && 1 <= DayFirstFields(t).year && Real(DayFirstFields(t)) then Ok(IsoText(DayFirstFields(t)))
    else Err(BadDate)
  }

  // `formatCsvDate`; how a text that is no calendar date is shown belongs to another package.
  function FormatCsvDate(display: string -> string, value: string): string {
    if value == "" then ""
    else if !ValidDate(value) then display(value)
    else
      var c := Fields(value);
      if c.year < 1 then value else Two(c.day) + "-" + Two(c.month) + "-" + Four(c.year)
  }

  predicate YearZero(value: string) {
    ValidDate(value) && Fields(value).year == 0
  }

  lemma DigitsAreKept(s: string)
    requires |s| > 0 && IsDigit(s[0]) && IsDigit(s[|s| - 1])
    ensures Trim(s) == s
  {
  }

  // A date comes back exactly when it is not in the year 0000, which the sheet's format does not have.
  lemma DateRoundTrip(display: string -> string, value: string)
    requires value == "" || ValidDate(value)
    ensures CsvDate(FormatCsvDate(display, value)) == if YearZero(value) then Err(BadDate) else Ok(value)
  {
    if value != "" {
      var c := Fields(value);
      var t := FormatCsvDate(display, value);
      if c.year < 1 {
        assert Digits(value[..4]) && value[2] == value[..4][2];
        assert value[0] == value[..4][0] && value[9] == value[8..][1];
        DigitsAreKept(value);
      } else {
        TwoDigits(c.day);
        TwoDigits(c.month);
        FourDigits(c.year);
        assert t[..2] == Two(c.day) && t[3..5] == Two(c.month) && t[6..] == Four(c.year);
        assert t[0] == t[..2][0] && t[9] == t[6..][3];
        DigitsAreKept(t);
        TextOfFields(value);
      }
    }
  }

  // ---- export ----

  predicate IsPending(line: PlanningLine) {
    line.rmDate == ""
  }

  function Pending(existing: seq<PlanningLine>): (r: seq<PlanningLine>)
    ensures forall line :: line in r <==> line in existing && IsPending(line)
  {
    if existing == [] then [] else (if IsPending(existing[0]) then [existing[0]] else []) + Pending(existing[1..])
  }

  function KnownDate(input: ProposalInput, id: string): string {
    if id in input.existingRmDates then input.existingRmDates[id] else ""
  }

  function ExistingRow(display: string -> string, input: ProposalInput, line: PlanningLine): Row {
    Row(input.reference, EXISTING, line.id, line.part, Some(line.quantity),
      FormatCsvDate(display, KnownDate(input, line.id)))
  }

  function ProposedRow(display: string -> string, input: ProposalInput, line: ProposedLine): Row {
    Row(input.reference, PROPOSED, line.id, line.part, Some(line.quantity), FormatCsvDate(display, line.rmDate))
  }

  // `exportRmDates`
  function Export(display: string -> string, input: ProposalInput, context: PlanningContext): (rows: seq<Row>)
    ensures |rows| == |Pending(context.existing)| + |input.lines|
  {
    var pending := Pending(context.existing);
    seq(|pending| + |input.lines|, k requires 0 <= k < |pending| + |input.lines| =>
      if k < |pending| then ExistingRow(display, input, pending[k])
        else ProposedRow(display, input, input.lines[k - |pending|]))
  }

  // ---- import ----

  function Key(row: Row): string {
    row.source + ":" + row.id
  }

  // The first line with an id, if any.
  function FindLine(lines: seq<ProposedLine>, id: string): (r: Option<nat>)
    ensures r.Some? ==>
              && r.value < |lines| && lines[r.value].id == id
              && forall i :: 0 <= i < r.value ==> lines[i].id != id
    ensures r.None? ==> forall i :: 0 <= i < |lines| ==> lines[i].id != id
  {
    if lines == [] then None
    else if lines[0].id == id then Some(0)
    else match FindLine(lines[1..], id) case Some(i) => Some(i + 1) case None => None
  }

  function FindPending(pending: seq<PlanningLine>, id: string): (r: Option<PlanningLine>)
    ensures r.Some? ==> r.value in pending && r.value.id == id
    ensures r.None? ==> forall line <- pending :: line.id != id
  {
    if pending == [] then None else if pending[0].id == id then Some(pending[0]) else FindPending(pending[1..], id)
  }

  // Whether the row is about a line that is still as it was exported.
  predicate Matches(row: Row, lines: seq<ProposedLine>, pending: seq<PlanningLine>) {
    if row.source == EXISTING then
      var line := FindPending(pending, row.id);
      line.Some? && line.value.part == row.product && Some(line.value.quantity) == row.quantity
    else if row.source == PROPOSED then
      var i := FindLine(lines, row.id);
      i.Some? && lines[i.value].part == row.product && Some(lines[i.value].quantity) == row.quantity
    else false
  }

  // The row is about a line of the proposal, or about existing work without an RM date, with the same product and
  // quantity; of several with this id the first is meant.
  ghost predicate Stands(row: Row, input: ProposalInput, context: PlanningContext) {
    && row.source in {"Existing", "Proposed"}
    && (row.source == "Proposed" ==>
          exists i: nat ::
            && i < |input.lines| && input.lines[i].id == row.id
            && input.lines[i].part == row.product && Some(input.lines[i].quantity) == row.quantity
            && forall j :: 0 <= j < i ==> input.lines[j].id != row.id)
    && (row.source == "Existing" ==>
          exists i: nat ::
            && FirstUndated(context.existing, row.id, i)
            && context.existing[i].part == row.product && Some(context.existing[i].quantity) == row.quantity)
  }

  // The first existing work with this id of which no RM date is known.
  predicate FirstUndated(existing: seq<PlanningLine>, id: string, i: nat) {
    && i < |existing| && existing[i].id == id && existing[i].rmDate == ""
    && forall j :: 0 <= j < i ==> existing[j].id != id || existing[j].rmDate != ""
  }

  lemma UndatedAtOnce(existing: seq<PlanningLine>, id: string)
    requires existing != [] && existing[0].id == id && existing[0].rmDate == ""
    ensures FirstUndated(existing, id, 0)
  {
  }

  lemma UndatedLater(existing: seq<PlanningLine>, id: string, j: nat)
    requires existing != [] && (existing[0].id != id || existing[0].rmDate != "")
    ensures FirstUndated(existing, id, j) <==> j > 0 && FirstUndated(existing[1..], id, j - 1)
  {
    var rest := existing[1..];
    assert forall m :: 1 <= m < |existing| ==> existing[m] == rest[m - 1];
    if j > 0 && FirstUndated(existing, id, j) {
      forall m | 0 <= m < j - 1 ensures rest[m].id != id || rest[m].rmDate != "" {
        assert rest[m] == existing[m + 1];
      }
    }
  }

  lemma {:induction false} FoundPending(existing: seq<PlanningLine>, id: string) returns (i: nat)
    ensures match FindPending(Pending(existing), id)
            case None => forall j: nat :: !FirstUndated(existing, id, j)
            case Some(line) => FirstUndated(existing, id, i) && existing[i] == line
  {
    i := 0;
    hide Pending, FindPending;
    if existing == [] {
      NothingPending(id);
    } else {
      PendingSplits(existing, id);
      if existing[0].id == id && existing[0].rmDate == "" {
        UndatedAtOnce(existing, id);
      } else {
        var k := FoundPending(existing[1..], id);
        forall j: nat ensures FirstUndated(existing, id, j) <==> j > 0 && FirstUndated(existing[1..], id, j - 1) {
          UndatedLater(existing, id, j);
        }
        i := k + 1;
      }
    }
  }

  lemma NothingPending(id: string)
    ensures FindPending(Pending([]), id) == None
  {
  }

  lemma PendingSplits(existing: seq<PlanningLine>, id: string)
    requires existing != []
    ensures FindPending(Pending(existing), id)
         == if existing[0].rmDate == "" && existing[0].id == id then Some(existing[0])
            else FindPending(Pending(existing[1..]), id)
  {
    hide FindPending;
    var rest := Pending(existing[1..]);
    if existing[0].rmDate == "" {
      assert Pending(existing) == [existing[0]] + rest;
      FindsNext(existing[0], rest, id);
    } else {
      assert Pending(existing) == [] + rest == rest;
    }
  }

  lemma FindsNext(first: PlanningLine, rest: seq<PlanningLine>, id: string)
    ensures FindPending([first] + rest, id) == if first.id == id then Some(first) else FindPending(rest, id)
  {
    assert ([first] + rest)[1..] == rest;
  }

  lemma MatchesExactly(row: Row, input: ProposalInput, context: PlanningContext)
    ensures Matches(row, input.lines, Pending(context.existing)) <==> Stands(row, input, context)
  {
    if row.source == EXISTING {
      var i := FoundPending(context.existing, row.id);
      hide FindPending, Pending;
      forall k: nat, j: nat | FirstUndated(context.existing, row.id, k) && FirstUndated(context.existing, row.id, j)
        ensures k == j
      {
      }
    } else if row.source == PROPOSED {
      assert row.source != EXISTING;
    }
  }

  // The date a row stands for; a row whose date is no date is turned away before this matters.
  function RowDate(row: Row): string {
    match CsvDate(row.date) case Ok(date) => date case Err(_) => ""
  }

  ghost predicate AllDated(rows: seq<Row>) {
    forall row <- rows :: CsvDate(row.date).Ok?
  }

  ghost predicate Ours(rows: seq<Row>, input: ProposalInput) {
    forall row <- rows :: row.proposal == input.reference
  }

  ghost predicate DistinctKeys(rows: seq<Row>) {
    forall j, k :: 0 <= j < k < |rows| ==> Key(rows[j]) != Key(rows[k])
  }

  ghost predicate AllMatch(rows: seq<Row>, input: ProposalInput, context: PlanningContext) {
    forall row <- rows :: Matches(row, input.lines, Pending(context.existing))
  }

  function Keys(rows: seq<Row>): set<string> {
    set row <- rows :: Key(row)
  }

  predicate Targets(row: Row, input: ProposalInput, i: nat) {
    row.source == PROPOSED && FindLine(input.lines, row.id) == Some(i)
  }

  predicate TargetsExisting(row: Row, id: string) {
    row.source == EXISTING && row.id == id
  }

  predicate HasRow(rows: seq<Row>, input: ProposalInput, i: nat) {
    exists row <- rows :: Targets(row, input, i)
  }

  predicate HasExistingRow(rows: seq<Row>, id: string) {
    exists row <- rows :: TargetsExisting(row, id)
  }

  ghost predicate WrittenLines(rows: seq<Row>, input: ProposalInput, lines: seq<ProposedLine>) {
    && |lines| == |input.lines|
    && (forall k, i: nat {:trigger Targets(rows[k], input, i)} :: 0 <= k < |rows| && Targets(rows[k], input, i) ==>
          i < |lines| && lines[i] == input.lines[i].(rmDate := RowDate(rows[k])))
    && (forall i: nat :: i < |lines| && !HasRow(rows, input, i) ==> lines[i] == input.lines[i])
    && (forall i :: 0 <= i < |lines| ==> lines[i] == input.lines[i].(rmDate := lines[i].rmDate))
  }

  ghost predicate WrittenExisting(rows: seq<Row>, input: ProposalInput, existing: map<string, string>) {
    && (forall k, id {:trigger TargetsExisting(rows[k], id)} :: 0 <= k < |rows| && TargetsExisting(rows[k], id) ==>
          id in existing && existing[id] == RowDate(rows[k]))
    && (forall id :: !HasExistingRow(rows, id) ==>
          (id in existing <==> id in input.existingRmDates)
            && (id in existing ==> existing[id] == input.existingRmDates[id]))
  }

  // Every row's date is where the row points, and everything no row points at is as it was.
  ghost predicate Written(rows: seq<Row>, input: ProposalInput, lines: seq<ProposedLine>,
      existing: map<string, string>) {
    WrittenLines(rows, input, lines) && WrittenExisting(rows, input, existing)
  }

  lemma {:induction false} SameFind(before: seq<ProposedLine>, after: seq<ProposedLine>, id: string)
    requires |before| == |after| && forall i :: 0 <= i < |after| ==> after[i] == before[i].(rmDate := after[i].rmDate)
    ensures FindLine(before, id) == FindLine(after, id)
  {
    if before != [] && before[0].id != id {
      SameFind(before[1..], after[1..], id);
    }
  }

  predicate Unpointed(rows: seq<Row>, row: Row) {
    forall k :: 0 <= k < |rows| ==> rows[k].source != row.source || rows[k].id != row.id
  }

  lemma LineRowWrites(rows: seq<Row>, row: Row, input: ProposalInput, lines: seq<ProposedLine>)
    requires WrittenLines(rows, input, lines) && Unpointed(rows, row)
    ensures row.source == EXISTING ==> WrittenLines(rows + [row], input, lines)
    ensures row.source == PROPOSED && FindLine(input.lines, row.id).Some? ==>
              var i := FindLine(input.lines, row.id).value;
              WrittenLines(rows + [row], input, lines[i := lines[i].(rmDate := RowDate(row))])
  {
    assert EXISTING != PROPOSED;
    hide RowDate, EXISTING, PROPOSED, HasRow, WrittenLines;
    var found := FindLine(input.lines, row.id);
    SameLines(rows, input, lines);
    if row.source == EXISTING {
      assert forall i: nat :: !Targets(row, input, i);
      NoLineRow(rows, row, input, lines);
    } else if row.source == PROPOSED && found.Some? {
      assert forall i: nat :: Targets(row, input, i) <==> i == found.value;
      forall k | 0 <= k < |rows| ensures !Targets(rows[k], input, found.value) {}
      OneLineRow(rows, row, input, lines, found.value);
    }
  }

  lemma NoLineRow(rows: seq<Row>, row: Row, input: ProposalInput, lines: seq<ProposedLine>)
    requires WrittenLines(rows, input, lines) && forall i: nat :: !Targets(row, input, i)
    ensures WrittenLines(rows + [row], input, lines)
  {
    hide RowDate, Targets, HasRow;
    var all := rows + [row];
    forall k, i: nat | 0 <= k < |all| && Targets(all[k], input, i)
      ensures i < |lines| && lines[i] == input.lines[i].(rmDate := RowDate(all[k]))
    {
      assert k < |rows| && all[k] == rows[k];
    }
    forall i: nat | i < |lines| && !HasRow(all, input, i) ensures lines[i] == input.lines[i] {
      PointedLine(rows, row, input, i);
    }
  }

  lemma OneLineRow(rows: seq<Row>, row: Row, input: ProposalInput, lines: seq<ProposedLine>, n: nat)
    requires WrittenLines(rows, input, lines) && n < |lines|
    requires forall i: nat :: Targets(row, input, i) <==> i == n
    requires forall k :: 0 <= k < |rows| ==> !Targets(rows[k], input, n)
    ensures WrittenLines(rows + [row], input, lines[n := lines[n].(rmDate := RowDate(row))])
  {
    hide RowDate, Targets, HasRow;
    var all, after := rows + [row], lines[n := lines[n].(rmDate := RowDate(row))];
    forall k, i: nat | 0 <= k < |all| && Targets(all[k], input, i)
      ensures i < |after| && after[i] == input.lines[i].(rmDate := RowDate(all[k]))
    {
      if k < |rows| { assert all[k] == rows[k] && i != n; }
    }
    forall i: nat | i < |after| && !HasRow(all, input, i) ensures after[i] == input.lines[i] {
      PointedLine(rows, row, input, i);
    }
  }

  lemma PointedLine(rows: seq<Row>, row: Row, input: ProposalInput, i: nat)
    ensures HasRow(rows + [row], input, i) <==> HasRow(rows, input, i) || Targets(row, input, i)
  {
    hide Targets;
    assert forall other :: other in rows + [row] <==> other in rows || other == row;
  }

  lemma ExistingRowWrites(rows: seq<Row>, row: Row, input: ProposalInput, existing: map<string, string>)
    requires WrittenExisting(rows, input, existing) && Unpointed(rows, row)
    ensures row.source == EXISTING ==> WrittenExisting(rows + [row], input, existing[row.id := RowDate(row)])
    ensures row.source != EXISTING ==> WrittenExisting(rows + [row], input, existing)
  {
    hide RowDate, EXISTING, PROPOSED, HasExistingRow;
    var all := rows + [row];
    var after := if row.source == EXISTING then existing[row.id := RowDate(row)] else existing;
    assert all[|rows|] == row;
    forall k, id | 0 <= k < |all| && TargetsExisting(all[k], id) ensures id in after && after[id] == RowDate(all[k]) {
      if k < |rows| { assert TargetsExisting(rows[k], id); }
    }
    forall id | !HasExistingRow(all, id)
      ensures (id in after <==> id in input.existingRmDates) && (id in after ==> after[id] == input.existingRmDates[id])
    {
      Pointed(rows, row, id);
    }
  }

  lemma Pointed(rows: seq<Row>, row: Row, id: string)
    ensures HasExistingRow(rows + [row], id) <==> HasExistingRow(rows, id) || TargetsExisting(row, id)
  {
    hide TargetsExisting;
    assert forall other :: other in rows + [row] <==> other in rows || other == row;
  }

  lemma NewKeyIsUnpointed(rows: seq<Row>, row: Row)
    requires Key(row) !in Keys(rows)
    ensures Unpointed(rows, row)
  {
    hide Key;
    forall k | 0 <= k < |rows| ensures rows[k].source != row.source || rows[k].id != row.id {
      assert rows[k] in rows && Key(rows[k]) in Keys(rows);
      SameKey(rows[k], row);
    }
  }

  lemma SameKey(a: Row, b: Row)
    ensures a.source == b.source && a.id == b.id ==> Key(a) == Key(b)
  {
  }

  lemma SameMatch(row: Row, before: seq<ProposedLine>, after: seq<ProposedLine>, pending: seq<PlanningLine>)
    requires |before| == |after| && forall i :: 0 <= i < |after| ==> after[i] == before[i].(rmDate := after[i].rmDate)
    ensures Matches(row, before, pending) == Matches(row, after, pending)
  {
    SameFind(before, after, row.id);
  }

  lemma MatchingSource(row: Row, lines: seq<ProposedLine>, pending: seq<PlanningLine>)
    requires Matches(row, lines, pending)
    ensures row.source == EXISTING || (row.source == PROPOSED && FindLine(lines, row.id).Some?)
  {
  }

  // Where the loop stands after some rows.
  ghost predicate Imported(rows: seq<Row>, input: ProposalInput, context: PlanningContext, seen: set<string>,
                           lines: seq<ProposedLine>, existing: map<string, string>)
  {
    && seen == Keys(rows) && |seen| == |rows|
    && AllDated(rows) && Ours(rows, input) && DistinctKeys(rows) && AllMatch(rows, input, context)
    && Written(rows, input, lines, existing)
  }

  // The row can be taken.
  predicate Good(row: Row, input: ProposalInput, context: PlanningContext, seen: set<string>,
      lines: seq<ProposedLine>) {
    && CsvDate(row.date).Ok? && row.proposal == input.reference && Key(row) !in seen
    && Matches(row, lines, Pending(context.existing))
  }

  lemma NextRow(rows: seq<Row>, row: Row, input: ProposalInput, context: PlanningContext, seen: set<string>,
                lines: seq<ProposedLine>, existing: map<string, string>)
    requires Imported(rows, input, context, seen, lines, existing) && Good(row, input, context, seen, lines)
    ensures row.source == EXISTING ==>
              Imported(rows + [row], input, context, seen + {Key(row)}, lines, existing[row.id := RowDate(row)])
    ensures row.source != EXISTING ==>
              var i := FindLine(lines, row.id);
              && i.Some?
              && Imported(rows + [row], input, context, seen + {Key(row)},
                 lines[i.value := lines[i.value].(rmDate := RowDate(row))], existing)
  {
    hide CsvDate, RowDate, Matches, EXISTING, PROPOSED, Key, WrittenLines, WrittenExisting, DistinctKeys, AllDated,
      AllMatch, Ours, Unpointed, Keys;
    SameLines(rows, input, lines);
    SameMatch(row, input.lines, lines, Pending(context.existing));
    SameFind(input.lines, lines, row.id);
    MatchingSource(row, lines, Pending(context.existing));
    RowJoins(rows, row, input, context);
    NewKeyIsUnpointed(rows, row);
    LineRowWrites(rows, row, input, lines);
    ExistingRowWrites(rows, row, input, existing);
  }

  lemma SameLines(rows: seq<Row>, input: ProposalInput, lines: seq<ProposedLine>)
    requires WrittenLines(rows, input, lines)
    ensures |input.lines| == |lines|
    ensures forall i :: 0 <= i < |lines| ==> lines[i] == input.lines[i].(rmDate := lines[i].rmDate)
  {
    hide RowDate, Targets, HasRow;
  }

  lemma RowJoins(rows: seq<Row>, row: Row, input: ProposalInput, context: PlanningContext)
    requires AllDated(rows) && Ours(rows, input) && DistinctKeys(rows) && AllMatch(rows, input, context)
    requires CsvDate(row.date).Ok? && row.proposal == input.reference && Key(row) !in Keys(rows)
    requires Matches(row, input.lines, Pending(context.existing))
    ensures var all := rows + [row];
            && AllDated(all) && Ours(all, input) && DistinctKeys(all) && AllMatch(all, input, context)
            && Keys(all) == Keys(rows) + {Key(row)}
  {
    hide CsvDate, Matches, Key;
    var all := rows + [row];
    assert forall j :: 0 <= j < |rows| ==> rows[j] in rows;
    assert forall other :: other in all <==> other in rows || other == row;
  }

  lemma BadRow(rows: seq<Row>, n: nat, input: ProposalInput, context: PlanningContext, seen: set<string>,
               lines: seq<ProposedLine>, existing: map<string, string>)
    requires n < |rows| && Imported(rows[..n], input, context, seen, lines, existing)
    ensures rows[n].proposal != input.reference ==> !Ours(rows, input)
    ensures Key(rows[n]) in seen ==> !DistinctKeys(rows)
    ensures !Matches(rows[n], lines, Pending(context.existing)) ==> !AllMatch(rows, input, context)
  {
    hide CsvDate, Matches, EXISTING, PROPOSED, Key;
    SameMatch(rows[n], input.lines, lines, Pending(context.existing));
    if Key(rows[n]) in seen {
      var other :| other in rows[..n] && Key(other) == Key(rows[n]);
      var k :| 0 <= k < n && rows[k] == other;
    }
  }

  // The workbooks the import accepts.
  ghost predicate Acceptable(rows: seq<Row>, input: ProposalInput, context: PlanningContext) {
    && AllDated(rows) && Ours(rows, input) && DistinctKeys(rows) && AllMatch(rows, input, context)
    && |rows| == |input.lines| + |Pending(context.existing)|
  }

  // The first row that cannot be taken, and why.
  ghost predicate Fault(rows: seq<Row>, n: nat, input: ProposalInput, context: PlanningContext, e: RmError) {
    && n < |rows| && (forall k :: 0 <= k < n ==> rows[k].proposal == input.reference && Stands(rows[k], input, context))
    && (forall j, k :: 0 <= j < k < n ==> rows[j].source != rows[k].source || rows[j].id != rows[k].id)
    && if rows[n].proposal != input.reference then e == OtherProposal
       else if exists k :: 0 <= k < n && rows[k].source + ":" + rows[k].id == rows[n].source + ":" + rows[n].id then
         e == DuplicateRow
       else e == NoMatch && !Stands(rows[n], input, context)
  }

  lemma FaultAt(rows: seq<Row>, n: nat, input: ProposalInput, context: PlanningContext, seen: set<string>,
      lines: seq<ProposedLine>, existing: map<string, string>)
    requires n < |rows| && Imported(rows[..n], input, context, seen, lines, existing)
    ensures rows[n].proposal != input.reference ==> Fault(rows, n, input, context, OtherProposal)
    ensures rows[n].proposal == input.reference && Key(rows[n]) in seen ==>
              Fault(rows, n, input, context, DuplicateRow)
    ensures rows[n].proposal == input.reference && Key(rows[n]) !in seen ==>
              Matches(rows[n], lines, Pending(context.existing)) || Fault(rows, n, input, context, NoMatch)
  {
    hide CsvDate, Matches, Stands, Written, Pending;
    var front := rows[..n];
    TakenRows(rows, n, input, context, seen, lines, existing);
    if Key(rows[n]) in seen {
      var other :| other in front && Key(other) == Key(rows[n]);
      var k :| 0 <= k < n && rows[k] == other;
      assert rows[k].source + ":" + rows[k].id == rows[n].source + ":" + rows[n].id;
    } else {
      forall k | 0 <= k < n ensures rows[k].source + ":" + rows[k].id != rows[n].source + ":" + rows[n].id {
        assert rows[k] in front && Key(rows[k]) in seen;
      }
    }
  }

  lemma TakenRows(rows: seq<Row>, n: nat, input: ProposalInput, context: PlanningContext, seen: set<string>,
      lines: seq<ProposedLine>, existing: map<string, string>)
    requires n < |rows| && Imported(rows[..n], input, context, seen, lines, existing)
    ensures forall k :: 0 <= k < n ==> rows[k].proposal == input.reference && Stands(rows[k], input, context)
    ensures forall j, k :: 0 <= j < k < n ==> rows[j].source != rows[k].source || rows[j].id != rows[k].id
    ensures Matches(rows[n], lines, Pending(context.existing)) <==> Stands(rows[n], input, context)
  {
    hide CsvDate, Matches, Stands, Key, WrittenLines, WrittenExisting, Pending, AllDated;
    var front := rows[..n];
    SameLines(front, input, lines);
    SameMatch(rows[n], input.lines, lines, Pending(context.existing));
    MatchesExactly(rows[n], input, context);
    forall k | 0 <= k < n ensures rows[k].proposal == input.reference && Stands(rows[k], input, context) {
      assert rows[k] in front;
      MatchesExactly(rows[k], input, context);
    }
    forall j, k | 0 <= j < k < n ensures rows[j].source != rows[k].source || rows[j].id != rows[k].id {
      assert rows[j] == front[j] && rows[k] == front[k];
      SameKey(rows[j], rows[k]);
    }
  }

  // `importRmDates`. All dates are read before the first row is looked at.
  method Import(rows: seq<Row>, input: ProposalInput, context: PlanningContext)
      returns (r: Result<ProposalInput, RmError>)
    ensures r.Ok? <==> Acceptable(rows, input, context)
    ensures r.Ok? ==> r.value == input.(lines := r.value.lines, existingRmDates := r.value.existingRmDates)
                      && Written(rows, input, r.value.lines, r.value.existingRmDates)
    ensures r == Err(BadDate) <==> !AllDated(rows)
    ensures r == Err(OtherProposal) ==> !Ours(rows, input)
    ensures r == Err(DuplicateRow) ==> !DistinctKeys(rows)
    ensures r == Err(NoMatch) ==> !AllMatch(rows, input, context)
    ensures r.Ok? ==> forall row <- rows :: Stands(row, input, context)
    ensures r.Err? && r.error in {OtherProposal, DuplicateRow, NoMatch} ==>
              exists n: nat :: Fault(rows, n, input, context, r.error)
    ensures r == Err(MissingLines) ==>
              && AllDated(rows) && Ours(rows, input) && DistinctKeys(rows) && AllMatch(rows, input, context)
              && |rows| != |input.lines| + |Pending(context.existing)|
  {
    hide CsvDate, Matches, EXISTING, PROPOSED, Key, Imported, Written, Ours, DistinctKeys, AllMatch, Pending, Stands,
      Fault;
    var dates: seq<string> := [];
    for n := 0 to |rows|
      invariant |dates| == n
      invariant forall k :: 0 <= k < n ==> CsvDate(rows[k].date) == Ok(dates[k])
    {
      var date := CsvDate(rows[n].date);
      if date.Err? { return Err(BadDate); }
      dates := dates + [date.value];
    }
    assert AllDated(rows);
    hide AllDated;
    var pending := Pending(context.existing);
    var lines, existing := input.lines, input.existingRmDates;
    var seen: set<string> := {};
    StartImport(input, context);
    for n := 0 to |rows|
      invariant Imported(rows[..n], input, context, seen, lines, existing)
    {
      var row := rows[n];
      assert rows[..n + 1] == rows[..n] + [row];
      BadRow(rows, n, input, context, seen, lines, existing);
      FaultAt(rows, n, input, context, seen, lines, existing);
      if row.proposal != input.reference { return Err(OtherProposal); }
      var key := Key(row);
      if key in seen { return Err(DuplicateRow); }
      if !Matches(row, lines, pending) { return Err(NoMatch); }
      NextRow(rows[..n], row, input, context, seen, lines, existing);
      seen := seen + {key};
      assert RowDate(row) == dates[n];
      if row.source == EXISTING {
        existing := existing[row.id := dates[n]];
      } else {
        var i := FindLine(lines, row.id).value;
        lines := lines[i := lines[i].(rmDate := dates[n])];
      }
    }
    assert rows[..|rows|] == rows;
    EndImport(rows, input, context, seen, lines, existing);
    AllStand(rows, input, context);
    if |seen| != |input.lines| + |pending| { return Err(MissingLines); }
    return Ok(input.(lines := lines, existingRmDates := existing));
  }

  lemma AllStand(rows: seq<Row>, input: ProposalInput, context: PlanningContext)
    ensures AllMatch(rows, input, context) <==> forall row <- rows :: Stands(row, input, context)
  {
    hide Matches, Stands;
    forall row <- rows
      ensures Matches(row, input.lines, Pending(context.existing)) <==> Stands(row, input, context)
    {
      MatchesExactly(row, input, context);
    }
  }

  lemma StartImport(input: ProposalInput, context: PlanningContext)
    ensures Imported([], input, context, {}, input.lines, input.existingRmDates)
  {
  }

  lemma EndImport(rows: seq<Row>, input: ProposalInput, context: PlanningContext, seen: set<string>,
                  lines: seq<ProposedLine>, existing: map<string, string>)
    requires Imported(rows, input, context, seen, lines, existing)
    ensures |seen| == |rows| && AllDated(rows) && Ours(rows, input) && DistinctKeys(rows)
            && AllMatch(rows, input, context)
    ensures Written(rows, input, lines, existing)
  {
  }

  // ---- the whole of it ----

  ghost predicate UniqueIds(input: ProposalInput, context: PlanningContext) {
    && (forall i, j :: 0 <= i < j < |input.lines| ==> input.lines[i].id != input.lines[j].id)
    && var pending := Pending(context.existing);
       forall i, j :: 0 <= i < j < |pending| ==> pending[i].id != pending[j].id
  }

  // Every proposed line and every existing line without a date has a row.
  ghost predicate Covers(rows: seq<Row>, input: ProposalInput, context: PlanningContext) {
    && (forall i: nat :: i < |input.lines| ==> HasRow(rows, input, i))
    && (forall line <- Pending(context.existing) :: HasExistingRow(rows, line.id))
  }

  function KeyOf(source: string, id: string): string {
    source + ":" + id
  }

  lemma KeysApart(x: string, y: string)
    ensures KeyOf(EXISTING, x) != KeyOf(PROPOSED, y)
    ensures KeyOf(EXISTING, x) == KeyOf(EXISTING, y) <==> x == y
    ensures KeyOf(PROPOSED, x) == KeyOf(PROPOSED, y) <==> x == y
  {
    assert KeyOf(EXISTING, x)[0] == 'E' && KeyOf(PROPOSED, y)[0] == 'P';
    assert x == KeyOf(EXISTING, x)[9..] && y == KeyOf(EXISTING, y)[9..];
    assert x == KeyOf(PROPOSED, x)[9..] && y == KeyOf(PROPOSED, y)[9..];
  }

  function LineKeys(input: ProposalInput, context: PlanningContext): (keys: seq<string>)
    ensures |keys| == |input.lines| + |Pending(context.existing)|
  {
    var pending := Pending(context.existing);
    seq(|pending| + |input.lines|, k requires 0 <= k < |pending| + |input.lines| =>
      if k < |pending| then KeyOf(EXISTING, pending[k].id) else KeyOf(PROPOSED, input.lines[k - |pending|].id))
  }

  function Members(s: seq<string>): set<string> {
    set x <- s
  }

  lemma {:induction false} DistinctSize(s: seq<string>)
    requires forall j, k :: 0 <= j < k < |s| ==> s[j] != s[k]
    ensures |Members(s)| == |s|
  {
    if s != [] {
      DistinctSize(s[1..]);
      assert Members(s) == Members(s[1..]) + {s[0]};
    }
  }

  lemma SameSizeSame(a: set<string>, b: set<string>)
    requires a <= b && |a| == |b|
    ensures a == b
  {
    assert b == a + (b - a);
  }

  lemma SubsetSize(a: set<string>, b: set<string>)
    requires a <= b
    ensures |a| <= |b|
  {
    assert b == a + (b - a);
  }

  lemma LineKeysAreDistinct(input: ProposalInput, context: PlanningContext)
    requires UniqueIds(input, context)
    ensures var keys := LineKeys(input, context); forall j, k :: 0 <= j < k < |keys| ==> keys[j] != keys[k]
  {
    hide KeyOf, EXISTING, PROPOSED, Pending;
    var pending, keys := Pending(context.existing), LineKeys(input, context);
    forall j, k | 0 <= j < k < |keys| ensures keys[j] != keys[k] {
      var x := if j < |pending| then pending[j].id else input.lines[j - |pending|].id;
      var y := if k < |pending| then pending[k].id else input.lines[k - |pending|].id;
      KeysApart(x, y);
      assert (j < |pending|) == (k < |pending|) ==> x != y;
    }
  }

  lemma RowKeysSize(rows: seq<Row>)
    requires DistinctKeys(rows)
    ensures |Keys(rows)| == |rows|
  {
    hide Key;
    var keys := seq(|rows|, k requires 0 <= k < |rows| => Key(rows[k]));
    DistinctSize(keys);
    assert Members(keys) == Keys(rows) by {
      forall x | x in Keys(rows) ensures x in keys {
        var row :| row in rows && Key(row) == x;
        var k :| 0 <= k < |rows| && rows[k] == row;
        assert keys[k] == x;
      }
    }
  }

  lemma RowKeyKnown(row: Row, input: ProposalInput, context: PlanningContext)
    requires Matches(row, input.lines, Pending(context.existing))
    ensures Key(row) in LineKeys(input, context)
    ensures row.source == EXISTING || row.source == PROPOSED
  {
    var pending, keys := Pending(context.existing), LineKeys(input, context);
    if row.source == EXISTING {
      var line := FindPending(pending, row.id).value;
      var k :| 0 <= k < |pending| && pending[k] == line;
      assert keys[k] == KeyOf(EXISTING, row.id);
    } else {
      var i := FindLine(input.lines, row.id).value;
      assert keys[|pending| + i] == KeyOf(PROPOSED, row.id);
    }
  }

  lemma LineKeyMeans(row: Row, input: ProposalInput, context: PlanningContext)
    requires UniqueIds(input, context) && Matches(row, input.lines, Pending(context.existing))
    ensures forall i: nat :: i < |input.lines| ==>
              (Key(row) == KeyOf(PROPOSED, input.lines[i].id) <==> Targets(row, input, i))
    ensures forall id: string {:trigger KeyOf(EXISTING, id)} {:trigger TargetsExisting(row, id)} ::
              Key(row) == KeyOf(EXISTING, id) <==> TargetsExisting(row, id)
  {
    MatchingSource(row, input.lines, Pending(context.existing));
    assert Key(row) == KeyOf(row.source, row.id);
    assert EXISTING != PROPOSED;
    hide EXISTING, PROPOSED, KeyOf, Key;
    forall i: nat | i < |input.lines| ensures Key(row) == KeyOf(PROPOSED, input.lines[i].id)
      <==> Targets(row, input, i) {
      KeysApart(row.id, input.lines[i].id);
    }
    forall id: string ensures Key(row) == KeyOf(EXISTING, id) <==> TargetsExisting(row, id) {
      KeysApart(row.id, id);
      KeysApart(id, row.id);
    }
  }

  // Distinct rows that match count up to the lines exactly when every line has its row.
  lemma CountMeansCover(rows: seq<Row>, input: ProposalInput, context: PlanningContext)
    requires UniqueIds(input, context) && DistinctKeys(rows) && AllMatch(rows, input, context)
    ensures |rows| == |input.lines| + |Pending(context.existing)| <==> Covers(rows, input, context)
  {
    var pending, keys := Pending(context.existing), LineKeys(input, context);
    RowKeysSize(rows);
    LineKeysAreDistinct(input, context);
    DistinctSize(keys);
    forall row <- rows ensures Key(row) in keys { RowKeyKnown(row, input, context); }
    assert Keys(rows) <= Members(keys);
    if |rows| == |keys| {
      SameSizeSame(Keys(rows), Members(keys));
      EveryKeyCovers(rows, input, context);
    }
    if Covers(rows, input, context) {
      CoverHasKeys(rows, input, context);
      SubsetSize(Members(keys), Keys(rows));
      SubsetSize(Keys(rows), Members(keys));
    }
  }

  lemma EveryKeyCovers(rows: seq<Row>, input: ProposalInput, context: PlanningContext)
    requires UniqueIds(input, context) && AllMatch(rows, input, context)
             && Keys(rows) == Members(LineKeys(input, context))
    ensures Covers(rows, input, context)
  {
    hide KeyOf, Key, UniqueIds, Matches, Targets, TargetsExisting;
    var pending, keys := Pending(context.existing), LineKeys(input, context);
    forall i: nat | i < |input.lines| ensures HasRow(rows, input, i) {
      assert keys[|pending| + i] in Keys(rows);
      var row :| row in rows && Key(row) == KeyOf(PROPOSED, input.lines[i].id);
      LineKeyMeans(row, input, context);
    }
    forall line <- pending ensures HasExistingRow(rows, line.id) {
      var k :| 0 <= k < |pending| && pending[k] == line;
      assert keys[k] in Keys(rows);
      var row :| row in rows && Key(row) == KeyOf(EXISTING, line.id);
      LineKeyMeans(row, input, context);
    }
  }

  lemma CoverHasKeys(rows: seq<Row>, input: ProposalInput, context: PlanningContext)
    requires UniqueIds(input, context) && AllMatch(rows, input, context) && Covers(rows, input, context)
    ensures Members(LineKeys(input, context)) <= Keys(rows)
  {
    hide KeyOf, Key, UniqueIds, Matches, Targets, TargetsExisting;
    var pending, keys := Pending(context.existing), LineKeys(input, context);
    forall key <- Members(keys) ensures key in Keys(rows) {
      var k :| 0 <= k < |keys| && keys[k] == key;
      if k < |pending| {
        assert pending[k] in pending && HasExistingRow(rows, pending[k].id);
        var row :| row in rows && TargetsExisting(row, pending[k].id);
        LineKeyMeans(row, input, context);
      } else {
        assert HasRow(rows, input, k - |pending|);
        var row :| row in rows && Targets(row, input, k - |pending|);
        LineKeyMeans(row, input, context);
      }
    }
  }

  predicate DatedBy(rows: seq<Row>, input: ProposalInput, i: nat, line: ProposedLine)
    requires i < |input.lines|
  {
    exists row <- rows :: Targets(row, input, i) && line == input.lines[i].(rmDate := RowDate(row))
  }

  predicate ExistingDatedBy(rows: seq<Row>, id: string, existing: map<string, string>) {
    exists row <- rows :: TargetsExisting(row, id) && id in existing && existing[id] == RowDate(row)
  }

  // A workbook that is accepted gives every proposed line and every existing line without a date exactly the
  // date of its row, and nothing else changes.
  lemma ImportDatesEveryLine(rows: seq<Row>, input: ProposalInput, context: PlanningContext, lines: seq<ProposedLine>,
      existing: map<string, string>)
    requires UniqueIds(input, context) && Acceptable(rows, input, context) && Written(rows, input, lines, existing)
    ensures |lines| == |input.lines| && forall i: nat :: i < |lines| ==> DatedBy(rows, input, i, lines[i])
    ensures forall line <- Pending(context.existing) :: ExistingDatedBy(rows, line.id, existing)
    ensures forall id: string :: (forall line <- Pending(context.existing) :: line.id != id) ==>
              (id in existing <==> id in input.existingRmDates)
                && (id in existing ==> existing[id] == input.existingRmDates[id])
  {
    CountMeansCover(rows, input, context);
    hide CsvDate, Matches, Targets, DistinctKeys, UniqueIds;
    forall i: nat | i < |lines| ensures DatedBy(rows, input, i, lines[i]) {
      assert HasRow(rows, input, i);
      var row :| row in rows && Targets(row, input, i);
      var k :| 0 <= k < |rows| && rows[k] == row;
      assert Targets(rows[k], input, i);
    }
    forall line <- Pending(context.existing) ensures ExistingDatedBy(rows, line.id, existing) {
      assert HasExistingRow(rows, line.id);
      var row :| row in rows && TargetsExisting(row, line.id);
      var k :| 0 <= k < |rows| && rows[k] == row;
      assert TargetsExisting(rows[k], line.id);
    }
    forall id: string | forall line <- Pending(context.existing) :: line.id != id
      ensures (id in existing <==> id in input.existingRmDates)
              && (id in existing ==> existing[id] == input.existingRmDates[id])
    {
      forall row <- rows ensures !TargetsExisting(row, id) {
        if row.source == EXISTING { PendingRow(row, input, context); }
      }
      assert !HasExistingRow(rows, id);
    }
  }

  lemma PendingRow(row: Row, input: ProposalInput, context: PlanningContext)
    requires row.source == EXISTING && Matches(row, input.lines, Pending(context.existing))
    ensures exists line <- Pending(context.existing) :: line.id == row.id
  {
  }

  // ---- export, then import ----

  // The dates an export writes.
  function ExportedDate(input: ProposalInput, context: PlanningContext, k: nat): string
    requires k < |Pending(context.existing)| + |input.lines|
  {
    var pending := Pending(context.existing);
    if k < |pending| then KnownDate(input, pending[k].id) else input.lines[k - |pending|].rmDate
  }

  predicate CalendarDates(input: ProposalInput, context: PlanningContext) {
    forall k: nat :: k < |Pending(context.existing)| + |input.lines| ==>
      ExportedDate(input, context, k) == "" || ValidDate(ExportedDate(input, context, k))
  }

  predicate NoYearZero(input: ProposalInput, context: PlanningContext) {
    forall k: nat :: k < |Pending(context.existing)| + |input.lines| ==> !YearZero(ExportedDate(input, context, k))
  }

  // A row as an export writes it for the k-th line.
  ghost predicate Exported(row: Row, input: ProposalInput, context: PlanningContext, k: nat)
    requires k < |Pending(context.existing)| + |input.lines|
  {
    var pending, date := Pending(context.existing), ExportedDate(input, context, k);
    && row.proposal == input.reference && Matches(row, input.lines, pending)
    && Key(row) == LineKeys(input, context)[k]
    && (if k < |pending| then TargetsExisting(row, pending[k].id) else Targets(row, input, k - |pending|))
    && CsvDate(row.date) == (if YearZero(date) then Err(BadDate) else Ok(date))
  }

  lemma FindsItself(pending: seq<PlanningLine>, k: nat)
    requires k < |pending| && forall i, j :: 0 <= i < j < |pending| ==> pending[i].id != pending[j].id
    ensures FindPending(pending, pending[k].id) == Some(pending[k])
  {
    var found := FindPending(pending, pending[k].id);
    assert pending[k] in pending;
    var j :| 0 <= j < |pending| && pending[j] == found.value;
    assert j == k;
  }

  lemma ExportAt(display: string -> string, input: ProposalInput, context: PlanningContext, k: nat)
    requires k < |Export(display, input, context)|
    ensures var n := |Pending(context.existing)|;
            && Export(display, input, context)[k]
               == (if k < n then ExistingRow(display, input, Pending(context.existing)[k])
                                                      else ProposedRow(display, input, input.lines[k - n]))
            && LineKeys(input, context)[k] == (if k < n then KeyOf(EXISTING, Pending(context.existing)[k].id)
                                               else KeyOf(PROPOSED, input.lines[k - n].id))
  {
    hide Pending, ExistingRow, ProposedRow, KeyOf, EXISTING, PROPOSED;
  }

  lemma FindsLine(lines: seq<ProposedLine>, i: nat)
    requires i < |lines| && forall j, k :: 0 <= j < k < |lines| ==> lines[j].id != lines[k].id
    ensures FindLine(lines, lines[i].id) == Some(i)
  {
  }

  lemma ExistingExportRow(display: string -> string, input: ProposalInput, context: PlanningContext, k: nat)
    requires UniqueIds(input, context) && k < |Pending(context.existing)|
    requires var date := ExportedDate(input, context, k); date == "" || ValidDate(date)
    ensures Exported(Export(display, input, context)[k], input, context, k)
  {
    hide CsvDate, FormatCsvDate, EXISTING, PROPOSED, KnownDate, Pending, FindPending, FindLine, ValidDate, YearZero;
    var pending := Pending(context.existing);
    var row := ExistingRow(display, input, pending[k]);
    FindsItself(pending, k);
    assert Export(display, input, context)[k] == row;
    assert Key(row) == KeyOf(EXISTING, pending[k].id) == LineKeys(input, context)[k];
    hide Export, LineKeys, UniqueIds, Key, KeyOf;
    DateRoundTrip(display, ExportedDate(input, context, k));
  }

  lemma ProposedRowMatches(display: string -> string, input: ProposalInput, pending: seq<PlanningLine>, i: nat)
    requires i < |input.lines| && forall j, k :: 0 <= j < k < |input.lines| ==> input.lines[j].id != input.lines[k].id
    ensures var row := ProposedRow(display, input, input.lines[i]);
            Matches(row, input.lines, pending) && Targets(row, input, i)
              && Key(row) == KeyOf(PROPOSED, input.lines[i].id)
  {
    FindsLine(input.lines, i);
    assert EXISTING != PROPOSED;
    hide FormatCsvDate, FindLine, FindPending, EXISTING, PROPOSED;
  }

  lemma ProposedExportRow(display: string -> string, input: ProposalInput, context: PlanningContext, i: nat)
    requires UniqueIds(input, context) && i < |input.lines|
    requires var date := input.lines[i].rmDate; date == "" || ValidDate(date)
    ensures var k := |Pending(context.existing)| + i; Exported(Export(display, input, context)[k], input, context, k)
  {
    var k := |Pending(context.existing)| + i;
    hide CsvDate, FormatCsvDate, EXISTING, PROPOSED, KnownDate, Pending, ValidDate, YearZero, Matches, Targets, Export,
      LineKeys, Key, KeyOf;
    ExportAt(display, input, context, k);
    ProposedRowMatches(display, input, Pending(context.existing), i);
    DateRoundTrip(display, input.lines[i].rmDate);
  }

  lemma ExportRow(display: string -> string, input: ProposalInput, context: PlanningContext, k: nat)
    requires UniqueIds(input, context) && CalendarDates(input, context) && k < |Export(display, input, context)|
    ensures Exported(Export(display, input, context)[k], input, context, k)
  {
    hide *;
    CalendarDateAt(input, context, k);
    if k < |Pending(context.existing)| {
      ExistingExportRow(display, input, context, k);
    } else {
      ProposedExportRow(display, input, context, k - |Pending(context.existing)|);
    }
  }

  lemma CalendarDateAt(input: ProposalInput, context: PlanningContext, k: nat)
    requires CalendarDates(input, context) && k < |Pending(context.existing)| + |input.lines|
    ensures ExportedDate(input, context, k) == "" || ValidDate(ExportedDate(input, context, k))
    ensures k >= |Pending(context.existing)| ==>
              ExportedDate(input, context, k) == input.lines[k - |Pending(context.existing)|].rmDate
  {
    hide ValidDate;
  }

  // The exported workbook is accepted as it is exactly when no date in it is in the year 0000.
  lemma ExportIsAcceptable(display: string -> string, input: ProposalInput, context: PlanningContext)
    requires UniqueIds(input, context) && CalendarDates(input, context)
    ensures Acceptable(Export(display, input, context), input, context) <==> NoYearZero(input, context)
  {
    var rows := Export(display, input, context);
    forall k: nat | k < |rows|
      ensures rows[k] in rows && rows[k].proposal == input.reference
              && Matches(rows[k], input.lines, Pending(context.existing))
      ensures Key(rows[k]) == LineKeys(input, context)[k]
      ensures CsvDate(rows[k].date).Ok? <==> !YearZero(ExportedDate(input, context, k))
    {
      ExportRow(display, input, context, k);
    }
    LineKeysAreDistinct(input, context);
    hide CsvDate, Matches, Key, LineKeys, Export, YearZero, ExportedDate, UniqueIds, CalendarDates;
    assert DistinctKeys(rows);
    assert Ours(rows, input) && AllMatch(rows, input, context);
  }

  // What the pending existing lines hold afterwards: a missing date has become an empty one.
  function Filled(input: ProposalInput, context: PlanningContext): map<string, string> {
    var ids := set line <- Pending(context.existing) :: line.id;
    input.existingRmDates + map id <- ids :: KnownDate(input, id)
  }

  lemma WrittenAt(rows: seq<Row>, input: ProposalInput, lines: seq<ProposedLine>, existing: map<string, string>, k: nat)
    requires k < |rows| && Written(rows, input, lines, existing)
    ensures forall i: nat :: Targets(rows[k], input, i) ==>
              i < |lines| == |input.lines| && lines[i] == input.lines[i].(rmDate := RowDate(rows[k]))
    ensures forall id :: TargetsExisting(rows[k], id) ==> id in existing && existing[id] == RowDate(rows[k])
  {
    hide RowDate, Targets, TargetsExisting;
  }

  lemma ExportedLine(display: string -> string, input: ProposalInput, context: PlanningContext,
                     lines: seq<ProposedLine>, existing: map<string, string>, i: nat)
    requires UniqueIds(input, context) && CalendarDates(input, context) && NoYearZero(input, context)
             && i < |input.lines|
    requires Written(Export(display, input, context), input, lines, existing)
    ensures i < |lines| && lines[i] == input.lines[i]
  {
    hide CsvDate, Export, YearZero, Matches, Key, LineKeys, Targets, TargetsExisting, UniqueIds, CalendarDates,
      Written, AllDated;
    var rows, k := Export(display, input, context), |Pending(context.existing)| + i;
    ExportRow(display, input, context, k);
    WrittenAt(rows, input, lines, existing, k);
    assert ExportedDate(input, context, k) == input.lines[i].rmDate;
  }

  lemma ExportedExisting(display: string -> string, input: ProposalInput, context: PlanningContext,
                         lines: seq<ProposedLine>, existing: map<string, string>, line: PlanningLine)
    requires UniqueIds(input, context) && CalendarDates(input, context) && NoYearZero(input, context)
    requires line in Pending(context.existing)
    requires Written(Export(display, input, context), input, lines, existing)
    ensures line.id in existing && existing[line.id] == KnownDate(input, line.id)
  {
    hide CsvDate, Export, YearZero, Matches, Key, LineKeys, Targets, TargetsExisting, UniqueIds, CalendarDates,
      Written, AllDated;
    var rows, pending := Export(display, input, context), Pending(context.existing);
    var k :| 0 <= k < |pending| && pending[k] == line;
    ExportRow(display, input, context, k);
    WrittenAt(rows, input, lines, existing, k);
    assert ExportedDate(input, context, k) == KnownDate(input, line.id);
  }

  // And it brings the proposal back unchanged, but for missing dates of existing lines, now empty.
  lemma ExportedComesBack(display: string -> string, input: ProposalInput, context: PlanningContext,
                          lines: seq<ProposedLine>, existing: map<string, string>)
    requires UniqueIds(input, context) && CalendarDates(input, context) && NoYearZero(input, context)
    requires Written(Export(display, input, context), input, lines, existing)
    ensures lines == input.lines && existing == Filled(input, context)
  {
    hide Export, Written, AllDated, UniqueIds, CalendarDates, NoYearZero, Acceptable, KnownDate, CsvDate,
      ExistingDatedBy, DatedBy;
    var rows, pending := Export(display, input, context), Pending(context.existing);
    ExportIsAcceptable(display, input, context);
    ImportDatesEveryLine(rows, input, context, lines, existing);
    forall i: nat | i < |lines| ensures lines[i] == input.lines[i] {
      ExportedLine(display, input, context, lines, existing, i);
    }
    forall line | line in pending ensures line.id in existing && existing[line.id] == KnownDate(input, line.id) {
      ExportedExisting(display, input, context, lines, existing, line);
    }
    SameMap(input, context, existing);
  }

  lemma SameMap(input: ProposalInput, context: PlanningContext, existing: map<string, string>)
    requires forall line <- Pending(context.existing) ::
               line.id in existing && existing[line.id] == KnownDate(input, line.id)
    requires forall id: string :: (forall line <- Pending(context.existing) :: line.id != id) ==>
              (id in existing <==> id in input.existingRmDates)
                && (id in existing ==> existing[id] == input.existingRmDates[id])
    ensures existing == Filled(input, context)
  {
    hide KnownDate;
    var pending := Pending(context.existing);
    hide Pending;
    var ids := set line <- pending :: line.id;
    forall id: string ensures (id in existing <==> id in Filled(input, context))
      && (id in existing ==> existing[id] == Filled(input, context)[id]) {
      if id in ids {
        var line :| line in pending && line.id == id;
      } else {
        assert forall line <- pending :: line.id != id;
      }
    }
  }

  // A proposal that passes validation and whose exported workbook is refused: its line's RM date is in the year 0000.
  lemma YearZeroIsRefused(display: string -> string, context: PlanningContext)
    requires context.existing == []
    ensures var input := OneDayProposal("2030-01-01", "0000-01-01");
            Validate(input) == None && !Acceptable(Export(display, input, context), input, context)
  {
    var input := OneDayProposal("2030-01-01", "0000-01-01");
    DateOf("2030-01-01", Civil(2030, 1, 1));
    DateOf("0000-01-01", Civil(0, 1, 1));
    EarlyEnough();
    hide ValidDate, Fields, DayOf, Validate, Acceptable, Export;
    OneDayIsValid("2030-01-01", "0000-01-01");
    ExportedDates(input, context);
    ExportIsAcceptable(display, input, context);
  }

  lemma ExportedDates(input: ProposalInput, context: PlanningContext)
    requires context.existing == [] && |input.lines| == 1 && YearZero(input.lines[0].rmDate)
    ensures UniqueIds(input, context) && CalendarDates(input, context) && !NoYearZero(input, context)
  {
    hide YearZero;
    assert ExportedDate(input, context, 0) == input.lines[0].rmDate;
    assert ValidDate(input.lines[0].rmDate) by { YearZeroIsDate(input.lines[0].rmDate); }
  }

  lemma YearZeroIsDate(date: string)
    requires YearZero(date)
    ensures ValidDate(date)
  {
  }

  lemma DateOf(text: string, c: Civil)
    requires Real(c) && 0 <= c.year <= 9999 && text == IsoText(c)
    ensures ValidDate(text) && Fields(text) == c && (c.year == 0 ==> YearZero(text))
  {
    FieldsOfText(c);
  }

  lemma EarlyEnough()
    ensures DayNumber(Civil(2030, 1, 1)) + 730 <= LAST_DAY
  {
  }
}

// What the workbook of RM dates holds and what taking it in amounts to, in terms of the rows and lines alone.
module RmOutcomes {
  import opened Wrappers
  import opened Text
  import opened Calendar
  import opened Proposal
  import opened RmWorkbook

  // ---- dates ----

  // A date of the sheet is empty, or day, month and year of a calendar date from the year 1 on.
  lemma DatesRead(text: string, date: string)
    ensures CsvDate(text) == Ok(date) <==>
              || (Trim(text) == "" && date == "")
              || exists c: Civil ::
                   && Real(c) && 1 <= c.year <= 9999
                   && Trim(text) == Two(c.day) + "-" + Two(c.month) + "-" + Four(c.year)
                   && date == Four(c.year) + "-" + Two(c.month) + "-" + Two(c.day)
  {
    var t := Trim(text);
    forall c: Civil | Real(c) ensures 1 <= c.day <= 99 && 1 <= c.month <= 99 { SmallFields(c); }
    hide Real, Two, Four, TwoValue, FourValue, IsDigit, Trim;
    if CsvDate(text) == Ok(date) && t != "" {
      var c := DayFirstFields(t);
      assert t == t[..2] + "-" + t[3..5] + "-" + t[6..];
      assert Two(c.day) == t[..2] && Two(c.month) == t[3..5] && Four(c.year) == t[6..];
    }
    forall c: Civil | Real(c) && 1 <= c.year <= 9999
                      && t == Two(c.day) + "-" + Two(c.month) + "-" + Four(c.year)
      ensures CsvDate(text) == Ok(Four(c.year) + "-" + Two(c.month) + "-" + Two(c.day))
    {
      ReadsBack(c, t);
    }
  }

  lemma ReadsBack(c: Civil, t: string)
    requires Real(c) && 1 <= c.year <= 9999 && t == Two(c.day) + "-" + Two(c.month) + "-" + Four(c.year)
    ensures DayFirst(t) && DayFirstFields(t) == c
  {
    SmallFields(c);
    hide Real, Two, Four, TwoValue, FourValue, IsDigit;
    TwoDigits(c.day);
    TwoDigits(c.month);
    FourDigits(c.year);
    assert t[..2] == Two(c.day) && t[3..5] == Two(c.month) && t[6..] == Four(c.year);
  }

  lemma SmallFields(c: Civil)
    requires Real(c)
    ensures 1 <= c.day <= 99 && 1 <= c.month <= 99
  {
  }

  // A date is shown day first; a text that is no date is left to the display.
  lemma DatesShown(display: string -> string, c: Civil)
    requires Real(c) && 1 <= c.year <= 9999
    ensures FormatCsvDate(display, Four(c.year) + "-" + Two(c.month) + "-" + Two(c.day))
         == Two(c.day) + "-" + Two(c.month) + "-" + Four(c.year)
    ensures FormatCsvDate(display, "") == ""
    ensures forall t: string :: t != "" && !ValidDate(t) ==> FormatCsvDate(display, t) == display(t)
  {
    hide Two, Four, ValidDate, Fields;
    FieldsOfText(c);
    assert IsoText(c) == Four(c.year) + "-" + Two(c.month) + "-" + Two(c.day);
    assert IsoText(c) != "";
  }

  // ---- export ----

  function Undated(existing: seq<PlanningLine>): nat {
    |set i | 0 <= i < |existing| && existing[i].rmDate == ""|
  }

  lemma OneMoreUndated(existing: seq<PlanningLine>, line: PlanningLine)
    ensures Undated(existing + [line]) == Undated(existing) + if line.rmDate == "" then 1 else 0
  {
    var all, n := existing + [line], |existing|;
    var before := set i | 0 <= i < n && existing[i].rmDate == "";
    var after := set i | 0 <= i < |all| && all[i].rmDate == "";
    forall i ensures i in after <==> i in before || (i == n && line.rmDate == "") {
      if 0 <= i < n { assert all[i] == existing[i]; }
    }
    if line.rmDate == "" { assert after == before + {n}; } else { assert after == before; }
  }

  lemma PendingNext(line: PlanningLine, rest: seq<PlanningLine>)
    ensures Pending([line] + rest) == (if line.rmDate == "" then [line] else []) + Pending(rest)
  {
    assert ([line] + rest)[1..] == rest;
  }

  lemma {:induction false} PendingJoins(a: seq<PlanningLine>, b: seq<PlanningLine>)
    ensures Pending(a + b) == Pending(a) + Pending(b)
  {
    hide Pending;
    if a == [] {
      NoneUndated();
      assert a + b == b;
    } else {
      PendingJoins(a[1..], b);
      assert a == [a[0]] + a[1..] && a + b == [a[0]] + (a[1..] + b);
      PendingNext(a[0], a[1..]);
      PendingNext(a[0], a[1..] + b);
    }
  }

  lemma PendingOne(line: PlanningLine)
    ensures Pending([line]) == if line.rmDate == "" then [line] else []
  {
    assert [line][1..] == [];
    assert Pending([]) == [];
  }

  lemma {:induction false} PendingCounts(existing: seq<PlanningLine>)
    ensures |Pending(existing)| == Undated(existing)
    decreases |existing|
  {
    hide Pending, Undated;
    if existing == [] {
      NoneUndated();
    } else {
      var n := |existing| - 1;
      PendingCounts(existing[..n]);
      assert existing == existing[..n] + [existing[n]];
      PendingJoins(existing[..n], [existing[n]]);
      PendingOne(existing[n]);
      OneMoreUndated(existing[..n], existing[n]);
    }
  }

  lemma NoneUndated()
    ensures Undated([]) == 0 && Pending([]) == []
  {
  }

  lemma PendingPlace(existing: seq<PlanningLine>, j: nat)
    requires j < |existing| && existing[j].rmDate == ""
    ensures Undated(existing[..j]) < |Pending(existing)| && Pending(existing)[Undated(existing[..j])] == existing[j]
  {
    hide Pending, Undated;
    assert existing == existing[..j] + ([existing[j]] + existing[j + 1..]);
    PendingJoins(existing[..j], [existing[j]] + existing[j + 1..]);
    PendingJoins([existing[j]], existing[j + 1..]);
    PendingOne(existing[j]);
    PendingCounts(existing[..j]);
  }

  // The sheet: a row for each existing work whose RM date is unknown, then one for each line of the proposal, in order.
  lemma ExportLists(display: string -> string, input: ProposalInput, context: PlanningContext)
    ensures |Export(display, input, context)| == Undated(context.existing) + |input.lines|
    ensures forall j: nat :: j < |context.existing| && context.existing[j].rmDate == "" ==>
              var line, k := context.existing[j], Undated(context.existing[..j]);
              && k < Undated(context.existing)
              && Export(display, input, context)[k]
                 == Row(input.reference, "Existing", line.id, line.part, Some(line.quantity),
                      FormatCsvDate(display, if line.id in input.existingRmDates then input.existingRmDates[line.id]
                                             else ""))
    ensures forall i: nat :: i < |input.lines| ==>
              var line := input.lines[i];
              Export(display, input, context)[Undated(context.existing) + i]
              == Row(input.reference, "Proposed", line.id, line.part, Some(line.quantity),
                   FormatCsvDate(display, line.rmDate))
  {
    hide Pending, Undated, FormatCsvDate;
    PendingCounts(context.existing);
    forall j: nat | j < |context.existing| && context.existing[j].rmDate == ""
      ensures Undated(context.existing[..j]) < Undated(context.existing)
              && Pending(context.existing)[Undated(context.existing[..j])] == context.existing[j]
    {
      PendingPlace(context.existing, j);
    }
    forall i: nat | i < |input.lines|
      ensures Export(display, input, context)[Undated(context.existing) + i]
           == ProposedRow(display, input, input.lines[i])
    {
      ExportAt(display, input, context, Undated(context.existing) + i);
    }
  }

  // ---- import ----

  // What the import accepts: rows of this proposal, dated, each about its own line, and as many as there are lines.
  lemma AcceptableExactly(rows: seq<Row>, input: ProposalInput, context: PlanningContext)
    ensures Acceptable(rows, input, context) <==>
              && (forall k :: 0 <= k < |rows| ==> rows[k].proposal == input.reference)
              && (forall k :: 0 <= k < |rows| ==> CsvDate(rows[k].date).Ok?)
              && (forall k :: 0 <= k < |rows| ==> Stands(rows[k], input, context))
              && (forall j, k :: 0 <= j < k < |rows| ==> rows[j].source != rows[k].source || rows[j].id != rows[k].id)
              && |rows| == |input.lines| + Undated(context.existing)
  {
    hide CsvDate, Pending, Undated, Stands, Matches;
    PendingCounts(context.existing);
    AllStand(rows, input, context);
    assert forall k :: 0 <= k < |rows| ==> rows[k] in rows;
    if AllMatch(rows, input, context) {
      forall j, k | 0 <= j < k < |rows|
        ensures Key(rows[j]) == Key(rows[k]) <==> rows[j].source == rows[k].source && rows[j].id == rows[k].id
      {
        SourcesTell(rows[j], input, context);
        SourcesTell(rows[k], input, context);
        KeysTell(rows[j], rows[k]);
      }
    }
  }

  lemma SourcesTell(row: Row, input: ProposalInput, context: PlanningContext)
    requires Stands(row, input, context)
    ensures row.source == EXISTING || row.source == PROPOSED
  {
  }

  lemma KeysTell(a: Row, b: Row)
    requires (a.source == EXISTING || a.source == PROPOSED) && (b.source == EXISTING || b.source == PROPOSED)
    ensures Key(a) == Key(b) <==> a.source == b.source && a.id == b.id
  {
    assert EXISTING != PROPOSED;
    assert Key(a) == KeyOf(a.source, a.id) && Key(b) == KeyOf(b.source, b.id);
    hide KeyOf, Key, EXISTING, PROPOSED;
    KeysApart(a.id, b.id);
    KeysApart(b.id, a.id);
  }

  // Where the dates end up: with the line and the existing work the rows name, read from their texts.
  lemma DatesLand(rows: seq<Row>, input: ProposalInput, context: PlanningContext, lines: seq<ProposedLine>,
      existing: map<string, string>, k: nat)
    requires Acceptable(rows, input, context) && Written(rows, input, lines, existing) && k < |rows|
    ensures |lines| == |input.lines|
    ensures forall i: nat :: i < |lines| ==> lines[i] == input.lines[i].(rmDate := lines[i].rmDate)
    ensures rows[k].source == "Existing" ==>
              rows[k].id in existing && CsvDate(rows[k].date) == Ok(existing[rows[k].id])
    ensures rows[k].source == "Proposed" ==>
              forall i: nat ::
                i < |lines| && lines[i].id == rows[k].id && (forall j :: 0 <= j < i ==> lines[j].id != rows[k].id) ==>
                  CsvDate(rows[k].date) == Ok(lines[i].rmDate)
  {
    assert rows[k] in rows && CsvDate(rows[k].date).Ok?;
    hide CsvDate, Acceptable, WrittenExisting, WrittenLines;
    SameLines(rows, input, lines);
    WrittenAt(rows, input, lines, existing, k);
  }
}

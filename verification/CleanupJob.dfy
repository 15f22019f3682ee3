// The cleanup job over all uploads: which candidates it works on and how it counts them.
module CleanupJob {
  import opened Wrappers
  import opened ResumableStore
  import opened UploadServer

  datatype Counts = Counts(candidates: nat, cleaned: nat, failed: nat)

  // What becomes of one turn: its requests, and whether its transaction comes through.
  datatype Turn = Turn(fate: RemoveFate, commits: bool)

  type Table = map<string, (Upload, Cloud)>

  function OutcomeOf(table: Table, id: string, before: int, turns: map<string, Turn>): CleanupOutcome
    requires id in table && id in turns
  {
    CleanupEffect(table[id].0, table[id].1, before, turns[id].fate).2
  }

  function RowAfter(table: Table, id: string, before: int, turns: map<string, Turn>): (Upload, Cloud)
    requires id in table && id in turns
  {
    var (u, c, _) := CleanupTurn(table[id].0, table[id].1, before, turns[id].fate, turns[id].commits);
    (u, c)
  }

  ghost predicate Known(table: Table, ids: seq<string>, turns: map<string, Turn>) {
    forall id <- ids :: id in table && id in turns
  }

  // How many of the candidates end with an outcome.
  function Tally(table: Table, ids: seq<string>, before: int, turns: map<string, Turn>, o: CleanupOutcome): nat
    requires Known(table, ids, turns)
  {
    if ids == [] then 0
    else
      assert ids[|ids| - 1] in ids;
      Tally(table, ids[..|ids| - 1], before, turns, o)
      + if OutcomeOf(table, ids[|ids| - 1], before, turns) == o then 1 else 0
  }

  lemma {:induction false} OutcomesPartition(table: Table, ids: seq<string>, before: int, turns: map<string, Turn>)
    requires Known(table, ids, turns)
    ensures Tally(table, ids, before, turns, Cleaned) + Tally(table, ids, before, turns, Failed)
          + Tally(table, ids, before, turns, Skipped) == |ids|
  {
    if ids != [] {
      hide OutcomeOf;
      OutcomesPartition(table, ids[..|ids| - 1], before, turns);
    }
  }

  // Which of the candidates end with an outcome.
  ghost function Ending(table: Table, ids: seq<string>, n: nat, before: int, turns: map<string, Turn>,
      o: CleanupOutcome): set<int>
    requires Known(table, ids, turns) && n <= |ids|
  {
    set i | 0 <= i < n && ids[i] in table && ids[i] in turns && OutcomeOf(table, ids[i], before, turns) == o
  }

  lemma EndingGrows(table: Table, ids: seq<string>, n: nat, before: int, turns: map<string, Turn>, o: CleanupOutcome)
    requires Known(table, ids, turns) && 0 < n <= |ids| && ids[n - 1] in table && ids[n - 1] in turns
    ensures |Ending(table, ids, n, before, turns, o)|
         == |Ending(table, ids, n - 1, before, turns, o)|
            + (if OutcomeOf(table, ids[n - 1], before, turns) == o then 1 else 0)
  {
    hide OutcomeOf, Known;
    var front := Ending(table, ids, n - 1, before, turns, o);
    assert n - 1 !in front;
    assert Ending(table, ids, n, before, turns, o)
        == front + if OutcomeOf(table, ids[n - 1], before, turns) == o then {n - 1} else {};
  }

  // A tally counts them.
  lemma {:induction false} TallyCounts(table: Table, ids: seq<string>, n: nat, before: int, turns: map<string, Turn>,
      o: CleanupOutcome)
    requires Known(table, ids, turns) && n <= |ids|
    ensures Known(table, ids[..n], turns)
    ensures Tally(table, ids[..n], before, turns, o) == |Ending(table, ids, n, before, turns, o)|
  {
    hide OutcomeOf, Tally;
    if n == 0 {
      NoTurns(table, before, turns);
      assert ids[..0] == [];
      assert Ending(table, ids, 0, before, turns, o) == {};
    } else {
      hide Ending;
      TallyCounts(table, ids, n - 1, before, turns, o);
      NextTurn(table, ids, n - 1, before, turns);
      EndingGrows(table, ids, n, before, turns, o);
    }
  }

  // The turns the job takes: those up to the first whose transaction does not come through, which ends the job.
  function Taken(ids: seq<string>, turns: map<string, Turn>): (n: nat)
    requires forall id <- ids :: id in turns
    ensures n <= |ids| && forall i :: 0 <= i < n - 1 ==> turns[ids[i]].commits
    ensures n < |ids| ==> n > 0 && !turns[ids[n - 1]].commits
  {
    if ids == [] then 0
    else
      var before := Taken(ids[..|ids| - 1], turns);
      if before > 0 && !turns[ids[before - 1]].commits then before else |ids|
  }

  // A candidate that was cleaned is skipped by every later turn.
  lemma CleanedIsNotCleanedAgain(table: Table, id: string, before: int, later: int, turns: map<string, Turn>,
      again: RemoveFate)
    requires id in table && id in turns && OutcomeOf(table, id, before, turns) == Cleaned && turns[id].commits
    ensures var (u, c) := RowAfter(table, id, before, turns); CleanupEffect(u, c, later, again) == (u, c, Skipped)
  {
  }

  lemma NoTurns(table: Table, before: int, turns: map<string, Turn>)
    ensures Known(table, [], turns) && forall o :: Tally(table, [], before, turns, o) == 0
  {
  }

  lemma NextTurn(table: Table, ids: seq<string>, i: nat, before: int, turns: map<string, Turn>)
    requires Known(table, ids, turns) && i < |ids|
    ensures Known(table, ids[..i], turns) && Known(table, ids[..i + 1], turns)
    ensures ids[i] in table && ids[i] in turns && ids[..i + 1] == ids[..i] + [ids[i]]
    ensures RowAfter(table, ids[i], before, turns)
         == (var t := CleanupTurn(table[ids[i]].0, table[ids[i]].1, before, turns[ids[i]].fate, turns[ids[i]].commits);
           (t.0, t.1))
    ensures CleanupTurn(table[ids[i]].0, table[ids[i]].1, before, turns[ids[i]].fate, turns[ids[i]].commits).2
         == if turns[ids[i]].commits then Some(OutcomeOf(table, ids[i], before, turns)) else None
    ensures forall o :: Tally(table, ids[..i + 1], before, turns, o)
                     == Tally(table, ids[..i], before, turns, o)
                        + (if OutcomeOf(table, ids[i], before, turns) == o then 1 else 0)
  {
    hide CleanupEffect;
    assert ids[i] in ids;
    assert ids[..i + 1][..i] == ids[..i] && ids[..i + 1][i] == ids[i];
  }

  class Job {
    var table: Table

    constructor (table: Table)
      ensures this.table == table
    {
      this.table := table;
    }

    method TakeTurn(id: string, before: int, turn: Turn) returns (outcome: Option<CleanupOutcome>)
      requires id in table
      modifies this
      ensures var (u, c, o) := CleanupTurn(old(table)[id].0, old(table)[id].1, before, turn.fate, turn.commits);
              table == old(table)[id := (u, c)] && outcome == o
    {
      hide CleanupTurn;
      var after := CleanupTurn(table[id].0, table[id].1, before, turn.fate, turn.commits);
      table := table[id := (after.0, after.1)];
      outcome := after.2;
    }

    // `cleanupPendingArtifactUploads` over the candidates listed for it, each listed once; none when a transaction
    // that did not come through ended it.
    method Run(ids: seq<string>, before: int, turns: map<string, Turn>) returns (r: Option<Counts>)
      requires forall i, j :: 0 <= i < j < |ids| ==> ids[i] != ids[j]
      requires Known(table, ids, turns)
      modifies this
      ensures table.Keys == old(table).Keys
      ensures var n := Taken(ids, turns);
              forall id :: id in table ==>
                table[id] == if id in ids[..n] then RowAfter(old(table), id, before, turns) else old(table)[id]
      ensures r.Some? <==> forall id <- ids :: turns[id].commits
      ensures r.Some? ==>
                && r.value.candidates == |ids|
                && r.value.cleaned == Tally(old(table), ids, before, turns, Cleaned)
                && r.value.failed == Tally(old(table), ids, before, turns, Failed)
                && r.value.candidates == r.value.cleaned + r.value.failed
                   + Tally(old(table), ids, before, turns, Skipped)
    {
      hide CleanupTurn, RowAfter, OutcomeOf, Tally, Taken;
      ghost var start := table;
      NoTurns(start, before, turns);
      assert ids[..0] == [];
      var cleaned, failed := 0, 0;
      for i := 0 to |ids|
        invariant table.Keys == start.Keys
        invariant forall k :: 0 <= k < i ==> turns[ids[k]].commits
        invariant forall id :: id in table ==>
                    table[id] == if id in ids[..i] then RowAfter(start, id, before, turns) else start[id]
        invariant Known(start, ids[..i], turns) && Known(start, ids, turns)
        invariant cleaned == Tally(start, ids[..i], before, turns, Cleaned)
        invariant failed == Tally(start, ids[..i], before, turns, Failed)
      {
        var id := ids[i];
        NextTurn(start, ids, i, before, turns);
        var outcome := TakeTurn(id, before, turns[id]);
        if outcome == None {
          EndsAt(ids, turns, i);
          return None;
        }
        if outcome == Some(Cleaned) { cleaned := cleaned + 1; }
        if outcome == Some(Failed) { failed := failed + 1; }
      }
      assert ids[..|ids|] == ids;
      AllTaken(ids, turns);
      OutcomesPartition(start, ids, before, turns);
      r := Some(Counts(|ids|, cleaned, failed));
    }
  }

  lemma EndsAt(ids: seq<string>, turns: map<string, Turn>, i: nat)
    requires forall id <- ids :: id in turns
    requires i < |ids| && !turns[ids[i]].commits && forall k :: 0 <= k < i ==> turns[ids[k]].commits
    ensures Taken(ids, turns) == i + 1
  {
  }

  lemma AllTaken(ids: seq<string>, turns: map<string, Turn>)
    requires forall id <- ids :: id in turns
    requires forall k :: 0 <= k < |ids| ==> turns[ids[k]].commits
    ensures Taken(ids, turns) == |ids|
  {
  }
}

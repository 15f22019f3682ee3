// What merging a dashboard answer comes to: which answers are turned away and why, and what the others leave.
module MergeOutcomes {
  import opened Wrappers
  import opened Json
  import opened ResumableStore
  import opened DashboardMerge

  // ---- what an answer says about itself ----

  lemma FloorNames(value: Json, floor: Floor)
    ensures FloorText(Conventional) == "conventional" && FloorText(Conventional02) == "conventional-02"
    ensures FloorText(Cnc) == "cnc" && FloorText(Forging) == "forging"
    ensures CanonicalFloor(value) == Some(floor) <==> value == Str(FloorText(floor))
  {
    FloorReadsBack(floor);
  }

  // The floor is the one named outside, or else the one named in the payload.
  lemma FloorRead(o: Fields, floor: Floor)
    ensures FloorOf(o) == Some(floor) <==>
              || FieldOf(o, "productionFloorCode") == Str(FloorText(floor))
              || ((forall other: Floor :: FieldOf(o, "productionFloorCode") != Str(FloorText(other)))
                  && RecordAt(o, "dashboard").Some?
                  && FieldOf(RecordAt(o, "dashboard").value, "productionFloorCode") == Str(FloorText(floor)))
  {
    var own := FieldOf(o, "productionFloorCode");
    forall other: Floor ensures CanonicalFloor(own) == Some(other) <==> own == Str(FloorText(other)) {
      FloorNames(own, other);
    }
    if RecordAt(o, "dashboard").Some? {
      FloorNames(FieldOf(RecordAt(o, "dashboard").value, "productionFloorCode"), floor);
    }
    if CanonicalFloor(own).Some? { FloorNames(own, CanonicalFloor(own).value); }
    hide CanonicalFloor, FloorText;
  }

  // A version is an integer from 0 to the largest safe one.
  predicate Versioned(value: Json, version: nat) {
    ToInteger(value) == Some(version) && version <= 9007199254740991
  }

  lemma VersionRead(o: Fields, version: nat)
    ensures VersionOf(o) == Some(version) <==>
              || Versioned(FieldOf(o, "version"), version)
              || ((forall other: nat :: !Versioned(FieldOf(o, "version"), other))
                  && RecordAt(o, "dashboard").Some?
                  && Versioned(FieldOf(RecordAt(o, "dashboard").value, "readModelVersion"), version))
  {
    hide ToInteger;
    var own := FieldOf(o, "version");
    if CanonicalVersion(own).Some? { assert Versioned(own, CanonicalVersion(own).value); }
  }

  // Coverage is read outside, or else in the payload; only a record is one.
  lemma CoverageRead(normalise: Normalise, o: Fields)
    ensures FieldOf(o, "coverage").Obj? ==> CoverageOf(normalise, o) == Some(normalise(FieldOf(o, "coverage").fields))
    ensures !FieldOf(o, "coverage").Obj? && FieldOf(o, "coverage") != Null ==> CoverageOf(normalise, o) == None
    ensures FieldOf(o, "coverage") == Null ==>
              match RecordAt(o, "dashboard")
              case None => CoverageOf(normalise, o) == None
              case Some(payload) =>
                CoverageOf(normalise, o)
                == match FieldOf(payload, "sourceCoverage") case Obj(fields) => Some(normalise(fields)) case _ => None
  {
  }

  // ---- which answers are turned away ----

  // The state held is of the floor and shows it.
  predicate Retains(held: Fields, floor: Floor) {
    RecordAt(held, "dashboard").Some? && FloorOf(held) == Some(floor)
  }

  lemma WrongFloorExactly(normalise: Normalise, current: Option<Fields>, next: Fields, floor: Floor)
    ensures Merge(normalise, current, next, floor) == Err(WrongFloor) <==> FloorOf(next) != Some(floor)
  {
    hide FloorOf, VersionOf, CoverageOf, CanonicalFloor, CanonicalVersion, PatchedState, FullState;
  }

  // An answer that nothing changed needs the very version of the floor held.
  lemma UnchangedOutcomes(normalise: Normalise, current: Option<Fields>, next: Fields, floor: Floor)
    requires FloorOf(next) == Some(floor) && FieldOf(next, "notModified") == Bool(true)
    ensures var r := Merge(normalise, current, next, floor);
            if current.Some? && Retains(current.value, floor)
               && VersionOf(next).Some? && VersionOf(next) == VersionOf(current.value) then
              && r.Ok? && FieldOf(r.value, "dashboard") == FieldOf(current.value, "dashboard")
              && FieldOf(r.value, "version") == Num(VersionOf(next).value)
              && FieldOf(r.value, "productionFloorCode") == Str(FloorText(floor))
              && FieldOf(r.value, "coverage") == CoverageJson(CoverageOf(normalise, current.value))
              && forall name: string ::
                   name !in {"dashboard", "version", "productionFloorCode", "coverage"} ==>
                     FieldOf(r.value, name) == (if name in next then next[name] else FieldOf(current.value, name))
            else r == Err(NotRetained)
  {
    hide FloorOf, VersionOf, CoverageOf, CanonicalFloor, CanonicalVersion, PatchedState, FullState, FloorText,
      CoverageJson;
  }

  // A patch needs the same version of the floor held; it lays the control state over the one held.
  lemma PatchOutcomes(normalise: Normalise, current: Option<Fields>, next: Fields, floor: Floor)
    requires FloorOf(next) == Some(floor) && FieldOf(next, "notModified") != Bool(true)
    requires RecordAt(next, "patch").Some?
    ensures var r, held := Merge(normalise, current, next, floor), OrEmpty(current);
            if Retains(held, floor) && VersionOf(next) == VersionOf(held) then
              && r.Ok? && "patch" !in r.value
              && FieldOf(r.value, "coverage") == CoverageJson(CoverageOf(normalise, held))
              && RecordAt(r.value, "dashboard").Some?
              && var before, after := RecordAt(held, "dashboard").value, RecordAt(r.value, "dashboard").value;
                 && RecordAt(after, "productionControl")
                    == Some(OrEmpty(RecordAt(before, "productionControl"))
                         + OrEmpty(RecordAt(RecordAt(next, "patch").value, "productionControl")))
                 && (forall name: string ::
                       name != "productionControl" ==> FieldOf(after, name) == FieldOf(before, name))
                 && forall name: string ::
                      name !in {"dashboard", "coverage", "patch"} ==>
                        FieldOf(r.value, name) == if name in next then next[name] else FieldOf(held, name)
            else r == Err(PatchNotRetained)
  {
    hide FloorOf, VersionOf, CoverageOf, CanonicalFloor, CanonicalVersion, FullState, FloorText, CoverageJson;
  }

  // A full answer needs a payload of the floor and of its own version, and none older than the one held.
  lemma FullOutcomes(normalise: Normalise, current: Option<Fields>, next: Fields, floor: Floor)
    requires FloorOf(next) == Some(floor) && FieldOf(next, "notModified") != Bool(true)
    requires RecordAt(next, "patch") == None
    ensures var r, held := Merge(normalise, current, next, floor), OrEmpty(current);
            match RecordAt(next, "dashboard")
            case None => r == Err(NoPayload)
            case Some(payload) =>
              if "productionFloorSnapshots" in payload then r == Err(AllFloors)
              else if FieldOf(payload, "productionFloorCode") != Str(FloorText(floor)) then r == Err(PayloadFloor)
              else if VersionOf(next).Some? && !Versioned(FieldOf(payload, "readModelVersion"), VersionOf(next).value)
                then r == Err(VersionMismatch)
              else if FloorOf(held) == Some(floor) && VersionOf(held).Some? && VersionOf(next).Some?
                && VersionOf(next).value < VersionOf(held).value then r == Err(Regressive)
              else r.Ok?
  {
    hide FloorOf, VersionOf, CoverageOf, CanonicalFloor, FullState, FloorText, CoverageJson, ToInteger;
    if RecordAt(next, "dashboard").Some? {
      FloorNames(FieldOf(RecordAt(next, "dashboard").value, "productionFloorCode"), floor);
    }
  }

  lemma FullPayload(payload: Fields, coverage: Option<Fields>, floor: Floor, version: Option<nat>)
    ensures var after := FullDashboard(payload, coverage, floor, version);
            && FieldOf(after, "productionFloorCode") == Str(FloorText(floor))
            && FieldOf(after, "readModelVersion")
               == (if version.Some? then Num(version.value) else FieldOf(payload, "readModelVersion"))
            && FieldOf(after, "sourceCoverage")
               == (if coverage.Some? then Obj(coverage.value) else FieldOf(payload, "sourceCoverage"))
            && forall name: string ::
                 name !in {"productionFloorCode", "readModelVersion", "sourceCoverage"} ==>
                   FieldOf(after, name) == FieldOf(payload, name)
  {
    hide FloorText;
  }

  lemma FullFields(next: Fields, payload: Fields, coverage: Option<Fields>, floor: Floor, version: Option<nat>)
    ensures var r := FullState(next, payload, coverage, floor, version);
            && RecordAt(r, "dashboard") == Some(FullDashboard(payload, coverage, floor, version))
            && FieldOf(r, "productionFloorCode") == Str(FloorText(floor))
            && FieldOf(r, "version") == (if version.Some? then Num(version.value) else Null)
            && FieldOf(r, "coverage") == (if coverage.Some? then Obj(coverage.value) else Null)
            && forall name: string ::
                 name !in {"dashboard", "version", "productionFloorCode", "coverage"} ==>
                   FieldOf(r, name) == FieldOf(next, name)
  {
    hide FloorText, FullDashboard;
  }

  // What a full answer that is taken leaves: its payload with the coverage, floor and version it has outside.
  lemma FullShows(normalise: Normalise, current: Option<Fields>, next: Fields, floor: Floor)
    requires FieldOf(next, "notModified") != Bool(true) && RecordAt(next, "patch") == None
    requires Merge(normalise, current, next, floor).Ok?
    ensures var r, payload, version, coverage :=
              Merge(normalise, current, next, floor).value, OrEmpty(RecordAt(next, "dashboard")), VersionOf(next),
              CoverageOf(normalise, next);
            && RecordAt(r, "dashboard").Some?
            && FieldOf(r, "productionFloorCode") == Str(FloorText(floor))
            && FieldOf(r, "version") == (if version.Some? then Num(version.value) else Null)
            && FieldOf(r, "coverage") == (if coverage.Some? then Obj(coverage.value) else Null)
            && (forall name: string ::
                  name !in {"dashboard", "version", "productionFloorCode", "coverage"} ==>
                    FieldOf(r, name) == FieldOf(next, name))
            && var after := RecordAt(r, "dashboard").value;
               && FieldOf(after, "productionFloorCode") == Str(FloorText(floor))
               && FieldOf(after, "readModelVersion")
                  == (if version.Some? then Num(version.value) else FieldOf(payload, "readModelVersion"))
               && FieldOf(after, "sourceCoverage")
                  == (if coverage.Some? then Obj(coverage.value) else FieldOf(payload, "sourceCoverage"))
               && forall name: string ::
                    name !in {"productionFloorCode", "readModelVersion", "sourceCoverage"} ==>
                      FieldOf(after, name) == FieldOf(payload, name)
  {
    var payload, coverage := RecordAt(next, "dashboard").value, CoverageOf(normalise, next);
    FullFields(next, payload, coverage, floor, VersionOf(next));
    FullPayload(payload, coverage, floor, VersionOf(next));
    hide FloorOf, VersionOf, CoverageOf, CanonicalFloor, CanonicalVersion, FloorText, ToInteger, FullState,
      FullDashboard;
  }
}

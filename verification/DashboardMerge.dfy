// How a dashboard response is merged with the state the client retains.
module DashboardMerge {
  import opened Wrappers
  import opened Json
  import opened ResumableStore

  datatype MergeError =
    | WrongFloor | NotRetained | PatchNotRetained | NoPayload | AllFloors | PayloadFloor | VersionMismatch | Regressive

  function MessageOf(e: MergeError): string {
    match e
    case WrongFloor => "Dashboard state did not match the requested floor."
    case NotRetained => "An unchanged dashboard response requires the exact retained same-floor payload."
    case PatchNotRetained => "Live status requires the retained published floor version."
    case NoPayload => "A changed dashboard response requires a floor payload."
    case AllFloors => "A changed dashboard response cannot contain all floor snapshots."
    case PayloadFloor => "Dashboard payload did not match the requested floor."
    case VersionMismatch => "Dashboard response version metadata did not match its payload."
    case Regressive => "Dashboard response contained a regressive version."
  }

  // Normalising a coverage record belongs to another package.
  type Normalise = Fields -> Fields

  function FloorOf(o: Fields): Option<Floor> {
    OrElse(CanonicalFloor(FieldOf(o, "productionFloorCode")),
      match RecordAt(o, "dashboard")
      case Some(d) => CanonicalFloor(FieldOf(d, "productionFloorCode"))
      case None => None)
  }

  function VersionOf(o: Fields): Option<nat> {
    OrElse(CanonicalVersion(FieldOf(o, "version")),
      match RecordAt(o, "dashboard") case Some(d) => CanonicalVersion(FieldOf(d, "readModelVersion")) case None => None)
  }

  // `dashboardCoverageFromState`: the state's own coverage, or else the one inside its dashboard.
  function CoverageOf(normalise: Normalise, o: Fields): Option<Fields> {
    var inner := match RecordAt(o, "dashboard") case Some(d) => FieldOf(d, "sourceCoverage") case None => Null;
    match (if FieldOf(o, "coverage") != Null then FieldOf(o, "coverage") else inner)
    case Obj(fields) => Some(normalise(fields))
    case _ => None
  }

  function CoverageJson(c: Option<Fields>): Json {
    match c case Some(fields) => Obj(fields) case None => Null
  }

  function OrEmpty(o: Option<Fields>): Fields {
    match o case Some(fields) => fields case None => map[]
  }

  // The retained state with its production control patched.
  function PatchedState(retained: Fields, next: Fields, dashboard: Fields, control: Fields,
      coverage: Option<Fields>): Fields {
    ((retained + next) - {"patch"}) + map[
      "coverage" := CoverageJson(coverage),
      "dashboard" := Obj(
        dashboard["productionControl" := Obj(OrEmpty(RecordAt(dashboard, "productionControl")) + control)])]
  }

  // A payload in the client's form.
  function FullDashboard(payload: Fields, coverage: Option<Fields>, floor: Floor, version: Option<nat>): Fields {
    payload
    + (match coverage case Some(fields) => map["sourceCoverage" := Obj(fields)] case None => map[])
    + map["productionFloorCode" := Str(FloorText(floor))]
    + (match version case Some(v) => map["readModelVersion" := Num(v)] case None => map[])
  }

  // A full response in the client's form.
  function FullState(next: Fields, payload: Fields, coverage: Option<Fields>, floor: Floor,
      version: Option<nat>): Fields {
    next + map[
      "coverage" := CoverageJson(coverage),
      "dashboard" := Obj(FullDashboard(payload, coverage, floor, version)),
      "productionFloorCode" := Str(FloorText(floor)),
      "version" := match version case Some(v) => Num(v) case None => Null]
  }

  // `mergeDashboardStateResponse`
  function Merge(normalise: Normalise, current: Option<Fields>, next: Fields, floor: Floor)
      : Result<Fields, MergeError> {
    var retained := OrEmpty(current);
    var nextDashboard := RecordAt(next, "dashboard");
    var currentDashboard := RecordAt(retained, "dashboard");
    if FloorOf(next) != Some(floor) then Err(WrongFloor)
    else if FieldOf(next, "notModified") == Bool(true) then
      if current == None || currentDashboard == None || FloorOf(retained) != Some(floor)
         || VersionOf(next) == None || VersionOf(next) != VersionOf(retained) then Err(NotRetained)
      else
        Ok(retained + next + map[
          "coverage" := CoverageJson(CoverageOf(normalise, retained)),
          "dashboard" := Obj(currentDashboard.value),
          "productionFloorCode" := Str(FloorText(floor)),
          "version" := Num(VersionOf(next).value)])
    else if RecordAt(next, "patch").Some? then
      if currentDashboard == None || FloorOf(retained) != Some(floor) || VersionOf(next) != VersionOf(retained) then
        Err(PatchNotRetained)
      else
        Ok(PatchedState(retained, next, currentDashboard.value,
          OrEmpty(RecordAt(RecordAt(next, "patch").value, "productionControl")),
                        CoverageOf(normalise, retained)))
    else if nextDashboard == None then Err(NoPayload)
    else
      var payload := nextDashboard.value;
      var nextVersion, currentVersion := VersionOf(next), VersionOf(retained);
      if "productionFloorSnapshots" in payload then Err(AllFloors)
      else if CanonicalFloor(FieldOf(payload, "productionFloorCode")) != Some(floor) then Err(PayloadFloor)
      else if nextVersion.Some? && CanonicalVersion(FieldOf(payload, "readModelVersion")) != nextVersion
        then Err(VersionMismatch)
      else if FloorOf(retained) == Some(floor) && currentVersion.Some? && nextVersion.Some?
        && nextVersion.value < currentVersion.value then
        Err(Regressive)
      else
        Ok(FullState(next, payload, CoverageOf(normalise, next), floor, nextVersion))
  }

  // ---- a server that publishes one payload per floor and version ----

  // The dashboard records a server publishes, by floor and version, and how their coverage is normalised.
  datatype Published = Published(payload: (Floor, nat) -> Fields, normalise: Normalise)

  ghost predicate OnePerVersion(published: Published) {
    forall floor, version: nat {:trigger published.payload(floor, version)} :: version <= MAX_SAFE ==>
      var payload := published.payload(floor, version);
      && FieldOf(payload, "productionFloorCode") == Str(FloorText(floor))
      && FieldOf(payload, "readModelVersion") == Num(version)
      && "productionFloorSnapshots" !in payload
  }

  // A response such a server may give to a request that says which version it knows, if any: in full, unchanged
  // or as a patch of that version, or without a version while nothing is published yet.
  ghost predicate HonestResponse(published: Published, floor: Floor, known: Option<nat>, body: Fields) {
    && FieldOf(body, "productionFloorCode") == Str(FloorText(floor))
    && if FieldOf(body, "notModified") == Bool(true) || RecordAt(body, "patch").Some? then
         known.Some? && FieldOf(body, "version") == Num(known.value)
       else
         VersionOf(body) == None || exists version: nat :: FullAnswer(published, floor, version, body)
  }

  // The payload of a version in full; the coverage beside it is the payload's own.
  ghost predicate FullAnswer(published: Published, floor: Floor, version: nat, body: Fields) {
    var payload := published.payload(floor, version);
    && version <= MAX_SAFE && FieldOf(body, "version") == Num(version)
    && FieldOf(body, "dashboard") == Obj(payload)
    && (FieldOf(body, "coverage") == Null || FieldOf(body, "coverage") == FieldOf(payload, "sourceCoverage"))
  }

  // How the client keeps a field of a payload: as it is, but for the coverage, which it normalises.
  function Kept(normalise: Normalise, name: string, value: Json): Json {
    if name == "sourceCoverage" && value.Obj? then Obj(normalise(value.fields)) else value
  }

  // A dashboard record that agrees with a payload in every field but the live control state.
  ghost predicate SamePayload(normalise: Normalise, dashboard: Fields, payload: Fields) {
    forall name: string {:trigger name in dashboard} {:trigger name in payload} :: name != "productionControl" ==>
      (name in dashboard <==> name in payload)
        && (name in dashboard ==> dashboard[name] == Kept(normalise, name, payload[name]))
  }

  // Retained data shows the published payload of one floor and version.
  ghost predicate Coherent(published: Published, floor: Floor, version: nat, data: Fields) {
    && version <= MAX_SAFE
    && FieldOf(data, "productionFloorCode") == Str(FloorText(floor))
    && FieldOf(data, "version") == Num(version)
    && RecordAt(data, "dashboard").Some?
    && SamePayload(published.normalise, RecordAt(data, "dashboard").value, published.payload(floor, version))
  }

  lemma CoherentReads(published: Published, floor: Floor, version: nat, data: Fields)
    requires Coherent(published, floor, version, data)
    ensures FloorOf(data) == Some(floor) && VersionOf(data) == Some(version) && version <= MAX_SAFE
  {
    FloorReadsBack(floor);
  }

  lemma HonestReads(published: Published, floor: Floor, known: Option<nat>, body: Fields)
    requires HonestResponse(published, floor, known, body) && (known.Some? ==> known.value <= MAX_SAFE)
    ensures FloorOf(body) == Some(floor)
    ensures VersionOf(body).Some? ==>
              VersionOf(body).value <= MAX_SAFE && FieldOf(body, "version") == Num(VersionOf(body).value)
    ensures FieldOf(body, "notModified") == Bool(true) || RecordAt(body, "patch").Some? ==> VersionOf(body) == known
  {
    FloorReadsBack(floor);
  }

  // The retained state answers a request that says it knows this version.
  ghost predicate Retains(published: Published, floor: Floor, known: Option<nat>, current: Option<Fields>) {
    known.Some? ==> known.value <= MAX_SAFE && current.Some? && Coherent(published, floor, known.value, current.value)
  }

  lemma UnchangedIsCoherent(published: Published, floor: Floor, known: Option<nat>, current: Option<Fields>,
      body: Fields)
    requires HonestResponse(published, floor, known, body) && Retains(published, floor, known, current)
    requires FieldOf(body, "notModified") == Bool(true)
    ensures Merge(published.normalise, current, body, floor).Ok? && VersionOf(body) == known
    ensures var data := Merge(published.normalise, current, body, floor).value;
            && Coherent(published, floor, known.value, data)
            && FieldOf(data, "dashboard") == FieldOf(current.value, "dashboard")
  {
    HonestReads(published, floor, known, body);
    CoherentReads(published, floor, known.value, current.value);
    hide FloorOf, VersionOf, CoverageOf, SamePayload;
  }

  // The live control state of the data held.
  function ControlOf(data: Fields): Option<Fields> {
    RecordAt(OrEmpty(RecordAt(data, "dashboard")), "productionControl")
  }

  lemma PatchedStateIsCoherent(published: Published, floor: Floor, version: nat, retained: Fields, next: Fields,
      control: Fields, coverage: Option<Fields>)
    requires Coherent(published, floor, version, retained)
    requires FieldOf(next, "productionFloorCode") == Str(FloorText(floor)) && FieldOf(next, "version") == Num(version)
    ensures var dashboard := RecordAt(retained, "dashboard").value;
            var data := PatchedState(retained, next, dashboard, control, coverage);
            && Coherent(published, floor, version, data)
            && ControlOf(data) == Some(OrEmpty(RecordAt(dashboard, "productionControl")) + control)
  {
    hide FloorText;
  }

  lemma PatchIsCoherent(published: Published, floor: Floor, known: Option<nat>, current: Option<Fields>, body: Fields)
    requires HonestResponse(published, floor, known, body) && Retains(published, floor, known, current)
    requires FieldOf(body, "notModified") != Bool(true) && RecordAt(body, "patch").Some?
    ensures Merge(published.normalise, current, body, floor).Ok? && VersionOf(body) == known
    ensures var data := Merge(published.normalise, current, body, floor).value;
            && Coherent(published, floor, known.value, data)
            && ControlOf(data) == Some(OrEmpty(ControlOf(current.value))
                                       + OrEmpty(RecordAt(RecordAt(body, "patch").value, "productionControl")))
  {
    HonestReads(published, floor, known, body);
    CoherentReads(published, floor, known.value, current.value);
    PatchedStateIsCoherent(published, floor, known.value, current.value, body,
      OrEmpty(RecordAt(RecordAt(body, "patch").value, "productionControl")),
        CoverageOf(published.normalise, current.value));
    hide FloorOf, VersionOf, CoverageOf, PatchedState, FloorText, SamePayload;
  }

  // The coverage of a payload in normal form.
  function PublishedCoverage(normalise: Normalise, payload: Fields): Option<Fields> {
    match FieldOf(payload, "sourceCoverage") case Obj(fields) => Some(normalise(fields)) case _ => None
  }

  lemma FullDashboardIsSame(published: Published, floor: Floor, version: nat)
    requires OnePerVersion(published) && version <= MAX_SAFE
    ensures var payload := published.payload(floor, version);
            var dashboard := FullDashboard(payload, PublishedCoverage(published.normalise, payload), floor,
              Some(version));
            && SamePayload(published.normalise, dashboard, payload)
            && FieldOf(dashboard, "productionControl") == FieldOf(payload, "productionControl")
  {
    var payload := published.payload(floor, version);
    assert FieldOf(payload, "readModelVersion") == Num(version);
    hide FloorText, OnePerVersion;
  }

  lemma FullStateIsCoherent(published: Published, next: Fields, floor: Floor, version: nat)
    requires OnePerVersion(published) && version <= MAX_SAFE
    ensures var payload := published.payload(floor, version);
            var data := FullState(next, payload, PublishedCoverage(published.normalise, payload), floor, Some(version));
            && Coherent(published, floor, version, data)
            && FieldOf(RecordAt(data, "dashboard").value, "productionControl") == FieldOf(payload, "productionControl")
  {
    hide FloorText, OnePerVersion, SamePayload, FullDashboard, PublishedCoverage;
    FullDashboardIsSame(published, floor, version);
  }

  lemma FullCoverage(published: Published, floor: Floor, version: nat, body: Fields)
    requires FullAnswer(published, floor, version, body)
    ensures CoverageOf(published.normalise, body)
            == PublishedCoverage(published.normalise, published.payload(floor, version))
  {
  }

  // An honest answer in full, at the version the server publishes it for.
  lemma FullIsCoherent(published: Published, floor: Floor, version: nat, current: Option<Fields>, body: Fields)
    requires OnePerVersion(published) && FullAnswer(published, floor, version, body)
    requires FieldOf(body, "productionFloorCode") == Str(FloorText(floor))
    requires FieldOf(body, "notModified") != Bool(true) && RecordAt(body, "patch") == None
    ensures VersionOf(body) == Some(version)
    ensures var r := Merge(published.normalise, current, body, floor);
            && (r.Ok? ==>
                  && Coherent(published, floor, version, r.value)
                  && FieldOf(RecordAt(r.value, "dashboard").value, "productionControl")
                     == FieldOf(published.payload(floor, version), "productionControl"))
            && (r.Err? <==> Holds(current, floor) && version < VersionOf(current.value).value)
  {
    HonestReads(published, floor, None, body);
    var payload := published.payload(floor, version);
    assert FieldOf(payload, "readModelVersion") == Num(version);
    FloorReadsBack(floor);
    NothingIsNowhere();
    FullCoverage(published, floor, version, body);
    FullStateIsCoherent(published, body, floor, version);
    assert "productionFloorSnapshots" !in payload;
    hide FloorOf, VersionOf, CoverageOf, PublishedCoverage, FullState, Coherent, OnePerVersion, HonestResponse,
      FloorText, CanonicalFloor;
  }

  lemma NothingIsNowhere()
    ensures FloorOf(map[]) == None && VersionOf(map[]) == None
  {
  }

  // The state retained is of the floor and has a version.
  predicate Holds(current: Option<Fields>, floor: Floor) {
    current.Some? && FloorOf(current.value) == Some(floor) && VersionOf(current.value).Some?
  }

  // Merging an honest response leaves coherent data, at the version of the response; only a response older than the
  // state retained, or without a version, may be turned away.
  lemma MergeIsCoherent(published: Published, floor: Floor, known: Option<nat>, current: Option<Fields>, body: Fields)
    requires OnePerVersion(published) && HonestResponse(published, floor, known, body)
    requires Retains(published, floor, known, current)
    requires VersionOf(body).Some?
    ensures var r := Merge(published.normalise, current, body, floor);
            && (r.Ok? ==> Coherent(published, floor, VersionOf(body).value, r.value))
            && (r.Err? <==> Holds(current, floor) && VersionOf(body).value < VersionOf(current.value).value)
  {
    hide Merge, VersionOf, FloorOf, OnePerVersion, FullAnswer;
    if FieldOf(body, "notModified") == Bool(true) {
      UnchangedIsCoherent(published, floor, known, current, body);
      CoherentReads(published, floor, known.value, current.value);
    } else if RecordAt(body, "patch").Some? {
      PatchIsCoherent(published, floor, known, current, body);
      CoherentReads(published, floor, known.value, current.value);
    } else {
      var version: nat :| FullAnswer(published, floor, version, body);
      FullIsCoherent(published, floor, version, current, body);
    }
  }

  lemma UnversionedDashboard(payload: Fields, coverage: Option<Fields>, floor: Floor)
    ensures FieldOf(FullDashboard(payload, coverage, floor, None), "readModelVersion")
            == FieldOf(payload, "readModelVersion")
  {
    hide FloorText;
  }

  lemma UnversionedState(next: Fields, payload: Fields, coverage: Option<Fields>, floor: Floor)
    requires RecordAt(next, "dashboard") == Some(payload) && VersionOf(next) == None
    ensures VersionOf(FullState(next, payload, coverage, floor, None)) == None
  {
    UnversionedDashboard(payload, coverage, floor);
    hide FloorText, FullDashboard, CanonicalVersion;
    assert CanonicalVersion(Null) == None by { NullIsNoVersion(); }
  }

  lemma NullIsNoVersion()
    ensures CanonicalVersion(Null) == None
  {
  }

  // A response without a version never merges into data with one.
  lemma UnversionedStaysSo(normalise: Normalise, current: Option<Fields>, body: Fields, floor: Floor)
    requires VersionOf(body) == None && FieldOf(body, "notModified") != Bool(true) && RecordAt(body, "patch") == None
    ensures var r := Merge(normalise, current, body, floor); r.Ok? ==> VersionOf(r.value) == None
  {
    hide FloorOf, VersionOf, CoverageOf, FullState, FloorText, CanonicalFloor;
    if RecordAt(body, "dashboard").Some? {
      UnversionedState(body, RecordAt(body, "dashboard").value, CoverageOf(normalise, body), floor);
    }
  }
}

// JSON values as the dashboard client reads them. A missing field and `undefined` are the same.
module Json {
  import opened Wrappers
  import opened Text
  import opened Calendar
  import opened ResumableStore

  datatype Json = Null | Bool(b: bool) | Num(n: int) | Str(s: string) | Arr(items: seq<Json>) | Obj(fields: Fields)

  type Fields = map<string, Json>

  function FieldOf(o: Fields, name: string): Json {
    if name in o then o[name] else Null
  }

  // A nested record, none when the field is absent or no record.
  function RecordAt(o: Fields, name: string): Option<Fields> {
    match FieldOf(o, name) case Obj(fields) => Some(fields) case _ => None
  }

  // `Number(value)` where it is an integer; other spellings and structures give none.
  function ToInteger(value: Json): Option<int> {
    match value
    case Num(n) => Some(n)
    case Bool(b) => Some(if b then 1 else 0)
    case Str(s) =>
      var t := Trim(s);
      if t == "" then Some(0) else if Digits(t) then Some(DecimalValue(t)) else None
    case _ => None
  }

  // A version is a non-negative safe integer.
  function CanonicalVersion(value: Json): Option<nat> {
    match ToInteger(value)
    case Some(n) => if 0 <= n <= MAX_SAFE then Some(n) else None
    case None => None
  }

  datatype Floor = Conventional | Conventional02 | Cnc | Forging

  function FloorText(floor: Floor): string {
    match floor
    case Conventional => "conventional"
    case Conventional02 => "conventional-02"
    case Cnc => "cnc"
    case Forging => "forging"
  }

  function CanonicalFloor(value: Json): Option<Floor> {
    match value
    case Str(s) =>
      if s == "conventional" then Some(Conventional)
      else if s == "conventional-02" then Some(Conventional02)
      else if s == "cnc" then Some(Cnc)
      else if s == "forging" then Some(Forging)
      else None
    case _ => None
  }

  function OrElse<T>(a: Option<T>, b: Option<T>): Option<T> {
    if a.Some? then a else b
  }

  lemma FloorReadsBack(floor: Floor)
    ensures CanonicalFloor(Str(FloorText(floor))) == Some(floor)
  {
  }
}

// What a native form asks to upload: which of its files are uploaded, and the intent of each.
module UploadForm {
  import opened Wrappers
  import opened Calendar
  import opened Json
  import opened ResumableStore
  import UploadIntent

  type Intent = UploadIntent.Intent

  // A selected file; two selections of equal bytes are still two files.
  class ClientFile {
    const bytes: Bytes

    constructor (bytes: Bytes)
      ensures this.bytes == bytes
    {
      this.bytes := bytes;
    }
  }

  datatype Value = Typed(text: string) | Chosen(file: ClientFile)

  datatype Entry = Entry(field: string, value: Value)

  // What is registered for a file field. The names of the fields that select an item type or a supplier, if any.
  datatype Registration = Registration(
    field: string, idField: Option<string>, intent: Intent,
    itemTypeFrom: Option<string>, supplierFrom: Option<string>, bomLines: bool)

  // ---- the rows of a bill of materials ----

  const BOM_PREFIX := "bom_line_"

  predicate BomFile(base: string) {
    base == "cad_file" || base == "customer_marked_file" || base == "internal_drawing_file"
  }

  predicate LineDigits(s: string) {
    s != "" && Digits(s) && s[0] != '0'
  }

  // The number of the row that a field added for a file field belongs to.
  function BomRow(field: string, base: string): Option<nat> {
    if !BomFile(base) || |field| < 10 + |base| then None
    else if field[..9] != BOM_PREFIX || field[|field| - |base|..] != base then None
    else
      var digits := field[9..|field| - |base| - 1];
      if field[|field| - |base| - 1] == '_' && LineDigits(digits) then Some(DecimalValue(digits)) else None
  }

  function RowField(row: nat, base: string): string {
    BOM_PREFIX + Decimal(row) + "_" + base
  }

  lemma {:induction false} DecimalHasNoZero(n: nat)
    requires n > 0
    ensures LineDigits(Decimal(n))
  {
    if n >= 10 { DecimalHasNoZero(n / 10); }
  }

  lemma OneDigit(s: string)
    requires |s| == 1 && LineDigits(s)
    ensures DecimalValue(s) > 0 && Decimal(DecimalValue(s)) == s
  {
    assert s[..0] == "" && DecimalValue("") == 0;
    assert DecimalValue(s) == DigitValue(s[0]);
    assert Digit(DigitValue(s[0])) == s[0] != '0';
  }

  lemma {:induction false} DigitsReadBack(s: string)
    requires LineDigits(s)
    ensures DecimalValue(s) > 0 && Decimal(DecimalValue(s)) == s
  {
    var front, last := s[..|s| - 1], DigitValue(s[|s| - 1]);
    assert s == front + [Digit(last)];
    if front == "" {
      OneDigit(s);
    } else {
      assert LineDigits(front);
      DigitsReadBack(front);
      hide LineDigits;
      LastDigit(DecimalValue(front), last);
    }
  }

  lemma LastDigit(n: nat, last: int)
    requires n > 0 && 0 <= last <= 9
    ensures (10 * n + last) / 10 == n && (10 * n + last) % 10 == last && 10 * n + last >= 10
  {
  }

  lemma PartsOf(a: string, b: string, c: string, d: string)
    ensures var s := a + b + c + d;
            && s[..|a|] == a && s[|a|..|a| + |b|] == b
            && s[|a| + |b|..|a| + |b| + |c|] == c && s[|a| + |b| + |c|..] == d
  {
  }

  lemma RowReads(row: nat, base: string)
    requires BomFile(base) && row > 0
    ensures BomRow(RowField(row, base), base) == Some(row)
  {
    hide Decimal, DecimalValue, LineDigits;
    DecimalHasNoZero(row);
    DecimalRoundTrip(row);
    PartsOf(BOM_PREFIX, Decimal(row), "_", base);
    var field := RowField(row, base);
    assert |field| == 9 + |Decimal(row)| + 1 + |base|;
    assert field[9 + |Decimal(row)|..9 + |Decimal(row)| + 1][0] == '_';
  }

  lemma RowIsNamed(field: string, base: string)
    requires BomRow(field, base).Some?
    ensures BomRow(field, base).value > 0 && field == RowField(BomRow(field, base).value, base)
  {
    var digits := field[9..|field| - |base| - 1];
    DigitsReadBack(digits);
    assert field == field[..9] + digits + [field[|field| - |base| - 1]] + field[|field| - |base|..];
  }

  // A field added for a file field belongs to a row exactly when it is the one that is named after it.
  lemma RowsTell(field: string, base: string, row: nat)
    requires BomFile(base)
    ensures BomRow(field, base) == Some(row) <==> row > 0 && field == RowField(row, base)
  {
    hide BomRow, RowField, BomFile;
    if BomRow(field, base).Some? { RowIsNamed(field, base); }
    if row > 0 { RowReads(row, base); }
  }

  // ---- the registration of a field ----

  predicate AddsRow(r: Registration, field: string) {
    r.bomLines && r.intent.kind == UploadIntent.Put(UploadIntent.DESIGN_ATTACHMENT) && BomRow(field, r.field).Some?
  }

  function RowRegistration(r: Registration, field: string): Registration
    requires AddsRow(r, field)
  {
    Registration(field, None, r.intent.(bomLineNumber := Some(Num(BomRow(field, r.field).value))), None, None, false)
  }

  // The last registration of a field.
  function Named(registrations: seq<Registration>, field: string): Option<Registration> {
    if registrations == [] then None
    else
      var last := registrations[|registrations| - 1];
      if last.field == field then Some(last) else Named(registrations[..|registrations| - 1], field)
  }

  // The last registration that adds rows for it.
  function AddedRow(registrations: seq<Registration>, field: string): Option<Registration> {
    if registrations == [] then None
    else
      var last := registrations[|registrations| - 1];
      if AddsRow(last, field) then Some(RowRegistration(last, field))
      else AddedRow(registrations[..|registrations| - 1], field)
  }

  // The registration of a field of the form: a row goes before a registration by name.
  function Resolved(registrations: seq<Registration>, field: string): Option<Registration> {
    match AddedRow(registrations, field)
    case Some(r) => Some(r)
    case None => Named(registrations, field)
  }

  // ---- the intent of a file ----

  // The first value of a field; a file is no text, and a field that is not there is null.
  function FirstValue(data: seq<Entry>, field: string): Json {
    if data == [] then Null
    else if data[0].field != field then FirstValue(data[1..], field)
    else match data[0].value case Typed(text) => Str(text) case Chosen(_) => Obj(map[])
  }

  predicate Uploads(e: Entry, field: string) {
    e.field == field && e.value.Chosen? && e.value.file.bytes != []
  }

  // How many files a field holds.
  function Count(data: seq<Entry>, field: string): nat {
    if data == [] then 0
    else Count(data[..|data| - 1], field) + if Uploads(data[|data| - 1], field) then 1 else 0
  }

  predicate Numbered(i: Intent) {
    i.kind == UploadIntent.Put(UploadIntent.REQUEST_PHOTO) || i.kind == UploadIntent.Put(UploadIntent.WORK_PHOTO)
  }

  // The record given to the parser for the file at this position among the files of its field.
  function Asked(data: seq<Entry>, r: Registration, position: nat): Intent {
    var i1 := if r.itemTypeFrom.None? then r.intent
              else r.intent.(itemTypeId := Some(FirstValue(data, r.itemTypeFrom.value)));
    var i2 := if r.supplierFrom.None? then i1 else i1.(supplierId := Some(FirstValue(data, r.supplierFrom.value)));
    if Numbered(r.intent) then i2.(index := Some(Num(position))) else i2
  }

  // What becomes of an entry: it stays, an empty file control is left out, or the file is uploaded for an intent, none
  // where the parser throws.
  datatype Item = Kept(entry: Entry) | Omitted | Sends(idField: string, file: ClientFile, intent: Option<Intent>)

  function IdField(r: Registration, field: string): string {
    r.idField.GetOr(field + "_upload_id")
  }

  function ItemAt(data: seq<Entry>, registrations: seq<Registration>, i: nat): Item
    requires i < |data|
  {
    match Resolved(registrations, data[i].field)
    case None => Kept(data[i])
    case Some(r) =>
      match data[i].value
      case Typed(_) => Kept(data[i])
      case Chosen(file) =>
        if file.bytes == [] then Omitted
        else
          var position := Count(data[..i + 1], data[i].field);
          Sends(IdField(r, data[i].field), file, UploadIntent.Parse(Asked(data, r, position)))
  }

  // ---- the registrations and records, field by field ----

  lemma BomFiles(base: string)
    ensures BomFile(base) <==> base in {"cad_file", "customer_marked_file", "internal_drawing_file"}
  {
  }

  lemma AddsExactly(r: Registration, field: string)
    ensures AddsRow(r, field) <==>
              && r.bomLines && r.intent.kind == Some(Str("commercial-design-attachment"))
              && BomRow(field, r.field).Some?
  {
  }

  // The field is the row's own for this file.
  predicate NamesRow(field: string, base: string, row: nat) {
    row > 0 && field == "bom_line_" + Decimal(row) + "_" + base
  }

  lemma NamesRowExactly(field: string, base: string, row: nat)
    ensures NamesRow(field, base, row) <==> row > 0 && field == RowField(row, base)
  {
    hide Decimal;
  }

  lemma RowNames(field: string, base: string)
    ensures BomRow(field, base).Some? <==> BomFile(base) && exists row: nat :: NamesRow(field, base, row)
  {
    hide BomRow, RowField, BomFile, NamesRow;
    if BomRow(field, base).Some? {
      if !BomFile(base) { NoRow(field, base); }
      var row := BomRow(field, base).value;
      RowsTell(field, base, row);
      NamesRowExactly(field, base, row);
    } else if BomFile(base) {
      forall row: nat ensures !NamesRow(field, base, row) {
        RowsTell(field, base, row);
        NamesRowExactly(field, base, row);
      }
    }
  }

  // Which fields a registration adds: the rows of its own file field, for a design attachment that asks for them.
  lemma RowsAdded(r: Registration, field: string)
    ensures AddsRow(r, field) <==>
              && r.bomLines && r.intent.kind == Some(Str("commercial-design-attachment"))
              && r.field in {"cad_file", "customer_marked_file", "internal_drawing_file"}
              && exists row: nat :: NamesRow(field, r.field, row)
  {
    hide AddsRow, BomRow, NamesRow, BomFile;
    AddsExactly(r, field);
    RowNames(field, r.field);
    BomFiles(r.field);
  }

  lemma NoRow(field: string, base: string)
    requires !BomFile(base)
    ensures BomRow(field, base) == None
  {
  }

  // The last registration by a name, or -1.
  lemma {:induction false} LastNamed(registrations: seq<Registration>, field: string) returns (k: int)
    ensures -1 <= k < |registrations| && forall m :: k < m < |registrations| ==> registrations[m].field != field
    ensures if k == -1 then Named(registrations, field) == None
            else registrations[k].field == field && Named(registrations, field) == Some(registrations[k])
  {
    k := |registrations| - 1;
    if registrations != [] && registrations[k].field != field {
      k := LastNamed(registrations[..k], field);
    }
  }

  // A field added for a row takes the last registration that adds it, with the number of the row in its intent.
  lemma {:induction false} LastAdded(registrations: seq<Registration>, field: string) returns (k: int)
    ensures -1 <= k < |registrations| && forall m :: k < m < |registrations| ==> !AddsRow(registrations[m], field)
    ensures if k == -1 then AddedRow(registrations, field) == None
            else
              && AddsRow(registrations[k], field) && BomRow(field, registrations[k].field).Some?
              && AddedRow(registrations, field)
                 == Some(Registration(field, None,
                      registrations[k].intent.(bomLineNumber := Some(Num(BomRow(field, registrations[k].field).value))),
                      None, None, false))
  {
    hide AddsRow, BomRow, RowRegistration;
    k := |registrations| - 1;
    if registrations != [] {
      if AddsRow(registrations[k], field) {
        AddedHere(registrations[k], field);
      } else {
        k := LastAdded(registrations[..k], field);
      }
    }
  }

  // A row goes before a registration by name.
  lemma RowsFirst(registrations: seq<Registration>, field: string)
    ensures (exists r <- registrations :: AddsRow(r, field)) ==>
              Resolved(registrations, field) == AddedRow(registrations, field) && AddedRow(registrations, field).Some?
    ensures (forall r <- registrations :: !AddsRow(r, field)) ==>
              Resolved(registrations, field) == Named(registrations, field)
  {
    var k := LastAdded(registrations, field);
    hide AddsRow, AddedRow, Named;
    if k == -1 {
      forall r <- registrations ensures !AddsRow(r, field) {
        var m :| 0 <= m < |registrations| && registrations[m] == r;
      }
    } else {
      assert registrations[k] in registrations;
    }
  }

  lemma AddedHere(r: Registration, field: string)
    requires AddsRow(r, field)
    ensures BomRow(field, r.field).Some?
    ensures RowRegistration(r, field)
         == Registration(field, None, r.intent.(bomLineNumber := Some(Num(BomRow(field, r.field).value))), None, None,
              false)
  {
  }

  lemma {:induction false} FirstOfField(data: seq<Entry>, field: string, i: nat)
    requires i < |data| && data[i].field == field && forall j :: 0 <= j < i ==> data[j].field != field
    ensures FirstValue(data, field) == if data[i].value.Typed? then Str(data[i].value.text) else Obj(map[])
  {
    if i > 0 { FirstOfField(data[1..], field, i - 1); }
  }

  lemma {:induction false} NoneOfField(data: seq<Entry>, field: string)
    requires forall j :: 0 <= j < |data| ==> data[j].field != field
    ensures FirstValue(data, field) == Null
  {
    if data != [] { NoneOfField(data[1..], field); }
  }

  // The record asked for is the registered one but for the item type and the supplier the form selects, and the
  // position of a photo.
  lemma AskedFields(data: seq<Entry>, r: Registration, position: nat)
    ensures var asked := Asked(data, r, position);
            && asked == r.intent.(itemTypeId := asked.itemTypeId, supplierId := asked.supplierId, index := asked.index)
            && asked.itemTypeId == (match r.itemTypeFrom case None => r.intent.itemTypeId
                                                         case Some(field) => Some(FirstValue(data, field)))
            && asked.supplierId == (match r.supplierFrom case None => r.intent.supplierId
                                                         case Some(field) => Some(FirstValue(data, field)))
            && asked.index == (if r.intent.kind in {Some(Str("maintenance-request-photo")),
                                                    Some(Str("maintenance-work-photo"))}
                               then Some(Num(position)) else r.intent.index)
  {
    hide FirstValue;
  }

  // What becomes of a file that is not empty: it is sent for the intent its registration makes, under the field named
  // there, or else under its own name with a fixed ending.
  lemma SentUnder(data: seq<Entry>, registrations: seq<Registration>, i: nat)
    requires i < |data| && data[i].value.Chosen? && data[i].value.file.bytes != []
    requires Resolved(registrations, data[i].field).Some?
    ensures var r, item := Resolved(registrations, data[i].field).value, ItemAt(data, registrations, i);
            && item.Sends? && item.file == data[i].value.file
            && item.idField == (match r.idField case None => data[i].field + "_upload_id" case Some(name) => name)
            && item.intent
               == UploadIntent.Parse(Asked(data, r, |set j | 0 <= j <= i && Uploads(data[j], data[i].field)|))
  {
    hide Resolved, Asked, UploadIntent.Parse, Uploads, Count;
    CountCounts(data, data[i].field, i + 1);
    assert (set j | 0 <= j <= i && Uploads(data[j], data[i].field))
        == set j | 0 <= j < i + 1 && Uploads(data[j], data[i].field);
  }

  // What is left alone: a field that is not registered, and a text; an empty file control is left out.
  lemma LeftAlone(data: seq<Entry>, registrations: seq<Registration>, i: nat)
    requires i < |data|
    ensures Resolved(registrations, data[i].field) == None || data[i].value.Typed? ==>
              ItemAt(data, registrations, i) == Item.Kept(data[i])
    ensures Resolved(registrations, data[i].field).Some? && data[i].value.Chosen? && data[i].value.file.bytes == [] ==>
              ItemAt(data, registrations, i) == Omitted
  {
    hide Resolved;
  }

  lemma NothingCounted(data: seq<Entry>, field: string)
    requires data == []
    ensures Count(data, field) == 0
  {
  }

  lemma {:induction false} CountCounts(data: seq<Entry>, field: string, n: nat)
    requires n <= |data|
    ensures Count(data[..n], field) == |set j | 0 <= j < n && Uploads(data[j], field)|
  {
    hide Uploads, Count;
    var all := set j | 0 <= j < n && Uploads(data[j], field);
    if n == 0 {
      NothingCounted(data[..0], field);
      assert all == {};
    } else {
      CountCounts(data, field, n - 1);
      NextCount(data, field, n - 1);
      var front := set j | 0 <= j < n - 1 && Uploads(data[j], field);
      assert all == front + if Uploads(data[n - 1], field) then {n - 1} else {};
    }
  }

  // ---- what the intents tell ----

  lemma {:induction false} CountGrows(data: seq<Entry>, field: string, i: nat, j: nat)
    requires i <= j <= |data|
    ensures Count(data[..i], field) <= Count(data[..j], field)
  {
    if i < j {
      CountGrows(data, field, i, j - 1);
      assert data[..j][..j - 1] == data[..j - 1];
    }
  }

  lemma NextCount(data: seq<Entry>, field: string, i: nat)
    requires i < |data|
    ensures Count(data[..i + 1], field) == Count(data[..i], field) + if Uploads(data[i], field) then 1 else 0
  {
    assert data[..i + 1][..i] == data[..i];
  }

  // The photos of one field are uploaded for different intents: each for its own position.
  lemma PhotosDiffer(data: seq<Entry>, registrations: seq<Registration>, i: nat, j: nat)
    requires i < j < |data| && data[i].field == data[j].field
    requires ItemAt(data, registrations, i).Sends? && ItemAt(data, registrations, j).Sends?
    requires Numbered(Resolved(registrations, data[i].field).value.intent)
    ensures var a, b := ItemAt(data, registrations, i).intent, ItemAt(data, registrations, j).intent;
            a.Some? && b.Some? ==> a.value.index != b.value.index && a != b
  {
    var field := data[i].field;
    var r := Resolved(registrations, field).value;
    CountGrows(data, field, i + 1, j);
    NextCount(data, field, j);
    hide Resolved, Count, FirstValue;
    PhotoKeepsIndex(Asked(data, r, Count(data[..i + 1], field)));
    PhotoKeepsIndex(Asked(data, r, Count(data[..j + 1], field)));
  }

  lemma PhotoKeepsIndex(i: Intent)
    requires Numbered(i) && i.index.Some? && i.index.value.Num?
    ensures var p := UploadIntent.Parse(i); p.Some? ==> p.value.index == i.index
  {
  }
}

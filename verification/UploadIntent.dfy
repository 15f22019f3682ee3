// Upload intents: what the parser makes of any record, and when two intents are the same.
module UploadIntent {
  import opened Wrappers
  import opened Text
  import opened Calendar
  import opened Json
  import opened ResumableStore

  // A field of a record; none stands for `undefined`.
  type Field = Option<Json>

  // The fields the parser reads. What it returns is a record of the same fields.
  datatype Intent = Intent(
    kind: Field, enquiryId: Field, enquiryItemId: Field, operation: Field, clarificationTaskId: Field,
    bomLineNumber: Field, designId: Field, purpose: Field, engineeringChangeNoteId: Field, purchaseOrderId: Field,
    candidateId: Field, index: Field, visitId: Field, itemTypeId: Field, supplierId: Field, supplierPriceId: Field,
    purchaseOrderLineId: Field)

  const EMPTY := Intent(None, None, None, None, None, None, None, None, None, None, None, None, None, None, None, None,
    None)

  const MAX_REQUEST_PHOTOS := 8
  const MAX_MAINTENANCE_WORK_PHOTOS := 12

  // `text`; none where it throws
  function RequiredText(f: Field): Option<string> {
    match f
    case Some(Str(s)) => if Trim(s) != "" && |s| <= 255 then Some(Trim(s)) else None
    case _ => None
  }

  // `optionalText`; an absent text is a success
  function OptionalText(f: Field): Option<Field> {
    match f
    case None => Some(None)
    case Some(Null) => Some(None)
    case Some(Str("")) => Some(None)
    case _ => match RequiredText(f) case Some(s) => Some(Some(Str(s))) case None => None
  }

  function Put(s: string): Field {
    Some(Str(s))
  }

  // ---- the kinds ----

  const ENQUIRY_ITEM := "commercial-enquiry-item"
  const SALES_CLARIFICATION := "commercial-sales-clarification"
  const DESIGN_ATTACHMENT := "commercial-design-attachment"
  const ECN_DRAWING := "commercial-ecn-drawing"
  const ENQUIRY_IMPORT := "commercial-enquiry-import"
  const ORDER_SOURCE := "commercial-purchase-order-source"
  const RESUME := "recruitment-candidate-resume"
  const REQUEST_PHOTO := "maintenance-request-photo"
  const WORK_PHOTO := "maintenance-work-photo"
  const CALIBRATION := "store-calibration-certificate"
  const ITEM_DRAWING := "store-item-drawing"
  const SUPPLIER_QUOTE := "store-supplier-quote"
  const GUARANTEE_CARD := "store-guarantee-card"

  function ParseEnquiryItem(i: Intent): Option<Intent> {
    match (RequiredText(i.operation), OptionalText(i.enquiryItemId), RequiredText(i.enquiryId))
    case (Some(operation), Some(item), Some(enquiry)) =>
      if operation != "create" && operation != "update" then None
      else if operation == "update" && item == None then None
      else if operation == "create" && item != None then None
      else
        Some(EMPTY.(enquiryId := Put(enquiry), enquiryItemId := item, kind := Put(ENQUIRY_ITEM),
                    operation := Put(operation)))
    case _ => None
  }

  function ParseSalesClarification(i: Intent): Option<Intent> {
    match (RequiredText(i.clarificationTaskId), RequiredText(i.enquiryId), RequiredText(i.enquiryItemId))
    case (Some(task), Some(enquiry), Some(item)) =>
      Some(EMPTY.(clarificationTaskId := Put(task), enquiryId := Put(enquiry), enquiryItemId := Put(item),
                  kind := Put(SALES_CLARIFICATION)))
    case _ => None
  }

  predicate IsPurpose(purpose: string) {
    purpose == "cad" || purpose == "customer_drawing" || purpose == "customer_marked" || purpose == "internal_drawing"
  }

  // An absent BOM line is a success.
  function BomLine(f: Field): Option<Field> {
    match f
    case None => Some(None)
    case Some(value) =>
      match ToInteger(value)
      case Some(n) => if 0 < n <= MAX_SAFE then Some(Some(Num(n))) else None
      case None => None
  }

  function ParseDesignAttachment(i: Intent): Option<Intent> {
    match (RequiredText(i.purpose), BomLine(i.bomLineNumber), RequiredText(i.designId),
           RequiredText(i.enquiryId), RequiredText(i.enquiryItemId))
    case (Some(purpose), Some(bom), Some(design), Some(enquiry), Some(item)) =>
      if !IsPurpose(purpose) || (purpose == "customer_drawing" && bom != None) then None
      else
        Some(EMPTY.(bomLineNumber := bom, designId := Put(design), enquiryId := Put(enquiry),
                    enquiryItemId := Put(item), kind := Put(DESIGN_ATTACHMENT), purpose := Put(purpose)))
    case _ => None
  }

  function ParsePhoto(i: Intent, kind: string, most: int): Option<Intent> {
    match (match i.index case Some(value) => ToInteger(value) case None => None)
    case Some(n) => if 1 <= n <= most then Some(EMPTY.(index := Some(Num(n)), kind := Put(kind))) else None
    case None => None
  }

  function ParseSupplierQuote(i: Intent): Option<Intent> {
    match (OptionalText(i.itemTypeId), OptionalText(i.supplierId), OptionalText(i.supplierPriceId))
    case (Some(item), Some(supplier), Some(price)) =>
      if (item != None && supplier != None && price == None) || (price != None && item == None && supplier == None) then
        Some(EMPTY.(itemTypeId := item, kind := Put(SUPPLIER_QUOTE), supplierId := supplier, supplierPriceId := price))
      else None
    case _ => None
  }

  function ParseGuaranteeCard(i: Intent): Option<Intent> {
    match (OptionalText(i.purchaseOrderId), OptionalText(i.purchaseOrderLineId))
    case (Some(order), Some(line)) =>
      if (order != None) == (line != None) then None
      else Some(EMPTY.(kind := Put(GUARANTEE_CARD), purchaseOrderId := order, purchaseOrderLineId := line))
    case _ => None
  }

  // `parsePendingUploadIntent`; none where it throws
  function Parse(i: Intent): Option<Intent> {
    match RequiredText(i.kind)
    case None => None
    case Some(kind) =>
      if kind == ENQUIRY_ITEM then ParseEnquiryItem(i)
      else if kind == SALES_CLARIFICATION then ParseSalesClarification(i)
      else if kind == DESIGN_ATTACHMENT then ParseDesignAttachment(i)
      else if kind == ECN_DRAWING then
        (match RequiredText(i.engineeringChangeNoteId)
         case Some(note) => Some(EMPTY.(engineeringChangeNoteId := Put(note), kind := Put(kind)))
         case None => None)
      else if kind == ENQUIRY_IMPORT then
        (match RequiredText(i.enquiryId)
         case Some(enquiry) => Some(EMPTY.(enquiryId := Put(enquiry), kind := Put(kind)))
         case None => None)
      else if kind == ORDER_SOURCE then
        (match RequiredText(i.purchaseOrderId)
         case Some(order) => Some(EMPTY.(kind := Put(kind), purchaseOrderId := Put(order)))
         case None => None)
      else if kind == RESUME then
        (match OptionalText(i.candidateId)
         case Some(candidate) => Some(EMPTY.(candidateId := candidate, kind := Put(kind)))
         case None => None)
      else if kind == REQUEST_PHOTO then ParsePhoto(i, kind, MAX_REQUEST_PHOTOS)
      else if kind == WORK_PHOTO then ParsePhoto(i, kind, MAX_MAINTENANCE_WORK_PHOTOS)
      else if kind == CALIBRATION then
        (match RequiredText(i.visitId)
         case Some(visit) => Some(EMPTY.(kind := Put(kind), visitId := Put(visit)))
         case None => None)
      else if kind == ITEM_DRAWING then
        (match OptionalText(i.itemTypeId)
         case Some(item) => Some(EMPTY.(itemTypeId := item, kind := Put(kind)))
         case None => None)
      else if kind == SUPPLIER_QUOTE then ParseSupplierQuote(i)
      else if kind == GUARANTEE_CARD then ParseGuaranteeCard(i)
      else None
  }

  // ---- a parsed text parses to itself ----

  lemma {:induction false} TrimStartSettles(s: string)
    ensures |TrimStart(s)| <= |s| && TrimStart(TrimStart(s)) == TrimStart(s)
    ensures TrimStart(s) != "" ==> !WhiteSpace(TrimStart(s)[0])
  {
    if s != "" && WhiteSpace(s[0]) { TrimStartSettles(s[1..]); }
  }

  lemma {:induction false} TrimEndSettles(s: string)
    ensures TrimEnd(s) <= s && TrimEnd(TrimEnd(s)) == TrimEnd(s)
    ensures TrimEnd(s) != "" ==> !WhiteSpace(TrimEnd(s)[|TrimEnd(s)| - 1])
  {
    if s != "" && WhiteSpace(s[|s| - 1]) { TrimEndSettles(s[..|s| - 1]); }
  }

  lemma TextSettles(f: Field)
    ensures var t := RequiredText(f); t.Some? ==> t.value != "" && RequiredText(Put(t.value)) == t
  {
    match f {
      case Some(Str(s)) =>
        TrimStartSettles(s);
        TrimEndSettles(TrimStart(s));
        TrimStartSettles(Trim(s));
      case _ =>
    }
  }

  lemma OptionalTextSettles(f: Field)
    ensures var t := OptionalText(f); t.Some? ==> OptionalText(t.value) == t
  {
    TextSettles(f);
    hide RequiredText;
  }

  lemma BomLineSettles(f: Field)
    ensures var t := BomLine(f); t.Some? ==> BomLine(t.value) == t
  {
  }

  // Parsing what was parsed changes nothing, whatever the kind.
  lemma ParsedIsNormal(i: Intent)
    ensures var p := Parse(i); p.Some? ==> Parse(p.value) == p
  {
    hide RequiredText, OptionalText, BomLine, IsPurpose;
    hide ENQUIRY_ITEM, SALES_CLARIFICATION, DESIGN_ATTACHMENT, ECN_DRAWING, ENQUIRY_IMPORT, ORDER_SOURCE, RESUME,
      REQUEST_PHOTO, WORK_PHOTO, CALIBRATION, ITEM_DRAWING, SUPPLIER_QUOTE, GUARANTEE_CARD;
    TextSettles(i.kind);
    forall f: Field ensures var t := RequiredText(f); t.Some? ==> RequiredText(Put(t.value)) == t { TextSettles(f); }
    forall f: Field ensures var t := OptionalText(f); t.Some? ==> OptionalText(t.value) == t { OptionalTextSettles(f); }
    BomLineSettles(i.bomLineNumber);
  }

  // ---- the text of an intent ----

  function HexDigit(n: int): char
    requires 0 <= n < 16
  {
    if n < 10 then (n + '0' as int) as char else (n - 10 + 'a' as int) as char
  }

  // How JSON.stringify writes a character of a text.
  function Escaped(c: char): (s: string)
    ensures s != ""
  {
    var n := c as int;
    if c == '"' || c == '\\' then ['\\', c]
    else if n == 8 then ['\\', 'b']
    else if n == 9 then ['\\', 't']
    else if n == 10 then ['\\', 'n']
    else if n == 12 then ['\\', 'f']
    else if n == 13 then ['\\', 'r']
    else if n < 32 then ['\\', 'u', '0', '0', HexDigit(n / 16), HexDigit(n % 16)]
    else [c]
  }

  function Chars(s: string): string {
    if s == "" then "" else Escaped(s[0]) + Chars(s[1..])
  }

  function Quoted(s: string): string {
    ['"'] + Chars(s) + ['"']
  }

  predicate Writable(v: Json) {
    v.Str? || (v.Num? && v.n >= 0)
  }

  function Value(v: Json): (s: string)
    requires Writable(v)
    ensures s != ""
  {
    if v.Str? then Quoted(v.s) else Decimal(v.n)
  }

  type Entry = (string, Json)

  // What follows the opening brace of a record.
  function Entries(e: seq<Entry>): (s: string)
    requires forall x <- e :: Writable(x.1)
    ensures s != ""
  {
    if e == [] then ['}']
    else Quoted(e[0].0) + [':'] + Value(e[0].1) + if |e| == 1 then ['}'] else [','] + Entries(e[1..])
  }

  // The parser puts the fields of every kind in alphabetical order.
  const NAMES := [
    "bomLineNumber", "candidateId", "clarificationTaskId", "designId", "engineeringChangeNoteId", "enquiryId",
    "enquiryItemId", "index", "itemTypeId", "kind", "operation", "purchaseOrderId", "purchaseOrderLineId", "purpose",
    "supplierId", "supplierPriceId", "visitId"]

  function Values(i: Intent): (r: seq<Field>)
    ensures |r| == 17
  {
    [i.bomLineNumber, i.candidateId, i.clarificationTaskId, i.designId, i.engineeringChangeNoteId, i.enquiryId,
     i.enquiryItemId, i.index, i.itemTypeId, i.kind, i.operation, i.purchaseOrderId, i.purchaseOrderLineId, i.purpose,
     i.supplierId, i.supplierPriceId, i.visitId]
  }

  // The fields that are there, with their names.
  function Present(names: seq<string>, values: seq<Field>): (r: seq<Entry>)
    requires |names| == |values|
  {
    if names == [] then []
    else (if values[0].Some? then [(names[0], values[0].value)] else []) + Present(names[1..], values[1..])
  }

  predicate WritableAll(values: seq<Field>) {
    forall v <- values :: v.Some? ==> Writable(v.value)
  }

  lemma {:induction false} PresentIsWritable(names: seq<string>, values: seq<Field>)
    requires |names| == |values| && WritableAll(values)
    ensures forall x <- Present(names, values) :: Writable(x.1) && x.0 in names
  {
    if names != [] {
      assert values[0] in values && forall v <- values[1..] :: v in values;
      PresentIsWritable(names[1..], values[1..]);
    }
  }

  // The text `JSON.stringify` gives an intent of writable fields.
  function Written(i: Intent): string
    requires WritableAll(Values(i))
  {
    PresentIsWritable(NAMES, Values(i));
    ['{'] + Entries(Present(NAMES, Values(i)))
  }

  // ---- the text tells intents apart ----

  lemma HexTells(a: int, b: int)
    requires 0 <= a < 16 && 0 <= b < 16 && HexDigit(a) == HexDigit(b)
    ensures a == b
  {
  }

  // No character's text is the beginning of another's.
  lemma EscapedTells(c: char, d: char, x: string, y: string)
    requires Escaped(c) + x == Escaped(d) + y
    ensures c == d && x == y
  {
    var s, t := Escaped(c) + x, Escaped(d) + y;
    assert s[0] == Escaped(c)[0] && t[0] == Escaped(d)[0];
    if |Escaped(c)| > 1 && |Escaped(d)| > 1 {
      assert s[1] == Escaped(c)[1] && t[1] == Escaped(d)[1];
      if |Escaped(c)| == 6 && |Escaped(d)| == 6 {
        assert s[4] == Escaped(c)[4] && t[4] == Escaped(d)[4] && s[5] == Escaped(c)[5] && t[5] == Escaped(d)[5];
        HexTells(c as int / 16, d as int / 16);
        HexTells(c as int % 16, d as int % 16);
      }
    }
    assert c == d;
    assert x == s[|Escaped(c)|..] && y == t[|Escaped(d)|..];
  }

  lemma {:induction false} CharsTell(s: string, t: string, x: string, y: string)
    requires Chars(s) + ['"'] + x == Chars(t) + ['"'] + y
    ensures s == t && x == y
    decreases |s|
  {
    hide Escaped;
    var a, b := Chars(s) + ['"'] + x, Chars(t) + ['"'] + y;
    FirstOfChars(s, x);
    FirstOfChars(t, y);
    if s == "" {
      assert x == a[1..] && y == b[1..];
    } else {
      var restS, restT := Chars(s[1..]) + ['"'] + x, Chars(t[1..]) + ['"'] + y;
      assert a == Escaped(s[0]) + restS && b == Escaped(t[0]) + restT;
      EscapedTells(s[0], t[0], restS, restT);
      CharsTell(s[1..], t[1..], x, y);
    }
  }

  lemma FirstOfChars(s: string, x: string)
    ensures (Chars(s) + ['"'] + x)[0] == '"' <==> s == ""
  {
    hide Escaped;
    if s != "" {
      QuoteIsNotFirst(s[0]);
      assert (Chars(s) + ['"'] + x)[0] == Escaped(s[0])[0];
    }
  }

  lemma QuoteIsNotFirst(c: char)
    ensures Escaped(c)[0] != '"'
  {
  }

  lemma QuotedTells(s: string, t: string, x: string, y: string)
    requires Quoted(s) + x == Quoted(t) + y
    ensures s == t && x == y
  {
    hide Chars;
    var a, b := Quoted(s) + x, Quoted(t) + y;
    assert a[1..] == Chars(s) + ['"'] + x && b[1..] == Chars(t) + ['"'] + y;
    CharsTell(s, t, x, y);
  }

  // What stands behind a value.
  predicate Ends(x: string) {
    x != "" && !IsDigit(x[0])
  }

  lemma DecimalTells(m: nat, n: nat, x: string, y: string)
    requires Decimal(m) + x == Decimal(n) + y && Ends(x) && Ends(y)
    ensures m == n && x == y
  {
    hide Decimal;
    var a, b := Decimal(m), Decimal(n);
    var k := if |a| < |b| then |a| else |b|;
    DigitsEnd(a, x, k);
    DigitsEnd(b, y, k);
    assert a == (a + x)[..|a|] && b == (b + y)[..|b|];
    assert x == (a + x)[|a|..] && y == (b + y)[|b|..];
    DecimalRoundTrip(m);
    DecimalRoundTrip(n);
  }

  lemma DigitsEnd(a: string, x: string, k: nat)
    requires Digits(a) && Ends(x) && k <= |a|
    ensures IsDigit((a + x)[k]) <==> k < |a|
  {
  }

  lemma ValueTells(v: Json, w: Json, x: string, y: string)
    requires Writable(v) && Writable(w) && Value(v) + x == Value(w) + y && Ends(x) && Ends(y)
    ensures v == w && x == y
  {
    hide Decimal, Chars;
    FirstOfValue(v, x);
    FirstOfValue(w, y);
    if v.Str? && w.Str? {
      QuotedTells(v.s, w.s, x, y);
    } else if v.Num? && w.Num? {
      DecimalTells(v.n, w.n, x, y);
    }
  }

  lemma FirstOfValue(v: Json, x: string)
    requires Writable(v)
    ensures (Value(v) + x)[0] == '"' <==> v.Str?
  {
    hide Decimal, Chars;
    if v.Num? { assert IsDigit(Decimal(v.n)[0]); }
  }

  function After(e: seq<Entry>): (s: string)
    requires e != [] && forall x <- e :: Writable(x.1)
    ensures Ends(s)
  {
    if |e| == 1 then ['}'] else [','] + Entries(e[1..])
  }

  lemma EntriesBegin(e: seq<Entry>)
    requires e != [] && forall x <- e :: Writable(x.1)
    ensures Entries(e) == Quoted(e[0].0) + ([':'] + (Value(e[0].1) + After(e)))
  {
    hide Quoted, Value;
  }

  lemma AfterTells(e: seq<Entry>, f: seq<Entry>)
    requires e != [] && forall x <- e :: Writable(x.1)
    requires f != [] && forall x <- f :: Writable(x.1)
    requires After(e) == After(f)
    ensures |e| == 1 <==> |f| == 1
    ensures |e| > 1 ==> Entries(e[1..]) == Entries(f[1..])
  {
    hide Entries;
    assert After(e)[0] == After(f)[0];
    if |e| > 1 {
      assert After(e)[1..] == Entries(e[1..]) && After(f)[1..] == Entries(f[1..]);
    }
  }

  lemma {:induction false} EntriesTell(e: seq<Entry>, f: seq<Entry>)
    requires (forall x <- e :: Writable(x.1)) && (forall x <- f :: Writable(x.1))
    requires Entries(e) == Entries(f)
    ensures e == f
    decreases |e|
  {
    hide Quoted, Value, Entries, After, Writable;
    FirstOfEntries(e);
    FirstOfEntries(f);
    if e != [] {
      EntriesBegin(e);
      EntriesBegin(f);
      var restE, restF := [':'] + (Value(e[0].1) + After(e)), [':'] + (Value(f[0].1) + After(f));
      QuotedTells(e[0].0, f[0].0, restE, restF);
      assert restE[1..] == Value(e[0].1) + After(e) && restF[1..] == Value(f[0].1) + After(f);
      ValueTells(e[0].1, f[0].1, After(e), After(f));
      AfterTells(e, f);
      if |e| > 1 {
        EntriesTell(e[1..], f[1..]);
      }
      assert e == [e[0]] + e[1..] && f == [f[0]] + f[1..];
    }
  }

  lemma FirstOfEntries(e: seq<Entry>)
    requires forall x <- e :: Writable(x.1)
    ensures Entries(e)[0] == if e == [] then '}' else '"'
  {
    hide Chars;
  }

  lemma {:induction false} PresentNames(names: seq<string>, values: seq<Field>)
    requires |names| == |values|
    ensures forall x <- Present(names, values) :: x.0 in names
  {
    if names != [] { PresentNames(names[1..], values[1..]); }
  }

  // Whether the first field is there shows in the first name.
  lemma FirstPresent(names: seq<string>, v: seq<Field>)
    requires |names| == |v| && names != [] && forall j, k :: 0 <= j < k < |names| ==> names[j] != names[k]
    ensures var e := Present(names, v);
            && (v[0].Some? <==> e != [] && e[0].0 == names[0])
            && (if v[0].Some? then e[0].1 == v[0].value && e[1..] == Present(names[1..], v[1..])
                else e == Present(names[1..], v[1..]))
  {
    PresentNames(names[1..], v[1..]);
    var rest := Present(names[1..], v[1..]);
    assert names[0] !in names[1..];
    assert rest != [] ==> rest[0] in rest;
  }

  // The present fields, named apart, give every field back.
  lemma {:induction false} PresentTells(names: seq<string>, v: seq<Field>, w: seq<Field>)
    requires |names| == |v| == |w| && forall j, k :: 0 <= j < k < |names| ==> names[j] != names[k]
    requires Present(names, v) == Present(names, w)
    ensures v == w
  {
    if names != [] {
      FirstPresent(names, v);
      FirstPresent(names, w);
      PresentTells(names[1..], v[1..], w[1..]);
      assert v == [v[0]] + v[1..] && w == [w[0]] + w[1..];
    }
  }

  lemma NamesAreDistinct()
    ensures |NAMES| == 17 && forall j, k :: 0 <= j < k < |NAMES| ==> NAMES[j] != NAMES[k]
  {
    assert |NAMES[0]| == 13 && |NAMES[1]| == 11 && |NAMES[2]| == 19 && |NAMES[3]| == 8 && |NAMES[4]| == 23;
    assert |NAMES[5]| == 9 && |NAMES[6]| == 13 && |NAMES[7]| == 5 && |NAMES[8]| == 10 && |NAMES[9]| == 4;
    assert |NAMES[10]| == 9 && |NAMES[11]| == 15 && |NAMES[12]| == 19 && |NAMES[13]| == 7 && |NAMES[14]| == 10;
    assert |NAMES[15]| == 15 && |NAMES[16]| == 7;
    assert NAMES[0][0] != NAMES[6][0] && NAMES[2][0] != NAMES[12][0] && NAMES[5][0] != NAMES[10][0];
    assert NAMES[8][0] != NAMES[14][0] && NAMES[11][0] != NAMES[15][0] && NAMES[13][0] != NAMES[16][0];
  }

  // Two intents of writable fields have one text only when they are one intent.
  lemma WrittenTells(a: Intent, b: Intent)
    requires WritableAll(Values(a)) && WritableAll(Values(b)) && Written(a) == Written(b)
    ensures a == b
  {
    hide NAMES, Present, Entries;
    NamesAreDistinct();
    PresentIsWritable(NAMES, Values(a));
    PresentIsWritable(NAMES, Values(b));
    var e, f := Present(NAMES, Values(a)), Present(NAMES, Values(b));
    assert Written(a)[1..] == Entries(e) && Written(b)[1..] == Entries(f);
    EntriesTell(e, f);
    PresentTells(NAMES, Values(a), Values(b));
    SameValues(a, b);
  }

  lemma SameValues(a: Intent, b: Intent)
    requires Values(a) == Values(b)
    ensures a == b
  {
    var v, w := Values(a), Values(b);
    assert v[0] == w[0] && v[1] == w[1] && v[2] == w[2] && v[3] == w[3] && v[4] == w[4] && v[5] == w[5] && v[6] == w[6];
    assert v[7] == w[7] && v[8] == w[8] && v[9] == w[9] && v[10] == w[10] && v[11] == w[11] && v[12] == w[12];
    assert v[13] == w[13] && v[14] == w[14] && v[15] == w[15] && v[16] == w[16];
  }

  // ---- equality ----

  predicate FieldWritable(f: Field) {
    f.Some? ==> Writable(f.value)
  }

  predicate EachWritable(i: Intent) {
    && FieldWritable(i.kind) && FieldWritable(i.enquiryId) && FieldWritable(i.enquiryItemId)
       && FieldWritable(i.operation)
    && FieldWritable(i.clarificationTaskId) && FieldWritable(i.bomLineNumber) && FieldWritable(i.designId)
    && FieldWritable(i.purpose) && FieldWritable(i.engineeringChangeNoteId) && FieldWritable(i.purchaseOrderId)
    && FieldWritable(i.candidateId) && FieldWritable(i.index) && FieldWritable(i.visitId) && FieldWritable(i.itemTypeId)
    && FieldWritable(i.supplierId) && FieldWritable(i.supplierPriceId) && FieldWritable(i.purchaseOrderLineId)
  }

  lemma EachIsAll(i: Intent)
    requires EachWritable(i)
    ensures WritableAll(Values(i))
  {
    hide Writable;
  }

  // Every field of a parsed intent is a text or a positive number.
  lemma ParsedIsEachWritable(i: Intent)
    requires Parse(i).Some?
    ensures EachWritable(Parse(i).value)
  {
    OptionalIsWritable();
    hide RequiredText, OptionalText, IsPurpose, ToInteger;
    hide ENQUIRY_ITEM, SALES_CLARIFICATION, DESIGN_ATTACHMENT, ECN_DRAWING, ENQUIRY_IMPORT, ORDER_SOURCE, RESUME,
      REQUEST_PHOTO, WORK_PHOTO, CALIBRATION, ITEM_DRAWING, SUPPLIER_QUOTE, GUARANTEE_CARD;
  }

  lemma ParsedIsWritable(i: Intent)
    requires Parse(i).Some?
    ensures WritableAll(Values(Parse(i).value))
  {
    hide Parse, EachWritable, WritableAll, Values;
    ParsedIsEachWritable(i);
    EachIsAll(Parse(i).value);
  }

  lemma OptionalIsWritable()
    ensures forall f: Field :: OptionalText(f).Some? ==>
              OptionalText(f).value == None || OptionalText(f).value.value.Str?
  {
    hide RequiredText;
  }

  // `pendingUploadIntentEquals`; none where a side cannot be parsed
  function Equals(left: Intent, right: Intent): Option<bool> {
    match (Parse(left), Parse(right))
    case (Some(l), Some(r)) =>
      ParsedIsWritable(left);
      ParsedIsWritable(right);
      Some(Written(l) == Written(r))
    case _ => None
  }

  lemma EqualsMeans(a: Intent, b: Intent)
    requires Parse(a).Some? && Parse(b).Some?
    ensures Equals(a, b) == Some(Parse(a) == Parse(b))
  {
    ParsedIsWritable(a);
    ParsedIsWritable(b);
    hide Parse, Written;
    if Written(Parse(a).value) == Written(Parse(b).value) {
      WrittenTells(Parse(a).value, Parse(b).value);
    }
  }

  // On intents that parse, equal texts mean one normal form: so each intent equals its own, and equality is
  // symmetric and transitive.
  lemma EqualsIsSameNormalForm(a: Intent, b: Intent, c: Intent)
    requires Parse(a).Some? && Parse(b).Some? && Parse(c).Some?
    ensures Equals(a, b) == Some(Parse(a) == Parse(b))
    ensures Equals(a, Parse(a).value) == Some(true)
    ensures Equals(a, b) == Equals(b, a)
    ensures Equals(a, b) == Some(true) && Equals(b, c) == Some(true) ==> Equals(a, c) == Some(true)
  {
    ParsedIsNormal(a);
    hide Parse, Equals;
    EqualsMeans(a, b);
    EqualsMeans(b, a);
    EqualsMeans(b, c);
    EqualsMeans(a, c);
    EqualsMeans(a, Parse(a).value);
  }
}

// Upload intents field by field: what the parser accepts, and which field of the record each result is read from.
module IntentFields {
  import opened Wrappers
  import opened Text
  import opened Calendar
  import opened Json
  import ResumableStore
  import opened UploadIntent

  // A required text comes back trimmed; it is no longer than 255 characters before that, and not blank.
  predicate Reads(f: Field, r: Field) {
    && f.Some? && f.value.Str? && |f.value.s| <= 255 && Trim(f.value.s) != ""
    && r == Some(Str(Trim(f.value.s)))
  }

  // An optional text that is absent, null or empty is left out.
  predicate ReadsMaybe(f: Field, r: Field) {
    if f == None || f == Some(Null) || f == Some(Str("")) then r == None else Reads(f, r)
  }

  // A whole number from 1 to some most.
  predicate ReadsNumber(f: Field, r: Field, most: int) {
    f.Some? && r.Some? && r.value.Num? && ToInteger(f.value) == Some(r.value.n) && 1 <= r.value.n <= most
  }

  lemma TextReads(f: Field, r: Field)
    ensures RequiredText(f).Some? && r == Some(Str(RequiredText(f).value)) <==> Reads(f, r)
    ensures OptionalText(f) == Some(r) <==> ReadsMaybe(f, r)
  {
    hide Trim;
  }

  lemma BomLineReads(f: Field, r: Field)
    ensures BomLine(f) == Some(r) <==> if f == None then r == None else ReadsNumber(f, r, 9007199254740991)
  {
    hide ToInteger;
  }

  // A number is itself, a truth value 0 or 1, and a text of digits the number they write, blanks around them aside.
  lemma NumbersRead(n: nat, text: string)
    ensures ToInteger(Num(n)) == Some(n)
    ensures ToInteger(Bool(true)) == Some(1) && ToInteger(Bool(false)) == Some(0)
    ensures Trim(text) == ResumableStore.Decimal(n) ==> ToInteger(Str(text)) == Some(n)
    ensures Trim(text) == "" ==> ToInteger(Str(text)) == Some(0)
    ensures Trim(text) != "" && !Digits(Trim(text)) ==> ToInteger(Str(text)) == None
  {
    hide Trim;
    ResumableStore.DecimalRoundTrip(n);
  }

  // ---- the kinds ----

  // The fields of an intent that are its own, apart from its kind.
  predicate Has(p: Intent, kind: string, others: Intent) {
    p == others.(kind := Some(Str(kind)))
  }

  const BARE := Intent(None, None, None, None, None, None, None, None, None, None, None, None, None, None, None, None,
    None)

  predicate EnquiryItem(i: Intent, p: Intent) {
    && Has(p, "commercial-enquiry-item",
         BARE.(enquiryId := p.enquiryId, enquiryItemId := p.enquiryItemId, operation := p.operation))
    && Reads(i.enquiryId, p.enquiryId) && ReadsMaybe(i.enquiryItemId, p.enquiryItemId)
    && Reads(i.operation, p.operation)
    && (if p.enquiryItemId == None then p.operation == Some(Str("create")) else p.operation == Some(Str("update")))
  }

  predicate SalesClarification(i: Intent, p: Intent) {
    && Has(p, "commercial-sales-clarification",
         BARE.(clarificationTaskId := p.clarificationTaskId, enquiryId := p.enquiryId,
               enquiryItemId := p.enquiryItemId))
    && Reads(i.clarificationTaskId, p.clarificationTaskId) && Reads(i.enquiryId, p.enquiryId)
    && Reads(i.enquiryItemId, p.enquiryItemId)
  }

  predicate DesignAttachment(i: Intent, p: Intent) {
    && Has(p, "commercial-design-attachment",
         BARE.(bomLineNumber := p.bomLineNumber, designId := p.designId, enquiryId := p.enquiryId,
               enquiryItemId := p.enquiryItemId, purpose := p.purpose))
    && (if i.bomLineNumber == None then p.bomLineNumber == None
        else ReadsNumber(i.bomLineNumber, p.bomLineNumber, 9007199254740991))
    && Reads(i.designId, p.designId) && Reads(i.enquiryId, p.enquiryId) && Reads(i.enquiryItemId, p.enquiryItemId)
    && Reads(i.purpose, p.purpose)
    && (|| p.purpose == Some(Str("cad")) || p.purpose == Some(Str("customer_marked"))
        || p.purpose == Some(Str("internal_drawing"))
        || (p.purpose == Some(Str("customer_drawing")) && p.bomLineNumber == None))
  }

  // A kind with one required text.
  predicate EcnDrawing(i: Intent, p: Intent) {
    && Has(p, "commercial-ecn-drawing", BARE.(engineeringChangeNoteId := p.engineeringChangeNoteId))
    && Reads(i.engineeringChangeNoteId, p.engineeringChangeNoteId)
  }

  predicate EnquiryImport(i: Intent, p: Intent) {
    Has(p, "commercial-enquiry-import", BARE.(enquiryId := p.enquiryId)) && Reads(i.enquiryId, p.enquiryId)
  }

  predicate OrderSource(i: Intent, p: Intent) {
    && Has(p, "commercial-purchase-order-source", BARE.(purchaseOrderId := p.purchaseOrderId))
    && Reads(i.purchaseOrderId, p.purchaseOrderId)
  }

  predicate Calibration(i: Intent, p: Intent) {
    Has(p, "store-calibration-certificate", BARE.(visitId := p.visitId)) && Reads(i.visitId, p.visitId)
  }

  // A kind with one optional text.
  predicate Resume(i: Intent, p: Intent) {
    && Has(p, "recruitment-candidate-resume", BARE.(candidateId := p.candidateId))
    && ReadsMaybe(i.candidateId, p.candidateId)
  }

  predicate ItemDrawing(i: Intent, p: Intent) {
    && Has(p, "store-item-drawing", BARE.(itemTypeId := p.itemTypeId))
    && ReadsMaybe(i.itemTypeId, p.itemTypeId)
  }

  predicate Photo(i: Intent, p: Intent, kind: string, most: int) {
    Has(p, kind, BARE.(index := p.index)) && ReadsNumber(i.index, p.index, most)
  }

  // A supplier price, or the item type and the supplier to make one of.
  predicate SupplierQuote(i: Intent, p: Intent) {
    && Has(p, "store-supplier-quote",
         BARE.(itemTypeId := p.itemTypeId, supplierId := p.supplierId, supplierPriceId := p.supplierPriceId))
    && ReadsMaybe(i.itemTypeId, p.itemTypeId) && ReadsMaybe(i.supplierId, p.supplierId)
    && ReadsMaybe(i.supplierPriceId, p.supplierPriceId)
    && (p.itemTypeId == None <==> p.supplierId == None) && (p.itemTypeId == None <==> p.supplierPriceId != None)
  }

  // An order or a line of one, not both.
  predicate GuaranteeCard(i: Intent, p: Intent) {
    && Has(p, "store-guarantee-card",
         BARE.(purchaseOrderId := p.purchaseOrderId, purchaseOrderLineId := p.purchaseOrderLineId))
    && ReadsMaybe(i.purchaseOrderId, p.purchaseOrderId) && ReadsMaybe(i.purchaseOrderLineId, p.purchaseOrderLineId)
    && (p.purchaseOrderId == None <==> p.purchaseOrderLineId != None)
  }

  // An intent in its normal form.
  predicate Normal(i: Intent, p: Intent) {
    || EnquiryItem(i, p) || SalesClarification(i, p) || DesignAttachment(i, p) || EcnDrawing(i, p)
    || EnquiryImport(i, p) || OrderSource(i, p) || Calibration(i, p) || Resume(i, p) || ItemDrawing(i, p)
    || Photo(i, p, "maintenance-request-photo", 8) || Photo(i, p, "maintenance-work-photo", 12)
    || SupplierQuote(i, p) || GuaranteeCard(i, p)
  }

  lemma AllReads()
    ensures forall f: Field, r: Field :: RequiredText(f).Some? && r == Some(Str(RequiredText(f).value)) <==> Reads(f, r)
    ensures forall f: Field, r: Field {:trigger ReadsMaybe(f, r)} :: OptionalText(f) == Some(r) <==> ReadsMaybe(f, r)
  {
    hide *;
    forall f: Field, r: Field
      ensures RequiredText(f).Some? && r == Some(Str(RequiredText(f).value)) <==> Reads(f, r)
      ensures OptionalText(f) == Some(r) <==> ReadsMaybe(f, r)
    {
      TextReads(f, r);
    }
  }

  lemma EnquiryItemParses(i: Intent, p: Intent)
    ensures ParseEnquiryItem(i) == Some(p) <==> EnquiryItem(i, p)
  {
    AllReads();
    hide RequiredText, OptionalText, Reads, ReadsMaybe;
  }

  lemma SalesClarificationParses(i: Intent, p: Intent)
    ensures ParseSalesClarification(i) == Some(p) <==> SalesClarification(i, p)
  {
    AllReads();
    hide RequiredText, OptionalText, Reads, ReadsMaybe;
  }

  lemma DesignAttachmentParses(i: Intent, p: Intent)
    ensures ParseDesignAttachment(i) == Some(p) <==> DesignAttachment(i, p)
  {
    AllReads();
    BomLineReads(i.bomLineNumber, p.bomLineNumber);
    hide RequiredText, OptionalText, Reads, ReadsMaybe, BomLine, ReadsNumber;
  }

  lemma PhotoParses(i: Intent, p: Intent, kind: string, most: int)
    ensures ParsePhoto(i, kind, most) == Some(p) <==> Photo(i, p, kind, most)
  {
    hide ToInteger;
  }

  lemma SupplierQuoteParses(i: Intent, p: Intent)
    ensures ParseSupplierQuote(i) == Some(p) <==> SupplierQuote(i, p)
  {
    AllReads();
    hide RequiredText, OptionalText, Reads, ReadsMaybe;
  }

  lemma GuaranteeCardParses(i: Intent, p: Intent)
    ensures ParseGuaranteeCard(i) == Some(p) <==> GuaranteeCard(i, p)
  {
    AllReads();
    hide RequiredText, OptionalText, Reads, ReadsMaybe;
  }

  // ---- which kind it is ----

  // The place of a kind in the list of kinds.
  function KindNumber(kind: string): nat {
    if kind == "commercial-enquiry-item" then 0
    else if kind == "commercial-sales-clarification" then 1
    else if kind == "commercial-design-attachment" then 2
    else if kind == "commercial-ecn-drawing" then 3
    else if kind == "commercial-enquiry-import" then 4
    else if kind == "commercial-purchase-order-source" then 5
    else if kind == "recruitment-candidate-resume" then 6
    else if kind == "maintenance-request-photo" then 7
    else if kind == "maintenance-work-photo" then 8
    else if kind == "store-calibration-certificate" then 9
    else if kind == "store-item-drawing" then 10
    else if kind == "store-supplier-quote" then 11
    else if kind == "store-guarantee-card" then 12
    else 13
  }

  lemma KindsDiffer()
    ensures KindNumber(ENQUIRY_ITEM) == 0
    ensures KindNumber(SALES_CLARIFICATION) == 1
    ensures KindNumber(DESIGN_ATTACHMENT) == 2
    ensures KindNumber(ECN_DRAWING) == 3
    ensures KindNumber(ENQUIRY_IMPORT) == 4
    ensures KindNumber(ORDER_SOURCE) == 5
    ensures KindNumber(RESUME) == 6
    ensures KindNumber(REQUEST_PHOTO) == 7
    ensures KindNumber(WORK_PHOTO) == 8
    ensures KindNumber(CALIBRATION) == 9
    ensures KindNumber(ITEM_DRAWING) == 10
    ensures KindNumber(SUPPLIER_QUOTE) == 11
    ensures KindNumber(GUARANTEE_CARD) == 12
  {
    assert |ENQUIRY_ITEM| == 23;
    assert |SALES_CLARIFICATION| == 30;
    assert |DESIGN_ATTACHMENT| == 28;
    assert |ECN_DRAWING| == 22;
    assert |ENQUIRY_IMPORT| == 25;
    assert |ORDER_SOURCE| == 32;
    assert |RESUME| == 28;
    assert |REQUEST_PHOTO| == 25;
    assert |WORK_PHOTO| == 22;
    assert |CALIBRATION| == 29;
    assert |ITEM_DRAWING| == 18;
    assert |SUPPLIER_QUOTE| == 20;
    assert |GUARANTEE_CARD| == 20;
    assert DESIGN_ATTACHMENT[0] != RESUME[0] && ECN_DRAWING[0] != WORK_PHOTO[0] && ENQUIRY_IMPORT[0] != REQUEST_PHOTO[0]
      && SUPPLIER_QUOTE[6] != GUARANTEE_CARD[6];
  }

  // ---- every kind at once ----

  lemma OneText(i: Intent, p: Intent)
    ensures EcnDrawing(i, p) <==>
              && RequiredText(i.engineeringChangeNoteId).Some?
              && p == EMPTY.(engineeringChangeNoteId := Put(RequiredText(i.engineeringChangeNoteId).value),
                             kind := Put(ECN_DRAWING))
    ensures EnquiryImport(i, p) <==>
              && RequiredText(i.enquiryId).Some?
              && p == EMPTY.(enquiryId := Put(RequiredText(i.enquiryId).value), kind := Put(ENQUIRY_IMPORT))
    ensures OrderSource(i, p) <==>
              && RequiredText(i.purchaseOrderId).Some?
              && p == EMPTY.(kind := Put(ORDER_SOURCE), purchaseOrderId := Put(RequiredText(i.purchaseOrderId).value))
    ensures Calibration(i, p) <==>
              && RequiredText(i.visitId).Some?
              && p == EMPTY.(kind := Put(CALIBRATION), visitId := Put(RequiredText(i.visitId).value))
  {
    AllReads();
    hide RequiredText, OptionalText, Reads, ReadsMaybe;
  }

  lemma OneOptionalText(i: Intent, p: Intent)
    ensures Resume(i, p) <==>
              && OptionalText(i.candidateId).Some?
              && p == EMPTY.(candidateId := OptionalText(i.candidateId).value, kind := Put(RESUME))
    ensures ItemDrawing(i, p) <==>
              && OptionalText(i.itemTypeId).Some?
              && p == EMPTY.(itemTypeId := OptionalText(i.itemTypeId).value, kind := Put(ITEM_DRAWING))
  {
    AllReads();
    hide RequiredText, OptionalText, Reads, ReadsMaybe;
  }

  // The kind a normal form is of.
  lemma KindsOf(i: Intent, p: Intent)
    ensures EnquiryItem(i, p) ==> p.kind == Put(ENQUIRY_ITEM)
    ensures SalesClarification(i, p) ==> p.kind == Put(SALES_CLARIFICATION)
    ensures DesignAttachment(i, p) ==> p.kind == Put(DESIGN_ATTACHMENT)
    ensures EcnDrawing(i, p) ==> p.kind == Put(ECN_DRAWING)
    ensures EnquiryImport(i, p) ==> p.kind == Put(ENQUIRY_IMPORT)
    ensures OrderSource(i, p) ==> p.kind == Put(ORDER_SOURCE)
    ensures Resume(i, p) ==> p.kind == Put(RESUME)
    ensures Photo(i, p, REQUEST_PHOTO, 8) ==> p.kind == Put(REQUEST_PHOTO)
    ensures Photo(i, p, WORK_PHOTO, 12) ==> p.kind == Put(WORK_PHOTO)
    ensures Calibration(i, p) ==> p.kind == Put(CALIBRATION)
    ensures ItemDrawing(i, p) ==> p.kind == Put(ITEM_DRAWING)
    ensures SupplierQuote(i, p) ==> p.kind == Put(SUPPLIER_QUOTE)
    ensures GuaranteeCard(i, p) ==> p.kind == Put(GUARANTEE_CARD)
  {
    hide Reads, ReadsMaybe, ReadsNumber;
  }

  lemma LongParsers(i: Intent, p: Intent)
    requires RequiredText(i.kind).Some?
    ensures RequiredText(i.kind).value == ENQUIRY_ITEM ==> (Parse(i) == Some(p) <==> EnquiryItem(i, p))
    ensures RequiredText(i.kind).value == SALES_CLARIFICATION ==> (Parse(i) == Some(p) <==> SalesClarification(i, p))
    ensures RequiredText(i.kind).value == DESIGN_ATTACHMENT ==> (Parse(i) == Some(p) <==> DesignAttachment(i, p))
    ensures RequiredText(i.kind).value == REQUEST_PHOTO ==> (Parse(i) == Some(p) <==> Photo(i, p, REQUEST_PHOTO, 8))
    ensures RequiredText(i.kind).value == WORK_PHOTO ==> (Parse(i) == Some(p) <==> Photo(i, p, WORK_PHOTO, 12))
    ensures RequiredText(i.kind).value == SUPPLIER_QUOTE ==> (Parse(i) == Some(p) <==> SupplierQuote(i, p))
    ensures RequiredText(i.kind).value == GUARANTEE_CARD ==> (Parse(i) == Some(p) <==> GuaranteeCard(i, p))
  {
    EnquiryItemParses(i, p);
    SalesClarificationParses(i, p);
    DesignAttachmentParses(i, p);
    PhotoParses(i, p, REQUEST_PHOTO, 8);
    PhotoParses(i, p, WORK_PHOTO, 12);
    SupplierQuoteParses(i, p);
    GuaranteeCardParses(i, p);
    KindsDiffer();
    hide RequiredText, OptionalText, KindNumber, ENQUIRY_ITEM, SALES_CLARIFICATION, DESIGN_ATTACHMENT, ECN_DRAWING,
      ENQUIRY_IMPORT, ORDER_SOURCE, RESUME, REQUEST_PHOTO, WORK_PHOTO, CALIBRATION, ITEM_DRAWING, SUPPLIER_QUOTE,
      GUARANTEE_CARD, EnquiryItem, SalesClarification, DesignAttachment, EcnDrawing, EnquiryImport, OrderSource,
      Calibration, Resume, ItemDrawing, Photo, SupplierQuote, GuaranteeCard, ParseEnquiryItem, ParseSalesClarification,
      ParseDesignAttachment, ParsePhoto, ParseSupplierQuote, ParseGuaranteeCard, EMPTY;
  }

  lemma ShortParsers(i: Intent, p: Intent)
    requires RequiredText(i.kind).Some?
    ensures RequiredText(i.kind).value == ECN_DRAWING ==> (Parse(i) == Some(p) <==> EcnDrawing(i, p))
    ensures RequiredText(i.kind).value == ENQUIRY_IMPORT ==> (Parse(i) == Some(p) <==> EnquiryImport(i, p))
    ensures RequiredText(i.kind).value == ORDER_SOURCE ==> (Parse(i) == Some(p) <==> OrderSource(i, p))
    ensures RequiredText(i.kind).value == RESUME ==> (Parse(i) == Some(p) <==> Resume(i, p))
    ensures RequiredText(i.kind).value == CALIBRATION ==> (Parse(i) == Some(p) <==> Calibration(i, p))
    ensures RequiredText(i.kind).value == ITEM_DRAWING ==> (Parse(i) == Some(p) <==> ItemDrawing(i, p))
  {
    OneText(i, p);
    OneOptionalText(i, p);
    KindsDiffer();
    hide RequiredText, OptionalText, KindNumber, ENQUIRY_ITEM, SALES_CLARIFICATION, DESIGN_ATTACHMENT, ECN_DRAWING,
      ENQUIRY_IMPORT, ORDER_SOURCE, RESUME, REQUEST_PHOTO, WORK_PHOTO, CALIBRATION, ITEM_DRAWING, SUPPLIER_QUOTE,
      GUARANTEE_CARD, EnquiryItem, SalesClarification, DesignAttachment, EcnDrawing, EnquiryImport, OrderSource,
      Calibration, Resume, ItemDrawing, Photo, SupplierQuote, GuaranteeCard, ParseEnquiryItem, ParseSalesClarification,
      ParseDesignAttachment, ParsePhoto, ParseSupplierQuote, ParseGuaranteeCard, EMPTY;
  }

  lemma OtherKinds(i: Intent)
    requires RequiredText(i.kind).Some?
    ensures Parse(i) == None || KindNumber(RequiredText(i.kind).value) < 13
  {
    KindsDiffer();
    hide RequiredText, OptionalText, KindNumber, ENQUIRY_ITEM, SALES_CLARIFICATION, DESIGN_ATTACHMENT, ECN_DRAWING,
      ENQUIRY_IMPORT, ORDER_SOURCE, RESUME, REQUEST_PHOTO, WORK_PHOTO, CALIBRATION, ITEM_DRAWING, SUPPLIER_QUOTE,
      GUARANTEE_CARD, EnquiryItem, SalesClarification, DesignAttachment, EcnDrawing, EnquiryImport, OrderSource,
      Calibration, Resume, ItemDrawing, Photo, SupplierQuote, GuaranteeCard, ParseEnquiryItem, ParseSalesClarification,
      ParseDesignAttachment, ParsePhoto, ParseSupplierQuote, ParseGuaranteeCard, EMPTY;
  }

  lemma Parsers(i: Intent, p: Intent)
    requires RequiredText(i.kind).Some?
    ensures var kind := RequiredText(i.kind).value;
            Parse(i) == Some(p) <==>
              || (kind == ENQUIRY_ITEM && EnquiryItem(i, p))
              || (kind == SALES_CLARIFICATION && SalesClarification(i, p))
              || (kind == DESIGN_ATTACHMENT && DesignAttachment(i, p))
              || (kind == ECN_DRAWING && EcnDrawing(i, p))
              || (kind == ENQUIRY_IMPORT && EnquiryImport(i, p))
              || (kind == ORDER_SOURCE && OrderSource(i, p))
              || (kind == RESUME && Resume(i, p))
              || (kind == REQUEST_PHOTO && Photo(i, p, REQUEST_PHOTO, 8))
              || (kind == WORK_PHOTO && Photo(i, p, WORK_PHOTO, 12))
              || (kind == CALIBRATION && Calibration(i, p))
              || (kind == ITEM_DRAWING && ItemDrawing(i, p))
              || (kind == SUPPLIER_QUOTE && SupplierQuote(i, p))
              || (kind == GUARANTEE_CARD && GuaranteeCard(i, p))
  {
    LongParsers(i, p);
    ShortParsers(i, p);
    OtherKinds(i);
    NumberOfKind(RequiredText(i.kind).value);
    hide RequiredText, OptionalText, KindNumber, ENQUIRY_ITEM, SALES_CLARIFICATION, DESIGN_ATTACHMENT, ECN_DRAWING,
      ENQUIRY_IMPORT, ORDER_SOURCE, RESUME, REQUEST_PHOTO, WORK_PHOTO, CALIBRATION, ITEM_DRAWING, SUPPLIER_QUOTE,
      GUARANTEE_CARD, EnquiryItem, SalesClarification, DesignAttachment, EcnDrawing, EnquiryImport, OrderSource,
      Calibration, Resume, ItemDrawing, Photo, SupplierQuote, GuaranteeCard, ParseEnquiryItem, ParseSalesClarification,
      ParseDesignAttachment, ParsePhoto, ParseSupplierQuote, ParseGuaranteeCard, EMPTY, Parse;
  }

  lemma NumberOfKind(kind: string)
    ensures KindNumber(kind) < 13 ==>
              || kind == ENQUIRY_ITEM
              || kind == SALES_CLARIFICATION
              || kind == DESIGN_ATTACHMENT
              || kind == ECN_DRAWING
              || kind == ENQUIRY_IMPORT
              || kind == ORDER_SOURCE
              || kind == RESUME
              || kind == REQUEST_PHOTO
              || kind == WORK_PHOTO
              || kind == CALIBRATION
              || kind == ITEM_DRAWING
              || kind == SUPPLIER_QUOTE
              || kind == GUARANTEE_CARD
  {
  }

  lemma PhotoKinds(i: Intent, p: Intent)
    ensures Photo(i, p, "maintenance-request-photo", 8) == Photo(i, p, REQUEST_PHOTO, 8)
    ensures Photo(i, p, "maintenance-work-photo", 12) == Photo(i, p, WORK_PHOTO, 12)
  {
    hide Photo;
  }

  // The parser accepts a record exactly when it has a normal form of its kind, and returns that.
  lemma ParsedExactly(i: Intent, p: Intent)
    ensures Parse(i) == Some(p) <==> Reads(i.kind, p.kind) && Normal(i, p)
  {
    hide Parse, RequiredText, OptionalText, Reads, KindNumber, EMPTY, ENQUIRY_ITEM, SALES_CLARIFICATION,
      DESIGN_ATTACHMENT, ECN_DRAWING, ENQUIRY_IMPORT, ORDER_SOURCE, RESUME, REQUEST_PHOTO, WORK_PHOTO, CALIBRATION,
      ITEM_DRAWING, SUPPLIER_QUOTE, GUARANTEE_CARD, EnquiryItem, SalesClarification, DesignAttachment, EcnDrawing,
      EnquiryImport, OrderSource, Calibration, Resume, ItemDrawing, Photo, SupplierQuote, GuaranteeCard;
    TextReads(i.kind, p.kind);
    KindsOf(i, p);
    PhotoKinds(i, p);
    if RequiredText(i.kind).Some? {
      Parsers(i, p);
      KindsDiffer();
    } else {
      NoKind(i);
    }
  }

  lemma NoKind(i: Intent)
    requires RequiredText(i.kind) == None
    ensures Parse(i) == None
  {
    hide RequiredText;
  }
}

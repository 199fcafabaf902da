/**
 * The delivery-challan editor: the row list that `updateItem`, `addItem`,
 * `removeItem` and `handleItemSelect` rewrite, the validation gate and
 * payload of `handleSave`, and the edit page's `fetchChallan` decoding.
 * The create and the edit page share every row operation; they differ in
 * how a row's discount is written to the payload and in the saved status.
 */
module DeliveryChallan {
  import opened Wrappers
  import opened Text
  import opened ChallanPricing
  import opened RowLists

  /** An entry of the page's `customers` list (addresses are not modelled). */
  datatype Customer = Customer(id: string, displayName: string, companyName: string, gstin: string)

  /** A catalog price as the items API delivers it: text (possibly "45,000.00"), a number, or absent. */
  datatype PriceField = PriceText(text: string) | PriceNumber(amount: real) | NoPrice

  /** An entry of `inventoryItems`; an absent optional text is "". */
  datatype InventoryItem = InventoryItem(
    id: string,
    name: string,
    description: string,
    hsnSac: string,
    rate: PriceField,
    sellingPrice: PriceField,
    intraStateTax: string
  )

  /** One edit `updateItem(id, field, value)` can make; the UI never edits ids or names through it. */
  datatype ItemField =
    | Qty(qty: real)
    | Rate(rate: real)
    | DiscountValue(value: real)
    | DiscountType(kind: string)
    | GstRate(gst: int)

  datatype SaveError = NoCustomer | NoChallanType | NoNamedItem | BadQuantityOrRate

  /** What a row's `discount` field carries in the payload. */
  datatype DiscountEncoding =
    | SaveDiscountValue    // the create page: `discount: item.discountValue`
    | SaveDiscountAmount   // the edit page: `discount: lineCalc.discountAmount`

  /** One entry of the payload's `items`. */
  datatype ItemPayload = ItemPayload(
    id: RowId,
    name: string,
    description: string,
    hsnSac: string,
    quantity: real,
    unit: string,
    rate: real,
    discount: real,
    discountType: string,
    tax: real,
    taxName: string,
    amount: real
  )

  /** The document `handleSave` posts (date and addresses are not modelled). */
  datatype ChallanPayload = ChallanPayload(
    referenceNumber: string,
    customerId: string,
    customerName: string,
    challanType: string,
    gstin: string,
    items: seq<ItemPayload>,
    subTotal: real,
    cgst: real,
    sgst: real,
    igst: real,
    adjustment: real,
    total: real,
    customerNotes: string,
    termsAndConditions: string,
    status: string
  )

  /** A stored row as the challan API returns it to the edit page; absent text is "". */
  datatype StoredItem = StoredItem(
    name: string,
    description: string,
    hsnSac: string,
    quantity: real,
    rate: real,
    discountType: string,
    discount: real,
    taxName: string
  )

  /** A stored challan as `fetchChallan` receives it. */
  datatype StoredChallan = StoredChallan(
    challanNumber: string,
    referenceNumber: string,
    customerId: string,
    challanType: string,
    customerNotes: string,
    termsAndConditions: string,
    adjustment: real,
    status: string,
    items: seq<StoredItem>
  )

  /** `parseFloat`, which the model takes as given; None stands for NaN. */
  type Parser = string -> Option<real>

  const AddNewCustomer: string := "add_new_customer"
  const UnknownCustomer: string := "Unknown Customer"

  // ---------------------------------------------------------------------
  // Rows.

  /** The row `addItem` appends and an empty load starts from. */
  function DefaultRow(id: RowId): ChallanItem {
    ChallanItem(id, "", "", "", 1.0, 0.0, Percentage, 0.0, 18)
  }

  /** The id `updateItem`, `removeItem` and `handleItemSelect` match rows on. */
  function RowKey(item: ChallanItem): RowId {
    item.id
  }

  predicate DistinctIds(rows: seq<ChallanItem>) {
    DistinctKeys(rows, RowKey)
  }

  predicate HasId(rows: seq<ChallanItem>, id: RowId) {
    HasKey(rows, RowKey, id)
  }

  /** `{ ...item, [field]: value }`. */
  function WithField(item: ChallanItem, f: ItemField): ChallanItem {
    match f
    case Qty(q) => item.(qty := q)
    case Rate(r) => item.(rate := r)
    case DiscountValue(v) => item.(discountValue := v)
    case DiscountType(k) => item.(discountType := k)
    case GstRate(g) => item.(gstRate := g)
  }

  /** `updateItem`: the rows after setting one field of the row(s) with the given id. */
  function UpdateRows(rows: seq<ChallanItem>, id: RowId, f: ItemField): seq<ChallanItem> {
    MapMatching(rows, RowKey, id, item => WithField(item, f))
  }

  /** `removeItem`: filtering only happens while more than one row is left. */
  function RemoveRows(rows: seq<ChallanItem>, id: RowId): seq<ChallanItem> {
    RemoveRow(rows, RowKey, id)
  }

  /** `parseFloat(x) || 0` for a number: NaN and 0 both give 0. */
  function OrZero(v: Option<real>): real {
    if v.Some? then v.value else 0.0
  }

  predicate PriceTruthy(p: PriceField) {
    match p
    case PriceText(t) => t != ""
    case PriceNumber(n) => n != 0.0
    case NoPrice => false
  }

  /** The price a field gives: text is parsed with its commas removed, a number is taken as is. */
  function PriceOf(p: PriceField, parse: Parser): real {
    match p
    case PriceText(t) => OrZero(parse(RemoveCommas(t)))
    case PriceNumber(n) => n
    case NoPrice => 0.0
  }

  /** `handleItemSelect`'s rate: the `rate` field when present, else a truthy `sellingPrice`, else 0. */
  function CatalogRate(inv: InventoryItem, parse: Parser): real {
    if !inv.rate.NoPrice? then PriceOf(inv.rate, parse)
    else if PriceTruthy(inv.sellingPrice) then PriceOf(inv.sellingPrice, parse)
    else 0.0
  }

  /** `handleItemSelect`'s GST rate: `parseInt` of the first digit run of `intraStateTax`, else 0. */
  function CatalogGstRate(intraStateTax: string): (g: nat)
    ensures (forall i :: 0 <= i < |intraStateTax| ==> !IsDigit(intraStateTax[i])) ==> g == 0
    ensures forall i :: FirstDigitAt(intraStateTax, i) ==> g == DigitsValue(LeadingDigits(intraStateTax[i..]))
  {
    assert forall i :: FirstDigitAt(intraStateTax, i) ==>
      FirstDigitRun(intraStateTax) == Some(LeadingDigits(intraStateTax[i..])) by {
      forall i | FirstDigitAt(intraStateTax, i) {
        FirstDigitRunAt(intraStateTax, i);
      }
    }
    if intraStateTax == "" then 0
    else match FirstDigitRun(intraStateTax)
      case Some(d) => DigitsValue(d)
      case None => 0
  }

  /** The row after catalog selection: name, description, HSN/SAC, rate and GST rate are replaced. */
  function WithCatalogItem(row: ChallanItem, inv: InventoryItem, parse: Parser): (r: ChallanItem)
    ensures r.id == row.id && r.qty == row.qty
    ensures r.discountType == row.discountType && r.discountValue == row.discountValue
  {
    row.(name := inv.name, description := inv.description, hsnSac := inv.hsnSac,
         rate := CatalogRate(inv, parse), gstRate := CatalogGstRate(inv.intraStateTax))
  }

  /** `handleItemSelect`'s `setItems(items.map(...))` once the catalog entry is found. */
  function SelectRows(rows: seq<ChallanItem>, rowId: RowId, inv: InventoryItem, parse: Parser): seq<ChallanItem> {
    MapMatching(rows, RowKey, rowId, row => WithCatalogItem(row, inv, parse))
  }

  function InventoryId(inv: InventoryItem): string { inv.id }
  function CustomerId(c: Customer): string { c.id }

  /** `inventoryItems.find(i => i.id === id)`. */
  function FindInventory(catalog: seq<InventoryItem>, id: string): Option<InventoryItem> {
    Find(catalog, InventoryId, id)
  }

  /** `customers.find(c => c.id === id)`. */
  function FindCustomer(customers: seq<Customer>, id: string): Option<Customer> {
    Find(customers, CustomerId, id)
  }

  // ---------------------------------------------------------------------
  // Validation and payload.

  /** `items.filter(item => item.name.trim() !== '')`. */
  function NamedRows(rows: seq<ChallanItem>): (r: seq<ChallanItem>)
    ensures forall x :: x in r <==> x in rows && !IsBlank(x.name)
    ensures |r| <= |rows|
  {
    if rows == [] then []
    else if IsBlank(rows[0].name) then NamedRows(rows[1..])
    else [rows[0]] + NamedRows(rows[1..])
  }

  /** The filter works row by row: it distributes over concatenation, keeping order and repeats. */
  lemma {:induction false} NamedRowsAppend(a: seq<ChallanItem>, b: seq<ChallanItem>)
    ensures NamedRows(a + b) == NamedRows(a) + NamedRows(b)
  {
    if a == [] {
      assert a + b == b;
    } else {
      assert (a + b)[1..] == a[1..] + b;
      NamedRowsAppend(a[1..], b);
    }
  }

  /** On one row: a blank name drops it, any other name keeps it. */
  lemma NamedRowsSingle(x: ChallanItem)
    ensures NamedRows([x]) == if IsBlank(x.name) then [] else [x]
  {
  }

  predicate BadRow(item: ChallanItem) {
    item.qty <= 0.0 || item.rate < 0.0
  }

  /** The early returns of `handleSave`, in their order. */
  function Validate(customerId: string, challanType: string, rows: seq<ChallanItem>): (e: Option<SaveError>)
    ensures e.None? <==>
      customerId != "" && challanType != "" && NamedRows(rows) != [] &&
      forall x :: x in rows && !IsBlank(x.name) ==> !BadRow(x)
    ensures customerId == "" ==> e == Some(NoCustomer)
    ensures customerId != "" && challanType == "" ==> e == Some(NoChallanType)
    ensures e == Some(BadQuantityOrRate) ==> exists x :: x in rows && !IsBlank(x.name) && BadRow(x)
    ensures customerId != "" && challanType != "" && NamedRows(rows) == [] ==> e == Some(NoNamedItem)
    ensures customerId != "" && challanType != "" && (exists x :: x in rows && !IsBlank(x.name) && BadRow(x)) ==>
      e == Some(BadQuantityOrRate)
  {
    var named := NamedRows(rows);
    if customerId == "" then Some(NoCustomer)
    else if challanType == "" then Some(NoChallanType)
    else if named == [] then Some(NoNamedItem)
    else if exists x :: x in named && BadRow(x) then Some(BadQuantityOrRate)
    else None
  }

  /** One payload row; only the `discount` field depends on the page. */
  function ItemPayloadOf(item: ChallanItem, enc: DiscountEncoding): (p: ItemPayload)
    ensures p.tax == CalculateLineItem(item).taxAmount && p.amount == CalculateLineItem(item).total
    ensures p.taxName == TaxName(item.gstRate)
  {
    var line := CalculateLineItem(item);
    ItemPayload(item.id, item.name, item.description, item.hsnSac, item.qty, "pcs", item.rate,
                if enc == SaveDiscountValue then item.discountValue else line.discountAmount,
                item.discountType, line.taxAmount, TaxName(item.gstRate), line.total)
  }

  function EncodeItems(rows: seq<ChallanItem>, enc: DiscountEncoding): (r: seq<ItemPayload>)
    ensures |r| == |rows|
    ensures forall i :: 0 <= i < |rows| ==> r[i] == ItemPayloadOf(rows[i], enc)
  {
    seq(|rows|, i requires 0 <= i < |rows| => ItemPayloadOf(rows[i], enc))
  }

  /** `selectedCustomer?.displayName || "Unknown Customer"`. */
  function CustomerName(customers: seq<Customer>, id: string): string {
    match FindCustomer(customers, id)
    case Some(c) => if c.displayName != "" then c.displayName else UnknownCustomer
    case None => UnknownCustomer
  }

  /** `selectedCustomer?.gstin || ''`. */
  function CustomerGstin(customers: seq<Customer>, id: string): string {
    match FindCustomer(customers, id)
    case Some(c) => c.gstin
    case None => ""
  }

  // ---------------------------------------------------------------------
  // Loading on the edit page.

  /** `discountType || 'percentage'`. */
  function LoadedDiscountType(t: string): string {
    if t == "" then Percentage else t
  }

  /** One stored row decoded by `fetchChallan`; its id is its position plus one. */
  function LoadItem(s: StoredItem, index: nat): ChallanItem {
    ChallanItem(index + 1, s.name, s.description, s.hsnSac, s.quantity, s.rate,
                LoadedDiscountType(s.discountType), s.discount, DecodeGstRate(s.taxName))
  }

  /** The row list after loading: the decoded rows, or one default row when there are none. */
  function LoadRows(stored: seq<StoredItem>): (r: seq<ChallanItem>)
    ensures |r| >= 1 && DistinctIds(r)
    ensures stored == [] ==> r == [DefaultRow(1)]
    ensures stored != [] ==> |r| == |stored| && forall i :: 0 <= i < |r| ==> r[i].id == i + 1
  {
    if stored == [] then [DefaultRow(1)]
    else seq(|stored|, i requires 0 <= i < |stored| => LoadItem(stored[i], i))
  }

  /** What the backend keeps of a saved row and hands back on the next load. */
  function Stored(p: ItemPayload): StoredItem {
    StoredItem(p.name, p.description, p.hsnSac, p.quantity, p.rate, p.discountType, p.discount, p.taxName)
  }

  // ---------------------------------------------------------------------
  // Lemmas about the row list.

  /** Updating a field keeps the row count and ids and touches only rows with the given id. */
  lemma UpdateTouchesOnlyMatchingRow(rows: seq<ChallanItem>, id: RowId, f: ItemField)
    requires DistinctIds(rows)
    ensures var r := UpdateRows(rows, id, f);
      |r| == |rows| && DistinctIds(r) &&
      (forall i :: 0 <= i < |rows| && rows[i].id != id ==> r[i] == rows[i]) &&
      (forall i :: 0 <= i < |rows| ==> r[i].id == rows[i].id && r[i].name == rows[i].name)
  {
    var r := UpdateRows(rows, id, f);
    MapMatchingKeepsKeys(rows, RowKey, id, item => WithField(item, f));
    forall i | 0 <= i < |rows| ensures r[i].name == rows[i].name {
      if rows[i].id == id {
        assert r[i] == WithField(rows[i], f);
      }
    }
  }

  /** `removeItem` never empties a row list whose ids are distinct, and keeps them distinct. */
  lemma RemoveKeepsARowAndDistinctIds(rows: seq<ChallanItem>, id: RowId)
    requires |rows| >= 1 && DistinctIds(rows)
    ensures |RemoveRows(rows, id)| >= 1 && DistinctIds(RemoveRows(rows, id))
    ensures |rows| == 1 ==> RemoveRows(rows, id) == rows
    ensures forall x :: x in RemoveRows(rows, id) ==> x in rows && (|rows| > 1 ==> x.id != id)
  {
    RemoveKeepsARow(rows, RowKey, id);
  }

  /** The one-row floor rests on distinct ids: two rows sharing the removed id both disappear. */
  lemma RemoveWithSharedIdsEmpties()
    ensures RemoveRows([DefaultRow(7), DefaultRow(7)], 7) == []
  {
    var rows := [DefaultRow(7), DefaultRow(7)];
    assert rows[1..][1..] == [];
  }

  /** Appending a default row with a fresh id keeps the ids distinct. */
  lemma AddKeepsIdsDistinct(rows: seq<ChallanItem>, id: RowId)
    requires DistinctIds(rows) && !HasId(rows, id)
    ensures DistinctIds(rows + [DefaultRow(id)])
  {
    AppendFreshKeepsDistinct(rows, RowKey, DefaultRow(id));
  }

  /** The appended default row (rate 0) leaves every document total as it was. */
  lemma AddLeavesTotalsUnchanged(rows: seq<ChallanItem>, id: RowId, adjustment: real)
    ensures FinalTotal(rows + [DefaultRow(id)], adjustment) == FinalTotal(rows, adjustment)
    ensures ChallanTotals(rows + [DefaultRow(id)]).totalTax == ChallanTotals(rows).totalTax
  {
    TotalsFoldLaw(rows, adjustment);
    TotalsFoldLaw(rows + [DefaultRow(id)], adjustment);
    SumsAppend(rows, [DefaultRow(id)]);
    assert [DefaultRow(id)][1..] == [];
  }

  /** Catalog selection parses "45,000.00" exactly as "45000.00". */
  lemma CatalogRateIgnoresCommas(inv: InventoryItem, parse: Parser)
    requires inv.rate.PriceText?
    ensures CatalogRate(inv, parse) == CatalogRate(inv.(rate := PriceText(RemoveCommas(inv.rate.text))), parse)
  {
  }

  /** The GST rate of a catalog item is the number in its first digit run. */
  lemma CatalogGstRateExamples()
    ensures CatalogGstRate("gst18") == 18
    ensures CatalogGstRate("GST5") == 5
    ensures CatalogGstRate("exempt") == 0
    ensures CatalogGstRate("") == 0
  {
    assert LeadingDigits("8") == "8" by { assert "8"[1..] == ""; }
    assert LeadingDigits("18") == "18" by { assert "18"[1..] == "8"; }
    assert FirstDigitRun("18") == Some("18");
    assert FirstDigitRun("gst18") == Some("18") by {
      assert "gst18"[1..] == "st18" && "st18"[1..] == "t18" && "t18"[1..] == "18";
    }
    assert DigitsValue("18") == 18 by {
      assert "18"[..1] == "1" && "1"[..0] == "";
    }
    assert LeadingDigits("5") == "5" by { assert "5"[1..] == ""; }
    assert FirstDigitRun("GST5") == Some("5") by {
      assert "GST5"[1..] == "ST5" && "ST5"[1..] == "T5" && "T5"[1..] == "5";
    }
    assert DigitsValue("5") == 5 by { assert "5"[..0] == ""; }
  }

  // ---------------------------------------------------------------------
  // Save/load round trip of a row.

  /** A rate the tax select offers: Non-taxable, GST0, 5, 12, 18 or 28. */
  predicate OfferedRate(g: int) {
    g == -1 || g == 0 || g == 5 || g == 12 || g == 18 || g == 28
  }

  /**
   * Saved with the create page's encoding, a row loads back unchanged except
   * for its id and for 'Non-taxable', which loads as GST0.
   */
  lemma DiscountValueEncodingRoundTrips(item: ChallanItem, index: nat)
    requires OfferedRate(item.gstRate) && item.discountType != ""
    ensures LoadItem(Stored(ItemPayloadOf(item, SaveDiscountValue)), index)
         == item.(id := index + 1, gstRate := if item.gstRate > 0 then item.gstRate else 0)
  {
    if item.gstRate > 0 {
      TaxNameRoundTrip(item.gstRate);
    } else {
      UntaxedDecodesToZero(item.gstRate);
    }
  }

  /** The edit page's encoding keeps a flat discount exactly when it does not exceed the base. */
  lemma DiscountAmountEncodingKeepsFlatOnlyUpToBase(item: ChallanItem, index: nat)
    requires item.discountType != "" && item.discountType != Percentage
    ensures LoadItem(Stored(ItemPayloadOf(item, SaveDiscountAmount)), index).discountValue == item.discountValue
        <==> item.discountValue <= item.qty * item.rate
  {
  }

  /**
   * The edit page's encoding turns a percentage into an amount that the next
   * load reads as a percentage again: 10% of 2 x 100 is saved as 20 and comes
   * back as 20%, so the taxable amount drops from 180 to 160.
   */
  lemma DiscountAmountEncodingDriftsPercentage()
    ensures var item := ChallanItem(1, "Widget", "", "", 2.0, 100.0, Percentage, 10.0, 18);
      var back := LoadItem(Stored(ItemPayloadOf(item, SaveDiscountAmount)), 0);
      back.discountValue == 20.0 &&
      CalculateLineItem(item).taxableAmount == 180.0 &&
      CalculateLineItem(back).taxableAmount == 160.0
  {
  }

  /** The stored challan number loses its "DC-" prefix on load. */
  lemma ChallanNumberPrefixStripped(n: string)
    ensures ReplaceFirst("DC-" + n, "DC-", "") == n
  {
    assert ("DC-" + n)[..3] == "DC-";
    assert ("DC-" + n)[3..] == n;
  }

  // ---------------------------------------------------------------------
  // The page state.

  class ChallanForm {
    var customers: seq<Customer>
    var inventory: seq<InventoryItem>
    var challanNumber: string
    var referenceNumber: string
    var customerId: string
    var challanType: string
    var customerNotes: string
    var termsAndConditions: string
    var adjustment: real
    var status: string
    var items: seq<ChallanItem>

    /** The row list is never empty and its ids are distinct. */
    ghost predicate Valid()
      reads this
    {
      |items| >= 1 && DistinctIds(items)
    }

    /** The create page's initial state: one default row with id 1. */
    constructor (customers: seq<Customer>, inventory: seq<InventoryItem>)
      ensures Valid()
      ensures this.customers == customers && this.inventory == inventory
      ensures items == [DefaultRow(1)]
      ensures customerId == "" && challanType == "" && adjustment == 0.0 && status == "DRAFT"
      ensures challanNumber == "" && referenceNumber == "" && customerNotes == "" && termsAndConditions == ""
    {
      this.customers := customers;
      this.inventory := inventory;
      challanNumber := "";
      referenceNumber := "";
      customerId := "";
      challanType := "";
      customerNotes := "";
      termsAndConditions := "";
      adjustment := 0.0;
      status := "DRAFT";
      items := [DefaultRow(1)];
    }

    /** `handleCustomerChange`: the "add new customer" entry navigates away and selects nothing. */
    method SelectCustomer(value: string)
      modifies this`customerId
      ensures customerId == if value == AddNewCustomer then old(customerId) else value
    {
      if value != AddNewCustomer {
        customerId := value;
      }
    }

    /** The challan-type select. */
    method SetChallanType(value: string)
      modifies this`challanType
      ensures challanType == value
    {
      challanType := value;
    }

    /** The adjustment input (`parseFloat(...) || 0` is done by the caller). */
    method SetAdjustment(value: real)
      modifies this`adjustment
      ensures adjustment == value
    {
      adjustment := value;
    }

    /** `updateItem(id, field, value)`. */
    method UpdateItem(id: RowId, f: ItemField)
      requires Valid()
      modifies this`items
      ensures Valid()
      ensures items == UpdateRows(old(items), id, f)
    {
      UpdateTouchesOnlyMatchingRow(items, id, f);
      items := UpdateRows(items, id, f);
    }

    /** `addItem`, with `freshId` standing for the `Math.random()` id. */
    method AddItem(freshId: RowId)
      requires Valid() && !HasId(items, freshId)
      modifies this`items
      ensures Valid()
      ensures items == old(items) + [DefaultRow(freshId)]
    {
      AddKeepsIdsDistinct(items, freshId);
      items := items + [DefaultRow(freshId)];
    }

    /** `removeItem(id)`: a no-op while only one row is left. */
    method RemoveItem(id: RowId)
      requires Valid()
      modifies this`items
      ensures Valid()
      ensures items == RemoveRows(old(items), id)
      ensures |old(items)| == 1 ==> items == old(items)
    {
      RemoveKeepsARowAndDistinctIds(items, id);
      items := RemoveRows(items, id);
    }

    /** `handleItemSelect(rowId, inventoryId)`; an unknown catalog id changes nothing. */
    method SelectItem(rowId: RowId, inventoryId: string, parse: Parser)
      requires Valid()
      modifies this`items
      ensures Valid()
      ensures FindInventory(inventory, inventoryId).None? ==> items == old(items)
      ensures FindInventory(inventory, inventoryId).Some? ==>
        items == SelectRows(old(items), rowId, FindInventory(inventory, inventoryId).value, parse)
    {
      var found := FindInventory(inventory, inventoryId);
      if found.Some? {
        var inv := found.value;
        MapMatchingKeepsKeys(items, RowKey, rowId, row => WithCatalogItem(row, inv, parse));
        items := SelectRows(items, rowId, inv, parse);
      }
    }

    /** The edit page's `fetchChallan` applied to a stored challan. */
    method Load(stored: StoredChallan)
      modifies this`challanNumber, this`referenceNumber, this`customerId, this`challanType,
               this`customerNotes, this`termsAndConditions, this`adjustment, this`status, this`items
      ensures Valid()
      ensures items == LoadRows(stored.items)
      ensures challanNumber == ReplaceFirst(stored.challanNumber, "DC-", "")
      ensures referenceNumber == stored.referenceNumber && customerId == stored.customerId
      ensures challanType == stored.challanType && customerNotes == stored.customerNotes
      ensures termsAndConditions == stored.termsAndConditions
      ensures adjustment == stored.adjustment && status == stored.status
    {
      challanNumber := ReplaceFirst(stored.challanNumber, "DC-", "");
      referenceNumber := stored.referenceNumber;
      customerId := stored.customerId;
      challanType := stored.challanType;
      customerNotes := stored.customerNotes;
      termsAndConditions := stored.termsAndConditions;
      adjustment := stored.adjustment;
      status := stored.status;
      items := LoadRows(stored.items);
    }

    /**
     * `handleSave`: the validation gate, then the payload. The items are the
     * named rows only, while the subtotal and total come from every row; the
     * tax is split evenly into CGST and SGST and IGST is 0.
     */
    method Save(enc: DiscountEncoding, saveStatus: string) returns (r: Result<ChallanPayload, SaveError>)
      ensures r.Failure? <==> Validate(customerId, challanType, items).Some?
      ensures r.Failure? ==> r.error == Validate(customerId, challanType, items).value
      ensures r.Success? ==>
        var p := r.value;
        p.items == EncodeItems(NamedRows(items), enc) &&
        p.subTotal == SumTaxable(items) &&
        p.cgst == p.sgst && p.cgst + p.sgst == SumTax(items) && p.igst == 0.0 &&
        p.total == SumTaxable(items) + SumTax(items) + adjustment &&
        p.adjustment == adjustment && p.status == saveStatus &&
        p.customerId == customerId && p.challanType == challanType &&
        p.customerName == CustomerName(customers, customerId)
    {
      if customerId == "" {
        return Failure(NoCustomer);
      }
      if challanType == "" {
        return Failure(NoChallanType);
      }
      var validItems := NamedRows(items);
      if validItems == [] {
        return Failure(NoNamedItem);
      }
      if exists x :: x in validItems && BadRow(x) {
        return Failure(BadQuantityOrRate);
      }
      var totals := ChallanTotals(items);
      TotalsFoldLaw(items, adjustment);
      r := Success(ChallanPayload(
        referenceNumber, customerId, CustomerName(customers, customerId), challanType,
        CustomerGstin(customers, customerId), EncodeItems(validItems, enc),
        totals.taxableSubtotal, totals.totalTax / 2.0, totals.totalTax / 2.0, 0.0,
        adjustment, FinalTotal(items, adjustment), customerNotes, termsAndConditions, saveStatus));
    }

    /** The create page's save: the discount value is stored, the status is DRAFT or OPEN. */
    method SaveNew(saveStatus: string) returns (r: Result<ChallanPayload, SaveError>)
      ensures r.Failure? <==> Validate(customerId, challanType, items).Some?
      ensures r.Success? ==> r.value.items == EncodeItems(NamedRows(items), SaveDiscountValue)
      ensures r.Success? ==> r.value.status == saveStatus
      ensures r.Success? ==> r.value.total == SumTaxable(items) + SumTax(items) + adjustment
    {
      r := Save(SaveDiscountValue, saveStatus);
    }

    /** The edit page's save: the computed discount amount is stored; the status is `newStatus || status`. */
    method SaveEdited(newStatus: string) returns (r: Result<ChallanPayload, SaveError>)
      ensures r.Failure? <==> Validate(customerId, challanType, items).Some?
      ensures r.Success? ==> r.value.items == EncodeItems(NamedRows(items), SaveDiscountAmount)
      ensures r.Success? ==> r.value.status == if newStatus != "" then newStatus else status
      ensures r.Success? ==> r.value.total == SumTaxable(items) + SumTax(items) + adjustment
    {
      r := Save(SaveDiscountAmount, if newStatus != "" then newStatus else status);
    }
  }
}

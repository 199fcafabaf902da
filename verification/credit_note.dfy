/**
 * The credit-note editor's line items: `updateLineItem` with its amount
 * arithmetic, `addLineItem`, `removeLineItem`, `calculateTotals`, catalog
 * selection (`handleItemChange`), the tax select and the `handleSubmit`
 * guard and payload. Unlike the delivery challan, the amount has no
 * percentage cap and no clamp, tax never enters it, and the total includes
 * shipping charges.
 */
module CreditNote {
  import opened Wrappers
  import opened Text
  import opened RowLists

  /** One row of `lineItems`; `tax` is the selected option's rate in percent. */
  datatype LineItem = LineItem(
    id: string,
    itemId: string,
    name: string,
    description: string,
    account: string,
    quantity: real,
    rate: real,
    discount: real,
    discountType: string,
    tax: real,
    taxName: string,
    amount: real
  )

  /** `Partial<LineItem>` as the page passes it: None leaves a field as it is. */
  datatype LinePatch = LinePatch(
    itemId: Option<string>,
    name: Option<string>,
    description: Option<string>,
    account: Option<string>,
    quantity: Option<real>,
    rate: Option<real>,
    discount: Option<real>,
    discountType: Option<string>,
    tax: Option<real>,
    taxName: Option<string>,
    amount: Option<real>
  )

  /** A catalog price: text such as "45,000.00", a number, or absent. */
  datatype CatalogRate = RateText(text: string) | RateNumber(value: real) | NoRate

  /** An entry of the `items` catalog; absent optional text is "", an absent `sellingPrice` is 0. */
  datatype CatalogItem = CatalogItem(
    id: string,
    name: string,
    description: string,
    salesAccount: string,
    rate: CatalogRate,
    sellingPrice: real
  )

  /** An entry of the `customers` list (the billing address is not modelled). */
  datatype Customer = Customer(id: string, name: string, displayName: string, gstin: string, placeOfSupply: string)

  datatype TaxOption = TaxOption(value: string, caption: string, rate: real)

  /** The body `handleSubmit` sends (date, salesperson, subject, address and notes are not modelled). */
  datatype CreditNotePayload = CreditNotePayload(
    customerId: string,
    customerName: string,
    gstin: string,
    placeOfSupply: string,
    items: seq<LineItem>,
    subTotal: real,
    shippingCharges: real,
    tdsAmount: real,
    cgst: real,
    sgst: real,
    igst: real,
    adjustment: real,
    total: real,
    status: string
  )

  /**
   * A row of the stored note as the server returns it; an absent or null
   * text field reads as "", an absent number as 0.
   */
  datatype StoredLine = StoredLine(
    id: string,
    itemId: string,
    name: string,
    description: string,
    account: string,
    quantity: real,
    rate: real,
    discount: real,
    discountType: string,
    tax: real,
    taxName: string,
    amount: real
  )

  /** The stored note's fields that reach the modelled state. */
  datatype StoredNote = StoredNote(
    customerId: string,
    customerName: string,
    gstin: string,
    placeOfSupply: string,
    items: seq<StoredLine>,
    shippingCharges: real,
    adjustment: real
  )

  /** `parseFloat`, which the model takes as given; None stands for NaN. */
  type Parser = string -> Option<real>

  const Percentage: string := "percentage"
  const DefaultAccount: string := "sales"

  /** The tax select's options, in the order the page lists them. */
  const TaxOptions: seq<TaxOption> := [
    TaxOption("none", "None", 0.0),
    TaxOption("GST0", "GST 0%", 0.0),
    TaxOption("GST5", "GST 5%", 5.0),
    TaxOption("GST12", "GST 12%", 12.0),
    TaxOption("GST18", "GST 18%", 18.0),
    TaxOption("GST28", "GST 28%", 28.0),
    TaxOption("IGST0", "IGST 0%", 0.0),
    TaxOption("IGST5", "IGST 5%", 5.0),
    TaxOption("IGST12", "IGST 12%", 12.0),
    TaxOption("IGST18", "IGST 18%", 18.0),
    TaxOption("IGST28", "IGST 28%", 28.0)
  ]

  const NoUpdates: LinePatch := LinePatch(None, None, None, None, None, None, None, None, None, None, None)

  // ---------------------------------------------------------------------
  // Row arithmetic.

  /** The row `addLineItem` appends and the page starts from. */
  function DefaultLine(id: string): LineItem {
    LineItem(id, "", "", "", "", 1.0, 0.0, 0.0, Percentage, 0.0, "none", 0.0)
  }

  /** `discountType || 'percentage'`. */
  function EffectiveDiscountType(t: string): string {
    if t == "" then Percentage else t
  }

  /** The discount `updateLineItem` subtracts: a share of `quantity * rate` or a flat amount. */
  function DiscountOf(item: LineItem): real {
    if EffectiveDiscountType(item.discountType) == Percentage
    then item.quantity * item.rate * item.discount / 100.0
    else item.discount
  }

  /** The amount `updateLineItem` writes into a row. */
  function LineAmount(item: LineItem): real {
    item.quantity * item.rate - DiscountOf(item)
  }

  function Pick<T>(o: Option<T>, current: T): T {
    if o.Some? then o.value else current
  }

  /** `{ ...item, ...updates }`. */
  function Merge(item: LineItem, p: LinePatch): LineItem {
    LineItem(item.id, Pick(p.itemId, item.itemId), Pick(p.name, item.name),
             Pick(p.description, item.description), Pick(p.account, item.account),
             Pick(p.quantity, item.quantity), Pick(p.rate, item.rate), Pick(p.discount, item.discount),
             Pick(p.discountType, item.discountType), Pick(p.tax, item.tax), Pick(p.taxName, item.taxName),
             Pick(p.amount, item.amount))
  }

  /** The matched row after `updateLineItem`: merged, then its amount recomputed. */
  function ApplyUpdates(item: LineItem, p: LinePatch): (r: LineItem)
    ensures r.id == item.id && r.amount == LineAmount(r)
  {
    var u := Merge(item, p);
    u.(amount := LineAmount(u))
  }

  function RowKey(item: LineItem): string {
    item.id
  }

  predicate DistinctIds(lines: seq<LineItem>) {
    forall i, j :: 0 <= i < j < |lines| ==> lines[i].id != lines[j].id
  }

  /** The rows after `updateLineItem(id, updates)`. */
  function UpdateLines(lines: seq<LineItem>, id: string, p: LinePatch): seq<LineItem> {
    MapMatching(lines, RowKey, id, item => ApplyUpdates(item, p))
  }

  /** Every row carries the amount its own fields give. */
  predicate AmountsCurrent(lines: seq<LineItem>) {
    forall i :: 0 <= i < |lines| ==> lines[i].amount == LineAmount(lines[i])
  }

  /** `lineItems.reduce((sum, item) => sum + item.amount, 0)`, folded from the left. */
  function SumAmounts(lines: seq<LineItem>): real {
    if lines == [] then 0.0 else SumAmounts(lines[..|lines| - 1]) + lines[|lines| - 1].amount
  }

  // ---------------------------------------------------------------------
  // Catalog and tax selection.

  function CatalogId(item: CatalogItem): string { item.id }

  /** `items.find(i => i.id === itemId)`. */
  function FindCatalogItem(catalog: seq<CatalogItem>, id: string): Option<CatalogItem> {
    Find(catalog, CatalogId, id)
  }

  /**
   * `parseFloat(String(item.rate || '0').replace(/,/g, ''))`, when it is a
   * truthy number. A number is taken as is, since printing a finite number
   * and parsing it back gives the same number; an absent or falsy rate gives
   * `parseFloat('0')`, which is falsy as well.
   */
  function ParsedRate(r: CatalogRate, parse: Parser): (v: Option<real>)
    ensures r.RateText? && r.text != "" ==> v == parse(RemoveCommas(r.text))
    ensures r.RateNumber? && r.value != 0.0 ==> v == Some(r.value)
    ensures r.NoRate? || r == RateText("") || r == RateNumber(0.0) ==> v.None?
  {
    match r
    case RateText(t) => if t == "" then None else parse(RemoveCommas(t))
    case RateNumber(n) => if n == 0.0 then None else Some(n)
    case NoRate => None
  }

  /** `parseFloat(rateStr) || item.sellingPrice || 0`. */
  function CatalogPrice(item: CatalogItem, parse: Parser): (price: real)
    ensures ParsedRate(item.rate, parse).None? ==> price == item.sellingPrice
    ensures ParsedRate(item.rate, parse) == Some(0.0) ==> price == item.sellingPrice
    ensures ParsedRate(item.rate, parse).Some? && ParsedRate(item.rate, parse).value != 0.0 ==>
      price == ParsedRate(item.rate, parse).value
  {
    match ParsedRate(item.rate, parse)
    case Some(v) => if v != 0.0 then v else item.sellingPrice
    case None => item.sellingPrice
  }

  /** `lineItems.find(li => li.id === lineItemId)?.quantity || 1`. */
  function QuantityOf(lines: seq<LineItem>, id: string): real {
    if lines == [] then 1.0
    else if lines[0].id == id then (if lines[0].quantity != 0.0 then lines[0].quantity else 1.0)
    else QuantityOf(lines[1..], id)
  }

  /** The updates `handleItemChange` passes for a found catalog item. */
  function CatalogPatch(item: CatalogItem, quantity: real, parse: Parser): LinePatch {
    var price := CatalogPrice(item, parse);
    NoUpdates.(itemId := Some(item.id), name := Some(item.name), description := Some(item.description),
               account := Some(if item.salesAccount != "" then item.salesAccount else DefaultAccount),
               rate := Some(price), amount := Some(price * quantity))
  }

  /** `TAX_OPTIONS.find(t => t.value === val)?.rate || 0`. */
  function TaxRateOf(value: string): (rate: real)
    ensures (forall i :: 0 <= i < |TaxOptions| ==> TaxOptions[i].value != value) ==> rate == 0.0
    ensures forall o :: o in TaxOptions && o.value == value ==> rate == o.rate
  {
    assert DistinctKeys(TaxOptions, OptionValue);
    assert forall i :: 0 <= i < |TaxOptions| && TaxOptions[i].value == value ==> FirstOptionAt(TaxOptions, value, i);
    OptionRate(TaxOptions, value)
  }

  function OptionValue(o: TaxOption): string { o.value }

  /** `options[i]` is the first option whose value is `value`. */
  predicate FirstOptionAt(options: seq<TaxOption>, value: string, i: int) {
    0 <= i < |options| && options[i].value == value && forall j :: 0 <= j < i ==> options[j].value != value
  }

  /** `options.find(t => t.value === value)?.rate || 0`. */
  function OptionRate(options: seq<TaxOption>, value: string): (rate: real)
    ensures (forall i :: 0 <= i < |options| ==> options[i].value != value) ==> rate == 0.0
    ensures forall i :: FirstOptionAt(options, value, i) ==> rate == options[i].rate
  {
    assert forall i :: FirstOptionAt(options, value, i) ==> Find(options, OptionValue, value) == Some(options[i]) by {
      forall i | FirstOptionAt(options, value, i) {
        FindFirst(options, OptionValue, value, i);
      }
    }
    match Find(options, OptionValue, value)
    case Some(o) => o.rate
    case None => 0.0
  }

  /** The updates the tax select passes. */
  function TaxPatch(value: string): LinePatch {
    NoUpdates.(taxName := Some(value), tax := Some(TaxRateOf(value)))
  }

  function CustomerId(c: Customer): string { c.id }

  /** `customers.find(c => c.id === id)`. */
  function FindCustomer(customers: seq<Customer>, id: string): Option<Customer> {
    Find(customers, CustomerId, id)
  }

  // ---------------------------------------------------------------------
  // Lemmas about the row arithmetic.

  /** The amount is `quantity * rate` less the discount; a percentage is a share of that product. */
  lemma AmountMeaning(item: LineItem)
    ensures EffectiveDiscountType(item.discountType) == Percentage ==>
      LineAmount(item) == item.quantity * item.rate * (1.0 - item.discount / 100.0)
    ensures EffectiveDiscountType(item.discountType) != Percentage ==>
      LineAmount(item) == item.quantity * item.rate - item.discount
    ensures item.discountType == "" ==> LineAmount(item) == LineAmount(item.(discountType := Percentage))
  {
  }

  /** Neither the tax rate nor its name enters the amount. */
  lemma TaxNeverEntersAmount(item: LineItem, tax: real, taxName: string)
    ensures LineAmount(item.(tax := tax, taxName := taxName)) == LineAmount(item)
  {
  }

  /** A flat discount above `quantity * rate` makes the amount negative. */
  lemma FlatDiscountNotClamped(item: LineItem)
    requires EffectiveDiscountType(item.discountType) != Percentage
    ensures LineAmount(item) < 0.0 <==> item.discount > item.quantity * item.rate
  {
  }

  /** A percentage above 100 on a positive base makes the amount negative. */
  lemma PercentageNotCapped(item: LineItem)
    requires EffectiveDiscountType(item.discountType) == Percentage
    requires item.quantity * item.rate > 0.0 && item.discount > 100.0
    ensures LineAmount(item) < 0.0
  {
    AmountMeaning(item);
    assert 1.0 - item.discount / 100.0 < 0.0;
  }

  /** An amount passed in the updates is always overwritten by the recomputed one. */
  lemma PatchedAmountIgnored(item: LineItem, p: LinePatch, a: real)
    ensures ApplyUpdates(item, p.(amount := Some(a))) == ApplyUpdates(item, p)
  {
  }

  /** Applying no updates to a row whose amount is current leaves it unchanged. */
  lemma EmptyUpdateIsIdentity(item: LineItem)
    requires item.amount == LineAmount(item)
    ensures ApplyUpdates(item, NoUpdates) == item
  {
  }

  /** A row keeps every field the updates leave out, and takes every field they set. */
  lemma UpdateKeepsUnsetFields(item: LineItem, p: LinePatch)
    ensures var r := ApplyUpdates(item, p);
      (p.name.None? ==> r.name == item.name) && (p.name.Some? ==> r.name == p.name.value) &&
      (p.quantity.None? ==> r.quantity == item.quantity) && (p.quantity.Some? ==> r.quantity == p.quantity.value) &&
      (p.rate.None? ==> r.rate == item.rate) && (p.rate.Some? ==> r.rate == p.rate.value) &&
      (p.discount.None? ==> r.discount == item.discount) && (p.discount.Some? ==> r.discount == p.discount.value) &&
      (p.tax.None? ==> r.tax == item.tax) && (p.tax.Some? ==> r.tax == p.tax.value) &&
      (p.taxName.None? ==> r.taxName == item.taxName) &&
      (p.discountType.None? ==> r.discountType == item.discountType) &&
      r.id == item.id
  {
  }

  /** `updateLineItem` changes only rows with the given id, keeps ids and keeps amounts current. */
  lemma UpdateTouchesOnlyMatchingRow(lines: seq<LineItem>, id: string, p: LinePatch)
    requires DistinctIds(lines) && AmountsCurrent(lines)
    ensures var r := UpdateLines(lines, id, p);
      |r| == |lines| && DistinctIds(r) && AmountsCurrent(r) &&
      (forall i :: 0 <= i < |lines| && lines[i].id != id ==> r[i] == lines[i]) &&
      (forall i :: 0 <= i < |lines| && lines[i].id == id ==> r[i] == ApplyUpdates(lines[i], p))
  {
    MapMatchingKeepsKeys(lines, RowKey, id, item => ApplyUpdates(item, p));
  }

  /** Replacing one row changes the fold by the difference of the two amounts. */
  lemma {:induction false} SumAmountsReplace(lines: seq<LineItem>, i: nat, x: LineItem)
    requires i < |lines|
    ensures SumAmounts(lines[i := x]) == SumAmounts(lines) - lines[i].amount + x.amount
  {
    var n := |lines| - 1;
    if i == n {
      assert lines[i := x][..n] == lines[..n];
    } else {
      SumAmountsReplace(lines[..n], i, x);
      assert lines[i := x][..n] == lines[..n][i := x];
    }
  }

  /** Appending a row adds its amount to the fold; the default row adds nothing. */
  lemma SumAmountsAppend(lines: seq<LineItem>, x: LineItem)
    ensures SumAmounts(lines + [x]) == SumAmounts(lines) + x.amount
    ensures SumAmounts(lines + [DefaultLine(x.id)]) == SumAmounts(lines)
  {
    assert (lines + [x])[..|lines|] == lines;
    assert (lines + [DefaultLine(x.id)])[..|lines|] == lines;
  }

  /** The default row's amount is current, so appending it keeps every amount current. */
  lemma AppendDefaultKeepsAmountsCurrent(lines: seq<LineItem>, id: string)
    requires AmountsCurrent(lines)
    ensures AmountsCurrent(lines + [DefaultLine(id)])
  {
    var r := lines + [DefaultLine(id)];
    assert LineAmount(DefaultLine(id)) == 0.0;
    forall i | 0 <= i < |r| ensures r[i].amount == LineAmount(r[i]) {
      if i < |lines| {
        assert r[i] == lines[i];
      }
    }
  }

  /** With distinct ids, an update moves the subtotal by exactly the updated row's change. */
  lemma UpdateMovesSubtotalByOneRow(lines: seq<LineItem>, i: nat, p: LinePatch)
    requires DistinctIds(lines) && i < |lines|
    ensures SumAmounts(UpdateLines(lines, lines[i].id, p))
         == SumAmounts(lines) - lines[i].amount + ApplyUpdates(lines[i], p).amount
  {
    var r := UpdateLines(lines, lines[i].id, p);
    assert r == lines[i := ApplyUpdates(lines[i], p)];
    SumAmountsReplace(lines, i, ApplyUpdates(lines[i], p));
  }

  /**
   * A tax choice sets the row's tax to the option's rate and recomputes its
   * amount from its own fields; when that amount was current it stays as it was.
   */
  lemma TaxChoiceKeepsAmount(item: LineItem, value: string)
    ensures ApplyUpdates(item, TaxPatch(value)).amount == LineAmount(item)
    ensures ApplyUpdates(item, TaxPatch(value)).tax == TaxRateOf(value)
    ensures item.amount == LineAmount(item) ==> ApplyUpdates(item, TaxPatch(value)).amount == item.amount
  {
    TaxNeverEntersAmount(item, TaxRateOf(value), value);
  }

  /** The tax select gives a listed option's rate. */
  lemma TaxOptionRates()
    ensures TaxRateOf("GST18") == 18.0 && TaxRateOf("none") == 0.0
  {
    assert TaxOptions[4] in TaxOptions && TaxOptions[0] in TaxOptions;
  }

  /** An option the select does not list gives rate 0. */
  lemma UnlistedTaxOptionIsZero(value: string)
    requires |value| == 0 || (value[0] != 'n' && value[0] != 'G' && value[0] != 'I')
    ensures TaxRateOf(value) == 0.0
  {
    var firsts := seq(|TaxOptions|, i requires 0 <= i < |TaxOptions| => TaxOptions[i].value[0]);
    assert firsts == "nGGGGGIIIII";
    forall i | 0 <= i < |TaxOptions| ensures TaxOptions[i].value != value {
      assert TaxOptions[i].value[0] == firsts[i];
    }
  }

  /** Catalog selection keeps the row's quantity and discount and sets the amount from the catalog price. */
  lemma CatalogSelectionPrices(line: LineItem, item: CatalogItem, quantity: real, parse: Parser)
    ensures var r := ApplyUpdates(line, CatalogPatch(item, quantity, parse));
      r.rate == CatalogPrice(item, parse) && r.quantity == line.quantity &&
      r.discount == line.discount && r.itemId == item.id &&
      r.amount == line.quantity * CatalogPrice(item, parse) - DiscountOf(r)
  {
  }

  /** Commas in a text rate do not change the price. */
  lemma CatalogPriceIgnoresCommas(item: CatalogItem, parse: Parser)
    requires item.rate.RateText? && RemoveCommas(item.rate.text) != ""
    ensures CatalogPrice(item, parse) == CatalogPrice(item.(rate := RateText(RemoveCommas(item.rate.text))), parse)
  {
  }

  // ---------------------------------------------------------------------
  // Loading a stored note.

  /**
   * One row as `fetchData` copies it: every field through its `||` default,
   * with `String(index + 1)` for a missing id. The stored amount is copied,
   * never recomputed.
   */
  function LoadedLine(s: StoredLine, index: nat): (r: LineItem)
    ensures r.amount == s.amount
    ensures r.id != "" && r.quantity != 0.0 && r.discountType != "" && r.taxName != ""
    ensures s.id != "" ==> r.id == s.id
    ensures s.quantity != 0.0 ==> r.quantity == s.quantity
  {
    LineItem(if s.id != "" then s.id else NatToString(index + 1),
             s.itemId, s.name, s.description, s.account,
             if s.quantity != 0.0 then s.quantity else 1.0,
             s.rate, s.discount, EffectiveDiscountType(s.discountType), s.tax,
             if s.taxName != "" then s.taxName else "none", s.amount)
  }

  /** `cn.items.map((item, index) => ...)`. */
  function LoadedLines(items: seq<StoredLine>): (r: seq<LineItem>)
    ensures |r| == |items|
    ensures forall i :: 0 <= i < |items| ==> r[i] == LoadedLine(items[i], i)
  {
    seq(|items|, i requires 0 <= i < |items| => LoadedLine(items[i], i))
  }

  /** A line as `handleSubmit` sends it and the server keeps it. */
  function Stored(line: LineItem): StoredLine {
    StoredLine(line.id, line.itemId, line.name, line.description, line.account, line.quantity,
               line.rate, line.discount, line.discountType, line.tax, line.taxName, line.amount)
  }

  /** A line none of whose `||` defaults fires: an id, a non-zero quantity, a discount type and a tax name. */
  predicate LoadsAsIs(line: LineItem) {
    line.id != "" && line.quantity != 0.0 && line.discountType != "" && line.taxName != ""
  }

  /** Saved lines whose defaults do not fire load back exactly as they were saved. */
  lemma LoadRoundTrip(lines: seq<LineItem>)
    requires forall i :: 0 <= i < |lines| ==> LoadsAsIs(lines[i])
    ensures LoadedLines(seq(|lines|, i requires 0 <= i < |lines| => Stored(lines[i]))) == lines
  {
    var r := LoadedLines(seq(|lines|, i requires 0 <= i < |lines| => Stored(lines[i])));
    forall i | 0 <= i < |lines| ensures r[i] == lines[i] {
      assert LoadsAsIs(lines[i]);
    }
  }

  /** On a one-row list whose amount is stale, a tax choice moves the subtotal from the stale amount to the recomputed one. */
  lemma TaxChoiceOnStaleRow(line: LineItem, value: string)
    requires line.amount != LineAmount(line)
    ensures !AmountsCurrent([line]) && SumAmounts([line]) == line.amount
    ensures SumAmounts(UpdateLines([line], line.id, TaxPatch(value))) == LineAmount(line)
  {
    assert [line][0] == line;
    SumAmountsAppend([], line);
    assert [] + [line] == [line];
    UpdateMovesSubtotalByOneRow([line], 0, TaxPatch(value));
    TaxChoiceKeepsAmount(line, value);
  }

  /**
   * A saved line with quantity 0 loads with quantity 1 but its stored amount
   * 0, so the loaded amount is stale: any later tax choice recomputes it and
   * moves the subtotal from 0 to 100.
   */
  lemma StaleLoadMovesSubtotal(value: string)
    ensures var lines := LoadedLines([StoredLine("a", "", "", "", "", 0.0, 100.0, 0.0, Percentage, 0.0, "none", 0.0)]);
      !AmountsCurrent(lines) &&
      SumAmounts(lines) == 0.0 && SumAmounts(UpdateLines(lines, "a", TaxPatch(value))) == 100.0
  {
    var s := StoredLine("a", "", "", "", "", 0.0, 100.0, 0.0, Percentage, 0.0, "none", 0.0);
    var line := LoadedLine(s, 0);
    assert LoadedLines([s]) == [line];
    assert line == LineItem("a", "", "", "", "", 1.0, 100.0, 0.0, Percentage, 0.0, "none", 0.0);
    assert LineAmount(line) == 100.0;
    TaxChoiceOnStaleRow(line, value);
  }

  /** A stored line without an id next to one whose id is "1" loads as two lines sharing that id. */
  lemma LoadedIdsMayCollide()
    ensures !DistinctIds(LoadedLines([StoredLine("", "", "", "", "", 1.0, 0.0, 0.0, "", 0.0, "", 0.0),
                                      StoredLine("1", "", "", "", "", 1.0, 0.0, 0.0, "", 0.0, "", 0.0)]))
  {
    var a := StoredLine("", "", "", "", "", 1.0, 0.0, 0.0, "", 0.0, "", 0.0);
    var b := a.(id := "1");
    var lines := LoadedLines([a, b]);
    assert NatToString(1) == [DigitChar(1)] == "1";
    assert lines[0] == LoadedLine(a, 0) && lines[0].id == "1";
    assert lines[1] == LoadedLine(b, 1) && lines[1].id == "1";
  }

  /** With two lines sharing an id, the guarded removal of that id empties the list. */
  lemma SharedIdRemovalEmpties()
    ensures RemoveRow([DefaultLine("1"), DefaultLine("1")], RowKey, "1") == []
  {
    assert [DefaultLine("1"), DefaultLine("1")][1..] == [DefaultLine("1")];
  }

  // ---------------------------------------------------------------------
  // The page state.

  class CreditNoteForm {
    var customers: seq<Customer>
    var catalog: seq<CatalogItem>
    var customerId: string
    var customerName: string
    var gstin: string
    var placeOfSupply: string
    var lineItems: seq<LineItem>
    var subTotal: real
    var shippingCharges: real
    var adjustment: real
    var total: real

    /** The totals `calculateTotals` keeps in step with the rows. */
    ghost predicate Valid()
      reads this
    {
      subTotal == SumAmounts(lineItems) && total == subTotal + shippingCharges + adjustment
    }

    /**
     * At least one row, distinct row ids and every amount current: true from
     * the start and kept by every edit, but not by a load (`Load`).
     */
    ghost predicate RowsConsistent()
      reads this
    {
      |lineItems| >= 1 && DistinctIds(lineItems) && AmountsCurrent(lineItems)
    }

    /** The page's initial state: empty lists, no customer, one default row with id "1" and zero totals. */
    constructor ()
      ensures Valid() && RowsConsistent()
      ensures lineItems == [DefaultLine("1")] && total == 0.0
    {
      customers := [];
      catalog := [];
      customerId := "";
      customerName := "";
      gstin := "";
      placeOfSupply := "";
      lineItems := [DefaultLine("1")];
      subTotal := 0.0;
      shippingCharges := 0.0;
      adjustment := 0.0;
      total := 0.0;
    }

    /** The customer and catalog lists as `fetchData` stores them: each only when its own fetch succeeded (Some). */
    method SetLists(fetchedCustomers: Option<seq<Customer>>, fetchedCatalog: Option<seq<CatalogItem>>)
      modifies this`customers, this`catalog
      ensures customers == if fetchedCustomers.Some? then fetchedCustomers.value else old(customers)
      ensures catalog == if fetchedCatalog.Some? then fetchedCatalog.value else old(catalog)
    {
      if fetchedCustomers.Some? {
        customers := fetchedCustomers.value;
      }
      if fetchedCatalog.Some? {
        catalog := fetchedCatalog.value;
      }
    }

    /**
     * The stored note `fetchData` copies into the form, then the totals; a
     * failed fetch (None) changes nothing here. An empty item list keeps
     * the rows as they are.
     */
    method Load(note: Option<StoredNote>)
      requires Valid()
      modifies this`customerId, this`customerName, this`gstin, this`placeOfSupply, this`lineItems,
               this`shippingCharges, this`adjustment, this`subTotal, this`total
      ensures Valid()
      ensures note.None? ==>
        customerId == old(customerId) && customerName == old(customerName) && gstin == old(gstin) &&
        placeOfSupply == old(placeOfSupply) && lineItems == old(lineItems) &&
        shippingCharges == old(shippingCharges) && adjustment == old(adjustment)
      ensures note.Some? ==>
        var n := note.value;
        customerId == n.customerId && customerName == n.customerName && gstin == n.gstin &&
        placeOfSupply == n.placeOfSupply && shippingCharges == n.shippingCharges && adjustment == n.adjustment &&
        lineItems == (if n.items != [] then LoadedLines(n.items) else old(lineItems))
    {
      if note.Some? {
        var n := note.value;
        customerId := n.customerId;
        customerName := n.customerName;
        gstin := n.gstin;
        placeOfSupply := n.placeOfSupply;
        if n.items != [] {
          lineItems := LoadedLines(n.items);
        }
        shippingCharges := n.shippingCharges;
        adjustment := n.adjustment;
        CalculateTotals();
      }
    }

    /** `calculateTotals`, which the page reruns after every change to the rows, shipping or adjustment. */
    method CalculateTotals()
      modifies this`subTotal, this`total
      ensures subTotal == SumAmounts(lineItems)
      ensures total == SumAmounts(lineItems) + shippingCharges + adjustment
    {
      subTotal := SumAmounts(lineItems);
      total := subTotal + shippingCharges + adjustment;
    }

    /** `updateLineItem(id, updates)` followed by the totals. */
    method UpdateLineItem(id: string, p: LinePatch)
      requires Valid()
      modifies this`lineItems, this`subTotal, this`total
      ensures Valid()
      ensures lineItems == UpdateLines(old(lineItems), id, p)
      ensures old(RowsConsistent()) ==> RowsConsistent()
    {
      if RowsConsistent() {
        UpdateTouchesOnlyMatchingRow(lineItems, id, p);
      }
      lineItems := UpdateLines(lineItems, id, p);
      CalculateTotals();
    }

    /** `addLineItem`, with `freshId` standing for `String(Date.now())`. */
    method AddLineItem(freshId: string)
      requires Valid()
      modifies this`lineItems, this`subTotal, this`total
      ensures Valid()
      ensures lineItems == old(lineItems) + [DefaultLine(freshId)]
      ensures subTotal == old(subTotal) && total == old(total)
      ensures old(RowsConsistent()) && !HasKey(old(lineItems), RowKey, freshId) ==> RowsConsistent()
    {
      if DistinctIds(lineItems) && !HasKey(lineItems, RowKey, freshId) {
        AppendFreshKeepsDistinct(lineItems, RowKey, DefaultLine(freshId));
      }
      if AmountsCurrent(lineItems) {
        AppendDefaultKeepsAmountsCurrent(lineItems, freshId);
      }
      SumAmountsAppend(lineItems, DefaultLine(freshId));
      lineItems := lineItems + [DefaultLine(freshId)];
      CalculateTotals();
    }

    /** `removeLineItem(id)`: nothing happens while one row is left. */
    method RemoveLineItem(id: string)
      requires Valid()
      modifies this`lineItems, this`subTotal, this`total
      ensures Valid()
      ensures lineItems == RemoveRow(old(lineItems), RowKey, id)
      ensures |old(lineItems)| == 1 ==> lineItems == old(lineItems)
      ensures old(RowsConsistent()) ==> RowsConsistent()
    {
      var before := lineItems;
      lineItems := RemoveRow(lineItems, RowKey, id);
      if |before| >= 1 && DistinctIds(before) && AmountsCurrent(before) {
        RemoveKeepsARow(before, RowKey, id);
        forall i | 0 <= i < |lineItems| ensures lineItems[i].amount == LineAmount(lineItems[i]) {
          assert lineItems[i] in before;
        }
      }
      CalculateTotals();
    }

    /** `handleItemChange(lineItemId, itemId)`; an unknown catalog id changes nothing. */
    method SelectCatalogItem(lineId: string, itemId: string, parse: Parser)
      requires Valid()
      modifies this`lineItems, this`subTotal, this`total
      ensures Valid()
      ensures old(RowsConsistent()) ==> RowsConsistent()
      ensures FindCatalogItem(catalog, itemId).None? ==> lineItems == old(lineItems)
      ensures FindCatalogItem(catalog, itemId).Some? ==>
        lineItems == UpdateLines(old(lineItems), lineId,
                                 CatalogPatch(FindCatalogItem(catalog, itemId).value, QuantityOf(old(lineItems), lineId), parse))
    {
      var found := FindCatalogItem(catalog, itemId);
      if found.Some? {
        UpdateLineItem(lineId, CatalogPatch(found.value, QuantityOf(lineItems, lineId), parse));
      }
    }

    /**
     * The tax select: the row's `taxName` and `tax` change and its amount is
     * recomputed. A current amount stays as it was, so the totals do not
     * move; a stale one (after a load) is replaced, and with distinct ids the
     * subtotal moves by exactly the difference.
     */
    method SelectTax(lineId: string, value: string)
      requires Valid()
      modifies this`lineItems, this`subTotal, this`total
      ensures Valid()
      ensures lineItems == UpdateLines(old(lineItems), lineId, TaxPatch(value))
      ensures old(RowsConsistent()) ==> RowsConsistent()
      ensures AmountsCurrent(old(lineItems)) ==> subTotal == old(subTotal) && total == old(total)
      ensures DistinctIds(old(lineItems)) ==>
        forall i :: 0 <= i < |old(lineItems)| && old(lineItems)[i].id == lineId ==>
          subTotal == old(subTotal) - old(lineItems)[i].amount + LineAmount(old(lineItems)[i])
    {
      var before := lineItems;
      UpdateLineItem(lineId, TaxPatch(value));
      if AmountsCurrent(before) {
        forall i | 0 <= i < |before| ensures lineItems[i].amount == before[i].amount {
          if before[i].id == lineId {
            TaxChoiceKeepsAmount(before[i], value);
          }
        }
        SameAmountsSameSum(before, lineItems);
      }
      if DistinctIds(before) {
        forall i | 0 <= i < |before| && before[i].id == lineId
          ensures subTotal == SumAmounts(before) - before[i].amount + LineAmount(before[i])
        {
          UpdateMovesSubtotalByOneRow(before, i, TaxPatch(value));
          TaxChoiceKeepsAmount(before[i], value);
        }
      }
    }

    /** The shipping-charges input, followed by the totals. */
    method SetShippingCharges(value: real)
      requires Valid()
      modifies this`shippingCharges, this`total
      ensures Valid()
      ensures shippingCharges == value && total == subTotal + value + adjustment
    {
      shippingCharges := value;
      total := subTotal + shippingCharges + adjustment;
    }

    /** The adjustment input, followed by the totals. */
    method SetAdjustment(value: real)
      requires Valid()
      modifies this`adjustment, this`total
      ensures Valid()
      ensures adjustment == value && total == subTotal + shippingCharges + value
    {
      adjustment := value;
      total := subTotal + shippingCharges + adjustment;
    }

    /** `handleCustomerChange`: an unknown id changes nothing; empty GSTIN and place of supply keep the old ones. */
    method SelectCustomer(id: string)
      modifies this`customerId, this`customerName, this`gstin, this`placeOfSupply
      ensures FindCustomer(customers, id).None? ==>
        customerId == old(customerId) && customerName == old(customerName) &&
        gstin == old(gstin) && placeOfSupply == old(placeOfSupply)
      ensures FindCustomer(customers, id).Some? ==>
        var c := FindCustomer(customers, id).value;
        customerId == id &&
        customerName == (if c.displayName != "" then c.displayName else c.name) &&
        gstin == (if c.gstin != "" then c.gstin else old(gstin)) &&
        placeOfSupply == (if c.placeOfSupply != "" then c.placeOfSupply else old(placeOfSupply))
    {
      var found := FindCustomer(customers, id);
      if found.Some? {
        var c := found.value;
        customerId := c.id;
        customerName := if c.displayName != "" then c.displayName else c.name;
        if c.gstin != "" {
          gstin := c.gstin;
        }
        if c.placeOfSupply != "" {
          placeOfSupply := c.placeOfSupply;
        }
      }
    }

    /**
     * `handleSubmit(status)`: nothing is sent without a customer; otherwise
     * the rows and totals go out as they are, with TDS and every GST
     * component set to 0.
     */
    method Submit(status: string) returns (r: Option<CreditNotePayload>)
      ensures r.None? <==> customerId == ""
      ensures r.Some? ==>
        var p := r.value;
        p.items == lineItems && p.customerId == customerId && p.customerName == customerName &&
        p.cgst == 0.0 && p.sgst == 0.0 && p.igst == 0.0 && p.tdsAmount == 0.0 &&
        p.subTotal == subTotal && p.total == total && p.status == status &&
        p.shippingCharges == shippingCharges && p.adjustment == adjustment
      ensures r.Some? && Valid() ==>
        r.value.total == SumAmounts(r.value.items) + r.value.shippingCharges + r.value.adjustment
    {
      if customerId == "" {
        return None;
      }
      r := Some(CreditNotePayload(customerId, customerName, gstin, placeOfSupply, lineItems, subTotal,
                                  shippingCharges, 0.0, 0.0, 0.0, 0.0, adjustment, total, status));
    }
  }

  /** Two row lists with the same amounts, position by position, have the same fold. */
  lemma {:induction false} SameAmountsSameSum(a: seq<LineItem>, b: seq<LineItem>)
    requires |a| == |b| && forall i :: 0 <= i < |a| ==> a[i].amount == b[i].amount
    ensures SumAmounts(a) == SumAmounts(b)
  {
    if a != [] {
      SameAmountsSameSum(a[..|a| - 1], b[..|b| - 1]);
    }
  }
}

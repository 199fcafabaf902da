/**
 * The quotes list page: the status badge and filter labels, the list
 * filter, the selection and favourite toggles, and the tax totals printed
 * on a quote's PDF view.
 */
module Quotes {
  import opened Wrappers
  import opened Text
  import RowLists

  /** A quote as the list holds it; a missing `items` array is the empty sequence. */
  datatype Quote = Quote(id: string, quoteNumber: string, customerName: string, total: real,
                         status: string, convertedTo: Option<string>, items: seq<QuoteItem>)

  /**
   * One item as the PDF view reads it. `None` stands for a field that is
   * absent (`undefined`) or not a number (`NaN`).
   */
  datatype QuoteItem = QuoteItem(amount: Option<real>, cgst: Option<real>, sgst: Option<real>, igst: Option<real>)

  // ---------------------------------------------------------------------
  // Labels.

  /** The text of a quote's status badge. */
  function StatusLabel(status: string, convertedTo: Option<string>): (caption: string)
    ensures status == "CONVERTED" ==>
      caption == (if convertedTo == Some("invoice") then "Converted To Invoice"
                  else if convertedTo == Some("sales-order") then "Converted To Sales Order"
                  else "Converted")
    ensures status == "SENT" ==> caption == "Quotation Send"
    ensures !IsListedStatus(status) ==> caption == status
  {
    if status == "CONVERTED" then
      if convertedTo == Some("invoice") then "Converted To Invoice"
      else if convertedTo == Some("sales-order") then "Converted To Sales Order"
      else "Converted"
    else if status == "SENT" then "Quotation Send"
    else if status == "DRAFT" then "Draft"
    else if status == "ACCEPTED" then "Accepted"
    else if status == "DECLINED" then "Declined"
    else if status == "EXPIRED" then "Expired"
    else status
  }

  /** A status the page knows by name. */
  predicate IsListedStatus(status: string) {
    status in {"DRAFT", "SENT", "ACCEPTED", "DECLINED", "EXPIRED", "CONVERTED"}
  }

  datatype QuoteFilter = QuoteFilter(id: string, caption: string)

  /** The filters of the list's drop-down, in menu order. */
  function QuoteFilters(): seq<QuoteFilter> {
    [QuoteFilter("all", "All Quotes"), QuoteFilter("DRAFT", "Draft"), QuoteFilter("SENT", "Sent"),
     QuoteFilter("ACCEPTED", "Accepted"), QuoteFilter("CONVERTED", "Converted"),
     QuoteFilter("DECLINED", "Declined"), QuoteFilter("EXPIRED", "Expired")]
  }

  function FilterId(f: QuoteFilter): string { f.id }

  /** `QUOTE_FILTERS.find(f => f.id === id)`. */
  function FindFilter(filters: seq<QuoteFilter>, id: string): Option<QuoteFilter> {
    RowLists.Find(filters, FilterId, id)
  }

  /** `getFilterLabel`: the active filter's caption, or "All Quotes" when the id is unknown. */
  function FilterLabel(activeFilter: string): string {
    var f := FindFilter(QuoteFilters(), activeFilter);
    if f.Some? && f.value.caption != "" then f.value.caption else "All Quotes"
  }

  /** Every filter id shows its own caption; any other id shows "All Quotes". */
  lemma FilterLabels(activeFilter: string)
    ensures forall f :: f in QuoteFilters() && f.id == activeFilter ==> FilterLabel(activeFilter) == f.caption
    ensures (forall f :: f in QuoteFilters() ==> f.id != activeFilter) ==> FilterLabel(activeFilter) == "All Quotes"
  {
    var fs := QuoteFilters();
    forall f | f in fs && f.id == activeFilter ensures FilterLabel(activeFilter) == f.caption {
      var i :| 0 <= i < |fs| && fs[i] == f;
      RowLists.FindFirst(fs, FilterId, activeFilter, i);
    }
  }

  /**
   * The badge of a listed status agrees with the caption of its filter,
   * except for SENT ("Quotation Send" against "Sent") and for a converted
   * quote whose target is known.
   */
  lemma BadgeAgreesWithFilter(f: QuoteFilter, convertedTo: Option<string>)
    requires f in QuoteFilters() && f.id != "all"
    ensures f.id == "SENT" ==> StatusLabel(f.id, convertedTo) != f.caption
    ensures f.id != "SENT" && !(f.id == "CONVERTED" && convertedTo in {Some("invoice"), Some("sales-order")}) ==>
      StatusLabel(f.id, convertedTo) == f.caption
  {
  }

  // ---------------------------------------------------------------------
  // The list filter.

  /** The search box matches the quote number or the customer name, ignoring ASCII case. */
  predicate MatchesSearch(q: Quote, searchTerm: string) {
    Contains(ToLower(q.quoteNumber), ToLower(searchTerm)) || Contains(ToLower(q.customerName), ToLower(searchTerm))
  }

  /** The status filter: "all" matches every quote. */
  predicate MatchesStatus(q: Quote, activeFilter: string) {
    activeFilter == "all" || q.status == activeFilter
  }

  predicate Shown(q: Quote, searchTerm: string, activeFilter: string) {
    MatchesSearch(q, searchTerm) && MatchesStatus(q, activeFilter)
  }

  /** `filteredQuotes`. */
  function FilteredQuotes(quotes: seq<Quote>, searchTerm: string, activeFilter: string): (r: seq<Quote>)
    ensures |r| <= |quotes|
    ensures forall q :: q in r <==> q in quotes && Shown(q, searchTerm, activeFilter)
  {
    if quotes == [] then []
    else
      var rest := FilteredQuotes(quotes[1..], searchTerm, activeFilter);
      if Shown(quotes[0], searchTerm, activeFilter) then [quotes[0]] + rest else rest
  }

  /** The filter keeps order: filtering a concatenation filters each part in turn. */
  lemma {:induction false} FilteredQuotesAppend(a: seq<Quote>, b: seq<Quote>, searchTerm: string, activeFilter: string)
    ensures FilteredQuotes(a + b, searchTerm, activeFilter) ==
      FilteredQuotes(a, searchTerm, activeFilter) + FilteredQuotes(b, searchTerm, activeFilter)
  {
    if a == [] {
      assert a + b == b;
    } else {
      assert (a + b)[1..] == a[1..] + b;
      FilteredQuotesAppend(a[1..], b, searchTerm, activeFilter);
    }
  }

  /** An empty search under "all" shows every quote, in order. */
  lemma {:induction false} EmptySearchShowsAll(quotes: seq<Quote>)
    ensures FilteredQuotes(quotes, "", "all") == quotes
  {
    if quotes != [] {
      ContainsEmpty(ToLower(quotes[0].quoteNumber));
      assert ToLower("") == "";
      EmptySearchShowsAll(quotes[1..]);
    }
  }

  /** The search ignores the case of ASCII letters on both sides. */
  lemma SearchIgnoresCase(q: Quote, searchTerm: string)
    ensures MatchesSearch(q, searchTerm) == MatchesSearch(q, ToLower(searchTerm))
  {
    ToLowerIdempotent(searchTerm);
  }

  // ---------------------------------------------------------------------
  // Selection and favourite toggles.

  /** `list.includes(x) ? list.filter(y => y !== x) : [...list, x]`. */
  function Toggled(list: seq<string>, x: string): seq<string> {
    if x in list then RowLists.Without(list, Identity, x) else list + [x]
  }

  function Identity(s: string): string {
    s
  }

  /** A toggle flips the membership of `x` and of nothing else. */
  lemma ToggleFlips(list: seq<string>, x: string)
    ensures x in Toggled(list, x) <==> x !in list
    ensures forall y :: y != x ==> (y in Toggled(list, x) <==> y in list)
  {
  }

  /** Toggling twice restores the original membership. */
  lemma ToggleTwiceRestores(list: seq<string>, x: string)
    ensures forall y :: y in Toggled(Toggled(list, x), x) <==> y in list
  {
    ToggleFlips(list, x);
    ToggleFlips(Toggled(list, x), x);
  }

  /** Toggling an absent id on and off gives back the very same list. */
  lemma ToggleOnOffIsIdentity(list: seq<string>, x: string)
    requires x !in list
    ensures Toggled(Toggled(list, x), x) == list
  {
    WithoutAbsent(list, x);
    WithoutLast(list, x);
  }

  lemma {:induction false} WithoutAbsent(list: seq<string>, x: string)
    requires x !in list
    ensures RowLists.Without(list, Identity, x) == list
  {
    if list != [] {
      WithoutAbsent(list[1..], x);
    }
  }

  lemma WithoutLast(list: seq<string>, x: string)
    requires x !in list && RowLists.Without(list, Identity, x) == list
    ensures RowLists.Without(list + [x], Identity, x) == list
  {
    WithoutAppend(list, [x], x);
    assert RowLists.Without([x], Identity, x) == RowLists.Without([], Identity, x);
  }

  lemma WithoutAppend(a: seq<string>, b: seq<string>, x: string)
    ensures RowLists.Without(a + b, Identity, x) == RowLists.Without(a, Identity, x) + RowLists.Without(b, Identity, x)
  {
    RowLists.WithoutAppend(a, b, Identity, x);
  }

  /** The list page's selection state. */
  class QuoteList {
    var selectedQuotes: seq<string>
    var favoriteFilters: seq<string>

    constructor ()
      ensures selectedQuotes == [] && favoriteFilters == []
    {
      selectedQuotes := [];
      favoriteFilters := [];
    }

    /** `toggleSelectQuote`. */
    method ToggleSelectQuote(id: string)
      modifies this
      ensures selectedQuotes == Toggled(old(selectedQuotes), id)
      ensures favoriteFilters == old(favoriteFilters)
      ensures id in selectedQuotes <==> id !in old(selectedQuotes)
    {
      if id in selectedQuotes {
        selectedQuotes := RowLists.Without(selectedQuotes, Identity, id);
      } else {
        selectedQuotes := selectedQuotes + [id];
      }
      ToggleFlips(old(selectedQuotes), id);
    }

    /** `toggleFavorite`. */
    method ToggleFavorite(filterId: string)
      modifies this
      ensures favoriteFilters == Toggled(old(favoriteFilters), filterId)
      ensures selectedQuotes == old(selectedQuotes)
      ensures filterId in favoriteFilters <==> filterId !in old(favoriteFilters)
    {
      if filterId in favoriteFilters {
        favoriteFilters := RowLists.Without(favoriteFilters, Identity, filterId);
      } else {
        favoriteFilters := favoriteFilters + [filterId];
      }
      ToggleFlips(old(favoriteFilters), filterId);
    }
  }

  // ---------------------------------------------------------------------
  // The PDF view's tax totals.

  /** A value JavaScript treats as true: present, a number, and not zero. */
  predicate Truthy(r: Option<real>) {
    r.Some? && r.value != 0.0
  }

  /** `item.amount || 0`. */
  function AmountOrZero(item: QuoteItem): real {
    if Truthy(item.amount) then item.amount.value else 0.0
  }

  datatype TaxKind = CGST | SGST | IGST

  function RateOf(item: QuoteItem, kind: TaxKind): Option<real> {
    match kind
    case CGST => item.cgst
    case SGST => item.sgst
    case IGST => item.igst
  }

  /** Addition where `None` is `NaN`: it absorbs every other operand. */
  function AddNum(a: Option<real>, b: Option<real>): (r: Option<real>)
    ensures r.Some? <==> a.Some? && b.Some?
    ensures r.Some? ==> r.value == a.value + b.value
  {
    if a.Some? && b.Some? then Some(a.value + b.value) else None
  }

  /** `(amount * rate) / 100` with the amount used raw: a missing amount yields `NaN`. */
  function Percent(amount: Option<real>, rate: real): (r: Option<real>)
    ensures r.Some? <==> amount.Some?
    ensures amount.Some? && amount.value == 0.0 ==> r == Some(0.0)
  {
    if amount.Some? then Some(amount.value * rate / 100.0) else None
  }

  /** One item's contribution to a tax total as the page computes it: nothing unless the rate is truthy. */
  function ItemTax(item: QuoteItem, kind: TaxKind): Option<real> {
    var rate := RateOf(item, kind);
    if Truthy(rate) then Percent(item.amount, rate.value) else Some(0.0)
  }

  /** `Σ amount || 0` over the items. */
  function SumAmounts(items: seq<QuoteItem>): real {
    if items == [] then 0.0 else SumAmounts(items[..|items| - 1]) + AmountOrZero(items[|items| - 1])
  }

  /** The tax total the page accumulates, with `NaN` propagating. */
  function TaxTotal(items: seq<QuoteItem>, kind: TaxKind): Option<real> {
    if items == [] then Some(0.0) else AddNum(TaxTotal(items[..|items| - 1], kind), ItemTax(items[|items| - 1], kind))
  }

  datatype PdfTotals = PdfTotals(subtotal: real, cgst: Option<real>, sgst: Option<real>, igst: Option<real>, total: real)

  /** `QuotePDFView.calculateTotals`. */
  method CalculatePdfTotals(quote: Quote) returns (t: PdfTotals)
    ensures t.total == quote.total
    ensures quote.items != [] ==>
      t.subtotal == SumAmounts(quote.items) && t.cgst == TaxTotal(quote.items, CGST) &&
      t.sgst == TaxTotal(quote.items, SGST) && t.igst == TaxTotal(quote.items, IGST)
    ensures quote.items == [] ==>
      t.cgst == t.sgst == Some(t.subtotal * 0.09) && t.igst == Some(0.0) &&
      t.subtotal + t.cgst.value + t.sgst.value == quote.total
  {
    var subtotal := 0.0;
    var cgst: Option<real> := Some(0.0);
    var sgst: Option<real> := Some(0.0);
    var igst: Option<real> := Some(0.0);
    if |quote.items| > 0 {
      var items := quote.items;
      for i := 0 to |items|
        invariant subtotal == SumAmounts(items[..i])
        invariant cgst == TaxTotal(items[..i], CGST)
        invariant sgst == TaxTotal(items[..i], SGST)
        invariant igst == TaxTotal(items[..i], IGST)
      {
        var item := items[i];
        assert items[..i + 1][..i] == items[..i];
        assert items[..i + 1][i] == item;
        ItemTaxByKind(item);
        subtotal := subtotal + AmountOrZero(item);
        if Truthy(item.cgst) {
          cgst := AddNum(cgst, Percent(item.amount, item.cgst.value));
        }
        if Truthy(item.sgst) {
          sgst := AddNum(sgst, Percent(item.amount, item.sgst.value));
        }
        if Truthy(item.igst) {
          igst := AddNum(igst, Percent(item.amount, item.igst.value));
        }
      }
      assert items[..|items|] == items;
    } else {
      subtotal := quote.total / 1.18;
      cgst := Some(subtotal * 0.09);
      sgst := Some(subtotal * 0.09);
      FallbackAddsUp(quote.total);
    }
    t := PdfTotals(subtotal, cgst, sgst, igst, quote.total);
  }

  lemma ItemTaxByKind(item: QuoteItem)
    ensures ItemTax(item, CGST) == if Truthy(item.cgst) then Percent(item.amount, item.cgst.value) else Some(0.0)
    ensures ItemTax(item, SGST) == if Truthy(item.sgst) then Percent(item.amount, item.sgst.value) else Some(0.0)
    ensures ItemTax(item, IGST) == if Truthy(item.igst) then Percent(item.amount, item.igst.value) else Some(0.0)
  {
  }

  /** The estimate for a quote without items: 18% GST split in halves adds back up to the total. */
  lemma FallbackAddsUp(total: real)
    ensures total / 1.18 + total / 1.18 * 0.09 + total / 1.18 * 0.09 == total
  {
  }

  // ---------------------------------------------------------------------
  // Missing amounts.

  /**
   * The evidently intended contribution: the amount read as `amount || 0`,
   * as the subtotal already reads it.
   */
  function IntendedItemTax(item: QuoteItem, kind: TaxKind): real {
    var rate := RateOf(item, kind);
    if Truthy(rate) then AmountOrZero(item) * rate.value / 100.0 else 0.0
  }

  function IntendedTaxTotal(items: seq<QuoteItem>, kind: TaxKind): real {
    if items == [] then 0.0 else IntendedTaxTotal(items[..|items| - 1], kind) + IntendedItemTax(items[|items| - 1], kind)
  }

  /** Every item with a truthy rate of this kind carries an amount. */
  predicate AmountsPresent(items: seq<QuoteItem>, kind: TaxKind) {
    forall i :: 0 <= i < |items| && Truthy(RateOf(items[i], kind)) ==> items[i].amount.Some?
  }

  /**
   * Where every taxed item has an amount, the page's tax total is a number
   * and equals the intended one; the intended total is a number always.
   */
  lemma {:induction false} TaxTotalMatchesIntended(items: seq<QuoteItem>, kind: TaxKind)
    requires AmountsPresent(items, kind)
    ensures TaxTotal(items, kind) == Some(IntendedTaxTotal(items, kind))
  {
    if items != [] {
      var init := items[..|items| - 1];
      assert AmountsPresent(init, kind) by {
        forall i | 0 <= i < |init| && Truthy(RateOf(init[i], kind)) ensures init[i].amount.Some? {
          assert init[i] == items[i];
        }
      }
      TaxTotalMatchesIntended(init, kind);
      ItemTaxWhenPresent(items[|items| - 1], kind);
    }
  }

  /** One item: with its amount present wherever its rate is truthy, the page's contribution is the intended one. */
  lemma ItemTaxWhenPresent(item: QuoteItem, kind: TaxKind)
    requires Truthy(RateOf(item, kind)) ==> item.amount.Some?
    ensures ItemTax(item, kind) == Some(IntendedItemTax(item, kind))
  {
    if Truthy(RateOf(item, kind)) {
      var rate := RateOf(item, kind).value;
      if item.amount.value == 0.0 {
        assert IntendedItemTax(item, kind) == 0.0 * rate / 100.0 == 0.0;
      } else {
        assert item.amount == Some(AmountOrZero(item));
        var x := AmountOrZero(item);
        assert ItemTax(item, kind) == Percent(Some(x), rate);
        assert Percent(Some(x), rate) == Some(x * rate / 100.0);
        assert IntendedItemTax(item, kind) == x * rate / 100.0;
      }
    }
  }

  /**
   * A page whose every item's amount is absent keeps counting them in the
   * subtotal as 0, but one such item with a CGST rate makes the CGST total
   * `NaN`, where 0 was evidently intended.
   */
  lemma MissingAmountMakesTaxNaN()
    ensures var items := [QuoteItem(None, Some(9.0), Some(9.0), None)];
      SumAmounts(items) == 0.0 && TaxTotal(items, CGST).None? && IntendedTaxTotal(items, CGST) == 0.0
  {
    var items := [QuoteItem(None, Some(9.0), Some(9.0), None)];
    assert items[..0] == [];
  }

  /** In the intended total an item without an amount adds nothing, as it adds nothing to the subtotal. */
  lemma IntendedIgnoresMissingAmount(items: seq<QuoteItem>, item: QuoteItem, kind: TaxKind)
    requires item.amount.None?
    ensures IntendedTaxTotal(items + [item], kind) == IntendedTaxTotal(items, kind)
    ensures SumAmounts(items + [item]) == SumAmounts(items)
  {
    assert (items + [item])[..|items|] == items;
  }

  /** A `NaN` once in a tax total stays there whatever items follow. */
  lemma {:induction false} NaNPersists(items: seq<QuoteItem>, more: seq<QuoteItem>, kind: TaxKind)
    requires TaxTotal(items, kind).None?
    ensures TaxTotal(items + more, kind).None?
    decreases |more|
  {
    if more == [] {
      assert items + more == items;
    } else {
      var init := more[..|more| - 1];
      NaNPersists(items, init, kind);
      assert (items + more)[..|items + more| - 1] == items + init;
    }
  }
}

/**
 * The delivery-challan pricing engine: `calculateLineItem`, the `totals`
 * reduce and `finalTotal`, which the create and the edit page of a delivery
 * challan carry as identical copies. Amounts are exact reals.
 */
module ChallanPricing {
  import opened Text

  /** Row ids: the pages use 1, `index + 1` and `Math.random()`; only identity matters. */
  type RowId = nat

  /** One row of the challan's item table (`ChallanItem`). */
  datatype ChallanItem = ChallanItem(
    id: RowId,
    name: string,
    description: string,
    hsnSac: string,
    qty: real,
    rate: real,
    discountType: string,   // 'percentage' or 'flat'; anything but 'percentage' prices as flat
    discountValue: real,
    gstRate: int            // -1 is the "Non-taxable" option, 0 is GST0
  )

  /** What `calculateLineItem` returns for one row. */
  datatype LineCalc = LineCalc(
    baseAmount: real,
    discountAmount: real,
    taxableAmount: real,
    taxAmount: real,
    total: real
  )

  /** The accumulator of the `totals` reduce. */
  datatype Totals = Totals(taxableSubtotal: real, totalTax: real, grandTotal: real)

  const Percentage: string := "percentage"
  const NonTaxable: int := -1

  /** `Math.min` on two amounts. */
  function Min(a: real, b: real): real {
    if a <= b then a else b
  }

  /** The discount on a base: a percentage capped at 100, or a flat value, then clamped to the base. */
  function DiscountOn(base: real, discountType: string, discountValue: real): (d: real)
    ensures d <= base
  {
    var raw := if discountType == Percentage
               then base * (Min(discountValue, 100.0) / 100.0)
               else discountValue;
    Min(raw, base)
  }

  /** `calculateLineItem`: base, capped and clamped discount, tax only for a positive GST rate. */
  function CalculateLineItem(item: ChallanItem): (c: LineCalc)
    ensures c.baseAmount == item.qty * item.rate
    ensures c.discountAmount <= c.baseAmount
    ensures c.total == c.taxableAmount + c.taxAmount
  {
    var base := item.qty * item.rate;
    var discount := DiscountOn(base, item.discountType, item.discountValue);
    var taxable := base - discount;
    var tax := if item.gstRate > 0 then taxable * (item.gstRate as real / 100.0) else 0.0;
    LineCalc(base, discount, taxable, tax, taxable + tax)
  }

  /** One step of the `totals` reduce. */
  function AddLine(acc: Totals, item: ChallanItem): Totals {
    var line := CalculateLineItem(item);
    Totals(acc.taxableSubtotal + line.taxableAmount,
           acc.totalTax + line.taxAmount,
           acc.grandTotal + line.total)
  }

  /** `items.reduce(...)`: a left fold of AddLine from `acc`. */
  function FoldTotals(acc: Totals, items: seq<ChallanItem>): Totals
    decreases |items|
  {
    if items == [] then acc else FoldTotals(AddLine(acc, items[0]), items[1..])
  }

  /** The page's `totals`. */
  function ChallanTotals(items: seq<ChallanItem>): Totals {
    FoldTotals(Totals(0.0, 0.0, 0.0), items)
  }

  /** `finalTotal = totals.grandTotal + adjustment` (there is no shipping term). */
  function FinalTotal(items: seq<ChallanItem>, adjustment: real): real {
    ChallanTotals(items).grandTotal + adjustment
  }

  // ---------------------------------------------------------------------
  // Reference sums, independent of the fold.

  function SumTaxable(items: seq<ChallanItem>): real {
    if items == [] then 0.0 else CalculateLineItem(items[0]).taxableAmount + SumTaxable(items[1..])
  }

  function SumTax(items: seq<ChallanItem>): real {
    if items == [] then 0.0 else CalculateLineItem(items[0]).taxAmount + SumTax(items[1..])
  }

  function SumLineTotals(items: seq<ChallanItem>): real {
    if items == [] then 0.0 else CalculateLineItem(items[0]).total + SumLineTotals(items[1..])
  }

  // ---------------------------------------------------------------------
  // Line properties.

  /** With non-negative inputs the discount lies in [0, base], so the taxable amount does too. */
  lemma DiscountWithinBase(item: ChallanItem)
    requires item.qty >= 0.0 && item.rate >= 0.0 && item.discountValue >= 0.0
    ensures var c := CalculateLineItem(item);
      0.0 <= c.discountAmount <= c.baseAmount && 0.0 <= c.taxableAmount <= c.baseAmount
  {
    var base := item.qty * item.rate;
    assert base >= 0.0;
    if item.discountType == Percentage {
      var m := Min(item.discountValue, 100.0);
      assert 0.0 <= m / 100.0 <= 1.0;
      assert 0.0 <= base * (m / 100.0);
    }
  }

  /** A percentage discount of 100 or more wipes out the whole taxable amount. */
  lemma PercentageDiscountCapped(item: ChallanItem)
    requires item.discountType == Percentage && item.discountValue >= 100.0
    ensures CalculateLineItem(item).taxableAmount == 0.0
    ensures CalculateLineItem(item).taxAmount == 0.0
    ensures CalculateLineItem(item).total == 0.0
  {
  }

  /** Any percentage above 100 prices exactly like 100. */
  lemma PercentageAboveHundredIsHundred(item: ChallanItem)
    requires item.discountType == Percentage && item.discountValue >= 100.0
    ensures CalculateLineItem(item) == CalculateLineItem(item.(discountValue := 100.0))
  {
  }

  /** Tax is charged only for a positive GST rate: "Non-taxable" (-1) and GST0 charge nothing. */
  lemma TaxOnlyWhenPositive(item: ChallanItem)
    ensures var c := CalculateLineItem(item);
      (item.gstRate <= 0 ==> c.taxAmount == 0.0 && c.total == c.taxableAmount) &&
      (item.gstRate > 0 ==> c.taxAmount == c.taxableAmount * item.gstRate as real / 100.0)
  {
  }

  /** With non-negative inputs the line total is at least the taxable amount, which is at least 0. */
  lemma TotalAtLeastTaxable(item: ChallanItem)
    requires item.qty >= 0.0 && item.rate >= 0.0 && item.discountValue >= 0.0
    ensures var c := CalculateLineItem(item);
      0.0 <= c.taxableAmount <= c.total
  {
    DiscountWithinBase(item);
    var c := CalculateLineItem(item);
    if item.gstRate > 0 {
      assert c.taxAmount == c.taxableAmount * (item.gstRate as real / 100.0);
      assert item.gstRate as real / 100.0 > 0.0;
    }
  }

  /** A flat discount larger than the base is clamped to the base: nothing is taxed or charged. */
  lemma FlatDiscountClamped(item: ChallanItem)
    requires item.discountType != Percentage && item.discountValue >= item.qty * item.rate
    ensures var c := CalculateLineItem(item);
      c.discountAmount == c.baseAmount && c.taxableAmount == 0.0 && c.taxAmount == 0.0 && c.total == 0.0
  {
  }

  /** Two priced rows worked by hand: 2 x 100 at 10% and GST18, then 1 x 50 with a flat 100 at GST5. */
  lemma WorkedRows()
    ensures CalculateLineItem(ChallanItem(1, "A", "", "", 2.0, 100.0, Percentage, 10.0, 18))
         == LineCalc(200.0, 20.0, 180.0, 32.4, 212.4)
    ensures CalculateLineItem(ChallanItem(2, "B", "", "", 1.0, 50.0, "flat", 100.0, 5))
         == LineCalc(50.0, 50.0, 0.0, 0.0, 0.0)
  {
  }

  // ---------------------------------------------------------------------
  // Fold law.

  /** The line total of every row is its taxable amount plus its tax, summed. */
  lemma {:induction false} SumLineTotalsSplits(items: seq<ChallanItem>)
    ensures SumLineTotals(items) == SumTaxable(items) + SumTax(items)
  {
    if items != [] {
      SumLineTotalsSplits(items[1..]);
    }
  }

  /** The reduce from any accumulator adds the three reference sums to it. */
  lemma {:induction false} FoldTotalsSums(acc: Totals, items: seq<ChallanItem>)
    ensures FoldTotals(acc, items) ==
      Totals(acc.taxableSubtotal + SumTaxable(items),
             acc.totalTax + SumTax(items),
             acc.grandTotal + SumLineTotals(items))
    decreases |items|
  {
    if items != [] {
      FoldTotalsSums(AddLine(acc, items[0]), items[1..]);
    }
  }

  /**
   * The fold law: the subtotal is the sum of the taxable amounts, the tax the
   * sum of the taxes, the grand total their sum, and the final total adds the
   * adjustment and nothing else.
   */
  lemma TotalsFoldLaw(items: seq<ChallanItem>, adjustment: real)
    ensures ChallanTotals(items).taxableSubtotal == SumTaxable(items)
    ensures ChallanTotals(items).totalTax == SumTax(items)
    ensures ChallanTotals(items).grandTotal == SumTaxable(items) + SumTax(items)
    ensures FinalTotal(items, adjustment) == SumTaxable(items) + SumTax(items) + adjustment
  {
    FoldTotalsSums(Totals(0.0, 0.0, 0.0), items);
    SumLineTotalsSplits(items);
  }

  /** The sums split over a concatenation of rows. */
  lemma {:induction false} SumsAppend(a: seq<ChallanItem>, b: seq<ChallanItem>)
    ensures SumTaxable(a + b) == SumTaxable(a) + SumTaxable(b)
    ensures SumTax(a + b) == SumTax(a) + SumTax(b)
    decreases |a|
  {
    if a != [] {
      assert (a + b)[0] == a[0];
      assert (a + b)[1..] == a[1..] + b;
      SumsAppend(a[1..], b);
    } else {
      assert a + b == b;
    }
  }

  /** Rows with non-negative inputs never give negative document totals. */
  lemma {:induction false} TotalsNonNegative(items: seq<ChallanItem>)
    requires forall i :: 0 <= i < |items| ==>
      items[i].qty >= 0.0 && items[i].rate >= 0.0 && items[i].discountValue >= 0.0
    ensures 0.0 <= SumTaxable(items) <= SumTaxable(items) + SumTax(items)
  {
    if items != [] {
      TotalAtLeastTaxable(items[0]);
      TotalsNonNegative(items[1..]);
    }
  }

  // ---------------------------------------------------------------------
  // Tax labels: `taxName` on save, and its decoding when an edit page loads.

  /** The saved label: `GST{r}` for a positive rate, otherwise 'Non-taxable'. */
  function TaxName(gstRate: int): (s: string)
    ensures gstRate > 0 <==> |s| > 3 && s[..3] == "GST"
    ensures gstRate > 0 ==> s == "GST" + NatToString(gstRate) && DigitsValue(s[3..]) == gstRate
    ensures gstRate <= 0 ==> s == "Non-taxable"
  {
    if gstRate > 0 then
      assert ("GST" + NatToString(gstRate))[3..] == NatToString(gstRate);
      "GST" + IntToString(gstRate)
    else
      assert "Non-taxable"[..3] == "Non";
      "Non-taxable"
  }

  /** Load-time decoding: substring tests in the order '18', '12', '5', '28', else 0. */
  function DecodeGstRate(taxName: string): int {
    if Contains(taxName, "18") then 18
    else if Contains(taxName, "12") then 12
    else if Contains(taxName, "5") then 5
    else if Contains(taxName, "28") then 28
    else 0
  }

  /** `t` cannot occur in a string that lacks its first character. */
  lemma FirstCharAbsent(s: string, t: string)
    requires t != [] && forall i :: 0 <= i < |s| ==> s[i] != t[0]
    ensures !Contains(s, t)
  {
    forall i | 0 <= i <= |s| - |t| ensures !OccursAt(s, t, i) {
      assert s[i..i + |t|][0] == s[i];
    }
  }

  /** A string none of whose characters is a digit contains no number. */
  lemma NoDigitNoNumber(s: string, t: string)
    requires forall i :: 0 <= i < |s| ==> !IsDigit(s[i])
    requires t != [] && IsDigit(t[0])
    ensures !Contains(s, t)
  {
    FirstCharAbsent(s, t);
  }

  /** The decoder of a string without digits falls back to 0. */
  lemma DecodeWithoutDigits(s: string)
    requires forall i :: 0 <= i < |s| ==> !IsDigit(s[i])
    ensures DecodeGstRate(s) == 0
  {
    NoDigitNoNumber(s, "18");
    NoDigitNoNumber(s, "12");
    NoDigitNoNumber(s, "5");
    NoDigitNoNumber(s, "28");
  }

  /** The saved label of the rate list's taxed options decodes back to the same rate. */
  lemma TaxNameRoundTrip(r: int)
    requires r == 5 || r == 12 || r == 18 || r == 28
    ensures DecodeGstRate(TaxName(r)) == r
  {
    var s := TaxName(r);
    if r == 5 {
      assert s == "GST5";
      FirstCharAbsent(s, "18");
      FirstCharAbsent(s, "12");
      assert OccursAt(s, "5", 3);
    } else if r == 12 {
      assert s == "GST12";
      forall i | 0 <= i <= |s| - 2 ensures !OccursAt(s, "18", i) {
        assert s[i..i + 2] == if i == 3 then "12" else [s[i], s[i + 1]];
      }
      assert OccursAt(s, "12", 3);
    } else if r == 18 {
      assert s == "GST18";
      assert OccursAt(s, "18", 3);
    } else {
      assert s == "GST28";
      FirstCharAbsent(s, "18");
      FirstCharAbsent(s, "12");
      FirstCharAbsent(s, "5");
      assert OccursAt(s, "28", 3);
    }
  }

  /** "Non-taxable" (-1) and GST0 are both saved as 'Non-taxable' and both load back as 0. */
  lemma UntaxedDecodesToZero(r: int)
    requires r <= 0
    ensures TaxName(r) == "Non-taxable"
    ensures DecodeGstRate(TaxName(r)) == 0
  {
    DecodeWithoutDigits("Non-taxable");
  }

  /** A catalog rate outside the option list does not survive: GST3 loads as 0, GST118 as 18. */
  lemma OffListRatesDoNotRoundTrip()
    ensures DecodeGstRate(TaxName(3)) == 0
    ensures DecodeGstRate(TaxName(118)) == 18
  {
    var s3 := TaxName(3);
    assert s3 == "GST3";
    FirstCharAbsent(s3, "18");
    FirstCharAbsent(s3, "12");
    FirstCharAbsent(s3, "5");
    FirstCharAbsent(s3, "28");
    var s118 := TaxName(118);
    assert s118 == "GST118";
    assert OccursAt(s118, "18", 4);
  }
}

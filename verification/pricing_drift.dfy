/**
 * The credit note prices a row with its own copy of the line arithmetic.
 * Reading a challan row as a credit-note row shows where the two copies
 * agree and where they have drifted apart: the credit note never caps a
 * percentage, never clamps a discount to the base, and never adds tax.
 */
module PricingDrift {
  import opened ChallanPricing
  import CreditNote

  /** A challan row as the credit-note editor would hold it; the GST rate becomes the `tax` percent. */
  function AsCreditLine(item: ChallanItem): (l: CreditNote.LineItem)
    ensures l.quantity == item.qty && l.rate == item.rate && l.discount == item.discountValue
    ensures l.discountType == item.discountType && l.amount == CreditNote.LineAmount(l)
  {
    var l := CreditNote.LineItem("", "", item.name, item.description, "", item.qty, item.rate,
                                 item.discountValue, item.discountType,
                                 if item.gstRate > 0 then item.gstRate as real else 0.0,
                                 TaxName(item.gstRate), 0.0);
    l.(amount := CreditNote.LineAmount(l))
  }

  /** The discount lies where neither the percentage cap nor the clamp to the base takes effect. */
  predicate DiscountInRange(item: ChallanItem) {
    item.qty * item.rate >= 0.0 &&
    if item.discountType == Percentage then item.discountValue <= 100.0
    else item.discountValue <= item.qty * item.rate
  }

  /**
   * On an untaxed row whose discount is in range, the two copies give the
   * same amount: the challan's line total is the credit note's amount.
   */
  lemma AgreeWhenUntaxedAndInRange(item: ChallanItem)
    requires item.gstRate <= 0 && item.discountType != "" && DiscountInRange(item)
    ensures CalculateLineItem(item).total == AsCreditLine(item).amount
    ensures CalculateLineItem(item).taxableAmount == AsCreditLine(item).amount
  {
    var base := item.qty * item.rate;
    var c := CalculateLineItem(item);
    if item.discountType == Percentage {
      var raw := base * (item.discountValue / 100.0);
      assert Min(item.discountValue, 100.0) == item.discountValue;
      assert raw == item.qty * item.rate * item.discountValue / 100.0;
      if item.discountValue >= 0.0 {
        assert raw <= base;
      } else {
        assert raw <= 0.0;
      }
      assert c.discountAmount == raw;
    } else {
      assert c.discountAmount == item.discountValue;
    }
  }

  /** With a positive GST rate and a positive taxable amount, the challan charges more than the credit note. */
  lemma ChallanAddsTaxTheCreditNoteOmits(item: ChallanItem)
    requires item.gstRate > 0 && item.discountType != "" && DiscountInRange(item)
    requires CalculateLineItem(item).taxableAmount > 0.0
    ensures CalculateLineItem(item).taxableAmount == AsCreditLine(item).amount
    ensures CalculateLineItem(item).total > AsCreditLine(item).amount
  {
    var untaxed := item.(gstRate := 0);
    AgreeWhenUntaxedAndInRange(untaxed);
    SameTaxableWhateverTheRate(item, 0);
    TaxRaisesTotal(item);
  }

  /** The taxable amount does not depend on the GST rate, nor does the credit-note amount. */
  lemma SameTaxableWhateverTheRate(item: ChallanItem, g: int)
    ensures CalculateLineItem(item).taxableAmount == CalculateLineItem(item.(gstRate := g)).taxableAmount
    ensures AsCreditLine(item).amount == AsCreditLine(item.(gstRate := g)).amount
  {
    TaxableIgnoresRate(item, g);
    CreditAmountIgnoresRate(item, g);
  }

  lemma TaxableIgnoresRate(item: ChallanItem, g: int)
    ensures CalculateLineItem(item).taxableAmount == CalculateLineItem(item.(gstRate := g)).taxableAmount
  {
    var base := item.qty * item.rate;
    var discount := DiscountOn(base, item.discountType, item.discountValue);
    assert CalculateLineItem(item).taxableAmount == base - discount;
    assert CalculateLineItem(item.(gstRate := g)).taxableAmount == base - discount;
  }

  lemma CreditAmountIgnoresRate(item: ChallanItem, g: int)
    ensures AsCreditLine(item).amount == AsCreditLine(item.(gstRate := g)).amount
  {
    var l, m := AsCreditLine(item), AsCreditLine(item.(gstRate := g));
    assert l.quantity == m.quantity && l.rate == m.rate && l.discount == m.discount && l.discountType == m.discountType;
    assert CreditNote.DiscountOf(l) == CreditNote.DiscountOf(m);
  }

  /** A positive rate on a positive taxable amount adds a positive tax. */
  lemma TaxRaisesTotal(item: ChallanItem)
    requires item.gstRate > 0 && CalculateLineItem(item).taxableAmount > 0.0
    ensures CalculateLineItem(item).total > CalculateLineItem(item).taxableAmount
  {
    var c := CalculateLineItem(item);
    assert c.taxAmount == c.taxableAmount * (item.gstRate as real / 100.0);
    PositiveProduct(c.taxableAmount, item.gstRate as real / 100.0);
  }

  lemma PositiveProduct(a: real, b: real)
    requires a > 0.0 && b > 0.0
    ensures a * b > 0.0
  {
  }

  /** A flat discount above the base: the challan clamps it to 0, the credit note goes negative. */
  lemma FlatOverdiscountDiverges(item: ChallanItem)
    requires item.discountType != "" && item.discountType != Percentage
    requires item.discountValue > item.qty * item.rate
    ensures CalculateLineItem(item).taxableAmount == 0.0
    ensures AsCreditLine(item).amount < 0.0
  {
  }

  /** A percentage above 100 on a positive base: the challan stops at 0, the credit note goes negative. */
  lemma PercentageOverHundredDiverges(item: ChallanItem)
    requires item.discountType == Percentage && item.discountValue > 100.0
    requires item.qty * item.rate > 0.0
    ensures CalculateLineItem(item).taxableAmount == 0.0
    ensures AsCreditLine(item).amount < 0.0
  {
    PercentageAboveHundredIsHundred(item);
    CreditNote.PercentageNotCapped(AsCreditLine(item));
  }

  /** An empty discount type is flat to the challan and a percentage to the credit note. */
  lemma EmptyDiscountTypeReadsDifferently()
    ensures var item := ChallanItem(1, "Widget", "", "", 2.0, 100.0, "", 10.0, 0);
      CalculateLineItem(item).taxableAmount == 190.0 && AsCreditLine(item).amount == 180.0
  {
  }
}

# Billing document editors — a Dafny model

This project models the client-side logic of five pages of an Indian GST
billing application:

- the delivery-challan editor. The create page and the edit page share the
  row list, the line pricing (base, discount capped at 100 % and clamped to
  the base, GST on the taxable amount), the totals fold, the validation
  gate and the save payload. They differ in how a row's discount is stored
  and in the saved status. The edit page also decodes a stored challan back
  into rows.
- the credit-note editor. Its line items carry their own discount
  arithmetic, which has no cap, no clamp and no tax. The page also has a
  fixed table of tax options, catalog selection, customer selection, the
  totals (subtotal, shipping, adjustment) and the submit payload.
- the quotes list. It covers:
  - the status badge and the filter captions;
  - the search and status filter;
  - the selection and favourite toggles;
  - `numberToWords`, which prints an amount in the Indian numbering system
    ("Indian Rupee One Crore … Only");
  - the PDF tax breakdown.
- the e-way bill editor. It covers:
  - the address formatter;
  - the form's initial state and the `||` fallbacks applied when a stored
    bill is loaded;
  - the customer change, which fills the bill-to and ship-to addresses;
  - the update payload.

Amounts are exact reals. JavaScript's `parseFloat`, the id generator and
ISO date formatting are parameters. `undefined`, `null` and empty values
are modelled through `Option` or the empty string, wherever the page's
`||` treats them alike.

Files:

| file | module | models |
|---|---|---|
| `wrappers.dfy` | `Wrappers` | `Option`, `Result` |
| `text.dfy` | `Text` | the string built-ins the pages use (`trim`, `toLowerCase`, `includes`, `replace`, the `\d+` match) and word splitting |
| `row_lists.dfy` | `RowLists` | keyed row lists: map-where-id-matches, filter-out, append |
| `challan_pricing.dfy` | `ChallanPricing` | `calculateLineItem`, the totals fold, the `GST<n>` tax name and its decoding |
| `delivery_challan.dfy` | `DeliveryChallan` | the challan form (class `ChallanForm`), validation, payload, load |
| `credit_note.dfy` | `CreditNote` | the credit-note form (class `CreditNoteForm`) and its line arithmetic |
| `pricing_drift.dfy` | `PricingDrift` | how the two line-pricing copies agree and differ |
| `number_words.dfy` | `NumberWords` | `numberToWords`, with a word-level evaluator that reads the phrase back |
| `quotes.dfy` | `Quotes` | the quotes list (class `QuoteList`), filters, badge, PDF totals |
| `eway_bill.dfy` | `EWayBill` | the e-way bill editor (class `EWayBillEditor`) |

## Model

| member | source | states |
|---|---|---|
| `ChallanPricing.DiscountOn` | client/src/pages/delivery-challan-create.tsx:249-256 | the discount never exceeds the base amount, whatever its type or value |
| `ChallanPricing.CalculateLineItem` | client/src/pages/delivery-challan-create.tsx:248-269 | the base is qty × rate; the discount is at most the base; the line total is the taxable amount plus the tax |
| `ChallanPricing.DiscountWithinBase` | client/src/pages/delivery-challan-create.tsx:248-269 | for non-negative inputs the discount lies in [0, base] and the taxable amount lies in [0, base] |
| `ChallanPricing.PercentageDiscountCapped` | client/src/pages/delivery-challan-create.tsx:251-252 | a percentage of 100 or more leaves nothing taxable, no tax and a zero total |
| `ChallanPricing.PercentageAboveHundredIsHundred` | client/src/pages/delivery-challan-create.tsx:252 | any percentage at or above 100 prices the row exactly as 100 % does |
| `ChallanPricing.TaxOnlyWhenPositive` | client/src/pages/delivery-challan-create.tsx:258-261 | the tax is zero when the GST rate is not positive and is the rate's share of the taxable amount otherwise |
| `ChallanPricing.TotalAtLeastTaxable` | client/src/pages/delivery-challan-create.tsx:257-267 | for non-negative quantity, rate and discount, 0 ≤ taxable amount ≤ line total |
| `ChallanPricing.FlatDiscountClamped` | client/src/pages/delivery-challan-create.tsx:253-256 | a flat discount at or above the base is clamped to the base, so the row is free |
| `ChallanPricing.WorkedRows` | client/src/pages/delivery-challan-create.tsx:248-269 | two worked rows: 10 % off 2 × 100 at 18 % GST, and a flat 100 off 50 at 5 % |
| `ChallanPricing.SumLineTotalsSplits` | client/src/pages/delivery-challan-create.tsx:271-278 | the sum of line totals is the sum of taxable amounts plus the sum of taxes |
| `ChallanPricing.FoldTotalsSums` | client/src/pages/delivery-challan-create.tsx:271-278 | the `reduce` from any accumulator adds the three column sums to it |
| `ChallanPricing.TotalsFoldLaw` | client/src/pages/delivery-challan-create.tsx:271-280 | the folded subtotal, tax and grand total are the column sums; the final total is the grand total plus the adjustment |
| `ChallanPricing.SumsAppend` | client/src/pages/delivery-challan-create.tsx:271-278 | the column sums distribute over concatenation of row lists |
| `ChallanPricing.TotalsNonNegative` | client/src/pages/delivery-challan-create.tsx:271-278 | rows with non-negative inputs give a non-negative subtotal that the tax only raises |
| `ChallanPricing.TaxName` | client/src/pages/delivery-challan-edit.tsx:342 | a positive rate is saved as "GST" followed by the rate's decimal digits, which read back as the rate; any other rate is saved as "Non-taxable" |
| `ChallanPricing.DecodeWithoutDigits` | client/src/pages/delivery-challan-edit.tsx:132 | a stored tax name without digits decodes to rate 0 |
| `ChallanPricing.TaxNameRoundTrip` | client/src/pages/delivery-challan-edit.tsx:132 | for the offered rates 5, 12, 18 and 28, decoding the saved tax name gives the rate back |
| `ChallanPricing.UntaxedDecodesToZero` | client/src/pages/delivery-challan-edit.tsx:132 | a rate of 0 or less is saved as "Non-taxable" and reloads as 0 |
| `ChallanPricing.OffListRatesDoNotRoundTrip` | client/src/pages/delivery-challan-edit.tsx:132 | "GST3" reloads as 0 and "GST118" reloads as 18, because the decoder tests substrings in the order 18, 12, 5, 28 |
| `DeliveryChallan.CatalogGstRate` | client/src/pages/delivery-challan-create.tsx:199-204 | the GST rate is the number spelled by the digits that start at the first digit of `intraStateTax` and run to the next non-digit; a text without digits gives 0 |
| `DeliveryChallan.CatalogGstRateExamples` | client/src/pages/delivery-challan-create.tsx:199-204 | "gst18" gives 18, "GST5" gives 5, and "exempt" and "" give 0 |
| `DeliveryChallan.CatalogRateIgnoresCommas` | client/src/pages/delivery-challan-create.tsx:188-190 | a textual catalog rate is parsed after its commas are removed |
| `DeliveryChallan.WithCatalogItem` | client/src/pages/delivery-challan-create.tsx:206-217 | selecting a catalog item keeps the row's id, quantity and discount |
| `DeliveryChallan.NamedRows` | client/src/pages/delivery-challan-create.tsx:345 | a row is kept iff its name is not blank after trimming |
| `DeliveryChallan.NamedRowsAppend` | client/src/pages/delivery-challan-create.tsx:345 | the filter works row by row: filtering a concatenation is concatenating the filtered parts, so order and repeated rows are kept |
| `DeliveryChallan.NamedRowsSingle` | client/src/pages/delivery-challan-create.tsx:345 | a single row is dropped if its name is blank and kept otherwise |
| `DeliveryChallan.Validate` | client/src/pages/delivery-challan-create.tsx:327-363 | the save passes iff a customer and a challan type are set, some row is named and every named row has positive quantity and non-negative rate; the errors come in the page's order: a missing customer, then a missing type, then no named row, then a named row with a bad quantity or rate |
| `DeliveryChallan.ItemPayloadOf` | client/src/pages/delivery-challan-create.tsx:367-384 | a payload row carries the line's computed tax and total and the tax name of its GST rate |
| `DeliveryChallan.EncodeItems` | client/src/pages/delivery-challan-create.tsx:367-384 | the payload rows are the named rows, one for one and in order |
| `DeliveryChallan.LoadRows` | client/src/pages/delivery-challan-edit.tsx:123-145 | loading yields at least one row with distinct ids; an empty list yields the default row; otherwise one row per stored item, numbered from 1 |
| `DeliveryChallan.UpdateTouchesOnlyMatchingRow` | client/src/pages/delivery-challan-create.tsx:282-289 | `updateItem` changes the one row with the id, keeps the others and keeps ids distinct |
| `DeliveryChallan.RemoveKeepsARowAndDistinctIds` | client/src/pages/delivery-challan-create.tsx:305-309 | removal never empties the list, never touches a single row, and drops exactly the id's row |
| `DeliveryChallan.RemoveWithSharedIdsEmpties` | client/src/pages/delivery-challan-create.tsx:305-309 | without distinct ids, two rows sharing an id are both filtered out and the list becomes empty |
| `DeliveryChallan.AddKeepsIdsDistinct` | client/src/pages/delivery-challan-create.tsx:291-303 | appending a row with a fresh id keeps ids distinct |
| `DeliveryChallan.AddLeavesTotalsUnchanged` | client/src/pages/delivery-challan-create.tsx:291-303 | the appended default row (unnamed, rate 0) leaves the tax and the final total unchanged |
| `DeliveryChallan.DiscountValueEncodingRoundTrips` | client/src/pages/delivery-challan-create.tsx:367-384 | for an offered GST rate and a non-empty discount type, saving the discount value and reloading gives the row back unchanged, except that its id becomes its position and Non-taxable reloads as GST 0 |
| `DeliveryChallan.DiscountAmountEncodingKeepsFlatOnlyUpToBase` | client/src/pages/delivery-challan-edit.tsx:339 | with the edit page's encoding a flat discount survives a save and reload exactly when it does not exceed the base |
| `DeliveryChallan.DiscountAmountEncodingDriftsPercentage` | client/src/pages/delivery-challan-edit.tsx:130-131 | 10 % off 2 × 100 is saved as 20 and reloads as 20 %, so the taxable amount falls from 180 to 160 |
| `DeliveryChallan.ChallanNumberPrefixStripped` | client/src/pages/delivery-challan-edit.tsx:113 | loading strips the leading "DC-" from the stored number |
| `DeliveryChallan.ChallanForm.constructor` | client/src/pages/delivery-challan-create.tsx:135-145 | the form starts with one default row, no customer, no type, adjustment 0 and status DRAFT |
| `DeliveryChallan.ChallanForm.SelectCustomer` | client/src/pages/delivery-challan-create.tsx:311-317 | the "add new customer" entry leaves the selection as it was; any other value becomes the selection |
| `DeliveryChallan.ChallanForm.SetChallanType` | client/src/pages/delivery-challan-create.tsx:486 | the challan type becomes the selected value |
| `DeliveryChallan.ChallanForm.SetAdjustment` | client/src/pages/delivery-challan-create.tsx:734 | the adjustment becomes the entered value |
| `DeliveryChallan.ChallanForm.UpdateItem` | client/src/pages/delivery-challan-create.tsx:282-289 | the rows become the map-where-id-matches of the old rows; ids stay distinct |
| `DeliveryChallan.ChallanForm.AddItem` | client/src/pages/delivery-challan-create.tsx:291-303 | the rows become the old rows plus one default row with a fresh id |
| `DeliveryChallan.ChallanForm.RemoveItem` | client/src/pages/delivery-challan-create.tsx:305-309 | the id's row is filtered out unless it is the only row |
| `DeliveryChallan.ChallanForm.SelectItem` | client/src/pages/delivery-challan-create.tsx:183-220 | an unknown catalog id changes nothing; a known one rewrites that row's name, description, HSN, rate and GST rate from the catalog |
| `DeliveryChallan.ChallanForm.Load` | client/src/pages/delivery-challan-edit.tsx:106-145 | every loaded field is the stored one; the number loses its "DC-" prefix; the rows are the decoded rows |
| `DeliveryChallan.ChallanForm.Save` | client/src/pages/delivery-challan-create.tsx:326-407 | fails iff validation fails, with that error; otherwise the payload holds the encoded named rows, subtotal = taxable sum, CGST = SGST = half the tax, IGST 0, and total = taxable + tax + adjustment |
| `DeliveryChallan.ChallanForm.SaveNew` | client/src/pages/delivery-challan-create.tsx:326-407 | the create page stores discount values and the chosen status |
| `DeliveryChallan.ChallanForm.SaveEdited` | client/src/pages/delivery-challan-edit.tsx:287-366 | the edit page stores discount amounts; the status is the new one if given, else the loaded one |
| `CreditNote.ApplyUpdates` | client/src/pages/credit-note-edit.tsx:264-278 | the patched row keeps its id and its amount is recomputed from its own fields |
| `CreditNote.AmountMeaning` | client/src/pages/credit-note-edit.tsx:268-276 | the amount is qty × rate less qty × rate × discount / 100 for a percentage, and less the discount otherwise; an empty type counts as a percentage |
| `CreditNote.TaxNeverEntersAmount` | client/src/pages/credit-note-edit.tsx:264-278 | the tax and tax name never change the amount |
| `CreditNote.FlatDiscountNotClamped` | client/src/pages/credit-note-edit.tsx:272-276 | a flat discount makes the amount negative iff it exceeds qty × rate |
| `CreditNote.PercentageNotCapped` | client/src/pages/credit-note-edit.tsx:272-276 | a percentage above 100 on a positive base makes the amount negative |
| `CreditNote.PatchedAmountIgnored` | client/src/pages/credit-note-edit.tsx:253-258 | an `amount` in the patch is overwritten by the recomputation |
| `CreditNote.EmptyUpdateIsIdentity` | client/src/pages/credit-note-edit.tsx:264-282 | an empty patch leaves a row whose amount is current unchanged |
| `CreditNote.UpdateKeepsUnsetFields` | client/src/pages/credit-note-edit.tsx:267 | fields absent from the patch keep their values; present ones take the patch's |
| `CreditNote.UpdateTouchesOnlyMatchingRow` | client/src/pages/credit-note-edit.tsx:264-282 | only the row with the id changes; ids stay distinct and amounts stay current |
| `CreditNote.SumAmountsReplace` | client/src/pages/credit-note-edit.tsx:298 | replacing one row moves the sum by the difference of the two amounts |
| `CreditNote.SumAmountsAppend` | client/src/pages/credit-note-edit.tsx:284-289 | appending a row adds its amount; the default row adds nothing |
| `CreditNote.UpdateMovesSubtotalByOneRow` | client/src/pages/credit-note-edit.tsx:264-301 | an update moves the subtotal by the change in that row's amount alone |
| `CreditNote.SameAmountsSameSum` | client/src/pages/credit-note-edit.tsx:298 | two lists with equal amounts position by position have the same subtotal |
| `CreditNote.CatalogPrice` | client/src/pages/credit-note-edit.tsx:248-249 | a parsed non-zero rate is the price; an unparsable, absent or zero rate falls back to the selling price |
| `CreditNote.ParsedRate` | client/src/pages/credit-note-edit.tsx:248-249 | a non-empty text rate is parsed after its commas are removed; a non-zero number is taken as is; an absent, empty or zero rate gives nothing |
| `CreditNote.CatalogPriceIgnoresCommas` | client/src/pages/credit-note-edit.tsx:248 | the rate text is parsed after its commas are removed |
| `CreditNote.CatalogSelectionPrices` | client/src/pages/credit-note-edit.tsx:243-262 | choosing a catalog item keeps the row's quantity and discount, sets its item and rate to the catalog price, and its amount is quantity × price less the row's discount |
| `CreditNote.TaxRateOf` | client/src/pages/credit-note-edit.tsx:666-668 | a listed option gives its own rate (the option values are distinct); a value missing from the options gives 0 |
| `CreditNote.OptionRate` | client/src/pages/credit-note-edit.tsx:101-113 | `find` over the options: an absent value gives 0; otherwise the first option with that value gives its rate |
| `CreditNote.TaxOptionRates` | client/src/pages/credit-note-edit.tsx:101-113 | the table's rates, e.g. GST18 is 18 and none is 0 |
| `CreditNote.UnlistedTaxOptionIsZero` | client/src/pages/credit-note-edit.tsx:666-668 | a value not starting with n, G or I is off the list and gives 0 |
| `CreditNote.TaxChoiceKeepsAmount` | client/src/pages/credit-note-edit.tsx:666-668 | picking a tax sets the row's tax to the option's rate and recomputes its amount from its own fields, which leaves a current amount unchanged |
| `CreditNote.LoadedLine` | client/src/pages/credit-note-edit.tsx:198-211 | a loaded row keeps the stored amount without recomputing it; its id, quantity, discount type and tax name are never empty or 0; a stored id and a non-zero quantity are kept |
| `CreditNote.LoadedLines` | client/src/pages/credit-note-edit.tsx:198-211 | one loaded row per stored row, each loaded with its own index |
| `CreditNote.LoadRoundTrip` | client/src/pages/credit-note-edit.tsx:198-211 | lines saved with an id, a non-zero quantity, a discount type and a tax name load back unchanged |
| `CreditNote.TaxChoiceOnStaleRow` | client/src/pages/credit-note-edit.tsx:264-278 | on a row whose amount is stale, a tax choice moves the subtotal from the stale amount to the recomputed one |
| `CreditNote.StaleLoadMovesSubtotal` | client/src/pages/credit-note-edit.tsx:204-210 | a saved row of quantity 0, rate 100 and amount 0 loads with quantity 1 and amount 0; any tax choice then moves the subtotal from 0 to 100 |
| `CreditNote.LoadedIdsMayCollide` | client/src/pages/credit-note-edit.tsx:199 | a stored row without an id at index 0 and a stored row with id "1" load with the same id |
| `CreditNote.SharedIdRemovalEmpties` | client/src/pages/credit-note-edit.tsx:291-295 | removing an id that two rows share removes both and empties the list |
| `CreditNote.AppendDefaultKeepsAmountsCurrent` | client/src/pages/credit-note-edit.tsx:284-289 | appending the default row keeps every amount current |
| `CreditNote.CreditNoteForm.constructor` | client/src/pages/credit-note-edit.tsx:140-142 | the form starts with one default line and zero totals, and its rows are consistent (some row, distinct ids, current amounts) |
| `CreditNote.CreditNoteForm.SetLists` | client/src/pages/credit-note-edit.tsx:180-181 | each list is replaced by the fetched one when its own fetch succeeded and kept otherwise |
| `CreditNote.CreditNoteForm.Load` | client/src/pages/credit-note-edit.tsx:184-217 | a failed fetch changes nothing; otherwise customer, GSTIN, place of supply, shipping and adjustment are copied, a non-empty item list replaces the rows by their loaded form, and the totals follow |
| `CreditNote.CreditNoteForm.CalculateTotals` | client/src/pages/credit-note-edit.tsx:297-301 | subtotal = sum of amounts; total = subtotal + shipping + adjustment |
| `CreditNote.CreditNoteForm.UpdateLineItem` | client/src/pages/credit-note-edit.tsx:264-282 | the lines become the patched lines and the totals are recomputed; consistent rows stay consistent |
| `CreditNote.CreditNoteForm.AddLineItem` | client/src/pages/credit-note-edit.tsx:284-289 | one default line with the given id is appended and the totals do not move; consistent rows stay consistent when the id is fresh |
| `CreditNote.CreditNoteForm.RemoveLineItem` | client/src/pages/credit-note-edit.tsx:291-295 | the id's line is filtered out unless it is the only line; consistent rows stay consistent, so the list never empties |
| `CreditNote.CreditNoteForm.SelectCatalogItem` | client/src/pages/credit-note-edit.tsx:243-262 | an unknown item changes nothing; a known one patches the line with the catalog price; consistent rows stay consistent |
| `CreditNote.CreditNoteForm.SelectTax` | client/src/pages/credit-note-edit.tsx:664-668 | the line's tax name and rate change and its amount is recomputed: with current amounts the subtotal and total do not move; with distinct ids the subtotal moves by the recomputed amount less the stored one |
| `CreditNote.CreditNoteForm.SetShippingCharges` | client/src/pages/credit-note-edit.tsx:754 | the shipping charge is set and the total follows it |
| `CreditNote.CreditNoteForm.SetAdjustment` | client/src/pages/credit-note-edit.tsx:793 | the adjustment is set and the total follows it |
| `CreditNote.CreditNoteForm.SelectCustomer` | client/src/pages/credit-note-edit.tsx:230-241 | an unknown id changes nothing; a known one sets the id and the display name (falling back to the name), and the GSTIN and place of supply only when present |
| `CreditNote.CreditNoteForm.Submit` | client/src/pages/credit-note-edit.tsx:325-361 | nothing is sent iff no customer is chosen; the payload carries the lines and totals with every GST component and TDS at 0; its total is the lines' sum plus shipping and adjustment |
| `PricingDrift.AsCreditLine` | client/src/pages/credit-note-edit.tsx:264-278 | a challan row read as a credit-note line keeps quantity, rate, discount and type, and its amount is the credit note's |
| `PricingDrift.AgreeWhenUntaxedAndInRange` | client/src/pages/delivery-challan-create.tsx:248-269 | for an untaxed row with the discount in range, the challan's total equals the credit note's amount |
| `PricingDrift.ChallanAddsTaxTheCreditNoteOmits` | client/src/pages/delivery-challan-create.tsx:258-267 | with positive GST and a positive taxable amount, the challan total exceeds the credit-note amount |
| `PricingDrift.SameTaxableWhateverTheRate` | client/src/pages/delivery-challan-create.tsx:248-257 | neither the taxable amount nor the credit-note amount depends on the GST rate |
| `PricingDrift.TaxRaisesTotal` | client/src/pages/delivery-challan-create.tsx:258-267 | a positive rate on a positive taxable amount makes the total exceed it |
| `PricingDrift.FlatOverdiscountDiverges` | client/src/pages/credit-note-edit.tsx:272-276 | a flat discount above the base gives 0 on the challan and a negative amount on the credit note |
| `PricingDrift.PercentageOverHundredDiverges` | client/src/pages/credit-note-edit.tsx:272-276 | a percentage above 100 gives 0 on the challan and a negative amount on the credit note |
| `PricingDrift.EmptyDiscountTypeReadsDifferently` | client/src/pages/credit-note-edit.tsx:271 | an empty discount type is flat to the challan (190) and a percentage to the credit note (180) |
| `NumberWords.SpellAll` | client/src/pages/estimates.tsx:151-153 | each word token is spelled through the ones and tens tables |
| `NumberWords.GroupWords` | client/src/pages/estimates.tsx:155-169 | a group yields no words exactly when it is 0 |
| `NumberWords.GroupWordsPrintable` | client/src/pages/estimates.tsx:151-169 | every table index is in range for groups below 2000 |
| `NumberWords.GroupTrimmed` | client/src/pages/estimates.tsx:155-169 | the trimmed group text splits into exactly the spelled group words |
| `NumberWords.GroupRoundTrip` | client/src/pages/estimates.tsx:155-169 | reading a group's words back gives the group's number |
| `NumberWords.ConvertLessThanOneThousand` | client/src/pages/estimates.tsx:155-169 | the loop's result is the trimmed group text, whose words are the group's spelled words |
| `NumberWords.RemNonNegative` | client/src/pages/estimates.tsx:171-177 | `%` on a non-negative amount lies in [0, b) and recombines with the floored quotient |
| `NumberWords.RemNonPositive` | client/src/pages/estimates.tsx:171-177 | `%` on a non-positive amount lies in (-b, 0], as JavaScript truncates |
| `NumberWords.GroupsDecompose` | client/src/pages/estimates.tsx:171-177 | a non-negative amount splits into crore, lakh, thousand and remainder groups that recombine to its floor, all but the crore below their radix |
| `NumberWords.GroupsOfNegative` | client/src/pages/estimates.tsx:171-177 | a negative amount gives groups that are all 0 or less |
| `NumberWords.PhraseTrimmed` | client/src/pages/estimates.tsx:179-186 | the final `trim` changes nothing: the phrase has no surrounding spaces |
| `NumberWords.PhraseFramed` | client/src/pages/estimates.tsx:179-186 | every phrase begins with "Indian Rupee" and ends with "Only" |
| `NumberWords.NumberToWords` | client/src/pages/estimates.tsx:148-187 | 0 prints "Zero Only"; any other amount prints the assembled phrase |
| `NumberWords.PhraseDenotesAmount` | client/src/pages/estimates.tsx:148-187 | reading the phrase's words back gives the floor of a non-negative amount |
| `NumberWords.PhraseInTables` | client/src/pages/estimates.tsx:151-186 | below 2000 crore every table index is in range |
| `NumberWords.HugeAmountPrintsUndefined` | client/src/pages/estimates.tsx:171-180 | from 2000 crore up, the crore group indexes past the ones table and the first number word of the phrase is "undefined" |
| `NumberWords.PhraseWordsSpelled` | client/src/pages/estimates.tsx:179-186 | the phrase's words are "Indian Rupee", the spelled groups with their scale names, and "Only" |
| `NumberWords.NoGroupsPhrase` | client/src/pages/estimates.tsx:179-186 | with every group 0 the phrase is "Indian Rupee  Only" |
| `NumberWords.BelowOneRupeePhrase` | client/src/pages/estimates.tsx:148-186 | a non-zero amount below one rupee prints "Indian Rupee  Only" |
| `NumberWords.DoubleSpaceBeforeOnly` | client/src/pages/estimates.tsx:180-185 | an amount whose remainder group is 0 ends in a double space before "Only" |
| `NumberWords.PhraseWordsExample` | client/src/pages/estimates.tsx:148-187 | the words of 12,34,56,789 |
| `Quotes.StatusLabel` | client/src/pages/estimates.tsx:114-135 | CONVERTED reads by its target, SENT reads "Quotation Send", an unlisted status reads as itself |
| `Quotes.FilterLabels` | client/src/pages/estimates.tsx:846-849 | the label is the matching filter's caption, or "All Quotes" when none matches |
| `Quotes.BadgeAgreesWithFilter` | client/src/pages/estimates.tsx:114-145 | every status filter's caption is its badge's text, except SENT ("Quotation Send") and converted targets |
| `Quotes.FilteredQuotes` | client/src/pages/estimates.tsx:984-990 | a quote is shown iff its number or customer contains the search case-insensitively and it matches the status filter |
| `Quotes.FilteredQuotesAppend` | client/src/pages/estimates.tsx:984-990 | filtering distributes over concatenation, keeping order |
| `Quotes.EmptySearchShowsAll` | client/src/pages/estimates.tsx:984-990 | an empty search under "all" shows every quote |
| `Quotes.SearchIgnoresCase` | client/src/pages/estimates.tsx:986-987 | the search term's case never matters |
| `Quotes.ToggleFlips` | client/src/pages/estimates.tsx:905-912 | toggling flips membership of that id and of no other |
| `Quotes.ToggleTwiceRestores` | client/src/pages/estimates.tsx:905-912 | toggling twice restores the membership of every id |
| `Quotes.ToggleOnOffIsIdentity` | client/src/pages/estimates.tsx:905-912 | adding then removing an absent id restores the list exactly |
| `Quotes.WithoutAppend` | client/src/pages/estimates.tsx:907 | the filter-out distributes over concatenation |
| `Quotes.QuoteList.constructor` | client/src/pages/estimates.tsx:905-912 | the list starts with no selection and no favourites |
| `Quotes.QuoteList.ToggleSelectQuote` | client/src/pages/estimates.tsx:905-912 | the selection is toggled, the favourites are kept, and the id's membership flips |
| `Quotes.QuoteList.ToggleFavorite` | client/src/pages/estimates.tsx:851-858 | the favourites are toggled, the selection is kept, and the id's membership flips |
| `Quotes.AddNum` | client/src/pages/estimates.tsx:197-203 | a sum is a number iff both sides are; NaN absorbs |
| `Quotes.Percent` | client/src/pages/estimates.tsx:200-202 | a missing amount gives NaN; an amount of 0 gives 0 |
| `Quotes.CalculatePdfTotals` | client/src/pages/estimates.tsx:191-212 | with items, the loop's sums are the per-kind tax totals; without, CGST = SGST = 9 % of the back-computed subtotal, and the three add up to the total |
| `Quotes.FallbackAddsUp` | client/src/pages/estimates.tsx:204-209 | the fallback subtotal and two 9 % taxes add up to the quote's total |
| `Quotes.TaxTotalMatchesIntended` | client/src/pages/estimates.tsx:199-202 | when every taxed item has an amount, the tax total is a number and equals the intended sum |
| `Quotes.ItemTaxWhenPresent` | client/src/pages/estimates.tsx:199-202 | an item whose rate is falsy, or whose amount is present, taxes as intended |
| `Quotes.MissingAmountMakesTaxNaN` | client/src/pages/estimates.tsx:199-202 | an item with CGST and SGST rates but no amount makes both totals NaN |
| `Quotes.IntendedIgnoresMissingAmount` | client/src/pages/estimates.tsx:197-203 | in the intended total an item without an amount adds nothing, as it adds nothing to the subtotal |
| `Quotes.NaNPersists` | client/src/pages/estimates.tsx:197-203 | once a tax total is NaN, more items keep it NaN |
| `EWayBill.NonEmpty` | client/src/pages/e-way-bill-edit.tsx:137-143 | `filter(Boolean)` keeps exactly the non-empty lines, never more |
| `EWayBill.NonEmptyAppend` | client/src/pages/e-way-bill-edit.tsx:137-143 | the filter distributes over concatenation |
| `EWayBill.FormatAddress` | client/src/pages/e-way-bill-edit.tsx:133-145 | at least one line and no empty line; a falsy or scalar address gives "-"; a string gives itself; an empty record gives "-"; a record shows every non-empty field and nothing else |
| `EWayBill.RecordLines` | client/src/pages/e-way-bill-edit.tsx:137-144 | a record's lines are its non-empty fields in order, or "-" when all are empty |
| `EWayBill.FullAddressShowsEveryField` | client/src/pages/e-way-bill-edit.tsx:137-144 | a fully filled record shows all five fields in order |
| `EWayBill.DefaultAddressShowsIndia` | client/src/pages/e-way-bill-edit.tsx:179-184 | the default address prints as the single line "India" |
| `EWayBill.DefaultAddresses` | client/src/pages/e-way-bill-edit.tsx:179-184 | all four addresses start as the default one |
| `EWayBill.AddressOr` | client/src/pages/e-way-bill-edit.tsx:224-229 | a truthy address is kept; a falsy one yields the fallback |
| `EWayBill.InitialForm` | client/src/pages/e-way-bill-edit.tsx:157-177 | the initial choices are invoices, supply, regular, road and regular, with zero distance and total |
| `EWayBill.Or` | client/src/pages/e-way-bill-edit.tsx:203-223 | the logical-or fallback for text: a present, non-empty value wins, anything else gives the fallback |
| `EWayBill.IntOrZero` | client/src/pages/e-way-bill-edit.tsx:214 | an absent distance is 0 |
| `EWayBill.RealOrZero` | client/src/pages/e-way-bill-edit.tsx:220 | an absent total is 0 |
| `EWayBill.DayOr` | client/src/pages/e-way-bill-edit.tsx:211 | an absent or empty date loads as "" |
| `EWayBill.LoadedChoicesNeverBlank` | client/src/pages/e-way-bill-edit.tsx:203-223 | after loading, document type, sub-type, transaction type, mode and vehicle type are never empty |
| `EWayBill.LoadingNothingGivesInitialState` | client/src/pages/e-way-bill-edit.tsx:203-229 | loading an empty record gives the initial form and keeps the previous addresses |
| `EWayBill.LoadKeepsPresentFields` | client/src/pages/e-way-bill-edit.tsx:203-223 | every present, non-empty stored field is loaded as it is |
| `EWayBill.LoadIsIdempotent` | client/src/pages/e-way-bill-edit.tsx:224-229 | loading the addresses twice is loading them once |
| `EWayBill.CustomerName` | client/src/pages/e-way-bill-edit.tsx:247 | the display name, or the company name when it is empty |
| `EWayBill.ChosenAddresses` | client/src/pages/e-way-bill-edit.tsx:250-253 | dispatch-from and bill-from are kept; bill-to takes the billing address if truthy; ship-to takes the shipping address, else the billing address, else the old one |
| `EWayBill.ChoosingTwiceIsChoosingOnce` | client/src/pages/e-way-bill-edit.tsx:250-253 | choosing the same customer twice is choosing once |
| `EWayBill.ShipToFollowsBilling` | client/src/pages/e-way-bill-edit.tsx:252 | without a shipping address, ship-to and bill-to are both the billing address |
| `EWayBill.NoCustomerAddressKeepsPrevious` | client/src/pages/e-way-bill-edit.tsx:250-253 | a customer without addresses leaves the addresses as they were |
| `EWayBill.EWayBillEditor.constructor` | client/src/pages/e-way-bill-edit.tsx:152-184 | the editor starts with no customers and no items, the initial form and the default addresses |
| `EWayBill.EWayBillEditor.LoadCustomers` | client/src/pages/e-way-bill-edit.tsx:198 | the customer list is the fetched one, or empty when the response has none |
| `EWayBill.EWayBillEditor.LoadBill` | client/src/pages/e-way-bill-edit.tsx:200-230 | the form and addresses become the loaded ones; the items are the stored ones or empty |
| `EWayBill.EWayBillEditor.ChangeCustomer` | client/src/pages/e-way-bill-edit.tsx:240-254 | an unknown id changes nothing; a known one sets the id and name and the chosen addresses |
| `EWayBill.EWayBillEditor.Update` | client/src/pages/e-way-bill-edit.tsx:256-263 | the payload is the form and addresses, with status GENERATED when generating and the current status otherwise |
| `Text.ToLower` | client/src/pages/estimates.tsx:986-987 | ASCII `toLowerCase`: letter by letter, leaving no upper-case letter |
| `Text.ToLowerIdempotent` | client/src/pages/estimates.tsx:986-987 | lowering twice is lowering once |
| `Text.RemoveCommas` | client/src/pages/delivery-challan-create.tsx:190 | `replace(/,/g, '')` leaves no comma and changes a comma-free text not at all |
| `Text.RemoveCommasAppend` | client/src/pages/delivery-challan-create.tsx:190 | stripping commas distributes over concatenation |
| `Text.RemoveCommasChar` | client/src/pages/delivery-challan-create.tsx:190 | a comma is dropped and any other character is kept; with the previous row this fixes the result of every text |
| `Text.FirstDigitRun` | client/src/pages/delivery-challan-create.tsx:202-203 | the `\d+` match is absent iff the text has no digit; otherwise it is a non-empty digit run inside the text |
| `Text.FirstDigitRunAt` | client/src/pages/delivery-challan-create.tsx:202-203 | when `i` is the index of the first digit, the match is the maximal digit run starting at `i` |
| `Text.FirstDigitRunStartsAtFirstDigit` | client/src/pages/delivery-challan-create.tsx:202-203 | a match always starts at the first digit of the text and runs to the next non-digit |
| `Text.NatToString` | client/src/pages/delivery-challan-edit.tsx:342 | the decimal digits of n read back as n |
| `Text.ReplaceFirst` | client/src/pages/delivery-challan-edit.tsx:113 | with no occurrence nothing changes; a leading occurrence is replaced |
| `Text.ReplaceFirstAt` | client/src/pages/delivery-challan-edit.tsx:113 | only the first occurrence is replaced: the text before it and after it is kept unchanged |
| `Text.WordsOfJoined` | client/src/pages/estimates.tsx:168 | joined words split back into the same words |
| `RowLists.Find` | client/src/pages/e-way-bill-edit.tsx:241 | `find` by id, shared by every page's customer, catalog and filter lookup: nothing iff no row has the id, otherwise a listed row with that id |
| `RowLists.MapMatching` | client/src/pages/delivery-challan-create.tsx:282-289 | `rows.map` that edits the rows with the id: same length, each row with the id is edited in place and every other row stays |
| `RowLists.Without` | client/src/pages/delivery-challan-create.tsx:305-309 | `rows.filter` by id: a row is kept iff its key differs from the id, and nothing is added |
| `RowLists.WithoutAppend` | client/src/pages/credit-note-edit.tsx:293 | the filter distributes over concatenation, so the kept rows keep their order and repeats |
| `RowLists.WithoutSingle` | client/src/pages/estimates.tsx:854 | a single row is dropped iff it has the id |
| `RowLists.FindFirst` | client/src/pages/estimates.tsx:847 | the row found is the first with the id, whatever later rows share it |
| `RowLists.MapMatchingKeepsKeys` | client/src/pages/delivery-challan-create.tsx:282-289 | mapping the matching rows keeps every row's key in place |
| `RowLists.RemoveKeepsARow` | client/src/pages/delivery-challan-create.tsx:305-309 | the guarded removal never empties a non-empty list |
| `RowLists.AppendFreshKeepsDistinct` | client/src/pages/delivery-challan-create.tsx:291-303 | appending a row with a fresh key keeps keys distinct |

## Left out

- Network calls, toasts, routing, loading and submitting flags, dialogs and rendering are not modelled. Each fetch is a parameter of the operation that stores its result.
- Floating point: amounts are exact reals, so IEEE rounding (e.g. of `total / 1.18`) is not modelled. NaN is `None` where the pages can produce it.
- `parseFloat` and `parseInt` on user input are a `Parser` parameter. The `\d+` match's `parseInt` is modelled exactly on digit runs.
- Row ids from `Math.random()` and `Date.now()` are a parameter (`freshId`). Their freshness is a precondition where the page assumes it. The credit note, whose load can bring shared ids, makes freshness a condition for keeping ids distinct instead.
- `toLowerCase` is modelled on ASCII letters only. Unicode case mapping is not modelled.
- `Quotes.StatusLabel` does not model the lookup of JavaScript prototype keys (a status such as "constructor") in the status map.
- `NumberWords.PhraseInTables`: from 2000 crore up, the crore group is not split further. The model states that such amounts print "undefined" rather than modelling larger groups.
- Date parsing and ISO formatting (`new Date(...).toISOString()`, `format(date, ...)`) are a parameter (`isoDay`) or left out.
- The credit note's `fetchData` copies of reason, note numbers, date, salesperson, subject, TDS fields, notes and terms are not modelled, because no modelled operation reads them. The rows, customer fields, shipping and adjustment are modelled (`CreditNoteForm.Load`).
- CreditNote.CreditNoteForm.Valid holds only the totals. Distinct ids, current amounts and a non-empty row list form `RowsConsistent`, which every edit keeps but a load need not establish: a stored row with quantity 0 keeps its stale amount, and a row without an id can take another row's id.
- CreditNote.CreditNoteForm.SelectTax promises unchanged totals only when the amounts were current. After a load with a stale amount the subtotal moves (`StaleLoadMovesSubtotal`).
- The delivery-challan edit page's state before its fetch completes (an empty row list) is not modelled. `ChallanForm.Valid` requires at least one row, and the form is modelled from the create page's initial state or from a load.
- Billing and shipping addresses on the challan and credit-note payloads are not modelled. The e-way bill models addresses in full.
- A quote whose `items` is absent is treated as an empty list. Both take the fallback branch.
- Address fields are strings. The `String(...)` conversion of non-string field values is not modelled.
- The e-way bill's single-field setters (place of delivery, distance via `parseInt`, vehicle fields), `handleDelete`, and the item editing of the e-way bill are not modelled. They are plain assignments or network calls.
- `formatCurrency` and other display formatting are not modelled.
- The salesperson dialog of the credit note is not modelled, because it is a network call.

## Findings

| source | as written | input that shows it | evidently intended | confidence | as-written member | corrected member |
|---|---|---|---|---|---|---|
| client/src/pages/delivery-challan-edit.tsx:339 | the edit page saves `discount: lineCalc.discountAmount`, the money amount, while the loader at line 131 reads `item.discount` back as the discount value | a row of 2 × 100 with 10 % off is saved with discount 20, reloads as 20 %, and its taxable amount drops from 180 to 160 | save the discount value, as the create page does, so that save and reload is the identity | high, not executed | `DeliveryChallan.DiscountAmountEncodingDriftsPercentage` | `DeliveryChallan.DiscountValueEncodingRoundTrips` |
| client/src/pages/estimates.tsx:199-202 | the tax sums use `item.amount` directly, while the subtotal falls back to 0 for a missing amount | an item with CGST 9, SGST 9 and no amount makes the PDF's CGST and SGST NaN | treat a missing amount as 0 in the tax sums as in the subtotal | high, not executed | `Quotes.MissingAmountMakesTaxNaN` | `Quotes.TaxTotalMatchesIntended` |

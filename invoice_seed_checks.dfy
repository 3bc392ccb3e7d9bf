// The invoice seed catalogue checked against what the new-invoice dialog
// imposes on invoices (item schema, status set, totals rule), and the one
// seed that breaks the totals rule, together with its corrected form.

module InvoiceSeedChecks {
  import opened Common
  import opened InvoiceMocks
  import opened InvoiceDialog

  /** The items of a stored invoice as form rows. */
  function RowsOf(items: seq<InvoiceItem>): (rows: seq<ItemRow>)
    ensures |rows| == |items|
    ensures forall i :: 0 <= i < |items| ==> rows[i] == ToRow(items[i])
  {
    seq(|items|, i requires 0 <= i < |items| => ToRow(items[i]))
  }

  /** Reference definition: the sum over a stored invoice's items of quantity times unit price. */
  function ItemsSum(items: seq<InvoiceItem>): real
    decreases |items|
  {
    if items == [] then 0.0 else items[0].quantity * items[0].unitPrice + ItemsSum(items[1..])
  }

  /** The dialog's subtotal rule, applied to a stored invoice's items, gives their sum. */
  lemma {:induction false} DialogSubtotalOfItems(items: seq<InvoiceItem>)
    ensures SumOfRows(RowsOf(items)) == ItemsSum(items)
    ensures LiveTotals(Some(RowsOf(items))).subtotal == ItemsSum(items)
    decreases |items|
  {
    if items != [] {
      DialogSubtotalOfItems(items[1..]);
      assert RowsOf(items) == [ToRow(items[0])] + RowsOf(items[1..]);
      SumOfRowsCons(ToRow(items[0]), RowsOf(items[1..]));
    } else {
      assert RowsOf(items) == [];
    }
  }

  /** Tax is 16% of the stored subtotal and the total adds the two. */
  predicate TaxAndTotalConsistent(inv: MockInvoice)
  {
    inv.tax == inv.subtotal * 16.0 / 100.0 && inv.total == inv.subtotal + inv.tax
  }

  /** The stored subtotal is the sum of the items. */
  predicate SubtotalMatchesItems(inv: MockInvoice)
  {
    inv.subtotal == ItemsSum(inv.items)
  }

  lemma SeedIdsDistinct()
    ensures forall i, j :: 0 <= i < j < |MockInvoices| ==> MockInvoices[i].id != MockInvoices[j].id
  {
  }

  lemma SeedItemIdsDistinct()
    ensures forall k, i, j :: 0 <= k < |MockInvoices| && 0 <= i < j < |MockInvoices[k].items|
              ==> MockInvoices[k].items[i].id != MockInvoices[k].items[j].id
  {
  }

  /** Every seed item would be accepted by the dialog's item schema. */
  lemma SeedItemsSatisfySchema()
    ensures forall k, i :: 0 <= k < |MockInvoices| && 0 <= i < |MockInvoices[k].items|
              ==> ItemValid(ToRow(MockInvoices[k].items[i]))
  {
  }

  lemma SeedStatusesAllowed()
    ensures forall k :: 0 <= k < |MockInvoices| ==> MockInvoices[k].status in InvoiceStatuses
  {
  }

  lemma SeedTaxAndTotalConsistent()
    ensures forall k :: 0 <= k < |MockInvoices| ==> TaxAndTotalConsistent(MockInvoices[k])
  {
  }

  lemma ItemsSumEmpty()
    ensures ItemsSum([]) == 0.0
  {
  }

  /** The sum over a non-empty list is its first item's amount plus the sum over the rest. */
  lemma ItemsSumUnfold(items: seq<InvoiceItem>)
    requires items != []
    ensures ItemsSum(items) == items[0].quantity * items[0].unitPrice + ItemsSum(items[1..])
  {
  }

  /** Unfolds the item sum of one seed down to its literal products. */
  lemma SeedItemsSum(k: nat)
    requires k < |MockInvoices|
    ensures ItemsSum(MockInvoices[k].items) == [9900.0, 14300.0, 4350.0, 12555.0, 7000.0][k]
  {
    var items := MockInvoices[k].items;
    ItemsSumEmpty();
    ItemsSumUnfold(items);
    ItemsSumUnfold(items[1..]);
    if |items| > 2 { ItemsSumUnfold(items[2..]); assert items[1..][1..] == items[2..]; }
    if |items| > 3 { ItemsSumUnfold(items[3..]); assert items[2..][1..] == items[3..]; }
    assert |items| == 2 ==> items[1..][1..] == [];
    assert |items| == 3 ==> items[2..][1..] == [];
    assert |items| == 4 ==> items[3..][1..] == [];
  }

  /**
   * Four of the five seeds store the sum of their items; `inv-004` does not:
   * its items add up to 12555 while it stores 12530.
   */
  lemma SeedSubtotalsAgainstItems()
    ensures forall k :: 0 <= k < |MockInvoices| && k != 3 ==> SubtotalMatchesItems(MockInvoices[k])
    ensures MockInvoices[3].id == "inv-004"
    ensures ItemsSum(MockInvoices[3].items) == 12555.0 && MockInvoices[3].subtotal == 12530.0
    ensures !SubtotalMatchesItems(MockInvoices[3])
  {
    SeedItemsSum(0);
    SeedItemsSum(1);
    SeedItemsSum(2);
    SeedItemsSum(3);
    SeedItemsSum(4);
  }

  /** A stored invoice with subtotal, tax and total recomputed from its items. */
  function WithTotalsFromItems(inv: MockInvoice): (r: MockInvoice)
    ensures SubtotalMatchesItems(r) && TaxAndTotalConsistent(r)
    ensures r.(subtotal := inv.subtotal, tax := inv.tax, total := inv.total) == inv
  {
    DialogSubtotalOfItems(inv.items);
    var t := LiveTotals(Some(RowsOf(inv.items)));
    inv.(subtotal := t.subtotal, tax := t.tax, total := t.total)
  }

  /** The seed catalogue with `inv-004`'s totals recomputed from its items. */
  const CorrectedMockInvoices: seq<MockInvoice> := MockInvoices[3 := WithTotalsFromItems(MockInvoices[3])]

  /** The corrected `inv-004`: subtotal 12555, tax 2008.8, total 14563.8. */
  lemma CorrectedInv004()
    ensures CorrectedMockInvoices[3].subtotal == 12555.0
    ensures CorrectedMockInvoices[3].tax == 2008.8 && CorrectedMockInvoices[3].total == 14563.8
  {
    SeedItemsSum(3);
  }

  /** In the corrected catalogue every seed satisfies both halves of the totals rule. */
  lemma CorrectedSeedsConsistent()
    ensures |CorrectedMockInvoices| == |MockInvoices|
    ensures forall k :: 0 <= k < |CorrectedMockInvoices| ==>
              SubtotalMatchesItems(CorrectedMockInvoices[k]) && TaxAndTotalConsistent(CorrectedMockInvoices[k])
  {
    SeedSubtotalsAgainstItems();
    SeedTaxAndTotalConsistent();
  }
}

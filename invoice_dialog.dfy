// The "new invoice" dialog (src/components/invoice/AddInvoiceDialog.tsx):
// the form schema, the live subtotal / tax / total, the editable item list,
// the payload handed to the invoice store and the submit handler.

module InvoiceDialog {
  import opened Common
  import opened InvoiceMocks

  // ---------------------------------------------------------------- form values

  /**
   * One row of the item list as the form holds it while it is edited: a number
   * field may be empty.
   */
  datatype ItemRow = ItemRow(id: string, description: string, quantity: Option<real>, unitPrice: Option<real>)

  datatype InvoiceFormValues = InvoiceFormValues(
    client_id: string,
    project_id: string,
    invoice_number: string,
    issue_date: string,
    due_date: string,
    status: string,
    items: seq<ItemRow>,
    notes: Option<string>)

  const InvoiceStatuses: set<string> := {"paid", "unpaid", "overdue"}

  // ---------------------------------------------------------------- schema

  /** `invoiceItemSchema`: a description, at least one unit, a price that is not negative. */
  predicate ItemValid(row: ItemRow)
  {
    && |row.description| >= 1
    && row.quantity.Some? && row.quantity.value >= 1.0
    && row.unitPrice.Some? && row.unitPrice.value >= 0.0
  }

  /** `invoiceFormSchema`: the five required strings, a known status, one item or more, each valid. */
  predicate InvoiceFormValid(f: InvoiceFormValues)
  {
    && |f.client_id| >= 1
    && |f.project_id| >= 1
    && |f.invoice_number| >= 1
    && |f.issue_date| >= 1
    && |f.due_date| >= 1
    && f.status in InvoiceStatuses
    && |f.items| >= 1
    && (forall i :: 0 <= i < |f.items| ==> ItemValid(f.items[i]))
  }

  /** Where the schema reports a problem; an item's index is its position in the list. */
  datatype InvoiceField =
    | ClientId | ProjectId | InvoiceNumber | IssueDate | DueDate | Status | Items
    | ItemDescription(index: nat) | ItemQuantity(index: nat) | ItemUnitPrice(index: nat)

  /** The problems of one row, numbered `index`. */
  function RowIssues(row: ItemRow, index: nat): seq<InvoiceField>
  {
    (if |row.description| < 1 then [ItemDescription(index)] else [])
    + (if row.quantity.None? || row.quantity.value < 1.0 then [ItemQuantity(index)] else [])
    + (if row.unitPrice.None? || row.unitPrice.value < 0.0 then [ItemUnitPrice(index)] else [])
  }

  /** The problems of `rows`, the first of which is numbered `from`. */
  function ItemIssues(rows: seq<ItemRow>, from: nat): seq<InvoiceField>
    decreases |rows|
  {
    if rows == [] then [] else RowIssues(rows[0], from) + ItemIssues(rows[1..], from + 1)
  }

  /** Every problem the schema reports for `f` (zod collects them all rather than stopping at the first). */
  function InvoiceIssues(f: InvoiceFormValues): seq<InvoiceField>
  {
    (if |f.client_id| < 1 then [ClientId] else [])
    + (if |f.project_id| < 1 then [ProjectId] else [])
    + (if |f.invoice_number| < 1 then [InvoiceNumber] else [])
    + (if |f.issue_date| < 1 then [IssueDate] else [])
    + (if |f.due_date| < 1 then [DueDate] else [])
    + (if f.status !in InvoiceStatuses then [Status] else [])
    + ItemIssues(f.items, 0)
    + (if |f.items| < 1 then [Items] else [])
  }

  /** One row reports a description problem under its own number exactly when its description is empty. */
  lemma RowDescriptionIssue(row: ItemRow, index: nat, j: nat)
    ensures ItemDescription(j) in RowIssues(row, index) <==> j == index && |row.description| == 0
  {
  }

  /** A description problem is reported for exactly the rows whose description is empty. */
  lemma {:induction false} DescriptionIssueLocated(rows: seq<ItemRow>, from: nat, j: nat)
    ensures ItemDescription(j) in ItemIssues(rows, from)
        <==> from <= j < from + |rows| && |rows[j - from].description| == 0
    decreases |rows|
  {
    if rows != [] {
      var rest := rows[1..];
      assert ItemIssues(rows, from) == RowIssues(rows[0], from) + ItemIssues(rest, from + 1);
      RowDescriptionIssue(rows[0], from, j);
      DescriptionIssueLocated(rest, from + 1, j);
      if from < j < from + |rows| {
        assert rest[j - (from + 1)] == rows[j - from];
      }
    }
  }

  /** `rows` produce no problem exactly when every row passes the item schema. */
  lemma {:induction false} ItemIssuesEmptyIff(rows: seq<ItemRow>, from: nat)
    ensures ItemIssues(rows, from) == [] <==> forall i :: 0 <= i < |rows| ==> ItemValid(rows[i])
    decreases |rows|
  {
    if rows != [] {
      ItemIssuesEmptyIff(rows[1..], from + 1);
      assert RowIssues(rows[0], from) == [] <==> ItemValid(rows[0]);
      if forall i :: 0 <= i < |rows| ==> ItemValid(rows[i]) {
        assert forall i :: 0 <= i < |rows[1..]| ==> ItemValid(rows[1..][i]) by {
          forall i | 0 <= i < |rows[1..]| ensures ItemValid(rows[1..][i]) {
            assert rows[1..][i] == rows[i + 1];
          }
        }
      }
      if ItemIssues(rows, from) == [] {
        forall i | 0 <= i < |rows| ensures ItemValid(rows[i]) {
          if i > 0 { assert rows[i] == rows[1..][i - 1]; }
        }
      }
    }
  }

  /** The schema accepts a form exactly when it reports no problem. */
  lemma InvoiceValidIffNoIssues(f: InvoiceFormValues)
    ensures InvoiceFormValid(f) <==> InvoiceIssues(f) == []
  {
    ItemIssuesEmptyIff(f.items, 0);
  }

  // ---------------------------------------------------------------- defaults

  /** The row a fresh form starts with, and the row "add item" appends. */
  function BlankRow(id: string): (row: ItemRow)
    ensures !ItemValid(row) && RowIssues(row, 0) == [ItemDescription(0)]
    ensures row.quantity == Some(1.0) && row.unitPrice == Some(0.0)
  {
    ItemRow(id, "", Some(1.0), Some(0.0))
  }

  /** The id `handleAddItem` gives a new row: `item-` and the clock reading. */
  function NewItemId(now: nat): string
  {
    "item-" + Decimal(now)
  }

  /** Clicks at different milliseconds give different row ids. */
  lemma NewItemIdInjective(a: nat, b: nat)
    ensures NewItemId(a) == NewItemId(b) <==> a == b
  {
    if NewItemId(a) == NewItemId(b) {
      assert Decimal(a) == NewItemId(a)[5..];
      assert Decimal(b) == NewItemId(b)[5..];
      DecimalInjective(a, b);
    }
  }

  /** The form's `defaultValues`. */
  const DefaultFormValues: InvoiceFormValues :=
    InvoiceFormValues("", "", "", "", "", "unpaid", [BlankRow("item-1")], Some(""))

  /** An untouched form is refused for its five empty strings and its empty description, and for nothing else. */
  lemma DefaultFormIssues()
    ensures InvoiceIssues(DefaultFormValues)
         == [ClientId, ProjectId, InvoiceNumber, IssueDate, DueDate, ItemDescription(0)]
    ensures !InvoiceFormValid(DefaultFormValues)
  {
    InvoiceValidIffNoIssues(DefaultFormValues);
  }

  // ---------------------------------------------------------------- totals

  /** `value || 0` on a number field: an empty field counts as 0. */
  function OrZero(o: Option<real>): real
  {
    if o.Some? then o.value else 0.0
  }

  /** The amount a row's Subtotal cell shows: quantity times unit price, empty fields as 0. */
  function RowAmount(row: ItemRow): (r: real)
    ensures row.quantity.None? || row.unitPrice.None? ==> r == 0.0
    ensures ItemValid(row) ==> r >= 0.0
  {
    OrZero(row.quantity) * OrZero(row.unitPrice)
  }

  /** Reference definition: the sum of the row amounts. */
  function SumOfRows(rows: seq<ItemRow>): real
    decreases |rows|
  {
    if rows == [] then 0.0 else SumOfRows(rows[..|rows| - 1]) + RowAmount(rows[|rows| - 1])
  }

  /** `rows.reduce((sum, item) => sum + amount(item), acc)`: a left fold. */
  function ReduceAmounts(rows: seq<ItemRow>, acc: real): real
    decreases |rows|
  {
    if rows == [] then acc else ReduceAmounts(rows[1..], acc + RowAmount(rows[0]))
  }

  lemma {:induction false} SumOfRowsCons(row: ItemRow, rows: seq<ItemRow>)
    ensures SumOfRows([row] + rows) == RowAmount(row) + SumOfRows(rows)
    decreases |rows|
  {
    if rows != [] {
      var all := [row] + rows;
      assert all[..|all| - 1] == [row] + rows[..|rows| - 1];
      SumOfRowsCons(row, rows[..|rows| - 1]);
    }
  }

  /** The fold the dialog runs adds up to the sum of the row amounts. */
  lemma {:induction false} ReduceIsSum(rows: seq<ItemRow>, acc: real)
    ensures ReduceAmounts(rows, acc) == acc + SumOfRows(rows)
    decreases |rows|
  {
    if rows != [] {
      ReduceIsSum(rows[1..], acc + RowAmount(rows[0]));
      assert [rows[0]] + rows[1..] == rows;
      SumOfRowsCons(rows[0], rows[1..]);
    }
  }

  datatype InvoiceTotals = InvoiceTotals(subtotal: real, tax: real, total: real)

  /**
   * The totals recomputed on every render from the watched item list
   * (`watchItems?.reduce(...) || 0`, `subtotal * 0.16`, `subtotal + tax`).
   */
  function LiveTotals(watched: Option<seq<ItemRow>>): (t: InvoiceTotals)
    ensures watched.None? ==> t.subtotal == 0.0
    ensures watched.Some? ==> t.subtotal == SumOfRows(watched.value)
    ensures t.tax == t.subtotal * 16.0 / 100.0
    ensures t.total == t.subtotal + t.tax == t.subtotal * 116.0 / 100.0
  {
    var subtotal := if watched.None? then 0.0 else ReduceAmounts(watched.value, 0.0);
    assert watched.Some? ==> subtotal == SumOfRows(watched.value) by {
      if watched.Some? { ReduceIsSum(watched.value, 0.0); }
    }
    InvoiceTotals(subtotal, subtotal * 0.16, subtotal + subtotal * 0.16)
  }

  lemma {:induction false} SumOfRowsNonNegative(rows: seq<ItemRow>)
    requires forall i :: 0 <= i < |rows| ==> ItemValid(rows[i])
    ensures SumOfRows(rows) >= 0.0
    decreases |rows|
  {
    if rows != [] {
      var last := rows[|rows| - 1];
      assert ItemValid(last);
      assert RowAmount(last) == last.quantity.value * last.unitPrice.value;
      SumOfRowsNonNegative(rows[..|rows| - 1]);
    }
  }

  /** For rows the item schema accepts, no total is negative and tax never lowers the total. */
  lemma TotalsNonNegative(rows: seq<ItemRow>)
    requires forall i :: 0 <= i < |rows| ==> ItemValid(rows[i])
    ensures var t := LiveTotals(Some(rows)); 0.0 <= t.subtotal && 0.0 <= t.tax && t.subtotal <= t.total
  {
    SumOfRowsNonNegative(rows);
  }

  /** Appending the blank row leaves every total as it was (its amount is 1 * 0). */
  lemma AddingBlankRowKeepsTotals(rows: seq<ItemRow>, id: string)
    ensures LiveTotals(Some(rows + [BlankRow(id)])) == LiveTotals(Some(rows))
  {
    var all := rows + [BlankRow(id)];
    assert all[..|all| - 1] == rows;
  }

  // ---------------------------------------------------------------- the item list

  /**
   * The `items` field array (`useFieldArray`): rows are appended, edited and
   * removed in place. The remove button of every row is disabled while only
   * one row is left, so the list never becomes empty.
   */
  class ItemFieldArray {
    var rows: seq<ItemRow>

    ghost predicate Valid()
      reads this
    {
      |rows| >= 1
    }

    constructor ()
      ensures Valid() && rows == DefaultFormValues.items
    {
      rows := DefaultFormValues.items;
    }

    /** `handleAddItem`: one blank row at the end, the others untouched. */
    method AddItem(now: nat)
      requires Valid()
      modifies this
      ensures Valid()
      ensures rows == old(rows) + [BlankRow(NewItemId(now))]
    {
      rows := rows + [BlankRow(NewItemId(now))];
    }

    /** A click on the remove button of row `index`; ignored while it is the only row. */
    method RemoveClicked(index: nat)
      requires Valid() && index < |rows|
      modifies this
      ensures Valid()
      ensures |old(rows)| == 1 ==> rows == old(rows)
      ensures |old(rows)| != 1 ==> rows == old(rows)[..index] + old(rows)[index + 1..]
    {
      var disabled := |rows| == 1;
      if !disabled {
        rows := rows[..index] + rows[index + 1..];
      }
    }

    /** Typing into the description, quantity or unit-price input of row `index`; the row keeps its id. */
    method EditRow(index: nat, row: ItemRow)
      requires Valid() && index < |rows|
      requires row.id == rows[index].id
      modifies this
      ensures Valid()
      ensures rows == old(rows)[index := row]
    {
      rows := rows[index := row];
    }

    /** `form.reset()`: back to the default single blank row. */
    method Reset()
      modifies this
      ensures Valid() && rows == DefaultFormValues.items
    {
      rows := DefaultFormValues.items;
    }
  }

  // ---------------------------------------------------------------- payload

  /** The record `onSubmit` hands to `createInvoice`. */
  datatype InvoicePayload = InvoicePayload(
    client_id: string,
    project_id: string,
    invoice_number: string,
    issue_date: string,
    due_date: string,
    status: string,
    items: seq<InvoiceItem>,
    notes: string,
    subtotal: real,
    tax: real,
    total: real)

  /** A validated row as a stored item. */
  function ToItem(row: ItemRow): (item: InvoiceItem)
    requires ItemValid(row)
    ensures ToRow(item) == row
  {
    InvoiceItem(row.id, row.description, row.quantity.value, row.unitPrice.value)
  }

  /** A stored item as a form row. */
  function ToRow(item: InvoiceItem): ItemRow
  {
    ItemRow(item.id, item.description, Some(item.quantity), Some(item.unitPrice))
  }

  /** Absent notes are sent as ''. */
  function NormalizeNotes(f: InvoiceFormValues): InvoiceFormValues
  {
    f.(notes := Some(OrEmpty(f.notes)))
  }

  /**
   * The `createInvoice` argument: the fields copied, notes or '', and zero
   * totals (the store recomputes them). Only called on data the schema accepted.
   */
  function CreatePayload(data: InvoiceFormValues): (p: InvoicePayload)
    requires InvoiceFormValid(data)
    ensures p.client_id == data.client_id && p.project_id == data.project_id
    ensures p.invoice_number == data.invoice_number
    ensures p.issue_date == data.issue_date && p.due_date == data.due_date
    ensures p.status == data.status && p.status in InvoiceStatuses
    ensures p.subtotal == 0.0 && p.tax == 0.0 && p.total == 0.0
    ensures |p.items| == |data.items|
    ensures forall i :: 0 <= i < |p.items| ==> ToRow(p.items[i]) == data.items[i]
    ensures data.notes.Some? ==> p.notes == data.notes.value
    ensures p.notes == "" <==> data.notes.None? || data.notes.value == ""
  {
    InvoicePayload(
      data.client_id, data.project_id, data.invoice_number, data.issue_date, data.due_date,
      data.status, seq(|data.items|, i requires 0 <= i < |data.items| => ToItem(data.items[i])),
      OrEmpty(data.notes), 0.0, 0.0, 0.0)
  }

  /**
   * Nothing but the absent/empty distinction of `notes` is lost: two accepted
   * forms give the same payload exactly when they agree once notes are normalised.
   */
  lemma CreatePayloadInjective(a: InvoiceFormValues, b: InvoiceFormValues)
    requires InvoiceFormValid(a) && InvoiceFormValid(b)
    ensures CreatePayload(a) == CreatePayload(b) <==> NormalizeNotes(a) == NormalizeNotes(b)
  {
    var pa, pb := CreatePayload(a), CreatePayload(b);
    if pa == pb {
      assert a.items == b.items by {
        forall i | 0 <= i < |a.items| ensures a.items[i] == b.items[i] {
          assert ToRow(pa.items[i]) == a.items[i];
        }
      }
    }
  }

  /** The form a payload came from, with notes normalised. */
  function FormOfPayload(p: InvoicePayload): InvoiceFormValues
  {
    InvoiceFormValues(
      p.client_id, p.project_id, p.invoice_number, p.issue_date, p.due_date, p.status,
      seq(|p.items|, i requires 0 <= i < |p.items| => ToRow(p.items[i])),
      Some(p.notes))
  }

  /** Reading the payload back gives the submitted form, notes normalised. */
  lemma FormOfCreatePayload(data: InvoiceFormValues)
    requires InvoiceFormValid(data)
    ensures FormOfPayload(CreatePayload(data)) == NormalizeNotes(data)
  {
    var p := CreatePayload(data);
    assert FormOfPayload(p).items == data.items;
  }

  /** Every zero-total payload whose form the schema accepts is produced from that form. */
  lemma CreatePayloadOfForm(p: InvoicePayload)
    requires InvoiceFormValid(FormOfPayload(p))
    requires p.subtotal == 0.0 && p.tax == 0.0 && p.total == 0.0
    ensures CreatePayload(FormOfPayload(p)) == p
  {
    var q := CreatePayload(FormOfPayload(p));
    assert q.items == p.items by {
      forall i | 0 <= i < |p.items| ensures q.items[i] == p.items[i] {
        assert ToRow(q.items[i]) == ToRow(p.items[i]);
      }
    }
  }

  // ---------------------------------------------------------------- submit

  /** The dialog's own state around a submission. */
  class InvoiceDialogState {
    var open: bool
    var isSubmitting: bool
    var effects: seq<Effect>
    const fields: ItemFieldArray

    ghost predicate Valid()
      reads this, fields
    {
      fields.Valid()
    }

    constructor ()
      ensures Valid() && fresh(fields)
      ensures !open && !isSubmitting && effects == [] && fields.rows == DefaultFormValues.items
    {
      open := false;
      isSubmitting := false;
      effects := [];
      fields := new ItemFieldArray();
    }

    /**
     * `onSubmit`, run only on data the schema accepted. `created` is what the
     * invoice store returned, or None when it threw. On success the parent's
     * callback (if any) runs, `invoices-updated` is signalled, the form is reset
     * and the dialog closes; on failure only the store call happened.
     */
    method OnSubmit(data: InvoiceFormValues, created: Option<MockInvoice>, hasCallback: bool)
      returns (sent: InvoicePayload)
      requires Valid() && InvoiceFormValid(data)
      requires data.items == fields.rows
      modifies this, fields
      ensures Valid() && !isSubmitting
      ensures sent == CreatePayload(data)
      ensures created.Some? ==>
        && !open
        && fields.rows == DefaultFormValues.items
        && effects == old(effects) + [StoreCalled]
                      + (if hasCallback then [CallbackInvoked] else [])
                      + [Signal("invoices-updated"), FormReset]
      ensures created.None? ==>
        && open == old(open)
        && fields.rows == old(fields.rows)
        && effects == old(effects) + [StoreCalled]
    {
      isSubmitting := true;
      sent := CreatePayload(data);
      effects := effects + [StoreCalled];
      if created.Some? {
        if hasCallback {
          effects := effects + [CallbackInvoked];
        }
        effects := effects + [Signal("invoices-updated")];
        fields.Reset();
        effects := effects + [FormReset];
        open := false;
      }
      isSubmitting := false;
    }

    /** The Cancel button: reset the form and close. */
    method Cancel()
      requires Valid()
      modifies this, fields
      ensures Valid() && !open && fields.rows == DefaultFormValues.items
      ensures isSubmitting == old(isSubmitting) && effects == old(effects) + [FormReset]
    {
      fields.Reset();
      effects := effects + [FormReset];
      open := false;
    }
  }
}

/**
 * The invoice record (`InvoiceData`) and the two ways the service turns a
 * CSV row into one: the lenient defaults of `load_csv_data` for the file on
 * disk, and the strict constructor call used for CSV posted with a request.
 * A CSV row is what `csv.DictReader` yields: a dictionary from column name
 * to cell text. The CSV parser itself is not part of this model.
 */
module Invoices {
  import opened Wrappers

  /** One invoice; every field is kept as text, amounts included. */
  datatype InvoiceData = InvoiceData(
    invoiceId: string,
    customer: string,
    amount: string,
    paidAt: string,
    status: string)

  type Row = map<string, string>

  const INVOICE_ID := "invoice_id"
  const CUSTOMER := "customer"
  const AMOUNT := "amount"
  const PAID_AT := "paid_at"
  const STATUS := "status"

  /** Python's `row.get(column, '')`. */
  function Field(row: Row, column: string): (v: string)
    ensures column in row ==> v == row[column]
    ensures column !in row ==> v == ""
  {
    if column in row then row[column] else ""
  }

  /** The record `load_csv_data` builds from one row: a missing column reads as `''`. */
  function RowToInvoice(row: Row): InvoiceData
  {
    InvoiceData(Field(row, INVOICE_ID), Field(row, CUSTOMER), Field(row, AMOUNT),
                Field(row, PAID_AT), Field(row, STATUS))
  }

  /** The row that writes `inv` back under the five column names. */
  function InvoiceToRow(inv: InvoiceData): (row: Row)
    ensures row.Keys == {INVOICE_ID, CUSTOMER, AMOUNT, PAID_AT, STATUS}
  {
    map[INVOICE_ID := inv.invoiceId, CUSTOMER := inv.customer, AMOUNT := inv.amount,
        PAID_AT := inv.paidAt, STATUS := inv.status]
  }

  predicate HasAllColumns(row: Row)
  {
    INVOICE_ID in row && CUSTOMER in row && AMOUNT in row && PAID_AT in row && STATUS in row
  }

  /** Reading a record's own row gives the record back. */
  lemma RecordRowRoundTrip(inv: InvoiceData)
    ensures HasAllColumns(InvoiceToRow(inv))
    ensures RowToInvoice(InvoiceToRow(inv)) == inv
  {
  }

  /**
   * A row with all five columns is written back with the same text under
   * each of them; a row missing a column gets `''` in that field.
   */
  lemma RowRecordRoundTrip(row: Row)
    ensures HasAllColumns(row) ==> forall c :: c in InvoiceToRow(RowToInvoice(row)) ==>
              c in row && InvoiceToRow(RowToInvoice(row))[c] == row[c]
    ensures INVOICE_ID !in row ==> RowToInvoice(row).invoiceId == ""
    ensures CUSTOMER !in row ==> RowToInvoice(row).customer == ""
    ensures AMOUNT !in row ==> RowToInvoice(row).amount == ""
    ensures PAID_AT !in row ==> RowToInvoice(row).paidAt == ""
    ensures STATUS !in row ==> RowToInvoice(row).status == ""
  {
  }

  /** The records built from a sequence of rows, one per row and in order. */
  function Records(rows: seq<Row>): (invs: seq<InvoiceData>)
    ensures |invs| == |rows|
  {
    seq(|rows|, i requires 0 <= i < |rows| => RowToInvoice(rows[i]))
  }

  /**
   * `load_csv_data`: no file gives no invoices; otherwise one record per row,
   * appended in order.
   */
  method LoadCsvData(file: Option<seq<Row>>) returns (invoices: seq<InvoiceData>)
    ensures file.None? ==> invoices == []
    ensures file.Some? ==> |invoices| == |file.value|
    ensures file.Some? ==> forall i :: 0 <= i < |invoices| ==> invoices[i] == RowToInvoice(file.value[i])
  {
    invoices := [];
    if file.None? {
      return;
    }
    var rows := file.value;
    var i := 0;
    while i < |rows|
      invariant 0 <= i <= |rows|
      invariant |invoices| == i
      invariant forall k :: 0 <= k < i ==> invoices[k] == RowToInvoice(rows[k])
    {
      invoices := invoices + [RowToInvoice(rows[i])];
      i := i + 1;
    }
  }

  /** The five columns `InvoiceData` has fields for. */
  const COLUMNS: set<string> := {INVOICE_ID, CUSTOMER, AMOUNT, PAID_AT, STATUS}

  /**
   * `[InvoiceData(**row) for row in reader]`: the constructor is strict, so a
   * single row without one of the five columns makes the whole list fail;
   * otherwise each record takes its fields from its own row's five cells.
   */
  function StrictRecords(rows: seq<Row>): (r: Option<seq<InvoiceData>>)
    ensures r.Some? <==> forall i :: 0 <= i < |rows| ==> HasAllColumns(rows[i])
    ensures r.Some? ==> |r.value| == |rows| && forall i :: 0 <= i < |rows| ==>
              r.value[i] == InvoiceData(rows[i][INVOICE_ID], rows[i][CUSTOMER], rows[i][AMOUNT],
                                        rows[i][PAID_AT], rows[i][STATUS])
  {
    if forall i :: 0 <= i < |rows| ==> HasAllColumns(rows[i]) then Some(Records(rows)) else None
  }

  /** A row cut down to the five columns. */
  function FiveColumns(row: Row): (cut: Row)
    ensures cut.Keys == row.Keys * COLUMNS
  {
    map c | c in row.Keys * COLUMNS :: row[c]
  }

  /** Columns beyond the five change nothing: cutting every row down to the five gives the same outcome. */
  lemma StrictRecordsIgnoresExtra(rows: seq<Row>)
    ensures StrictRecords(seq(|rows|, i requires 0 <= i < |rows| => FiveColumns(rows[i]))) == StrictRecords(rows)
  {
    var cut := seq(|rows|, i requires 0 <= i < |rows| => FiveColumns(rows[i]));
    forall i | 0 <= i < |rows|
      ensures HasAllColumns(cut[i]) <==> HasAllColumns(rows[i])
      ensures HasAllColumns(rows[i]) ==> RowToInvoice(cut[i]) == RowToInvoice(rows[i])
    {
      assert cut[i] == FiveColumns(rows[i]);
    }
    if forall i :: 0 <= i < |rows| ==> HasAllColumns(rows[i]) {
      assert Records(cut) == Records(rows);
    }
  }

  /** When the strict list exists it is the lenient one: with every column present the `''` defaults never apply. */
  lemma StrictRecordsAgree(rows: seq<Row>)
    ensures StrictRecords(rows).Some? ==> StrictRecords(rows).value == Records(rows)
  {
  }
}

/**
 * The free local analysis (`analyze_with_transformers`) without its float
 * arithmetic and text formatting: which report it produces, with which
 * counts, and when it raises instead. The report carries the figures the
 * source's template is filled from; the amount strings stand for the
 * float sums, averages and rates computed from them.
 */
module LocalAnalysis {
  import opened Wrappers
  import opened Text
  import opened Invoices
  import opened Statistics
  import opened Routing

  /** Whether the sentence-transformers library is importable and the model loads. */
  datatype ModelState = LibraryMissing | LoadFailed | Ready

  /** Why the analysis raises. */
  datatype Failure =
    | TransformersUnavailable   // `TRANSFORMERS_AVAILABLE` is false
    | ModelLoadFailed           // the model could not be loaded
    | FloatConversion           // `float(amount)` on an amount that passed the filter
    | DivisionByZero            // an average or rate over zero invoices or zero customers

  datatype Report = Report(
    kind: ReportKind,
    totalInvoices: nat,
    paidCount: nat,
    partialCount: nat,
    customers: set<string>,
    summedAmounts: seq<string>,
    customerAmounts: Option<map<string, seq<string>>>)   // present only in the customer report

  /** The reports that divide by the invoice count (or by the customer count, which is zero with it). */
  predicate Divides(kind: ReportKind)
  {
    kind != CustomerAnalysis
  }

  /** The model's availability checks, in the order the source makes them. */
  function ModelCheck(model: ModelState): Option<Failure>
  {
    match model
    case LibraryMissing => Some(TransformersUnavailable)
    case LoadFailed => Some(ModelLoadFailed)
    case Ready => None
  }

  function BuildReport(f: AmountFilter, query: string, invs: seq<InvoiceData>): Report
  {
    var kind := Route(query);
    Report(kind, |invs|, PaidCount(invs), PartialCount(invs), Customers(invs), NumericAmounts(f, invs),
           if kind == CustomerAnalysis then Some(map c | c in Customers(invs) :: AmountsOf(f, invs, c)) else None)
  }

  /** Some amount passes the source's numeric test and yet `float` rejects it. */
  predicate HasUnparsableAmount(invs: seq<InvoiceData>)
  {
    exists i :: 0 <= i < |invs| && IsNumericAmount(invs[i].amount) && !IsDecimalAmount(invs[i].amount)
  }

  /** The analysis as the source writes it: `total_amount` is computed before any branch. */
  function AnalysisAsWritten(query: string, invs: seq<InvoiceData>, model: ModelState): Result<Report, Failure>
  {
    if ModelCheck(model).Some? then Err(ModelCheck(model).value)
    else if HasUnparsableAmount(invs) then Err(FloatConversion)
    else if Divides(Route(query)) && |invs| == 0 then Err(DivisionByZero)
    else Ok(BuildReport(AsWritten, query, invs))
  }

  /** The analysis with the corrected amount filter: amounts `float` cannot read are left out of the sums. */
  function Analysis(query: string, invs: seq<InvoiceData>, model: ModelState): Result<Report, Failure>
  {
    if ModelCheck(model).Some? then Err(ModelCheck(model).value)
    else if Divides(Route(query)) && |invs| == 0 then Err(DivisionByZero)
    else Ok(BuildReport(Corrected, query, invs))
  }

  /**
   * The as-written analysis fails on an amount such as "1.2.3": it passes
   * the numeric test, and `float` raises on it.
   */
  lemma AsWrittenRejectsDottedAmount()
    ensures IsNumericAmount("1.2.3") && !IsDecimalAmount("1.2.3")
    ensures AnalysisAsWritten("overview", [InvoiceData("Invoice1", "Acme", "1.2.3", "", "Paid")], Ready)
            == Err(FloatConversion)
  {
  }

  /** Whenever no amount trips `float`, the as-written analysis and the corrected one agree. */
  lemma AsWrittenAgreesOtherwise(query: string, invs: seq<InvoiceData>, model: ModelState)
    requires !HasUnparsableAmount(invs)
    ensures AnalysisAsWritten(query, invs, model) == Analysis(query, invs, model)
  {
    forall c | true ensures AmountsOf(AsWritten, invs, c) == AmountsOf(Corrected, invs, c) {
      FiltersAgree(invs, c);
    }
    FiltersAgree(invs, "");
    var cs := Customers(invs);
    assert (map c | c in cs :: AmountsOf(AsWritten, invs, c)) == (map c | c in cs :: AmountsOf(Corrected, invs, c));
  }

  /**
   * The corrected analysis fails only for the model's availability or a
   * division over no invoices, never because of an amount; on success its
   * report follows the routing and its counts are consistent.
   */
  lemma AnalysisOutcome(query: string, invs: seq<InvoiceData>, model: ModelState)
    ensures Analysis(query, invs, model).Err? <==>
              model != Ready || (Route(query) != CustomerAnalysis && |invs| == 0)
    ensures model != Ready ==> Analysis(query, invs, model) == Err(ModelCheck(model).value)
    ensures Analysis(query, invs, model).Ok? ==>
              var r := Analysis(query, invs, model).value;
              && r.kind == Route(query)
              && r.totalInvoices == |invs|
              && r.paidCount + r.partialCount <= r.totalInvoices
              && |r.customers| <= r.totalInvoices
              && (r.kind != CustomerAnalysis ==> |r.customers| > 0)
              && |r.summedAmounts| <= r.totalInvoices
              && (forall k :: 0 <= k < |r.summedAmounts| ==> IsDecimalAmount(r.summedAmounts[k]))
              && (r.customerAmounts.Some? <==> r.kind == CustomerAnalysis)
              && (r.customerAmounts.Some? ==> r.customerAmounts.value.Keys == r.customers)
  {
    PaidCountsDisjoint(invs);
    CustomersBound(invs);
    NumericAmountsFiltered(Corrected, invs);
  }

  /** `analyze_with_transformers`, building `top_customers` with its loop in the customer report. */
  method AnalyzeWithTransformers(query: string, invs: seq<InvoiceData>, model: ModelState)
    returns (r: Result<Report, Failure>)
    ensures r == Analysis(query, invs, model)
  {
    var check := ModelCheck(model);
    if check.Some? {
      return Err(check.value);
    }
    var kind := Route(query);
    if Divides(kind) && |invs| == 0 {
      return Err(DivisionByZero);
    }
    var top: Option<map<string, seq<string>>> := None;
    if kind == CustomerAnalysis {
      var m := BuildCustomerAmounts(Corrected, invs);
      assert m == map c | c in Customers(invs) :: AmountsOf(Corrected, invs, c);
      top := Some(m);
    }
    r := Ok(Report(kind, |invs|, PaidCount(invs), PartialCount(invs), Customers(invs),
                   NumericAmounts(Corrected, invs), top));
  }
}

/**
 * The statistics the free analysis computes over the invoice list: the
 * paid and partially-paid counts, the amount filter, the set of distinct
 * customers and the per-customer amounts behind `top_customers`.
 * Float sums are not modelled: where the source adds `float(amount)`, the
 * model keeps the amount strings that would be added, in order.
 */
module Statistics {
  import opened Text
  import opened Invoices

  const PAID := "paid"
  const PARTIALLY_PAID := "partially paid"

  /** How many invoices have `status.lower() == wanted`. */
  function CountStatus(invs: seq<InvoiceData>, wanted: string): nat
    decreases |invs|
  {
    if |invs| == 0 then 0
    else CountStatus(invs[..|invs| - 1], wanted) + (if Lower(invs[|invs| - 1].status) == wanted then 1 else 0)
  }

  function PaidCount(invs: seq<InvoiceData>): nat { CountStatus(invs, PAID) }

  function PartialCount(invs: seq<InvoiceData>): nat { CountStatus(invs, PARTIALLY_PAID) }

  /** How many invoices have a status whose lower-case form is one of `labels`. */
  function CountStatusIn(invs: seq<InvoiceData>, labels: set<string>): nat
    decreases |invs|
  {
    if |invs| == 0 then 0
    else CountStatusIn(invs[..|invs| - 1], labels) + (if Lower(invs[|invs| - 1].status) in labels then 1 else 0)
  }

  lemma {:induction false} CountStatusBound(invs: seq<InvoiceData>, labels: set<string>)
    ensures CountStatusIn(invs, labels) <= |invs|
    decreases |invs|
  {
    if |invs| > 0 {
      CountStatusBound(invs[..|invs| - 1], labels);
    }
  }

  /**
   * No invoice is counted both as paid and as partially paid, so the two
   * counts add up to the number of invoices with a paid-family status,
   * which is at most the number of invoices.
   */
  lemma {:induction false} PaidCountsDisjoint(invs: seq<InvoiceData>)
    ensures PaidCount(invs) + PartialCount(invs) == CountStatusIn(invs, {PAID, PARTIALLY_PAID})
    ensures PaidCount(invs) + PartialCount(invs) <= |invs|
    decreases |invs|
  {
    if |invs| > 0 {
      PaidCountsDisjoint(invs[..|invs| - 1]);
    }
    CountStatusBound(invs, {PAID, PARTIALLY_PAID});
  }

  /** The comparison ignores case: changing an invoice's status to its lower-case form changes no count. */
  lemma {:induction false} CountStatusIgnoresCase(invs: seq<InvoiceData>, wanted: string)
    ensures CountStatus(invs, wanted) == CountStatus(Lowered(invs), wanted)
    decreases |invs|
  {
    if |invs| > 0 {
      var n := |invs| - 1;
      assert Lowered(invs)[..n] == Lowered(invs[..n]);
      CountStatusIgnoresCase(invs[..n], wanted);
      LowerIdempotent(invs[n].status);
    }
  }

  /** `invs` with every status lowered. */
  function Lowered(invs: seq<InvoiceData>): (r: seq<InvoiceData>)
    ensures |r| == |invs|
  {
    seq(|invs|, i requires 0 <= i < |invs| => invs[i].(status := Lower(invs[i].status)))
  }

  /** `s.replace('.', '')`. */
  function RemoveDots(s: string): (r: string)
    decreases |s|
  {
    if |s| == 0 then "" else (if s[0] == '.' then "" else [s[0]]) + RemoveDots(s[1..])
  }

  /**
   * `amount.replace('.', '').isdigit()`: Python's `isdigit` is false on the
   * empty string. Digits are the ASCII digits.
   */
  predicate IsNumericAmount(s: string)
  {
    |RemoveDots(s)| > 0 && AllDigits(RemoveDots(s))
  }

  predicate DigitsAndDots(s: string)
  {
    forall i :: 0 <= i < |s| ==> s[i] == '.' || IsDigit(s[i])
  }

  lemma {:induction false} RemoveDotsChars(s: string)
    ensures AllDigits(RemoveDots(s)) <==> DigitsAndDots(s)
    ensures |RemoveDots(s)| > 0 <==> exists i :: 0 <= i < |s| && s[i] != '.'
    decreases |s|
  {
    if |s| > 0 {
      var t := s[1..];
      RemoveDotsChars(t);
      var r := RemoveDots(t);
      assert forall i :: 0 < i < |s| ==> s[i] == t[i - 1];
      assert DigitsAndDots(s) <==> (s[0] == '.' || IsDigit(s[0])) && DigitsAndDots(t);
      if s[0] != '.' {
        var q := [s[0]] + r;
        assert RemoveDots(s) == q;
        assert q[0] == s[0];
        assert forall i :: 0 <= i < |r| ==> r[i] == q[i + 1];
        assert AllDigits(q) <==> IsDigit(s[0]) && AllDigits(r);
      } else {
        assert RemoveDots(s) == r;
        if exists i :: 0 <= i < |t| && t[i] != '.' {
          var i :| 0 <= i < |t| && t[i] != '.';
          assert s[i + 1] != '.';
        }
      }
    }
  }

  /**
   * The filter is exact: an amount passes iff it consists of ASCII digits and
   * dots only and holds at least one digit.
   */
  lemma NumericAmountExact(s: string)
    ensures IsNumericAmount(s) <==> DigitsAndDots(s) && exists i :: 0 <= i < |s| && IsDigit(s[i])
  {
    RemoveDotsChars(s);
    if DigitsAndDots(s) && exists i :: 0 <= i < |s| && s[i] != '.' {
      var i :| 0 <= i < |s| && s[i] != '.';
      assert IsDigit(s[i]);
    }
  }

  /** Amounts the filter keeps, including one with two dots. */
  lemma NumericAmountExamples()
    ensures IsNumericAmount("1200") && IsNumericAmount("1.2.3") && IsNumericAmount("10.50")
  {
    var s := "1.2.3";
    assert DigitsAndDots(s) by {
      assert s[0] == '1' && s[1] == '.' && s[2] == '2' && s[3] == '.' && s[4] == '3';
    }
    NumericAmountExact(s);
    assert IsDigit(s[0]);
    var t := "10.50";
    assert DigitsAndDots(t) by {
      assert t[0] == '1' && t[1] == '0' && t[2] == '.' && t[3] == '5' && t[4] == '0';
    }
    NumericAmountExact(t);
    assert IsDigit(t[0]);
    var u := "1200";
    assert DigitsAndDots(u) by {
      assert u[0] == '1' && u[1] == '2' && u[2] == '0' && u[3] == '0';
    }
    NumericAmountExact(u);
    assert IsDigit(u[0]);
  }

  /** Amounts the filter drops: empty, dots only, a sign, a currency symbol. */
  lemma NonNumericAmountExamples()
    ensures !IsNumericAmount("") && !IsNumericAmount(".") && !IsNumericAmount("-5") && !IsNumericAmount("$10")
  {
    NumericAmountExact("-5");
    assert !DigitsAndDots("-5") by { assert "-5"[0] == '-'; }
    NumericAmountExact("$10");
    assert !DigitsAndDots("$10") by { assert "$10"[0] == '$'; }
    NumericAmountExact(".");
  }

  /** The distinct customers, `set(inv.customer for inv in invoices)`. */
  function Customers(invs: seq<InvoiceData>): set<string>
    decreases |invs|
  {
    if |invs| == 0 then {} else Customers(invs[..|invs| - 1]) + {invs[|invs| - 1].customer}
  }

  /** A name is a customer iff some invoice carries it. */
  lemma {:induction false} CustomersMembers(invs: seq<InvoiceData>, c: string)
    ensures c in Customers(invs) <==> exists i :: 0 <= i < |invs| && invs[i].customer == c
    decreases |invs|
  {
    if |invs| > 0 {
      var n := |invs| - 1;
      CustomersMembers(invs[..n], c);
      if exists i :: 0 <= i < |invs| && invs[i].customer == c {
        var i :| 0 <= i < |invs| && invs[i].customer == c;
        if i < n { assert invs[..n][i] == invs[i]; }
      }
    }
  }

  /** There are no more distinct customers than invoices, and none only when there are no invoices. */
  lemma {:induction false} CustomersBound(invs: seq<InvoiceData>)
    ensures |Customers(invs)| <= |invs|
    ensures |Customers(invs)| == 0 <==> |invs| == 0
    decreases |invs|
  {
    if |invs| > 0 {
      CustomersBound(invs[..|invs| - 1]);
      assert invs[|invs| - 1].customer in Customers(invs);
    }
  }

  /**
   * Which amounts take part in the sums. `AsWritten` is the test the
   * source applies; `Corrected` also demands what `float` needs.
   */
  datatype AmountFilter = AsWritten | Corrected

  /** How many `.` the string holds. */
  function DotCount(s: string): nat { Occurrences(s, '.') }

  /**
   * When Python's `float(s)` succeeds, for a string of ASCII digits and dots
   * (the only strings the amount filter lets through): at least one digit
   * and at most one dot. This is taken as given about `float`, not derived
   * from it, so `DecimalAmountExact` below is exact only relative to it.
   */
  predicate FloatAccepts(s: string)
    requires DigitsAndDots(s)
  {
    (exists i :: 0 <= i < |s| && IsDigit(s[i])) && DotCount(s) <= 1
  }

  /** The corrected filter: numeric as the source tests it, and at most one dot. */
  predicate IsDecimalAmount(s: string)
  {
    IsNumericAmount(s) && DotCount(s) <= 1
  }

  /** The corrected filter passes exactly the amounts that pass the source's test and that `float` accepts. */
  lemma DecimalAmountExact(s: string)
    ensures IsDecimalAmount(s) <==> IsNumericAmount(s) && DigitsAndDots(s) && FloatAccepts(s)
  {
    NumericAmountExact(s);
  }

  predicate Accepts(f: AmountFilter, s: string)
  {
    match f
    case AsWritten => IsNumericAmount(s)
    case Corrected => IsDecimalAmount(s)
  }

  /** The amounts the filter keeps, in invoice order: the terms of `total_amount`. */
  function NumericAmounts(f: AmountFilter, invs: seq<InvoiceData>): seq<string>
    decreases |invs|
  {
    if |invs| == 0 then []
    else NumericAmounts(f, invs[..|invs| - 1])
         + (if Accepts(f, invs[|invs| - 1].amount) then [invs[|invs| - 1].amount] else [])
  }

  /** The amounts the filter keeps for customer `c`, in invoice order: the terms of `top_customers[c]`. */
  function AmountsOf(f: AmountFilter, invs: seq<InvoiceData>, c: string): seq<string>
    decreases |invs|
  {
    if |invs| == 0 then []
    else AmountsOf(f, invs[..|invs| - 1], c)
         + (if invs[|invs| - 1].customer == c && Accepts(f, invs[|invs| - 1].amount)
            then [invs[|invs| - 1].amount] else [])
  }

  /** A name that is not a customer has no amounts. */
  lemma {:induction false} AmountsOfStranger(f: AmountFilter, invs: seq<InvoiceData>, c: string)
    requires c !in Customers(invs)
    ensures AmountsOf(f, invs, c) == []
    decreases |invs|
  {
    if |invs| > 0 {
      AmountsOfStranger(f, invs[..|invs| - 1], c);
    }
  }

  /** Every kept amount passes the filter, and there are no more of them than invoices. */
  lemma {:induction false} NumericAmountsFiltered(f: AmountFilter, invs: seq<InvoiceData>)
    ensures |NumericAmounts(f, invs)| <= |invs|
    ensures forall k :: 0 <= k < |NumericAmounts(f, invs)| ==> Accepts(f, NumericAmounts(f, invs)[k])
    decreases |invs|
  {
    if |invs| > 0 {
      NumericAmountsFiltered(f, invs[..|invs| - 1]);
    }
  }

  /** When every amount that passes the source's test is one `float` accepts, both filters keep the same amounts. */
  lemma {:induction false} FiltersAgree(invs: seq<InvoiceData>, c: string)
    requires forall i :: 0 <= i < |invs| && IsNumericAmount(invs[i].amount) ==> IsDecimalAmount(invs[i].amount)
    ensures NumericAmounts(AsWritten, invs) == NumericAmounts(Corrected, invs)
    ensures AmountsOf(AsWritten, invs, c) == AmountsOf(Corrected, invs, c)
    decreases |invs|
  {
    if |invs| > 0 {
      var n := |invs| - 1;
      assert forall i :: 0 <= i < n ==> invs[..n][i] == invs[i];
      FiltersAgree(invs[..n], c);
    }
  }

  /** Extending the prefix by one invoice adds its customer. */
  lemma CustomersPrefix(invs: seq<InvoiceData>, i: nat)
    requires i < |invs|
    ensures Customers(invs[..i + 1]) == Customers(invs[..i]) + {invs[i].customer}
  {
    assert invs[..i + 1][..i] == invs[..i];
  }

  /** Extending the prefix by one invoice appends its amount to its customer's amounts, if the filter keeps it. */
  lemma AmountsOfPrefix(f: AmountFilter, invs: seq<InvoiceData>, i: nat, c: string)
    requires i < |invs|
    ensures AmountsOf(f, invs[..i + 1], c)
            == AmountsOf(f, invs[..i], c) + (if invs[i].customer == c && Accepts(f, invs[i].amount) then [invs[i].amount] else [])
  {
    assert invs[..i + 1][..i] == invs[..i];
  }

  /** `top` maps exactly the customers of `seen`, each to its filtered amounts. */
  ghost predicate AmountsMatch(f: AmountFilter, seen: seq<InvoiceData>, top: map<string, seq<string>>)
  {
    top.Keys == Customers(seen) && forall c :: c in top ==> top[c] == AmountsOf(f, seen, c)
  }

  /** One turn of the `top_customers` loop keeps the map equal to the per-customer amounts of the invoices seen so far. */
  lemma CustomerAmountsStep(f: AmountFilter, invs: seq<InvoiceData>, i: nat,
                            top: map<string, seq<string>>, amounts: seq<string>, next: map<string, seq<string>>)
    requires i < |invs|
    requires AmountsMatch(f, invs[..i], top)
    requires amounts == (if invs[i].customer in top then top[invs[i].customer] else [])
                        + (if Accepts(f, invs[i].amount) then [invs[i].amount] else [])
    requires next == top[invs[i].customer := amounts]
    ensures AmountsMatch(f, invs[..i + 1], next)
  {
    var prev := invs[..i];
    var inv := invs[i];
    CustomersPrefix(invs, i);
    forall c | c in next
      ensures next[c] == AmountsOf(f, invs[..i + 1], c)
    {
      AmountsOfPrefix(f, invs, i, c);
      if c == inv.customer {
        if c !in top {
          AmountsOfStranger(f, prev, c);
        }
      } else {
        assert next[c] == top[c];
      }
    }
  }

  /**
   * The `top_customers` loop: every customer gets an entry when first seen,
   * even if none of its amounts passes the filter, and each kept amount is
   * added to its customer's entry.
   */
  method BuildCustomerAmounts(f: AmountFilter, invs: seq<InvoiceData>) returns (top: map<string, seq<string>>)
    ensures top.Keys == Customers(invs)
    ensures forall c :: c in top ==> top[c] == AmountsOf(f, invs, c)
  {
    top := map[];
    var i := 0;
    while i < |invs|
      invariant 0 <= i <= |invs|
      invariant AmountsMatch(f, invs[..i], top)
    {
      var inv := invs[i];
      var amounts := if inv.customer in top then top[inv.customer] else [];
      if Accepts(f, inv.amount) {
        amounts := amounts + [inv.amount];
      }
      ghost var before := top;
      top := top[inv.customer := amounts];
      CustomerAmountsStep(f, invs, i, before, amounts, top);
      i := i + 1;
    }
    assert invs[..|invs|] == invs;
  }

  /** The map has one key per distinct customer, so no more keys than invoices. */
  lemma CustomerAmountsSize(f: AmountFilter, invs: seq<InvoiceData>, top: map<string, seq<string>>)
    requires top.Keys == Customers(invs)
    ensures |top| == |Customers(invs)| <= |invs|
  {
    CustomersBound(invs);
    assert |top| == |top.Keys|;
  }
}

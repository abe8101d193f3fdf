/**
 * The invoice summary the paid endpoint sends the language model, and the
 * prompt around it. The summary is a header with the invoice count, one
 * numbered entry for each of the first ten invoices, and a closing
 * "... and N more invoices" entry when there are more than ten. Entries
 * are kept apart in `SummaryEntries`; the text is their concatenation
 * (a field holding a newline would make the text's lines differ from the
 * entries, so the properties are stated on entries).
 */
module Summary {
  import opened Wrappers
  import opened Text
  import opened Invoices

  /** How many invoices the summary lists at most. */
  const LISTED_LIMIT: nat := 10

  const HEADER_PREFIX := "Invoice Data Summary:\nTotal Invoices: "
  const MORE_PREFIX := "... and "

  function Header(n: nat): string
  {
    HEADER_PREFIX + DecimalDigits(n) + "\n\n"
  }

  function InvoiceEntry(number: nat, inv: InvoiceData): string
  {
    DecimalDigits(number) + EntryTail(inv)
  }

  /** What follows the number in an invoice's entry. */
  function EntryTail(inv: InvoiceData): (t: string)
    ensures |t| >= 2 && t[..2] == ". "
  {
    ". Invoice " + inv.invoiceId + ": " + inv.customer + ", $" + inv.amount
    + ", " + inv.status + ", Paid: " + inv.paidAt + "\n"
  }

  function MoreEntry(n: nat): string
    requires n > LISTED_LIMIT
  {
    MORE_PREFIX + DecimalDigits(n - LISTED_LIMIT) + " more invoices\n"
  }

  function Min(a: nat, b: nat): nat { if a <= b then a else b }

  /** How many invoices get an entry of their own. */
  function Listed(invs: seq<InvoiceData>): nat { Min(|invs|, LISTED_LIMIT) }

  /** The entries of the first `count` invoices, numbered from 1. */
  function InvoiceEntries(invs: seq<InvoiceData>, count: nat): (es: seq<string>)
    requires count <= |invs|
    ensures |es| == count
  {
    seq(count, k requires 0 <= k < count => InvoiceEntry(k + 1, invs[k]))
  }

  function SummaryEntries(invs: seq<InvoiceData>): seq<string>
  {
    [Header(|invs|)] + InvoiceEntries(invs, Listed(invs))
    + (if |invs| > LISTED_LIMIT then [MoreEntry(|invs|)] else [])
  }

  /** The concatenation of all entries, in order. */
  function Concat(parts: seq<string>): string
    decreases |parts|
  {
    if |parts| == 0 then "" else Concat(parts[..|parts| - 1]) + parts[|parts| - 1]
  }

  lemma ConcatSnoc(parts: seq<string>, last: string)
    ensures Concat(parts + [last]) == Concat(parts) + last
  {
  }

  function SummaryText(invs: seq<InvoiceData>): string
  {
    Concat(SummaryEntries(invs))
  }

  /** `invoice_summary`, built by appending to a string in a loop. */
  method BuildSummary(invs: seq<InvoiceData>) returns (summary: string)
    ensures summary == SummaryText(invs)
  {
    var n := |invs|;
    summary := HEADER_PREFIX;
    summary := summary + DecimalDigits(n) + "\n\n";
    ghost var entries := [Header(n)];
    assert summary == Concat(entries) by { ConcatSnoc([], Header(n)); }
    var bound := Listed(invs);
    var i := 0;
    while i < bound
      invariant 0 <= i <= bound
      invariant entries == [Header(n)] + InvoiceEntries(invs, i)
      invariant summary == Concat(entries)
    {
      var entry := InvoiceEntry(i + 1, invs[i]);
      ConcatSnoc(entries, entry);
      summary := summary + entry;
      entries := entries + [entry];
      assert InvoiceEntries(invs, i) + [entry] == InvoiceEntries(invs, i + 1);
      i := i + 1;
    }
    if n > LISTED_LIMIT {
      var more := MoreEntry(n);
      ConcatSnoc(entries, more);
      summary := summary + more;
      entries := entries + [more];
    }
    assert entries == SummaryEntries(invs);
  }

  /** The number an entry starts with, if it starts with digits followed by ". ". */
  function EntryNumber(e: string): Option<nat>
  {
    var d := LeadingDigits(e);
    if |d| > 0 && |d| + 2 <= |e| && e[|d|..|d| + 2] == ". " then Some(ParseDecimal(d)) else None
  }

  /** The number stated right after `prefix`, if `e` starts with it. */
  function NumberAfter(prefix: string, e: string): Option<nat>
  {
    if |prefix| <= |e| && e[..|prefix|] == prefix && |LeadingDigits(e[|prefix|..])| > 0
    then Some(ParseDecimal(LeadingDigits(e[|prefix|..])))
    else None
  }

  predicate IsMoreEntry(e: string)
  {
    |MORE_PREFIX| <= |e| && e[..|MORE_PREFIX|] == MORE_PREFIX
  }

  /** Reading the number back from a rendered number followed by text that does not start with a digit. */
  lemma ReadBack(n: nat, rest: string)
    requires |rest| > 0 ==> !IsDigit(rest[0])
    ensures LeadingDigits(DecimalDigits(n) + rest) == DecimalDigits(n)
    ensures ParseDecimal(LeadingDigits(DecimalDigits(n) + rest)) == n
  {
    LeadingDigitsOf(DecimalDigits(n), rest);
    ParseDecimalDigits(n);
  }

  /** How the entries are laid out. */
  lemma SummaryLayout(invs: seq<InvoiceData>)
    ensures |SummaryEntries(invs)| == 1 + Listed(invs) + (if |invs| > LISTED_LIMIT then 1 else 0)
    ensures SummaryEntries(invs)[0] == Header(|invs|)
    ensures forall k :: 1 <= k <= Listed(invs) ==> SummaryEntries(invs)[k] == InvoiceEntry(k, invs[k - 1])
    ensures |invs| > LISTED_LIMIT ==> SummaryEntries(invs)[Listed(invs) + 1] == MoreEntry(|invs|)
  {
  }

  lemma InvoiceEntryNumber(number: nat, inv: InvoiceData)
    ensures EntryNumber(InvoiceEntry(number, inv)) == Some(number)
  {
    var d := DecimalDigits(number);
    var t := EntryTail(inv);
    ReadBack(number, t);
    assert (d + t)[|d|..|d| + 2] == t[..2];
  }

  lemma HeaderEntryNumber(n: nat)
    ensures EntryNumber(Header(n)) == None
  {
  }

  lemma MoreEntryNumber(n: nat)
    requires n > LISTED_LIMIT
    ensures EntryNumber(MoreEntry(n)) == None
  {
  }

  /**
   * The invoice entries are numbered 1 to `min(n, 10)` in order, and
   * neither the header nor the "more" entry starts with a number (the
   * layout itself is `SummaryLayout`).
   */
  lemma SummaryNumbering(invs: seq<InvoiceData>, k: nat)
    requires k < |SummaryEntries(invs)|
    ensures EntryNumber(SummaryEntries(invs)[k]) == if 1 <= k <= Listed(invs) then Some(k) else None
  {
    SummaryLayout(invs);
    if k == 0 {
      HeaderEntryNumber(|invs|);
    } else if k <= Listed(invs) {
      InvoiceEntryNumber(k, invs[k - 1]);
    } else {
      MoreEntryNumber(|invs|);
    }
  }

  /** The "... and N more" entry is present iff there are more than ten invoices, and it states `n - 10`. */
  lemma MoreEntryIffOverLimit(invs: seq<InvoiceData>)
    ensures (exists k :: 0 <= k < |SummaryEntries(invs)| && IsMoreEntry(SummaryEntries(invs)[k]))
            <==> |invs| > LISTED_LIMIT
    ensures |invs| > LISTED_LIMIT ==>
              NumberAfter(MORE_PREFIX, SummaryEntries(invs)[|SummaryEntries(invs)| - 1]) == Some(|invs| - LISTED_LIMIT)
  {
    var es := SummaryEntries(invs);
    SummaryLayout(invs);
    if |invs| > LISTED_LIMIT {
      var last := es[|es| - 1];
      assert last == MoreEntry(|invs|);
      assert IsMoreEntry(last);
      var rest := " more invoices\n";
      assert last[|MORE_PREFIX|..] == DecimalDigits(|invs| - LISTED_LIMIT) + rest;
      ReadBack(|invs| - LISTED_LIMIT, rest);
    } else {
      forall k | 0 <= k < |es| ensures !IsMoreEntry(es[k]) {
        ListedEntryNotMore(invs, k);
      }
    }
  }

  /** The header and the invoice entries do not start like the "more" entry. */
  lemma ListedEntryNotMore(invs: seq<InvoiceData>, k: nat)
    requires k <= Listed(invs)
    ensures !IsMoreEntry(SummaryEntries(invs)[k])
  {
    SummaryLayout(invs);
    var e := SummaryEntries(invs)[k];
    if k == 0 {
      assert e[0] == 'I';
    } else {
      assert e == InvoiceEntry(k, invs[k - 1]);
      assert IsDigit(e[0]);
    }
  }

  /** The header states the invoice count. */
  lemma HeaderStatesCount(invs: seq<InvoiceData>)
    ensures NumberAfter(HEADER_PREFIX, SummaryEntries(invs)[0]) == Some(|invs|)
  {
    var h := SummaryEntries(invs)[0];
    assert h[|HEADER_PREFIX|..] == DecimalDigits(|invs|) + "\n\n";
    ReadBack(|invs|, "\n\n");
  }

  /** The prompt sent to the language model: the summary, then the user's query, then fixed instructions. */
  function Prompt(summary: string, query: string): string
  {
    PROMPT_OPENING + summary + PROMPT_QUERY_LABEL + query + PROMPT_INSTRUCTIONS
  }

  /** The prompt holds the summary and then the query, each verbatim. */
  lemma PromptCarries(summary: string, query: string)
    ensures var p := Prompt(summary, query);
            var start := |PROMPT_OPENING| + |summary| + |PROMPT_QUERY_LABEL|;
            && p[|PROMPT_OPENING|..|PROMPT_OPENING| + |summary|] == summary
            && p[start..start + |query|] == query
            && p[start + |query|..] == PROMPT_INSTRUCTIONS
  {
  }

  const PROMPT_OPENING := "\n    "
  const PROMPT_QUERY_LABEL := "\n    \n    User Query: "
  const PROMPT_INSTRUCTIONS :=
    "\n    \n    Please analyze the invoice data and provide a concise response to the user's query. "
    + "\n    Focus on key insights, patterns, and specific numbers where relevant.\n    "
}

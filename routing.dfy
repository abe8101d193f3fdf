/**
 * How the free analysis picks its report: the lowered query is tested
 * against four keyword groups in a fixed order, each keyword as a
 * substring; the first group with a hit decides, and no hit gives the
 * general overview.
 */
module Routing {
  import opened Text

  datatype ReportKind = RevenueAnalysis | CustomerAnalysis | PaymentStatusAnalysis | InvoiceCountAnalysis | InvoiceOverview

  const REVENUE_WORDS: seq<string> := ["total", "revenue", "amount", "sum"]
  const CUSTOMER_WORDS: seq<string> := ["customer", "client", "who"]
  const STATUS_WORDS: seq<string> := ["status", "paid", "payment"]
  const COUNT_WORDS: seq<string> := ["count", "how many", "number"]

  /** `any(word in text for word in words)`. */
  predicate MentionsAny(text: string, words: seq<string>)
  {
    exists k :: 0 <= k < |words| && Contains(text, words[k])
  }

  /** The `if`/`elif` chain of the free analysis. */
  function Route(query: string): ReportKind
  {
    var q := Lower(query);
    if MentionsAny(q, REVENUE_WORDS) then RevenueAnalysis
    else if MentionsAny(q, CUSTOMER_WORDS) then CustomerAnalysis
    else if MentionsAny(q, STATUS_WORDS) then PaymentStatusAnalysis
    else if MentionsAny(q, COUNT_WORDS) then InvoiceCountAnalysis
    else InvoiceOverview
  }

  /** A keyword group and the report it selects. */
  datatype Rule = Rule(kind: ReportKind, words: seq<string>)

  /** The groups in the order they are tried. */
  const PRIORITY: seq<Rule> := [
    Rule(RevenueAnalysis, REVENUE_WORDS),
    Rule(CustomerAnalysis, CUSTOMER_WORDS),
    Rule(PaymentStatusAnalysis, STATUS_WORDS),
    Rule(InvoiceCountAnalysis, COUNT_WORDS)]

  /** A generic first-match rule table, the reference definition for `Route`. */
  function FirstMatch(rules: seq<Rule>, text: string): ReportKind
    decreases |rules|
  {
    if |rules| == 0 then InvoiceOverview
    else if MentionsAny(text, rules[0].words) then rules[0].kind
    else FirstMatch(rules[1..], text)
  }

  /** The rule table picks the first rule that matches. */
  lemma {:induction false} FirstMatchPicksFirst(rules: seq<Rule>, text: string, j: nat)
    requires j < |rules| && MentionsAny(text, rules[j].words)
    requires forall i :: 0 <= i < j ==> !MentionsAny(text, rules[i].words)
    ensures FirstMatch(rules, text) == rules[j].kind
    decreases j
  {
    if j > 0 {
      assert !MentionsAny(text, rules[0].words);
      FirstMatchPicksFirst(rules[1..], text, j - 1);
    }
  }

  /** With no rule matching, the table falls through to the overview. */
  lemma {:induction false} FirstMatchNone(rules: seq<Rule>, text: string)
    requires forall i :: 0 <= i < |rules| ==> !MentionsAny(text, rules[i].words)
    ensures FirstMatch(rules, text) == InvoiceOverview
    decreases |rules|
  {
    if |rules| > 0 {
      assert !MentionsAny(text, rules[0].words);
      FirstMatchNone(rules[1..], text);
    }
  }

  /** The chain is the first-match table over the lowered query. */
  lemma RouteIsFirstMatch(query: string)
    ensures Route(query) == FirstMatch(PRIORITY, Lower(query))
  {
    var q := Lower(query);
    if MentionsAny(q, REVENUE_WORDS) {
      FirstMatchPicksFirst(PRIORITY, q, 0);
    } else if MentionsAny(q, CUSTOMER_WORDS) {
      FirstMatchPicksFirst(PRIORITY, q, 1);
    } else if MentionsAny(q, STATUS_WORDS) {
      FirstMatchPicksFirst(PRIORITY, q, 2);
    } else if MentionsAny(q, COUNT_WORDS) {
      FirstMatchPicksFirst(PRIORITY, q, 3);
    } else {
      FirstMatchNone(PRIORITY, q);
    }
  }

  /**
   * Each report is chosen exactly when its group matches and no earlier
   * group does; the overview exactly when no group matches.
   */
  lemma RouteCases(query: string)
    ensures var q := Lower(query);
      && (Route(query) == RevenueAnalysis <==> MentionsAny(q, REVENUE_WORDS))
      && (Route(query) == CustomerAnalysis <==> !MentionsAny(q, REVENUE_WORDS) && MentionsAny(q, CUSTOMER_WORDS))
      && (Route(query) == PaymentStatusAnalysis <==>
            !MentionsAny(q, REVENUE_WORDS) && !MentionsAny(q, CUSTOMER_WORDS) && MentionsAny(q, STATUS_WORDS))
      && (Route(query) == InvoiceCountAnalysis <==>
            !MentionsAny(q, REVENUE_WORDS) && !MentionsAny(q, CUSTOMER_WORDS) && !MentionsAny(q, STATUS_WORDS)
            && MentionsAny(q, COUNT_WORDS))
      && (Route(query) == InvoiceOverview <==>
            !MentionsAny(q, REVENUE_WORDS) && !MentionsAny(q, CUSTOMER_WORDS) && !MentionsAny(q, STATUS_WORDS)
            && !MentionsAny(q, COUNT_WORDS))
  {
  }

  /** The query's case does not matter. */
  lemma RouteIgnoresCase(query: string)
    ensures Route(Lower(query)) == Route(query)
  {
    LowerIdempotent(query);
  }

  /** A word is matched anywhere, even inside a longer word: "summary" mentions "sum". */
  lemma RouteMatchesInsideWords()
    ensures Route("Monthly SUMMARY") == RevenueAnalysis
  {
    var q := Lower("Monthly SUMMARY");
    assert q[8..11] == "sum";
    assert OccursAt(q, REVENUE_WORDS[3], 8);
  }
}

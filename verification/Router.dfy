// The deterministic router, the only code that can say AUTO_APPROVE
// (services/decision/router/router.py), and the agent and fallback around it
// (services/decision/service/decider.py, services/decision/agent/nodes.py).
module Router {
  import opened Contracts
  import opened Sums

  datatype AutonomyThresholds = AutonomyThresholds(
    ceiling: real,
    minConfidence: real,
    receiptRequiredAbove: real,
    mealPerAttendeeCap: real,
    saasMonthlyCap: real,
    hardwareCap: real,
    travelManagerApprovalThreshold: real,
    severeViolationRules: set<string>)

  function LineItemsTotal(items: seq<LineItem>): real {
    if items == [] then 0.0
    else LineItemsTotal(items[..|items| - 1]) + items[|items| - 1].quantity * items[|items| - 1].unitPrice
  }

  predicate MathReconciles(invoice: Invoice) {
    LineItemsTotal(invoice.lineItems) + invoice.taxAmount == invoice.total
  }

  function CategoryCapViolation(invoice: Invoice, thresholds: AutonomyThresholds): Option<string> {
    match invoice.category
    case Meals =>
      if invoice.attendees.Some? && invoice.attendees.value > 0
         && invoice.total / invoice.attendees.value as real > thresholds.mealPerAttendeeCap
      then Some("MEAL-01") else None
    case Saas => if invoice.total > thresholds.saasMonthlyCap then Some("SAAS-01") else None
    case Hardware => if invoice.total > thresholds.hardwareCap then Some("HW-02") else None
    case Travel => if invoice.total > thresholds.travelManagerApprovalThreshold then Some("TRAVEL-02") else None
    case OtherCategory => None
  }

  // ---- The decision as a table ---------------------------------------------------------------------

  function If(condition: bool, rule: string): seq<string> {
    if condition then [rule] else []
  }

  function HardStops(invoice: Invoice, thresholds: AutonomyThresholds): seq<string> {
    If(!invoice.vendorKnown, "GLOBAL-VENDOR")
    + If(invoice.currency != "USD", "GLOBAL-FX")
    + If(invoice.total > thresholds.receiptRequiredAbove && !invoice.receiptPresent, "GLOBAL-RECEIPT")
    + If(invoice.category == Meals && invoice.attendees.None?, "MEAL-01")
    + If(!MathReconciles(invoice), "GLOBAL-MATH")
  }

  function Severe(rules: seq<string>, thresholds: AutonomyThresholds): seq<string> {
    if rules == [] then []
    else Severe(rules[..|rules| - 1], thresholds)
         + If(rules[|rules| - 1] in thresholds.severeViolationRules, rules[|rules| - 1])
  }

  function Violations(invoice: Invoice, thresholds: AutonomyThresholds): seq<string> {
    var cap := CategoryCapViolation(invoice, thresholds);
    If(invoice.total > thresholds.ceiling, "AUTONOMY-CEILING") + (if cap.Some? then [cap.value] else [])
  }

  // The route and the rules it names; the reason text is wording and is left to the caller.
  function RouteOf(invoice: Invoice, recommendation: Option<Recommendation>, isDuplicate: bool,
          thresholds: AutonomyThresholds): (Route, seq<string>) {
    if isDuplicate then (Duplicate, ["GLOBAL-DUP"])
    else if HardStops(invoice, thresholds) != [] then (HumanReview, HardStops(invoice, thresholds))
    else if recommendation.Some? && recommendation.value.recommendation == RecommendReject then
      var severe := Severe(recommendation.value.citedRules, thresholds);
      if severe != [] then (Reject, severe) else (HumanReview, ["AGENT-REJECT-UNVERIFIED"])
    else if Violations(invoice, thresholds) != [] then (HumanReview, Violations(invoice, thresholds))
    else if recommendation.None? then (HumanReview, [])
    else if recommendation.value.recommendation == RecommendEscalate then (HumanReview, recommendation.value.citedRules)
    else if recommendation.value.confidence < thresholds.minConfidence then (HumanReview, ["AUTONOMY-CONFIDENCE"])
    else (AutoApprove, [])
  }

  // ---- The code --------------------------------------------------------------------------------------

  method CollectHardStops(invoice: Invoice, thresholds: AutonomyThresholds) returns (hardStops: seq<string>)
    ensures hardStops == HardStops(invoice, thresholds)
  {
    hardStops := [];
    if !invoice.vendorKnown {
      hardStops := hardStops + ["GLOBAL-VENDOR"];
    }
    if invoice.currency != "USD" {
      hardStops := hardStops + ["GLOBAL-FX"];
    }
    if invoice.total > thresholds.receiptRequiredAbove && !invoice.receiptPresent {
      hardStops := hardStops + ["GLOBAL-RECEIPT"];
    }
    if invoice.category == Meals && invoice.attendees.None? {
      hardStops := hardStops + ["MEAL-01"];
    }
    if !MathReconciles(invoice) {
      hardStops := hardStops + ["GLOBAL-MATH"];
    }
  }

  method CollectSevere(cited: seq<string>, thresholds: AutonomyThresholds) returns (severe: seq<string>)
    ensures severe == Severe(cited, thresholds)
  {
    severe := [];
    for i := 0 to |cited|
      invariant severe == Severe(cited[..i], thresholds)
    {
      assert cited[..i + 1][..i] == cited[..i];
      if cited[i] in thresholds.severeViolationRules {
        severe := severe + [cited[i]];
      }
    }
    assert cited[..|cited|] == cited;
  }

  method CollectViolations(invoice: Invoice, thresholds: AutonomyThresholds) returns (violations: seq<string>)
    ensures violations == Violations(invoice, thresholds)
  {
    violations := [];
    if invoice.total > thresholds.ceiling {
      violations := violations + ["AUTONOMY-CEILING"];
    }
    var capViolation := CategoryCapViolation(invoice, thresholds);
    if capViolation.Some? {
      violations := violations + [capViolation.value];
    }
  }

  method RouteDecision(invoice: Invoice, recommendation: Option<Recommendation>, isDuplicate: bool,
          thresholds: AutonomyThresholds, correlationId: string)
    returns (decision: Decision)
    ensures (decision.route, decision.triggeredRules) == RouteOf(invoice, recommendation, isDuplicate, thresholds)
    ensures decision.correlationId == correlationId
    ensures isDuplicate ==> decision == Decision(Duplicate, DUPLICATE_REASON, ["GLOBAL-DUP"], correlationId)
  {
    if isDuplicate {
      return BuildDuplicateDecision(correlationId);
    }
    var hardStops := CollectHardStops(invoice, thresholds);
    if hardStops != [] {
      return Decision(HumanReview, "Hard stop(s) triggered.", hardStops, correlationId);
    }
    if recommendation.Some? && recommendation.value.recommendation == RecommendReject {
      var severe := CollectSevere(recommendation.value.citedRules, thresholds);
      if severe != [] {
        return Decision(Reject, "Severe policy violation.", severe, correlationId);
      }
      return Decision(HumanReview, "Agent recommended reject but cited no configured severe-violation rule.",
                      ["AGENT-REJECT-UNVERIFIED"], correlationId);
    }
    var violations := CollectViolations(invoice, thresholds);
    if violations != [] {
      return Decision(HumanReview, "Amount/category policy violation(s).", violations, correlationId);
    }
    if recommendation.None? {
      return Decision(HumanReview, "No agent recommendation available.", [], correlationId);
    }
    if recommendation.value.recommendation == RecommendEscalate {
      return Decision(HumanReview, "Agent recommended escalation.", recommendation.value.citedRules, correlationId);
    }
    if recommendation.value.confidence < thresholds.minConfidence {
      return Decision(HumanReview, "Agent confidence is below the threshold.", ["AUTONOMY-CONFIDENCE"], correlationId);
    }
    return Decision(AutoApprove,
                    "Within autonomy ceiling and category policy, known vendor, receipt present, "
                    + "high agent confidence.",
                    [], correlationId);
  }

  // ---- What it means ---------------------------------------------------------------------------------

  function Indices(n: nat): (indices: set<int>)
    ensures forall i :: i in indices <==> 0 <= i < n
  {
    if n == 0 then {} else Indices(n - 1) + {n - 1}
  }

  function Amounts(items: seq<LineItem>): int -> real {
    i => if 0 <= i < |items| then items[i].quantity * items[i].unitPrice else 0.0
  }

  // Every line's quantity times its unit price, added up.
  ghost function SumOfLines(items: seq<LineItem>): real {
    Sum(Indices(|items|), Amounts(items))
  }

  lemma {:induction false} TotalIsSumOfLines(items: seq<LineItem>)
    ensures LineItemsTotal(items) == SumOfLines(items)
    decreases |items|
  {
    if items != [] {
      var n := |items| - 1;
      TotalIsSumOfLines(items[..n]);
      SumOfLinesSnoc(items[..n], items[n]);
      assert items[..n] + [items[n]] == items;
    }
  }

  lemma SumOfLinesSnoc(items: seq<LineItem>, item: LineItem)
    ensures SumOfLines(items + [item]) == SumOfLines(items) + item.quantity * item.unitPrice
  {
    var n := |items|;
    var all := items + [item];
    SumSplit(Indices(n + 1), Amounts(all), n);
    assert Indices(n + 1) - {n} == Indices(n);
    assert all[n] == item && forall i <- Indices(n) :: all[i] == items[i];
    SumSame(Indices(n), Amounts(all), Amounts(items));
  }

  lemma TotalOfOne(item: LineItem)
    ensures LineItemsTotal([item]) == item.quantity * item.unitPrice
  {
    assert [item][..0] == [];
  }

  // What the lines of an invoice come to: nothing for no line, quantity times unit price for one, and
  // for two lists together the two totals together, whatever the order.
  lemma {:induction false} TotalAddsUp(items: seq<LineItem>, more: seq<LineItem>, item: LineItem)
    ensures LineItemsTotal([]) == 0.0
    ensures LineItemsTotal([item]) == item.quantity * item.unitPrice
    ensures LineItemsTotal(items + more) == LineItemsTotal(items) + LineItemsTotal(more)
    ensures LineItemsTotal(items + more) == LineItemsTotal(more + items)
  {
    TotalOfOne(item);
    TotalOfBoth(items, more);
    TotalOfBoth(more, items);
  }

  lemma {:induction false} TotalOfBoth(items: seq<LineItem>, more: seq<LineItem>)
    ensures LineItemsTotal(items + more) == LineItemsTotal(items) + LineItemsTotal(more)
    decreases |more|
  {
    if more == [] {
      assert items + more == items;
    } else {
      var all := items + more;
      assert all[..|all| - 1] == items + more[..|more| - 1];
      TotalOfBoth(items, more[..|more| - 1]);
    }
  }

  // The gates an invoice has to pass by itself, whatever the agent says.
  ghost predicate PassesHardStops(invoice: Invoice, thresholds: AutonomyThresholds) {
    && invoice.vendorKnown
    && invoice.currency == "USD"
    && (invoice.receiptPresent || invoice.total <= thresholds.receiptRequiredAbove)
    && (invoice.category == Meals ==> invoice.attendees.Some?)
    && SumOfLines(invoice.lineItems) + invoice.taxAmount == invoice.total
  }

  predicate WithinCaps(invoice: Invoice, thresholds: AutonomyThresholds) {
    && invoice.total <= thresholds.ceiling
    && match invoice.category
       case Meals => (invoice.attendees.Some? && invoice.attendees.value > 0 ==>
                        invoice.total <= thresholds.mealPerAttendeeCap * invoice.attendees.value as real)
       case Saas => invoice.total <= thresholds.saasMonthlyCap
       case Hardware => invoice.total <= thresholds.hardwareCap
       case Travel => invoice.total <= thresholds.travelManagerApprovalThreshold
       case OtherCategory => true
  }

  predicate Endorsed(recommendation: Option<Recommendation>, thresholds: AutonomyThresholds) {
    recommendation.Some? && recommendation.value.recommendation == RecommendApprove
    && recommendation.value.confidence >= thresholds.minConfidence
  }

  predicate CitesSevere(recommendation: Option<Recommendation>, thresholds: AutonomyThresholds) {
    recommendation.Some? && recommendation.value.recommendation == RecommendReject
    && exists rule <- recommendation.value.citedRules :: rule in thresholds.severeViolationRules
  }

  // All four routes, each exactly when.
  lemma RoutesExactly(invoice: Invoice, recommendation: Option<Recommendation>, isDuplicate: bool,
          thresholds: AutonomyThresholds)
    ensures var route := RouteOf(invoice, recommendation, isDuplicate, thresholds).0;
            && (route == Duplicate <==> isDuplicate)
            && (route == Reject <==>
                  && !isDuplicate && PassesHardStops(invoice, thresholds)
                  && CitesSevere(recommendation, thresholds))
            && (route == AutoApprove <==>
                  && !isDuplicate && PassesHardStops(invoice, thresholds)
                  && WithinCaps(invoice, thresholds) && Endorsed(recommendation, thresholds))
            && (route == HumanReview <==> route != Duplicate && route != Reject && route != AutoApprove)
  {
    HardStopsExactly(invoice, thresholds);
    CapsExactly(invoice, thresholds);
    if recommendation.Some? {
      SevereExactly(recommendation.value.citedRules, thresholds);
    }
  }

  lemma HardStopsExactly(invoice: Invoice, thresholds: AutonomyThresholds)
    ensures HardStops(invoice, thresholds) == [] <==> PassesHardStops(invoice, thresholds)
  {
    TotalIsSumOfLines(invoice.lineItems);
  }

  lemma CapsExactly(invoice: Invoice, thresholds: AutonomyThresholds)
    ensures Violations(invoice, thresholds) == [] <==> WithinCaps(invoice, thresholds)
  {
    PerAttendee(invoice, thresholds);
  }

  // The quotient against the cap is the total against the cap for all.
  lemma PerAttendee(invoice: Invoice, thresholds: AutonomyThresholds)
    ensures invoice.attendees.Some? && invoice.attendees.value > 0 ==>
              (invoice.total / invoice.attendees.value as real > thresholds.mealPerAttendeeCap
               <==> invoice.total > thresholds.mealPerAttendeeCap * invoice.attendees.value as real)
  {
    if invoice.attendees.Some? && invoice.attendees.value > 0 {
      var n := invoice.attendees.value as real;
      var each := invoice.total / n;
      assert each * n == invoice.total;
      if each > thresholds.mealPerAttendeeCap {
        assert each * n > thresholds.mealPerAttendeeCap * n;
      } else {
        assert each * n <= thresholds.mealPerAttendeeCap * n;
      }
    }
  }

  lemma {:induction false} SevereMember(rules: seq<string>, thresholds: AutonomyThresholds, rule: string)
    ensures rule in Severe(rules, thresholds) <==> rule in rules && rule in thresholds.severeViolationRules
    decreases |rules|
  {
    if rules != [] {
      var before, last := rules[..|rules| - 1], rules[|rules| - 1];
      SevereMember(before, thresholds, rule);
      assert rule in rules <==> rule in before || rule == last by {
        assert rules == before + [last];
      }
    }
  }

  lemma SevereExactly(rules: seq<string>, thresholds: AutonomyThresholds)
    ensures Severe(rules, thresholds) != [] <==> exists rule <- rules :: rule in thresholds.severeViolationRules
  {
    var severe := Severe(rules, thresholds);
    if severe != [] {
      SevereMember(rules, thresholds, severe[0]);
    }
    if rule :| rule in rules && rule in thresholds.severeViolationRules {
      SevereMember(rules, thresholds, rule);
    }
  }

  // Of two lists of cited rules one after the other, the severe ones of the first come before those of
  // the second; a single rule stays if and only if it is severe. So they keep their order and number.
  lemma {:induction false} SevereKeepsOrder(rules: seq<string>, more: seq<string>, rule: string,
          thresholds: AutonomyThresholds)
    ensures Severe([], thresholds) == []
    ensures Severe([rule], thresholds) == if rule in thresholds.severeViolationRules then [rule] else []
    ensures Severe(rules + more, thresholds) == Severe(rules, thresholds) + Severe(more, thresholds)
    decreases |more|
  {
    assert [rule][..0] == [];
    if more == [] {
      assert rules + more == rules;
    } else {
      var all := rules + more;
      assert all[..|all| - 1] == rules + more[..|more| - 1];
      SevereKeepsOrder(rules, more[..|more| - 1], rule, thresholds);
    }
  }

  // Each hard stop is named exactly when its own condition fails.
  lemma HardStopNames(invoice: Invoice, thresholds: AutonomyThresholds)
    ensures var stops := HardStops(invoice, thresholds);
            && ("GLOBAL-VENDOR" in stops <==> !invoice.vendorKnown)
            && ("GLOBAL-FX" in stops <==> invoice.currency != "USD")
            && ("GLOBAL-RECEIPT" in stops <==>
                invoice.total > thresholds.receiptRequiredAbove && !invoice.receiptPresent)
            && ("MEAL-01" in stops <==> invoice.category == Meals && invoice.attendees.None?)
            && ("GLOBAL-MATH" in stops <==> SumOfLines(invoice.lineItems) + invoice.taxAmount != invoice.total)
  {
    TotalIsSumOfLines(invoice.lineItems);
    assert "GLOBAL-VENDOR"[7] == 'V' && "GLOBAL-FX"[7] == 'F' && "GLOBAL-RECEIPT"[7] == 'R' && "GLOBAL-MATH"[7] == 'M';
    assert "MEAL-01"[0] == 'M';
  }

  // The order in which the hard stops are checked.
  function Rank(stop: string): nat {
    if stop == "GLOBAL-VENDOR" then 1
    else if stop == "GLOBAL-FX" then 2
    else if stop == "GLOBAL-RECEIPT" then 3
    else if stop == "MEAL-01" then 4
    else if stop == "GLOBAL-MATH" then 5
    else 0
  }

  predicate Ranked(stops: seq<string>, last: nat) {
    && (forall i | 0 <= i < |stops| :: 0 < Rank(stops[i]) <= last)
    && (forall i, j | 0 <= i < j < |stops| :: Rank(stops[i]) < Rank(stops[j]))
  }

  lemma RankedNext(stops: seq<string>, condition: bool, rule: string)
    requires Rank(rule) > 0 && Ranked(stops, Rank(rule) - 1)
    ensures Ranked(stops + If(condition, rule), Rank(rule))
  {
  }

  lemma StopRanks()
    ensures Rank("GLOBAL-VENDOR") == 1 && Rank("GLOBAL-FX") == 2 && Rank("GLOBAL-RECEIPT") == 3
    ensures Rank("MEAL-01") == 4 && Rank("GLOBAL-MATH") == 5
  {
    assert "GLOBAL-VENDOR"[7] == 'V' && "GLOBAL-FX"[7] == 'F' && "GLOBAL-RECEIPT"[7] == 'R' && "GLOBAL-MATH"[7] == 'M';
    assert "MEAL-01"[0] == 'M';
  }

  // They are named in that order, each at most once.
  lemma {:induction false} HardStopsInOrder(invoice: Invoice, thresholds: AutonomyThresholds)
    ensures Ranked(HardStops(invoice, thresholds), 5)
  {
    StopRanks();
    var unreceipted := invoice.total > thresholds.receiptRequiredAbove && !invoice.receiptPresent;
    var uncounted := invoice.category == Meals && invoice.attendees.None?;
    var stops := If(!invoice.vendorKnown, "GLOBAL-VENDOR");
    RankedNext(stops, invoice.currency != "USD", "GLOBAL-FX");
    stops := stops + If(invoice.currency != "USD", "GLOBAL-FX");
    RankedNext(stops, unreceipted, "GLOBAL-RECEIPT");
    stops := stops + If(unreceipted, "GLOBAL-RECEIPT");
    RankedNext(stops, uncounted, "MEAL-01");
    RankedNext(stops + If(uncounted, "MEAL-01"), !MathReconciles(invoice), "GLOBAL-MATH");
  }

  // So is each amount rule named, the ceiling first, and of the category rules at most one.
  lemma AmountRuleNames(invoice: Invoice, thresholds: AutonomyThresholds)
    ensures var rules := Violations(invoice, thresholds);
            && ("AUTONOMY-CEILING" in rules <==> invoice.total > thresholds.ceiling)
            && ("MEAL-01" in rules <==>
                  invoice.category == Meals && invoice.attendees.Some? && invoice.attendees.value > 0
                  && invoice.total > thresholds.mealPerAttendeeCap * invoice.attendees.value as real)
            && ("SAAS-01" in rules <==> invoice.category == Saas && invoice.total > thresholds.saasMonthlyCap)
            && ("HW-02" in rules <==> invoice.category == Hardware && invoice.total > thresholds.hardwareCap)
            && ("TRAVEL-02" in rules <==>
                  invoice.category == Travel && invoice.total > thresholds.travelManagerApprovalThreshold)
            && |rules| <= 2 && (|rules| == 2 ==> rules[0] == "AUTONOMY-CEILING" != rules[1])
            && forall rule <- rules :: rule in ["AUTONOMY-CEILING", "MEAL-01", "SAAS-01", "HW-02", "TRAVEL-02"]
  {
    assert "AUTONOMY-CEILING"[0] == 'A' && "MEAL-01"[0] == 'M' && "SAAS-01"[0] == 'S' && "HW-02"[0] == 'H'
        && "TRAVEL-02"[0] == 'T';
    PerAttendee(invoice, thresholds);
  }

  // What the decision names. A hard stop or an amount rule is named as above; what an agent's word adds
  // is its own rules or a rule about it.
  lemma RulesExactly(invoice: Invoice, recommendation: Option<Recommendation>, isDuplicate: bool,
          thresholds: AutonomyThresholds)
    ensures var rules := RouteOf(invoice, recommendation, isDuplicate, thresholds).1;
            && (isDuplicate ==> rules == ["GLOBAL-DUP"])
            && (!isDuplicate && !PassesHardStops(invoice, thresholds) ==> rules == HardStops(invoice, thresholds))
            && (!isDuplicate && PassesHardStops(invoice, thresholds) ==>
                  if recommendation.Some? && recommendation.value.recommendation == RecommendReject then
                    rules == if CitesSevere(recommendation, thresholds)
                             then Severe(recommendation.value.citedRules, thresholds)
                             else ["AGENT-REJECT-UNVERIFIED"]
                  else if !WithinCaps(invoice, thresholds) then rules == Violations(invoice, thresholds)
                  else
                    match recommendation
                    case None => rules == []
                    case Some(r) =>
                      if r.recommendation == RecommendEscalate then rules == r.citedRules
                      else rules == if r.confidence < thresholds.minConfidence then ["AUTONOMY-CONFIDENCE"] else [])
  {
    HardStopsExactly(invoice, thresholds);
    CapsExactly(invoice, thresholds);
    if recommendation.Some? {
      SevereExactly(recommendation.value.citedRules, thresholds);
    }
  }

  // The free text an invoice carries never moves the decision.
  lemma NotesNeverMatter(invoice: Invoice, notes: Option<string>, recommendation: Option<Recommendation>,
          isDuplicate: bool, thresholds: AutonomyThresholds)
    ensures RouteOf(invoice.(notes := notes), recommendation, isDuplicate, thresholds)
         == RouteOf(invoice, recommendation, isDuplicate, thresholds)
  {
    assert HardStops(invoice.(notes := notes), thresholds) == HardStops(invoice, thresholds);
  }

  predicate Looser(loose: AutonomyThresholds, tight: AutonomyThresholds) {
    && loose.ceiling >= tight.ceiling
    && loose.minConfidence <= tight.minConfidence
    && loose.receiptRequiredAbove >= tight.receiptRequiredAbove
    && loose.mealPerAttendeeCap >= tight.mealPerAttendeeCap
    && loose.saasMonthlyCap >= tight.saasMonthlyCap
    && loose.hardwareCap >= tight.hardwareCap
    && loose.travelManagerApprovalThreshold >= tight.travelManagerApprovalThreshold
  }

  // Loosening thresholds never takes an AUTO_APPROVE away; the severe rules may change freely.
  lemma LooseningKeepsAutoApprove(invoice: Invoice, recommendation: Option<Recommendation>, isDuplicate: bool,
          tight: AutonomyThresholds, loose: AutonomyThresholds)
    requires Looser(loose, tight)
    requires RouteOf(invoice, recommendation, isDuplicate, tight).0 == AutoApprove
    ensures RouteOf(invoice, recommendation, isDuplicate, loose) == (AutoApprove, [])
  {
    RoutesExactly(invoice, recommendation, isDuplicate, tight);
    RoutesExactly(invoice, recommendation, isDuplicate, loose);
    if invoice.category == Meals && invoice.attendees.Some? && invoice.attendees.value > 0 {
      var n := invoice.attendees.value as real;
      assert tight.mealPerAttendeeCap * n <= loose.mealPerAttendeeCap * n;
    }
  }

  // ---- The agent and the decider ---------------------------------------------------------------------

  // The provider fails, or returns a text that may or may not parse as a recommendation.
  datatype ProviderReply = ProviderError | Raw(text: string)

  datatype Agent = AgentError | Classified(recommendation: Recommendation)

  datatype DecisionOutcome = DecisionOutcome(decision: Decision, recommendation: Option<Recommendation>)

  // Pydantic's validation of a reply is outside the model; any parser will do.
  type Parser = string -> Option<Recommendation>

  method Classify(reply: ProviderReply, parse: Parser) returns (agent: Agent)
    ensures reply == ProviderError ==> agent == AgentError
    ensures reply.Raw? && parse(reply.text).None? ==> agent == AgentError
    ensures reply.Raw? && parse(reply.text).Some? ==> agent == Classified(parse(reply.text).value)
  {
    if reply.ProviderError? {
      return AgentError;
    }
    var parsed := parse(reply.text);
    if parsed.None? {
      return AgentError;
    }
    return Classified(parsed.value);
  }

  // Whatever the provider does, the outcome is the router's verdict on the parsed recommendation, or
  // on none at all.
  method Decide(invoice: Invoice, correlationId: string, isDuplicate: bool, thresholds: AutonomyThresholds,
          reply: ProviderReply, parse: Parser)
    returns (outcome: DecisionOutcome)
    ensures outcome.recommendation == match reply
                                      case Raw(text) => parse(text)
                                      case ProviderError => None
    ensures (outcome.decision.route, outcome.decision.triggeredRules)
         == RouteOf(invoice, outcome.recommendation, isDuplicate, thresholds)
    ensures outcome.decision.correlationId == correlationId
    ensures outcome.decision.route == AutoApprove ==>
              PassesHardStops(invoice, thresholds) && WithinCaps(invoice, thresholds)
                  && Endorsed(outcome.recommendation, thresholds)
  {
    var agent := Classify(reply, parse);
    RoutesExactly(invoice, if agent.Classified? then Some(agent.recommendation) else None, isDuplicate, thresholds);
    match agent {
      case Classified(recommendation) =>
        var decision := RouteDecision(invoice, Some(recommendation), isDuplicate, thresholds, correlationId);
        return DecisionOutcome(decision, Some(recommendation));
      case AgentError =>
        var decision := RouteDecision(invoice, None, isDuplicate, thresholds, correlationId);
        return DecisionOutcome(decision, None);
    }
  }
}

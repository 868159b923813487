// The wire and domain shapes the services share (shared/contracts/models.py).
module Contracts {
  datatype Option<+T> = None | Some(value: T)

  datatype Category = Meals | Travel | Saas | Hardware | OtherCategory

  datatype RecommendationType = RecommendApprove | RecommendEscalate | RecommendReject

  datatype Route = AutoApprove | HumanReview | Reject | Duplicate

  datatype LineItem = LineItem(description: string, quantity: real, unitPrice: real)

  // Amounts are exact, so a Decimal is its real value. `totalText` is the total as the Decimal
  // prints it: 10.0 and 10.00 are the same amount written with different digits.
  datatype Invoice = Invoice(
    id: string,
    submitter: string,
    department: string,
    vendor: string,
    vendorKnown: bool,
    invoiceNumber: string,
    currency: string,
    category: Category,
    attendees: Option<int>,
    lineItems: seq<LineItem>,
    taxAmount: real,
    total: real,
    totalText: string,
    receiptPresent: bool,
    date: string,
    notes: Option<string>)

  datatype Recommendation = Recommendation(
    recommendation: RecommendationType,
    confidence: real,
    citedRules: seq<string>,
    reasoning: string)

  datatype Decision = Decision(
    route: Route,
    reason: string,
    triggeredRules: seq<string>,
    correlationId: string)

  datatype InvoiceSubmittedEvent = InvoiceSubmittedEvent(invoice: Invoice, correlationId: string)

  datatype DecisionCompletedEvent = DecisionCompletedEvent(
    invoice: Invoice,
    decision: Decision,
    recommendation: Option<Recommendation>)

  datatype ApprovalResolution = ApprovalApproved | ApprovalRejected

  datatype ApprovalCompletedEvent = ApprovalCompletedEvent(
    invoice: Invoice,
    decision: Decision,
    resolution: ApprovalResolution)

  datatype PaymentResolution = PaymentCompleted | PaymentFailed

  datatype PaymentCompletedEvent = PaymentCompletedEvent(
    invoice: Invoice,
    decision: Decision,
    resolution: PaymentResolution,
    reason: string)

  // The one shape of a DUPLICATE decision, used by the router and by Intake.
  const DUPLICATE_REASON := "Duplicate of an already-processed invoice (same vendor, invoice number, and total)."
  const DUPLICATE_RULES := ["GLOBAL-DUP"]

  function BuildDuplicateDecision(correlationId: string): Decision {
    Decision(Duplicate, DUPLICATE_REASON, DUPLICATE_RULES, correlationId)
  }

  function ComputeDedupKey(invoice: Invoice): string {
    invoice.vendor + "|" + invoice.invoiceNumber + "|" + invoice.totalText
  }

  predicate SameTriple(a: Invoice, b: Invoice) {
    a.vendor == b.vendor && a.invoiceNumber == b.invoiceNumber && a.totalText == b.totalText
  }

  predicate SeparatorFree(invoice: Invoice) {
    '|' !in invoice.vendor && '|' !in invoice.invoiceNumber && '|' !in invoice.totalText
  }

  // Where the key's own two separators stand.
  lemma SeparatorsInKey(invoice: Invoice)
    ensures var key := ComputeDedupKey(invoice);
            var first := |invoice.vendor|;
            var second := first + 1 + |invoice.invoiceNumber|;
            && second < |key| && key[first] == key[second] == '|'
            && key[..first] == invoice.vendor && key[first + 1..second] == invoice.invoiceNumber
            && key[second + 1..] == invoice.totalText
            && (SeparatorFree(invoice) ==> forall k | 0 <= k < |key| && key[k] == '|' :: k == first || k == second)
  {
    var v, n, t := invoice.vendor, invoice.invoiceNumber, invoice.totalText;
    var key := ComputeDedupKey(invoice);
    assert key == v + ['|'] + n + ['|'] + t;
    assert forall k | 0 <= k < |v| :: key[k] == v[k];
    assert forall k | |v| < k < |v| + 1 + |n| :: key[k] == n[k - |v| - 1];
    assert forall k | |v| + 1 + |n| < k < |key| :: key[k] == t[k - |v| - |n| - 2];
  }

  // The key of a separator-free invoice is shared by no other vendor, number and printed total.
  lemma FreeKeyNamesTheTriple(a: Invoice, b: Invoice)
    requires SeparatorFree(a)
    ensures ComputeDedupKey(a) == ComputeDedupKey(b) <==> SameTriple(a, b)
  {
    SeparatorsInKey(a);
    SeparatorsInKey(b);
  }

  lemma CutAtSeparator(text: string) returns (left: string, right: string)
    requires '|' in text
    ensures text == left + "|" + right && |left| < |text| && |right| < |text|
  {
    var k :| 0 <= k < |text| && text[k] == '|';
    left, right := text[..k], text[k + 1..];
  }

  // One separator too many lets it be read another way.
  lemma SeparatorMoves(a: Invoice) returns (b: Invoice)
    requires !SeparatorFree(a)
    ensures ComputeDedupKey(a) == ComputeDedupKey(b) && !SameTriple(a, b)
  {
    var v, n, t := a.vendor, a.invoiceNumber, a.totalText;
    if '|' in v {
      var left, right := CutAtSeparator(v);
      b := a.(vendor := left, invoiceNumber := right + "|" + n);
      assert left + "|" + right + "|" + n + "|" + t == left + "|" + (right + "|" + n) + "|" + t;
    } else if '|' in n {
      var left, right := CutAtSeparator(n);
      b := a.(vendor := v + "|" + left, invoiceNumber := right);
      assert v + "|" + (left + "|" + right) + "|" + t == (v + "|" + left) + "|" + right + "|" + t;
    } else {
      var left, right := CutAtSeparator(t);
      b := a.(invoiceNumber := n + "|" + left, totalText := right);
      assert v + "|" + n + "|" + (left + "|" + right) == v + "|" + (n + "|" + left) + "|" + right;
    }
  }

  // An invoice's key is its own, among all vendors, numbers and totals, if and only if none of its
  // three parts contains the separator.
  lemma KeyIsUniqueIffSeparatorFree(a: Invoice)
    ensures (forall b: Invoice | ComputeDedupKey(a) == ComputeDedupKey(b) :: SameTriple(a, b)) <==> SeparatorFree(a)
  {
    if SeparatorFree(a) {
      forall b: Invoice | ComputeDedupKey(a) == ComputeDedupKey(b) ensures SameTriple(a, b) {
        FreeKeyNamesTheTriple(a, b);
      }
    } else {
      var b := SeparatorMoves(a);
    }
  }
}

// Which notifications one submission can cause. services/notification/service.py:23-29 takes the
// three triggers to exclude each other for a tracking id; this says exactly when they do.
module NotificationTriggers {
  import opened Contracts
  import opened Router
  import opened Choreography
  import opened Notification
  import Approval
  import Saga = PaymentSaga

  predicate DeclinedByDecision(s: System, id: string) {
    exists e <- s.decided :: e.decision.correlationId == id && DecisionNotifies(e)
  }

  predicate DeclinedByHuman(s: System, id: string) {
    exists e <- s.resolved :: e.decision.correlationId == id && ApprovalNotifies(e)
  }

  predicate PaymentReported(s: System, id: string) {
    Saga.SlotOf(s.saga, id).published != []
  }

  predicate OneRoute(s: System, id: string) {
    forall e, f | e in s.decided && f in s.decided && e.decision.correlationId == id
        && f.decision.correlationId == id ::
      e.decision.route == f.decision.route
  }

  predicate RouteSent(s: System, id: string, route: Route) {
    exists e <- s.decided :: e.decision.correlationId == id && e.decision.route == route
  }

  lemma HumanDeclineMeans(s: System, id: string)
    requires ApprovalsOk(s) && DeclinedByHuman(s, id)
    ensures RouteSent(s, id, HumanReview)
    ensures id in s.book.records && s.book.records[id].status == Approval.ApprovalStatus.Rejected
  {
    var e :| e in s.resolved && e.decision.correlationId == id && ApprovalNotifies(e);
    assert ResolvedOk(s, e) && Approval.RecordOk(s.book, id);
    var f :| f in s.decided && f.invoice == s.book.records[id].invoice && f.decision == s.book.records[id].decision;
  }

  lemma PaymentReportMeans(s: System, id: string, thresholds: AutonomyThresholds)
    requires Inv(s, thresholds) && PaymentReported(s, id)
    ensures RouteSent(s, id, AutoApprove)
         || (RouteSent(s, id, HumanReview) && id in s.book.records
             && s.book.records[id].status == Approval.ApprovalStatus.Approved)
  {
    var slot := Saga.SlotOf(s.saga, id);
    assert Saga.SlotOk(id, slot) && SlotAuthorised(s, slot);
    var record := slot.record.value;
    AuthorisedMeans(s, record.invoice, record.decision, thresholds);
    var f :| f in s.decided && f.invoice == record.invoice && f.decision == record.decision;
  }

  // Two of the three handlers have something to send.
  predicate Clash(s: System, id: string) {
    || (DeclinedByDecision(s, id) && DeclinedByHuman(s, id))
    || (DeclinedByDecision(s, id) && PaymentReported(s, id))
    || (DeclinedByHuman(s, id) && PaymentReported(s, id))
  }

  // When all decisions of a tracking id agree on the route, at most one handler ever sends.
  lemma OneKindOfNotification(moves: seq<Move>, thresholds: AutonomyThresholds, id: string)
    requires OneRoute(Choreography.Run(EmptySystem, moves, thresholds), id)
    ensures !Clash(Choreography.Run(EmptySystem, moves, thresholds), id)
  {
    RunKeepsInv(EmptySystem, moves, thresholds);
    var s := Choreography.Run(EmptySystem, moves, thresholds);
    if DeclinedByHuman(s, id) {
      HumanDeclineMeans(s, id);
    }
    if PaymentReported(s, id) {
      PaymentReportMeans(s, id, thresholds);
    }
  }

  // The proviso is needed: the Decision service keeps no record of its answers, so a submission that
  // is delivered twice can be rejected once and auto-approved once.
  lemma SameSubmissionDecidedTwoWays(s: System, submission: InvoiceSubmittedEvent, thresholds: AutonomyThresholds,
          rule: string)
    returns (reject: DecisionCompletedEvent, approve: DecisionCompletedEvent)
    requires submission in s.submitted
    requires PassesHardStops(submission.invoice, thresholds) && WithinCaps(submission.invoice, thresholds)
    requires thresholds.minConfidence <= 1.0 && rule in thresholds.severeViolationRules
    ensures var after := Choreography.Run(s,
        [DecisionAnswers(submission, reject), DecisionAnswers(submission, approve)], thresholds);
            && reject in after.decided && approve in after.decided
            && DeclinedByDecision(after, submission.correlationId)
            && Authorised(after, submission.invoice, approve.decision)
            && !OneRoute(after, submission.correlationId)
  {
    var no := Some(Recommendation(RecommendReject, 1.0, [rule], ""));
    var yes := Some(Recommendation(RecommendApprove, 1.0, [], ""));
    RoutesExactly(submission.invoice, no, false, thresholds);
    RoutesExactly(submission.invoice, yes, false, thresholds);
    assert rule in no.value.citedRules;
    reject := DecisionCompletedEvent(submission.invoice,
      Decision(Reject, "", RouteOf(submission.invoice, no, false, thresholds).1, submission.correlationId), no);
    approve := DecisionCompletedEvent(submission.invoice,
      Decision(AutoApprove, "", RouteOf(submission.invoice, yes, false, thresholds).1, submission.correlationId), yes);
    var first := DecisionAnswers(submission, reject);
    Choreography.RunSnoc(s, [first], DecisionAnswers(submission, approve), thresholds);
    Choreography.RunSnoc(s, [], first, thresholds);
    var none: seq<Move> := [];
    assert none + [first] == [first];
    assert [first] + [DecisionAnswers(submission, approve)] == [first, DecisionAnswers(submission, approve)];
    var after := Choreography.Run(s, [first, DecisionAnswers(submission, approve)], thresholds);
    assert reject in after.decided && approve in after.decided;
  }
}

// Intake, Decision, Approval and Payment together, talking only through messages (services/*/app.py
// subscriptions). Notification and Audit consume what is sent here and send nothing themselves.
//
// The network never loses the fact that a message was sent: each topic is a growing set, and any
// message in it may be delivered any number of times, late, or never. Every service step is a step
// of its own machine; the Decision service may answer the same submission differently each time.
module Choreography {
  import opened Contracts
  import opened Router
  import Submissions
  import Intake = IntakeLifecycle
  import Approval
  import Saga = PaymentSaga

  datatype System = System(
    intake: Intake.Intake,
    book: Approval.Book,
    saga: Saga.Saga,
    submitted: set<InvoiceSubmittedEvent>,
    decided: set<DecisionCompletedEvent>,
    resolved: set<ApprovalCompletedEvent>)

  datatype Move =
    | IntakeWorks(intakeMove: Intake.IntakeMove)
    | IntakeReceives(event: DecisionCompletedEvent)
    | DecisionAnswers(submission: InvoiceSubmittedEvent, answer: DecisionCompletedEvent)
    | ApprovalReceives(event: DecisionCompletedEvent, fault: Approval.Fault)
    | ApproverActs(trackingId: string, action: Approval.Action, fault: Approval.Fault)
    | PaymentReceives(paymentEvent: Saga.PaymentEvent)
    | PaymentWorks(sagaMove: Saga.SagaMove)

  const EmptySystem := System(map[], Approval.EmptyBook, Saga.EmptySaga, {}, {}, {})

  // ---- What each step sends ------------------------------------------------------------------------

  function SubmittedBy(intake: Intake.Intake, move: Intake.IntakeMove): set<InvoiceSubmittedEvent> {
    var id := move.trackingId;
    if id in intake && move.ProcessStep? && move.published && intake[id].process.PublishingInvoice?
    then {InvoiceSubmittedEvent(intake[id].process.original.invoice, id)}
    else {}
  }

  function DuplicateSentBy(intake: Intake.Intake, move: Intake.IntakeMove): set<DecisionCompletedEvent> {
    var id := move.trackingId;
    if id in intake && move.ProcessStep? && move.published && intake[id].process.PublishingDuplicate?
    then {DecisionCompletedEvent(intake[id].submission.invoice, intake[id].process.decision, None)}
    else {}
  }

  function ResolvedBy(book: Approval.Book, id: string, action: Approval.Action,
          fault: Approval.Fault): set<ApprovalCompletedEvent> {
    var attempted := Approval.Attempted(book, id, action);
    if attempted.Updated? && fault.NoFault? && Approval.Resolved(attempted.approval)
    then {Approval.ResolutionEvent(attempted.approval)}
    else {}
  }

  // Anything the Decision service can answer: the router's verdict on some recommendation, or none.
  predicate CanAnswer(submission: InvoiceSubmittedEvent, answer: DecisionCompletedEvent,
          thresholds: AutonomyThresholds) {
    && answer.invoice == submission.invoice
    && answer.decision.correlationId == submission.correlationId
    && (answer.decision.route, answer.decision.triggeredRules)
        == RouteOf(submission.invoice, answer.recommendation, false, thresholds)
  }

  predicate Sent(s: System, event: Saga.PaymentEvent) {
    match event
    case FromDecision(decided) => decided in s.decided
    case FromApproval(resolved) => resolved in s.resolved
  }

  function AfterIntake(s: System, move: Intake.IntakeMove): System {
    s.(intake := Intake.Step(s.intake, move),
       submitted := s.submitted + SubmittedBy(s.intake, move),
       decided := s.decided + DuplicateSentBy(s.intake, move))
  }

  function Step(s: System, move: Move, thresholds: AutonomyThresholds): System {
    match move
    case IntakeWorks(intakeMove) =>
      if intakeMove.DecisionArrives? then s
      else AfterIntake(s, intakeMove)
    case IntakeReceives(event) =>
      if event !in s.decided then s
      else s.(intake := Intake.Step(s.intake, Intake.DecisionArrives(event.decision.correlationId, event.decision)))
    case DecisionAnswers(submission, answer) =>
      if submission !in s.submitted || !CanAnswer(submission, answer, thresholds) then s
      else s.(decided := s.decided + {answer})
    case ApprovalReceives(event, fault) =>
      if event !in s.decided then s else s.(book := Approval.Deliver(s.book, event, fault))
    case ApproverActs(id, action, fault) =>
      s.(book := Approval.Perform(s.book, id, action, fault).0,
         resolved := s.resolved + ResolvedBy(s.book, id, action, fault))
    case PaymentReceives(event) =>
      if !Sent(s, event) then s else s.(saga := Saga.Step(s.saga, Saga.Deliver(event)))
    case PaymentWorks(sagaMove) =>
      if sagaMove.Deliver? then s else s.(saga := Saga.Step(s.saga, sagaMove))
  }

  function Run(s: System, moves: seq<Move>, thresholds: AutonomyThresholds): System
    decreases |moves|
  {
    if moves == [] then s else Run(Step(s, moves[0], thresholds), moves[1..], thresholds)
  }

  // ---- The invariant -------------------------------------------------------------------------------

  ghost predicate SubmittedOk(s: System, e: InvoiceSubmittedEvent) {
    && e.correlationId in s.intake
    && var slot := s.intake[e.correlationId];
       slot.announced && !slot.submission.isDuplicate && slot.submission.invoice == e.invoice
  }

  ghost predicate DecidedOk(s: System, e: DecisionCompletedEvent, thresholds: AutonomyThresholds) {
    var id := e.decision.correlationId;
    && id in s.intake
    && s.intake[id].announced && s.intake[id].submission.invoice == e.invoice
    && if s.intake[id].submission.isDuplicate then e.decision == BuildDuplicateDecision(id)
       else CanAnswer(InvoiceSubmittedEvent(e.invoice, id), e, thresholds)
  }

  predicate DecisionSent(s: System, invoice: Invoice, decision: Decision) {
    exists e <- s.decided :: e.invoice == invoice && e.decision == decision
  }

  predicate ResolvedOk(s: System, e: ApprovalCompletedEvent) {
    var id := e.decision.correlationId;
    id in s.book.records && Approval.Resolved(s.book.records[id]) && e == Approval.ResolutionEvent(s.book.records[id])
  }

  // What may start a payment: a sent AUTO_APPROVE decision, or a sent approval.
  predicate Authorised(s: System, invoice: Invoice, decision: Decision) {
    || (decision.route.AutoApprove? && DecisionSent(s, invoice, decision))
    || ApprovalCompletedEvent(invoice, decision, ApprovalApproved) in s.resolved
  }

  predicate RecordAuthorised(s: System, record: Saga.PaymentRecord) {
    Authorised(s, record.invoice, record.decision)
  }

  predicate PcAuthorised(s: System, pc: Saga.Pc) {
    match pc
    case Fetching(invoice, decision) => Authorised(s, invoice, decision)
    case Reserving(invoice, decision) => Authorised(s, invoice, decision)
    case SavingReserved(record) => RecordAuthorised(s, record)
    case SavingRejected(record) => RecordAuthorised(s, record)
    case Charging(record) => RecordAuthorised(s, record)
    case Releasing(record, _) => RecordAuthorised(s, record)
    case SavingFailed(record) => RecordAuthorised(s, record)
    case SavingCompleted(record) => RecordAuthorised(s, record)
    case Publishing(record) => RecordAuthorised(s, record)
  }

  predicate SlotAuthorised(s: System, slot: Saga.Slot) {
    && (slot.record.Some? ==> RecordAuthorised(s, slot.record.value))
    && (slot.pc.Some? ==> PcAuthorised(s, slot.pc.value))
  }

  ghost predicate NetworkOk(s: System, thresholds: AutonomyThresholds) {
    && Intake.Inv(s.intake)
    && (forall e <- s.submitted :: SubmittedOk(s, e))
    && (forall e <- s.decided :: DecidedOk(s, e, thresholds))
  }

  ghost predicate ApprovalsOk(s: System) {
    && Approval.ValidBook(s.book)
    && (forall id <- s.book.records :: DecisionSent(s, s.book.records[id].invoice, s.book.records[id].decision))
    && (forall e <- s.resolved :: ResolvedOk(s, e))
  }

  ghost predicate PaymentsOk(s: System) {
    && Saga.SlotsOk(s.saga)
    && (forall id <- s.saga.slots :: SlotAuthorised(s, s.saga.slots[id]))
  }

  ghost predicate Inv(s: System, thresholds: AutonomyThresholds) {
    NetworkOk(s, thresholds) && ApprovalsOk(s) && PaymentsOk(s)
  }

  // ---- Every step keeps it -------------------------------------------------------------------------

  // Messages are never unsent, so what they authorise stays authorised.
  lemma AuthorityGrows(s: System, after: System)
    requires PaymentsOk(s) && after.saga == s.saga
    requires s.decided <= after.decided && s.resolved <= after.resolved
    ensures PaymentsOk(after)
  {
    forall invoice, decision | DecisionSent(s, invoice, decision) ensures DecisionSent(after, invoice, decision) {
      var e :| e in s.decided && e.invoice == invoice && e.decision == decision;
      assert e in after.decided;
    }
    assert forall invoice, decision :: Authorised(s, invoice, decision) ==> Authorised(after, invoice, decision);
    forall id <- after.saga.slots ensures SlotAuthorised(after, after.saga.slots[id]) {
      assert SlotAuthorised(s, s.saga.slots[id]);
    }
  }

  lemma ApprovalsGrow(s: System, after: System)
    requires ApprovalsOk(s) && after.book == s.book && after.resolved == s.resolved && s.decided <= after.decided
    ensures ApprovalsOk(after)
  {
    forall id <- after.book.records
      ensures DecisionSent(after, after.book.records[id].invoice, after.book.records[id].decision)
    {
      var e :| e in s.decided && e.invoice == s.book.records[id].invoice && e.decision == s.book.records[id].decision;
      assert e in after.decided;
    }
    assert forall e <- after.resolved :: ResolvedOk(s, e) ==> ResolvedOk(after, e);
  }

  predicate Announcing(slot: Intake.Slot, move: Intake.IntakeMove) {
    move.ProcessStep? && move.published && (slot.process.PublishingInvoice? || slot.process.PublishingDuplicate?)
  }

  lemma SlotAnnounces(id: string, slot: Intake.Slot, move: Intake.IntakeMove)
    requires Intake.SlotOk(id, slot)
    ensures var after := Intake.AfterMove(id, slot, move);
            && Intake.SameIdentity(slot.submission, after.submission)
            && (slot.announced ==> after.announced)
            && (Announcing(slot, move) ==> after.announced)
  {
    Intake.MoveKeepsSlot(id, slot, move);
  }

  // What an event says of its submission stays true of it.
  ghost predicate IntakeGrows(before: Intake.Intake, after: Intake.Intake) {
    forall id <- before ::
      && id in after && Intake.SameIdentity(before[id].submission, after[id].submission)
      && (before[id].announced ==> after[id].announced)
  }

  lemma {:induction false} IntakeStepGrows(intake: Intake.Intake, move: Intake.IntakeMove)
    requires Intake.Inv(intake)
    ensures IntakeGrows(intake, Intake.Step(intake, move))
    ensures var id := move.trackingId;
            id in intake && Announcing(intake[id], move) ==> Intake.Step(intake, move)[id].announced
  {
    var target := move.trackingId;
    var after := Intake.Step(intake, move);
    forall id <- intake
      ensures id in after && Intake.SameIdentity(intake[id].submission, after[id].submission)
      ensures intake[id].announced ==> after[id].announced
      ensures id == target && Announcing(intake[id], move) ==> after[id].announced
    {
      if id == target {
        assert Intake.SlotOk(id, intake[id]);
        SlotAnnounces(id, intake[id], move);
      }
    }
  }

  lemma SubmissionsStayOk(s: System, move: Intake.IntakeMove, e: InvoiceSubmittedEvent, thresholds: AutonomyThresholds)
    requires NetworkOk(s, thresholds) && e in AfterIntake(s, move).submitted
    requires IntakeGrows(s.intake, Intake.Step(s.intake, move))
    requires var id := move.trackingId;
             id in s.intake && Announcing(s.intake[id], move) ==> Intake.Step(s.intake, move)[id].announced
    ensures SubmittedOk(AfterIntake(s, move), e)
  {
    if e in s.submitted {
      assert SubmittedOk(s, e);
    } else {
      assert Intake.SlotOk(move.trackingId, s.intake[move.trackingId]);
    }
  }

  lemma DecisionsStayOk(s: System, move: Intake.IntakeMove, e: DecisionCompletedEvent, thresholds: AutonomyThresholds)
    requires NetworkOk(s, thresholds) && e in AfterIntake(s, move).decided
    requires IntakeGrows(s.intake, Intake.Step(s.intake, move))
    requires var id := move.trackingId;
             id in s.intake && Announcing(s.intake[id], move) ==> Intake.Step(s.intake, move)[id].announced
    ensures DecidedOk(AfterIntake(s, move), e, thresholds)
  {
    if e in s.decided {
      assert DecidedOk(s, e, thresholds);
    } else {
      assert Intake.SlotOk(move.trackingId, s.intake[move.trackingId]);
    }
  }

  lemma {:induction false} IntakeStepKeepsNetwork(s: System, move: Intake.IntakeMove, thresholds: AutonomyThresholds)
    requires NetworkOk(s, thresholds)
    ensures NetworkOk(AfterIntake(s, move), thresholds)
  {
    Intake.StepKeepsInv(s.intake, move);
    IntakeStepGrows(s.intake, move);
    forall e <- AfterIntake(s, move).submitted ensures SubmittedOk(AfterIntake(s, move), e) {
      SubmissionsStayOk(s, move, e, thresholds);
    }
    forall e <- AfterIntake(s, move).decided ensures DecidedOk(AfterIntake(s, move), e, thresholds) {
      DecisionsStayOk(s, move, e, thresholds);
    }
  }

  lemma IntakeMoveKeepsInv(s: System, move: Intake.IntakeMove, thresholds: AutonomyThresholds)
    requires Inv(s, thresholds)
    ensures Inv(AfterIntake(s, move), thresholds)
  {
    IntakeStepKeepsNetwork(s, move, thresholds);
    ApprovalsGrow(s, AfterIntake(s, move));
    AuthorityGrows(s, AfterIntake(s, move));
  }

  lemma ReceivingIsIntakesMove(s: System, event: DecisionCompletedEvent, thresholds: AutonomyThresholds)
    ensures var move := Intake.DecisionArrives(event.decision.correlationId, event.decision);
            Step(s, IntakeReceives(event), thresholds) == if event in s.decided then AfterIntake(s, move) else s
  {
    var move := Intake.DecisionArrives(event.decision.correlationId, event.decision);
    assert SubmittedBy(s.intake, move) == {} && DuplicateSentBy(s.intake, move) == {};
  }

  lemma DecisionAnswersKeepsInv(s: System, submission: InvoiceSubmittedEvent, answer: DecisionCompletedEvent,
          thresholds: AutonomyThresholds)
    requires Inv(s, thresholds)
    ensures Inv(Step(s, DecisionAnswers(submission, answer), thresholds), thresholds)
  {
    var after := Step(s, DecisionAnswers(submission, answer), thresholds);
    if after != s {
      assert SubmittedOk(s, submission);
      forall e <- after.submitted ensures SubmittedOk(after, e) {
        assert SubmittedOk(s, e);
      }
      forall e <- after.decided ensures DecidedOk(after, e, thresholds) {
        assert e in s.decided ==> DecidedOk(s, e, thresholds);
      }
      ApprovalsGrow(s, after);
      AuthorityGrows(s, after);
    }
  }

  lemma NetworkSame(s: System, after: System, thresholds: AutonomyThresholds)
    requires NetworkOk(s, thresholds)
    requires after.intake == s.intake && after.submitted == s.submitted && after.decided == s.decided
    ensures NetworkOk(after, thresholds)
  {
    assert forall e <- s.submitted :: SubmittedOk(s, e) ==> SubmittedOk(after, e);
    assert forall e <- s.decided :: DecidedOk(s, e, thresholds) ==> DecidedOk(after, e, thresholds);
  }

  lemma ApprovalReceivesKeepsInv(s: System, event: DecisionCompletedEvent, fault: Approval.Fault,
          thresholds: AutonomyThresholds)
    requires Inv(s, thresholds)
    ensures Inv(Step(s, ApprovalReceives(event, fault), thresholds), thresholds)
  {
    var after := Step(s, ApprovalReceives(event, fault), thresholds);
    Approval.StepIsLegal(s.book, Approval.DecisionDelivered(event, fault));
    NetworkSame(s, after, thresholds);
    AuthorityGrows(s, after);
    forall id <- after.book.records
      ensures DecisionSent(after, after.book.records[id].invoice, after.book.records[id].decision)
    {
      if id in s.book.records {
        assert DecisionSent(s, s.book.records[id].invoice, s.book.records[id].decision);
      } else {
        assert event in after.decided;
      }
    }
    forall e <- after.resolved ensures ResolvedOk(after, e) {
      assert ResolvedOk(s, e);
    }
  }

  // An action changes one record's status and sends at most that record's resolution.
  lemma ActionKeepsApprovals(s: System, after: System, id: string, action: Approval.Action, fault: Approval.Fault)
    requires ApprovalsOk(s) && after.decided == s.decided
    requires after.book == Approval.Step(s.book, Approval.Act(id, action, fault))
    requires after.resolved == s.resolved + ResolvedBy(s.book, id, action, fault)
    ensures ApprovalsOk(after)
  {
    Approval.StepIsLegal(s.book, Approval.Act(id, action, fault));
    assert id in s.book.records ==> Approval.RecordOk(s.book, id);
    forall other <- after.book.records
      ensures DecisionSent(after, after.book.records[other].invoice, after.book.records[other].decision)
    {
      assert DecisionSent(s, s.book.records[other].invoice, s.book.records[other].decision);
      assert Approval.LegalMove(s.book.records[other], after.book.records[other]);
    }
    forall e <- after.resolved ensures ResolvedOk(after, e) {
      if e in s.resolved {
        assert ResolvedOk(s, e);
        assert Approval.LegalMove(s.book.records[e.decision.correlationId],
            after.book.records[e.decision.correlationId]);
      }
    }
  }

  lemma ApproverActsKeepsInv(s: System, id: string, action: Approval.Action, fault: Approval.Fault,
          thresholds: AutonomyThresholds)
    requires Inv(s, thresholds)
    ensures Inv(Step(s, ApproverActs(id, action, fault), thresholds), thresholds)
  {
    var after := Step(s, ApproverActs(id, action, fault), thresholds);
    ActionKeepsApprovals(s, after, id, action, fault);
    NetworkSame(s, after, thresholds);
    AuthorityGrows(s, after);
  }

  lemma StartIsAuthorised(s: System, event: Saga.PaymentEvent)
    requires Sent(s, event) && Saga.Triggers(event)
    ensures Authorised(s, Saga.EventInvoice(event), Saga.EventDecision(event))
  {
  }

  // The saga's machine reads nothing of the network, so its slots are all there is to check.
  lemma PaymentMoveKeepsInv(s: System, after: System, id: string, thresholds: AutonomyThresholds)
    requires Inv(s, thresholds) && Saga.SlotsOk(after.saga)
    requires after == s.(saga := after.saga)
    requires forall other <- after.saga.slots | other != id ::
               && other in s.saga.slots
               && after.saga.slots[other] == s.saga.slots[other]
    requires id in after.saga.slots ==> SlotAuthorised(s, after.saga.slots[id])
    ensures Inv(after, thresholds)
  {
    NetworkSame(s, after, thresholds);
    ApprovalsGrow(s, after);
    forall other <- after.saga.slots ensures SlotAuthorised(after, after.saga.slots[other]) {
      assert SlotAuthorised(s, after.saga.slots[other]) by {
        if other != id {
          assert SlotAuthorised(s, s.saga.slots[other]);
        }
      }
      SameAuthority(s, after, after.saga.slots[other]);
    }
  }

  lemma SameAuthority(s: System, after: System, slot: Saga.Slot)
    requires after == s.(saga := after.saga) && SlotAuthorised(s, slot)
    ensures SlotAuthorised(after, slot)
  {
    assert forall invoice, decision :: Authorised(s, invoice, decision) ==> Authorised(after, invoice, decision);
  }

  lemma DeliveryIsAuthorised(s: System, event: Saga.PaymentEvent)
    requires PaymentsOk(s) && Sent(s, event)
    ensures var id := Saga.EventDecision(event).correlationId;
            var after := Saga.Step(s.saga, Saga.Deliver(event));
            id in after.slots ==> SlotAuthorised(s, after.slots[id])
  {
    var id := Saga.EventDecision(event).correlationId;
    assert id in s.saga.slots ==> SlotAuthorised(s, s.saga.slots[id]);
    if Saga.Triggers(event) {
      StartIsAuthorised(s, event);
    }
  }

  lemma {:induction false} PaymentReceivesKeepsInv(s: System, event: Saga.PaymentEvent, thresholds: AutonomyThresholds)
    requires Inv(s, thresholds)
    ensures Inv(Step(s, PaymentReceives(event), thresholds), thresholds)
  {
    if Sent(s, event) {
      var after := Step(s, PaymentReceives(event), thresholds);
      Saga.StepKeepsSlots(s.saga, Saga.Deliver(event));
      DeliveryIsAuthorised(s, event);
      PaymentMoveKeepsInv(s, after, Saga.EventDecision(event).correlationId, thresholds);
    }
  }

  lemma PcKeepsAuthority(s: System, id: string, slot: Saga.Slot, reply: Saga.GatewayReply)
    requires Saga.SlotOk(id, slot) && slot.pc.Some? && SlotAuthorised(s, slot)
    requires slot.pc.value.Charging? || slot.pc.value.Reserving? || slot.pc.value.Releasing?
    ensures SlotAuthorised(s, Saga.AdvanceSlot(s.saga.budgets, slot, reply).1)
  {
  }

  lemma AdvanceKeepsAuthority(s: System, id: string, slot: Saga.Slot, reply: Saga.GatewayReply)
    requires Saga.SlotOk(id, slot) && slot.pc.Some? && SlotAuthorised(s, slot)
    ensures SlotAuthorised(s, Saga.AdvanceSlot(s.saga.budgets, slot, reply).1)
  {
    if slot.pc.value.Charging? || slot.pc.value.Reserving? || slot.pc.value.Releasing? {
      PcKeepsAuthority(s, id, slot, reply);
    }
  }

  lemma WorkIsAuthorised(s: System, move: Saga.SagaMove, id: string)
    requires PaymentsOk(s) && (move.Abort? || move.Advance?) && move.trackingId == id
    ensures var after := Saga.Step(s.saga, move);
            id in after.slots ==> SlotAuthorised(s, after.slots[id])
  {
    assert id in s.saga.slots ==> SlotAuthorised(s, s.saga.slots[id]) && Saga.SlotOk(id, s.saga.slots[id]);
    if move.Advance? && Saga.SlotOf(s.saga, id).pc.Some? {
      AdvanceKeepsAuthority(s, id, Saga.SlotOf(s.saga, id), move.reply);
    }
  }

  lemma RestartKeepsInv(s: System, thresholds: AutonomyThresholds)
    requires Inv(s, thresholds)
    ensures Inv(Step(s, PaymentWorks(Saga.Restart), thresholds), thresholds)
  {
    var after := Step(s, PaymentWorks(Saga.Restart), thresholds);
    Saga.StepKeepsSlots(s.saga, Saga.Restart);
    NetworkSame(s, after, thresholds);
    ApprovalsGrow(s, after);
    forall id <- after.saga.slots ensures SlotAuthorised(after, after.saga.slots[id]) {
      assert SlotAuthorised(s, s.saga.slots[id]);
      assert SlotAuthorised(s, after.saga.slots[id]);
      SameAuthority(s, after, after.saga.slots[id]);
    }
  }

  lemma HandlerWorksKeepsInv(s: System, move: Saga.SagaMove, id: string, thresholds: AutonomyThresholds)
    requires Inv(s, thresholds) && (move.Abort? || move.Advance?) && move.trackingId == id
    ensures Inv(Step(s, PaymentWorks(move), thresholds), thresholds)
  {
    Saga.StepKeepsSlots(s.saga, move);
    WorkIsAuthorised(s, move, id);
    PaymentMoveKeepsInv(s, Step(s, PaymentWorks(move), thresholds), id, thresholds);
  }

  lemma SeedKeepsInv(s: System, move: Saga.SagaMove, thresholds: AutonomyThresholds)
    requires Inv(s, thresholds) && move.SeedBudget?
    ensures Inv(Step(s, PaymentWorks(move), thresholds), thresholds)
  {
    var after := Step(s, PaymentWorks(move), thresholds);
    NetworkSame(s, after, thresholds);
    ApprovalsGrow(s, after);
    forall id <- after.saga.slots ensures SlotAuthorised(after, after.saga.slots[id]) {
      assert SlotAuthorised(s, s.saga.slots[id]);
      SameAuthority(s, after, after.saga.slots[id]);
    }
  }

  lemma {:induction false} PaymentWorksKeepsInv(s: System, move: Saga.SagaMove, thresholds: AutonomyThresholds)
    requires Inv(s, thresholds)
    ensures Inv(Step(s, PaymentWorks(move), thresholds), thresholds)
  {
    match move
    case SeedBudget(_, _) => SeedKeepsInv(s, move, thresholds);
    case Advance(id, _) => HandlerWorksKeepsInv(s, move, id, thresholds);
    case Abort(id) => HandlerWorksKeepsInv(s, move, id, thresholds);
    case Restart => RestartKeepsInv(s, thresholds);
    case Deliver(_) =>
  }

  lemma {:induction false} StepKeepsInv(s: System, move: Move, thresholds: AutonomyThresholds)
    requires Inv(s, thresholds)
    ensures Inv(Step(s, move, thresholds), thresholds)
  {
    match move
    case IntakeWorks(m) => IntakeMoveKeepsInv(s, m, thresholds);
    case IntakeReceives(e) =>
      ReceivingIsIntakesMove(s, e, thresholds);
      IntakeMoveKeepsInv(s, Intake.DecisionArrives(e.decision.correlationId, e.decision), thresholds);
    case DecisionAnswers(e, a) => DecisionAnswersKeepsInv(s, e, a, thresholds);
    case ApprovalReceives(e, f) => ApprovalReceivesKeepsInv(s, e, f, thresholds);
    case ApproverActs(id, a, f) => ApproverActsKeepsInv(s, id, a, f, thresholds);
    case PaymentReceives(e) => PaymentReceivesKeepsInv(s, e, thresholds);
    case PaymentWorks(m) => PaymentWorksKeepsInv(s, m, thresholds);
  }

  lemma {:induction false} RunKeepsInv(s: System, moves: seq<Move>, thresholds: AutonomyThresholds)
    requires Inv(s, thresholds)
    ensures Inv(Run(s, moves, thresholds), thresholds)
    decreases |moves|
  {
    if moves != [] {
      StepKeepsInv(s, moves[0], thresholds);
      RunKeepsInv(Step(s, moves[0], thresholds), moves[1..], thresholds);
    }
  }

  // ---- What every run guarantees -------------------------------------------------------------------

  // An AUTO_APPROVE the router gave: every gate passed, by this invoice, for some recommendation.
  ghost predicate AutoApproved(s: System, invoice: Invoice, decision: Decision, thresholds: AutonomyThresholds) {
    exists e <- s.decided ::
      && e.invoice == invoice && e.decision == decision && decision.route.AutoApprove?
      && PassesHardStops(invoice, thresholds) && WithinCaps(invoice, thresholds)
          && Endorsed(e.recommendation, thresholds)
  }

  // A human's approval, saved as APPROVED on the record that a HUMAN_REVIEW decision created.
  predicate HumanApproved(s: System, invoice: Invoice, decision: Decision) {
    && decision.correlationId in s.book.records
    && s.book.records[decision.correlationId].status == Approval.ApprovalStatus.Approved
    && s.book.records[decision.correlationId].invoice == invoice
    && s.book.records[decision.correlationId].decision == decision
    && decision.route.HumanReview? && DecisionSent(s, invoice, decision)
  }

  lemma AuthorisedMeans(s: System, invoice: Invoice, decision: Decision, thresholds: AutonomyThresholds)
    requires Inv(s, thresholds) && Authorised(s, invoice, decision)
    ensures AutoApproved(s, invoice, decision, thresholds) || HumanApproved(s, invoice, decision)
  {
    if decision.route.AutoApprove? && DecisionSent(s, invoice, decision) {
      var e :| e in s.decided && e.invoice == invoice && e.decision == decision;
      assert DecidedOk(s, e, thresholds);
      RoutesExactly(invoice, e.recommendation, false, thresholds);
    } else {
      var event := ApprovalCompletedEvent(invoice, decision, ApprovalApproved);
      assert event in s.resolved && ResolvedOk(s, event);
      assert Approval.RecordOk(s.book, decision.correlationId);
    }
  }

  // Nothing is paid without authority. However messages are duplicated, delayed or reordered, and
  // wherever handlers fail, every payment record (and so every COMPLETED payment) carries the
  // invoice and the decision of an AUTO_APPROVE that passes every router gate, or of a
  // HUMAN_REVIEW that a human approved.
  lemma {:induction false} NothingPaidWithoutAuthority(moves: seq<Move>, thresholds: AutonomyThresholds, id: string)
    requires Saga.SlotOf(Run(EmptySystem, moves, thresholds).saga, id).record.Some?
    ensures var s := Run(EmptySystem, moves, thresholds);
            var record := Saga.SlotOf(s.saga, id).record.value;
            && record.decision.correlationId == id
            && (AutoApproved(s, record.invoice, record.decision, thresholds)
                || HumanApproved(s, record.invoice, record.decision))
  {
    RunKeepsInv(EmptySystem, moves, thresholds);
    var s := Run(EmptySystem, moves, thresholds);
    assert Saga.SlotOk(id, s.saga.slots[id]) && SlotAuthorised(s, s.saga.slots[id]);
    AuthorisedMeans(s, s.saga.slots[id].record.value.invoice, s.saga.slots[id].record.value.decision, thresholds);
  }

  lemma {:induction false} RunSnoc(s: System, moves: seq<Move>, last: Move, thresholds: AutonomyThresholds)
    ensures Run(s, moves + [last], thresholds) == Step(Run(s, moves, thresholds), last, thresholds)
    decreases |moves|
  {
    if moves == [] {
      assert moves + [last] == [last];
      assert Run(s, [last], thresholds) == Run(Step(s, last, thresholds), [], thresholds);
    } else {
      assert (moves + [last])[0] == moves[0] && (moves + [last])[1..] == moves[1..] + [last];
      RunSnoc(Step(s, moves[0], thresholds), moves[1..], last, thresholds);
    }
  }

  lemma DuplicatesAreRoutedSo(s: System, move: Intake.IntakeMove, e: DecisionCompletedEvent)
    requires Intake.Inv(s.intake) && e in DuplicateSentBy(s.intake, move)
    ensures e.decision.route.Duplicate?
  {
    assert Intake.SlotOk(move.trackingId, s.intake[move.trackingId]);
  }

  lemma NewDecisionWasAnswered(s: System, move: Move, thresholds: AutonomyThresholds, e: DecisionCompletedEvent)
    requires Intake.Inv(s.intake)
    requires e in Step(s, move, thresholds).decided && e !in s.decided && !e.decision.route.Duplicate?
    ensures move.DecisionAnswers? && move.answer == e
  {
    if move.IntakeWorks? && e in DuplicateSentBy(s.intake, move.intakeMove) {
      DuplicatesAreRoutedSo(s, move.intakeMove, e);
    }
  }

  lemma NewApprovalWasActed(s: System, move: Move, thresholds: AutonomyThresholds, e: ApprovalCompletedEvent)
    requires Approval.ValidBook(s.book)
    requires e in Step(s, move, thresholds).resolved && e !in s.resolved && e.resolution.ApprovalApproved?
    ensures move == ApproverActs(e.decision.correlationId, Approval.Approve, Approval.NoFault)
  {
    assert move.ApproverActs? && e in ResolvedBy(s.book, move.trackingId, move.action, move.fault);
    assert Approval.RecordOk(s.book, move.trackingId);
  }

  // A decision other than a duplicate's was answered by the Decision service in some move.
  lemma {:induction false} DecisionWasAnswered(moves: seq<Move>, thresholds: AutonomyThresholds,
          e: DecisionCompletedEvent)
    returns (i: nat)
    requires e in Run(EmptySystem, moves, thresholds).decided && !e.decision.route.Duplicate?
    ensures i < |moves| && moves[i].DecisionAnswers? && moves[i].answer == e
    decreases |moves|
  {
    var before, last := moves[..|moves| - 1], moves[|moves| - 1];
    var s := Run(EmptySystem, before, thresholds);
    assert moves == before + [last];
    RunSnoc(EmptySystem, before, last, thresholds);
    if e in s.decided {
      i := DecisionWasAnswered(before, thresholds, e);
    } else {
      RunKeepsInv(EmptySystem, before, thresholds);
      NewDecisionWasAnswered(s, last, thresholds, e);
      i := |before|;
    }
  }

  // An approval was some human's act.
  lemma {:induction false} ApprovalWasActed(moves: seq<Move>, thresholds: AutonomyThresholds, e: ApprovalCompletedEvent)
    requires e in Run(EmptySystem, moves, thresholds).resolved && e.resolution.ApprovalApproved?
    ensures ApproverActs(e.decision.correlationId, Approval.Approve, Approval.NoFault) in moves
    decreases |moves|
  {
    var before, last := moves[..|moves| - 1], moves[|moves| - 1];
    var s := Run(EmptySystem, before, thresholds);
    assert moves == before + [last];
    RunSnoc(EmptySystem, before, last, thresholds);
    if e in s.resolved {
      ApprovalWasActed(before, thresholds, e);
    } else {
      RunKeepsInv(EmptySystem, before, thresholds);
      NewApprovalWasActed(s, last, thresholds, e);
    }
  }

  predicate Authorises(move: Move, id: string, invoice: Invoice, decision: Decision) {
    || (&& move.DecisionAnswers? && move.answer.invoice == invoice && move.answer.decision == decision
        && decision.route.AutoApprove?)
    || move == ApproverActs(id, Approval.Approve, Approval.NoFault)
  }

  // And behind every payment record there is a move of the run that gave the authority: the answer
  // AUTO_APPROVE to this invoice, or a human's approve of this tracking id.
  lemma PaidOnlyAfterAnAct(moves: seq<Move>, thresholds: AutonomyThresholds, id: string)
    requires Saga.SlotOf(Run(EmptySystem, moves, thresholds).saga, id).record.Some?
    ensures var record := Saga.SlotOf(Run(EmptySystem, moves, thresholds).saga, id).record.value;
            exists move <- moves :: Authorises(move, id, record.invoice, record.decision)
  {
    RunKeepsInv(EmptySystem, moves, thresholds);
    var s := Run(EmptySystem, moves, thresholds);
    assert Saga.SlotOk(id, s.saga.slots[id]) && SlotAuthorised(s, s.saga.slots[id]);
    var record := s.saga.slots[id].record.value;
    if record.decision.route.AutoApprove? && DecisionSent(s, record.invoice, record.decision) {
      var e :| e in s.decided && e.invoice == record.invoice && e.decision == record.decision;
      var i := DecisionWasAnswered(moves, thresholds, e);
      assert Authorises(moves[i], id, record.invoice, record.decision);
    } else {
      ApprovalWasActed(moves, thresholds, ApprovalCompletedEvent(record.invoice, record.decision, ApprovalApproved));
      assert Authorises(ApproverActs(id, Approval.Approve, Approval.NoFault), id, record.invoice, record.decision);
    }
  }

  // A payment record belongs to a submission that is not a duplicate, and pays that submission's invoice.
  lemma RecordsAreOriginals(s: System, id: string, thresholds: AutonomyThresholds)
    requires Inv(s, thresholds) && Saga.SlotOf(s.saga, id).record.Some?
    ensures id in s.intake && !s.intake[id].submission.isDuplicate
    ensures s.intake[id].submission.invoice == Saga.SlotOf(s.saga, id).record.value.invoice
    ensures s.intake[id].submission.dedupKey == ComputeDedupKey(s.intake[id].submission.invoice)
  {
    var record := s.saga.slots[id].record.value;
    assert Saga.SlotOk(id, s.saga.slots[id]) && SlotAuthorised(s, s.saga.slots[id]);
    AuthorisedMeans(s, record.invoice, record.decision, thresholds);
    var e :| e in s.decided && e.invoice == record.invoice && e.decision == record.decision;
    assert DecidedOk(s, e, thresholds);
    assert Intake.SlotOk(id, s.intake[id]);
  }

  // One payment for each dedup key: two payment records whose invoices share a key are the same
  // one, and a submission flagged as a duplicate never gets a record.
  lemma OnePaymentPerDedupKey(moves: seq<Move>, thresholds: AutonomyThresholds)
    ensures var s := Run(EmptySystem, moves, thresholds);
            && (forall a, b |
                  && Saga.SlotOf(s.saga, a).record.Some? && Saga.SlotOf(s.saga, b).record.Some?
                  && ComputeDedupKey(Saga.SlotOf(s.saga, a).record.value.invoice)
                     == ComputeDedupKey(Saga.SlotOf(s.saga, b).record.value.invoice) ::
                  a == b)
            && (forall id <- s.intake | s.intake[id].submission.isDuplicate :: Saga.SlotOf(s.saga, id).record.None?)
  {
    RunKeepsInv(EmptySystem, moves, thresholds);
    var s := Run(EmptySystem, moves, thresholds);
    forall id | Saga.SlotOf(s.saga, id).record.Some?
      ensures id in s.intake && !s.intake[id].submission.isDuplicate
      ensures s.intake[id].submission.dedupKey == ComputeDedupKey(Saga.SlotOf(s.saga, id).record.value.invoice)
    {
      RecordsAreOriginals(s, id, thresholds);
    }
  }

  // A decision event is never turned away for arriving too early: when one has been sent, its
  // submission is announced, and if it is not a duplicate, PROCESSING or COMPLETED.
  lemma DecisionsFindTheirSubmission(moves: seq<Move>, thresholds: AutonomyThresholds, event: DecisionCompletedEvent)
    requires event in Run(EmptySystem, moves, thresholds).decided
    ensures var s := Run(EmptySystem, moves, thresholds);
            var id := event.decision.correlationId;
            && id in s.intake && s.intake[id].announced && s.intake[id].submission.invoice == event.invoice
            && s.intake[id].submission.status != Submissions.Received
            && s.intake[id].submission.status != Submissions.Failed
            && (s.intake[id].submission.isDuplicate <==> event.decision.route.Duplicate?)
  {
    RunKeepsInv(EmptySystem, moves, thresholds);
    var s := Run(EmptySystem, moves, thresholds);
    var id := event.decision.correlationId;
    assert DecidedOk(s, event, thresholds);
    assert Intake.SlotOk(id, s.intake[id]);
    if !s.intake[id].submission.isDuplicate {
      RoutesExactly(event.invoice, event.recommendation, false, thresholds);
    }
  }

  // Each service on its own only ever made moves of its own machine, so everything proved of the
  // machines holds of the services within the system.
  lemma {:induction false} ServicesRunTheirMachines(moves: seq<Move>, thresholds: AutonomyThresholds)
    returns (intakeMoves: seq<Intake.IntakeMove>, approvalMoves: seq<Approval.ApprovalMove>,
        sagaMoves: seq<Saga.SagaMove>)
    ensures var s := Run(EmptySystem, moves, thresholds);
            && s.intake == Intake.Run(map[], intakeMoves)
            && s.book == Approval.Run(Approval.EmptyBook, approvalMoves)
            && s.saga == Saga.Run(Saga.EmptySaga, sagaMoves)
    decreases |moves|
  {
    if moves == [] {
      intakeMoves, approvalMoves, sagaMoves := [], [], [];
    } else {
      var before, last := moves[..|moves| - 1], moves[|moves| - 1];
      var s := Run(EmptySystem, before, thresholds);
      intakeMoves, approvalMoves, sagaMoves := ServicesRunTheirMachines(before, thresholds);
      RunSnoc(EmptySystem, before, last, thresholds);
      assert moves == before + [last];
      match last {
        case IntakeWorks(m) =>
          Intake.RunSnoc(map[], intakeMoves, m);
          intakeMoves := if m.DecisionArrives? then intakeMoves else intakeMoves + [m];
        case IntakeReceives(e) =>
          var m := Intake.DecisionArrives(e.decision.correlationId, e.decision);
          Intake.RunSnoc(map[], intakeMoves, m);
          intakeMoves := if e in s.decided then intakeMoves + [m] else intakeMoves;
        case ApprovalReceives(e, fault) =>
          var m := Approval.DecisionDelivered(e, fault);
          Approval.RunSnoc(Approval.EmptyBook, approvalMoves, m);
          approvalMoves := if e in s.decided then approvalMoves + [m] else approvalMoves;
        case ApproverActs(id, action, fault) =>
          var m := Approval.Act(id, action, fault);
          Approval.RunSnoc(Approval.EmptyBook, approvalMoves, m);
          approvalMoves := approvalMoves + [m];
        case PaymentReceives(e) =>
          Saga.RunSnoc(Saga.EmptySaga, sagaMoves, Saga.Deliver(e));
          sagaMoves := if Sent(s, e) then sagaMoves + [Saga.Deliver(e)] else sagaMoves;
        case PaymentWorks(m) =>
          Saga.RunSnoc(Saga.EmptySaga, sagaMoves, m);
          sagaMoves := if m.Deliver? then sagaMoves else sagaMoves + [m];
        case DecisionAnswers(_, _) =>
      }
    }
  }

  lemma {:induction false} RunAppend(s: System, first: seq<Move>, second: seq<Move>, thresholds: AutonomyThresholds)
    ensures Run(s, first + second, thresholds) == Run(Run(s, first, thresholds), second, thresholds)
    decreases |first|
  {
    if first == [] {
      assert first + second == second;
    } else {
      assert (first + second)[0] == first[0] && (first + second)[1..] == first[1..] + second;
      RunAppend(Step(s, first[0], thresholds), first[1..], second, thresholds);
    }
  }

  // ---- A submission on its way to a decision -------------------------------------------------------

  function Announcement(id: string, invoice: Invoice): seq<Move> {
    var go := IntakeWorks(Intake.ProcessStep(id, true));
    [IntakeWorks(Intake.Submit(id, invoice)), go, go, go]
  }

  lemma AnnouncementSteps(id: string, invoice: Invoice, thresholds: AutonomyThresholds, k: nat)
    requires k < 4
    ensures var m := Announcement(id, invoice);
            Run(EmptySystem, m[..k + 1], thresholds) == Step(Run(EmptySystem, m[..k], thresholds), m[k], thresholds)
  {
    var m := Announcement(id, invoice);
    RunSnoc(EmptySystem, m[..k], m[k], thresholds);
    assert m[..k + 1] == m[..k] + [m[k]];
  }

  // The first submission of an invoice leaves Intake.
  lemma AnnouncementIsSent(id: string, invoice: Invoice, thresholds: AutonomyThresholds)
    ensures InvoiceSubmittedEvent(invoice, id) in Run(EmptySystem, Announcement(id, invoice), thresholds).submitted
  {
    var m := Announcement(id, invoice);
    var received := Intake.NewSubmission(map[], id, invoice);
    var processing := received.(status := Submissions.Processing);
    AnnouncementSteps(id, invoice, thresholds, 0);
    AnnouncementSteps(id, invoice, thresholds, 1);
    AnnouncementSteps(id, invoice, thresholds, 2);
    AnnouncementSteps(id, invoice, thresholds, 3);
    assert !received.isDuplicate;
    assert Run(EmptySystem, m[..1], thresholds).intake[id] == Intake.Slot(received, Intake.Queued, None, false);
    assert Run(EmptySystem, m[..2], thresholds).intake[id].process == Intake.SavingProcessing(processing);
    assert Run(EmptySystem, m[..3], thresholds).intake[id].process == Intake.PublishingInvoice(received);
    assert m[..4] == m;
  }

  // Whatever the Decision service can answer to a sent submission, it can answer, and then something else.
  lemma AnswersAreSent(s: System, submission: InvoiceSubmittedEvent, first: DecisionCompletedEvent,
          second: DecisionCompletedEvent,
                       thresholds: AutonomyThresholds)
    requires submission in s.submitted
    requires CanAnswer(submission, first, thresholds) && CanAnswer(submission, second, thresholds)
    ensures var after := Run(s, [DecisionAnswers(submission, first), DecisionAnswers(submission, second)], thresholds);
            after.decided == s.decided + {first, second} && after.submitted == s.submitted
  {
    var m, n := DecisionAnswers(submission, first), DecisionAnswers(submission, second);
    var none: seq<Move> := [];
    RunSnoc(s, none, m, thresholds);
    assert none + [m] == [m] && [m] + [n] == [m, n];
    RunSnoc(s, [m], n, thresholds);
  }
}

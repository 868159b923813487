// Exactly when two kinds of notification can still arise for a tracking id, from any reachable state,
// with no further decision sent and no other payment taking money from its department.
module NotificationClash {
  import opened Contracts
  import opened Router
  import opened Choreography
  import opened NotificationTriggers
  import opened SagaGateway
  import opened SagaProgress
  import Approval
  import Intake = IntakeLifecycle
  import Guarantees = SagaGuarantees
  import Saga = PaymentSaga

  // ---- Continuations -------------------------------------------------------------------------------

  // The gateway answers each invoice in one way, before and after any restart.
  predicate AnsweredStep(first: Gateway, s: System, move: Move) {
    move.PaymentWorks? ==> AnsweredMove(first, s.saga, move.sagaMove)
  }

  predicate Answered(first: Gateway, s: System, moves: seq<Move>, thresholds: AutonomyThresholds)
    decreases |moves|
  {
    moves == [] || (&& AnsweredStep(first, s, moves[0])
                    && Answered(first, Choreography.Step(s, moves[0], thresholds), moves[1..], thresholds))
  }

  function InvoiceOf(s: System, id: string): Invoice
    requires id in s.intake
  {
    s.intake[id].submission.invoice
  }

  // It sends no decision, and takes no money from this tracking id's department for another payment.
  predicate QuietMove(s: System, move: Move, id: string) {
    && !move.DecisionAnswers? && !move.IntakeWorks?
    && (move.PaymentWorks? && id in s.intake ==> !Takes(s.saga, move.sagaMove, id, InvoiceOf(s, id).department))
  }

  predicate Quiet(first: Gateway, s: System, moves: seq<Move>, id: string, thresholds: AutonomyThresholds)
    decreases |moves|
  {
    moves == [] || (&& AnsweredStep(first, s, moves[0]) && QuietMove(s, moves[0], id)
                    && Quiet(first, Choreography.Step(s, moves[0], thresholds), moves[1..], id, thresholds))
  }

  // ---- What is still ahead of a tracking id --------------------------------------------------------

  // An approver can still resolve it.
  predicate Open(s: System, id: string) {
    if id in s.book.records then !Approval.Resolved(s.book.records[id]) else RouteSent(s, id, HumanReview)
  }

  predicate HumanAhead(s: System, id: string) { DeclinedByHuman(s, id) || Open(s, id) }

  predicate ApprovalSent(s: System, id: string) {
    exists e <- s.resolved :: e.decision.correlationId == id && e.resolution.ApprovalApproved?
  }

  // Payment has reported, or still can: its event is or can be there, and it can settle.
  predicate PaymentAhead(first: Gateway, s: System, id: string) {
    var slot := Saga.SlotOf(s.saga, id);
    || slot.published != []
    || (&& id in s.intake && CanReport(first, s.saga, id, InvoiceOf(s, id))
        && (slot.record.Some? || slot.pc.Some? || RouteSent(s, id, AutoApprove) || ApprovalSent(s, id)))
  }

  // Two of the three.
  predicate ClashAhead(first: Gateway, s: System, id: string) {
    || (DeclinedByDecision(s, id) && HumanAhead(s, id))
    || (DeclinedByDecision(s, id) && PaymentAhead(first, s, id))
    || (HumanAhead(s, id) && PaymentAhead(first, s, id))
  }

  // ---- Nothing comes ahead that was not ------------------------------------------------------------

  lemma SameDecisionsSameRoutes(s: System, after: System, id: string)
    requires after.decided == s.decided
    ensures DeclinedByDecision(after, id) <==> DeclinedByDecision(s, id)
    ensures forall route :: RouteSent(after, id, route) <==> RouteSent(s, id, route)
  {
  }

  // A resolution first sent now was sent for an open record, and is that record's.
  lemma NewResolution(s: System, other: string, action: Approval.Action, fault: Approval.Fault,
          e: ApprovalCompletedEvent)
    requires ApprovalsOk(s) && e in ResolvedBy(s.book, other, action, fault)
    ensures e.decision.correlationId == other && other in s.book.records && !Approval.Resolved(s.book.records[other])
    ensures var after := Approval.Step(s.book, Approval.Act(other, action, fault));
            other in after.records && Approval.Resolved(after.records[other])
                && e == Approval.ResolutionEvent(after.records[other])
  {
    assert Approval.RecordOk(s.book, other);
  }

  lemma ActOpensNothing(book: Approval.Book, id: string, other: string, action: Approval.Action, fault: Approval.Fault)
    requires other in book.records ==> Approval.RecordOk(book, other)
    ensures var after := Approval.Step(book, Approval.Act(other, action, fault));
            && (id in after.records <==> id in book.records)
            && (id in after.records && !Approval.Resolved(after.records[id]) ==> !Approval.Resolved(book.records[id]))
  {
  }

  lemma ActKeepsHuman(s: System, after: System, id: string, other: string, action: Approval.Action,
          fault: Approval.Fault)
    requires ApprovalsOk(s) && after.decided == s.decided
    requires after.book == Approval.Step(s.book, Approval.Act(other, action, fault))
    requires after.resolved == s.resolved + ResolvedBy(s.book, other, action, fault)
    ensures HumanAhead(after, id) ==> HumanAhead(s, id)
  {
    SameDecisionsSameRoutes(s, after, id);
    assert other in s.book.records ==> Approval.RecordOk(s.book, other);
    ActOpensNothing(s.book, id, other, action, fault);
    if DeclinedByHuman(after, id) && !DeclinedByHuman(s, id) {
      var e :| e in after.resolved && e.decision.correlationId == id && e.resolution.ApprovalRejected?;
      assert e !in s.resolved;
      NewResolution(s, other, action, fault, e);
    }
  }

  lemma ActApproves(s: System, after: System, id: string, other: string, action: Approval.Action, fault: Approval.Fault)
    requires ApprovalsOk(s) && ApprovalsOk(after)
    requires after.book == Approval.Step(s.book, Approval.Act(other, action, fault))
    requires after.resolved == s.resolved + ResolvedBy(s.book, other, action, fault)
    requires ApprovalSent(after, id) && !ApprovalSent(s, id)
    ensures Open(s, id) && !HumanAhead(after, id)
  {
    var e :| e in after.resolved && e.decision.correlationId == id && e.resolution.ApprovalApproved?;
    assert e !in s.resolved;
    NewResolution(s, other, action, fault, e);
    OneResolution(after, id);
  }

  lemma OneResolution(s: System, id: string)
    requires ApprovalsOk(s)
    ensures !(ApprovalSent(s, id) && DeclinedByHuman(s, id))
  {
    assert forall e <- s.resolved :: ResolvedOk(s, e);
  }

  lemma DeliveryOpensNoReview(s: System, after: System, id: string, event: DecisionCompletedEvent,
          fault: Approval.Fault)
    requires event in s.decided && after == s.(book := Approval.Deliver(s.book, event, fault))
    ensures HumanAhead(after, id) ==> HumanAhead(s, id)
  {
    SameDecisionsSameRoutes(s, after, id);
  }

  lemma DeliverySideStep(first: Gateway, s: System, after: System, id: string, event: DecisionCompletedEvent,
          fault: Approval.Fault)
    requires event in s.decided && after == s.(book := Approval.Deliver(s.book, event, fault))
    ensures HumanAhead(after, id) ==> HumanAhead(s, id)
    ensures PaymentAhead(first, after, id) ==> PaymentAhead(first, s, id)
  {
    SameDecisionsSameRoutes(s, after, id);
    DeliveryOpensNoReview(s, after, id, event, fault);
  }

  lemma SagaSlotStep(saga: Saga.Saga, move: Saga.SagaMove, id: string)
    requires Saga.SlotsOk(saga) && !move.Deliver?
    ensures var slot, after := Saga.SlotOf(saga, id), Saga.SlotOf(Saga.Step(saga, move), id);
            && (after.published != [] ==>
                  || slot.published != []
                  || (slot.pc.Some? && slot.pc.value.Publishing? && slot.record.Some?
                      && Saga.Terminal(slot.record.value)))
            && (after.record.Some? || after.pc.Some? ==> slot.record.Some? || slot.pc.Some?)
            && (slot.record.Some? ==> after.record.Some?)
  {
    assert Saga.SlotOk(id, Saga.SlotOf(saga, id));
    if !Saga.Concerned(move, id) {
      Saga.OtherSparesSlot(saga, move, id);
    }
  }

  // Everything about this tracking id's payment that the argument needs.
  ghost predicate Sound(first: Gateway, s: System, id: string) {
    && Saga.SlotsOk(s.saga) && AllAnswered(first, s.saga)
    && (Saga.SlotOf(s.saga, id).record.Some? ==> id in s.intake)
    && (id in s.intake ==>
          && SlotFor(InvoiceOf(s, id), Saga.SlotOf(s.saga, id))
          && Guarantees.Balanced(s.saga, InvoiceOf(s, id).department))
  }

  lemma SlotIsSound(first: Gateway, s: System, id: string)
    requires Sound(first, s, id) && id in s.intake
    ensures SlotGood(first, id, Saga.SlotOf(s.saga, id), InvoiceOf(s, id))
    ensures var slot := Saga.SlotOf(s.saga, id);
            slot.record.Some? && slot.record.value.status.Reserved? ==> InvoiceOf(s, id).department in s.saga.budgets
  {
    var slot := Saga.SlotOf(s.saga, id);
    assert Saga.SlotOk(id, slot) && SlotAnswered(first, slot);
    assert slot.record.Some? && slot.record.value.status.Reserved? ==>
        Guarantees.Concerns(slot, InvoiceOf(s, id).department);
  }

  lemma {:induction false} NoWayFrom(first: Gateway, s: System, move: Saga.SagaMove, id: string)
    requires Sound(first, s, id) && id in s.intake
    requires AnsweredMove(first, s.saga, move) && !Takes(s.saga, move, id, InvoiceOf(s, id).department)
    ensures CanReport(first, Saga.Step(s.saga, move), id, InvoiceOf(s, id)) ==>
              CanReport(first, s.saga, id, InvoiceOf(s, id))
  {
    SlotIsSound(first, s, id);
    if Saga.Concerned(move, id) {
      OwnStepGivesNoWay(first, s.saga, move, id, InvoiceOf(s, id));
    } else {
      OtherStepGivesNoWay(first, s.saga, move, id, InvoiceOf(s, id));
    }
  }

  lemma {:induction false} PaymentWorksSideStep(first: Gateway, s: System, after: System, id: string,
          move: Saga.SagaMove)
    requires Sound(first, s, id) && !move.Deliver? && after == s.(saga := Saga.Step(s.saga, move))
    requires AnsweredStep(first, s, PaymentWorks(move)) && QuietMove(s, PaymentWorks(move), id)
    ensures PaymentAhead(first, after, id) ==> PaymentAhead(first, s, id)
  {
    SameDecisionsSameRoutes(s, after, id);
    SagaSlotStep(s.saga, move, id);
    if id in s.intake {
      NoWayFrom(first, s, move, id);
    }
  }

  lemma PaymentReceivesSideStep(first: Gateway, s: System, after: System, id: string, event: Saga.PaymentEvent)
    requires Sound(first, s, id) && Sent(s, event)
    requires after == s.(saga := Saga.Step(s.saga, Saga.Deliver(event)))
    ensures PaymentAhead(first, after, id) ==> PaymentAhead(first, s, id)
  {
    SameDecisionsSameRoutes(s, after, id);
    if id in s.intake {
      NoWayFrom(first, s, Saga.Deliver(event), id);
    }
    if Saga.EventDecision(event).correlationId == id && Saga.Triggers(event) {
      match event
      case FromDecision(d) => assert RouteSent(s, id, AutoApprove);
      case FromApproval(a) => assert ApprovalSent(s, id);
    } else {
      assert Saga.SlotOf(after.saga, id) == Saga.SlotOf(s.saga, id);
    }
  }

  lemma ActSideStep(first: Gateway, s: System, after: System, id: string, other: string, action: Approval.Action,
          fault: Approval.Fault)
    requires ApprovalsOk(s) && ApprovalsOk(after) && after.decided == s.decided && after.saga == s.saga
    requires after.intake == s.intake
    requires after.book == Approval.Step(s.book, Approval.Act(other, action, fault))
    requires after.resolved == s.resolved + ResolvedBy(s.book, other, action, fault)
    ensures ClashAhead(first, after, id) ==> ClashAhead(first, s, id)
  {
    ActKeepsHuman(s, after, id, other, action, fault);
    SameDecisionsSameRoutes(s, after, id);
    if PaymentAhead(first, after, id) && !PaymentAhead(first, s, id) {
      ActApproves(s, after, id, other, action, fault);
    }
  }

  lemma NoClashFrom(first: Gateway, s: System, after: System, id: string)
    requires after.decided == s.decided
    requires HumanAhead(after, id) ==> HumanAhead(s, id)
    requires PaymentAhead(first, after, id) ==> PaymentAhead(first, s, id)
    ensures ClashAhead(first, after, id) ==> ClashAhead(first, s, id)
  {
    SameDecisionsSameRoutes(s, after, id);
  }

  lemma ReceivingSideStep(first: Gateway, s: System, after: System, id: string, event: DecisionCompletedEvent)
    requires after == s.(intake := Intake.Step(s.intake,
        Intake.DecisionArrives(event.decision.correlationId, event.decision)))
    ensures ClashAhead(first, after, id) ==> ClashAhead(first, s, id)
    ensures after.intake.Keys == s.intake.Keys && (id in s.intake ==> InvoiceOf(after, id) == InvoiceOf(s, id))
  {
    SameDecisionsSameRoutes(s, after, id);
  }

  lemma StepBringsNoClash(first: Gateway, s: System, move: Move, id: string, thresholds: AutonomyThresholds)
    requires Sound(first, s, id) && ApprovalsOk(s) && ApprovalsOk(Choreography.Step(s, move, thresholds))
    requires AnsweredStep(first, s, move) && QuietMove(s, move, id)
    ensures ClashAhead(first, Choreography.Step(s, move, thresholds), id) ==> ClashAhead(first, s, id)
  {
    var after := Choreography.Step(s, move, thresholds);
    match move
    case ApproverActs(other, action, fault) => ActSideStep(first, s, after, id, other, action, fault);
    case ApprovalReceives(e, fault) =>
      if e in s.decided {
        DeliverySideStep(first, s, after, id, e, fault);
        NoClashFrom(first, s, after, id);
      }
    case PaymentReceives(e) =>
      if Sent(s, e) {
        PaymentReceivesSideStep(first, s, after, id, e);
        NoClashFrom(first, s, after, id);
      }
    case PaymentWorks(m) =>
      if !m.Deliver? {
        PaymentWorksSideStep(first, s, after, id, m);
        NoClashFrom(first, s, after, id);
      }
    case IntakeReceives(e) =>
      if e in s.decided {
        ReceivingSideStep(first, s, after, id, e);
      }
  }

  // ---- What a slot is about ------------------------------------------------------------------------

  lemma AuthorityIsSubmitted(s: System, invoice: Invoice, decision: Decision, thresholds: AutonomyThresholds)
    requires Choreography.Inv(s, thresholds) && Authorised(s, invoice, decision)
    ensures var id := decision.correlationId;
            id in s.intake && InvoiceOf(s, id) == invoice
  {
    AuthorisedMeans(s, invoice, decision, thresholds);
    var e :| e in s.decided && e.invoice == invoice && e.decision == decision;
    assert DecidedOk(s, e, thresholds);
  }

  // The decision that a slot carries, in its record or in its handler.
  function DecisionIn(slot: Saga.Slot): Decision
    requires slot.record.Some? || slot.pc.Some?
  {
    if slot.record.Some? then slot.record.value.decision
    else
      match slot.pc.value
      case Fetching(_, decision) => decision
      case Reserving(_, decision) => decision
      case SavingReserved(record) => record.decision
      case SavingRejected(record) => record.decision
      case Charging(record) => record.decision
      case Releasing(record, _) => record.decision
      case SavingFailed(record) => record.decision
      case SavingCompleted(record) => record.decision
      case Publishing(record) => record.decision
  }

  function InvoiceIn(slot: Saga.Slot): Invoice
    requires slot.record.Some? || slot.pc.Some?
  {
    if slot.record.Some? then slot.record.value.invoice
    else
      match slot.pc.value
      case Fetching(invoice, _) => invoice
      case Reserving(invoice, _) => invoice
      case SavingReserved(record) => record.invoice
      case SavingRejected(record) => record.invoice
      case Charging(record) => record.invoice
      case Releasing(record, _) => record.invoice
      case SavingFailed(record) => record.invoice
      case SavingCompleted(record) => record.invoice
      case Publishing(record) => record.invoice
  }

  lemma SlotCarriesAuthority(s: System, id: string, slot: Saga.Slot)
    requires Saga.SlotOk(id, slot) && SlotAuthorised(s, slot) && (slot.record.Some? || slot.pc.Some?)
    ensures Authorised(s, InvoiceIn(slot), DecisionIn(slot)) && DecisionIn(slot).correlationId == id
  {
  }

  lemma SlotIsForItsOwn(id: string, slot: Saga.Slot)
    requires Saga.SlotOk(id, slot) && (slot.record.Some? || slot.pc.Some?)
    ensures SlotFor(InvoiceIn(slot), slot)
  {
  }

  // A slot is about the invoice of its submission.
  lemma SlotIsForSubmission(s: System, id: string, thresholds: AutonomyThresholds)
    requires Choreography.Inv(s, thresholds)
    ensures Saga.SlotOf(s.saga, id).record.Some? ==> id in s.intake
    ensures id in s.intake ==> SlotFor(InvoiceOf(s, id), Saga.SlotOf(s.saga, id))
  {
    var slot := Saga.SlotOf(s.saga, id);
    if slot.record.Some? || slot.pc.Some? {
      assert Saga.SlotOk(id, slot) && SlotAuthorised(s, slot);
      SlotCarriesAuthority(s, id, slot);
      AuthorityIsSubmitted(s, InvoiceIn(slot), DecisionIn(slot), thresholds);
      SlotIsForItsOwn(id, slot);
    }
  }

  lemma {:induction false} SagaStepKeepsSound(first: Gateway, s: System, move: Saga.SagaMove, after: System, id: string,
          thresholds: AutonomyThresholds)
    requires Sound(first, s, id) && Choreography.Inv(after, thresholds)
    requires AnsweredMove(first, s.saga, move) && after == s.(saga := Saga.Step(s.saga, move))
    ensures Sound(first, after, id)
  {
    Saga.StepKeepsSlots(s.saga, move);
    StepKeepsAnswered(first, s.saga, move);
    SlotIsForSubmission(after, id, thresholds);
    if id in s.intake {
      Guarantees.StepKeepsBalance(s.saga, move, InvoiceOf(s, id).department);
    }
  }

  lemma {:induction false} StepKeepsSound(first: Gateway, s: System, move: Move, id: string,
          thresholds: AutonomyThresholds)
    requires Sound(first, s, id) && Choreography.Inv(Choreography.Step(s, move, thresholds), thresholds)
    requires AnsweredStep(first, s, move) && QuietMove(s, move, id)
    ensures Sound(first, Choreography.Step(s, move, thresholds), id)
  {
    var after := Choreography.Step(s, move, thresholds);
    match move
    case PaymentReceives(e) =>
      if Sent(s, e) {
        SagaStepKeepsSound(first, s, Saga.Deliver(e), after, id, thresholds);
      }
    case PaymentWorks(m) =>
      if !m.Deliver? {
        SagaStepKeepsSound(first, s, m, after, id, thresholds);
      }
    case IntakeReceives(e) =>
      if e in s.decided {
        ReceivingSideStep(first, s, after, id, e);
      }
    case _ =>
  }

  lemma {:induction false} RunBringsNoClash(first: Gateway, s: System, moves: seq<Move>, id: string,
          thresholds: AutonomyThresholds)
    requires Choreography.Inv(s, thresholds) && Sound(first, s, id) && Quiet(first, s, moves, id, thresholds)
    ensures ClashAhead(first, Choreography.Run(s, moves, thresholds), id) ==> ClashAhead(first, s, id)
    decreases |moves|
  {
    if moves != [] {
      Choreography.StepKeepsInv(s, moves[0], thresholds);
      StepBringsNoClash(first, s, moves[0], id, thresholds);
      StepKeepsSound(first, s, moves[0], id, thresholds);
      RunBringsNoClash(first, Choreography.Step(s, moves[0], thresholds), moves[1..], id, thresholds);
    }
  }

  // ---- What is ahead can be brought about ----------------------------------------------------------

  function Lifted(moves: seq<Saga.SagaMove>): seq<Move> {
    seq(|moves|, i requires 0 <= i < |moves| =>
      if moves[i].Deliver? then PaymentReceives(moves[i].event) else PaymentWorks(moves[i]))
  }

  // This payment working on its own, with deliveries of one event that has been sent.
  lemma {:induction false} LiftedRun(first: Gateway, s: System, moves: seq<Saga.SagaMove>, id: string,
          event: Saga.PaymentEvent, thresholds: AutonomyThresholds)
    requires id in s.intake && SlotGood(first, id, Saga.SlotOf(s.saga, id), InvoiceOf(s, id))
    requires Sent(s, event) && Starter(event, id, InvoiceOf(s, id))
    requires OwnMoves(first, moves, id, event, InvoiceOf(s, id))
    ensures Quiet(first, s, Lifted(moves), id, thresholds)
    ensures Choreography.Run(s, Lifted(moves), thresholds) == s.(saga := Saga.Run(s.saga, moves))
    decreases |moves|
  {
    if moves != [] {
      assert OwnMove(first, moves[0], id, event, InvoiceOf(s, id));
      OwnMoveIsAnswered(first, s.saga, moves[0], id, event, InvoiceOf(s, id));
      assert Lifted(moves)[1..] == Lifted(moves[1..]);
      forall i | 0 <= i < |moves[1..]| ensures OwnMove(first, moves[1..][i], id, event, InvoiceOf(s, id)) {
        assert OwnMove(first, moves[i + 1], id, event, InvoiceOf(s, id));
      }
      LiftedRun(first, s.(saga := Saga.Step(s.saga, moves[0])), moves[1..], id, event, thresholds);
    }
  }

  lemma {:induction false} QuietAppend(first: Gateway, s: System, before: seq<Move>, rest: seq<Move>, id: string,
          thresholds: AutonomyThresholds)
    requires Quiet(first, s, before, id, thresholds)
    requires Quiet(first, Choreography.Run(s, before, thresholds), rest, id, thresholds)
    ensures Quiet(first, s, before + rest, id, thresholds)
    decreases |before|
  {
    if before == [] {
      assert before + rest == rest;
    } else {
      assert (before + rest)[0] == before[0] && (before + rest)[1..] == before[1..] + rest;
      QuietAppend(first, Choreography.Step(s, before[0], thresholds), before[1..], rest, id, thresholds);
    }
  }

  lemma OneMove(s: System, move: Move, thresholds: AutonomyThresholds)
    ensures Choreography.Run(s, [move], thresholds) == Choreography.Step(s, move, thresholds)
  {
    var none: seq<Move> := [];
    Choreography.RunSnoc(s, none, move, thresholds);
    assert none + [move] == [move];
  }

  lemma OpenIsDeclined(s: System, id: string, thresholds: AutonomyThresholds)
    requires id in s.book.records && Approval.RecordOk(s.book, id) && !Approval.Resolved(s.book.records[id])
    ensures var after := Choreography.Step(s, ApproverActs(id, Approval.RejectIt, Approval.NoFault), thresholds);
            after.decided == s.decided && after.saga == s.saga && s.resolved <= after.resolved
                && DeclinedByHuman(after, id)
  {
    var after := Choreography.Step(s, ApproverActs(id, Approval.RejectIt, Approval.NoFault), thresholds);
    var record := s.book.records[id].(status := Approval.ApprovalStatus.Rejected);
    assert Approval.ResolutionEvent(record) in after.resolved;
  }

  lemma HumanDeclines(first: Gateway, s: System, id: string, thresholds: AutonomyThresholds) returns (more: seq<Move>)
    requires HumanAhead(s, id) && (id in s.book.records ==> Approval.RecordOk(s.book, id))
    ensures Quiet(first, s, more, id, thresholds)
    ensures var after := Choreography.Run(s, more, thresholds);
            && after == s.(book := after.book, resolved := after.resolved) && s.resolved <= after.resolved
            && DeclinedByHuman(after, id)
  {
    var reject := ApproverActs(id, Approval.RejectIt, Approval.NoFault);
    if DeclinedByHuman(s, id) {
      more := [];
    } else if id in s.book.records {
      more := [reject];
      OneMove(s, reject, thresholds);
      OpenIsDeclined(s, id, thresholds);
    } else {
      var e :| e in s.decided && e.decision.correlationId == id && e.decision.route == HumanReview;
      var create := ApprovalReceives(e, Approval.NoFault);
      var created := Choreography.Step(s, create, thresholds);
      more := [create, reject];
      OneMove(s, create, thresholds);
      Choreography.RunSnoc(s, [create], reject, thresholds);
      assert [create] + [reject] == more && more[1..] == [reject];
      OpenIsDeclined(created, id, thresholds);
    }
  }

  lemma AuthorityIsAnEvent(s: System, invoice: Invoice, decision: Decision) returns (event: Saga.PaymentEvent)
    requires Authorised(s, invoice, decision)
    ensures Sent(s, event) && Saga.Triggers(event)
    ensures Saga.EventInvoice(event) == invoice && Saga.EventDecision(event) == decision
  {
    var approval := ApprovalCompletedEvent(invoice, decision, ApprovalApproved);
    event := Saga.FromApproval(approval);
    if approval !in s.resolved {
      var e :| e in s.decided && e.invoice == invoice && e.decision == decision;
      event := Saga.FromDecision(e);
    }
  }

  lemma SentStarts(s: System, event: Saga.PaymentEvent, thresholds: AutonomyThresholds)
    requires Choreography.Inv(s, thresholds) && Sent(s, event) && Saga.Triggers(event)
    ensures var id := Saga.EventDecision(event).correlationId;
            id in s.intake && Starter(event, id, InvoiceOf(s, id))
  {
    StartIsAuthorised(s, event);
    AuthorityIsSubmitted(s, Saga.EventInvoice(event), Saga.EventDecision(event), thresholds);
  }

  // An event in the network that starts, or started, this tracking id's payment.
  lemma PaymentHasTrigger(s: System, id: string, thresholds: AutonomyThresholds) returns (event: Saga.PaymentEvent)
    requires Choreography.Inv(s, thresholds)
    requires var slot := Saga.SlotOf(s.saga, id);
             slot.record.Some? || slot.pc.Some? || RouteSent(s, id, AutoApprove) || ApprovalSent(s, id)
    ensures Sent(s, event) && id in s.intake && Starter(event, id, InvoiceOf(s, id))
  {
    var slot := Saga.SlotOf(s.saga, id);
    if slot.record.Some? || slot.pc.Some? {
      assert Saga.SlotOk(id, slot) && SlotAuthorised(s, slot);
      SlotCarriesAuthority(s, id, slot);
      event := AuthorityIsAnEvent(s, InvoiceIn(slot), DecisionIn(slot));
    } else if RouteSent(s, id, AutoApprove) {
      var e :| e in s.decided && e.decision.correlationId == id && e.decision.route == AutoApprove;
      event := Saga.FromDecision(e);
    } else {
      var e :| e in s.resolved && e.decision.correlationId == id && e.resolution.ApprovalApproved?;
      event := Saga.FromApproval(e);
    }
    SentStarts(s, event, thresholds);
  }

  lemma PaymentArises(first: Gateway, s: System, id: string, event: Saga.PaymentEvent, thresholds: AutonomyThresholds)
    returns (more: seq<Move>)
    requires PaymentAhead(first, s, id)
    requires Saga.SlotOf(s.saga, id).published == [] ==>
               && id in s.intake && SlotGood(first, id, Saga.SlotOf(s.saga, id), InvoiceOf(s, id))
               && Sent(s, event) && Starter(event, id, InvoiceOf(s, id))
    ensures Quiet(first, s, more, id, thresholds)
    ensures var after := Choreography.Run(s, more, thresholds);
            after == s.(saga := after.saga) && PaymentReported(after, id)
  {
    if Saga.SlotOf(s.saga, id).published != [] {
      more := [];
    } else {
      var moves := PaymentReports(first, s.saga, id, event, InvoiceOf(s, id));
      LiftedRun(first, s, moves, id, event, thresholds);
      more := Lifted(moves);
    }
  }

  lemma AheadStays(first: Gateway, s: System, after: System, id: string)
    requires after == s.(book := after.book, resolved := after.resolved) && s.resolved <= after.resolved
    ensures PaymentAhead(first, s, id) ==> PaymentAhead(first, after, id)
  {
    SameDecisionsSameRoutes(s, after, id);
    assert forall e <- s.resolved :: e in after.resolved;
  }

  // With a human's rejection first, where there is one ahead, and then the payment's report.
  lemma BothArise(first: Gateway, s: System, id: string, thresholds: AutonomyThresholds) returns (more: seq<Move>)
    requires Choreography.Inv(s, thresholds) && Sound(first, s, id)
    ensures Quiet(first, s, more, id, thresholds)
    ensures var after := Choreography.Run(s, more, thresholds);
            && after.decided == s.decided
            && (HumanAhead(s, id) ==> DeclinedByHuman(after, id))
            && (PaymentAhead(first, s, id) ==> PaymentReported(after, id))
  {
    more := [];
    assert id in s.book.records ==> Approval.RecordOk(s.book, id);
    if HumanAhead(s, id) {
      more := HumanDeclines(first, s, id, thresholds);
    }
    if PaymentAhead(first, s, id) {
      var middle := Choreography.Run(s, more, thresholds);
      AheadStays(first, s, middle, id);
      var event: Saga.PaymentEvent :| true;
      if Saga.SlotOf(s.saga, id).published == [] {
        event := PaymentHasTrigger(s, id, thresholds);
        SlotIsSound(first, s, id);
      }
      var second := PaymentArises(first, middle, id, event, thresholds);
      QuietAppend(first, s, more, second, id, thresholds);
      Choreography.RunAppend(s, more, second, thresholds);
      more := more + second;
    }
  }

  lemma ClashArises(first: Gateway, s: System, id: string, thresholds: AutonomyThresholds) returns (more: seq<Move>)
    requires Choreography.Inv(s, thresholds) && Sound(first, s, id) && ClashAhead(first, s, id)
    ensures Quiet(first, s, more, id, thresholds) && Clash(Choreography.Run(s, more, thresholds), id)
  {
    more := BothArise(first, s, id, thresholds);
    SameDecisionsSameRoutes(s, Choreography.Run(s, more, thresholds), id);
  }

  lemma StepKeepsAllAnswered(first: Gateway, s: System, move: Move, thresholds: AutonomyThresholds)
    requires Saga.SlotsOk(s.saga) && AllAnswered(first, s.saga) && AnsweredStep(first, s, move)
    ensures AllAnswered(first, Choreography.Step(s, move, thresholds).saga)
  {
    match move
    case PaymentWorks(m) => StepKeepsAnswered(first, s.saga, m);
    case PaymentReceives(e) => StepKeepsAnswered(first, s.saga, Saga.Deliver(e));
    case _ =>
  }

  lemma {:induction false} RunKeepsAllAnswered(first: Gateway, s: System, moves: seq<Move>,
          thresholds: AutonomyThresholds)
    requires Choreography.Inv(s, thresholds) && AllAnswered(first, s.saga) && Answered(first, s, moves, thresholds)
    ensures AllAnswered(first, Choreography.Run(s, moves, thresholds).saga)
    decreases |moves|
  {
    if moves != [] {
      Choreography.StepKeepsInv(s, moves[0], thresholds);
      StepKeepsAllAnswered(first, s, moves[0], thresholds);
      RunKeepsAllAnswered(first, Choreography.Step(s, moves[0], thresholds), moves[1..], thresholds);
    }
  }

  lemma {:induction false} RunIsSound(first: Gateway, moves: seq<Move>, thresholds: AutonomyThresholds, id: string)
    requires Answered(first, EmptySystem, moves, thresholds)
    ensures var s := Choreography.Run(EmptySystem, moves, thresholds);
            Choreography.Inv(s, thresholds) && Sound(first, s, id)
  {
    var s := Choreography.Run(EmptySystem, moves, thresholds);
    RunKeepsInv(EmptySystem, moves, thresholds);
    RunKeepsAllAnswered(first, EmptySystem, moves, thresholds);
    SlotIsForSubmission(s, id, thresholds);
    if id in s.intake {
      var intakeMoves, approvalMoves, sagaMoves := ServicesRunTheirMachines(moves, thresholds);
      Guarantees.MoneyIsAccounted(sagaMoves, InvoiceOf(s, id).department);
    }
  }

  ghost predicate ClashCanArise(first: Gateway, s: System, id: string, thresholds: AutonomyThresholds) {
    exists more :: Quiet(first, s, more, id, thresholds) && Clash(Choreography.Run(s, more, thresholds), id)
  }

  lemma ClashIsAhead(first: Gateway, s: System, id: string, thresholds: AutonomyThresholds)
    requires Choreography.Inv(s, thresholds) && Sound(first, s, id) && ClashCanArise(first, s, id, thresholds)
    ensures ClashAhead(first, s, id)
  {
    var more :| Quiet(first, s, more, id, thresholds) && Clash(Choreography.Run(s, more, thresholds), id);
    ClashWasAhead(first, Choreography.Run(s, more, thresholds), id, thresholds);
    RunBringsNoClash(first, s, more, id, thresholds);
  }

  lemma ClashWasAhead(first: Gateway, s: System, id: string, thresholds: AutonomyThresholds)
    requires Clash(s, id)
    ensures ClashAhead(first, s, id)
  {
  }

  // From every reachable state, before a gateway that answers each invoice in one way: two kinds of
  // notification can still arise for a tracking id, with no further decision sent and no other payment
  // taking money from its department, if and only if two of these hold: a decision declined it, a human
  // declined it or still can, payment reported or still can.
  lemma ClashArisesIff(first: Gateway, moves: seq<Move>, thresholds: AutonomyThresholds, id: string)
    requires Answered(first, EmptySystem, moves, thresholds)
    ensures var s := Choreography.Run(EmptySystem, moves, thresholds);
            ClashCanArise(first, s, id, thresholds) <==> ClashAhead(first, s, id)
  {
    var s := Choreography.Run(EmptySystem, moves, thresholds);
    RunIsSound(first, moves, thresholds, id);
    if ClashCanArise(first, s, id, thresholds) {
      ClashIsAhead(first, s, id, thresholds);
    }
    if ClashAhead(first, s, id) {
      var more := ClashArises(first, s, id, thresholds);
    }
  }

  // Of two decisions with different routes, one is a REJECT, or they are AUTO_APPROVE and HUMAN_REVIEW.
  lemma RoutesDiffer(s: System, id: string, thresholds: AutonomyThresholds)
    requires Choreography.Inv(s, thresholds) && !OneRoute(s, id)
    ensures RouteSent(s, id, AutoApprove) || RouteSent(s, id, HumanReview)
    ensures DeclinedByDecision(s, id) || (RouteSent(s, id, AutoApprove) && RouteSent(s, id, HumanReview))
  {
    var e, f :| e in s.decided && f in s.decided && e.decision.correlationId == id && f.decision.correlationId == id
                && e.decision.route != f.decision.route;
    assert DecidedOk(s, e, thresholds) && DecidedOk(s, f, thresholds);
    if s.intake[id].submission.isDuplicate {
      assert false;
    } else {
      RoutesExactly(e.invoice, e.recommendation, false, thresholds);
      RoutesExactly(f.invoice, f.recommendation, false, thresholds);
    }
  }

  lemma NothingResolvedYet(s: System, id: string)
    requires ApprovalsOk(s) && id !in s.book.records
    ensures !DeclinedByHuman(s, id) && !ApprovalSent(s, id)
  {
    assert forall e <- s.resolved :: ResolvedOk(s, e);
  }

  lemma {:induction false} UntouchedClash(first: Gateway, s: System, id: string, thresholds: AutonomyThresholds)
    requires Choreography.Inv(s, thresholds) && Saga.SlotOf(s.saga, id) == Saga.EmptySlot && id !in s.book.records
    ensures ClashAhead(first, s, id) <==> DisagreeingRoutes(first, s, id)
  {
    NothingResolvedYet(s, id);
    if !OneRoute(s, id) {
      RoutesDiffer(s, id, thresholds);
    }
    SentIsKnown(s, id, thresholds);
  }

  lemma SentIsKnown(s: System, id: string, thresholds: AutonomyThresholds)
    requires Choreography.Inv(s, thresholds)
    ensures RouteSent(s, id, AutoApprove) || RouteSent(s, id, HumanReview) ==> id in s.intake
  {
    forall e <- s.decided ensures e.decision.correlationId in s.intake {
      assert DecidedOk(s, e, thresholds);
    }
  }

  // Its decisions disagree on the route: a decline and a review, or its payment, if it can settle, beside
  // either.
  predicate DisagreeingRoutes(first: Gateway, s: System, id: string) {
    && !OneRoute(s, id)
    && (|| (DeclinedByDecision(s, id) && RouteSent(s, id, HumanReview))
        || (id in s.intake && CanSettle(first, s.saga, id, InvoiceOf(s, id))))
  }

  // So before Payment and Approval have touched a tracking id: exactly if its decisions disagree on the
  // route, where the payment counts if it can settle. It can, unless the gateway declines it, its amount
  // is not positive, and its department holds more than its total.
  lemma {:induction false} ClashArisesIffRoutesDiffer(first: Gateway, moves: seq<Move>,
          thresholds: AutonomyThresholds, id: string)
    requires Answered(first, EmptySystem, moves, thresholds)
    requires var s := Choreography.Run(EmptySystem, moves, thresholds);
             Saga.SlotOf(s.saga, id) == Saga.EmptySlot && id !in s.book.records
    ensures var s := Choreography.Run(EmptySystem, moves, thresholds);
            ClashCanArise(first, s, id, thresholds) <==> DisagreeingRoutes(first, s, id)
  {
    RunKeepsInv(EmptySystem, moves, thresholds);
    ClashArisesIff(first, moves, thresholds, id);
    UntouchedClash(first, Choreography.Run(EmptySystem, moves, thresholds), id, thresholds);
  }
}

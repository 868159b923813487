// The same question with everybody else at work: other invoices may be submitted, decided, approved and
// paid, and only this tracking id gets no further decision. Then even a stuck payment can be freed, by
// one that takes money from its department.
module ClashAmongOthers {
  import opened Contracts
  import opened Router
  import opened Choreography
  import opened NotificationTriggers
  import opened NotificationClash
  import opened SagaGateway
  import opened SagaProgress
  import Approval
  import Budgets = BudgetRules
  import Submissions
  import Intake = IntakeLifecycle
  import Saga = PaymentSaga

  // ---- Continuations -------------------------------------------------------------------------------

  predicate OfOthers(s: System, after: System, id: string) {
    forall e <- after.decided | e !in s.decided :: e.decision.correlationId != id
  }

  predicate AmongOthers(first: Gateway, s: System, moves: seq<Move>, id: string, thresholds: AutonomyThresholds)
    decreases |moves|
  {
    moves == [] || (&& AnsweredStep(first, s, moves[0]) && OfOthers(s, Choreography.Step(s, moves[0], thresholds), id)
                    && AmongOthers(first, Choreography.Step(s, moves[0], thresholds), moves[1..], id, thresholds))
  }

  lemma {:induction false} OthersAppend(first: Gateway, s: System, before: seq<Move>, rest: seq<Move>, id: string,
          thresholds: AutonomyThresholds)
    requires AmongOthers(first, s, before, id, thresholds)
    requires AmongOthers(first, Choreography.Run(s, before, thresholds), rest, id, thresholds)
    ensures AmongOthers(first, s, before + rest, id, thresholds)
    decreases |before|
  {
    if before == [] {
      assert before + rest == rest;
    } else {
      assert (before + rest)[0] == before[0] && (before + rest)[1..] == before[1..] + rest;
      OthersAppend(first, Choreography.Step(s, before[0], thresholds), before[1..], rest, id, thresholds);
    }
  }

  lemma {:induction false} QuietIsAmongOthers(first: Gateway, s: System, moves: seq<Move>, id: string,
          thresholds: AutonomyThresholds)
    requires Quiet(first, s, moves, id, thresholds)
    ensures AmongOthers(first, s, moves, id, thresholds)
    decreases |moves|
  {
    if moves != [] {
      QuietIsAmongOthers(first, Choreography.Step(s, moves[0], thresholds), moves[1..], id, thresholds);
    }
  }

  // ---- What is possible at all ---------------------------------------------------------------------

  predicate Underway(s: System, id: string) {
    var slot := Saga.SlotOf(s.saga, id);
    slot.record.Some? || slot.pc.Some? || RouteSent(s, id, AutoApprove) || ApprovalSent(s, id)
  }

  // Payment has reported, or still can: no terminal record whose handler died unpublished is in its way.
  predicate PaymentPossible(s: System, id: string) {
    var slot := Saga.SlotOf(s.saga, id);
    || slot.published != []
    || (&& Underway(s, id)
        && (slot.record.Some? && Saga.Terminal(slot.record.value) ==> slot.pc.Some? && slot.pc.value.Publishing?))
  }

  predicate ClashPossible(s: System, id: string) {
    || (DeclinedByDecision(s, id) && HumanAhead(s, id))
    || (DeclinedByDecision(s, id) && PaymentPossible(s, id))
    || (HumanAhead(s, id) && PaymentPossible(s, id))
  }

  // ---- Nothing becomes possible that was not -------------------------------------------------------

  lemma SagaSlotSettles(saga: Saga.Saga, move: Saga.SagaMove, id: string)
    requires Saga.SlotOk(id, Saga.SlotOf(saga, id)) && !(move.Deliver? && Saga.Concerned(move, id))
    ensures var slot, after := Saga.SlotOf(saga, id), Saga.SlotOf(Saga.Step(saga, move), id);
            && (after.published != [] ==>
                  || slot.published != []
                  || (slot.pc.Some? && slot.pc.value.Publishing? && slot.record.Some?))
            && (after.record.Some? || after.pc.Some? ==> slot.record.Some? || slot.pc.Some?)
            && (slot.record.Some? && Saga.Terminal(slot.record.value) ==>
                  && after.record == slot.record
                  && (after.pc.Some? && after.pc.value.Publishing? ==>
                        slot.pc.Some? && slot.pc.value.Publishing?))
  {
    if !Saga.Concerned(move, id) {
      Saga.OtherSparesSlot(saga, move, id);
    }
  }

  lemma WorksOpensNothing(s: System, after: System, id: string, move: Saga.SagaMove)
    requires Saga.SlotOk(id, Saga.SlotOf(s.saga, id)) && !move.Deliver?
    requires after == s.(saga := Saga.Step(s.saga, move))
    ensures PaymentPossible(after, id) ==> PaymentPossible(s, id)
  {
    SameDecisionsSameRoutes(s, after, id);
    SagaSlotSettles(s.saga, move, id);
  }

  lemma DeliveryOpensNothing(s: System, after: System, id: string, event: Saga.PaymentEvent)
    requires Saga.SlotOk(id, Saga.SlotOf(s.saga, id)) && Sent(s, event)
    requires after == s.(saga := Saga.Step(s.saga, Saga.Deliver(event)))
    ensures PaymentPossible(after, id) ==> PaymentPossible(s, id)
  {
    SameDecisionsSameRoutes(s, after, id);
    if Saga.EventDecision(event).correlationId == id && Saga.Triggers(event) {
      match event
      case FromDecision(d) => assert RouteSent(s, id, AutoApprove);
      case FromApproval(a) => assert ApprovalSent(s, id);
    } else {
      assert Saga.SlotOf(after.saga, id) == Saga.SlotOf(s.saga, id);
    }
  }

  lemma NothingPossibleFrom(s: System, after: System, id: string)
    requires after.decided == s.decided
    requires HumanAhead(after, id) ==> HumanAhead(s, id)
    requires PaymentPossible(after, id) ==> PaymentPossible(s, id)
    ensures ClashPossible(after, id) ==> ClashPossible(s, id)
  {
    SameDecisionsSameRoutes(s, after, id);
  }

  lemma ActOpensNoClash(s: System, after: System, id: string, other: string, action: Approval.Action,
          fault: Approval.Fault)
    requires ApprovalsOk(s) && ApprovalsOk(after) && after.decided == s.decided && after.saga == s.saga
    requires after.book == Approval.Step(s.book, Approval.Act(other, action, fault))
    requires after.resolved == s.resolved + ResolvedBy(s.book, other, action, fault)
    ensures ClashPossible(after, id) ==> ClashPossible(s, id)
  {
    ActKeepsHuman(s, after, id, other, action, fault);
    SameDecisionsSameRoutes(s, after, id);
    if PaymentPossible(after, id) && !PaymentPossible(s, id) {
      ActApproves(s, after, id, other, action, fault);
    }
  }

  // Decisions of others, and work at Intake.
  lemma OthersOpenNothing(s: System, after: System, id: string)
    requires OfOthers(s, after, id) && s.decided <= after.decided
    requires after.book == s.book && after.resolved == s.resolved && after.saga == s.saga
    ensures ClashPossible(after, id) ==> ClashPossible(s, id)
  {
    assert forall e <- after.decided | e.decision.correlationId == id :: e in s.decided;
  }

  lemma PaymentStepOpensNothing(s: System, move: Move, id: string, thresholds: AutonomyThresholds)
    requires Saga.SlotOk(id, Saga.SlotOf(s.saga, id)) && (move.PaymentReceives? || move.PaymentWorks?)
    ensures ClashPossible(Choreography.Step(s, move, thresholds), id) ==> ClashPossible(s, id)
  {
    var after := Choreography.Step(s, move, thresholds);
    if move.PaymentReceives? && Sent(s, move.paymentEvent) {
      DeliveryOpensNothing(s, after, id, move.paymentEvent);
      SameDecisionsSameRoutes(s, after, id);
      NothingPossibleFrom(s, after, id);
    }
    if move.PaymentWorks? && !move.sagaMove.Deliver? {
      WorksOpensNothing(s, after, id, move.sagaMove);
      SameDecisionsSameRoutes(s, after, id);
      NothingPossibleFrom(s, after, id);
    }
  }

  lemma ApprovalStepOpensNothing(s: System, move: Move, id: string, thresholds: AutonomyThresholds)
    requires ApprovalsOk(s) && ApprovalsOk(Choreography.Step(s, move, thresholds))
    requires move.ApproverActs? || move.ApprovalReceives?
    ensures ClashPossible(Choreography.Step(s, move, thresholds), id) ==> ClashPossible(s, id)
  {
    var after := Choreography.Step(s, move, thresholds);
    match move
    case ApproverActs(other, action, fault) => ActOpensNoClash(s, after, id, other, action, fault);
    case ApprovalReceives(e, fault) =>
      if e in s.decided {
        DeliveryOpensNoReview(s, after, id, e, fault);
        SameDecisionsSameRoutes(s, after, id);
        NothingPossibleFrom(s, after, id);
      }
  }

  lemma StepOpensNothing(s: System, move: Move, id: string, thresholds: AutonomyThresholds)
    requires Saga.SlotsOk(s.saga) && ApprovalsOk(s) && ApprovalsOk(Choreography.Step(s, move, thresholds))
    requires OfOthers(s, Choreography.Step(s, move, thresholds), id)
    ensures ClashPossible(Choreography.Step(s, move, thresholds), id) ==> ClashPossible(s, id)
  {
    assert Saga.SlotOk(id, Saga.SlotOf(s.saga, id));
    if move.PaymentReceives? || move.PaymentWorks? {
      PaymentStepOpensNothing(s, move, id, thresholds);
    } else if move.ApproverActs? || move.ApprovalReceives? {
      ApprovalStepOpensNothing(s, move, id, thresholds);
    } else {
      OthersOpenNothing(s, Choreography.Step(s, move, thresholds), id);
    }
  }

  lemma {:induction false} RunOpensNothing(first: Gateway, s: System, moves: seq<Move>, id: string,
          thresholds: AutonomyThresholds)
    requires Choreography.Inv(s, thresholds) && AmongOthers(first, s, moves, id, thresholds)
    ensures ClashPossible(Choreography.Run(s, moves, thresholds), id) ==> ClashPossible(s, id)
    decreases |moves|
  {
    if moves != [] {
      Choreography.StepKeepsInv(s, moves[0], thresholds);
      StepOpensNothing(s, moves[0], id, thresholds);
      RunOpensNothing(first, Choreography.Step(s, moves[0], thresholds), moves[1..], id, thresholds);
    }
  }

  // ---- Money in bounds -----------------------------------------------------------------------------

  ghost predicate TotalsNonNegative(s: System) {
    forall id <- s.intake :: InvoiceOf(s, id).total >= 0.0
  }

  // Nothing holds more than its department has in all.
  predicate WithinTotal(saga: Saga.Saga, id: string) {
    var slot := Saga.SlotOf(saga, id);
    && (slot.record.Some? && slot.record.value.status.Reserved? ==>
          && slot.record.value.department in saga.budgets
          && slot.record.value.reservedAmount <= saga.budgets[slot.record.value.department].total)
    && (slot.pc.Some? && slot.pc.value.SavingReserved? ==>
          var record := slot.pc.value.record;
          record.department in saga.budgets && record.reservedAmount <= saga.budgets[record.department].total)
  }

  ghost predicate InBounds(saga: Saga.Saga) {
    && (forall d <- saga.budgets :: saga.budgets[d].remaining <= saga.budgets[d].total)
    && (forall id <- saga.slots :: WithinTotal(saga, id))
  }

  lemma PerformInBounds(budgets: map<string, Budgets.Budget>, op: Budgets.BudgetOp)
    requires forall d <- budgets :: budgets[d].remaining <= budgets[d].total
    requires op.Reserve? ==> op.amount >= 0.0
    ensures var after := Budgets.Perform(budgets, op).0;
            && (forall d <- after :: after[d].remaining <= after[d].total)
            && (forall d <- budgets :: d in after && after[d].total == budgets[d].total)
  {
  }

  // The operation that a step performs on the budgets, if any.
  function OpOf(saga: Saga.Saga, move: Saga.SagaMove): Option<Budgets.BudgetOp> {
    match move
    case SeedBudget(department, total) => Some(Budgets.Seed(department, total))
    case Advance(id, _) =>
      (match Saga.SlotOf(saga, id).pc
       case Some(Reserving(invoice, _)) => Some(Budgets.Reserve(invoice.department, invoice.total))
       case Some(Releasing(record, _)) => Some(Budgets.Release(record.department, record.reservedAmount))
       case _ => None)
    case _ => None
  }

  lemma StepPerforms(saga: Saga.Saga, move: Saga.SagaMove)
    ensures Saga.Step(saga, move).budgets
         == match OpOf(saga, move) case Some(op) => Budgets.Perform(saga.budgets, op).0 case None => saga.budgets
  {
  }

  lemma OwnWithinTotal(saga: Saga.Saga, move: Saga.SagaMove, id: string)
    requires Saga.SlotOk(id, Saga.SlotOf(saga, id)) && WithinTotal(saga, id) && Saga.Concerned(move, id)
    requires forall d <- saga.budgets :: saga.budgets[d].remaining <= saga.budgets[d].total
    ensures WithinTotal(Saga.Step(saga, move), id)
  {
  }

  lemma StepInBounds(saga: Saga.Saga, move: Saga.SagaMove)
    requires Saga.SlotsOk(saga) && InBounds(saga)
    requires OpOf(saga, move).Some? && OpOf(saga, move).value.Reserve? ==> OpOf(saga, move).value.amount >= 0.0
    ensures InBounds(Saga.Step(saga, move))
  {
    var after := Saga.Step(saga, move);
    StepPerforms(saga, move);
    if OpOf(saga, move).Some? {
      PerformInBounds(saga.budgets, OpOf(saga, move).value);
    }
    forall id <- after.slots ensures WithinTotal(after, id) {
      assert WithinTotal(saga, id) && Saga.SlotOk(id, Saga.SlotOf(saga, id));
      if Saga.Concerned(move, id) {
        OwnWithinTotal(saga, move, id);
      } else {
        Saga.OtherSparesSlot(saga, move, id);
      }
    }
  }

  lemma ReserveIsSubmitted(s: System, move: Saga.SagaMove, thresholds: AutonomyThresholds)
    requires Choreography.Inv(s, thresholds) && TotalsNonNegative(s)
    ensures OpOf(s.saga, move).Some? && OpOf(s.saga, move).value.Reserve? ==> OpOf(s.saga, move).value.amount >= 0.0
  {
    if OpOf(s.saga, move).Some? && OpOf(s.saga, move).value.Reserve? {
      var slot := Saga.SlotOf(s.saga, move.trackingId);
      assert Saga.SlotOk(move.trackingId, slot) && SlotAuthorised(s, slot);
      AuthorityIsSubmitted(s, slot.pc.value.invoice, slot.pc.value.decision, thresholds);
      assert InvoiceOf(s, move.trackingId).total >= 0.0;
    }
  }

  lemma {:induction false} SystemStepInBounds(s: System, move: Move, thresholds: AutonomyThresholds)
    requires Choreography.Inv(s, thresholds) && TotalsNonNegative(s) && InBounds(s.saga)
    ensures InBounds(Choreography.Step(s, move, thresholds).saga)
  {
    match move
    case PaymentWorks(m) =>
      ReserveIsSubmitted(s, m, thresholds);
      StepInBounds(s.saga, m);
    case PaymentReceives(e) => StepInBounds(s.saga, Saga.Deliver(e));
    case _ =>
  }

  lemma {:induction false} SubmissionsStay(s: System, move: Move, thresholds: AutonomyThresholds)
    requires Intake.Inv(s.intake) && TotalsNonNegative(Choreography.Step(s, move, thresholds))
    ensures TotalsNonNegative(s)
  {
    match move
    case IntakeWorks(m) =>
      if !m.DecisionArrives? {
        IntakeMoveGrows(s, Choreography.Step(s, move, thresholds), m);
      }
    case IntakeReceives(e) =>
      if e in s.decided {
        IntakeMoveGrows(s, Choreography.Step(s, move, thresholds),
            Intake.DecisionArrives(e.decision.correlationId, e.decision));
      }
    case _ => SameSubmissions(s, Choreography.Step(s, move, thresholds));
  }

  lemma IntakeMoveGrows(s: System, after: System, move: Intake.IntakeMove)
    requires Intake.Inv(s.intake) && after.intake == Intake.Step(s.intake, move) && TotalsNonNegative(after)
    ensures TotalsNonNegative(s)
  {
    IntakeStepGrows(s.intake, move);
    forall id <- s.intake ensures InvoiceOf(s, id).total >= 0.0 {
      assert id in after.intake && InvoiceOf(after, id) == InvoiceOf(s, id);
    }
  }

  lemma SameSubmissions(s: System, after: System)
    requires after.intake == s.intake && TotalsNonNegative(after)
    ensures TotalsNonNegative(s)
  {
    forall id <- s.intake ensures InvoiceOf(s, id).total >= 0.0 {
      assert InvoiceOf(after, id) == InvoiceOf(s, id);
    }
  }

  lemma {:induction false} RunInBounds(moves: seq<Move>, thresholds: AutonomyThresholds)
    requires TotalsNonNegative(Choreography.Run(EmptySystem, moves, thresholds))
    ensures InBounds(Choreography.Run(EmptySystem, moves, thresholds).saga)
    decreases |moves|
  {
    if moves != [] {
      var before, last := moves[..|moves| - 1], moves[|moves| - 1];
      assert moves == before + [last];
      Choreography.RunSnoc(EmptySystem, before, last, thresholds);
      RunKeepsInv(EmptySystem, before, thresholds);
      SubmissionsStay(Choreography.Run(EmptySystem, before, thresholds), last, thresholds);
      RunInBounds(before, thresholds);
      SystemStepInBounds(Choreography.Run(EmptySystem, before, thresholds), last, thresholds);
    }
  }

  // ---- Another payment that makes room -------------------------------------------------------------

  lemma {:induction false} LongerThanAll(texts: set<string>) returns (n: nat)
    ensures forall text <- texts :: |text| < n
    decreases texts
  {
    n := 0;
    if text :| text in texts {
      var m := LongerThanAll(texts - {text});
      n := if m > |text| then m else |text| + 1;
      assert forall other <- texts :: other == text || other in texts - {text};
    }
  }

  function Filler(n: nat): (text: string)
    ensures |text| == n
  {
    seq(n, _ => 'x')
  }

  // An invoice of this amount and department that nobody has submitted, and an unused tracking id.
  function FreshInvoice(number: string, department: string, amount: real): Invoice {
    Invoice("", "", department, "", false, number, "", OtherCategory, None, [], 0.0, amount, "", false, "", None)
  }

  lemma FreshSubmission(intake: Intake.Intake, department: string, amount: real)
    returns (other: string, invoice: Invoice)
    ensures other !in intake && !Intake.KeySeen(intake, ComputeDedupKey(invoice))
    ensures invoice.department == department && invoice.total == amount && !invoice.vendorKnown
  {
    var n := LongerThanAll(intake.Keys);
    var m := LongerThanAll(set id | id in intake :: intake[id].submission.dedupKey);
    other := Filler(n);
    invoice := FreshInvoice(Filler(m), department, amount);
    assert |ComputeDedupKey(invoice)| == m + 2;
    forall id <- intake ensures intake[id].submission.dedupKey != ComputeDedupKey(invoice) {
      assert intake[id].submission.dedupKey in (set i | i in intake :: intake[i].submission.dedupKey);
    }
  }

  function ToAnnounce(other: string, invoice: Invoice): seq<Move> {
    var go := IntakeWorks(Intake.ProcessStep(other, true));
    [IntakeWorks(Intake.Submit(other, invoice)), go, go, go]
  }

  lemma {:induction false} RunFour(s: System, a: Move, b: Move, c: Move, d: Move, thresholds: AutonomyThresholds)
    ensures Choreography.Run(s, [a, b, c, d], thresholds)
         == Choreography.Step(Choreography.Step(Choreography.Step(Choreography.Step(s, a, thresholds), b, thresholds),
                c, thresholds), d, thresholds)
  {
    var none: seq<Move> := [];
    Choreography.RunSnoc(s, none, a, thresholds);
    Choreography.RunSnoc(s, [a], b, thresholds);
    Choreography.RunSnoc(s, [a, b], c, thresholds);
    Choreography.RunSnoc(s, [a, b, c], d, thresholds);
    assert none + [a] == [a] && [a] + [b] == [a, b] && [a, b] + [c] == [a, b, c] && [a, b, c] + [d] == [a, b, c, d];
  }

  lemma OthersFour(first: Gateway, s: System, a: Move, b: Move, c: Move, d: Move, id: string,
          thresholds: AutonomyThresholds)
    requires var one := Choreography.Step(s, a, thresholds);
             var two := Choreography.Step(one, b, thresholds);
             var three := Choreography.Step(two, c, thresholds);
             && AnsweredStep(first, s, a) && OfOthers(s, one, id)
             && AnsweredStep(first, one, b) && OfOthers(one, two, id)
             && AnsweredStep(first, two, c) && OfOthers(two, three, id)
             && AnsweredStep(first, three, d) && OfOthers(three, Choreography.Step(three, d, thresholds), id)
    ensures AmongOthers(first, s, [a, b, c, d], id, thresholds)
  {
    assert [a, b, c, d][1..] == [b, c, d] && [b, c, d][1..] == [c, d] && [c, d][1..] == [d] && [d][1..] == [];
    var one := Choreography.Step(s, a, thresholds);
    var two := Choreography.Step(one, b, thresholds);
    var three := Choreography.Step(two, c, thresholds);
    assert AmongOthers(first, Choreography.Step(three, d, thresholds), [], id, thresholds);
    assert AmongOthers(first, three, [d], id, thresholds);
    assert AmongOthers(first, two, [c, d], id, thresholds);
    assert AmongOthers(first, one, [b, c, d], id, thresholds);
  }

  // Everything of this tracking id is where it was.
  predicate Spared(s: System, after: System, id: string) {
    && (id in s.intake ==> id in after.intake && InvoiceOf(after, id) == InvoiceOf(s, id))
    && (id in after.book.records <==> id in s.book.records)
    && (id in s.book.records ==> after.book.records[id] == s.book.records[id])
    && s.decided <= after.decided && s.resolved <= after.resolved
    && Saga.SlotOf(after.saga, id) == Saga.SlotOf(s.saga, id)
  }

  lemma Announces(first: Gateway, s: System, other: string, invoice: Invoice, id: string,
          thresholds: AutonomyThresholds)
    requires other !in s.intake && !Intake.KeySeen(s.intake, ComputeDedupKey(invoice)) && id in s.intake
    ensures AmongOthers(first, s, ToAnnounce(other, invoice), id, thresholds)
    ensures var after := Choreography.Run(s, ToAnnounce(other, invoice), thresholds);
            && after == s.(intake := after.intake, submitted := after.submitted)
            && after.intake.Keys == s.intake.Keys + {other} && after.intake[id] == s.intake[id]
            && InvoiceSubmittedEvent(invoice, other) in after.submitted
  {
    var go := IntakeWorks(Intake.ProcessStep(other, true));
    var submit := IntakeWorks(Intake.Submit(other, invoice));
    var one := Choreography.Step(s, submit, thresholds);
    var two := Choreography.Step(one, go, thresholds);
    var three := Choreography.Step(two, go, thresholds);
    var submission := Intake.NewSubmission(s.intake, other, invoice);
    assert one.intake[other] == Intake.Slot(submission, Intake.Queued, None, false);
    assert two.intake[other].process == Intake.SavingProcessing(submission.(status := Submissions.Processing));
    assert three.intake[other].process == Intake.PublishingInvoice(submission);
    RunFour(s, submit, go, go, go, thresholds);
    OthersFour(first, s, submit, go, go, go, id, thresholds);
  }

  function HumanAnswer(other: string, invoice: Invoice, thresholds: AutonomyThresholds): DecisionCompletedEvent {
    var (route, rules) := RouteOf(invoice, None, false, thresholds);
    DecisionCompletedEvent(invoice, Decision(route, "", rules, other), None)
  }

  function ApprovalOf(e: DecisionCompletedEvent): ApprovalCompletedEvent {
    ApprovalCompletedEvent(e.invoice, e.decision, ApprovalApproved)
  }

  function ToApprove(other: string, invoice: Invoice, thresholds: AutonomyThresholds): seq<Move> {
    var answer := HumanAnswer(other, invoice, thresholds);
    [DecisionAnswers(InvoiceSubmittedEvent(invoice, other), answer), ApprovalReceives(answer, Approval.NoFault),
     ApproverActs(other, Approval.Approve, Approval.NoFault), PaymentReceives(Saga.FromApproval(ApprovalOf(answer)))]
  }

  lemma NobodyDecidesUnknown(invoice: Invoice, thresholds: AutonomyThresholds)
    requires !invoice.vendorKnown
    ensures RouteOf(invoice, None, false, thresholds).0 == HumanReview
  {
    RoutesExactly(invoice, None, false, thresholds);
  }

  // Answered by a review, approved, and delivered to Payment.
  lemma Approves(first: Gateway, s: System, other: string, invoice: Invoice, id: string,
          thresholds: AutonomyThresholds)
    requires InvoiceSubmittedEvent(invoice, other) in s.submitted && !invoice.vendorKnown && other != id
    requires other !in s.book.records && Saga.SlotOf(s.saga, other) == Saga.EmptySlot
    ensures AmongOthers(first, s, ToApprove(other, invoice, thresholds), id, thresholds)
    ensures var after := Choreography.Run(s, ToApprove(other, invoice, thresholds), thresholds);
            && Spared(s, after, id) && OfOthers(s, after, id) && after.intake == s.intake
            && (forall e <- after.resolved | e !in s.resolved :: e.decision.correlationId == other)
            && after.saga.budgets == s.saga.budgets
            && Saga.SlotOf(after.saga, other).record.None?
            && Saga.SlotOf(after.saga, other).pc
               == Some(Saga.Fetching(invoice, HumanAnswer(other, invoice, thresholds).decision))
  {
    var answer := HumanAnswer(other, invoice, thresholds);
    var m := ToApprove(other, invoice, thresholds);
    NobodyDecidesUnknown(invoice, thresholds);
    var one := Choreography.Step(s, m[0], thresholds);
    var two := Choreography.Step(one, m[1], thresholds);
    var three := Choreography.Step(two, m[2], thresholds);
    assert one == s.(decided := s.decided + {answer});
    assert two.book.records == s.book.records[other := Approval.Escalated(answer)];
    assert ResolvedBy(two.book, other, Approval.Approve, Approval.NoFault) == {ApprovalOf(answer)};
    assert three.resolved == s.resolved + {ApprovalOf(answer)};
    RunFour(s, m[0], m[1], m[2], m[3], thresholds);
    OthersFour(first, s, m[0], m[1], m[2], m[3], id, thresholds);
  }

  // Its handler reads and reserves.
  lemma Spends(first: Gateway, s: System, other: string, invoice: Invoice, decision: Decision, id: string,
          thresholds: AutonomyThresholds)
    requires var slot := Saga.SlotOf(s.saga, other);
             slot.pc == Some(Saga.Fetching(invoice, decision)) && slot.record.None?
    requires other != id && invoice.department in s.saga.budgets
    requires invoice.total <= s.saga.budgets[invoice.department].remaining
    ensures var go := PaymentWorks(Saga.Advance(other, Saga.Accepted));
            var after := Choreography.Run(s, [go, go], thresholds);
            && AmongOthers(first, s, [go, go], id, thresholds)
            && after == s.(saga := after.saga) && Spared(s, after, id)
            && invoice.department in after.saga.budgets
            && after.saga.budgets[invoice.department].total == s.saga.budgets[invoice.department].total
            && after.saga.budgets[invoice.department].remaining
               == s.saga.budgets[invoice.department].remaining - invoice.total
  {
    var go := PaymentWorks(Saga.Advance(other, Saga.Accepted));
    var none: seq<Move> := [];
    Choreography.RunSnoc(s, none, go, thresholds);
    Choreography.RunSnoc(s, [go], go, thresholds);
    assert none + [go] == [go] && [go] + [go] == [go, go] && [go, go][1..] == [go] && [go][1..] == [];
    var one := Choreography.Step(s, go, thresholds);
    assert Saga.SlotOf(one.saga, other).pc == Some(Saga.Reserving(invoice, decision));
    var two := Choreography.Step(one, go, thresholds);
    assert AmongOthers(first, two, [], id, thresholds);
    assert AmongOthers(first, one, [go], id, thresholds);
  }

  lemma ReviewedIsKnown(s: System, other: string, thresholds: AutonomyThresholds)
    requires Choreography.Inv(s, thresholds) && other in s.book.records
    ensures other in s.intake
  {
    var record := s.book.records[other];
    assert DecisionSent(s, record.invoice, record.decision) && Approval.RecordOk(s.book, other);
    var e :| e in s.decided && e.invoice == record.invoice && e.decision == record.decision;
    assert DecidedOk(s, e, thresholds);
  }

  lemma StartedIsKnown(s: System, other: string, thresholds: AutonomyThresholds)
    requires Choreography.Inv(s, thresholds)
    requires Saga.SlotOf(s.saga, other).record.Some? || Saga.SlotOf(s.saga, other).pc.Some?
    ensures other in s.intake
  {
    var event := PaymentHasTrigger(s, other, thresholds);
  }

  lemma UnknownIsUntouched(s: System, other: string, thresholds: AutonomyThresholds)
    requires Choreography.Inv(s, thresholds) && other !in s.intake
    ensures other !in s.book.records && Saga.SlotOf(s.saga, other) == Saga.EmptySlot
  {
    var slot := Saga.SlotOf(s.saga, other);
    assert Saga.SlotOk(other, slot);
    if other in s.book.records {
      ReviewedIsKnown(s, other, thresholds);
    }
    if slot.record.Some? || slot.pc.Some? {
      StartedIsKnown(s, other, thresholds);
    }
  }

  lemma SparedTwice(s: System, middle: System, after: System, id: string)
    requires Spared(s, middle, id) && Spared(middle, after, id)
    ensures Spared(s, after, id)
  {
  }

  // A new invoice is submitted, reviewed, approved, and takes this much from the department.
  lemma SomebodyElseSpends(first: Gateway, s: System, id: string, department: string, amount: real,
          thresholds: AutonomyThresholds)
    returns (more: seq<Move>)
    requires Choreography.Inv(s, thresholds) && id in s.intake
    requires department in s.saga.budgets && amount <= s.saga.budgets[department].remaining
    ensures AmongOthers(first, s, more, id, thresholds)
    ensures var after := Choreography.Run(s, more, thresholds);
            && Spared(s, after, id)
            && department in after.saga.budgets
            && after.saga.budgets[department].total == s.saga.budgets[department].total
            && after.saga.budgets[department].remaining == s.saga.budgets[department].remaining - amount
  {
    var other, invoice := FreshSubmission(s.intake, department, amount);
    UnknownIsUntouched(s, other, thresholds);
    var announce, approve := ToAnnounce(other, invoice), ToApprove(other, invoice, thresholds);
    var go := PaymentWorks(Saga.Advance(other, Saga.Accepted));
    Announces(first, s, other, invoice, id, thresholds);
    var announced := Choreography.Run(s, announce, thresholds);
    Approves(first, announced, other, invoice, id, thresholds);
    OthersAppend(first, s, announce, approve, id, thresholds);
    Choreography.RunAppend(s, announce, approve, thresholds);
    var approved := Choreography.Run(s, announce + approve, thresholds);
    Spends(first, approved, other, invoice, HumanAnswer(other, invoice, thresholds).decision, id, thresholds);
    OthersAppend(first, s, announce + approve, [go, go], id, thresholds);
    Choreography.RunAppend(s, announce + approve, [go, go], thresholds);
    more := announce + approve + [go, go];
    SparedTwice(s, announced, approved, id);
    SparedTwice(s, approved, Choreography.Run(s, more, thresholds), id);
  }

  // ---- What is possible can be brought about -------------------------------------------------------

  // Its RESERVED record is declined, and its release would be refused.
  predicate Stranded(first: Gateway, s: System, id: string) {
    var slot := Saga.SlotOf(s.saga, id);
    && slot.record.Some? && slot.record.value.status.Reserved?
    && id in s.intake && !CanReport(first, s.saga, id, InvoiceOf(s, id))
  }

  lemma PossibleIsAhead(first: Gateway, s: System, id: string, thresholds: AutonomyThresholds)
    requires Choreography.Inv(s, thresholds) && InBounds(s.saga)
    requires PaymentPossible(s, id) && !Stranded(first, s, id)
    ensures PaymentAhead(first, s, id)
  {
    if Saga.SlotOf(s.saga, id).published == [] {
      var event := PaymentHasTrigger(s, id, thresholds);
    }
  }

  lemma SparedStaysPossible(first: Gateway, s: System, after: System, id: string)
    requires Spared(s, after, id)
    ensures DeclinedByDecision(s, id) ==> DeclinedByDecision(after, id)
    ensures HumanAhead(s, id) ==> HumanAhead(after, id)
  {
    if DeclinedByDecision(s, id) {
      var e :| e in s.decided && e.decision.correlationId == id && e.decision.route in {Reject, Duplicate};
      assert e in after.decided;
    }
    if RouteSent(s, id, HumanReview) {
      var e :| e in s.decided && e.decision.correlationId == id && e.decision.route == HumanReview;
      assert e in after.decided;
    }
    if DeclinedByHuman(s, id) {
      var e :| e in s.resolved && e.decision.correlationId == id && e.resolution.ApprovalRejected?;
      assert e in after.resolved;
    }
  }

  lemma RoomIsMade(first: Gateway, s: System, id: string, thresholds: AutonomyThresholds) returns (more: seq<Move>)
    requires Choreography.Inv(s, thresholds) && Sound(first, s, id) && InBounds(s.saga) && Stranded(first, s, id)
    ensures AmongOthers(first, s, more, id, thresholds)
    ensures Spared(s, Choreography.Run(s, more, thresholds), id)
    ensures PaymentAhead(first, Choreography.Run(s, more, thresholds), id)
  {
    var slot, invoice := Saga.SlotOf(s.saga, id), InvoiceOf(s, id);
    SlotIsSound(first, s, id);
    assert WithinTotal(s.saga, id);
    var budget := s.saga.budgets[invoice.department];
    more := SomebodyElseSpends(first, s, id, invoice.department, budget.remaining + invoice.total - budget.total,
        thresholds);
  }

  lemma {:induction false} OthersAreAnswered(first: Gateway, s: System, more: seq<Move>, id: string,
          thresholds: AutonomyThresholds)
    requires AmongOthers(first, s, more, id, thresholds)
    ensures Answered(first, s, more, thresholds)
    decreases |more|
  {
    if more != [] {
      OthersAreAnswered(first, Choreography.Step(s, more[0], thresholds), more[1..], id, thresholds);
    }
  }

  lemma {:induction false} AnsweredAppend(first: Gateway, s: System, before: seq<Move>, rest: seq<Move>,
          thresholds: AutonomyThresholds)
    requires Answered(first, s, before, thresholds)
    requires Answered(first, Choreography.Run(s, before, thresholds), rest, thresholds)
    ensures Answered(first, s, before + rest, thresholds)
    decreases |before|
  {
    if before == [] {
      assert before + rest == rest;
    } else {
      assert (before + rest)[0] == before[0] && (before + rest)[1..] == before[1..] + rest;
      AnsweredAppend(first, Choreography.Step(s, before[0], thresholds), before[1..], rest, thresholds);
    }
  }

  lemma ReachedIsSound(first: Gateway, moves: seq<Move>, more: seq<Move>, thresholds: AutonomyThresholds, id: string)
    requires Answered(first, EmptySystem, moves, thresholds)
    requires AmongOthers(first, Choreography.Run(EmptySystem, moves, thresholds), more, id, thresholds)
    ensures var after := Choreography.Run(Choreography.Run(EmptySystem, moves, thresholds), more, thresholds);
            Choreography.Inv(after, thresholds) && Sound(first, after, id)
  {
    OthersAreAnswered(first, Choreography.Run(EmptySystem, moves, thresholds), more, id, thresholds);
    AnsweredAppend(first, EmptySystem, moves, more, thresholds);
    Choreography.RunAppend(EmptySystem, moves, more, thresholds);
    RunIsSound(first, moves + more, thresholds, id);
  }

  // First room, where it is needed, and then the clash.
  lemma PossibleArises(first: Gateway, moves: seq<Move>, thresholds: AutonomyThresholds, id: string)
    returns (more: seq<Move>)
    requires Answered(first, EmptySystem, moves, thresholds)
    requires TotalsNonNegative(Choreography.Run(EmptySystem, moves, thresholds))
    requires ClashPossible(Choreography.Run(EmptySystem, moves, thresholds), id)
    ensures var s := Choreography.Run(EmptySystem, moves, thresholds);
            AmongOthers(first, s, more, id, thresholds) && Clash(Choreography.Run(s, more, thresholds), id)
  {
    var s := Choreography.Run(EmptySystem, moves, thresholds);
    RunIsSound(first, moves, thresholds, id);
    RunInBounds(moves, thresholds);
    more := [];
    if Stranded(first, s, id) {
      more := RoomIsMade(first, s, id, thresholds);
      SparedStaysPossible(first, s, Choreography.Run(s, more, thresholds), id);
    } else if PaymentPossible(s, id) {
      PossibleIsAhead(first, s, id, thresholds);
    }
    var middle := Choreography.Run(s, more, thresholds);
    ReachedIsSound(first, moves, more, thresholds, id);
    var rest := ClashArises(first, middle, id, thresholds);
    QuietIsAmongOthers(first, middle, rest, id, thresholds);
    OthersAppend(first, s, more, rest, id, thresholds);
    Choreography.RunAppend(s, more, rest, thresholds);
    more := more + rest;
  }

  ghost predicate ClashCanCome(first: Gateway, s: System, id: string, thresholds: AutonomyThresholds) {
    exists more :: AmongOthers(first, s, more, id, thresholds) && Clash(Choreography.Run(s, more, thresholds), id)
  }

  lemma ClashWasPossible(first: Gateway, s: System, id: string, thresholds: AutonomyThresholds)
    requires Choreography.Inv(s, thresholds) && ClashCanCome(first, s, id, thresholds)
    ensures ClashPossible(s, id)
  {
    var more :| AmongOthers(first, s, more, id, thresholds) && Clash(Choreography.Run(s, more, thresholds), id);
    RunKeepsInv(s, more, thresholds);
    ReportedIsPossible(Choreography.Run(s, more, thresholds), id);
    RunOpensNothing(first, s, more, id, thresholds);
  }

  lemma ReportedIsPossible(s: System, id: string)
    requires Clash(s, id)
    ensures ClashPossible(s, id)
  {
  }

  // From every reachable state, before a gateway that answers each invoice in one way and with no negative
  // totals submitted: two kinds of notification can still arise for a tracking id, with no further decision
  // sent for it and everything else going on, if and only if two of these hold: a decision declined it, a
  // human declined it or still can, its payment has reported or is under way and not lost unpublished.
  lemma ClashComesIff(first: Gateway, moves: seq<Move>, thresholds: AutonomyThresholds, id: string)
    requires Answered(first, EmptySystem, moves, thresholds)
    requires TotalsNonNegative(Choreography.Run(EmptySystem, moves, thresholds))
    ensures var s := Choreography.Run(EmptySystem, moves, thresholds);
            ClashCanCome(first, s, id, thresholds) <==> ClashPossible(s, id)
  {
    var s := Choreography.Run(EmptySystem, moves, thresholds);
    RunKeepsInv(EmptySystem, moves, thresholds);
    if ClashCanCome(first, s, id, thresholds) {
      ClashWasPossible(first, s, id, thresholds);
    }
    if ClashPossible(s, id) {
      var more := PossibleArises(first, moves, thresholds, id);
    }
  }
}

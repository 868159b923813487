// Whether Intake, Approval and Payment hold the same decision of a tracking id. Intake completes with the
// first it receives, Approval keeps the first that escalates, Payment the one it was started by; and the
// Decision service may answer one submission twice.
module DecisionAgreement {
  import opened Contracts
  import opened Router
  import opened Choreography
  import Intake = IntakeLifecycle
  import Approval
  import Saga = PaymentSaga

  predicate WasSent(s: System, id: string, decision: Decision) {
    exists e <- s.decided :: e.decision == decision && e.decision.correlationId == id
  }

  // ---- What each service holds was sent ------------------------------------------------------------

  // Intake's own decision of a duplicate needs no event.
  predicate HeldBy(s: System, id: string, isDuplicate: bool, decision: Decision) {
    WasSent(s, id, decision) || (isDuplicate && decision == BuildDuplicateDecision(id))
  }

  ghost predicate SlotHolds(s: System, id: string)
    requires id in s.intake
  {
    var slot := s.intake[id];
    && Intake.SlotOk(id, slot)
    && (slot.submission.decision.Some? ==> HeldBy(s, id, slot.submission.isDuplicate, slot.submission.decision.value))
    && (slot.completing.Some? ==>
          match slot.completing.value
          case Checking(decision) => HeldBy(s, id, slot.submission.isDuplicate, decision)
          case SavingCompleted(next) =>
            next.decision.Some? && HeldBy(s, id, slot.submission.isDuplicate, next.decision.value))
  }

  ghost predicate AllHold(s: System) {
    forall id <- s.intake :: SlotHolds(s, id)
  }

  lemma MoveHolds(s: System, after: System, move: Intake.IntakeMove, id: string)
    requires id in s.intake && SlotHolds(s, id) && s.decided <= after.decided
    requires after.intake == Intake.Step(s.intake, move)
    requires move.DecisionArrives? && move.trackingId == id ==> WasSent(after, id, move.decision)
    ensures SlotHolds(after, id)
  {
    assert forall decision :: WasSent(s, id, decision) ==> WasSent(after, id, decision);
    Intake.MoveKeepsSlot(id, s.intake[id], move);
  }

  lemma IntakeMoveHolds(s: System, after: System, move: Intake.IntakeMove)
    requires AllHold(s) && s.decided <= after.decided && after.intake == Intake.Step(s.intake, move)
    requires move.DecisionArrives? ==> WasSent(after, move.trackingId, move.decision)
    ensures AllHold(after)
  {
    forall id <- after.intake ensures SlotHolds(after, id) {
      if id in s.intake {
        assert SlotHolds(s, id);
        MoveHolds(s, after, move, id);
      } else {
        Intake.NewSlotOk(s.intake, id, move.invoice);
      }
    }
  }

  lemma OtherMoveHolds(s: System, after: System)
    requires AllHold(s) && s.decided <= after.decided && after.intake == s.intake
    ensures AllHold(after)
  {
    forall id <- after.intake ensures SlotHolds(after, id) {
      assert SlotHolds(s, id);
      assert forall decision :: WasSent(s, id, decision) ==> WasSent(after, id, decision);
    }
  }

  lemma StepHolds(s: System, move: Move, thresholds: AutonomyThresholds)
    requires AllHold(s)
    ensures AllHold(Choreography.Step(s, move, thresholds))
  {
    var after := Choreography.Step(s, move, thresholds);
    match move
    case IntakeWorks(m) =>
      if !m.DecisionArrives? {
        IntakeMoveHolds(s, after, m);
      }
    case IntakeReceives(e) =>
      if e in s.decided {
        IntakeMoveHolds(s, after, Intake.DecisionArrives(e.decision.correlationId, e.decision));
      }
    case _ => OtherMoveHolds(s, after);
  }

  lemma {:induction false} RunHolds(s: System, moves: seq<Move>, thresholds: AutonomyThresholds)
    requires AllHold(s)
    ensures AllHold(Choreography.Run(s, moves, thresholds))
    decreases |moves|
  {
    if moves != [] {
      StepHolds(s, moves[0], thresholds);
      RunHolds(Choreography.Step(s, moves[0], thresholds), moves[1..], thresholds);
    }
  }

  // ---- Agreement -----------------------------------------------------------------------------------

  // The decisions of this tracking id that are stored anywhere.
  predicate Holds(s: System, id: string, decision: Decision) {
    || (id in s.intake && s.intake[id].submission.decision == Some(decision))
    || (id in s.book.records && s.book.records[id].decision == decision)
    || (Saga.SlotOf(s.saga, id).record.Some? && Saga.SlotOf(s.saga, id).record.value.decision == decision)
  }

  ghost predicate Agreed(s: System, id: string) {
    forall a, b | Holds(s, id, a) && Holds(s, id, b) :: a == b
  }

  lemma RecordsWereSent(s: System, id: string, decision: Decision, thresholds: AutonomyThresholds)
    requires Choreography.Inv(s, thresholds)
    requires || (id in s.book.records && s.book.records[id].decision == decision)
             || (Saga.SlotOf(s.saga, id).record.Some? && Saga.SlotOf(s.saga, id).record.value.decision == decision)
    ensures WasSent(s, id, decision) && decision.route in {AutoApprove, HumanReview}
    ensures id in s.intake && !s.intake[id].submission.isDuplicate
  {
    if id in s.book.records && s.book.records[id].decision == decision {
      assert Approval.RecordOk(s.book, id) && DecisionSent(s, s.book.records[id].invoice, decision);
      var e :| e in s.decided && e.invoice == s.book.records[id].invoice && e.decision == decision;
      EscalatedIsOriginal(s, e, thresholds);
    } else {
      var record := Saga.SlotOf(s.saga, id).record.value;
      assert Saga.SlotOk(id, s.saga.slots[id]) && SlotAuthorised(s, s.saga.slots[id]);
      AuthorisedMeans(s, record.invoice, record.decision, thresholds);
      var e :| e in s.decided && e.invoice == record.invoice && e.decision == record.decision;
      EscalatedIsOriginal(s, e, thresholds);
    }
  }

  lemma EscalatedIsOriginal(s: System, e: DecisionCompletedEvent, thresholds: AutonomyThresholds)
    requires Choreography.Inv(s, thresholds) && e in s.decided && e.decision.route in {AutoApprove, HumanReview}
    ensures var id := e.decision.correlationId;
            id in s.intake && !s.intake[id].submission.isDuplicate
  {
    assert DecidedOk(s, e, thresholds);
  }

  // Two answers to one submission, of which Payment or Approval can take up the second.
  predicate Divided(s: System, id: string) {
    exists e, f | e in s.decided && f in s.decided ::
      && e.decision.correlationId == id && f.decision.correlationId == id && e.decision != f.decision
      && f.decision.route in {AutoApprove, HumanReview}
  }

  lemma DisagreementIsDivided(s: System, id: string, a: Decision, b: Decision, thresholds: AutonomyThresholds)
    requires Choreography.Inv(s, thresholds) && AllHold(s)
    requires Holds(s, id, a) && Holds(s, id, b) && a != b
    ensures Divided(s, id)
  {
    if id in s.intake && s.intake[id].submission.decision == Some(b) {
      DividedBy(s, id, b, a, thresholds);
    } else {
      DividedBy(s, id, a, b, thresholds);
    }
  }

  lemma DividedBy(s: System, id: string, a: Decision, b: Decision, thresholds: AutonomyThresholds)
    requires Choreography.Inv(s, thresholds) && AllHold(s)
    requires Holds(s, id, a) && a != b
    requires || (id in s.book.records && s.book.records[id].decision == b)
             || (Saga.SlotOf(s.saga, id).record.Some? && Saga.SlotOf(s.saga, id).record.value.decision == b)
    ensures Divided(s, id)
  {
    RecordsWereSent(s, id, b, thresholds);
    if id in s.intake && s.intake[id].submission.decision == Some(a) {
      assert SlotHolds(s, id);
    } else {
      RecordsWereSent(s, id, a, thresholds);
    }
    var e :| e in s.decided && e.decision == a && e.decision.correlationId == id;
    var f :| f in s.decided && f.decision == b && f.decision.correlationId == id;
  }

  // In every run, two services hold different decisions of a tracking id only if two were sent, one of
  // which can be paid or escalated.
  lemma ServicesAgreeUnlessDivided(moves: seq<Move>, thresholds: AutonomyThresholds, id: string)
    requires !Divided(Choreography.Run(EmptySystem, moves, thresholds), id)
    ensures Agreed(Choreography.Run(EmptySystem, moves, thresholds), id)
  {
    var s := Choreography.Run(EmptySystem, moves, thresholds);
    RunKeepsInv(EmptySystem, moves, thresholds);
    RunHolds(EmptySystem, moves, thresholds);
    forall a, b | Holds(s, id, a) && Holds(s, id, b) ensures a == b {
      if a != b {
        DisagreementIsDivided(s, id, a, b, thresholds);
      }
    }
  }

  // ---- And then they can come to disagree ----------------------------------------------------------

  // No decision of it has been taken up yet.
  predicate Undecided(s: System, id: string) {
    && (id in s.intake ==> s.intake[id].submission.decision.None? && s.intake[id].completing.None?)
    && id !in s.book.records && Saga.SlotOf(s.saga, id) == Saga.EmptySlot
  }

  function ToComplete(e: DecisionCompletedEvent): seq<Move> {
    var go := IntakeWorks(Intake.CompleteStep(e.decision.correlationId));
    [IntakeReceives(e), go, go]
  }

  lemma RunThree(s: System, a: Move, b: Move, c: Move, thresholds: AutonomyThresholds)
    ensures Choreography.Run(s, [a, b, c], thresholds)
         == Choreography.Step(Choreography.Step(Choreography.Step(s, a, thresholds), b, thresholds), c, thresholds)
  {
    var none: seq<Move> := [];
    Choreography.RunSnoc(s, none, a, thresholds);
    Choreography.RunSnoc(s, [a], b, thresholds);
    Choreography.RunSnoc(s, [a, b], c, thresholds);
    assert none + [a] == [a] && [a] + [b] == [a, b] && [a, b] + [c] == [a, b, c];
  }

  lemma IntakeCompletes(s: System, e: DecisionCompletedEvent, thresholds: AutonomyThresholds)
    requires e in s.decided
    requires var id := e.decision.correlationId;
             && id in s.intake && s.intake[id].announced && s.intake[id].completing.None?
             && !s.intake[id].submission.status.Completed?
    ensures var id := e.decision.correlationId;
            var after := Choreography.Run(s, ToComplete(e), thresholds);
            && after == s.(intake := after.intake) && Holds(after, id, e.decision)
  {
    var go := IntakeWorks(Intake.CompleteStep(e.decision.correlationId));
    RunThree(s, IntakeReceives(e), go, go, thresholds);
  }

  function ToRecord(f: DecisionCompletedEvent): seq<Move> {
    var go := PaymentWorks(Saga.Advance(f.decision.correlationId, Saga.Accepted));
    if f.decision.route == HumanReview then [ApprovalReceives(f, Approval.NoFault)]
    else [PaymentReceives(Saga.FromDecision(f)), go, go] + [go]
  }

  lemma PaymentRecords(s: System, f: DecisionCompletedEvent, thresholds: AutonomyThresholds)
    requires f in s.decided && f.decision.route == AutoApprove
    requires Saga.SlotOf(s.saga, f.decision.correlationId) == Saga.EmptySlot
    ensures var after := Choreography.Run(s, ToRecord(f), thresholds);
            && after == s.(saga := after.saga) && Holds(after, f.decision.correlationId, f.decision)
  {
    var go := PaymentWorks(Saga.Advance(f.decision.correlationId, Saga.Accepted));
    var begin := [PaymentReceives(Saga.FromDecision(f)), go, go];
    RunThree(s, begin[0], go, go, thresholds);
    Choreography.RunSnoc(s, begin, go, thresholds);
  }

  lemma ApprovalRecords(s: System, f: DecisionCompletedEvent, thresholds: AutonomyThresholds)
    requires f in s.decided && f.decision.route == HumanReview && f.decision.correlationId !in s.book.records
    ensures var after := Choreography.Run(s, ToRecord(f), thresholds);
            && after == s.(book := after.book) && Holds(after, f.decision.correlationId, f.decision)
  {
    var none: seq<Move> := [];
    Choreography.RunSnoc(s, none, ApprovalReceives(f, Approval.NoFault), thresholds);
    assert none + ToRecord(f) == ToRecord(f);
  }

  lemma DividedComesApart(s: System, id: string, thresholds: AutonomyThresholds) returns (more: seq<Move>)
    requires Choreography.Inv(s, thresholds) && Undecided(s, id) && Divided(s, id)
    ensures var after := Choreography.Run(s, more, thresholds);
            after.decided == s.decided && !Agreed(after, id)
  {
    var e, f :| e in s.decided && f in s.decided
        && e.decision.correlationId == id && f.decision.correlationId == id && e.decision != f.decision
        && f.decision.route in {AutoApprove, HumanReview};
    assert DecidedOk(s, e, thresholds) && Intake.SlotOk(id, s.intake[id]);
    IntakeCompletes(s, e, thresholds);
    var middle := Choreography.Run(s, ToComplete(e), thresholds);
    if f.decision.route == HumanReview {
      ApprovalRecords(middle, f, thresholds);
    } else {
      PaymentRecords(middle, f, thresholds);
    }
    more := ToComplete(e) + ToRecord(f);
    Choreography.RunAppend(s, ToComplete(e), ToRecord(f), thresholds);
    var after := Choreography.Run(s, more, thresholds);
    assert Holds(after, id, e.decision) && Holds(after, id, f.decision);
  }

  ghost predicate ComesApart(s: System, more: seq<Move>, id: string, thresholds: AutonomyThresholds) {
    var after := Choreography.Run(s, more, thresholds);
    after.decided == s.decided && !Agreed(after, id)
  }

  // From every reachable state in which no decision of a tracking id has been taken up: with no further
  // decision sent, two services can come to hold different ones if and only if two different decisions
  // were sent, one of which can be paid or escalated.
  lemma ServicesDisagreeIffDivided(moves: seq<Move>, thresholds: AutonomyThresholds, id: string)
    requires Undecided(Choreography.Run(EmptySystem, moves, thresholds), id)
    ensures var s := Choreography.Run(EmptySystem, moves, thresholds);
            (exists more :: ComesApart(s, more, id, thresholds)) <==> Divided(s, id)
  {
    var s := Choreography.Run(EmptySystem, moves, thresholds);
    RunKeepsInv(EmptySystem, moves, thresholds);
    if more :| ComesApart(s, more, id, thresholds) {
      Choreography.RunAppend(EmptySystem, moves, more, thresholds);
      if !Divided(s, id) {
        ServicesAgreeUnlessDivided(moves + more, thresholds, id);
      }
    }
    if Divided(s, id) {
      var more := DividedComesApart(s, id, thresholds);
      assert ComesApart(s, more, id, thresholds);
    }
  }
}

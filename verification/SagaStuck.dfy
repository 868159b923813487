// The resume point of services/payment/models.py:25-29 and its exact limit: a RESERVED record whose
// invoice the gateway declines is stuck while its release would be refused as corruption.
module SagaStuck {
  import opened Contracts
  import opened BudgetRules
  import opened PaymentSaga
  import opened SagaGuarantees
  import opened SagaGateway
  import opened SagaProgress

  // No other payment takes money from the department, at any point.
  predicate NothingTaken(saga: Saga, moves: seq<SagaMove>, id: string, department: string)
    decreases |moves|
  {
    moves == [] || (!Takes(saga, moves[0], id, department) && NothingTaken(Step(saga, moves[0]), moves[1..], id,
        department))
  }

  ghost predicate CanBeSettled(first: Gateway, saga: Saga, id: string, department: string) {
    exists more ::
      && AnsweredRun(first, saga, more) && NothingTaken(saga, more, id, department)
      && SettledIn(Run(saga, more), id)
  }

  predicate SettledIn(saga: Saga, id: string) {
    SlotOf(saga, id).record.Some? && Terminal(SlotOf(saga, id).record.value)
  }

  lemma {:induction false} OwnRun(first: Gateway, saga: Saga, moves: seq<SagaMove>, id: string, event: PaymentEvent,
          invoice: Invoice)
    requires SlotGood(first, id, SlotOf(saga, id), invoice) && Starter(event, id, invoice)
    requires OwnMoves(first, moves, id, event, invoice)
    ensures AnsweredRun(first, saga, moves) && NothingTaken(saga, moves, id, invoice.department)
    ensures SlotOk(id, SlotOf(Run(saga, moves), id))
    decreases |moves|
  {
    if moves != [] {
      assert OwnMove(first, moves[0], id, event, invoice);
      OwnMoveIsAnswered(first, saga, moves[0], id, event, invoice);
      forall i | 0 <= i < |moves[1..]| ensures OwnMove(first, moves[1..][i], id, event, invoice) {
        assert OwnMove(first, moves[i + 1], id, event, invoice);
      }
      OwnRun(first, Step(saga, moves[0]), moves[1..], id, event, invoice);
    }
  }

  // A step either settles the record, and then saves what can still be published, or leaves it unsettled.
  lemma SettlingPublishes(saga: Saga, move: SagaMove, id: string)
    requires SlotOk(id, SlotOf(saga, id)) && SlotOf(saga, id).record.Some? && !SettledIn(saga, id)
    ensures SlotOf(Step(saga, move), id).record.Some?
    ensures SettledIn(Step(saga, move), id) ==>
              SlotOf(Step(saga, move), id).pc.Some? && SlotOf(Step(saga, move), id).pc.value.Publishing?
  {
    if !Concerned(move, id) {
      OtherSparesSlot(saga, move, id);
    }
  }

  // What one record needs: its slot is in order and its department has a budget.
  ghost predicate Kept(first: Gateway, saga: Saga, id: string, invoice: Invoice) {
    && SlotGood(first, id, SlotOf(saga, id), invoice) && SlotOf(saga, id).record.Some?
    && invoice.department in saga.budgets
  }

  lemma StepKeeps(first: Gateway, saga: Saga, move: SagaMove, id: string, invoice: Invoice)
    requires Kept(first, saga, id, invoice) && !SettledIn(saga, id)
    requires AnsweredMove(first, saga, move) && !Takes(saga, move, id, invoice.department)
    ensures Kept(first, Step(saga, move), id, invoice)
    ensures CanReport(first, Step(saga, move), id, invoice) ==> CanReport(first, saga, id, invoice)
  {
    StepKeepsGood(first, saga, move, id, invoice);
    SettlingPublishes(saga, move, id);
    OtherStepKeepsTotal(saga, move, invoice.department);
    if Concerned(move, id) {
      OwnStepGivesNoWay(first, saga, move, id, invoice);
    } else {
      OtherStepGivesNoWay(first, saga, move, id, invoice);
    }
  }

  lemma {:induction false} SettledHadAWay(first: Gateway, saga: Saga, moves: seq<SagaMove>, id: string,
          invoice: Invoice)
    requires Kept(first, saga, id, invoice) && !SettledIn(saga, id)
    requires AnsweredRun(first, saga, moves) && NothingTaken(saga, moves, id, invoice.department)
    requires SettledIn(Run(saga, moves), id)
    ensures CanReport(first, saga, id, invoice)
    decreases |moves|
  {
    var next := Step(saga, moves[0]);
    StepKeeps(first, saga, moves[0], id, invoice);
    SettlingPublishes(saga, moves[0], id);
    if !SettledIn(next, id) {
      SettledHadAWay(first, next, moves[1..], id, invoice);
    }
  }

  lemma RecordIsKept(first: Gateway, moves: seq<SagaMove>, id: string)
    requires AnsweredRun(first, EmptySaga, moves)
    requires var slot := SlotOf(Run(EmptySaga, moves), id);
             slot.record.Some? && slot.record.value.status.Reserved?
    ensures var saga := Run(EmptySaga, moves);
            Kept(first, saga, id, SlotOf(saga, id).record.value.invoice)
  {
    var saga := Run(EmptySaga, moves);
    var slot := SlotOf(saga, id);
    RunKeepsSlots(EmptySaga, moves);
    RunKeepsAnswered(first, EmptySaga, moves);
    MoneyIsAccounted(moves, slot.record.value.department);
    assert SlotOk(id, slot) && SlotAnswered(first, slot);
    assert Concerns(saga.slots[id], slot.record.value.department);
  }

  lemma WayIsTaken(first: Gateway, saga: Saga, id: string, invoice: Invoice)
    requires Kept(first, saga, id, invoice) && CanReport(first, saga, id, invoice)
    ensures CanBeSettled(first, saga, id, invoice.department)
  {
    var record := SlotOf(saga, id).record.value;
    var event := FromApproval(ApprovalCompletedEvent(invoice, record.decision, ApprovalApproved));
    var more := PaymentReports(first, saga, id, event, invoice);
    OwnRun(first, saga, more, id, event, invoice);
    assert SettledIn(Run(saga, more), id);
  }

  // In every reachable state, before a gateway that answers each invoice in one way: while no other
  // payment takes money from its department, a RESERVED record can still be settled, by whatever
  // deliveries, deaths and restarts, if and only if the gateway accepts its invoice, its handler is about
  // to save the FAILED record, or the department has room for its release.
  lemma ReservedSettlesIff(first: Gateway, moves: seq<SagaMove>, id: string)
    requires AnsweredRun(first, EmptySaga, moves)
    requires var slot := SlotOf(Run(EmptySaga, moves), id);
             slot.record.Some? && slot.record.value.status.Reserved?
    ensures var saga := Run(EmptySaga, moves);
            var slot := SlotOf(saga, id);
            var record := slot.record.value;
            && record.department in saga.budgets
            && (CanBeSettled(first, saga, id, record.department) <==>
                || first(record.invoice).Accepted?
                || (slot.pc.Some? && slot.pc.value.SavingFailed?)
                || saga.budgets[record.department].remaining + record.reservedAmount
                   <= saga.budgets[record.department].total)
  {
    var saga := Run(EmptySaga, moves);
    RecordIsKept(first, moves, id);
    var record := SlotOf(saga, id).record.value;
    if CanReport(first, saga, id, record.invoice) {
      WayIsTaken(first, saga, id, record.invoice);
    }
    if CanBeSettled(first, saga, id, record.department) {
      var more :| AnsweredRun(first, saga, more) && NothingTaken(saga, more, id, record.department)
          && SettledIn(Run(saga, more), id);
      SettledHadAWay(first, saga, more, id, record.invoice);
    }
  }
}

// The saga before a gateway that answers each invoice in one way, in whatever process it is asked: the
// simulated one does (services/payment/accessors/simulated_gateway.py:26-49), and one that keeps its
// idempotency keys does. Its memory may still be lost.
module SagaGateway {
  import opened Contracts
  import opened BudgetRules
  import opened PaymentSaga
  import opened SagaGuarantees

  type Gateway = Invoice -> GatewayReply

  // If this move executes a charge, it is answered as the gateway answers that invoice.
  predicate AnsweredMove(first: Gateway, saga: Saga, move: SagaMove) {
    move.Advance? && SlotOf(saga, move.trackingId).pc.Some? && SlotOf(saga, move.trackingId).remembered.None? ==>
      match SlotOf(saga, move.trackingId).pc.value
      case Charging(record) => move.reply == first(record.invoice)
      case _ => true
  }

  predicate AnsweredRun(first: Gateway, saga: Saga, moves: seq<SagaMove>)
    decreases |moves|
  {
    moves == [] || (AnsweredMove(first, saga, moves[0]) && AnsweredRun(first, Step(saga, moves[0]), moves[1..]))
  }

  // Every charge of this slot was answered so.
  predicate SlotAnswered(first: Gateway, slot: Slot) {
    slot.record.Some? ==> forall reply <- slot.charges :: reply == first(slot.record.value.invoice)
  }

  ghost predicate AllAnswered(first: Gateway, saga: Saga) {
    forall id <- saga.slots :: SlotAnswered(first, saga.slots[id])
  }

  lemma SavesKeepInvoice(id: string, slot: Slot, budgets: map<string, Budget>, reply: GatewayReply)
    requires SlotOk(id, slot) && slot.pc.Some? && slot.record.Some?
    ensures var after := AdvanceSlot(budgets, slot, reply).1;
            after.record.Some? && after.record.value.invoice == slot.record.value.invoice
  {
  }

  lemma AdvanceKeepsAnswered(first: Gateway, id: string, slot: Slot, budgets: map<string, Budget>, reply: GatewayReply)
    requires SlotOk(id, slot) && slot.pc.Some? && SlotAnswered(first, slot)
    requires slot.pc.value.Charging? && slot.remembered.None? ==> reply == first(slot.pc.value.record.invoice)
    ensures SlotAnswered(first, AdvanceSlot(budgets, slot, reply).1)
  {
    if slot.record.Some? {
      SavesKeepInvoice(id, slot, budgets, reply);
    }
  }

  lemma StepKeepsAnswered(first: Gateway, saga: Saga, move: SagaMove)
    requires SlotsOk(saga) && AllAnswered(first, saga) && AnsweredMove(first, saga, move)
    ensures AllAnswered(first, Step(saga, move))
  {
    if move.Advance? && SlotOf(saga, move.trackingId).pc.Some? {
      AdvanceKeepsAnswered(first, move.trackingId, SlotOf(saga, move.trackingId), saga.budgets, move.reply);
    }
    if move.Restart? {
      forall id <- saga.slots ensures SlotAnswered(first, saga.slots[id].(remembered := None)) {
        assert SlotAnswered(first, saga.slots[id]);
      }
    }
  }

  lemma {:induction false} RunKeepsAnswered(first: Gateway, saga: Saga, moves: seq<SagaMove>)
    requires SlotsOk(saga) && AllAnswered(first, saga) && AnsweredRun(first, saga, moves)
    ensures AllAnswered(first, Run(saga, moves))
    decreases |moves|
  {
    if moves != [] {
      StepKeepsAnswered(first, saga, moves[0]);
      StepKeepsSlots(saga, moves[0]);
      RunKeepsAnswered(first, Step(saga, moves[0]), moves[1..]);
    }
  }

  // With handlers dying at any await, any restarts and any redelivery: a key may be charged again, but
  // all its charges went the same way, and the terminal record says which. COMPLETED means that every
  // charge was accepted, FAILED that none was.
  lemma TerminalAgreesWithEveryCharge(first: Gateway, moves: seq<SagaMove>, id: string)
    requires AnsweredRun(first, EmptySaga, moves)
    ensures var slot := SlotOf(Run(EmptySaga, moves), id);
            && (slot.charges != [] ==> slot.record.Some?)
            && (slot.record.Some? ==>
                  var record := slot.record.value;
                  && (forall reply <- slot.charges :: reply == first(record.invoice))
                  && (record.status.Completed? ==> slot.charges != [] && first(record.invoice) == Accepted)
                  && (record.status.Failed? && slot.charges != [] ==>
                        first(record.invoice).Declined? && record.reason == Some(first(record.invoice).message))
                  && (record.status.Failed? ==> Accepted !in slot.charges))
  {
    RunKeepsSlots(EmptySaga, moves);
    RunKeepsAnswered(first, EmptySaga, moves);
    var slot := SlotOf(Run(EmptySaga, moves), id);
    assert SlotOk(id, slot) && SlotAnswered(first, slot);
    if slot.charges != [] {
      assert slot.charges[|slot.charges| - 1] in slot.charges;
    }
  }
}

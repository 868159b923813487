// The payment saga as a step machine: reserve, save, charge, compensate, publish
// (services/payment/service.py, services/payment/models.py). Any number of tracking ids are in
// flight at once; a handler can die at any await, and any event can be delivered again.
//
// A slot holds at most one handler: handlers for the same tracking id do not overlap. The budget
// and record operations are single steps. SagaOverStore takes the budget operations apart and shows that
// nothing more can happen; a record's key is written by this slot's handler alone.
module PaymentSaga {
  import opened Contracts
  import opened BudgetRules

  datatype PaymentStatus = Reserved | Completed | Failed

  datatype PaymentRecord = PaymentRecord(
    trackingId: string,
    invoice: Invoice,
    decision: Decision,
    status: PaymentStatus,
    department: string,
    reservedAmount: real,
    reason: Option<string>)

  datatype PaymentEvent = FromDecision(decided: DecisionCompletedEvent) | FromApproval(resolved: ApprovalCompletedEvent)

  datatype GatewayReply = Accepted | Declined(message: string)

  // What a running handler is waiting for.
  datatype Pc =
    | Fetching(invoice: Invoice, decision: Decision)
    | Reserving(invoice: Invoice, decision: Decision)
    | SavingReserved(record: PaymentRecord)
    | SavingRejected(record: PaymentRecord)
    | Charging(record: PaymentRecord)
    | Releasing(record: PaymentRecord, message: string)
    | SavingFailed(record: PaymentRecord)
    | SavingCompleted(record: PaymentRecord)
    | Publishing(record: PaymentRecord)

  // Everything there is under one tracking id: the stored record, the running handler, the reply the
  // gateway remembers for its key, the replies of every charge it really executed, and the events
  // published.
  datatype Slot = Slot(
    record: Option<PaymentRecord>,
    pc: Option<Pc>,
    remembered: Option<GatewayReply>,
    charges: seq<GatewayReply>,
    published: seq<PaymentCompletedEvent>)

  // `drift` only observes: what each department lost (or, if negative, was credited twice) because a
  // handler died between a budget commit and the save that records it.
  datatype Saga = Saga(budgets: map<string, Budget>, slots: map<string, Slot>, drift: map<string, real>)

  datatype SagaMove =
    | SeedBudget(department: string, total: real)
    | Deliver(event: PaymentEvent)
    | Advance(trackingId: string, reply: GatewayReply)
    | Abort(trackingId: string)
    | Restart

  const EmptySlot := Slot(None, None, None, [], [])

  const EmptySaga := Saga(map[], map[], map[])

  predicate Terminal(record: PaymentRecord) { record.status.Completed? || record.status.Failed? }

  // Only an AUTO_APPROVE decision or an approved review starts a payment.
  predicate Triggers(event: PaymentEvent) {
    match event
    case FromDecision(decided) => decided.decision.route.AutoApprove?
    case FromApproval(resolved) => resolved.resolution.ApprovalApproved?
  }

  function EventInvoice(event: PaymentEvent): Invoice {
    if event.FromDecision? then event.decided.invoice else event.resolved.invoice
  }

  function EventDecision(event: PaymentEvent): Decision {
    if event.FromDecision? then event.decided.decision else event.resolved.decision
  }

  function ReservedRecord(invoice: Invoice, decision: Decision): PaymentRecord {
    PaymentRecord(decision.correlationId, invoice, decision, Reserved, invoice.department, invoice.total, None)
  }

  function RejectedRecord(invoice: Invoice, decision: Decision, reason: string): PaymentRecord {
    PaymentRecord(decision.correlationId, invoice, decision, Failed, invoice.department, 0.0, Some(reason))
  }

  function OutcomeEvent(record: PaymentRecord): PaymentCompletedEvent {
    PaymentCompletedEvent(record.invoice, record.decision,
                          if record.status.Completed? then PaymentCompleted else PaymentFailed,
                          if record.reason.Some? then record.reason.value else "")
  }

  const SUCCESS_REASON := "payment executed successfully"
  const INSUFFICIENT_REASON := "insufficient department budget"
  function UnconfiguredReason(department: string): string { "no budget configured for department " + department }

  // The reply of the last charge executed.
  function Outcome(slot: Slot): Option<GatewayReply> {
    if slot.charges == [] then None else Some(slot.charges[|slot.charges| - 1])
  }

  function SlotOf(saga: Saga, trackingId: string): Slot {
    if trackingId in saga.slots then saga.slots[trackingId] else EmptySlot
  }

  function DriftOf(saga: Saga, department: string): real {
    if department in saga.drift then saga.drift[department] else 0.0
  }

  // ---- Steps -------------------------------------------------------------------------------------

  function AfterReserve(slot: Slot, invoice: Invoice, decision: Decision, result: BudgetResult): Slot {
    slot.(pc :=
      match result
      case Done => Some(SavingReserved(ReservedRecord(invoice, decision)))
      case InsufficientBudget => Some(SavingRejected(RejectedRecord(invoice, decision, INSUFFICIENT_REASON)))
      case BudgetNotFound =>
        Some(SavingRejected(RejectedRecord(invoice, decision, UnconfiguredReason(invoice.department))))
      case BudgetCorruption => None)
  }

  // A remembered idempotency key gets its old reply; any other is charged.
  function AfterCharge(slot: Slot, record: PaymentRecord, reply: GatewayReply): Slot {
    var charged := if slot.remembered.Some? then slot
        else slot.(remembered := Some(reply), charges := slot.charges + [reply]);
    match charged.remembered.value
    case Accepted => charged.(pc := Some(SavingCompleted(record.(status := Completed, reason := Some(SUCCESS_REASON)))))
    case Declined(message) => charged.(pc := Some(Releasing(record, message)))
  }

  // What one await brings about, in the budgets and in the handler's own slot.
  function AdvanceSlot(budgets: map<string, Budget>, slot: Slot, reply: GatewayReply): (map<string, Budget>, Slot)
    requires slot.pc.Some?
  {
    match slot.pc.value
    case Fetching(invoice, decision) =>
      (budgets,
       match slot.record
       case None => slot.(pc := Some(Reserving(invoice, decision)))
       case Some(record) => slot.(pc := if Terminal(record) then None else Some(Charging(record))))
    case Reserving(invoice, decision) =>
      var (after, result) := Perform(budgets, Reserve(invoice.department, invoice.total));
      (after, AfterReserve(slot, invoice, decision, result))
    case SavingReserved(record) => (budgets, slot.(record := Some(record), pc := Some(Charging(record))))
    case SavingRejected(record) => (budgets, slot.(record := Some(record), pc := Some(Publishing(record))))
    case Charging(record) => (budgets, AfterCharge(slot, record, reply))
    case Releasing(record, message) =>
      var (after, result) := Perform(budgets, Release(record.department, record.reservedAmount));
      (after, slot.(pc := if result.Done? then Some(SavingFailed(record.(status := Failed, reason := Some(message))))
          else None))
    case SavingFailed(record) => (budgets, slot.(record := Some(record), pc := Some(Publishing(record))))
    case SavingCompleted(record) => (budgets, slot.(record := Some(record), pc := Some(Publishing(record))))
    case Publishing(record) => (budgets, slot.(pc := None, published := slot.published + [OutcomeEvent(record)]))
  }

  // What a department loses when a handler dies here.
  function AbortDrift(slot: Slot, department: string): real {
    match slot.pc
    case Some(SavingReserved(record)) => if record.department == department then record.reservedAmount else 0.0
    case Some(SavingFailed(record)) => if record.department == department then -record.reservedAmount else 0.0
    case _ => 0.0
  }

  function AbortedDepartment(slot: Slot): Option<string> {
    match slot.pc
    case Some(SavingReserved(record)) => Some(record.department)
    case Some(SavingFailed(record)) => Some(record.department)
    case _ => None
  }

  predicate AllIdle(saga: Saga) {
    forall id <- saga.slots :: saga.slots[id].pc.None?
  }

  function Forgotten(slots: map<string, Slot>): map<string, Slot> {
    map id | id in slots :: slots[id].(remembered := None)
  }

  // A restart of the process takes its handlers (each an Abort before it) and the replies its gateway
  // held in memory.
  function Step(saga: Saga, move: SagaMove): Saga {
    match move
    case SeedBudget(department, total) => saga.(budgets := Perform(saga.budgets, Seed(department, total)).0)
    case Deliver(event) =>
      var id := EventDecision(event).correlationId;
      var slot := SlotOf(saga, id);
      if !Triggers(event) || slot.pc.Some? then saga
      else saga.(slots := saga.slots[id := slot.(pc := Some(Fetching(EventInvoice(event), EventDecision(event))))])
    case Advance(id, reply) =>
      var slot := SlotOf(saga, id);
      if slot.pc.None? then saga
      else
        var (budgets, after) := AdvanceSlot(saga.budgets, slot, reply);
        saga.(budgets := budgets, slots := saga.slots[id := after])
    case Abort(id) =>
      var slot := SlotOf(saga, id);
      if slot.pc.None? then saga
      else
        var d := AbortedDepartment(slot);
        saga.(slots := saga.slots[id := slot.(pc := None)],
              drift := if d.None? then saga.drift
                  else saga.drift[d.value := DriftOf(saga, d.value) + AbortDrift(slot, d.value)])
    case Restart => if AllIdle(saga) then saga.(slots := Forgotten(saga.slots)) else saga
  }

  // The moves of one tracking id's own deliveries and handler.
  predicate Concerned(move: SagaMove, id: string) {
    match move
    case SeedBudget(_, _) => false
    case Deliver(event) => EventDecision(event).correlationId == id
    case Advance(other, _) => other == id
    case Abort(other) => other == id
    case Restart => false
  }

  lemma OtherSparesSlot(saga: Saga, move: SagaMove, id: string)
    requires !Concerned(move, id)
    ensures move.Restart? ==>
              SlotOf(Step(saga, move), id) == SlotOf(saga, id).(remembered := SlotOf(Step(saga, move), id).remembered)
    ensures !move.Restart? || SlotOf(saga, id).pc.Some? ==> SlotOf(Step(saga, move), id) == SlotOf(saga, id)
  {
  }

  function Run(saga: Saga, moves: seq<SagaMove>): Saga
    decreases |moves|
  {
    if moves == [] then saga else Run(Step(saga, moves[0]), moves[1..])
  }

  lemma {:induction false} RunAppend(saga: Saga, first: seq<SagaMove>, second: seq<SagaMove>)
    ensures Run(saga, first + second) == Run(Run(saga, first), second)
    decreases |first|
  {
    if first == [] {
      assert first + second == second;
    } else {
      assert (first + second)[0] == first[0] && (first + second)[1..] == first[1..] + second;
      RunAppend(Step(saga, first[0]), first[1..], second);
    }
  }

  lemma RunSnoc(saga: Saga, moves: seq<SagaMove>, last: SagaMove)
    ensures Run(saga, moves + [last]) == Step(Run(saga, moves), last)
  {
    RunAppend(saga, moves, [last]);
    var middle := Run(saga, moves);
    assert Run(middle, [last]) == Run(Step(middle, last), []);
  }

  // ---- What each slot keeps ----------------------------------------------------------------------

  predicate RecordOk(id: string, record: PaymentRecord) {
    && record.trackingId == id == record.decision.correlationId
    && record.department == record.invoice.department
    && (record.status.Failed? || record.reservedAmount == record.invoice.total)
  }

  predicate RejectionReason(record: PaymentRecord) {
    record.reason == Some(INSUFFICIENT_REASON) || record.reason == Some(UnconfiguredReason(record.department))
  }

  // A stored record against what the gateway last did.
  predicate RecordMatchesCharge(record: PaymentRecord, outcome: Option<GatewayReply>) {
    match record.status
    case Reserved => record.reason == None
    case Completed => outcome == Some(Accepted) && record.reason == Some(SUCCESS_REASON)
    case Failed =>
      match outcome
      case None => record.reservedAmount == 0.0 && RejectionReason(record)
      case Some(Accepted) => false
      case Some(Declined(message)) => record.reason == Some(message) && record.reservedAmount == record.invoice.total
  }

  // Effects come only after the record that announces them.
  predicate RecordMatchesEffects(slot: Slot) {
    match slot.record
    case None => slot.charges == [] && slot.published == []
    case Some(record) =>
      && RecordMatchesCharge(record, Outcome(slot))
      && (slot.published == [] || (Terminal(record) && slot.published == [OutcomeEvent(record)]))
  }

  predicate PcOk(id: string, slot: Slot) {
    match slot.pc
    case None => true
    case Some(Fetching(_, decision)) => decision.correlationId == id
    case Some(Reserving(_, decision)) => slot.record.None? && decision.correlationId == id
    case Some(SavingReserved(record)) =>
      slot.record.None? && RecordOk(id, record) && record.status.Reserved? && record.reason.None?
    case Some(SavingRejected(record)) =>
      slot.record.None? && RecordOk(id, record) && record.status.Failed? && record.reservedAmount == 0.0
          && RejectionReason(record)
    case Some(Charging(record)) => slot.record == Some(record) && record.status.Reserved?
    case Some(Releasing(record, message)) =>
      slot.record == Some(record) && record.status.Reserved? && Outcome(slot) == Some(Declined(message))
    case Some(SavingFailed(record)) =>
      && slot.record.Some? && slot.record.value.status.Reserved?
      && Outcome(slot).Some? && Outcome(slot).value.Declined?
      && record == slot.record.value.(status := Failed, reason := Some(Outcome(slot).value.message))
    case Some(SavingCompleted(record)) =>
      && slot.record.Some? && slot.record.value.status.Reserved? && Outcome(slot) == Some(Accepted)
      && record == slot.record.value.(status := Completed, reason := Some(SUCCESS_REASON))
    case Some(Publishing(record)) => slot.record == Some(record) && Terminal(record) && slot.published == []
  }

  predicate SlotOk(id: string, slot: Slot) {
    && (slot.record.Some? ==> RecordOk(id, slot.record.value))
    && (slot.remembered.Some? ==> slot.remembered == Outcome(slot))
    && RecordMatchesEffects(slot)
    && PcOk(id, slot)
  }

  predicate SlotsOk(saga: Saga) {
    forall id <- saga.slots :: SlotOk(id, saga.slots[id])
  }

  lemma SaveKeepsSlot(id: string, slot: Slot, record: PaymentRecord)
    requires SlotOk(id, slot)
    requires slot.pc == Some(SavingRejected(record)) || slot.pc == Some(SavingFailed(record))
        || slot.pc == Some(SavingCompleted(record))
    ensures SlotOk(id, slot.(record := Some(record), pc := Some(Publishing(record))))
  {
  }

  lemma ChargeKeepsSlot(id: string, slot: Slot, record: PaymentRecord, reply: GatewayReply)
    requires SlotOk(id, slot) && slot.pc == Some(Charging(record))
    ensures SlotOk(id, AfterCharge(slot, record, reply))
  {
  }

  lemma ReserveKeepsSlot(id: string, slot: Slot, invoice: Invoice, decision: Decision, result: BudgetResult)
    requires SlotOk(id, slot) && slot.pc == Some(Reserving(invoice, decision))
    ensures SlotOk(id, AfterReserve(slot, invoice, decision, result))
  {
  }

  lemma PublishKeepsSlot(id: string, slot: Slot, record: PaymentRecord)
    requires SlotOk(id, slot) && slot.pc == Some(Publishing(record))
    ensures SlotOk(id, slot.(pc := None, published := slot.published + [OutcomeEvent(record)]))
  {
  }

  lemma {:induction false} AdvanceKeepsSlot(id: string, budgets: map<string, Budget>, slot: Slot, reply: GatewayReply)
    requires SlotOk(id, slot) && slot.pc.Some?
    ensures SlotOk(id, AdvanceSlot(budgets, slot, reply).1)
  {
    match slot.pc.value
    case Reserving(invoice, decision) =>
      ReserveKeepsSlot(id, slot, invoice, decision, Perform(budgets, Reserve(invoice.department, invoice.total)).1);
    case SavingRejected(record) => SaveKeepsSlot(id, slot, record);
    case SavingFailed(record) => SaveKeepsSlot(id, slot, record);
    case SavingCompleted(record) => SaveKeepsSlot(id, slot, record);
    case Charging(record) => ChargeKeepsSlot(id, slot, record, reply);
    case Publishing(record) => PublishKeepsSlot(id, slot, record);
    case _ =>
  }

  lemma StepKeepsSlots(saga: Saga, move: SagaMove)
    requires SlotsOk(saga)
    ensures SlotsOk(Step(saga, move))
  {
    if move.Advance? && SlotOf(saga, move.trackingId).pc.Some? {
      AdvanceKeepsSlot(move.trackingId, saga.budgets, SlotOf(saga, move.trackingId), move.reply);
    }
    if move.Restart? {
      forall id <- saga.slots ensures SlotOk(id, saga.slots[id].(remembered := None)) {
        assert SlotOk(id, saga.slots[id]);
      }
    }
  }

  lemma {:induction false} RunKeepsSlots(saga: Saga, moves: seq<SagaMove>)
    requires SlotsOk(saga)
    ensures SlotsOk(Run(saga, moves))
    decreases |moves|
  {
    if moves != [] {
      StepKeepsSlots(saga, moves[0]);
      RunKeepsSlots(Step(saga, moves[0]), moves[1..]);
    }
  }
}

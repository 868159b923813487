// The payment handlers as they are written, statement by statement, against the saga's steps: at
// each await other tracking ids move, and the await may fail or the process may die there.
module PaymentServices {
  import opened Contracts
  import opened BudgetRules
  import opened PaymentSaga
  import opened SagaGateway

  // ---- The gateway (services/payment/accessors/simulated_gateway.py) -----------------------------

  class SimulatedPaymentGateway {
    const failureIds: set<string>
    var results: map<string, GatewayReply>
    var executionCount: nat

    constructor (failureIds: set<string>)
      ensures this.failureIds == failureIds && results == map[] && executionCount == 0
    {
      this.failureIds := failureIds;
      results, executionCount := map[], 0;
    }

    function FirstReply(invoice: Invoice): GatewayReply {
      if invoice.id in failureIds
      then Declined("Simulated gateway decline for invoice " + invoice.id + " (PAYMENT_SIMULATE_FAILURE_IDS).")
      else Accepted
    }

    // A known key gets its old reply and executes nothing; a new key executes exactly once.
    method Charge(invoice: Invoice, idempotencyKey: string) returns (reply: GatewayReply)
      modifies this
      ensures idempotencyKey in old(results) ==>
                reply == old(results)[idempotencyKey] && results == old(results)
                    && executionCount == old(executionCount)
      ensures idempotencyKey !in old(results) ==>
                && reply == FirstReply(invoice) && (reply == Accepted <==> invoice.id !in failureIds)
                && results == old(results)[idempotencyKey := reply]
                && executionCount == old(executionCount) + 1
      ensures old(executionCount == |results|) ==> executionCount == |results|
    {
      if idempotencyKey in results {
        return results[idempotencyKey];
      }
      executionCount := executionCount + 1;
      reply := FirstReply(invoice);
      results := results[idempotencyKey := reply];
    }

    // A new process starts with a gateway that remembers nothing.
    method Forget()
      modifies this
      ensures results == map[] && executionCount == 0
    {
      results, executionCount := map[], 0;
    }
  }

  // ---- The service (services/payment/service.py) -------------------------------------------------

  // What happens during one await: moves of other tracking ids, and whether this await fails (or the
  // process dies) with nothing done.
  datatype Turn = Turn(others: seq<SagaMove>, fault: bool)

  predicate NoFaults(script: seq<Turn>) {
    forall turn <- script :: !turn.fault
  }

  // The one thing that stops a handler without a failing await: the budget refused the release.
  predicate StoppedAtRelease(slot: Slot) {
    && slot.pc.None? && slot.record.Some? && slot.record.value.status.Reserved?
    && Outcome(slot).Some? && Outcome(slot).value.Declined?
  }

  // The charge settled a RESERVED record: COMPLETED as accepted, or FAILED with the gateway's words,
  // and said so in one event. A reply the gateway remembers is replayed; otherwise it charges, once.
  predicate Settled(before: Slot, after: Slot, record: PaymentRecord, first: GatewayReply) {
    && after.charges == (if before.remembered.Some? then before.charges else before.charges + [first])
    && match Reply(before, first)
       case Accepted =>
         && after.record == Some(record.(status := Completed, reason := Some(SUCCESS_REASON)))
         && after.published == before.published
             + [PaymentCompletedEvent(record.invoice, record.decision, PaymentCompleted, SUCCESS_REASON)]
       case Declined(message) =>
         && after.record == Some(record.(status := Failed, reason := Some(message)))
         && after.published == before.published
             + [PaymentCompletedEvent(record.invoice, record.decision, PaymentFailed, message)]
  }

  function Reply(slot: Slot, first: GatewayReply): GatewayReply {
    if slot.remembered.Some? then slot.remembered.value else first
  }

  function SettledRecord(record: PaymentRecord, reply: GatewayReply): PaymentRecord {
    match reply
    case Accepted => record.(status := Completed, reason := Some(SUCCESS_REASON))
    case Declined(message) => record.(status := Failed, reason := Some(message))
  }

  // A terminal record stays as it was; any other slot gets one, and its one event.
  predicate Finished(before: Slot, after: Slot) {
    if before.record.Some? && Terminal(before.record.value) then after == before
    else
      && after.record.Some? && after.record.value.reason.Some?
      && var record := after.record.value;
         match record.status
         case Reserved => false
         case Completed => after.published == [PaymentCompletedEvent(record.invoice, record.decision,
             PaymentCompleted, record.reason.value)]
         case Failed => after.published == [PaymentCompletedEvent(record.invoice, record.decision, PaymentFailed,
             record.reason.value)]
  }

  function Without(moves: seq<SagaMove>, id: string): (spared: seq<SagaMove>)
    ensures forall i | 0 <= i < |spared| :: !Concerned(spared[i], id)
    decreases |moves|
  {
    if moves == [] then []
    else (if Concerned(moves[0], id) then [] else [moves[0]]) + Without(moves[1..], id)
  }

  // What the gateway holds in memory, read off the slots.
  function Memory(saga: Saga): map<string, GatewayReply> {
    map id | id in saga.slots && saga.slots[id].remembered.Some? :: saga.slots[id].remembered.value
  }

  predicate AsksGateway(saga: Saga, move: SagaMove) {
    move.Advance? && SlotOf(saga, move.trackingId).pc.Some? && SlotOf(saga, move.trackingId).pc.value.Charging?
  }

  lemma MemoryKept(saga: Saga, move: SagaMove)
    requires !AsksGateway(saga, move) && !(move.Restart? && AllIdle(saga))
    ensures Memory(Step(saga, move)) == Memory(saga)
  {
    var after := Step(saga, move);
    forall id: string ensures id in Memory(after) <==> id in Memory(saga) {
      assert SlotOf(after, id).remembered == SlotOf(saga, id).remembered;
    }
    forall id <- Memory(after) ensures Memory(after)[id] == Memory(saga)[id] {
      assert SlotOf(after, id).remembered == SlotOf(saga, id).remembered;
    }
  }

  lemma MemoryCharged(saga: Saga, id: string, reply: GatewayReply)
    requires AsksGateway(saga, Advance(id, reply))
    ensures var memory := Memory(saga);
            Memory(Step(saga, Advance(id, reply))) == if id in memory then memory else memory[id := reply]
    ensures SlotOf(Step(saga, Advance(id, reply)), id)
        == AfterCharge(SlotOf(saga, id), SlotOf(saga, id).pc.value.record, reply)
  {
  }

  // Where a charge with this reply leads.
  function AwaitedAfter(record: PaymentRecord, reply: GatewayReply): Pc {
    match reply
    case Accepted => SavingCompleted(SettledRecord(record, reply))
    case Declined(message) => Releasing(record, message)
  }

  lemma ChargedSlot(id: string, slot: Slot, record: PaymentRecord, first: GatewayReply)
    requires SlotOk(id, slot)
    ensures var after := AfterCharge(slot, record, first);
            && after.record == slot.record && after.published == slot.published
            && after.pc == Some(AwaitedAfter(record, Reply(slot, first)))
            && after.charges == (if slot.remembered.Some? then slot.charges else slot.charges + [first])
            && Outcome(after) == Some(Reply(slot, first))
  {
  }

  // Where the read of the record leads.
  function Opened(event: PaymentEvent, record: Option<PaymentRecord>): Option<Pc> {
    match record
    case None => Some(Reserving(EventInvoice(event), EventDecision(event)))
    case Some(r) => if Terminal(r) then None else Some(Charging(r))
  }

  // The slot is in order, and all its charges are answered as this gateway first answers its invoice.
  ghost predicate SlotInOrder(first: Gateway, id: string, slot: Slot) {
    SlotOk(id, slot) && SlotAnswered(first, slot)
  }

  ghost predicate InOrder(first: Gateway, saga: Saga) {
    forall id: string {:trigger SlotInOrder(first, id, SlotOf(saga, id))} :: SlotInOrder(first, id, SlotOf(saga, id))
  }

  lemma InOrderMeans(first: Gateway, saga: Saga)
    ensures InOrder(first, saga) <==> SlotsOk(saga) && AllAnswered(first, saga)
  {
    if InOrder(first, saga) {
      forall id <- saga.slots ensures SlotOk(id, saga.slots[id]) && SlotAnswered(first, saga.slots[id]) {
        assert SlotInOrder(first, id, SlotOf(saga, id));
      }
    }
  }

  lemma StepStaysInOrder(first: Gateway, saga: Saga, move: SagaMove)
    requires InOrder(first, saga) && AnsweredMove(first, saga, move)
    ensures InOrder(first, Step(saga, move))
  {
    InOrderMeans(first, saga);
    StepKeepsSlots(saga, move);
    StepKeepsAnswered(first, saga, move);
    InOrderMeans(first, Step(saga, move));
  }

  class PaymentService {
    const gateway: SimulatedPaymentGateway
    var saga: Saga
    var script: seq<Turn>

    constructor (gateway: SimulatedPaymentGateway, saga: Saga, script: seq<Turn>)
      requires gateway.results == Memory(saga) && gateway.executionCount == |gateway.results|
      requires InOrder(gateway.FirstReply, saga)
      ensures this.gateway == gateway && this.saga == saga && this.script == script && Coupled()
    {
      this.gateway, this.saga, this.script := gateway, saga, script;
    }

    // The gateway's results are the slots' remembered replies, it has executed one charge for each, and
    // every charge there ever was, before restarts too, was answered as it answers now.
    ghost predicate Coupled()
      reads this, gateway
    {
      && gateway.results == Memory(saga) && gateway.executionCount == |gateway.results|
      && InOrder(gateway.FirstReply, saga)
    }

    // One move of any tracking id. Whoever charges, it is this gateway that replies.
    method Move(move: SagaMove) returns (ghost done: SagaMove)
      requires Coupled()
      modifies this`saga, gateway
      ensures Coupled() && saga == Step(old(saga), done)
      ensures if move.Advance? then done.Advance? && done.trackingId == move.trackingId else done == move
    {
      done := move;
      if AsksGateway(saga, move) {
        var id := move.trackingId;
        var reply := gateway.Charge(SlotOf(saga, id).pc.value.record.invoice, id);
        done := Advance(id, reply);
        MemoryCharged(saga, id, reply);
        StepStaysInOrder(gateway.FirstReply, saga, done);
        saga := Step(saga, Advance(id, reply));
      } else if move.Restart? && AllIdle(saga) {
        StepStaysInOrder(gateway.FirstReply, saga, move);
        gateway.Forget();
        saga := Step(saga, move);
      } else {
        MemoryKept(saga, move);
        StepStaysInOrder(gateway.FirstReply, saga, move);
        saga := Step(saga, move);
      }
    }

    method Await(id: string) returns (fault: bool, ghost moves: seq<SagaMove>)
      requires Coupled() && SlotOf(saga, id).pc.Some?
      modifies this, gateway
      ensures Coupled() && saga == Run(old(saga), moves)
      ensures SlotOf(saga, id) == SlotOf(old(saga), id)
      ensures NoFaults(old(script)) ==> !fault && NoFaults(script)
    {
      fault, moves := false, [];
      if script != [] {
        var others := Without(script[0].others, id);
        fault := script[0].fault;
        script := script[1..];
        for i := 0 to |others|
          invariant Coupled() && saga == Run(old(saga), moves)
          invariant SlotOf(saga, id) == SlotOf(old(saga), id)
          invariant script == old(script)[1..]
        {
          ghost var before := saga;
          assert !Concerned(others[i], id);
          ghost var done := Move(others[i]);
          OtherSparesSlot(before, done, id);
          RunSnoc(old(saga), moves, done);
          moves := moves + [done];
        }
      }
    }

    // One awaited effect of the handler other than its charge: it happens, or the handler ends here.
    method Perform(id: string) returns (ok: bool, ghost budgets: map<string, Budget>, ghost moves: seq<SagaMove>)
      requires Coupled() && SlotOf(saga, id).pc.Some? && !SlotOf(saga, id).pc.value.Charging?
      modifies this, gateway
      ensures Coupled() && saga == Run(old(saga), moves)
      ensures ok ==> SlotOf(saga, id) == AdvanceSlot(budgets, SlotOf(old(saga), id), Accepted).1
      ensures !ok ==> SlotOf(saga, id) == SlotOf(old(saga), id).(pc := None)
      ensures NoFaults(old(script)) ==> ok && NoFaults(script)
    {
      var fault;
      fault, moves := Await(id);
      budgets := saga.budgets;
      var own := if fault then Abort(id) else Advance(id, Accepted);
      MemoryKept(saga, own);
      StepStaysInOrder(gateway.FirstReply, saga, own);
      RunSnoc(old(saga), moves, own);
      moves := moves + [own];
      saga := Step(saga, own);
      ok := !fault;
    }

    method GetRecord(id: string) returns (ok: bool, record: Option<PaymentRecord>, ghost moves: seq<SagaMove>)
      requires Coupled() && SlotOf(saga, id).pc.Some? && SlotOf(saga, id).pc.value.Fetching?
      modifies this, gateway
      ensures Coupled() && saga == Run(old(saga), moves)
      ensures var slot := SlotOf(old(saga), id);
              var (_, after) := AdvanceSlot(map[], slot, Accepted);
              if ok then record == slot.record && SlotOf(saga, id) == after else SlotOf(saga, id).pc.None?
      ensures NoFaults(old(script)) ==> ok && NoFaults(script)
    {
      ghost var budgets;
      record := SlotOf(saga, id).record;
      ok, budgets, moves := Perform(id);
    }

    method ReserveBudget(id: string, department: string, amount: real)
      returns (ok: bool, result: BudgetResult, ghost moves: seq<SagaMove>)
      requires Coupled()
      requires var slot := SlotOf(saga, id);
               slot.pc.Some? && slot.pc.value.Reserving?
               && department == slot.pc.value.invoice.department && amount == slot.pc.value.invoice.total
      modifies this, gateway
      ensures Coupled() && saga == Run(old(saga), moves) && result != BudgetCorruption
      ensures var slot := SlotOf(old(saga), id);
              if ok then SlotOf(saga, id) == AfterReserve(slot, slot.pc.value.invoice, slot.pc.value.decision, result)
              else SlotOf(saga, id).pc.None?
      ensures NoFaults(old(script)) ==> ok && NoFaults(script)
    {
      var fault;
      fault, moves := Await(id);
      var own := if fault then Abort(id) else Advance(id, Accepted);
      MemoryKept(saga, own);
      StepStaysInOrder(gateway.FirstReply, saga, own);
      RunSnoc(old(saga), moves, own);
      moves := moves + [own];
      ok := !fault;
      result := BudgetRules.Perform(saga.budgets, Reserve(department, amount)).1;
      saga := Step(saga, own);
    }

    method SaveRecord(id: string, record: PaymentRecord) returns (ok: bool, ghost moves: seq<SagaMove>)
      requires Coupled() && SlotOf(saga, id).pc in
                 {Some(SavingReserved(record)), Some(SavingRejected(record)), Some(SavingFailed(record)),
                     Some(SavingCompleted(record))}
      modifies this, gateway
      ensures Coupled() && saga == Run(old(saga), moves)
      ensures var slot := SlotOf(old(saga), id);
              var next := if slot.pc.value.SavingReserved? then Charging(record) else Publishing(record);
              if ok then SlotOf(saga, id) == slot.(record := Some(record), pc := Some(next))
                  else SlotOf(saga, id).pc.None?
      ensures NoFaults(old(script)) ==> ok && NoFaults(script)
    {
      ghost var budgets;
      ok, budgets, moves := Perform(id);
    }

    method Charge(id: string, record: PaymentRecord) returns (ok: bool, reply: GatewayReply, ghost moves: seq<SagaMove>)
      requires Coupled() && SlotOf(saga, id).pc == Some(Charging(record))
      modifies this, gateway
      ensures Coupled() && saga == Run(old(saga), moves)
      ensures var slot := SlotOf(old(saga), id);
              if ok then
                && SlotOf(saga, id) == AfterCharge(slot, record, gateway.FirstReply(record.invoice))
                && reply == Reply(slot, gateway.FirstReply(record.invoice))
              else SlotOf(saga, id) == slot.(pc := None)
      ensures NoFaults(old(script)) ==> ok && NoFaults(script)
    {
      var fault;
      fault, moves := Await(id);
      ok := !fault;
      reply := Accepted;
      var own := Abort(id);
      if fault {
        MemoryKept(saga, own);
      } else {
        reply := gateway.Charge(record.invoice, id);
        own := Advance(id, reply);
        MemoryCharged(saga, id, reply);
      }
      StepStaysInOrder(gateway.FirstReply, saga, own);
      RunSnoc(old(saga), moves, own);
      moves := moves + [own];
      saga := Step(saga, own);
    }

    method ReleaseBudget(id: string, department: string, amount: real) returns (ok: bool, ghost moves: seq<SagaMove>)
      requires Coupled()
      requires var slot := SlotOf(saga, id);
               slot.pc.Some? && slot.pc.value.Releasing?
               && department == slot.pc.value.record.department && amount == slot.pc.value.record.reservedAmount
      modifies this, gateway
      ensures Coupled() && saga == Run(old(saga), moves)
      ensures var slot := SlotOf(old(saga), id);
              var pc := slot.pc.value;
              if ok then
                SlotOf(saga, id)
                == slot.(pc := Some(SavingFailed(pc.record.(status := Failed, reason := Some(pc.message)))))
              else SlotOf(saga, id).pc.None?
      ensures NoFaults(old(script)) ==>
                && NoFaults(script)
                && (ok || SlotOf(saga, id) == SlotOf(old(saga), id).(pc := None))
    {
      ghost var budgets;
      ok, budgets, moves := Perform(id);
      ok := ok && SlotOf(saga, id).pc.Some?;
    }

    method Publish(id: string, event: PaymentCompletedEvent) returns (ok: bool, ghost moves: seq<SagaMove>)
      requires Coupled()
      requires var slot := SlotOf(saga, id);
               slot.pc.Some? && slot.pc.value.Publishing? && event == OutcomeEvent(slot.pc.value.record)
      modifies this, gateway
      ensures Coupled() && saga == Run(old(saga), moves)
      ensures var slot := SlotOf(old(saga), id);
              SlotOf(saga, id) == slot.(pc := None, published := if ok then slot.published + [event]
                  else slot.published)
      ensures NoFaults(old(script)) ==> ok && NoFaults(script)
    {
      ghost var budgets;
      ok, budgets, moves := Perform(id);
    }

    method PublishOutcome(id: string, record: PaymentRecord) returns (ok: bool, ghost moves: seq<SagaMove>)
      requires Coupled() && SlotOf(saga, id).pc == Some(Publishing(record))
      modifies this, gateway
      ensures Coupled() && saga == Run(old(saga), moves)
      ensures var slot := SlotOf(old(saga), id);
              SlotOf(saga, id) == slot.(pc := None, published := if ok then slot.published + [OutcomeEvent(record)]
                  else slot.published)
      ensures NoFaults(old(script)) ==> ok && NoFaults(script)
    {
      var resolution := if record.status == Completed then PaymentCompleted else PaymentFailed;
      var reason := if record.reason.Some? then record.reason.value else "";
      ok, moves := Publish(id, PaymentCompletedEvent(record.invoice, record.decision, resolution, reason));
    }

    method RejectPayment(id: string, invoice: Invoice, decision: Decision, reason: string)
      returns (ok: bool, ghost moves: seq<SagaMove>)
      requires decision.correlationId == id
      requires Coupled() && SlotOf(saga, id).pc == Some(SavingRejected(RejectedRecord(invoice, decision, reason)))
      modifies this, gateway
      ensures Coupled() && saga == Run(old(saga), moves) && SlotOf(saga, id).pc.None?
      ensures ok ==>
                && SlotOf(saga, id).record
                    == Some(PaymentRecord(id, invoice, decision, Failed, invoice.department, 0.0, Some(reason)))
                && SlotOf(saga, id).published
                    == SlotOf(old(saga), id).published
                        + [PaymentCompletedEvent(invoice, decision, PaymentFailed, reason)]
      ensures NoFaults(old(script)) ==> ok && NoFaults(script)
    {
      var record := PaymentRecord(id, invoice, decision, Failed, invoice.department, 0.0, Some(reason));
      ok, moves := SaveRecord(id, record);
      if ok {
        ghost var more;
        ok, more := PublishOutcome(id, record);
        RunAppend(old(saga), moves, more);
        moves := moves + more;
      }
    }

    // After the charge: complete, or compensate and fail; then say so.
    method Settle(id: string, record: PaymentRecord, reply: GatewayReply) returns (ok: bool, ghost moves: seq<SagaMove>)
      requires Coupled() && record.status == Reserved && SlotOf(saga, id).record == Some(record)
      requires SlotOf(saga, id).pc == Some(AwaitedAfter(record, reply)) && Outcome(SlotOf(saga, id)) == Some(reply)
      modifies this, gateway
      ensures Coupled() && saga == Run(old(saga), moves) && SlotOf(saga, id).pc.None?
      ensures var record' := SettledRecord(record, reply);
              ok ==> SlotOf(saga, id) == SlotOf(old(saga), id).(record := Some(record'), pc := None,
                       published := SlotOf(old(saga), id).published + [OutcomeEvent(record')])
      ensures NoFaults(old(script)) ==> ok || StoppedAtRelease(SlotOf(saga, id))
    {
      ghost var start := saga;
      ghost var more;
      moves, ok := [], true;
      var updated;
      match reply {
        case Declined(message) =>
          ok, moves := ReleaseBudget(id, record.department, record.reservedAmount);
          if !ok { return; }
          updated := record.(status := Failed, reason := Some(message));
        case Accepted =>
          updated := record.(status := Completed, reason := Some(SUCCESS_REASON));
      }
      ok, more := SaveRecord(id, updated);
      RunAppend(start, moves, more);
      moves := moves + more;
      if !ok { return; }
      ok, more := PublishOutcome(id, updated);
      RunAppend(start, moves, more);
      moves := moves + more;
    }

    method ExecuteCharge(id: string, record: PaymentRecord) returns (ok: bool, ghost moves: seq<SagaMove>)
      requires Coupled() && SlotOf(saga, id).pc == Some(Charging(record)) && record.status == Reserved
      requires SlotOf(saga, id).record == Some(record) && SlotOk(id, SlotOf(saga, id))
      modifies this, gateway
      ensures Coupled() && saga == Run(old(saga), moves) && SlotOf(saga, id).pc.None?
      ensures ok ==> Settled(SlotOf(old(saga), id), SlotOf(saga, id), record, gateway.FirstReply(record.invoice))
      ensures NoFaults(old(script)) ==> ok || StoppedAtRelease(SlotOf(saga, id))
    {
      var reply;
      ghost var more;
      ChargedSlot(id, SlotOf(saga, id), record, gateway.FirstReply(record.invoice));
      ok, reply, moves := Charge(id, record);
      if !ok { return; }
      ok, more := Settle(id, record, reply);
      RunAppend(old(saga), moves, more);
      moves := moves + more;
    }

    // The first sighting of a tracking id: reserve, then save the reservation, or reject.
    method ReserveFirst(id: string, invoice: Invoice, decision: Decision)
      returns (ok: bool, reserved: bool, ghost moves: seq<SagaMove>)
      requires Coupled() && SlotOf(saga, id).pc == Some(Reserving(invoice, decision)) && decision.correlationId == id
      modifies this, gateway
      ensures Coupled() && saga == Run(old(saga), moves)
      ensures var slot := SlotOf(old(saga), id);
              var record := ReservedRecord(invoice, decision);
              ok && reserved ==> SlotOf(saga, id) == slot.(record := Some(record), pc := Some(Charging(record)))
      ensures !(ok && reserved) ==> SlotOf(saga, id).pc.None?
      ensures ok && !reserved ==>
                && SlotOf(saga, id).record.Some? && SlotOf(saga, id).record.value.status.Failed?
                && SlotOf(saga, id).record.value.reason.Some?
                && SlotOf(saga, id).published
                    == SlotOf(old(saga), id).published
                        + [PaymentCompletedEvent(SlotOf(saga, id).record.value.invoice,
                               SlotOf(saga, id).record.value.decision, PaymentFailed,
                               SlotOf(saga, id).record.value.reason.value)]
      ensures NoFaults(old(script)) ==> ok && NoFaults(script)
    {
      ghost var start := saga;
      ghost var more;
      var result;
      reserved := false;
      ok, result, moves := ReserveBudget(id, invoice.department, invoice.total);
      if !ok { return; }
      if result == InsufficientBudget || result == BudgetNotFound {
        var reason := if result == InsufficientBudget then INSUFFICIENT_REASON
            else UnconfiguredReason(invoice.department);
        ok, more := RejectPayment(id, invoice, decision, reason);
        RunAppend(start, moves, more);
        moves := moves + more;
        return;
      }
      reserved := true;
      ok, more := SaveRecord(id, PaymentRecord(id, invoice, decision, Reserved, invoice.department, invoice.total,
          None));
      RunAppend(start, moves, more);
      moves := moves + more;
    }

    // A delivery, and the read of the record that decides how to go on.
    method Open(event: PaymentEvent) returns (ok: bool, record: Option<PaymentRecord>, ghost moves: seq<SagaMove>)
      requires Coupled() && Triggers(event) && SlotOf(saga, EventDecision(event).correlationId).pc.None?
      modifies this, gateway
      ensures moves != [] && moves[0] == Deliver(event)
      ensures Coupled() && saga == Run(old(saga), moves)
      ensures var id := EventDecision(event).correlationId;
              var slot := SlotOf(old(saga), id);
              if !ok then SlotOf(saga, id).pc.None?
              else record == slot.record && SlotOf(saga, id) == slot.(pc := Opened(event, record))
      ensures NoFaults(old(script)) ==> ok && NoFaults(script)
    {
      ghost var start := saga;
      ghost var more;
      moves := [Deliver(event)];
      Delivered(start, event);
      MemoryKept(saga, Deliver(event));
      StepStaysInOrder(gateway.FirstReply, saga, Deliver(event));
      saga := Step(saga, Deliver(event));
      ok, record, more := GetRecord(EventDecision(event).correlationId);
      RunAppend(start, moves, more);
      moves := moves + more;
    }

    // Runs the saga for one event, to its end or to the await that failed. Either way it is one of
    // the machine's handlers from its delivery on, interleaved with other tracking ids.
    method RunSaga(event: PaymentEvent) returns (ok: bool, ghost moves: seq<SagaMove>)
      requires Coupled() && Triggers(event) && SlotOf(saga, EventDecision(event).correlationId).pc.None?
      modifies this, gateway
      ensures moves != [] && moves[0] == Deliver(event)
      ensures Coupled() && saga == Run(old(saga), moves)
      ensures SlotOf(saga, EventDecision(event).correlationId).pc.None?
      ensures ok ==> Finished(SlotOf(old(saga), EventDecision(event).correlationId),
          SlotOf(saga, EventDecision(event).correlationId))
      ensures NoFaults(old(script)) ==> ok || StoppedAtRelease(SlotOf(saga, EventDecision(event).correlationId))
    {
      var invoice, decision := EventInvoice(event), EventDecision(event);
      var id := decision.correlationId;
      ghost var start := saga;
      ghost var more;
      assert SlotInOrder(gateway.FirstReply, id, SlotOf(saga, id));
      var record;
      ok, record, moves := Open(event);
      if !ok || (record.Some? && record.value.status in {Completed, Failed}) { return; }
      if record.None? {
        var reserved;
        ok, reserved, more := ReserveFirst(id, invoice, decision);
        RunAppend(start, moves, more);
        moves := moves + more;
        if !ok || !reserved { return; }
      }
      assert SlotInOrder(gateway.FirstReply, id, SlotOf(saga, id));
      ok, more := ExecuteCharge(id, if record.Some? then record.value else ReservedRecord(invoice, decision));
      RunAppend(start, moves, more);
      moves := moves + more;
    }

    method HandleDecisionCompleted(event: DecisionCompletedEvent) returns (ok: bool, ghost moves: seq<SagaMove>)
      requires Coupled() && SlotOf(saga, event.decision.correlationId).pc.None?
      modifies this, gateway
      ensures event.decision.route != AutoApprove ==> ok && saga == old(saga) && moves == []
      ensures event.decision.route == AutoApprove ==> moves != [] && moves[0] == Deliver(FromDecision(event))
      ensures ok && event.decision.route == AutoApprove ==>
                Finished(SlotOf(old(saga), event.decision.correlationId), SlotOf(saga, event.decision.correlationId))
      ensures NoFaults(old(script)) ==> ok || StoppedAtRelease(SlotOf(saga, event.decision.correlationId))
      ensures Coupled() && saga == Run(old(saga), moves)
          && SlotOf(saga, event.decision.correlationId).pc.None?
    {
      if event.decision.route != AutoApprove {
        return true, [];
      }
      ok, moves := RunSaga(FromDecision(event));
    }

    method HandleApprovalCompleted(event: ApprovalCompletedEvent) returns (ok: bool, ghost moves: seq<SagaMove>)
      requires Coupled() && SlotOf(saga, event.decision.correlationId).pc.None?
      modifies this, gateway
      ensures event.resolution != ApprovalApproved ==> ok && saga == old(saga) && moves == []
      ensures event.resolution == ApprovalApproved ==> moves != [] && moves[0] == Deliver(FromApproval(event))
      ensures ok && event.resolution == ApprovalApproved ==>
                Finished(SlotOf(old(saga), event.decision.correlationId), SlotOf(saga, event.decision.correlationId))
      ensures NoFaults(old(script)) ==> ok || StoppedAtRelease(SlotOf(saga, event.decision.correlationId))
      ensures Coupled() && saga == Run(old(saga), moves)
          && SlotOf(saga, event.decision.correlationId).pc.None?
    {
      if event.resolution != ApprovalApproved {
        return true, [];
      }
      ok, moves := RunSaga(FromApproval(event));
    }

    lemma Delivered(start: Saga, event: PaymentEvent)
      ensures Run(start, [Deliver(event)]) == Step(start, Deliver(event))
    {
      var none: seq<SagaMove> := [];
      assert none + [Deliver(event)] == [Deliver(event)];
      RunSnoc(start, none, Deliver(event));
    }
  }
}

// When a payment can still be brought to its report: by its handler, by a redelivery, or by deaths and
// redeliveries, before a gateway that answers each invoice in one way; and when a RESERVED record is
// stuck, because its compensating release would be refused.
module SagaProgress {
  import opened Contracts
  import opened BudgetRules
  import opened PaymentSaga
  import opened SagaGuarantees
  import opened SagaGateway

  // ---- What stands between a payment and its report ------------------------------------------------

  // The gateway accepts the invoice, or the department would take its money back.
  predicate Settles(first: Gateway, budgets: map<string, Budget>, invoice: Invoice) {
    || first(invoice).Accepted?
    || (invoice.department in budgets
        && budgets[invoice.department].remaining + invoice.total <= budgets[invoice.department].total)
  }

  predicate Refused(budgets: map<string, Budget>, invoice: Invoice) {
    invoice.department !in budgets || budgets[invoice.department].remaining < invoice.total
  }

  // A reserve now would be refused, which is reported, or lead to a record that settles.
  predicate Starts(first: Gateway, budgets: map<string, Budget>, invoice: Invoice) {
    || Refused(budgets, invoice)
    || first(invoice).Accepted?
    || budgets[invoice.department].remaining <= budgets[invoice.department].total
  }

  // What this tracking id can do by itself. A handler that dies after its reserve takes the amount with
  // it, so a positive one can be reserved until the department is within its total, or has too little.
  predicate CanSettle(first: Gateway, saga: Saga, id: string, invoice: Invoice) {
    var slot := SlotOf(saga, id);
    if slot.record.Some? then
      Settles(first, saga.budgets, invoice) || (slot.pc.Some? && slot.pc.value.SavingFailed?)
    else
      || Starts(first, saga.budgets, invoice) || invoice.total > 0.0
      || (slot.pc.Some? && slot.pc.value.SavingRejected?)
      || (slot.pc.Some? && slot.pc.value.SavingReserved? && Settles(first, saga.budgets, invoice))
  }

  // The slot is about this invoice.
  predicate SlotFor(invoice: Invoice, slot: Slot) {
    && (slot.record.Some? ==> slot.record.value.invoice == invoice)
    && (slot.pc.Some? ==>
          match slot.pc.value
          case Fetching(i, _) => slot.record.None? ==> i == invoice
          case Reserving(i, _) => i == invoice
          case SavingReserved(record) => record.invoice == invoice
          case SavingRejected(record) => record.invoice == invoice
          case _ => true)
  }

  // ---- A handler on its way ------------------------------------------------------------------------

  function StepsLeft(pc: Pc): nat {
    match pc
    case Fetching(_, _) => 6
    case Reserving(_, _) => 5
    case SavingReserved(_) => 4
    case Charging(_) => 3
    case Releasing(_, _) => 2
    case Publishing(_) => 0
    case _ => 1
  }

  // A handler that, left alone, publishes its outcome.
  predicate OnItsWay(first: Gateway, budgets: map<string, Budget>, slot: Slot, invoice: Invoice) {
    && slot.pc.Some?
    && match slot.pc.value
       case Fetching(_, _) =>
         if slot.record.None? then Starts(first, budgets, invoice)
         else slot.record.value.status.Reserved? && Settles(first, budgets, invoice)
       case Reserving(_, _) => Starts(first, budgets, invoice)
       case SavingReserved(_) => Settles(first, budgets, invoice)
       case Charging(_) => Settles(first, budgets, invoice)
       case Releasing(_, _) => Settles(first, budgets, invoice)
       case _ => true
  }

  ghost predicate SlotGood(first: Gateway, id: string, slot: Slot, invoice: Invoice) {
    SlotOk(id, slot) && SlotAnswered(first, slot) && SlotFor(invoice, slot)
  }

  lemma LastChargeAnswered(first: Gateway, id: string, slot: Slot, invoice: Invoice)
    requires SlotGood(first, id, slot, invoice) && slot.charges != []
    ensures Outcome(slot) == Some(first(invoice))
  {
    assert slot.charges[|slot.charges| - 1] in slot.charges;
  }

  lemma AwaitKeepsFor(budgets: map<string, Budget>, id: string, slot: Slot, reply: GatewayReply, invoice: Invoice)
    requires SlotOk(id, slot) && SlotFor(invoice, slot) && slot.pc.Some?
    ensures SlotFor(invoice, AdvanceSlot(budgets, slot, reply).1)
  {
  }

  lemma AwaitKeepsGood(first: Gateway, budgets: map<string, Budget>, id: string, slot: Slot, reply: GatewayReply,
          invoice: Invoice)
    requires SlotGood(first, id, slot, invoice) && slot.pc.Some?
    requires slot.pc.value.Charging? && slot.remembered.None? ==> reply == first(slot.pc.value.record.invoice)
    ensures SlotGood(first, id, AdvanceSlot(budgets, slot, reply).1, invoice)
  {
    AdvanceKeepsSlot(id, budgets, slot, reply);
    AdvanceKeepsAnswered(first, id, slot, budgets, reply);
    AwaitKeepsFor(budgets, id, slot, reply, invoice);
  }

  lemma PassiveKeepsGood(first: Gateway, saga: Saga, move: SagaMove, id: string, invoice: Invoice)
    requires SlotGood(first, id, SlotOf(saga, id), invoice)
    requires !Concerned(move, id) || move.Abort?
    ensures SlotGood(first, id, SlotOf(Step(saga, move), id), invoice)
  {
    if !Concerned(move, id) {
      OtherSparesSlot(saga, move, id);
    }
  }

  lemma ChargeLeads(first: Gateway, id: string, slot: Slot, invoice: Invoice)
    requires SlotGood(first, id, slot, invoice) && slot.pc.Some? && slot.pc.value.Charging?
    ensures var after := AfterCharge(slot, slot.pc.value.record, first(invoice));
            after.pc.Some? && if first(invoice).Accepted? then after.pc.value.SavingCompleted?
                              else after.pc.value.Releasing?
  {
    if slot.charges != [] {
      LastChargeAnswered(first, id, slot, invoice);
    }
  }

  lemma OneAwait(first: Gateway, budgets: map<string, Budget>, id: string, slot: Slot, invoice: Invoice)
    requires SlotGood(first, id, slot, invoice) && OnItsWay(first, budgets, slot, invoice)
    ensures var (after, slot') := AdvanceSlot(budgets, slot, first(invoice));
            if slot.pc.value.Publishing? then slot'.published != []
            else OnItsWay(first, after, slot', invoice) && StepsLeft(slot'.pc.value) < StepsLeft(slot.pc.value)
  {
    if slot.pc.value.Charging? {
      ChargeLeads(first, id, slot, invoice);
    }
    if slot.pc.value.Releasing? {
      LastChargeAnswered(first, id, slot, invoice);
    }
  }

  // ---- Moves of one tracking id alone --------------------------------------------------------------

  // Deaths of its handler, deliveries of this one event, and awaits that the gateway answers.
  predicate OwnMove(first: Gateway, move: SagaMove, id: string, event: PaymentEvent, invoice: Invoice) {
    move in {Abort(id), Deliver(event), Advance(id, first(invoice))}
  }

  predicate OwnMoves(first: Gateway, moves: seq<SagaMove>, id: string, event: PaymentEvent, invoice: Invoice) {
    forall i | 0 <= i < |moves| :: OwnMove(first, moves[i], id, event, invoice)
  }

  predicate Starter(event: PaymentEvent, id: string, invoice: Invoice) {
    Triggers(event) && EventDecision(event).correlationId == id && EventInvoice(event) == invoice
  }

  // A delivery to a slot without a record has to be of this invoice.
  lemma StepKeepsGood(first: Gateway, saga: Saga, move: SagaMove, id: string, invoice: Invoice)
    requires SlotGood(first, id, SlotOf(saga, id), invoice) && AnsweredMove(first, saga, move)
    requires move.Deliver? && Concerned(move, id) && SlotOf(saga, id).record.None? ==>
               EventInvoice(move.event) == invoice
    ensures SlotGood(first, id, SlotOf(Step(saga, move), id), invoice)
  {
    if !Concerned(move, id) || move.Abort? {
      PassiveKeepsGood(first, saga, move, id, invoice);
    } else if move.Advance? && SlotOf(saga, id).pc.Some? {
      Advanced(saga, id, move.reply);
      AwaitKeepsGood(first, saga.budgets, id, SlotOf(saga, id), move.reply, invoice);
    }
  }

  lemma OwnMoveIsAnswered(first: Gateway, saga: Saga, move: SagaMove, id: string, event: PaymentEvent, invoice: Invoice)
    requires SlotGood(first, id, SlotOf(saga, id), invoice)
    requires OwnMove(first, move, id, event, invoice) && Starter(event, id, invoice)
    ensures AnsweredMove(first, saga, move) && Concerned(move, id)
    ensures SlotGood(first, id, SlotOf(Step(saga, move), id), invoice)
  {
    StepKeepsGood(first, saga, move, id, invoice);
  }

  lemma Joined(first: Gateway, saga: Saga, move: SagaMove, rest: seq<SagaMove>, id: string, event: PaymentEvent,
          invoice: Invoice)
    requires OwnMove(first, move, id, event, invoice) && OwnMoves(first, rest, id, event, invoice)
    ensures OwnMoves(first, [move] + rest, id, event, invoice)
    ensures Run(saga, [move] + rest) == Run(Step(saga, move), rest)
  {
    var moves := [move] + rest;
    assert moves[0] == move && moves[1..] == rest;
    forall i | 0 <= i < |moves| ensures OwnMove(first, moves[i], id, event, invoice) {
      assert i > 0 ==> moves[i] == rest[i - 1];
    }
  }

  lemma {:induction false} HandlerReports(first: Gateway, saga: Saga, id: string, event: PaymentEvent, invoice: Invoice)
    returns (moves: seq<SagaMove>)
    requires SlotGood(first, id, SlotOf(saga, id), invoice)
    requires OnItsWay(first, saga.budgets, SlotOf(saga, id), invoice) && Starter(event, id, invoice)
    ensures OwnMoves(first, moves, id, event, invoice)
    ensures SlotOf(Run(saga, moves), id).published != []
    decreases StepsLeft(SlotOf(saga, id).pc.value)
  {
    var go := Advance(id, first(invoice));
    OneAwait(first, saga.budgets, id, SlotOf(saga, id), invoice);
    OwnMoveIsAnswered(first, saga, go, id, event, invoice);
    Advanced(saga, id, first(invoice));
    var rest: seq<SagaMove> := [];
    if !SlotOf(saga, id).pc.value.Publishing? {
      rest := HandlerReports(first, Step(saga, go), id, event, invoice);
    }
    Joined(first, saga, go, rest, id, event, invoice);
    moves := [go] + rest;
  }

  // With a fresh handler, once what it needs is there.
  lemma DeliveryReports(first: Gateway, saga: Saga, id: string, event: PaymentEvent, invoice: Invoice)
    returns (moves: seq<SagaMove>)
    requires SlotGood(first, id, SlotOf(saga, id), invoice) && Starter(event, id, invoice)
    requires var slot := SlotOf(saga, id);
             && slot.pc.None?
             && if slot.record.None? then Starts(first, saga.budgets, invoice)
                else slot.record.value.status.Reserved? && Settles(first, saga.budgets, invoice)
    ensures OwnMoves(first, moves, id, event, invoice)
    ensures SlotOf(Run(saga, moves), id).published != []
  {
    OwnMoveIsAnswered(first, saga, Deliver(event), id, event, invoice);
    var rest := HandlerReports(first, Step(saga, Deliver(event)), id, event, invoice);
    Joined(first, saga, Deliver(event), rest, id, event, invoice);
    moves := [Deliver(event)] + rest;
  }

  // A handler that dies right after its reserve.
  lemma ReservesAndDies(first: Gateway, saga: Saga, id: string, event: PaymentEvent, invoice: Invoice)
    returns (moves: seq<SagaMove>)
    requires SlotGood(first, id, SlotOf(saga, id), invoice) && Starter(event, id, invoice)
    requires SlotOf(saga, id).pc.None? && SlotOf(saga, id).record.None? && !Refused(saga.budgets, invoice)
    ensures OwnMoves(first, moves, id, event, invoice)
    ensures var after := Run(saga, moves);
            && after.budgets == Perform(saga.budgets, Reserve(invoice.department, invoice.total)).0
            && SlotOf(after, id) == SlotOf(saga, id)
  {
    var go := Advance(id, first(invoice));
    var none: seq<SagaMove> := [];
    var a := Step(saga, Deliver(event));
    var b := Step(a, go);
    var c := Step(b, go);
    Advanced(a, id, first(invoice));
    Advanced(b, id, first(invoice));
    Joined(first, c, Abort(id), none, id, event, invoice);
    Joined(first, b, go, [Abort(id)] + none, id, event, invoice);
    Joined(first, a, go, [go] + ([Abort(id)] + none), id, event, invoice);
    moves := [Deliver(event)] + ([go] + ([go] + ([Abort(id)] + none)));
    Joined(first, saga, Deliver(event), [go] + ([go] + ([Abort(id)] + none)), id, event, invoice);
  }

  lemma {:induction false} Appended(first: Gateway, saga: Saga, before: seq<SagaMove>, rest: seq<SagaMove>, id: string,
          event: PaymentEvent, invoice: Invoice)
    requires OwnMoves(first, before, id, event, invoice) && OwnMoves(first, rest, id, event, invoice)
    ensures OwnMoves(first, before + rest, id, event, invoice)
    ensures Run(saga, before + rest) == Run(Run(saga, before), rest)
  {
    RunAppend(saga, before, rest);
    var moves := before + rest;
    forall i | 0 <= i < |moves| ensures OwnMove(first, moves[i], id, event, invoice) {
      assert moves[i] == if i < |before| then before[i] else rest[i - |before|];
    }
  }

  // As often as it takes for an over-credited department to come down to its total, or below the amount.
  lemma {:induction false} StartsInTime(first: Gateway, saga: Saga, id: string, event: PaymentEvent, invoice: Invoice,
          n: nat)
    returns (moves: seq<SagaMove>)
    requires SlotGood(first, id, SlotOf(saga, id), invoice) && Starter(event, id, invoice)
    requires SlotOf(saga, id).pc.None? && SlotOf(saga, id).record.None?
    requires invoice.total > 0.0
    requires invoice.department in saga.budgets ==>
               var budget := saga.budgets[invoice.department];
               budget.remaining <= budget.total + n as real * invoice.total
    ensures OwnMoves(first, moves, id, event, invoice)
    ensures SlotOf(Run(saga, moves), id).published != []
    decreases n
  {
    if Starts(first, saga.budgets, invoice) {
      moves := DeliveryReports(first, saga, id, event, invoice);
    } else {
      var once := ReservesAndDies(first, saga, id, event, invoice);
      assert n > 0;
      assert n as real * invoice.total == (n - 1) as real * invoice.total + invoice.total;
      var rest := StartsInTime(first, Run(saga, once), id, event, invoice, n - 1);
      Appended(first, saga, once, rest, id, event, invoice);
      moves := once + rest;
    }
  }

  lemma TimesEnough(over: real, amount: real) returns (n: nat)
    requires amount > 0.0
    ensures over <= n as real * amount
  {
    if over <= 0.0 {
      n := 0;
    } else {
      var q := over / amount;
      n := q.Floor + 1;
      assert q <= n as real;
      assert over == q * amount <= n as real * amount;
    }
  }

  // Whatever can settle can be brought to its report by moves of its own.
  lemma IdleReports(first: Gateway, saga: Saga, id: string, event: PaymentEvent, invoice: Invoice)
    returns (moves: seq<SagaMove>)
    requires SlotGood(first, id, SlotOf(saga, id), invoice) && Starter(event, id, invoice)
    requires SlotOf(saga, id).pc.None? && CanSettle(first, saga, id, invoice)
    requires SlotOf(saga, id).record.Some? ==> SlotOf(saga, id).record.value.status.Reserved?
    ensures OwnMoves(first, moves, id, event, invoice)
    ensures SlotOf(Run(saga, moves), id).published != []
  {
    var d := invoice.department;
    if SlotOf(saga, id).record.Some? || Starts(first, saga.budgets, invoice) {
      moves := DeliveryReports(first, saga, id, event, invoice);
    } else {
      var n := TimesEnough(saga.budgets[d].remaining - saga.budgets[d].total, invoice.total);
      moves := StartsInTime(first, saga, id, event, invoice, n);
    }
  }

  // A payment that can be brought to its report, once its event can be delivered: a terminal record whose
  // handler died unpublished cannot.
  predicate CanReport(first: Gateway, saga: Saga, id: string, invoice: Invoice) {
    var slot := SlotOf(saga, id);
    if slot.record.Some? && Terminal(slot.record.value) then slot.pc.Some? && slot.pc.value.Publishing?
    else CanSettle(first, saga, id, invoice)
  }

  lemma PaymentReports(first: Gateway, saga: Saga, id: string, event: PaymentEvent, invoice: Invoice)
    returns (moves: seq<SagaMove>)
    requires SlotGood(first, id, SlotOf(saga, id), invoice) && Starter(event, id, invoice)
    requires CanReport(first, saga, id, invoice)
    ensures OwnMoves(first, moves, id, event, invoice)
    ensures SlotOf(Run(saga, moves), id).published != []
  {
    var slot := SlotOf(saga, id);
    if OnItsWay(first, saga.budgets, slot, invoice) {
      moves := HandlerReports(first, saga, id, event, invoice);
    } else if slot.pc.None? {
      moves := IdleReports(first, saga, id, event, invoice);
    } else {
      OwnMoveIsAnswered(first, saga, Abort(id), id, event, invoice);
      var rest := IdleReports(first, Step(saga, Abort(id)), id, event, invoice);
      Joined(first, saga, Abort(id), rest, id, event, invoice);
      moves := [Abort(id)] + rest;
    }
  }

  // ---- What cannot report stays so -----------------------------------------------------------------

  // Another tracking id's payment takes money from the department.
  predicate Takes(saga: Saga, move: SagaMove, id: string, department: string) {
    && !Concerned(move, id) && department in saga.budgets && department in Step(saga, move).budgets
    && Step(saga, move).budgets[department].remaining < saga.budgets[department].remaining
  }

  // No step of another payment gives this one a way out, unless it takes money from the department.
  lemma OtherStepGivesNoWay(first: Gateway, saga: Saga, move: SagaMove, id: string, invoice: Invoice)
    requires !Concerned(move, id) && !Takes(saga, move, id, invoice.department)
    requires SlotOf(saga, id).record.Some? && SlotOf(saga, id).record.value.status.Reserved? ==>
               invoice.department in saga.budgets
    ensures CanReport(first, Step(saga, move), id, invoice) ==> CanReport(first, saga, id, invoice)
  {
    OtherSparesSlot(saga, move, id);
    if invoice.department in saga.budgets {
      OtherStepKeepsTotal(saga, move, invoice.department);
    }
  }

  lemma OtherStepKeepsTotal(saga: Saga, move: SagaMove, department: string)
    requires department in saga.budgets
    ensures department in Step(saga, move).budgets
    ensures Step(saga, move).budgets[department].total == saga.budgets[department].total
  {
  }

  // Nor does its own.
  lemma AwaitGivesNoWay(first: Gateway, saga: Saga, id: string, reply: GatewayReply, invoice: Invoice)
    requires SlotGood(first, id, SlotOf(saga, id), invoice) && SlotOf(saga, id).pc.Some?
    requires AnsweredMove(first, saga, Advance(id, reply))
    ensures CanReport(first, Step(saga, Advance(id, reply)), id, invoice) ==> CanReport(first, saga, id, invoice)
  {
    var slot := SlotOf(saga, id);
    Advanced(saga, id, reply);
    if slot.charges != [] {
      LastChargeAnswered(first, id, slot, invoice);
    }
  }

  lemma OwnStepGivesNoWay(first: Gateway, saga: Saga, move: SagaMove, id: string, invoice: Invoice)
    requires SlotGood(first, id, SlotOf(saga, id), invoice) && Concerned(move, id)
    requires AnsweredMove(first, saga, move)
    ensures CanReport(first, Step(saga, move), id, invoice) ==> CanReport(first, saga, id, invoice)
  {
    if move.Advance? && SlotOf(saga, id).pc.Some? {
      AwaitGivesNoWay(first, saga, id, move.reply, invoice);
    }
  }
}

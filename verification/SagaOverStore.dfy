// The saga with its budget operations as they are: calls of the conditional-write machine, interleaved
// at every await with all other calls. Every run of it is a run of the saga whose budget operations
// are single steps, so what is proved of those runs holds of these.
module SagaOverStore {
  import opened Contracts
  import opened BudgetRules
  import opened Budgets
  import opened BudgetGuarantees
  import opened PaymentSaga
  import opened SagaGuarantees
  import opened Sums
  import Kv = OptimisticStore

  // `waiting`: which call each handler that has called the budget repository is waiting for.
  datatype Payments = Payments(world: BudgetWorld, slots: map<string, Slot>, waiting: map<string, nat>)

  datatype PayMove =
    | SeedCall(call: nat, department: string, total: real)
    | Begin(trackingId: string, call: nat)
    | Request(request: Kv.Move<BudgetOp>)
    | Return(trackingId: string)
    | Other(move: SagaMove)

  const NoPayments: Payments := Payments(Kv.EmptyWorld(), map[], map[])

  // ---- Steps ---------------------------------------------------------------------------------------

  predicate AtBudget(slot: Slot) {
    slot.pc.Some? && (slot.pc.value.Reserving? || slot.pc.value.Releasing?)
  }

  function OpOf(slot: Slot): BudgetOp
    requires AtBudget(slot)
  {
    match slot.pc.value
    case Reserving(invoice, _) => Reserve(invoice.department, invoice.total)
    case Releasing(record, _) => Release(record.department, record.reservedAmount)
  }

  // Where the repository's answer takes the handler.
  function AfterAnswer(slot: Slot, result: BudgetResult): Slot
    requires AtBudget(slot)
  {
    match slot.pc.value
    case Reserving(invoice, decision) => AfterReserve(slot, invoice, decision, result)
    case Releasing(record, message) =>
      slot.(pc := if result.Done? then Some(SavingFailed(record.(status := Failed, reason := Some(message)))) else None)
  }

  function SlotIn(p: Payments, id: string): Slot {
    if id in p.slots then p.slots[id] else EmptySlot
  }

  // Only calls whose caller is still there make requests.
  predicate Live(p: Payments, call: nat) {
    call in p.world.calls && (p.world.calls[call].op.Seed? || exists id <- p.waiting :: p.waiting[id] == call)
  }

  function AfterReturn(p: Payments, id: string): Payments
    requires id in p.waiting && p.waiting[id] in p.world.calls && AtBudget(SlotIn(p, id))
  {
    match p.world.calls[p.waiting[id]].pc
    case Returned(result) => p.(slots := p.slots[id := AfterAnswer(SlotIn(p, id), result)], waiting := p.waiting - {id})
    case ReadFailed => p.(slots := p.slots[id := SlotIn(p, id).(pc := None)], waiting := p.waiting - {id})
    case WritesRejected => p.(slots := p.slots[id := SlotIn(p, id).(pc := None)], waiting := p.waiting - {id})
    case _ => p
  }

  function AfterOther(p: Payments, move: SagaMove): Payments {
    var saga := Saga(map[], p.slots, map[]);
    match move
    case SeedBudget(_, _) => p
    case Advance(id, _) => if AtBudget(SlotIn(p, id)) then p else p.(slots := PaymentSaga.Step(saga, move).slots)
    case Abort(id) => p.(slots := PaymentSaga.Step(saga, move).slots, waiting := p.waiting - {id})
    case _ => p.(slots := PaymentSaga.Step(saga, move).slots)
  }

  function Step(p: Payments, move: PayMove): Payments {
    match move
    case SeedCall(call, department, total) => p.(world := Kv.Step(BudgetApi(), p.world,
        Kv.Invoke(call, Seed(department, total))))
    case Begin(id, call) =>
      if !AtBudget(SlotIn(p, id)) || id in p.waiting || call in p.world.calls then p
      else p.(world := Kv.Step(BudgetApi(), p.world, Kv.Invoke(call, OpOf(SlotIn(p, id)))),
          waiting := p.waiting[id := call])
    case Request(request) =>
      if request.Invoke? || !Live(p, request.id) then p else p.(world := Kv.Step(BudgetApi(), p.world, request))
    case Return(id) =>
      if id in p.waiting && p.waiting[id] in p.world.calls && AtBudget(SlotIn(p, id)) then AfterReturn(p, id) else p
    case Other(other) => AfterOther(p, other)
  }

  function Run(p: Payments, moves: seq<PayMove>): Payments
    decreases |moves|
  {
    if moves == [] then p else Step(Run(p, moves[..|moves| - 1]), moves[|moves| - 1])
  }

  // ---- What it looks like with single steps --------------------------------------------------------

  // An answer that is in the log has happened, whether or not the handler has seen it.
  predicate Answered(p: Payments, id: string) {
    id in p.waiting && p.waiting[id] in p.world.calls && p.world.calls[p.waiting[id]].pc.Returned?
  }

  function Seen(p: Payments, id: string): Slot {
    var slot := SlotIn(p, id);
    if Answered(p, id) && AtBudget(slot) then AfterAnswer(slot, p.world.calls[p.waiting[id]].pc.result) else slot
  }

  function View(p: Payments): map<string, Slot> {
    map id | id in p.slots :: Seen(p, id)
  }

  predicate WaitOk(p: Payments, id: string) {
    && id in p.slots && AtBudget(p.slots[id])
    && id in p.waiting && p.waiting[id] in p.world.calls && p.world.calls[p.waiting[id]].op == OpOf(p.slots[id])
  }

  ghost predicate Ok(p: Payments) {
    && Kv.Inv(BudgetApi(), p.world)
    && (forall id <- p.waiting :: WaitOk(p, id))
    && (forall a, b | a in p.waiting && b in p.waiting && p.waiting[a] == p.waiting[b] :: a == b)
  }

  predicate Abstracts(p: Payments, saga: Saga) {
    saga.budgets == InMemoryAfter(p.world.log) && saga.slots == View(p)
  }

  // ---- One request to the store --------------------------------------------------------------------

  // A step of the store's machine either leaves the log and all answers alone, or it adds one entry, by
  // the moving call, which then has its answer.
  predicate Quiet(world: BudgetWorld, after: BudgetWorld) {
    && after.log == world.log && world.calls.Keys <= after.calls.Keys
    && forall c <- world.calls ::
         && after.calls[c].op == world.calls[c].op
         && (after.calls[c].pc.Returned? <==> world.calls[c].pc.Returned?)
         && (world.calls[c].pc.Returned? ==> after.calls[c].pc == world.calls[c].pc)
  }

  predicate Answers(world: BudgetWorld, after: BudgetWorld, call: nat) {
    && call in world.calls && !world.calls[call].pc.Returned?
    && after.calls.Keys == world.calls.Keys
    && after.calls[call].op == world.calls[call].op && after.calls[call].pc.Returned?
    && (forall c <- world.calls | c != call :: after.calls[c] == world.calls[c])
    && |after.log| == |world.log| + 1 && after.log[..|world.log|] == world.log
    && after.log[|world.log|].op == world.calls[call].op
    && after.log[|world.log|].result == after.calls[call].pc.result
  }

  lemma RequestQuietOrAnswers(world: BudgetWorld, request: Kv.Move<BudgetOp>)
    ensures var after := Kv.Step(BudgetApi(), world, request);
            Quiet(world, after) || Answers(world, after, request.id)
  {
  }

  // The answer is the in-memory repository's, and so is the effect.
  lemma AnswerIsSequential(world: BudgetWorld, after: BudgetWorld, call: nat)
    requires Answers(world, after, call) && Kv.Justified(BudgetApi(), after.log)
    ensures var op := world.calls[call].op;
            (InMemoryAfter(after.log), after.calls[call].pc.result) == Perform(InMemoryAfter(world.log), op)
  {
    AnswersMatch(after.log, |world.log|);
  }

  // ---- Simulation ----------------------------------------------------------------------------------

  lemma WorldStepKeepsOk(p: Payments, world: BudgetWorld)
    requires Ok(p) && Kv.Inv(BudgetApi(), world)
    requires p.world.calls.Keys <= world.calls.Keys
        && forall c <- p.world.calls :: world.calls[c].op == p.world.calls[c].op
    ensures Ok(p.(world := world))
  {
    var after := p.(world := world);
    forall id <- after.waiting ensures WaitOk(after, id) {
      assert WaitOk(p, id);
    }
  }

  lemma QuietView(p: Payments, world: BudgetWorld)
    requires Ok(p) && Quiet(p.world, world)
    ensures View(p.(world := world)) == View(p)
  {
    forall id <- p.slots ensures Seen(p.(world := world), id) == Seen(p, id) {
      assert id in p.waiting ==> WaitOk(p, id);
    }
  }

  lemma SeedAnswerView(p: Payments, world: BudgetWorld, call: nat)
    requires Ok(p) && Answers(p.world, world, call) && p.world.calls[call].op.Seed?
    ensures View(p.(world := world)) == View(p)
  {
    forall id <- p.slots ensures Seen(p.(world := world), id) == Seen(p, id) {
      assert id in p.waiting ==> WaitOk(p, id) && p.waiting[id] != call;
    }
  }

  lemma AnswerView(p: Payments, world: BudgetWorld, id: string)
    requires Ok(p) && id in p.waiting && Answers(p.world, world, p.waiting[id])
    ensures var after := p.(world := world);
            && id in p.slots && AtBudget(p.slots[id]) && Seen(p, id) == p.slots[id]
            && View(after) == View(p)[id := AfterAnswer(p.slots[id], world.calls[p.waiting[id]].pc.result)]
  {
    var after := p.(world := world);
    assert WaitOk(p, id);
    forall other <- p.slots | other != id ensures Seen(after, other) == Seen(p, other) {
      assert other in p.waiting ==> WaitOk(p, other) && p.waiting[other] != p.waiting[id];
    }
  }

  lemma OneStep(saga: Saga, move: SagaMove)
    ensures PaymentSaga.Run(saga, [move]) == PaymentSaga.Step(saga, move)
  {
    var none: seq<SagaMove> := [];
    PaymentSaga.RunSnoc(saga, none, move);
    assert none + [move] == [move];
  }

  lemma AdvanceAtBudget(budgets: map<string, Budget>, slot: Slot, reply: GatewayReply)
    requires AtBudget(slot)
    ensures AdvanceSlot(budgets, slot, reply)
         == (Perform(budgets, OpOf(slot)).0, AfterAnswer(slot, Perform(budgets, OpOf(slot)).1))
  {
  }

  lemma AnswerSimulates(p: Payments, world: BudgetWorld, call: nat, saga: Saga) returns (move: SagaMove)
    requires Ok(p) && Abstracts(p, saga) && Live(p, call)
    requires Answers(p.world, world, call) && Kv.Justified(BudgetApi(), world.log)
    ensures Abstracts(p.(world := world), PaymentSaga.Step(saga, move))
    ensures PaymentSaga.Step(saga, move).drift == saga.drift
  {
    AnswerIsSequential(p.world, world, call);
    var op := p.world.calls[call].op;
    if op.Seed? {
      move := SeedBudget(op.department, op.total);
      SeedAnswerView(p, world, call);
    } else {
      var id :| id in p.waiting && p.waiting[id] == call;
      assert WaitOk(p, id);
      AnswerView(p, world, id);
      AdvanceAtBudget(saga.budgets, p.slots[id], Accepted);
      move := Advance(id, Accepted);
      assert SlotOf(saga, id) == p.slots[id];
    }
  }

  // What a move costs a department: a handler's death after the repository answered, whether or not
  // the handler had seen the answer, and before the save.
  function Costs(p: Payments, move: PayMove, department: string): real {
    if move.Other? && move.move.Abort? then AbortDrift(Seen(p, move.move.trackingId), department) else 0.0
  }

  function Cost(moves: seq<PayMove>, department: string): real
    decreases |moves|
  {
    if moves == [] then 0.0
    else
      var before := moves[..|moves| - 1];
      Cost(before, department) + Costs(Run(NoPayments, before), moves[|moves| - 1], department)
  }

  lemma RequestSimulates(p: Payments, request: Kv.Move<BudgetOp>, saga: Saga) returns (moves: seq<SagaMove>)
    requires Ok(p) && Abstracts(p, saga)
    ensures Ok(Step(p, Request(request))) && Abstracts(Step(p, Request(request)), PaymentSaga.Run(saga, moves))
    ensures PaymentSaga.Run(saga, moves).drift == saga.drift
  {
    moves := [];
    if !request.Invoke? && Live(p, request.id) {
      var world := Kv.Step(BudgetApi(), p.world, request);
      Kv.StepKeepsInv(BudgetApi(), p.world, request);
      RequestQuietOrAnswers(p.world, request);
      WorldStepKeepsOk(p, world);
      if Quiet(p.world, world) {
        QuietView(p, world);
      } else {
        var move := AnswerSimulates(p, world, request.id, saga);
        OneStep(saga, move);
        moves := [move];
      }
    }
  }

  lemma InvokeIsQuiet(world: BudgetWorld, call: nat, op: BudgetOp)
    ensures Quiet(world, Kv.Step(BudgetApi(), world, Kv.Invoke(call, op)))
  {
  }

  // A handler starts waiting for a call of its own that has not answered.
  predicate StartsWaiting(p: Payments, id: string, call: nat) {
    && id in p.slots && AtBudget(p.slots[id]) && id !in p.waiting
    && call in p.world.calls && p.world.calls[call].op == OpOf(p.slots[id]) && !p.world.calls[call].pc.Returned?
    && forall other <- p.waiting :: p.waiting[other] != call
  }

  lemma WaitingIsOk(p: Payments, id: string, call: nat)
    requires Ok(p) && StartsWaiting(p, id, call)
    ensures Ok(p.(waiting := p.waiting[id := call]))
  {
    var after := p.(waiting := p.waiting[id := call]);
    forall other <- after.waiting ensures WaitOk(after, other) {
      assert other in p.waiting ==> WaitOk(p, other);
    }
  }

  lemma WaitingIsUnseen(p: Payments, id: string, call: nat, other: string)
    requires StartsWaiting(p, id, call)
    ensures Seen(p.(waiting := p.waiting[id := call]), other) == Seen(p, other)
  {
  }

  lemma WaitingChangesNothing(p: Payments, id: string, call: nat)
    requires Ok(p) && StartsWaiting(p, id, call)
    ensures Ok(p.(waiting := p.waiting[id := call])) && View(p.(waiting := p.waiting[id := call])) == View(p)
  {
    WaitingIsOk(p, id, call);
    forall other <- p.slots ensures Seen(p.(waiting := p.waiting[id := call]), other) == Seen(p, other) {
      WaitingIsUnseen(p, id, call, other);
    }
  }

  lemma NobodyWaitsFor(p: Payments, call: nat)
    requires Ok(p) && call !in p.world.calls
    ensures forall other <- p.waiting :: p.waiting[other] != call
  {
    assert forall other <- p.waiting :: WaitOk(p, other);
  }

  lemma InvokedIsOk(p: Payments, call: nat, op: BudgetOp)
    requires Ok(p)
    ensures var invoked := p.(world := Kv.Step(BudgetApi(), p.world, Kv.Invoke(call, op)));
            Ok(invoked) && View(invoked) == View(p)
  {
    Kv.StepKeepsInv(BudgetApi(), p.world, Kv.Invoke(call, op));
    InvokeIsQuiet(p.world, call, op);
    WorldStepKeepsOk(p, Kv.Step(BudgetApi(), p.world, Kv.Invoke(call, op)));
    QuietView(p, Kv.Step(BudgetApi(), p.world, Kv.Invoke(call, op)));
  }

  lemma BeginSimulates(p: Payments, id: string, call: nat, saga: Saga)
    requires Ok(p) && Abstracts(p, saga)
    ensures Ok(Step(p, Begin(id, call))) && Abstracts(Step(p, Begin(id, call)), saga)
  {
    if AtBudget(SlotIn(p, id)) && id !in p.waiting && call !in p.world.calls {
      var op := OpOf(SlotIn(p, id));
      InvokedIsOk(p, call, op);
      NobodyWaitsFor(p, call);
      WaitingChangesNothing(p.(world := Kv.Step(BudgetApi(), p.world, Kv.Invoke(call, op))), id, call);
    }
  }

  lemma SlotChangeKeepsOk(p: Payments, id: string, slot: Slot)
    requires Ok(p)
    ensures Ok(p.(slots := p.slots[id := slot], waiting := p.waiting - {id}))
    ensures View(p.(slots := p.slots[id := slot], waiting := p.waiting - {id})) == View(p)[id := slot]
  {
    var after := p.(slots := p.slots[id := slot], waiting := p.waiting - {id});
    forall other <- after.waiting ensures WaitOk(after, other) {
      assert WaitOk(p, other);
    }
    forall other <- after.slots | other != id ensures Seen(after, other) == Seen(p, other) {
    }
  }

  lemma ReturnSimulates(p: Payments, id: string, saga: Saga) returns (moves: seq<SagaMove>)
    requires Ok(p) && Abstracts(p, saga)
    ensures Ok(Step(p, Return(id))) && Abstracts(Step(p, Return(id)), PaymentSaga.Run(saga, moves))
    ensures PaymentSaga.Run(saga, moves).drift == saga.drift
  {
    moves := [];
    var after := Step(p, Return(id));
    if after != p {
      assert WaitOk(p, id);
      SlotChangeKeepsOk(p, id, after.slots[id]);
      if Answered(p, id) {
        assert View(p)[id := after.slots[id]] == View(p);
      } else {
        moves := [Abort(id)];
        OneStep(saga, Abort(id));
        assert SlotOf(saga, id) == p.slots[id];
      }
    }
  }

  // ---- The handler's other moves -------------------------------------------------------------------

  lemma NotWaiting(p: Payments, id: string)
    requires Ok(p) && !AtBudget(SlotIn(p, id))
    ensures id !in p.waiting && p.waiting - {id} == p.waiting && Seen(p, id) == SlotIn(p, id)
  {
    assert id in p.waiting ==> WaitOk(p, id);
  }

  lemma SeenInView(p: Payments, saga: Saga, id: string)
    requires Abstracts(p, saga)
    ensures SlotOf(saga, id) == Seen(p, id)
  {
  }

  lemma DeliverSimulates(p: Payments, event: PaymentEvent, saga: Saga) returns (moves: seq<SagaMove>)
    requires Ok(p) && Abstracts(p, saga)
    ensures Ok(AfterOther(p, Deliver(event))) && Abstracts(AfterOther(p, Deliver(event)), PaymentSaga.Run(saga, moves))
    ensures PaymentSaga.Run(saga, moves).drift == saga.drift
  {
    moves := [];
    var id := EventDecision(event).correlationId;
    var after := AfterOther(p, Deliver(event));
    if Triggers(event) && SlotIn(p, id).pc.None? {
      NotWaiting(p, id);
      SeenInView(p, saga, id);
      SlotChangeKeepsOk(p, id, after.slots[id]);
      moves := [Deliver(event)];
      OneStep(saga, Deliver(event));
    } else {
      assert after == p;
    }
  }

  lemma AwaySpendsNothing(budgets: map<string, Budget>, slot: Slot, reply: GatewayReply)
    requires slot.pc.Some? && !AtBudget(slot)
    ensures AdvanceSlot(budgets, slot, reply) == (budgets, AdvanceSlot(map[], slot, reply).1)
  {
  }

  lemma AdvanceSimulates(p: Payments, id: string, reply: GatewayReply, saga: Saga) returns (moves: seq<SagaMove>)
    requires Ok(p) && Abstracts(p, saga)
    ensures Ok(AfterOther(p, Advance(id, reply)))
        && Abstracts(AfterOther(p, Advance(id, reply)), PaymentSaga.Run(saga, moves))
    ensures PaymentSaga.Run(saga, moves).drift == saga.drift
  {
    moves := [];
    var slot := SlotIn(p, id);
    var after := AfterOther(p, Advance(id, reply));
    if slot.pc.Some? && !AtBudget(slot) {
      NotWaiting(p, id);
      SeenInView(p, saga, id);
      AwaySpendsNothing(saga.budgets, slot, reply);
      SlotChangeKeepsOk(p, id, AdvanceSlot(map[], slot, reply).1);
      moves := [Advance(id, reply)];
      OneStep(saga, Advance(id, reply));
    } else {
      assert after == p;
    }
  }

  lemma AbortCosts(saga: Saga, id: string)
    ensures forall d: string ::
              DriftOf(PaymentSaga.Step(saga, Abort(id)), d) == DriftOf(saga, d) + AbortDrift(SlotOf(saga, id), d)
  {
  }

  lemma AbortSimulates(p: Payments, id: string, saga: Saga) returns (moves: seq<SagaMove>)
    requires Ok(p) && Abstracts(p, saga)
    ensures Ok(AfterOther(p, Abort(id))) && Abstracts(AfterOther(p, Abort(id)), PaymentSaga.Run(saga, moves))
    ensures forall d: string ::
              DriftOf(PaymentSaga.Run(saga, moves), d) == DriftOf(saga, d) + AbortDrift(Seen(p, id), d)
  {
    moves := [];
    var slot := SlotIn(p, id);
    var after := AfterOther(p, Abort(id));
    SeenInView(p, saga, id);
    if slot.pc.None? {
      NotWaiting(p, id);
      assert after == p;
    } else {
      SlotChangeKeepsOk(p, id, slot.(pc := None));
      assert Seen(p, id).(pc := None) == slot.(pc := None);
      moves := [Abort(id)];
      AbortCosts(saga, id);
      OneStep(saga, Abort(id));
      if Seen(p, id).pc.None? {
        assert View(p)[id := slot.(pc := None)] == View(p);
      }
    }
  }

  lemma RestartSimulates(p: Payments, saga: Saga) returns (moves: seq<SagaMove>)
    requires Ok(p) && Abstracts(p, saga)
    ensures Ok(AfterOther(p, Restart)) && Abstracts(AfterOther(p, Restart), PaymentSaga.Run(saga, moves))
    ensures PaymentSaga.Run(saga, moves).drift == saga.drift
  {
    moves := [];
    var after := AfterOther(p, Restart);
    if AllIdle(Saga(map[], p.slots, map[])) {
      forall id ensures id !in p.waiting {
        assert id in p.waiting ==> WaitOk(p, id);
      }
      assert View(p) == p.slots && View(after) == after.slots;
      moves := [Restart];
      OneStep(saga, Restart);
    } else {
      assert after == p;
    }
  }

  lemma StepSimulates(p: Payments, move: PayMove, saga: Saga) returns (moves: seq<SagaMove>)
    requires Ok(p) && Abstracts(p, saga)
    ensures Ok(Step(p, move)) && Abstracts(Step(p, move), PaymentSaga.Run(saga, moves))
    ensures forall d: string ::
              DriftOf(PaymentSaga.Run(saga, moves), d) == DriftOf(saga, d) + Costs(p, move, d)
  {
    moves := [];
    match move
    case SeedCall(call, department, total) => InvokedIsOk(p, call, Seed(department, total));
    case Begin(id, call) => BeginSimulates(p, id, call, saga);
    case Request(request) => moves := RequestSimulates(p, request, saga);
    case Return(id) => moves := ReturnSimulates(p, id, saga);
    case Other(other) =>
      match other
      case SeedBudget(_, _) =>
      case Deliver(event) => moves := DeliverSimulates(p, event, saga);
      case Advance(id, reply) => moves := AdvanceSimulates(p, id, reply, saga);
      case Abort(id) => moves := AbortSimulates(p, id, saga);
      case Restart => moves := RestartSimulates(p, saga);
  }

  // Every run over the store is, answer for answer, a run of the saga with single-step budgets, and
  // what its deaths cost is what they cost there.
  lemma {:induction false} EveryRunIsASaga(moves: seq<PayMove>) returns (sagaMoves: seq<SagaMove>)
    ensures Ok(Run(NoPayments, moves))
    ensures Abstracts(Run(NoPayments, moves), PaymentSaga.Run(EmptySaga, sagaMoves))
    ensures forall d: string :: DriftOf(PaymentSaga.Run(EmptySaga, sagaMoves), d) == Cost(moves, d)
    decreases |moves|
  {
    sagaMoves := [];
    if moves != [] {
      var before, last := moves[..|moves| - 1], moves[|moves| - 1];
      var first := EveryRunIsASaga(before);
      var more := StepSimulates(Run(NoPayments, before), last, PaymentSaga.Run(EmptySaga, first));
      PaymentSaga.RunAppend(EmptySaga, first, more);
      sagaMoves := first + more;
    }
  }

  // ---- Conservation over the store -----------------------------------------------------------------

  // What the slots hold of a department, with every answer in the log counted as arrived.
  ghost function StoreHeld(p: Payments, department: string): real {
    Held(Saga(map[], View(p), map[]), department)
  }

  lemma HeldIsInSlots(saga: Saga, other: Saga, department: string)
    requires saga.slots == other.slots
    ensures Held(saga, department) == Held(other, department)
  {
    SumSame(saga.slots.Keys, id => HeldBy(saga, department, id), id => HeldBy(other, department, id));
  }

  ghost predicate StoreConserved(p: Payments, department: string) {
    var stored := Kv.Lookup(p.world.store, BudgetKey(department));
    stored.Some? ==> stored.value.remaining + StoreHeld(p, department) == stored.value.total
  }

  // What the store holds of a department, in every run and whatever requests fail: remaining, plus
  // what the slots hold, plus what deaths cost, is the total.
  lemma {:induction false} StoreConservesMoney(moves: seq<PayMove>, department: string)
    ensures var p := Run(NoPayments, moves);
            var stored := Kv.Lookup(p.world.store, BudgetKey(department));
            && (stored.Some? ==>
                  stored.value.remaining + StoreHeld(p, department) + Cost(moves, department) == stored.value.total)
            && (stored.None? ==> Cost(moves, department) == 0.0)
  {
    var sagaMoves := EveryRunIsASaga(moves);
    var saga := PaymentSaga.Run(EmptySaga, sagaMoves);
    var p := Run(NoPayments, moves);
    MoneyIsAccounted(sagaMoves, department);
    HeldIsInSlots(saga, Saga(map[], View(p), map[]), department);
    ReplayMirrors(p.world.log);
    assert Kv.Lookup(p.world.store, BudgetKey(department)) == Kv.Get(Kv.Contents(p.world.store), BudgetKey(department));
    assert Kv.Get(Kv.Contents(p.world.store), BudgetKey(department)) == Kv.Get(saga.budgets, department);
  }

  lemma {:induction false} NoCostSoFar(moves: seq<PayMove>, department: string)
    requires forall k | 0 <= k < |moves| :: Costs(Run(NoPayments, moves[..k]), moves[k], department) == 0.0
    ensures Cost(moves, department) == 0.0
    decreases |moves|
  {
    if moves != [] {
      var before := moves[..|moves| - 1];
      forall k | 0 <= k < |before| ensures Costs(Run(NoPayments, before[..k]), before[k], department) == 0.0 {
        assert before[..k] == moves[..k];
      }
      NoCostSoFar(before, department);
    }
  }

  // The store conserves a department's money at every point of a run if and only if no handler of the
  // run dies holding some of it between the repository's answer and the save.
  lemma StoreConservedThroughoutIffNoDeathCosts(moves: seq<PayMove>, department: string)
    ensures (forall k | 0 <= k <= |moves| :: StoreConserved(Run(NoPayments, moves[..k]), department))
       <==> (forall k | 0 <= k < |moves| :: Costs(Run(NoPayments, moves[..k]), moves[k], department) == 0.0)
  {
    forall k | 0 <= k <= |moves|
      ensures StoreConserved(Run(NoPayments, moves[..k]), department) <==> Cost(moves[..k], department) == 0.0
    {
      StoreConservesMoney(moves[..k], department);
    }
    if forall k | 0 <= k <= |moves| :: StoreConserved(Run(NoPayments, moves[..k]), department) {
      forall k | 0 <= k < |moves| ensures Costs(Run(NoPayments, moves[..k]), moves[k], department) == 0.0 {
        assert moves[..k + 1][..k] == moves[..k];
        assert StoreConserved(Run(NoPayments, moves[..k]), department)
            && StoreConserved(Run(NoPayments, moves[..k + 1]), department);
      }
    }
    if forall k | 0 <= k < |moves| :: Costs(Run(NoPayments, moves[..k]), moves[k], department) == 0.0 {
      forall k | 0 <= k <= |moves| ensures StoreConserved(Run(NoPayments, moves[..k]), department) {
        forall i | 0 <= i < k ensures Costs(Run(NoPayments, moves[..k][..i]), moves[..k][i], department) == 0.0 {
          assert moves[..k][..i] == moves[..i];
        }
        NoCostSoFar(moves[..k], department);
      }
    }
  }

  // ---- Releases over the store ---------------------------------------------------------------------

  ghost function StoreHeldByOthers(p: Payments, department: string, id: string): real {
    HeldByOthers(Saga(map[], View(p), map[]), department, id)
  }

  lemma HeldByOthersIsInSlots(saga: Saga, other: Saga, department: string, id: string)
    requires saga.slots == other.slots
    ensures HeldByOthers(saga, department, id) == HeldByOthers(other, department, id)
  {
    SumSame(saga.slots.Keys - {id}, k => HeldBy(saga, department, k), k => HeldBy(other, department, k));
  }

  // A release that read the store now would be refused as corruption exactly when deaths have credited
  // its department with more than the other slots hold of it.
  lemma {:induction false} StoreCorruptionIffOverCredited(moves: seq<PayMove>, id: string)
    requires var slot := Seen(Run(NoPayments, moves), id);
             slot.pc.Some? && slot.pc.value.Releasing?
    ensures var p := Run(NoPayments, moves);
            var record := Seen(p, id).pc.value.record;
            var stored := Kv.Lookup(p.world.store, BudgetKey(record.department));
            && stored.Some?
            && (DecideBudget(Release(record.department, record.reservedAmount), stored) == Kv.Finish(BudgetCorruption)
                <==> StoreHeldByOthers(p, record.department, id) + Cost(moves, record.department) < 0.0)
  {
    var sagaMoves := EveryRunIsASaga(moves);
    var saga := PaymentSaga.Run(EmptySaga, sagaMoves);
    var p := Run(NoPayments, moves);
    SeenInView(p, saga, id);
    var d := SlotOf(saga, id).pc.value.record.department;
    CorruptionIffOverCredited(sagaMoves, id);
    HeldByOthersIsInSlots(saga, Saga(map[], View(p), map[]), d, id);
    ReplayMirrors(p.world.log);
    assert Kv.Lookup(p.world.store, BudgetKey(d)) == Kv.Get(Kv.Contents(p.world.store), BudgetKey(d));
    assert Kv.Get(Kv.Contents(p.world.store), BudgetKey(d)) == Kv.Get(saga.budgets, d);
  }

  // So where no death has cost the department anything and no amount is negative, it never is.
  lemma {:induction false} StoreReleaseNeverCorrupts(moves: seq<PayMove>, id: string)
    requires AmountsNonNegative(Saga(map[], View(Run(NoPayments, moves)), map[]))
    requires var slot := Seen(Run(NoPayments, moves), id);
             && slot.pc.Some? && slot.pc.value.Releasing?
             && Cost(moves, slot.pc.value.record.department) >= 0.0
    ensures var p := Run(NoPayments, moves);
            var record := Seen(p, id).pc.value.record;
            var stored := Kv.Lookup(p.world.store, BudgetKey(record.department));
            stored.Some? && DecideBudget(Release(record.department, record.reservedAmount), stored).Attempt?
  {
    var p := Run(NoPayments, moves);
    var shown := Saga(map[], View(p), map[]);
    var d := Seen(p, id).pc.value.record.department;
    StoreCorruptionIffOverCredited(moves, id);
    var sagaMoves := EveryRunIsASaga(moves);
    PaymentSaga.RunKeepsSlots(EmptySaga, sagaMoves);
    forall other <- shown.slots.Keys - {id} ensures HeldBy(shown, d, other) >= 0.0 {
      assert SlotOk(other, shown.slots[other]);
    }
    SumNonNegative(shown.slots.Keys - {id}, other => HeldBy(shown, d, other));
  }
}

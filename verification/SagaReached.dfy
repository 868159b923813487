// The windows and the dead end of the payment saga are reached: runs from nothing that fall into them.
module SagaReached {
  import opened Contracts
  import opened BudgetRules
  import opened PaymentSaga
  import opened SagaGuarantees
  import opened SagaGateway
  import opened SagaHistories
  import opened SagaStuck
  import Progress = SagaProgress

  function IdOf(event: PaymentEvent): string { EventDecision(event).correlationId }

  function DepartmentOf(event: PaymentEvent): string { EventInvoice(event).department }

  function AmountOf(event: PaymentEvent): real { EventInvoice(event).total }

  function RecordOf(event: PaymentEvent): PaymentRecord { ReservedRecord(EventInvoice(event), EventDecision(event)) }

  predicate HasRoomFor(saga: Saga, event: PaymentEvent) {
    DepartmentOf(event) in saga.budgets && saga.budgets[DepartmentOf(event)].remaining >= AmountOf(event)
  }

  function Less(saga: Saga, event: PaymentEvent): map<string, Budget>
    requires DepartmentOf(event) in saga.budgets
  {
    var budget := saga.budgets[DepartmentOf(event)];
    saga.budgets[DepartmentOf(event) := budget.(remaining := budget.remaining - AmountOf(event))]
  }

  function ToReserve(event: PaymentEvent, reply: GatewayReply): seq<SagaMove> {
    [Deliver(event), Advance(IdOf(event), reply), Advance(IdOf(event), reply)]
  }

  // A slot whose handler stands at this await, in place of the one there was.
  function At(saga: Saga, event: PaymentEvent, pc: Pc): Saga {
    saga.(slots := saga.slots[IdOf(event) := EmptySlot.(pc := Some(pc))])
  }

  lemma Delivers(saga: Saga, event: PaymentEvent, reply: GatewayReply)
    requires Triggers(event) && SlotOf(saga, IdOf(event)) == EmptySlot
    ensures Step(Step(saga, Deliver(event)), Advance(IdOf(event), reply))
         == At(saga, event, Reserving(EventInvoice(event), EventDecision(event)))
  {
    var fetching := Fetching(EventInvoice(event), EventDecision(event));
    assert Step(saga, Deliver(event)) == At(saga, event, fetching);
    assert SlotOf(At(saga, event, fetching), IdOf(event)).record.None?;
  }

  lemma ReservesAt(saga: Saga, event: PaymentEvent, reply: GatewayReply)
    requires HasRoomFor(saga, event)
    ensures Step(At(saga, event, Reserving(EventInvoice(event), EventDecision(event))), Advance(IdOf(event), reply))
         == At(saga.(budgets := Less(saga, event)), event, SavingReserved(RecordOf(event)))
  {
  }

  // A first delivery, up to the committed reserve.
  lemma ReachesReserve(saga: Saga, event: PaymentEvent, reply: GatewayReply)
    requires Triggers(event) && SlotOf(saga, IdOf(event)) == EmptySlot && HasRoomFor(saga, event)
    ensures Run(saga, ToReserve(event, reply))
         == At(saga.(budgets := Less(saga, event)), event, SavingReserved(RecordOf(event)))
  {
    var go := Advance(IdOf(event), reply);
    var none: seq<SagaMove> := [];
    RunSnoc(saga, none, Deliver(event));
    RunSnoc(saga, [Deliver(event)], go);
    RunSnoc(saga, [Deliver(event), go], go);
    assert none + [Deliver(event)] == [Deliver(event)] && [Deliver(event)] + [go] == [Deliver(event), go];
    assert [Deliver(event), go] + [go] == ToReserve(event, reply);
    Delivers(saga, event, reply);
    ReservesAt(saga, event, reply);
  }

  function ToCharge(event: PaymentEvent, reply: GatewayReply): seq<SagaMove> {
    [Advance(IdOf(event), reply), Advance(IdOf(event), reply)]
  }

  function ChargedSlot(event: PaymentEvent, reply: GatewayReply): Slot {
    var record := RecordOf(event);
    Slot(Some(record),
         match reply
         case Accepted => Some(SavingCompleted(record.(status := Completed, reason := Some(SUCCESS_REASON))))
         case Declined(message) => Some(Releasing(record, message)),
         Some(reply), [reply], [])
  }

  // From there, up to the charge.
  lemma ReachesCharge(saga: Saga, event: PaymentEvent, reply: GatewayReply)
    requires SlotOf(saga, IdOf(event)) == EmptySlot.(pc := Some(SavingReserved(RecordOf(event))))
    ensures Run(saga, ToCharge(event, reply))
         == saga.(slots := saga.slots[IdOf(event) := ChargedSlot(event, reply)])
  {
    var go := Advance(IdOf(event), reply);
    var none: seq<SagaMove> := [];
    RunSnoc(saga, none, go);
    RunSnoc(saga, [go], go);
    assert none + [go] == [go] && [go] + [go] == ToCharge(event, reply);
    var id, record := IdOf(event), RecordOf(event);
    var charging := EmptySlot.(record := Some(record), pc := Some(Charging(record)));
    assert Step(saga, go).slots == saga.slots[id := charging];
    assert [reply] == charging.charges + [reply];
    assert AfterCharge(charging, record, reply) == ChargedSlot(event, reply);
    assert saga.slots[id := charging][id := ChargedSlot(event, reply)] == saga.slots[id := ChargedSlot(event, reply)];
  }

  function Seeded(event: PaymentEvent, total: real): Saga {
    EmptySaga.(budgets := map[DepartmentOf(event) := Budget(DepartmentOf(event), total, total)])
  }

  lemma SeedRuns(event: PaymentEvent, total: real)
    ensures Run(EmptySaga, [SeedBudget(DepartmentOf(event), total)]) == Seeded(event, total)
  {
    var none: seq<SagaMove> := [];
    RunSnoc(EmptySaga, none, SeedBudget(DepartmentOf(event), total));
    assert none + [SeedBudget(DepartmentOf(event), total)] == [SeedBudget(DepartmentOf(event), total)];
    assert Perform(map[], Seed(DepartmentOf(event), total)).0 == Seeded(event, total).budgets;
  }

  // From nothing: one tracking id reserves twice and holds once.
  lemma ReservesTwiceFromNothing(event: PaymentEvent, total: real, reply: GatewayReply) returns (moves: seq<SagaMove>)
    requires Triggers(event) && AmountOf(event) <= total && 2.0 * AmountOf(event) <= total
    ensures var saga := Run(EmptySaga, moves);
            && DepartmentOf(event) in saga.budgets
            && saga.budgets[DepartmentOf(event)].remaining == total - 2.0 * AmountOf(event)
            && SlotOf(saga, IdOf(event)).record == Some(RecordOf(event))
  {
    var seed := [SeedBudget(DepartmentOf(event), total)];
    var id, go := IdOf(event), Advance(IdOf(event), reply);
    SeedRuns(event, total);
    ReachesReserve(Seeded(event, total), event, reply);
    RunAppend(EmptySaga, seed, ToReserve(event, reply));
    var begin := seed + ToReserve(event, reply);
    RunKeepsSlots(EmptySaga, begin);
    DyingAfterReserveReservesTwice(Run(EmptySaga, begin), event, reply);
    moves := begin + [Abort(id), Deliver(event), go, go, go];
    RunAppend(EmptySaga, begin, [Abort(id), Deliver(event), go, go, go]);
  }

  // From nothing: the process dies after the charge, and the key is charged again, whatever the replies.
  lemma ChargesTwiceFromNothing(event: PaymentEvent, total: real, reply: GatewayReply, again: GatewayReply)
    returns (moves: seq<SagaMove>)
    requires Triggers(event) && AmountOf(event) <= total
    ensures SlotOf(Run(EmptySaga, moves), IdOf(event)).charges == [reply, again]
  {
    var seed := [SeedBudget(DepartmentOf(event), total)];
    var id := IdOf(event);
    SeedRuns(event, total);
    ReachesReserve(Seeded(event, total), event, reply);
    RunAppend(EmptySaga, seed, ToReserve(event, reply));
    var begin := seed + ToReserve(event, reply);
    ReachesCharge(Run(EmptySaga, begin), event, reply);
    RunAppend(EmptySaga, begin, ToCharge(event, reply));
    begin := begin + ToCharge(event, reply);
    RunKeepsSlots(EmptySaga, begin);
    var deaths := DyingAfterChargeChargesAgain(Run(EmptySaga, begin), event, again);
    var rest := deaths + [Restart, Deliver(event), Advance(id, again), Advance(id, again)];
    RunAppend(EmptySaga, begin, rest);
    moves := begin + rest;
  }

  lemma ReachesRelease(saga: Saga, event: PaymentEvent, message: string)
    requires SlotOf(saga, IdOf(event)) == ChargedSlot(event, Declined(message))
    requires var d := DepartmentOf(event);
             d in saga.budgets && saga.budgets[d].remaining + AmountOf(event) <= saga.budgets[d].total
    ensures var d := DepartmentOf(event);
            var record := RecordOf(event).(status := Failed, reason := Some(message));
            Run(saga, [Advance(IdOf(event), Declined(message))])
            == saga.(budgets := saga.budgets[d :=
                         saga.budgets[d].(remaining := saga.budgets[d].remaining + AmountOf(event))],
                     slots := saga.slots[IdOf(event) :=
                         ChargedSlot(event, Declined(message)).(pc := Some(SavingFailed(record)))])
  {
    var go := Advance(IdOf(event), Declined(message));
    var none: seq<SagaMove> := [];
    RunSnoc(saga, none, go);
    assert none + [go] == [go];
  }

  lemma ReachesReply(saga: Saga, event: PaymentEvent, reply: GatewayReply)
    requires Triggers(event) && SlotOf(saga, IdOf(event)) == EmptySlot && HasRoomFor(saga, event)
    ensures var after := Run(saga, ToReserve(event, reply) + ToCharge(event, reply));
            after.budgets == Less(saga, event) && SlotOf(after, IdOf(event)) == ChargedSlot(event, reply)
  {
    ReachesReserve(saga, event, reply);
    ReachesCharge(Run(saga, ToReserve(event, reply)), event, reply);
    RunAppend(saga, ToReserve(event, reply), ToCharge(event, reply));
  }

  // A declined payment from its first delivery to the committed release.
  function ToRelease(event: PaymentEvent, message: string): seq<SagaMove> {
    ToReserve(event, Declined(message)) + ToCharge(event, Declined(message))
    + [Advance(IdOf(event), Declined(message))]
  }

  function ReleasedSlot(event: PaymentEvent, message: string): Slot {
    ChargedSlot(event, Declined(message)).(pc :=
      Some(SavingFailed(RecordOf(event).(status := Failed, reason := Some(message)))))
  }

  lemma {:induction false} ReachesDecline(saga: Saga, event: PaymentEvent, message: string)
    requires Triggers(event) && SlotOf(saga, IdOf(event)) == EmptySlot && HasRoomFor(saga, event)
    requires saga.budgets[DepartmentOf(event)].remaining <= saga.budgets[DepartmentOf(event)].total
    ensures var after := Run(saga, ToRelease(event, message));
            after.budgets == saga.budgets && SlotOf(after, IdOf(event)) == ReleasedSlot(event, message)
  {
    var before := ToReserve(event, Declined(message)) + ToCharge(event, Declined(message));
    ReachesReply(saga, event, Declined(message));
    ReachesRelease(Run(saga, before), event, message);
    RunAppend(saga, before, [Advance(IdOf(event), Declined(message))]);
    assert Run(saga, ToRelease(event, message)).budgets == saga.budgets;
  }

  // From nothing: one tracking id's money is given back twice, out of what another holds.
  lemma CreditsTwiceFromNothing(event: PaymentEvent, other: PaymentEvent, total: real, message: string)
    returns (moves: seq<SagaMove>)
    requires Triggers(event) && Triggers(other) && IdOf(other) != IdOf(event)
    requires DepartmentOf(other) == DepartmentOf(event) && AmountOf(event) <= AmountOf(other)
    requires AmountOf(other) <= total && AmountOf(event) + AmountOf(other) <= total && AmountOf(other) >= 0.0
    ensures var saga := Run(EmptySaga, moves);
            && DepartmentOf(event) in saga.budgets
            && saga.budgets[DepartmentOf(event)].remaining == total - AmountOf(other) + AmountOf(event)
            && SlotOf(saga, IdOf(event)).record == Some(RecordOf(event))
  {
    var seed := [SeedBudget(DepartmentOf(event), total)];
    var reply := Declined(message);
    var id, go := IdOf(event), Advance(IdOf(event), reply);
    SeedRuns(event, total);
    ReachesReserve(Seeded(event, total), other, reply);
    RunAppend(EmptySaga, seed, ToReserve(other, reply));
    var begin := seed + ToReserve(other, reply);
    ReachesDecline(Run(EmptySaga, begin), event, message);
    RunAppend(EmptySaga, begin, ToRelease(event, message));
    begin := begin + ToRelease(event, message);
    RunKeepsSlots(EmptySaga, begin);
    CreditsAgain(Run(EmptySaga, begin), event, message);
    moves := begin + [Abort(id), Deliver(event), go, go, go];
    RunAppend(EmptySaga, begin, [Abort(id), Deliver(event), go, go, go]);
  }

  lemma {:induction false} CreditsAgain(saga: Saga, event: PaymentEvent, message: string)
    requires SlotsOk(saga) && Triggers(event)
    requires SlotOf(saga, IdOf(event)) == ReleasedSlot(event, message)
    requires var d := DepartmentOf(event);
             d in saga.budgets && saga.budgets[d].remaining + AmountOf(event) <= saga.budgets[d].total
    ensures var go := Advance(IdOf(event), Declined(message));
            var after := Run(saga, [Abort(IdOf(event)), Deliver(event), go, go, go]);
            && DepartmentOf(event) in after.budgets
            && after.budgets[DepartmentOf(event)].remaining
               == saga.budgets[DepartmentOf(event)].remaining + AmountOf(event)
            && SlotOf(after, IdOf(event)).record == Some(RecordOf(event))
  {
    DyingAfterReleaseCreditsTwice(saga, event, Declined(message));
    var go := Advance(IdOf(event), Declined(message));
    RunKeepsSlots(saga, [Abort(IdOf(event)), Deliver(event), go, go, go]);
    assert SlotOk(IdOf(event), SlotOf(Run(saga, [Abort(IdOf(event)), Deliver(event), go, go, go]), IdOf(event)));
  }

  // ---- The dead end --------------------------------------------------------------------------------

  function ToDeadEnd(event: PaymentEvent, message: string): seq<SagaMove> {
    ToRelease(event, message) + [Abort(IdOf(event))]
  }

  lemma DeadEndIsOwn(first: Gateway, event: PaymentEvent, message: string)
    requires first(EventInvoice(event)) == Declined(message)
    ensures Progress.OwnMoves(first, ToDeadEnd(event, message), IdOf(event), event, EventInvoice(event))
  {
  }

  // From nothing, and with nobody else about: the gateway declines, the release is committed, the process
  // dies before the FAILED save. The record stays RESERVED for good, unless another payment takes money
  // from the department.
  lemma StuckFromNothing(first: Gateway, event: PaymentEvent, total: real) returns (moves: seq<SagaMove>)
    requires Triggers(event) && first(EventInvoice(event)).Declined?
    requires 0.0 < AmountOf(event) <= total
    ensures AnsweredRun(first, EmptySaga, moves)
    ensures var saga := Run(EmptySaga, moves);
            && SlotOf(saga, IdOf(event)).record == Some(RecordOf(event))
            && SlotOf(saga, IdOf(event)).pc.None? && SlotOf(saga, IdOf(event)).published == []
            && !CanBeSettled(first, saga, IdOf(event), DepartmentOf(event))
  {
    var message := first(EventInvoice(event)).message;
    var id, invoice, start := IdOf(event), EventInvoice(event), Seeded(event, total);
    var seed := SeedBudget(DepartmentOf(event), total);
    SeedRuns(event, total);
    ReachesDecline(start, event, message);
    RunSnoc(start, ToRelease(event, message), Abort(id));
    DeadEndIsOwn(first, event, message);
    OwnRun(first, start, ToDeadEnd(event, message), id, event, invoice);
    moves := [seed] + ToDeadEnd(event, message);
    RunAppend(EmptySaga, [seed], ToDeadEnd(event, message));
    assert moves[0] == seed && moves[1..] == ToDeadEnd(event, message);
    assert Step(EmptySaga, seed) == start by {
      assert EmptySaga.budgets[DepartmentOf(event) := Budget(DepartmentOf(event), total, total)]
          == start.budgets;
    }
    ReservedSettlesIff(first, moves, id);
  }
}

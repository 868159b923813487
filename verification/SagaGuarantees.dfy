// What every run of the payment saga guarantees.
module SagaGuarantees {
  import opened Contracts
  import opened BudgetRules
  import opened PaymentSaga
  import opened Sums

  // ---- Effects happen at most once, and the record says which ------------------------------------

  // With handlers dying at any await, the process restarting and events delivered any number of times:
  // a COMPLETED record was accepted by the last charge; a FAILED one was declined by it with its
  // reason, or was never charged and holds nothing; and at most one event is published.
  lemma EffectsAreExact(moves: seq<SagaMove>, id: string)
    ensures var slot := SlotOf(Run(EmptySaga, moves), id);
            && (slot.charges != [] ==> slot.record.Some?)
            && (slot.record.Some? ==>
                  var record := slot.record.value;
                  && record.trackingId == id == record.decision.correlationId
                  && (record.status.Completed? ==> Outcome(slot) == Some(Accepted))
                  && (record.status.Failed? ==>
                        || (slot.charges == [] && record.reservedAmount == 0.0)
                        || (Outcome(slot).Some? && Outcome(slot).value.Declined?
                            && record.reason == Some(Outcome(slot).value.message)))
                  && (!record.status.Failed? ==> record.reservedAmount == record.invoice.total))
            && |slot.published| <= 1
            && (slot.published != [] ==>
                  && slot.record.Some? && slot.record.value.reason.Some?
                  && var record, event := slot.record.value, slot.published[0];
                     && event.invoice == record.invoice && event.decision == record.decision
                     && event.reason == record.reason.value
                     && match event.resolution
                        case PaymentCompleted => record.status.Completed?
                        case PaymentFailed => record.status.Failed?)
  {
    RunKeepsSlots(EmptySaga, moves);
    var saga := Run(EmptySaga, moves);
    assert id in saga.slots ==> SlotOk(id, saga.slots[id]);
  }

  // What was published is what happened: PaymentCompleted if and only if the record is COMPLETED, hence
  // if and only if the last charge was accepted; otherwise the record is FAILED, and the event gives the
  // last charge's decline, or the reason for which nothing was charged.
  lemma PublishedSaysWhatHappened(moves: seq<SagaMove>, id: string, event: PaymentCompletedEvent)
    requires event in SlotOf(Run(EmptySaga, moves), id).published
    ensures var slot := SlotOf(Run(EmptySaga, moves), id);
            && slot.published == [event] && slot.record.Some?
            && var record := slot.record.value;
               && event.invoice == record.invoice && event.decision == record.decision
               && record.reason == Some(event.reason)
               && (event.resolution == PaymentCompleted <==> record.status == Completed)
               && (event.resolution == PaymentCompleted <==>
                     slot.charges != [] && slot.charges[|slot.charges| - 1] == Accepted)
               && (event.resolution == PaymentFailed <==> record.status == Failed)
               && (event.resolution == PaymentCompleted ==> event.reason == "payment executed successfully")
               && (event.resolution == PaymentFailed ==>
                     if slot.charges != [] then slot.charges[|slot.charges| - 1] == Declined(event.reason)
                     else
                       || event.reason == "insufficient department budget"
                       || event.reason == "no budget configured for department " + event.invoice.department)
  {
    RunKeepsSlots(EmptySaga, moves);
    var saga := Run(EmptySaga, moves);
    assert SlotOk(id, SlotOf(saga, id));
    assert event == SlotOf(saga, id).published[0];
  }

  // What one step may do to one slot: a record appears as RESERVED or FAILED, moves on only from
  // RESERVED and then keeps everything but status and reason; replies and events only accumulate.
  predicate SlotMoves(before: Slot, after: Slot) {
    && (match (before.record, after.record)
        case (None, None) => true
        case (None, Some(r)) => r.status.Reserved? || r.status.Failed?
        case (Some(_), None) => false
        case (Some(r), Some(r')) =>
          r' == r || (r.status.Reserved? && Terminal(r') && r' == r.(status := r'.status, reason := r'.reason)))
    && before.charges <= after.charges
    && before.published <= after.published
  }

  lemma AdvanceMovesSlot(id: string, budgets: map<string, Budget>, slot: Slot, reply: GatewayReply)
    requires SlotOk(id, slot) && slot.pc.Some?
    ensures SlotMoves(slot, AdvanceSlot(budgets, slot, reply).1)
  {
  }

  lemma StatusOnlyMovesForward(moves: seq<SagaMove>, move: SagaMove, id: string)
    ensures var before := Run(EmptySaga, moves);
            var after := Run(EmptySaga, moves + [move]);
            SlotMoves(SlotOf(before, id), SlotOf(after, id))
  {
    var before := Run(EmptySaga, moves);
    RunSnoc(EmptySaga, moves, move);
    RunKeepsSlots(EmptySaga, moves);
    StepMovesSlot(before, move, id);
  }

  lemma OwnStepMovesSlot(saga: Saga, move: SagaMove, id: string)
    requires SlotOf(saga, id).pc.Some? ==> SlotOk(id, SlotOf(saga, id))
    requires !move.Restart?
    ensures SlotMoves(SlotOf(saga, id), SlotOf(Step(saga, move), id))
  {
    if move.Advance? && move.trackingId == id && SlotOf(saga, id).pc.Some? {
      AdvanceMovesSlot(id, saga.budgets, SlotOf(saga, id), move.reply);
    }
  }

  lemma StepMovesSlot(saga: Saga, move: SagaMove, id: string)
    requires SlotsOk(saga)
    ensures SlotMoves(SlotOf(saga, id), SlotOf(Step(saga, move), id))
  {
    if !move.Restart? {
      OwnStepMovesSlot(saga, move, id);
    }
  }

  // A terminal record is never touched again, nor are the charges behind it; and of events, only its
  // one outcome event can still be published, once.
  lemma {:induction false} TerminalIsForever(saga: Saga, moves: seq<SagaMove>, id: string)
    requires SlotsOk(saga) && SlotOf(saga, id).record.Some? && Terminal(SlotOf(saga, id).record.value)
    ensures SlotSettled(SlotOf(saga, id), SlotOf(Run(saga, moves), id))
    decreases |moves|
  {
    if moves != [] {
      StepKeepsSlots(saga, moves[0]);
      TerminalStep(saga, moves[0], id);
      TerminalIsForever(Step(saga, moves[0]), moves[1..], id);
    }
  }

  predicate SlotSettled(before: Slot, after: Slot)
    requires before.record.Some?
  {
    && after.record == before.record && after.charges == before.charges
    && (after.published == before.published
        || (before.published == [] && after.published == [OutcomeEvent(before.record.value)]))
  }

  lemma TerminalStep(saga: Saga, move: SagaMove, id: string)
    requires SlotsOk(saga) && SlotOf(saga, id).record.Some? && Terminal(SlotOf(saga, id).record.value)
    ensures SlotSettled(SlotOf(saga, id), SlotOf(Step(saga, move), id))
  {
    assert SlotOk(id, SlotOf(saga, id));
  }

  lemma Advanced(saga: Saga, id: string, reply: GatewayReply)
    requires SlotOf(saga, id).pc.Some?
    ensures var next := Step(saga, Advance(id, reply));
            (next.budgets, SlotOf(next, id)) == AdvanceSlot(saga.budgets, SlotOf(saga, id), reply)
  {
  }

  lemma RunFive(saga: Saga, a: SagaMove, b: SagaMove, c: SagaMove, d: SagaMove, e: SagaMove)
    ensures Run(saga, [a, b, c, d, e]) == Step(Step(Step(Step(Step(saga, a), b), c), d), e)
  {
    var none: seq<SagaMove> := [];
    assert none + [a] == [a] && [a] + [b] == [a, b] && [a, b] + [c] == [a, b, c];
    assert [a, b, c] + [d] == [a, b, c, d] && [a, b, c, d] + [e] == [a, b, c, d, e];
    RunSnoc(saga, none, a);
    RunSnoc(saga, [a], b);
    RunSnoc(saga, [a, b], c);
    RunSnoc(saga, [a, b, c], d);
    RunSnoc(saga, [a, b, c, d], e);
  }

  // ---- Conservation --------------------------------------------------------------------------------

  predicate Live(record: PaymentRecord) { record.status.Reserved? || record.status.Completed? }

  // What a slot holds of a department's budget: its live record, plus a reserve committed but not
  // yet saved, less a release committed but not yet saved.
  function Contribution(slot: Slot, department: string): real {
    (match slot.record
     case Some(record) => if Live(record) && record.department == department then record.reservedAmount else 0.0
     case None => 0.0)
    + AbortDrift(slot, department)
  }

  predicate Concerns(slot: Slot, department: string) {
    || (slot.record.Some? && Live(slot.record.value) && slot.record.value.department == department)
    || AbortedDepartment(slot) == Some(department)
  }

  function HeldBy(saga: Saga, department: string, id: string): real {
    Contribution(SlotOf(saga, id), department)
  }

  ghost function Held(saga: Saga, department: string): real {
    Sum(saga.slots.Keys, id => HeldBy(saga, department, id))
  }

  ghost predicate Balanced(saga: Saga, department: string) {
    if department in saga.budgets then
      saga.budgets[department].remaining + Held(saga, department) + DriftOf(saga, department)
          == saga.budgets[department].total
    else
      DriftOf(saga, department) == 0.0 && forall id <- saga.slots :: !Concerns(saga.slots[id], department)
  }

  // Changing one slot changes the sum by exactly that slot's difference.
  lemma HeldChanges(saga: Saga, after: Saga, id: string, slot: Slot, department: string)
    requires after.slots == saga.slots[id := slot]
    ensures Held(after, department) == Held(saga, department) - HeldBy(saga, department, id) + HeldBy(after,
        department, id)
  {
    var f := (k: string) => HeldBy(saga, department, k);
    var g := (k: string) => HeldBy(after, department, k);
    assert after.slots.Keys == saga.slots.Keys + {id};
    assert after.slots.Keys - {id} == saga.slots.Keys - {id};
    SumSplit(after.slots.Keys, g, id);
    SumSame(after.slots.Keys - {id}, f, g);
    if id in saga.slots {
      SumSplit(saga.slots.Keys, f, id);
    } else {
      assert saga.slots.Keys - {id} == saga.slots.Keys;
      assert f(id) == 0.0;
    }
  }

  predicate MovesNoMoney(budgets: map<string, Budget>, slot: Slot, budgets': map<string, Budget>, slot': Slot,
          department: string) {
    && (department in budgets' <==> department in budgets)
    && (department !in budgets ==> !Concerns(slot', department))
    && (department in budgets ==>
          && budgets'[department].total == budgets[department].total
          && budgets'[department].remaining + Contribution(slot', department)
             == budgets[department].remaining + Contribution(slot, department))
  }

  lemma ReservingMovesNoMoney(id: string, budgets: map<string, Budget>, slot: Slot, reply: GatewayReply,
          department: string)
    requires SlotOk(id, slot) && slot.pc.Some? && slot.pc.value.Reserving?
    ensures var (budgets', slot') := AdvanceSlot(budgets, slot, reply);
            MovesNoMoney(budgets, slot, budgets', slot', department)
  {
  }

  lemma ReleasingMovesNoMoney(id: string, budgets: map<string, Budget>, slot: Slot, reply: GatewayReply,
          department: string)
    requires SlotOk(id, slot) && slot.pc.Some? && slot.pc.value.Releasing?
    requires department !in budgets ==> !Concerns(slot, department)
    ensures var (budgets', slot') := AdvanceSlot(budgets, slot, reply);
            MovesNoMoney(budgets, slot, budgets', slot', department)
  {
  }

  // Each await moves money between the budget and the slot, never out of the two.
  lemma AdvanceMovesNoMoney(id: string, budgets: map<string, Budget>, slot: Slot, reply: GatewayReply,
          department: string)
    requires SlotOk(id, slot) && slot.pc.Some?
    requires department !in budgets ==> !Concerns(slot, department)
    ensures var (budgets', slot') := AdvanceSlot(budgets, slot, reply);
            MovesNoMoney(budgets, slot, budgets', slot', department)
  {
    match slot.pc.value
    case Reserving(_, _) => ReservingMovesNoMoney(id, budgets, slot, reply, department);
    case Releasing(_, _) => ReleasingMovesNoMoney(id, budgets, slot, reply, department);
    case _ =>
  }

  lemma SeedKeepsBalance(saga: Saga, seeded: string, total: real, department: string)
    requires SlotsOk(saga) && Balanced(saga, department)
    ensures Balanced(Step(saga, SeedBudget(seeded, total)), department)
  {
    var after := Step(saga, SeedBudget(seeded, total));
    if department !in saga.budgets {
      SumZero(saga.slots.Keys, (id: string) => HeldBy(saga, department, id));
    }
    SumSame(saga.slots.Keys, (id: string) => HeldBy(saga, department, id),
        (id: string) => HeldBy(after, department, id));
  }

  lemma RestartKeepsBalance(saga: Saga, department: string)
    requires Balanced(saga, department)
    ensures Balanced(Step(saga, Restart), department)
  {
    var after := Step(saga, Restart);
    assert after.slots.Keys == saga.slots.Keys;
    assert forall id <- saga.slots :: Concerns(after.slots[id], department) == Concerns(saga.slots[id], department);
    SumSame(saga.slots.Keys, (id: string) => HeldBy(saga, department, id),
        (id: string) => HeldBy(after, department, id));
  }

  // Of one slot changed, only that slot's own money has to add up.
  lemma SlotKeepsBalance(saga: Saga, after: Saga, id: string, department: string)
    requires Balanced(saga, department)
    requires after.slots == saga.slots[id := SlotOf(after, id)]
    requires department in after.budgets <==> department in saga.budgets
    requires department !in saga.budgets ==>
               && DriftOf(after, department) == 0.0
               && !Concerns(SlotOf(after, id), department)
    requires department in saga.budgets ==>
               && after.budgets[department].total == saga.budgets[department].total
               && after.budgets[department].remaining + HeldBy(after, department, id) + DriftOf(after, department)
                  == saga.budgets[department].remaining + HeldBy(saga, department, id) + DriftOf(saga, department)
    ensures Balanced(after, department)
  {
    HeldChanges(saga, after, id, SlotOf(after, id), department);
  }

  lemma AbortKeepsBalance(saga: Saga, id: string, department: string)
    requires Balanced(saga, department)
    ensures Balanced(Step(saga, Abort(id)), department)
  {
    if SlotOf(saga, id).pc.Some? {
      SlotKeepsBalance(saga, Step(saga, Abort(id)), id, department);
    }
  }

  lemma AdvanceKeepsBalance(saga: Saga, id: string, reply: GatewayReply, department: string)
    requires SlotsOk(saga) && Balanced(saga, department)
    ensures Balanced(Step(saga, Advance(id, reply)), department)
  {
    var slot := SlotOf(saga, id);
    if slot.pc.Some? {
      AdvanceMovesNoMoney(id, saga.budgets, slot, reply, department);
      SlotKeepsBalance(saga, Step(saga, Advance(id, reply)), id, department);
    }
  }

  lemma StepKeepsBalance(saga: Saga, move: SagaMove, department: string)
    requires SlotsOk(saga) && Balanced(saga, department)
    ensures Balanced(Step(saga, move), department)
  {
    match move
    case SeedBudget(seeded, total) => SeedKeepsBalance(saga, seeded, total, department);
    case Restart => RestartKeepsBalance(saga, department);
    case Deliver(event) =>
      if Step(saga, move) != saga {
        SlotKeepsBalance(saga, Step(saga, move), EventDecision(event).correlationId, department);
      }
    case Advance(id, reply) => AdvanceKeepsBalance(saga, id, reply, department);
    case Abort(id) => AbortKeepsBalance(saga, id, department);
  }

  // Whatever the interleaving and wherever handlers die, a department's total is what remains, plus
  // what live records and in-flight steps hold, plus the drift of the two unlucky crash points.
  lemma {:induction false} MoneyIsAccounted(moves: seq<SagaMove>, department: string)
    ensures Balanced(Run(EmptySaga, moves), department)
    decreases |moves|
  {
    if moves == [] {
      assert Held(EmptySaga, department) == 0.0;
    } else {
      var before := moves[..|moves| - 1];
      MoneyIsAccounted(before, department);
      RunKeepsSlots(EmptySaga, before);
      assert moves == before + [moves[|moves| - 1]];
      RunSnoc(EmptySaga, before, moves[|moves| - 1]);
      StepKeepsBalance(Run(EmptySaga, before), moves[|moves| - 1], department);
    }
  }

  // A handler dying, or its save failing, after a committed reserve or release and before the save.
  predicate Strands(saga: Saga, move: SagaMove) {
    move.Abort? && AbortedDepartment(SlotOf(saga, move.trackingId)).Some?
  }

  ghost predicate NothingStranded(saga: Saga, moves: seq<SagaMove>)
    decreases |moves|
  {
    moves != [] ==> !Strands(saga, moves[0]) && NothingStranded(Step(saga, moves[0]), moves[1..])
  }

  lemma {:induction false} NoStrandingNoDrift(saga: Saga, moves: seq<SagaMove>)
    requires NothingStranded(saga, moves)
    ensures Run(saga, moves).drift == saga.drift
    decreases |moves|
  {
    if moves != [] {
      NoStrandingNoDrift(Step(saga, moves[0]), moves[1..]);
    }
  }

  // With no handler running, that is: remaining plus the live records' amounts is the total.
  ghost function LiveAmount(saga: Saga, department: string): real {
    Sum(saga.slots.Keys, (id: string) =>
      match SlotOf(saga, id).record
      case Some(record) => if Live(record) && record.department == department then record.reservedAmount else 0.0
      case None => 0.0)
  }

  lemma ConservationAtRest(moves: seq<SagaMove>, department: string)
    requires var saga := Run(EmptySaga, moves);
             department in saga.budgets && forall id <- saga.slots :: saga.slots[id].pc.None?
    requires NothingStranded(EmptySaga, moves)
    ensures var saga := Run(EmptySaga, moves);
            saga.budgets[department].remaining + LiveAmount(saga, department) == saga.budgets[department].total
  {
    var saga := Run(EmptySaga, moves);
    MoneyIsAccounted(moves, department);
    NoStrandingNoDrift(EmptySaga, moves);
    SumSame(saga.slots.Keys,
            (id: string) => HeldBy(saga, department, id),
            (id: string) =>
              match SlotOf(saga, id).record
              case Some(record) => if Live(record) && record.department == department then record.reservedAmount
                  else 0.0
              case None => 0.0);
  }

  // ---- Release and corruption ----------------------------------------------------------------------

  ghost function HeldByOthers(saga: Saga, department: string, id: string): real {
    Sum(saga.slots.Keys - {id}, other => HeldBy(saga, department, other))
  }

  // A compensating release is refused as corruption exactly when the drift has credited the
  // department with more than the other slots hold of it.
  lemma CorruptionIffOverCredited(moves: seq<SagaMove>, id: string)
    requires var slot := SlotOf(Run(EmptySaga, moves), id);
             slot.pc.Some? && slot.pc.value.Releasing?
    ensures var saga := Run(EmptySaga, moves);
            var record := SlotOf(saga, id).pc.value.record;
            var result := Perform(saga.budgets, Release(record.department, record.reservedAmount)).1;
            && result in {Done, BudgetCorruption}
            && (result == BudgetCorruption <==>
                  HeldByOthers(saga, record.department, id) + DriftOf(saga, record.department) < 0.0)
  {
    var saga := Run(EmptySaga, moves);
    RunKeepsSlots(EmptySaga, moves);
    var record := SlotOf(saga, id).pc.value.record;
    var d := record.department;
    MoneyIsAccounted(moves, d);
    assert SlotOk(id, saga.slots[id]);
    assert HeldBy(saga, d, id) == record.reservedAmount;
    SumSplit(saga.slots.Keys, other => HeldBy(saga, d, other), id);
  }

  ghost predicate AmountsNonNegative(saga: Saga) {
    forall id <- saga.slots ::
      && (saga.slots[id].record.Some? ==> saga.slots[id].record.value.reservedAmount >= 0.0)
      && (saga.slots[id].pc.Some? && saga.slots[id].pc.value.SavingReserved? ==>
            saga.slots[id].pc.value.record.reservedAmount >= 0.0)
  }

  // On runs with no stranding and non-negative invoice totals, release never reports corruption and
  // always succeeds.
  lemma ReleaseNeverCorrupts(moves: seq<SagaMove>, id: string)
    requires NothingStranded(EmptySaga, moves)
    requires AmountsNonNegative(Run(EmptySaga, moves))
    requires var slot := SlotOf(Run(EmptySaga, moves), id);
             slot.pc.Some? && slot.pc.value.Releasing?
    ensures var saga := Run(EmptySaga, moves);
            var record := SlotOf(saga, id).pc.value.record;
            Perform(saga.budgets, Release(record.department, record.reservedAmount)).1 == Done
  {
    var saga := Run(EmptySaga, moves);
    RunKeepsSlots(EmptySaga, moves);
    var d := SlotOf(saga, id).pc.value.record.department;
    CorruptionIffOverCredited(moves, id);
    NoStrandingNoDrift(EmptySaga, moves);
    forall other <- saga.slots.Keys - {id} ensures HeldBy(saga, d, other) >= 0.0 {
      assert SlotOk(other, saga.slots[other]);
    }
    SumNonNegative(saga.slots.Keys - {id}, other => HeldBy(saga, d, other));
  }

  // A handler dies and its event is delivered again: the handler of the new delivery stands where its
  // slot says, and nothing else has moved.
  lemma DiesAndIsDelivered(saga: Saga, event: PaymentEvent)
    requires Triggers(event) && SlotOf(saga, EventDecision(event).correlationId).pc.Some?
    ensures var id := EventDecision(event).correlationId;
            var after := Step(Step(saga, Abort(id)), Deliver(event));
            && after.budgets == saga.budgets
            && SlotOf(after, id)
               == SlotOf(saga, id).(pc := Some(Fetching(EventInvoice(event), EventDecision(event))))
  {
  }

  // The reserve window is real: a handler that dies after its reserve and before its save leaves no
  // record, and the next delivery of the event reserves a second time if the budget allows it.
  lemma DyingAfterReserveReservesTwice(saga: Saga, event: PaymentEvent, reply: GatewayReply)
    requires SlotsOk(saga) && Triggers(event)
    requires var slot := SlotOf(saga, EventDecision(event).correlationId);
             && slot.pc.Some? && slot.pc.value.SavingReserved?
             && var record := slot.pc.value.record;
                record.invoice == EventInvoice(event) && record.decision == EventDecision(event)
                && record.department in saga.budgets
                && saga.budgets[record.department].remaining >= record.reservedAmount
    ensures var id := EventDecision(event).correlationId;
            var record := SlotOf(saga, id).pc.value.record;
            var after := Run(saga, [Abort(id), Deliver(event), Advance(id, reply), Advance(id, reply),
                Advance(id, reply)]);
            && record.department in after.budgets
            && after.budgets[record.department].remaining
                == saga.budgets[record.department].remaining - record.reservedAmount
            && SlotOf(after, id).record == Some(record)
  {
    var id := EventDecision(event).correlationId;
    var go := Advance(id, reply);
    var slot := SlotOf(saga, id);
    var record := slot.pc.value.record;
    assert SlotOk(id, slot);
    RunFive(saga, Abort(id), Deliver(event), go, go, go);
    DiesAndIsDelivered(saga, event);
    var fetching := Step(Step(saga, Abort(id)), Deliver(event));
    assert SlotOf(fetching, id) == slot.(pc := Some(Fetching(record.invoice, record.decision)));
    var reserving := Step(fetching, go);
    Advanced(fetching, id, reply);
    assert SlotOf(reserving, id) == slot.(pc := Some(Reserving(record.invoice, record.decision)));
    var saving := Step(reserving, go);
    Advanced(reserving, id, reply);
    assert ReservedRecord(record.invoice, record.decision) == record;
    assert SlotOf(saving, id) == slot;
    Advanced(saving, id, reply);
  }

  // Fetching a RESERVED record that the gateway declines, from memory or again, leads in two awaits to
  // the release.
  lemma DeclinedSlot(budgets: map<string, Budget>, slot: Slot, invoice: Invoice, decision: Decision,
          reply: GatewayReply)
    requires SlotDeclines(slot, reply)
    ensures var record, outcome := slot.record.value, Outcome(slot).value;
            var charging := slot.(pc := Some(Charging(record)));
            && AdvanceSlot(budgets, slot.(pc := Some(Fetching(invoice, decision))), reply) == (budgets, charging)
            && var (after, releasing) := AdvanceSlot(budgets, charging, reply);
               after == budgets && releasing.pc == Some(Releasing(record, outcome.message))
                   && releasing.record == slot.record
  {
  }

  predicate SlotDeclines(slot: Slot, reply: GatewayReply) {
    && slot.record.Some? && slot.record.value.status.Reserved?
    && Outcome(slot).Some? && Outcome(slot).value.Declined?
    && if slot.remembered.Some? then slot.remembered == Outcome(slot) else Some(reply) == Outcome(slot)
  }

  lemma ReleasesAgain(budgets: map<string, Budget>, slot: Slot, record: PaymentRecord, message: string,
          reply: GatewayReply)
    requires slot.pc == Some(Releasing(record, message)) && record.department in budgets
    requires budgets[record.department].remaining + record.reservedAmount <= budgets[record.department].total
    ensures var (after, saving) := AdvanceSlot(budgets, slot, reply);
            && record.department in after
            && after[record.department].remaining == budgets[record.department].remaining + record.reservedAmount
            && saving.pc == Some(SavingFailed(record.(status := Failed, reason := Some(message))))
  {
  }

  // So is the release window: a handler that dies after its release and is delivered again releases a
  // second time, whenever the department has room for it.
  lemma DyingAfterReleaseCreditsTwice(saga: Saga, event: PaymentEvent, reply: GatewayReply)
    requires SlotsOk(saga) && Triggers(event)
    requires var slot := SlotOf(saga, EventDecision(event).correlationId);
             && slot.pc.Some? && slot.pc.value.SavingFailed? && SlotDeclines(slot, reply)
             && var record := slot.pc.value.record;
                record.department in saga.budgets
                && saga.budgets[record.department].remaining + record.reservedAmount
                    <= saga.budgets[record.department].total
    ensures var id := EventDecision(event).correlationId;
            var record := SlotOf(saga, id).pc.value.record;
            var after := Run(saga, [Abort(id), Deliver(event), Advance(id, reply), Advance(id, reply),
                Advance(id, reply)]);
            && record.department in after.budgets
            && after.budgets[record.department].remaining
                == saga.budgets[record.department].remaining + record.reservedAmount
            && SlotOf(after, id).pc == SlotOf(saga, id).pc
  {
    var id := EventDecision(event).correlationId;
    var go := Advance(id, reply);
    var slot := SlotOf(saga, id);
    assert SlotOk(id, slot);
    RunFive(saga, Abort(id), Deliver(event), go, go, go);
    DeclinedSlot(saga.budgets, slot, EventInvoice(event), EventDecision(event), reply);
    DiesAndIsDelivered(saga, event);
    var fetching := Step(Step(saga, Abort(id)), Deliver(event));
    Advanced(fetching, id, reply);
    Advanced(Step(fetching, go), id, reply);
    var releasing := Step(Step(fetching, go), go);
    ReleasesAgain(saga.budgets, SlotOf(releasing, id), slot.record.value, Outcome(slot).value.message, reply);
    Advanced(releasing, id, reply);
  }
}

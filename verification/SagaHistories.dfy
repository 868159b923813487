// What a run of the payment saga did, counted over its moves: reserves, releases, charges, and the
// handlers that died between an effect and the save that records it.
module SagaHistories {
  import opened Contracts
  import opened BudgetRules
  import opened PaymentSaga
  import opened SagaGuarantees

  type Happening = (Saga, SagaMove) -> bool

  function Count(start: Saga, moves: seq<SagaMove>, happening: Happening): nat
    decreases |moves|
  {
    if moves == [] then 0
    else
      var before := moves[..|moves| - 1];
      Count(start, before, happening) + if happening(Run(start, before), moves[|moves| - 1]) then 1 else 0
  }

  predicate Awaits(saga: Saga, move: SagaMove, id: string) {
    move.Advance? && move.trackingId == id && SlotOf(saga, id).pc.Some?
  }

  predicate Kills(saga: Saga, move: SagaMove, id: string) {
    move.Abort? && move.trackingId == id && SlotOf(saga, id).pc.Some?
  }

  predicate ReserveCommits(saga: Saga, move: SagaMove, id: string) {
    && Awaits(saga, move, id) && SlotOf(saga, id).pc.value.Reserving?
    && var invoice := SlotOf(saga, id).pc.value.invoice;
       Perform(saga.budgets, Reserve(invoice.department, invoice.total)).1 == Done
  }

  predicate ReleaseCommits(saga: Saga, move: SagaMove, id: string) {
    && Awaits(saga, move, id) && SlotOf(saga, id).pc.value.Releasing?
    && var record := SlotOf(saga, id).pc.value.record;
       Perform(saga.budgets, Release(record.department, record.reservedAmount)).1 == Done
  }

  function Reserves(id: string): Happening { (saga: Saga, move: SagaMove) => ReserveCommits(saga, move, id) }

  function Releases(id: string): Happening { (saga: Saga, move: SagaMove) => ReleaseCommits(saga, move, id) }

  function DiesReserved(id: string): Happening {
    (saga: Saga, move: SagaMove) => Kills(saga, move, id) && SlotOf(saga, id).pc.value.SavingReserved?
  }

  function DiesReleased(id: string): Happening {
    (saga: Saga, move: SagaMove) => Kills(saga, move, id) && SlotOf(saga, id).pc.value.SavingFailed?
  }

  // ---- Every reserve and every release is accounted for --------------------------------------------

  // Its record came from a reserve: it is not a rejection.
  predicate FromReserve(slot: Slot) {
    slot.record.Some? && !(slot.record.value.status.Failed? && slot.charges == [])
  }

  // Its record came from a release.
  predicate Compensated(slot: Slot) {
    slot.record.Some? && slot.record.value.status.Failed? && slot.charges != []
  }

  function One(condition: bool): nat { if condition then 1 else 0 }

  function ReservesShown(slot: Slot): nat {
    One(FromReserve(slot)) + One(slot.pc.Some? && slot.pc.value.SavingReserved?)
  }

  function ReleasesShown(slot: Slot): nat {
    One(Compensated(slot)) + One(slot.pc.Some? && slot.pc.value.SavingFailed?)
  }

  lemma AdvanceShowsReserve(id: string, budgets: map<string, Budget>, slot: Slot, reply: GatewayReply)
    requires SlotOk(id, slot) && slot.pc.Some?
    ensures ReservesShown(AdvanceSlot(budgets, slot, reply).1) == ReservesShown(slot)
            + One(slot.pc.value.Reserving?
                  && Perform(budgets, Reserve(slot.pc.value.invoice.department, slot.pc.value.invoice.total)).1 == Done)
  {
  }

  lemma AdvanceShowsRelease(id: string, budgets: map<string, Budget>, slot: Slot, reply: GatewayReply)
    requires SlotOk(id, slot) && slot.pc.Some?
    ensures ReleasesShown(AdvanceSlot(budgets, slot, reply).1) == ReleasesShown(slot)
            + One(slot.pc.value.Releasing?
                  && Perform(budgets, Release(slot.pc.value.record.department,
                      slot.pc.value.record.reservedAmount)).1 == Done)
  {
  }

  lemma StepShows(saga: Saga, move: SagaMove, id: string)
    requires SlotsOk(saga)
    ensures ReservesShown(SlotOf(Step(saga, move), id)) + One(DiesReserved(id)(saga, move))
         == ReservesShown(SlotOf(saga, id)) + One(Reserves(id)(saga, move))
    ensures ReleasesShown(SlotOf(Step(saga, move), id)) + One(DiesReleased(id)(saga, move))
         == ReleasesShown(SlotOf(saga, id)) + One(Releases(id)(saga, move))
  {
    var slot := SlotOf(saga, id);
    assert SlotOk(id, slot);
    if !Concerned(move, id) {
      OtherSparesSlot(saga, move, id);
    } else if move.Advance? && slot.pc.Some? {
      AdvanceShowsReserve(id, saga.budgets, slot, move.reply);
      AdvanceShowsRelease(id, saga.budgets, slot, move.reply);
    }
  }

  // In every run, for each tracking id: its committed reserves are the one its record came from, the
  // one its handler is about to save, and one for each handler that died before that save. So too its
  // committed releases.
  lemma {:induction false} EffectsAreCounted(moves: seq<SagaMove>, id: string)
    ensures var slot := SlotOf(Run(EmptySaga, moves), id);
            && Count(EmptySaga, moves, Reserves(id))
               == One(FromReserve(slot)) + One(slot.pc.Some? && slot.pc.value.SavingReserved?)
                  + Count(EmptySaga, moves, DiesReserved(id))
            && Count(EmptySaga, moves, Releases(id))
               == One(Compensated(slot)) + One(slot.pc.Some? && slot.pc.value.SavingFailed?)
                  + Count(EmptySaga, moves, DiesReleased(id))
    decreases |moves|
  {
    if moves != [] {
      var before, last := moves[..|moves| - 1], moves[|moves| - 1];
      EffectsAreCounted(before, id);
      assert moves == before + [last];
      RunSnoc(EmptySaga, before, last);
      RunKeepsSlots(EmptySaga, before);
      StepShows(Run(EmptySaga, before), last, id);
    }
  }

  // Once a record is stored, no later step of any run reserves for its tracking id, whoever dies and
  // whatever is redelivered; nor can a handler of it get to reserving.
  lemma {:induction false} StoredRecordNeverReservesAgain(saga: Saga, moves: seq<SagaMove>, id: string)
    requires SlotsOk(saga) && SlotOf(saga, id).record.Some?
    ensures Count(saga, moves, Reserves(id)) == 0
    ensures var slot := SlotOf(Run(saga, moves), id);
            slot.record.Some? && (slot.pc.Some? ==> !slot.pc.value.Reserving? && !slot.pc.value.SavingReserved?)
    decreases |moves|
  {
    if moves == [] {
      assert SlotOk(id, SlotOf(saga, id));
    } else {
      var before, last := moves[..|moves| - 1], moves[|moves| - 1];
      StoredRecordNeverReservesAgain(saga, before, id);
      assert moves == before + [last];
      RunSnoc(saga, before, last);
      RunKeepsSlots(saga, before);
      RunKeepsSlots(saga, moves);
      StepMovesSlot(Run(saga, before), last, id);
      assert SlotOk(id, SlotOf(Run(saga, moves), id));
    }
  }

  // ---- Which record a reserve leads to -------------------------------------------------------------

  // The record a slot has, or is about to get for the first time.
  function Shown(slot: Slot): Option<PaymentRecord> {
    if slot.record.Some? then slot.record
    else
      match slot.pc
      case Some(SavingReserved(record)) => Some(record)
      case Some(SavingRejected(record)) => Some(record)
      case _ => None
  }

  // What the budgets were when its reserve was asked for decides which record it is.
  predicate ReserveDecided(before: map<string, Budget>, after: map<string, Budget>, record: PaymentRecord,
          rejected: bool)
  {
    var d, total := record.invoice.department, record.invoice.total;
    && record.department == d
    && if rejected then
         && after == before && record.reservedAmount == 0.0
         && if d in before then before[d].remaining < total && record.reason == Some(INSUFFICIENT_REASON)
            else record.reason == Some(UnconfiguredReason(d))
       else
         && d in before && before[d].remaining >= total && record.reservedAmount == total
         && after == before[d := Budget(before[d].department, before[d].total, before[d].remaining - total)]
  }

  // Move `i` asked for the reserve this record came from.
  ghost predicate ReservedAt(moves: seq<SagaMove>, i: nat, id: string, record: PaymentRecord, rejected: bool) {
    && i < |moves| && moves[i].Advance? && moves[i].trackingId == id
    && SlotOf(Run(EmptySaga, moves[..i]), id).pc == Some(Reserving(record.invoice, record.decision))
    && ReserveDecided(Run(EmptySaga, moves[..i]).budgets, Run(EmptySaga, moves[..i + 1]).budgets, record, rejected)
  }

  lemma {:induction false} AdvanceShowsRecord(id: string, budgets: map<string, Budget>, slot: Slot, reply: GatewayReply)
    requires SlotOk(id, slot) && slot.pc.Some? && slot.pc.value.Reserving?
    ensures var (budgets', slot') := AdvanceSlot(budgets, slot, reply);
            Shown(slot').Some? ==>
              && Shown(slot').value.invoice == slot.pc.value.invoice
              && Shown(slot').value.decision == slot.pc.value.decision
              && ReserveDecided(budgets, budgets', Shown(slot').value, Rejection(slot'))
  {
  }

  predicate Rejection(slot: Slot) {
    Shown(slot).Some? && Shown(slot).value.status.Failed? && slot.charges == []
  }

  // Afterwards a record keeps all that its reserve decided, whether it was a rejection included.
  predicate StillShows(before: Slot, after: Slot) {
    && Shown(before).Some? && Shown(after).Some?
    && var record, record' := Shown(before).value, Shown(after).value;
       && record' == record.(status := record'.status, reason := record'.reason)
       && (Rejection(before) ==> record' == record)
       && (Rejection(after) <==> Rejection(before))
  }

  lemma {:induction false} StepShowsRecord(saga: Saga, move: SagaMove, id: string)
    requires SlotsOk(saga) && Shown(SlotOf(Step(saga, move), id)).Some?
    requires !(Awaits(saga, move, id) && SlotOf(saga, id).pc.value.Reserving?)
    ensures StillShows(SlotOf(saga, id), SlotOf(Step(saga, move), id))
  {
    assert SlotOk(id, SlotOf(saga, id));
    if !Concerned(move, id) {
      OtherSparesSlot(saga, move, id);
    }
  }

  // At move `i` the reserve behind what this slot shows was asked for.
  ghost predicate ShownFrom(moves: seq<SagaMove>, i: nat, id: string, slot: Slot) {
    Shown(slot).Some? && ReservedAt(moves, i, id, Shown(slot).value, Rejection(slot))
  }

  lemma ShownFromEarlier(before: seq<SagaMove>, last: SagaMove, i: nat, id: string, slot: Slot, after: Slot)
    requires ShownFrom(before, i, id, slot) && StillShows(slot, after)
    ensures ShownFrom(before + [last], i, id, after)
  {
    assert (before + [last])[..i] == before[..i] && (before + [last])[..i + 1] == before[..i + 1];
  }

  lemma {:induction false} ShownFromNow(before: seq<SagaMove>, last: SagaMove, id: string)
    requires SlotsOk(Run(EmptySaga, before)) && Awaits(Run(EmptySaga, before), last, id)
    requires SlotOf(Run(EmptySaga, before), id).pc.value.Reserving?
    ensures var slot := SlotOf(Run(EmptySaga, before + [last]), id);
            Shown(slot).Some? ==> ShownFrom(before + [last], |before|, id, slot)
  {
    var saga := Run(EmptySaga, before);
    var moves := before + [last];
    assert moves[..|before|] == before && moves[..|before| + 1] == moves;
    RunSnoc(EmptySaga, before, last);
    Advanced(saga, id, last.reply);
    assert SlotOk(id, SlotOf(saga, id));
    AdvanceShowsRecord(id, saga.budgets, SlotOf(saga, id), last.reply);
  }

  lemma {:induction false} ShownHasItsReserve(moves: seq<SagaMove>, id: string) returns (i: nat)
    requires Shown(SlotOf(Run(EmptySaga, moves), id)).Some?
    ensures ShownFrom(moves, i, id, SlotOf(Run(EmptySaga, moves), id))
    decreases |moves|
  {
    var before, last := moves[..|moves| - 1], moves[|moves| - 1];
    var saga := Run(EmptySaga, before);
    assert moves == before + [last];
    RunSnoc(EmptySaga, before, last);
    RunKeepsSlots(EmptySaga, before);
    if Awaits(saga, last, id) && SlotOf(saga, id).pc.value.Reserving? {
      ShownFromNow(before, last, id);
      i := |before|;
    } else {
      StepShowsRecord(saga, last, id);
      i := ShownHasItsReserve(before, id);
      ShownFromEarlier(before, last, i, id, SlotOf(saga, id), SlotOf(Run(EmptySaga, moves), id));
    }
  }

  // In every run, behind each record there is a reserve of its invoice's total, asked for while a handler
  // held its invoice and decision. A FAILED record that was never charged says what the budgets were
  // then: the department had less than the total, or was not there. Any other took the total from it.
  lemma RecordHasItsReserve(moves: seq<SagaMove>, id: string) returns (i: nat)
    requires SlotOf(Run(EmptySaga, moves), id).record.Some?
    ensures var slot := SlotOf(Run(EmptySaga, moves), id);
            var record := slot.record.value;
            && i < |moves| && moves[i].Advance? && moves[i].trackingId == id
            && var before, after := Run(EmptySaga, moves[..i]), Run(EmptySaga, moves[..i + 1]);
               var d, total := record.invoice.department, record.invoice.total;
               && SlotOf(before, id).pc == Some(Reserving(record.invoice, record.decision))
               && record.department == d
               && if record.status == Failed && slot.charges == [] then
                    && after.budgets == before.budgets && record.reservedAmount == 0.0
                    && (d in before.budgets ==>
                          && before.budgets[d].remaining < total
                          && record.reason == Some("insufficient department budget"))
                    && (d !in before.budgets ==>
                          record.reason == Some("no budget configured for department " + d))
                  else
                    && d in before.budgets && before.budgets[d].remaining >= total && record.reservedAmount == total
                    && after.budgets == before.budgets[d := before.budgets[d].(remaining :=
                         before.budgets[d].remaining - total)]
  {
    i := ShownHasItsReserve(moves, id);
  }

  // ---- Conservation, and exactly which deaths break it ---------------------------------------------

  ghost predicate Conserved(saga: Saga, department: string) {
    department in saga.budgets ==>
      saga.budgets[department].remaining + Held(saga, department) == saga.budgets[department].total
  }

  // A handler killed between a committed reserve or release of this department's money and its save.
  predicate StrandsMoney(saga: Saga, move: SagaMove, department: string) {
    move.Abort? && AbortDrift(SlotOf(saga, move.trackingId), department) != 0.0
  }

  lemma DriftOfStep(saga: Saga, move: SagaMove, department: string)
    ensures DriftOf(Step(saga, move), department)
         == DriftOf(saga, department) + if move.Abort? then AbortDrift(SlotOf(saga, move.trackingId), department)
             else 0.0
  {
  }

  lemma ConservedIffNoDrift(moves: seq<SagaMove>, department: string)
    ensures Conserved(Run(EmptySaga, moves), department) <==> DriftOf(Run(EmptySaga, moves), department) == 0.0
  {
    MoneyIsAccounted(moves, department);
  }

  lemma {:induction false} NoStrandingNoDriftOf(moves: seq<SagaMove>, department: string)
    requires forall k | 0 <= k < |moves| :: !StrandsMoney(Run(EmptySaga, moves[..k]), moves[k], department)
    ensures DriftOf(Run(EmptySaga, moves), department) == 0.0
    decreases |moves|
  {
    if moves != [] {
      var before, last := moves[..|moves| - 1], moves[|moves| - 1];
      forall k | 0 <= k < |before| ensures !StrandsMoney(Run(EmptySaga, before[..k]), before[k], department) {
        assert before[..k] == moves[..k];
      }
      NoStrandingNoDriftOf(before, department);
      assert moves == before + [last] && moves[..|before|] == before;
      RunSnoc(EmptySaga, before, last);
      DriftOfStep(Run(EmptySaga, before), last, department);
    }
  }

  // A department's money is conserved at every point of a run if and only if no move of the run kills
  // a handler that holds some of it between a budget commit and the save.
  lemma ConservedThroughoutIffNothingStranded(moves: seq<SagaMove>, department: string)
    ensures (forall k | 0 <= k <= |moves| :: Conserved(Run(EmptySaga, moves[..k]), department))
       <==> (forall k | 0 <= k < |moves| :: !StrandsMoney(Run(EmptySaga, moves[..k]), moves[k], department))
  {
    forall k | 0 <= k <= |moves|
      ensures Conserved(Run(EmptySaga, moves[..k]), department) <==>
          DriftOf(Run(EmptySaga, moves[..k]), department) == 0.0
    {
      ConservedIffNoDrift(moves[..k], department);
    }
    forall k | 0 <= k < |moves|
      ensures DriftOf(Run(EmptySaga, moves[..k + 1]), department) == DriftOf(Run(EmptySaga, moves[..k]), department)
              + if StrandsMoney(Run(EmptySaga, moves[..k]), moves[k], department)
                then AbortDrift(SlotOf(Run(EmptySaga, moves[..k]), moves[k].trackingId), department) else 0.0
    {
      assert moves[..k + 1] == moves[..k] + [moves[k]];
      RunSnoc(EmptySaga, moves[..k], moves[k]);
      DriftOfStep(Run(EmptySaga, moves[..k]), moves[k], department);
    }
    if forall k | 0 <= k <= |moves| :: Conserved(Run(EmptySaga, moves[..k]), department) {
      forall k | 0 <= k < |moves| ensures !StrandsMoney(Run(EmptySaga, moves[..k]), moves[k], department) {
        assert Conserved(Run(EmptySaga, moves[..k]), department)
            && Conserved(Run(EmptySaga, moves[..k + 1]), department);
      }
    }
    if forall k | 0 <= k < |moves| :: !StrandsMoney(Run(EmptySaga, moves[..k]), moves[k], department) {
      forall k | 0 <= k <= |moves| ensures Conserved(Run(EmptySaga, moves[..k]), department) {
        forall i | 0 <= i < k ensures !StrandsMoney(Run(EmptySaga, moves[..k][..i]), moves[..k][i], department) {
          assert moves[..k][..i] == moves[..i];
        }
        NoStrandingNoDriftOf(moves[..k], department);
      }
    }
  }

  // ---- When a key is charged twice -----------------------------------------------------------------

  // A restart at move `j` makes the gateway forget a reply it had given for this key.
  predicate ForgetsAt(moves: seq<SagaMove>, id: string, j: nat) {
    && j < |moves| && moves[j].Restart? && AllIdle(Run(EmptySaga, moves[..j]))
    && SlotOf(Run(EmptySaga, moves[..j]), id).charges != []
  }

  // A handler reaches the gateway at move `k`.
  predicate AsksAt(moves: seq<SagaMove>, id: string, k: nat) {
    && k < |moves| && Awaits(Run(EmptySaga, moves[..k]), moves[k], id)
    && SlotOf(Run(EmptySaga, moves[..k]), id).pc.value.Charging?
  }

  lemma ForgetsEarlier(before: seq<SagaMove>, last: SagaMove, id: string, j: nat)
    requires j < |before|
    ensures ForgetsAt(before + [last], id, j) <==> ForgetsAt(before, id, j)
    ensures AsksAt(before + [last], id, j) <==> AsksAt(before, id, j)
  {
    assert (before + [last])[..j] == before[..j] && (before + [last])[j] == before[j];
  }

  // What one move does to a key's charges and to the gateway's memory of them.
  lemma {:induction false} StepCharges(saga: Saga, move: SagaMove, id: string)
    requires SlotsOk(saga)
    ensures var slot, after := SlotOf(saga, id), SlotOf(Step(saga, move), id);
            var asks := Awaits(saga, move, id) && slot.pc.value.Charging?;
            && (if asks && slot.remembered.None? then |after.charges| == |slot.charges| + 1
                else after.charges == slot.charges)
            && (after.charges != [] && after.remembered.None? ==>
                  (slot.remembered.None? && !asks) || (move.Restart? && AllIdle(saga)))
            && (after.remembered.Some? && slot.remembered.None? ==> asks)
  {
    assert SlotOk(id, SlotOf(saga, id));
    if !Concerned(move, id) {
      OtherSparesSlot(saga, move, id);
    }
  }

  lemma {:induction false} ForgottenWasLost(moves: seq<SagaMove>, id: string)
    requires var slot := SlotOf(Run(EmptySaga, moves), id);
             slot.charges != [] && slot.remembered.None?
    ensures exists j: nat :: ForgetsAt(moves, id, j)
    decreases |moves|
  {
    var before, last := moves[..|moves| - 1], moves[|moves| - 1];
    var saga := Run(EmptySaga, before);
    assert moves == before + [last] && moves[..|before|] == before;
    RunSnoc(EmptySaga, before, last);
    RunKeepsSlots(EmptySaga, before);
    StepCharges(saga, last, id);
    if SlotOf(saga, id).charges != [] && SlotOf(saga, id).remembered.None? {
      ForgottenWasLost(before, id);
      var j: nat :| ForgetsAt(before, id, j);
      ForgetsEarlier(before, last, id, j);
    } else {
      assert ForgetsAt(moves, id, |before|);
    }
  }

  // From a lost reply on, the key is not remembered until it is charged once more.
  lemma {:induction false} LostUntilCharged(moves: seq<SagaMove>, id: string, j: nat)
    requires ForgetsAt(moves, id, j)
    ensures var slot := SlotOf(Run(EmptySaga, moves), id);
            slot.charges != [] && (slot.remembered.None? || |slot.charges| >= 2)
    ensures forall k: nat | j < k && AsksAt(moves, id, k) :: |SlotOf(Run(EmptySaga, moves), id).charges| >= 2
    decreases |moves|
  {
    var before, last := moves[..|moves| - 1], moves[|moves| - 1];
    var saga := Run(EmptySaga, before);
    assert moves == before + [last] && moves[..|before|] == before;
    RunSnoc(EmptySaga, before, last);
    RunKeepsSlots(EmptySaga, before);
    StepCharges(saga, last, id);
    if j < |before| {
      ForgetsEarlier(before, last, id, j);
      LostUntilCharged(before, id, j);
      forall k: nat | j < k && AsksAt(moves, id, k)
        ensures |SlotOf(Run(EmptySaga, moves), id).charges| >= 2
      {
        if k < |before| {
          ForgetsEarlier(before, last, id, k);
        }
      }
    }
  }

  // A key is charged a second time if and only if some restart made the gateway forget its reply and
  // a handler of that key reached the gateway after it.
  lemma {:induction false} ChargedTwiceIffReplyForgotten(moves: seq<SagaMove>, id: string)
    ensures |SlotOf(Run(EmptySaga, moves), id).charges| >= 2
       <==> exists j: nat, k: nat :: j < k && ForgetsAt(moves, id, j) && AsksAt(moves, id, k)
    decreases |moves|
  {
    if j: nat, k: nat :| j < k && ForgetsAt(moves, id, j) && AsksAt(moves, id, k) {
      LostUntilCharged(moves, id, j);
    }
    if |SlotOf(Run(EmptySaga, moves), id).charges| >= 2 {
      var before, last := moves[..|moves| - 1], moves[|moves| - 1];
      var saga := Run(EmptySaga, before);
      assert moves == before + [last] && moves[..|before|] == before;
      RunSnoc(EmptySaga, before, last);
      RunKeepsSlots(EmptySaga, before);
      StepCharges(saga, last, id);
      if |SlotOf(saga, id).charges| >= 2 {
        ChargedTwiceIffReplyForgotten(before, id);
        var j: nat, k: nat :| j < k && ForgetsAt(before, id, j) && AsksAt(before, id, k);
        ForgetsEarlier(before, last, id, j);
        ForgetsEarlier(before, last, id, k);
      } else {
        ForgottenWasLost(before, id);
        var j: nat :| ForgetsAt(before, id, j);
        ForgetsEarlier(before, last, id, j);
        assert AsksAt(moves, id, |before|);
      }
    }
  }

  // So in a run without restarts no key is charged twice, and a FAILED record was never accepted.
  lemma ChargedOnceWithoutRestart(moves: seq<SagaMove>, id: string)
    requires Restart !in moves
    ensures var slot := SlotOf(Run(EmptySaga, moves), id);
            && |slot.charges| <= 1
            && (slot.record.Some? && slot.record.value.status.Failed? ==> Accepted !in slot.charges)
  {
    ChargedTwiceIffReplyForgotten(moves, id);
    RunKeepsSlots(EmptySaga, moves);
    assert SlotOk(id, SlotOf(Run(EmptySaga, moves), id));
  }

  predicate DeathsOnly(moves: seq<SagaMove>) {
    forall move <- moves :: move.Abort?
  }

  function Running(saga: Saga): set<string> {
    set id | id in saga.slots && saga.slots[id].pc.Some?
  }

  // A process dies with all its handlers.
  lemma {:induction false} ProcessDies(saga: Saga, id: string) returns (deaths: seq<SagaMove>)
    ensures DeathsOnly(deaths)
    ensures AllIdle(Run(saga, deaths)) && SlotOf(Run(saga, deaths), id) == SlotOf(saga, id).(pc := None)
    decreases |Running(saga)|
  {
    deaths := [];
    if other :| other in Running(saga) {
      var next := Step(saga, Abort(other));
      assert Running(next) == Running(saga) - {other};
      var rest := ProcessDies(next, id);
      deaths := [Abort(other)] + rest;
      assert deaths[0] == Abort(other) && deaths[1..] == rest;
    } else {
      assert forall other <- saga.slots :: other !in Running(saga);
    }
  }

  lemma RestartsAndIsDelivered(saga: Saga, event: PaymentEvent)
    requires Triggers(event) && AllIdle(saga)
    ensures var id := EventDecision(event).correlationId;
            SlotOf(Step(Step(saga, Restart), Deliver(event)), id)
            == SlotOf(saga, id).(remembered := None, pc := Some(Fetching(EventInvoice(event), EventDecision(event))))
  {
  }

  lemma ChargesAgain(budgets: map<string, Budget>, slot: Slot, reply: GatewayReply)
    requires slot.pc.Some? && slot.pc.value.Fetching? && slot.remembered.None?
    requires slot.record.Some? && slot.record.value.status.Reserved?
    ensures var (after, charging) := AdvanceSlot(budgets, slot, reply);
            && after == budgets && charging == slot.(pc := Some(Charging(slot.record.value)))
            && AdvanceSlot(budgets, charging, reply).1.charges == slot.charges + [reply]
  {
  }

  // The handler has charged and its outcome is not yet saved.
  predicate ChargedUnsaved(slot: Slot) {
    slot.pc.Some? && (slot.pc.value.SavingCompleted? || slot.pc.value.Releasing? || slot.pc.value.SavingFailed?)
  }

  // It takes no more than the death of the process anywhere between a charge and the save of its
  // outcome, a restart, and the redelivery: the gateway of services/payment/app.py:56 keeps its replies
  // in memory.
  lemma DyingAfterChargeChargesAgain(saga: Saga, event: PaymentEvent, reply: GatewayReply)
    returns (deaths: seq<SagaMove>)
    requires SlotsOk(saga) && Triggers(event)
    requires ChargedUnsaved(SlotOf(saga, EventDecision(event).correlationId))
    ensures DeathsOnly(deaths)
    ensures var id := EventDecision(event).correlationId;
            var after := Run(saga, deaths + [Restart, Deliver(event), Advance(id, reply), Advance(id, reply)]);
            SlotOf(after, id).charges == SlotOf(saga, id).charges + [reply] && |SlotOf(after, id).charges| >= 2
  {
    var id := EventDecision(event).correlationId;
    var go := Advance(id, reply);
    assert SlotOk(id, SlotOf(saga, id));
    deaths := ProcessDies(saga, id);
    var dead := Run(saga, deaths);
    RunAppend(saga, deaths, [Restart, Deliver(event), go, go]);
    RunFour(dead, Restart, Deliver(event), go, go);
    RestartsAndIsDelivered(dead, event);
    var fetching := Step(Step(dead, Restart), Deliver(event));
    ChargesAgain(fetching.budgets, SlotOf(fetching, id), reply);
    Advanced(fetching, id, reply);
    Advanced(Step(fetching, go), id, reply);
  }

  lemma RunFour(saga: Saga, a: SagaMove, b: SagaMove, c: SagaMove, d: SagaMove)
    ensures Run(saga, [a, b, c, d]) == Step(Step(Step(Step(saga, a), b), c), d)
  {
    var none: seq<SagaMove> := [];
    assert none + [a] == [a] && [a] + [b] == [a, b] && [a, b] + [c] == [a, b, c] && [a, b, c] + [d] == [a, b, c, d];
    RunSnoc(saga, none, a);
    RunSnoc(saga, [a], b);
    RunSnoc(saga, [a, b], c);
    RunSnoc(saga, [a, b, c], d);
  }

  // ---- Redelivery to a RESERVED record -------------------------------------------------------------

  function OwnMoves(moves: seq<SagaMove>, id: string): nat
    decreases |moves|
  {
    if moves == [] then 0 else OwnMoves(moves[..|moves| - 1], id) + One(Concerned(moves[|moves| - 1], id))
  }

  // The reply a resumed handler gets: the one remembered, or this one.
  function ReplyTo(slot: Slot, reply: GatewayReply): GatewayReply {
    if slot.remembered.Some? then slot.remembered.value else reply
  }

  function Charged(slot: Slot, reply: GatewayReply): Slot {
    if slot.remembered.Some? then slot else slot.(remembered := Some(reply), charges := slot.charges + [reply])
  }

  function Settled(record: PaymentRecord, reply: GatewayReply): PaymentRecord {
    match reply
    case Accepted => record.(status := Completed, reason := Some(SUCCESS_REASON))
    case Declined(message) => record.(status := Failed, reason := Some(message))
  }

  // The slot of a resumed handler: fetching, charging, then with the reply.
  function Resumed(slot: Slot, event: PaymentEvent, reply: GatewayReply, awaits: nat): Slot
    requires slot.record.Some?
  {
    var record := slot.record.value;
    if awaits == 0 then slot.(pc := Some(Fetching(EventInvoice(event), EventDecision(event))))
    else if awaits == 1 then slot.(pc := Some(Charging(record)))
    else
      match ReplyTo(slot, reply)
      case Accepted => Concluded(slot, reply, awaits - 2)
      case Declined(message) =>
        if awaits == 2 then Charged(slot, reply).(pc := Some(Releasing(record, message)))
        else Concluded(slot, reply, awaits - 3)
  }

  // From the save of the outcome on.
  function Concluded(slot: Slot, reply: GatewayReply, awaits: nat): Slot
    requires slot.record.Some?
  {
    var outcome := Settled(slot.record.value, ReplyTo(slot, reply));
    var charged := Charged(slot, reply);
    if awaits == 0 then
      charged.(pc := Some(if outcome.status.Completed? then SavingCompleted(outcome) else SavingFailed(outcome)))
    else if awaits == 1 then charged.(record := Some(outcome), pc := Some(Publishing(outcome)))
    else charged.(record := Some(outcome), pc := None, published := slot.published + [OutcomeEvent(outcome)])
  }

  function AwaitsNeeded(slot: Slot, reply: GatewayReply): nat {
    if ReplyTo(slot, reply).Accepted? then 4 else 5
  }

  // Where the release was refused, nothing but the charge has happened.
  function Refused(slot: Slot, reply: GatewayReply): Slot {
    Charged(slot, reply).(pc := None)
  }

  predicate AtRelease(slot: Slot, reply: GatewayReply, awaits: nat) {
    ReplyTo(slot, reply).Declined? && awaits == 2
  }

  lemma ResumedAdvances(budgets: map<string, Budget>, slot: Slot, event: PaymentEvent, reply: GatewayReply, awaits: nat)
    requires slot.record.Some? && slot.record.value.status.Reserved? && awaits < AwaitsNeeded(slot, reply)
    ensures var (after, next) := AdvanceSlot(budgets, Resumed(slot, event, reply, awaits), reply);
            var record := slot.record.value;
            var released := Perform(budgets, Release(record.department, record.reservedAmount)).1 == Done;
            next == if AtRelease(slot, reply, awaits) && !released then Refused(slot, reply)
                    else Resumed(slot, event, reply, awaits + 1)
  {
  }

  predicate SameHistory(a: Slot, b: Slot) {
    a.record == b.record && a.charges == b.charges && a.published == b.published && a.pc == b.pc
  }

  // After so many of its awaits and releases: on its way, or stopped at the refused release.
  predicate StandsAt(now: Slot, releases: nat, slot: Slot, event: PaymentEvent, reply: GatewayReply, awaits: nat) {
    && slot.record.Some?
    && if ReplyTo(slot, reply).Declined? && awaits >= 3 && releases == 0 then SameHistory(now, Refused(slot, reply))
       else
         && (if now.pc.Some? then now == Resumed(slot, event, reply, awaits)
             else SameHistory(now, Resumed(slot, event, reply, awaits)))
         && releases == One(ReplyTo(slot, reply).Declined? && awaits >= 3)
  }

  predicate Stands(saga: Saga, moves: seq<SagaMove>, slot: Slot, event: PaymentEvent, reply: GatewayReply, id: string,
          awaits: nat) {
    StandsAt(SlotOf(Run(saga, moves), id), Count(saga, moves, Releases(id)), slot, event, reply, awaits)
  }

  // Others' moves leave a slot alone, but for the forgetting of its reply while it does not run.
  predicate Spared(now: Slot, after: Slot) {
    after == now || (now.pc.None? && after == now.(remembered := after.remembered))
  }

  lemma SparedStandsAt(now: Slot, after: Slot, releases: nat, slot: Slot, event: PaymentEvent, reply: GatewayReply,
          awaits: nat)
    requires StandsAt(now, releases, slot, event, reply, awaits) && Spared(now, after)
    ensures StandsAt(after, releases, slot, event, reply, awaits)
  {
  }

  lemma {:induction false} OtherMoveSpares(saga: Saga, before: seq<SagaMove>, last: SagaMove, id: string)
    requires !Concerned(last, id)
    ensures Spared(SlotOf(Run(saga, before), id), SlotOf(Run(saga, before + [last]), id))
    ensures Count(saga, before + [last], Releases(id)) == Count(saga, before, Releases(id))
  {
    RunSnoc(saga, before, last);
    assert (before + [last])[..|before|] == before;
    OtherSparesSlot(Run(saga, before), last, id);
  }

  lemma {:induction false} OtherMoveStands(saga: Saga, before: seq<SagaMove>, last: SagaMove, slot: Slot,
          event: PaymentEvent, reply: GatewayReply, id: string, awaits: nat)
    requires Stands(saga, before, slot, event, reply, id, awaits) && !Concerned(last, id)
    ensures Stands(saga, before + [last], slot, event, reply, id, awaits)
  {
    OtherMoveSpares(saga, before, last, id);
    SparedStandsAt(SlotOf(Run(saga, before), id), SlotOf(Run(saga, before + [last]), id),
                   Count(saga, before, Releases(id)), slot, event, reply, awaits);
  }

  // Its own await, if it still runs, takes it one further, with a release or without.
  lemma {:induction false} OwnAwaitStandsAt(budgets: map<string, Budget>, now: Slot, releases: nat, slot: Slot,
          event: PaymentEvent, reply: GatewayReply, awaits: nat)
    requires StandsAt(now, releases, slot, event, reply, awaits) && slot.record.value.status.Reserved?
    requires awaits < AwaitsNeeded(slot, reply)
    ensures var next := if now.pc.Some? then AdvanceSlot(budgets, now, reply).1 else now;
            var released := now.pc.Some? && now.pc.value.Releasing?
                && Perform(budgets, Release(now.pc.value.record.department,
                    now.pc.value.record.reservedAmount)).1 == Done;
            StandsAt(next, releases + One(released), slot, event, reply, awaits + 1)
  {
    if now.pc.Some? {
      ResumedAdvances(budgets, slot, event, reply, awaits);
    }
  }

  lemma {:induction false} OwnMoveStands(saga: Saga, before: seq<SagaMove>, slot: Slot, event: PaymentEvent,
          reply: GatewayReply, id: string, awaits: nat)
    requires Stands(saga, before, slot, event, reply, id, awaits) && slot.record.value.status.Reserved?
    requires awaits < AwaitsNeeded(slot, reply)
    ensures Stands(saga, before + [Advance(id, reply)], slot, event, reply, id, awaits + 1)
  {
    var last := Advance(id, reply);
    var now := Run(saga, before);
    RunSnoc(saga, before, last);
    assert (before + [last])[..|before|] == before;
    OwnAwaitStandsAt(now.budgets, SlotOf(now, id), Count(saga, before, Releases(id)), slot, event, reply, awaits);
    if SlotOf(now, id).pc.Some? {
      Advanced(now, id, reply);
    }
    assert Count(saga, before + [last], Releases(id))
        == Count(saga, before, Releases(id)) + One(ReleaseCommits(now, last, id));
  }

  lemma {:induction false} ResumedRuns(saga: Saga, moves: seq<SagaMove>, slot: Slot, event: PaymentEvent,
          reply: GatewayReply, id: string)
    requires slot.record.Some? && slot.record.value.status.Reserved?
    requires SlotOf(saga, id) == Resumed(slot, event, reply, 0)
    requires forall i | 0 <= i < |moves| && Concerned(moves[i], id) :: moves[i] == Advance(id, reply)
    requires OwnMoves(moves, id) <= AwaitsNeeded(slot, reply)
    ensures Stands(saga, moves, slot, event, reply, id, OwnMoves(moves, id))
    decreases |moves|
  {
    if moves != [] {
      var before, last := moves[..|moves| - 1], moves[|moves| - 1];
      ResumedRuns(saga, before, slot, event, reply, id);
      assert moves == before + [last];
      if Concerned(last, id) {
        OwnMoveStands(saga, before, slot, event, reply, id, OwnMoves(before, id));
      } else {
        OtherMoveStands(saga, before, last, slot, event, reply, id, OwnMoves(before, id));
      }
    }
  }

  // A handler that died with its record RESERVED is resumed by the next delivery at the charge, amid
  // anything else the saga does. It reserves nothing, asks for a charge only if there is no reply to
  // replay, and its next awaits settle the record as that reply says and publish once; except that a
  // refused release stops it where it was.
  lemma {:induction false} RedeliveryResumesAtCharge(saga: Saga, event: PaymentEvent, moves: seq<SagaMove>,
          reply: GatewayReply)
    requires SlotsOk(saga) && Triggers(event)
    requires var slot := SlotOf(saga, EventDecision(event).correlationId);
             && slot.pc.None? && slot.record.Some? && slot.record.value.status.Reserved?
             && OwnMoves(moves, EventDecision(event).correlationId) == AwaitsNeeded(slot, reply)
    requires var id := EventDecision(event).correlationId;
             forall i | 0 <= i < |moves| && Concerned(moves[i], id) :: moves[i] == Advance(id, reply)
    ensures var id := EventDecision(event).correlationId;
            var slot, after := SlotOf(saga, id), SlotOf(Run(saga, [Deliver(event)] + moves), id);
            && Count(saga, [Deliver(event)] + moves, Reserves(id)) == 0
            && after.pc.None?
            && after.charges == (if slot.remembered.Some? then slot.charges else slot.charges + [reply])
            && if ReplyTo(slot, reply).Declined? && Count(Step(saga, Deliver(event)), moves, Releases(id)) == 0
               then after.record == slot.record && after.published == []
               else
                 && after.record == Some(Settled(slot.record.value, ReplyTo(slot, reply)))
                 && after.published == [OutcomeEvent(after.record.value)]
  {
    var id := EventDecision(event).correlationId;
    var all := [Deliver(event)] + moves;
    assert all[0] == Deliver(event) && all[1..] == moves;
    assert SlotOk(id, SlotOf(saga, id));
    ResumedRuns(Step(saga, Deliver(event)), moves, SlotOf(saga, id), event, reply, id);
    StoredRecordNeverReservesAgain(saga, all, id);
  }
}

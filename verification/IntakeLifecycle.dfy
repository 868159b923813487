// The life of a submission in Intake: submit, process, complete (services/intake/service.py), as a
// step machine split at each await.
//
// The dedup check and the first save are one step (accepted gap of
// services/intake/dapr_state_repository.py:21-33); completes of one tracking id do not overlap; a
// failed publish delivers nothing; process runs once for a submission.
module IntakeLifecycle {
  import opened Contracts
  import opened Submissions

  datatype ProcessPc =
    | Queued
    | SavingProcessing(next: Submission)
    | PublishingInvoice(original: Submission)
    | SavingError(next: Submission)
    | CompletingDuplicate(decision: Decision)
    | SavingDuplicate(next: Submission, decision: Decision)
    | PublishingDuplicate(decision: Decision)
    | Ended

  datatype CompletePc = Checking(decision: Decision) | SavingCompleted(next: Submission)

  // `announced`: an event about this submission has left Intake, so a decision may come back.
  datatype Slot = Slot(submission: Submission, process: ProcessPc, completing: Option<CompletePc>, announced: bool)

  type Intake = map<string, Slot>

  datatype IntakeMove =
    | Submit(trackingId: string, invoice: Invoice)
    | ProcessStep(trackingId: string, published: bool)
    | ProcessDies(trackingId: string)
    | DecisionArrives(trackingId: string, decision: Decision)
    | CompleteStep(trackingId: string)
    | CompleteDies(trackingId: string)

  const PUBLISH_ERROR := "p"

  predicate KeySeen(intake: Intake, dedupKey: string) {
    exists id <- intake :: intake[id].submission.dedupKey == dedupKey
  }

  function NewSubmission(intake: Intake, id: string, invoice: Invoice): Submission {
    var key := ComputeDedupKey(invoice);
    Submission(id, invoice, key, KeySeen(intake, key), Received, None, None)
  }

  function CompletedWith(s: Submission, decision: Decision): Submission {
    s.(status := Completed, decision := Some(decision))
  }

  function AfterProcess(id: string, slot: Slot, published: bool): Slot {
    match slot.process
    case Queued =>
      var s := slot.submission;
      slot.(process :=
        if !s.isDuplicate then SavingProcessing(s.(status := Processing))
        else if s.status.Completed? then Ended
        else CompletingDuplicate(BuildDuplicateDecision(id)))
    case SavingProcessing(next) => slot.(submission := next, process := PublishingInvoice(slot.submission))
    case PublishingInvoice(original) =>
      if published then slot.(process := Ended, announced := true)
      else slot.(process := SavingError(original.(status := Failed, error := Some(PUBLISH_ERROR))))
    case SavingError(next) => slot.(submission := next, process := Ended)
    case CompletingDuplicate(decision) =>
      slot.(process := if slot.submission.status.Completed? then PublishingDuplicate(decision)
                       else SavingDuplicate(CompletedWith(slot.submission, decision), decision))
    case SavingDuplicate(next, decision) => slot.(submission := next, process := PublishingDuplicate(decision))
    case PublishingDuplicate(_) => slot.(process := Ended, announced := slot.announced || published)
    case Ended => slot
  }

  function AfterComplete(slot: Slot): Slot {
    match slot.completing
    case Some(Checking(decision)) =>
      slot.(completing := if slot.submission.status.Completed? then None
                          else Some(SavingCompleted(CompletedWith(slot.submission, decision))))
    case Some(SavingCompleted(next)) => slot.(submission := next, completing := None)
    case None => slot
  }

  function AfterMove(id: string, slot: Slot, move: IntakeMove): Slot {
    match move
    case Submit(_, _) => slot
    case ProcessStep(_, published) => AfterProcess(id, slot, published)
    case ProcessDies(_) => slot.(process := Ended)
    case DecisionArrives(_, decision) =>
      if slot.announced && slot.completing.None? then slot.(completing := Some(Checking(decision))) else slot
    case CompleteStep(_) => AfterComplete(slot)
    case CompleteDies(_) => slot.(completing := None)
  }

  function Step(intake: Intake, move: IntakeMove): Intake {
    var id := move.trackingId;
    if id in intake then intake[id := AfterMove(id, intake[id], move)]
    else if move.Submit? then intake[id := Slot(NewSubmission(intake, id, move.invoice), Queued, None, false)]
    else intake
  }

  function Run(intake: Intake, moves: seq<IntakeMove>): Intake
    decreases |moves|
  {
    if moves == [] then intake else Run(Step(intake, moves[0]), moves[1..])
  }

  // ---- What each submission keeps ------------------------------------------------------------------

  predicate ProcessOk(id: string, slot: Slot) {
    var s := slot.submission;
    match slot.process
    case Queued => s.status.Received?
    case SavingProcessing(next) => !s.isDuplicate && s.status.Received? && next == s.(status := Processing)
    case PublishingInvoice(original) => !s.isDuplicate && s.status.Processing? && original == s.(status := Received)
    case SavingError(next) =>
      !s.isDuplicate && s.status.Processing? && next == s.(status := Failed, error := Some(PUBLISH_ERROR))
    case CompletingDuplicate(decision) =>
      s.isDuplicate && s.status.Received? && decision == BuildDuplicateDecision(id)
    case SavingDuplicate(next, decision) =>
      s.isDuplicate && s.status.Received? && decision == BuildDuplicateDecision(id)
          && next == CompletedWith(s, decision)
    case PublishingDuplicate(decision) =>
      s.isDuplicate && s == CompletedWith(s, BuildDuplicateDecision(id)) && decision == BuildDuplicateDecision(id)
    case Ended => true
  }

  predicate SlotOk(id: string, slot: Slot) {
    var s := slot.submission;
    && s.trackingId == id && s.dedupKey == ComputeDedupKey(s.invoice)
    && (s.status.Completed? <==> s.decision.Some?)
    && ProcessOk(id, slot)
    && (slot.announced ==>
          && slot.process.Ended?
          && if s.isDuplicate then s == CompletedWith(s, BuildDuplicateDecision(id))
              else s.status.Processing? || s.status.Completed?)
    && (slot.completing.Some? ==> slot.announced)
    && (slot.completing.Some? && slot.completing.value.SavingCompleted? ==>
          && s.status.Processing?
          && slot.completing.value.next.decision.Some?
          && slot.completing.value.next == CompletedWith(s, slot.completing.value.next.decision.value))
  }

  // One original a key: any two non-duplicates have different keys, and every key has one.
  ghost predicate OneOriginal(intake: Intake) {
    && (forall a, b | a in intake && b in intake && a != b
          && !intake[a].submission.isDuplicate && !intake[b].submission.isDuplicate ::
          intake[a].submission.dedupKey != intake[b].submission.dedupKey)
    && (forall a <- intake :: HasOriginal(intake, intake[a].submission.dedupKey))
  }

  ghost predicate Inv(intake: Intake) {
    (forall id <- intake :: SlotOk(id, intake[id])) && OneOriginal(intake)
  }

  // No step but submit touches what identifies a submission.
  predicate SameIdentity(before: Submission, after: Submission) {
    && after.trackingId == before.trackingId && after.invoice == before.invoice
    && after.dedupKey == before.dedupKey && after.isDuplicate == before.isDuplicate
  }

  lemma ProcessKeepsSlot(id: string, slot: Slot, published: bool)
    requires SlotOk(id, slot)
    ensures SlotOk(id, AfterProcess(id, slot, published))
    ensures Progress(slot.submission, AfterProcess(id, slot, published).submission)
  {
  }

  lemma CompleteKeepsSlot(id: string, slot: Slot)
    requires SlotOk(id, slot)
    ensures SlotOk(id, AfterComplete(slot))
    ensures Progress(slot.submission, AfterComplete(slot).submission)
  {
  }

  // What one move may do to an existing submission.
  predicate Progress(before: Submission, after: Submission) {
    SameIdentity(before, after) && (before.status.Completed? ==> after == before)
  }

  lemma MoveKeepsSlot(id: string, slot: Slot, move: IntakeMove)
    requires SlotOk(id, slot)
    ensures SlotOk(id, AfterMove(id, slot, move))
    ensures Progress(slot.submission, AfterMove(id, slot, move).submission)
  {
    match move
    case ProcessStep(_, published) => ProcessKeepsSlot(id, slot, published);
    case CompleteStep(_) => CompleteKeepsSlot(id, slot);
    case _ =>
  }

  lemma NewSlotOk(intake: Intake, id: string, invoice: Invoice)
    ensures SlotOk(id, Slot(NewSubmission(intake, id, invoice), Queued, None, false))
  {
  }

  lemma TargetProgresses(intake: Intake, move: IntakeMove)
    requires move.trackingId in intake ==> SlotOk(move.trackingId, intake[move.trackingId])
    ensures var after := Step(intake, move);
            var id := move.trackingId;
            && (id in after ==> SlotOk(id, after[id]))
            && (id in intake ==> id in after && Progress(intake[id].submission, after[id].submission))
            && forall other | other != id :: (other in after <==> other in intake)
                && (other in intake ==> after[other] == intake[other])
  {
    var id := move.trackingId;
    if id in intake {
      MoveKeepsSlot(id, intake[id], move);
    } else if move.Submit? {
      NewSlotOk(intake, id, move.invoice);
    }
  }

  lemma StepProgresses(intake: Intake, move: IntakeMove)
    requires Inv(intake)
    ensures var after := Step(intake, move);
            && intake.Keys <= after.Keys
            && (forall id <- after :: SlotOk(id, after[id]))
            && (forall id <- intake :: Progress(intake[id].submission, after[id].submission))
  {
    TargetProgresses(intake, move);
    var after := Step(intake, move);
    forall id <- after
      ensures SlotOk(id, after[id])
      ensures id in intake ==> Progress(intake[id].submission, after[id].submission)
    {
      assert id in intake ==> SlotOk(id, intake[id]);
    }
  }

  ghost predicate HasOriginal(intake: Intake, dedupKey: string) {
    exists b <- intake :: !intake[b].submission.isDuplicate && intake[b].submission.dedupKey == dedupKey
  }

  lemma OriginalsStay(intake: Intake, after: Intake, dedupKey: string)
    requires intake.Keys <= after.Keys
    requires forall id <- intake :: Progress(intake[id].submission, after[id].submission)
    ensures HasOriginal(intake, dedupKey) ==> HasOriginal(after, dedupKey)
  {
    if HasOriginal(intake, dedupKey) {
      var b :| b in intake && !intake[b].submission.isDuplicate && intake[b].submission.dedupKey == dedupKey;
      assert Progress(intake[b].submission, after[b].submission);
    }
  }

  lemma KeyKeepsOriginal(intake: Intake, move: IntakeMove, a: string)
    requires Inv(intake) && a in Step(intake, move)
    ensures HasOriginal(Step(intake, move), Step(intake, move)[a].submission.dedupKey)
  {
    StepProgresses(intake, move);
    var after := Step(intake, move);
    OriginalsStay(intake, after, after[a].submission.dedupKey);
    if a in intake {
      assert Progress(intake[a].submission, after[a].submission);
    } else if after[a].submission.isDuplicate {
      var twin :| twin in intake && intake[twin].submission.dedupKey == after[a].submission.dedupKey;
      assert HasOriginal(intake, intake[twin].submission.dedupKey);
    }
  }

  lemma {:induction false} StepKeepsOriginals(intake: Intake, move: IntakeMove)
    requires Inv(intake)
    ensures OneOriginal(Step(intake, move))
  {
    StepProgresses(intake, move);
    var after := Step(intake, move);
    forall a <- after ensures HasOriginal(after, after[a].submission.dedupKey) {
      KeyKeepsOriginal(intake, move, a);
    }
    forall a, b | a in after && b in after && a != b && !after[a].submission.isDuplicate
        && !after[b].submission.isDuplicate
      ensures after[a].submission.dedupKey != after[b].submission.dedupKey
    {
      assert a in intake ==> Progress(intake[a].submission, after[a].submission);
      assert b in intake ==> Progress(intake[b].submission, after[b].submission);
    }
  }

  lemma {:induction false} StepKeepsInv(intake: Intake, move: IntakeMove)
    requires Inv(intake)
    ensures Inv(Step(intake, move))
  {
    StepProgresses(intake, move);
    StepKeepsOriginals(intake, move);
  }

  lemma {:induction false} RunKeepsInv(intake: Intake, moves: seq<IntakeMove>)
    requires Inv(intake)
    ensures Inv(Run(intake, moves))
    decreases |moves|
  {
    if moves != [] {
      StepKeepsInv(intake, moves[0]);
      RunKeepsInv(Step(intake, moves[0]), moves[1..]);
    }
  }

  // ---- What every run guarantees -------------------------------------------------------------------

  // Of all submissions with one dedup key, exactly one is not flagged a duplicate.
  lemma OneOriginalPerKey(moves: seq<IntakeMove>, id: string)
    requires id in Run(map[], moves)
    ensures var intake := Run(map[], moves);
            var key := intake[id].submission.dedupKey;
            && key == ComputeDedupKey(intake[id].submission.invoice)
            && exists original <- intake ::
                 && !intake[original].submission.isDuplicate && intake[original].submission.dedupKey == key
                 && forall other <- intake | !intake[other].submission.isDuplicate
                     && intake[other].submission.dedupKey == key ::
                      other == original
  {
    RunKeepsInv(map[], moves);
    var intake := Run(map[], moves);
    assert SlotOk(id, intake[id]);
    var key := intake[id].submission.dedupKey;
    assert HasOriginal(intake, key);
    var original :| original in intake && !intake[original].submission.isDuplicate
        && intake[original].submission.dedupKey == key;
    assert forall other <- intake | !intake[other].submission.isDuplicate && intake[other].submission.dedupKey == key ::
             other == original;
  }

  // A decision event that reaches the check for a non-duplicate finds PROCESSING or COMPLETED, never
  // a stale RECEIVED (nor FAILED); for a duplicate it finds its own duplicate decision in place.
  lemma DecisionNeverFindsReceived(moves: seq<IntakeMove>, id: string)
    requires id in Run(map[], moves) && Run(map[], moves)[id].completing.Some?
    ensures var s := Run(map[], moves)[id].submission;
            if s.isDuplicate then s.status.Completed? && s.decision == Some(BuildDuplicateDecision(id))
            else s.status.Processing? || s.status.Completed?
  {
    RunKeepsInv(map[], moves);
    assert SlotOk(id, Run(map[], moves)[id]);
  }

  // A decision this submission holds, other than its own as a duplicate, or is about to save.
  predicate Holds(slot: Slot, decision: Decision) {
    || (!slot.submission.isDuplicate && slot.submission.decision == Some(decision))
    || slot.completing == Some(Checking(decision))
    || (slot.completing.Some? && slot.completing.value.SavingCompleted?
        && slot.completing.value.next.decision == Some(decision))
  }

  lemma HeldAfter(id: string, slot: Slot, move: IntakeMove, decision: Decision)
    requires SlotOk(id, slot) && move.trackingId == id && Holds(AfterMove(id, slot, move), decision)
    ensures Holds(slot, decision) || move == DecisionArrives(id, decision)
  {
  }

  lemma {:induction false} HeldWasDelivered(moves: seq<IntakeMove>, id: string, decision: Decision)
    requires id in Run(map[], moves) && Holds(Run(map[], moves)[id], decision)
    ensures DecisionArrives(id, decision) in moves
    decreases |moves|
  {
    var before, last := moves[..|moves| - 1], moves[|moves| - 1];
    var intake := Run(map[], before);
    assert moves == before + [last];
    RunSnoc(map[], before, last);
    RunKeepsInv(map[], before);
    if id in intake {
      if last.trackingId == id {
        HeldAfter(id, intake[id], last, decision);
      }
      if last != DecisionArrives(id, decision) {
        HeldWasDelivered(before, id, decision);
      }
    }
  }

  predicate StatusFits(id: string, s: Submission) {
    && (s.error.Some? <==> s.status.Failed?)
    && (s.isDuplicate ==> s.status.Received? || s == CompletedWith(s, BuildDuplicateDecision(id)))
  }

  lemma StatusStaysFit(id: string, slot: Slot, move: IntakeMove)
    requires SlotOk(id, slot) && StatusFits(id, slot.submission)
    ensures StatusFits(id, AfterMove(id, slot, move).submission)
  {
  }

  lemma {:induction false} StatusAlwaysFits(moves: seq<IntakeMove>, id: string)
    requires id in Run(map[], moves)
    ensures StatusFits(id, Run(map[], moves)[id].submission)
    decreases |moves|
  {
    var before, last := moves[..|moves| - 1], moves[|moves| - 1];
    var intake := Run(map[], before);
    assert moves == before + [last];
    RunSnoc(map[], before, last);
    RunKeepsInv(map[], before);
    if id in intake {
      StatusAlwaysFits(before, id);
      StatusStaysFit(id, intake[id], last);
    }
  }

  // In every run a submission's fields fit its status: a decision if and only if it is COMPLETED, and
  // then a duplicate's own one, or for an original one that was delivered for it; an error if and only
  // if it is FAILED, and then nothing about it has left Intake.
  lemma SubmissionShowsItsStatus(moves: seq<IntakeMove>, id: string)
    requires id in Run(map[], moves)
    ensures var s := Run(map[], moves)[id].submission;
            && s.trackingId == id && s.dedupKey == ComputeDedupKey(s.invoice)
            && (s.decision.Some? <==> s.status == Completed)
            && (s.error.Some? <==> s.status == Failed)
            && (s.status == Completed && s.isDuplicate ==>
                  s.decision == Some(Decision(Duplicate, DUPLICATE_REASON, ["GLOBAL-DUP"], id)))
            && (s.status == Completed && !s.isDuplicate ==> DecisionArrives(id, s.decision.value) in moves)
            && (s.status == Failed ==> !s.isDuplicate && !Run(map[], moves)[id].announced)
            && (s.status == Processing ==> !s.isDuplicate)
  {
    RunKeepsInv(map[], moves);
    var slot := Run(map[], moves)[id];
    assert SlotOk(id, slot);
    StatusAlwaysFits(moves, id);
    if slot.submission.status == Completed && !slot.submission.isDuplicate {
      HeldWasDelivered(moves, id, slot.submission.decision.value);
    }
  }

  // Once COMPLETED, a submission never changes again, whatever is redelivered.
  lemma {:induction false} CompletedIsForever(intake: Intake, moves: seq<IntakeMove>, id: string)
    requires Inv(intake) && id in intake && intake[id].submission.status.Completed?
    ensures id in Run(intake, moves) && Run(intake, moves)[id].submission == intake[id].submission
    decreases |moves|
  {
    if moves != [] {
      StepKeepsInv(intake, moves[0]);
      StepProgresses(intake, moves[0]);
      CompletedIsForever(Step(intake, moves[0]), moves[1..], id);
    }
  }

  // The saves of one submission never change its dedup key, which is what the stored pointer needs.
  lemma {:induction false} IdentityIsForever(intake: Intake, moves: seq<IntakeMove>, id: string)
    requires Inv(intake) && id in intake
    ensures id in Run(intake, moves) && SameIdentity(intake[id].submission, Run(intake, moves)[id].submission)
    decreases |moves|
  {
    if moves != [] {
      StepKeepsInv(intake, moves[0]);
      StepProgresses(intake, moves[0]);
      IdentityIsForever(Step(intake, moves[0]), moves[1..], id);
    }
  }

  lemma {:induction false} RunAppend(intake: Intake, first: seq<IntakeMove>, second: seq<IntakeMove>)
    ensures Run(intake, first + second) == Run(Run(intake, first), second)
    decreases |first|
  {
    if first == [] {
      assert first + second == second;
    } else {
      assert (first + second)[0] == first[0] && (first + second)[1..] == first[1..] + second;
      RunAppend(Step(intake, first[0]), first[1..], second);
    }
  }

  lemma RunSnoc(intake: Intake, moves: seq<IntakeMove>, last: IntakeMove)
    ensures Run(intake, moves + [last]) == Step(Run(intake, moves), last)
  {
    RunAppend(intake, moves, [last]);
    var middle := Run(intake, moves);
    assert Run(middle, [last]) == Run(Step(middle, last), []);
  }
}

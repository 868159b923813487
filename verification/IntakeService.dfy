// Intake's methods as they are written, statement by statement, on the repository's lookups and
// saves (services/intake/service.py), against the lifecycle machine: at each await the rest of Intake
// moves, and the await may fail or the process may die there.
module IntakeServices {
  import opened Contracts
  import opened IntakeStore
  import opened Submissions
  import opened IntakeLifecycle
  import opened IntakeSaves
  import Kv = OptimisticStore

  datatype Turn = Turn(others: seq<IntakeMove>, fault: bool, published: bool)

  predicate Mine(move: IntakeMove, id: string, processing: bool) {
    move.trackingId == id
    && if processing then move.ProcessStep? || move.ProcessDies? else move.CompleteStep? || move.CompleteDies?
  }

  function Without(moves: seq<IntakeMove>, mine: IntakeMove -> bool): (spared: seq<IntakeMove>)
    ensures forall i | 0 <= i < |spared| :: !mine(spared[i])
    decreases |moves|
  {
    if moves == [] then []
    else (if mine(moves[0]) then [] else [moves[0]]) + Without(moves[1..], mine)
  }

  // What one side is doing: its process is under way, or it is completing.
  predicate Busy(slot: Slot, processing: bool) {
    if processing then !slot.process.Ended? else slot.completing.Some?
  }

  lemma SlotSpares(id: string, slot: Slot, move: IntakeMove, processing: bool)
    requires move.trackingId == id && !Mine(move, id, processing)
    requires SlotOk(id, slot) && Busy(slot, processing)
    ensures AfterMove(id, slot, move).submission == slot.submission
    ensures if processing then AfterMove(id, slot, move).process == slot.process
            else AfterMove(id, slot, move).completing == slot.completing
  {
  }

  predicate Untouched(before: Slot, after: Slot, processing: bool) {
    && after.submission == before.submission
    && if processing then after.process == before.process else after.completing == before.completing
  }

  lemma OtherSpares(intake: Intake, move: IntakeMove, id: string, processing: bool)
    requires id in intake && Inv(intake)
    requires !Mine(move, id, processing) && Busy(intake[id], processing)
    ensures var after := Step(intake, move);
            id in after && Inv(after) && Untouched(intake[id], after[id], processing)
  {
    StepKeepsInv(intake, move);
    if move.trackingId == id {
      SlotSpares(id, intake[id], move, processing);
    }
  }

  // While one side of a submission awaits, the rest of Intake may do anything but move that side or
  // the submission.
  lemma {:induction false} OthersSpare(intake: Intake, moves: seq<IntakeMove>, id: string, processing: bool)
    requires id in intake && Inv(intake)
    requires forall i | 0 <= i < |moves| :: !Mine(moves[i], id, processing)
    requires Busy(intake[id], processing)
    ensures var after := Run(intake, moves);
            id in after && Inv(after) && Untouched(intake[id], after[id], processing)
    decreases |moves|
  {
    if moves != [] {
      OtherSpares(intake, moves[0], id, processing);
      OthersSpare(Step(intake, moves[0]), moves[1..], id, processing);
    }
  }

  function Awaited(id: string, before: Slot, processing: bool, fault: bool, published: bool): Slot {
    if processing then (if fault then before.(process := Ended) else AfterProcess(id, before, published))
    else (if fault then before.(completing := None) else AfterComplete(before))
  }

  function OwnMove(id: string, processing: bool, fault: bool, published: bool): IntakeMove {
    if processing then (if fault then ProcessDies(id) else ProcessStep(id, published))
    else (if fault then CompleteDies(id) else CompleteStep(id))
  }

  lemma OwnStepIs(intake: Intake, id: string, processing: bool, fault: bool, published: bool)
    requires id in intake
    ensures var after := Step(intake, OwnMove(id, processing, fault, published));
            id in after && after[id] == Awaited(id, intake[id], processing, fault, published)
  {
  }

  lemma OwnStep(intake: Intake, id: string, processing: bool, fault: bool, published: bool)
    requires id in intake && Inv(intake)
    ensures var after := Step(intake, OwnMove(id, processing, fault, published));
            id in after && Inv(after) && after[id] == Awaited(id, intake[id], processing, fault, published)
  {
    OwnStepIs(intake, id, processing, fault, published);
    StepKeepsInv(intake, OwnMove(id, processing, fault, published));
  }

  predicate NoFaults(script: seq<Turn>) {
    forall turn <- script :: !turn.fault
  }

  // The next await is a read of the submission, or a save of exactly this one.
  predicate Reads(slot: Slot, processing: bool) {
    if processing then slot.process.Queued? || slot.process.CompletingDuplicate?
    else slot.completing.Some? && slot.completing.value.Checking?
  }

  predicate Saves(slot: Slot, submission: Submission, processing: bool) {
    if processing then
      match slot.process
      case SavingProcessing(next) => next == submission
      case SavingError(next) => next == submission
      case SavingDuplicate(next, _) => next == submission
      case _ => false
    else slot.completing == Some(SavingCompleted(submission))
  }

  // Where an await that goes through takes the side that awaits.
  predicate Goes(id: string, before: Slot, after: Slot, processing: bool) {
    if processing then after.process == AfterProcess(id, before, true).process
    else after.completing == AfterComplete(before).completing
  }

  // How a process that met no failure leaves its submission: a duplicate COMPLETED as one, an
  // original PROCESSING and announced, or FAILED if its publish failed.
  predicate Processed(id: string, before: Submission, after: Slot) {
    if before.isDuplicate then
      after.submission
      == before.(status := Completed, decision := Some(Decision(Duplicate, DUPLICATE_REASON, ["GLOBAL-DUP"], id)))
    else if after.announced then after.submission == before.(status := Processing)
    else after.submission == before.(status := Failed, error := Some(PUBLISH_ERROR))
  }

  class IntakeService {
    const repository: DaprStateInvoiceRepository
    var intake: Intake
    var script: seq<Turn>

    constructor (repository: DaprStateInvoiceRepository, intake: Intake, script: seq<Turn>)
      requires Inv(intake) && Backed(Kv.Contents(repository.store), intake)
      ensures this.repository == repository && this.intake == intake && this.script == script && Valid()
    {
      this.repository, this.intake, this.script := repository, intake, script;
    }

    // What is stored is what the machine holds.
    ghost predicate Valid()
      reads this, repository
    {
      Inv(intake) && Backed(Kv.Contents(repository.store), intake)
    }

    // One move of anyone's, with the save it makes.
    method Move(move: IntakeMove)
      requires Valid()
      modifies this`intake, repository
      ensures Valid() && intake == Step(old(intake), move)
    {
      var saved := SavedBy(intake, move);
      MoveShows(intake, move);
      StepKeepsInv(intake, move);
      StaysBacked(Kv.Contents(repository.store), intake, Step(intake, move), saved);
      if saved.Some? {
        var raised := repository.Save(saved.value, false);
      }
      intake := Step(intake, move);
    }

    method Moves(others: seq<IntakeMove>)
      requires Valid()
      modifies this`intake, repository
      ensures Valid() && intake == Run(old(intake), others)
    {
      for i := 0 to |others|
        invariant Valid() && intake == Run(old(intake), others[..i])
      {
        assert others[..i + 1] == others[..i] + [others[i]];
        RunSnoc(old(intake), others[..i], others[i]);
        Move(others[i]);
      }
      assert others[..|others|] == others;
    }

    method Others(id: string, processing: bool) returns (fault: bool, published: bool, ghost moves: seq<IntakeMove>)
      requires Valid() && id in intake && Busy(intake[id], processing)
      modifies this, repository
      ensures Valid() && intake == Run(old(intake), moves) && id in intake
      ensures NoFaults(old(script)) ==> !fault && NoFaults(script)
      ensures Untouched(old(intake)[id], intake[id], processing)
    {
      fault, published, moves := false, true, [];
      if script != [] {
        var others := Without(script[0].others, move => Mine(move, id, processing));
        fault, published, moves := script[0].fault, script[0].published, others;
        script := script[1..];
        OthersSpare(intake, others, id, processing);
        Moves(others);
      }
    }

    // One await of process() or of complete(): other work first, then its effect or its failure.
    method Await(id: string, processing: bool)
      returns (fault: bool, published: bool, ghost before: Slot, ghost moves: seq<IntakeMove>)
      requires Valid() && id in intake && Busy(intake[id], processing)
      modifies this, repository
      ensures Valid() && intake == Run(old(intake), moves) && id in intake
      ensures NoFaults(old(script)) ==> !fault && NoFaults(script)
      ensures SlotOk(id, before) && Untouched(old(intake)[id], before, processing)
      ensures intake[id] == Awaited(id, before, processing, fault, published)
    {
      fault, published, moves := Others(id, processing);
      before := intake[id];
      assert SlotOk(id, before);
      var own := OwnMove(id, processing, fault, published);
      RunSnoc(old(intake), moves, own);
      OwnStep(intake, id, processing, fault, published);
      moves := moves + [own];
      Move(own);
    }

    // repository.get
    method GetSubmission(id: string, processing: bool)
      returns (fault: bool, submission: Submission, ghost moves: seq<IntakeMove>)
      requires Valid() && id in intake && Reads(intake[id], processing)
      modifies this, repository
      ensures Valid() && intake == Run(old(intake), moves) && id in intake
      ensures NoFaults(old(script)) ==> !fault && NoFaults(script)
      ensures submission == intake[id].submission == old(intake)[id].submission
      ensures if fault then !Busy(intake[id], processing) else Goes(id, old(intake)[id], intake[id], processing)
    {
      ghost var before;
      var published;
      fault, published, before, moves := Await(id, processing);
      submission := intake[id].submission;
    }

    // repository.save
    method SaveSubmission(id: string, submission: Submission, processing: bool)
      returns (fault: bool, ghost moves: seq<IntakeMove>)
      requires Valid() && id in intake && Saves(intake[id], submission, processing)
      modifies this, repository
      ensures Valid() && intake == Run(old(intake), moves) && id in intake
      ensures NoFaults(old(script)) ==> !fault && NoFaults(script)
      ensures if fault then intake[id].submission == old(intake)[id].submission && !Busy(intake[id], processing)
              else intake[id].submission == submission && Goes(id, old(intake)[id], intake[id], processing)
    {
      ghost var before;
      var published;
      fault, published, before, moves := Await(id, processing);
    }

    // publisher.publish, of invoice.submitted
    method PublishInvoice(id: string, event: InvoiceSubmittedEvent)
      returns (fault: bool, published: bool, ghost moves: seq<IntakeMove>)
      requires Valid() && id in intake && intake[id].process.PublishingInvoice?
      requires event == InvoiceSubmittedEvent(intake[id].process.original.invoice, id)
      modifies this, repository
      ensures Valid() && intake == Run(old(intake), moves) && id in intake
      ensures NoFaults(old(script)) ==> !fault && NoFaults(script)
      ensures intake[id].submission == old(intake)[id].submission
      ensures var original := old(intake)[id].process.original;
              if fault then intake[id].process.Ended?
              else if published then intake[id].process.Ended? && intake[id].announced
              else
                && intake[id].process == SavingError(original.(status := Failed, error := Some(PUBLISH_ERROR)))
                && !intake[id].announced
    {
      ghost var before;
      fault, published, before, moves := Await(id, true);
    }

    // decision_completed_publisher.publish, of a duplicate's own decision
    method PublishDecision(id: string, event: DecisionCompletedEvent) returns (ghost moves: seq<IntakeMove>)
      requires Valid() && id in intake && intake[id].process == PublishingDuplicate(event.decision)
      requires event == DecisionCompletedEvent(intake[id].submission.invoice, event.decision, None)
      modifies this, repository
      ensures Valid() && intake == Run(old(intake), moves) && id in intake
      ensures intake[id].submission == old(intake)[id].submission && intake[id].process.Ended?
    {
      ghost var before;
      var fault, published;
      fault, published, before, moves := Await(id, true);
    }

    // The dedup lookup and the first save; a tracking id is fresh. Either request may raise, and then
    // nothing is submitted.
    method SubmitInvoice(trackingId: string, invoice: Invoice, pointerFails: bool, recordFails: bool, saveFails: bool)
      returns (raised: bool)
      requires Valid() && trackingId !in intake
      modifies this`intake, repository
      ensures Valid()
      ensures raised ==> intake == old(intake) && (pointerFails || recordFails || saveFails)
      ensures pointerFails || saveFails || (recordFails && KeySeen(old(intake), ComputeDedupKey(invoice))) ==> raised
      ensures !raised ==> intake == Step(old(intake), Submit(trackingId, invoice))
      ensures !raised ==>
                && trackingId in intake
                && var s := intake[trackingId].submission;
                   s.trackingId == trackingId && s.invoice == invoice && s.dedupKey == ComputeDedupKey(invoice)
                   && s.status == Received && s.decision == None && s.error == None
      ensures !raised ==> (intake[trackingId].submission.isDuplicate <==>
          KeySeen(old(intake), ComputeDedupKey(invoice)))
    {
      var dedupKey := ComputeDedupKey(invoice);
      BackedLookup(Kv.Contents(repository.store), intake, dedupKey);
      LookupFailsOnlyOnPointers(repository.store, intake, dedupKey);
      var existing := repository.Find(dedupKey, pointerFails, recordFails);
      if existing.InvoiceRepositoryError? {
        return true;
      }
      var submission := Submission(trackingId, invoice, dedupKey, existing.submission.Some?, Received, None, None);
      MoveShows(intake, Submit(trackingId, invoice));
      StepKeepsInv(intake, Submit(trackingId, invoice));
      StaysBacked(Kv.Contents(repository.store), intake, Step(intake, Submit(trackingId, invoice)), Some(submission));
      raised := repository.Save(submission, saveFails);
      if raised {
        return true;
      }
      intake := intake[trackingId := Slot(submission, Queued, None, false)];
    }

    method ProcessDuplicate(id: string, submission: Submission, decision: Decision)
      returns (ghost moves: seq<IntakeMove>)
      requires Valid() && id in intake && intake[id].process == CompletingDuplicate(decision)
      requires intake[id].submission == submission
      modifies this, repository
      ensures Valid() && intake == Run(old(intake), moves)
      ensures id in intake && intake[id].process.Ended?
      ensures NoFaults(old(script)) ==> Processed(id, submission, intake[id])
    {
      ghost var start, more := intake, [];
      var fault, current;
      assert SlotOk(id, intake[id]);
      fault, current, moves := GetSubmission(id, true);
      if fault { return; }
      if current.status != Completed {
        fault, more := SaveSubmission(id, current.(status := Completed, decision := Some(decision)), true);
        RunAppend(start, moves, more);
        moves := moves + more;
        if fault { return; }
      }
      more := PublishDecision(id, DecisionCompletedEvent(submission.invoice, decision, None));
      RunAppend(start, moves, more);
      moves := moves + more;
    }

    method ProcessOriginal(id: string, submission: Submission) returns (ghost moves: seq<IntakeMove>)
      requires Valid() && id in intake && intake[id].submission == submission
      requires intake[id].process == SavingProcessing(submission.(status := Processing))
      modifies this, repository
      ensures Valid() && intake == Run(old(intake), moves)
      ensures id in intake && intake[id].process.Ended?
      ensures NoFaults(old(script)) ==> Processed(id, submission, intake[id])
    {
      ghost var start, more := intake, [];
      var fault, published;
      assert SlotOk(id, intake[id]);
      fault, moves := SaveSubmission(id, submission.(status := Processing), true);
      if fault { return; }
      fault, published, more := PublishInvoice(id, InvoiceSubmittedEvent(submission.invoice, id));
      RunAppend(start, moves, more);
      moves := moves + more;
      if fault || published { return; }
      fault, more := SaveSubmission(id, submission.(status := Failed, error := Some(PUBLISH_ERROR)), true);
      RunAppend(start, moves, more);
      moves := moves + more;
    }

    // Runs to its end, or to the await that failed; either way it is the machine's process.
    method Process(id: string) returns (ghost moves: seq<IntakeMove>)
      requires Valid() && id in intake && intake[id].process.Queued?
      modifies this, repository
      ensures Valid() && intake == Run(old(intake), moves)
      ensures id in intake && intake[id].process.Ended?
      ensures NoFaults(old(script)) ==> Processed(id, old(intake)[id].submission, intake[id])
    {
      ghost var start, more := intake, [];
      var fault, submission;
      assert SlotOk(id, intake[id]);
      fault, submission, moves := GetSubmission(id, true);
      if fault { return; }
      if submission.isDuplicate {
        if submission.status == Completed { return; }
        more := ProcessDuplicate(id, submission, BuildDuplicateDecision(id));
      } else {
        more := ProcessOriginal(id, submission);
      }
      RunAppend(start, moves, more);
      moves := moves + more;
    }

    // First write wins: an unknown tracking id and an already completed one change nothing.
    method CompleteAnnounced(id: string, decision: Decision) returns (ghost moves: seq<IntakeMove>)
      requires Valid() && id in intake && intake[id].announced && intake[id].completing.None?
      modifies this, repository
      ensures Valid() && intake == Run(old(intake), moves)
      ensures id in intake && intake[id].completing.None?
      ensures old(intake)[id].submission.status.Completed? ==> intake[id].submission == old(intake)[id].submission
      ensures !old(intake)[id].submission.status.Completed? && NoFaults(old(script)) ==>
                intake[id].submission
                == old(intake)[id].submission.(status := Completed, decision := Some(decision))
    {
      ghost var start, more := intake, [];
      var fault, submission;
      moves := [DecisionArrives(id, decision)];
      RunSnoc(start, [], DecisionArrives(id, decision));
      Move(DecisionArrives(id, decision));
      var none: seq<IntakeMove> := [];
      assert none + moves == moves;
      fault, submission, more := GetSubmission(id, false);
      RunAppend(start, moves, more);
      moves := moves + more;
      if !fault && submission.status != Completed {
        fault, more := SaveSubmission(id, submission.(status := Completed, decision := Some(decision)), false);
        RunAppend(start, moves, more);
        moves := moves + more;
      }
      if start[id].submission.status.Completed? {
        CompletedIsForever(start, moves, id);
      }
    }

    // All of Intake may move here, this submission's process included.
    method Yield() returns (fault: bool, ghost moves: seq<IntakeMove>)
      requires Valid()
      modifies this, repository
      ensures Valid() && intake == Run(old(intake), moves)
      ensures NoFaults(old(script)) ==> !fault && NoFaults(script)
    {
      fault, moves := false, [];
      if script != [] {
        var others := script[0].others;
        fault, moves := script[0].fault, others;
        script := script[1..];
        Moves(others);
      }
    }

    // A decision for a submission about which nothing has left Intake. The code completes that too, on
    // what it read, over whatever the process has saved since.
    method CompleteUnannounced(id: string, decision: Decision)
      returns (saved: bool, ghost seen: Submission, ghost moves: seq<IntakeMove>)
      requires Valid() && id in intake
      modifies this, repository
      ensures var run := Run(old(intake), moves);
              && id in run && SameIdentity(old(intake)[id].submission, seen)
              && intake == (if saved
                  then run[id := run[id].(submission := seen.(status := Completed, decision := Some(decision)))]
                  else run)
      ensures saved ==> !seen.status.Completed?
      ensures NoFaults(old(script)) ==> saved || seen.status.Completed?
      ensures Backed(Kv.Contents(repository.store), intake)
    {
      ghost var start, more := intake, [];
      var fault;
      saved, seen := false, intake[id].submission;
      fault, moves := Yield();
      IdentityIsForever(start, moves, id);
      if fault { return; }
      var submission := intake[id].submission;
      seen := submission;
      if submission.status == Completed { return; }
      fault, more := Yield();
      RunAppend(start, moves, more);
      moves := moves + more;
      IdentityIsForever(start, moves, id);
      if fault { return; }
      var completed := CompletedWith(submission, decision);
      ghost var after := intake[id := intake[id].(submission := completed)];
      assert SlotOk(id, start[id]);
      StaysBacked(Kv.Contents(repository.store), intake, after, Some(completed));
      var raised := repository.Save(completed, false);
      intake := intake[id := intake[id].(submission := completed)];
      saved := true;
    }

    // An unknown tracking id changes nothing.
    method Complete(id: string, decision: Decision)
      returns (saved: bool, ghost seen: Option<Submission>, ghost moves: seq<IntakeMove>)
      requires Valid()
      requires id in intake ==> intake[id].completing.None?
      modifies this, repository
      ensures id !in old(intake) ==> intake == old(intake)
      ensures id in old(intake) && old(intake)[id].announced ==>
                && Valid() && intake == Run(old(intake), moves) && id in intake && intake[id].completing.None?
                && (old(intake)[id].submission.status.Completed? ==>
                    intake[id].submission == old(intake)[id].submission)
                && (!old(intake)[id].submission.status.Completed? && NoFaults(old(script)) ==>
                      intake[id].submission
                      == old(intake)[id].submission.(status := Completed, decision := Some(decision)))
      ensures id in old(intake) && !old(intake)[id].announced ==>
                var run := Run(old(intake), moves);
                && id in run && seen.Some? && SameIdentity(old(intake)[id].submission, seen.value)
                && intake == (if saved
                    then run[id := run[id].(submission := seen.value.(status := Completed,
                        decision := Some(decision)))]
                    else run)
                && (saved ==> !seen.value.status.Completed?)
                && (NoFaults(old(script)) ==> saved || seen.value.status.Completed?)
    {
      saved, seen, moves := false, None, [];
      if id !in intake {
        return;
      }
      if intake[id].announced {
        moves := CompleteAnnounced(id, decision);
      } else {
        ghost var read;
        saved, read, moves := CompleteUnannounced(id, decision);
        seen := Some(read);
      }
    }
  }

  // A failing read of the record can only be noticed behind a pointer.
  lemma LookupFailsOnlyOnPointers(store: Kv.Store<Item>, intake: Intake, key: string)
    requires Backed(Kv.Contents(store), intake)
    ensures KeySeen(intake, key) <==>
              DedupPointerKey(key) in store.cells && store.cells[DedupPointerKey(key)].value.Pointer?
  {
    assert PointerBacked(Kv.Contents(store), intake, key);
    assert Kv.Get(Kv.Contents(store), DedupPointerKey(key)) == Kv.Lookup(store, DedupPointerKey(key));
  }
}

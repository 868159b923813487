// The saves a run of Intake makes, and what its repositories answer after them: the dedup lookup of
// services/intake/service.py:50-67 sees exactly the keys that some submission has.
module IntakeSaves {
  import opened Contracts
  import Kv = OptimisticStore
  import opened IntakeStore
  import opened Submissions
  import opened IntakeLifecycle

  // What a move saves: the whole submission, as the process or the completion holds it.
  function SavedBy(intake: Intake, move: IntakeMove): Option<Submission> {
    var id := move.trackingId;
    if id !in intake then (if move.Submit? then Some(NewSubmission(intake, id, move.invoice)) else None)
    else
      match move
      case ProcessStep(_, _) => SavedByProcess(intake[id].process)
      case CompleteStep(_) =>
        if intake[id].completing.Some? && intake[id].completing.value.SavingCompleted?
        then Some(intake[id].completing.value.next) else None
      case _ => None
  }

  function SavedByProcess(pc: ProcessPc): Option<Submission> {
    match pc
    case SavingProcessing(next) => Some(next)
    case SavingError(next) => Some(next)
    case SavingDuplicate(next, _) => Some(next)
    case _ => None
  }

  function SavesOf(moves: seq<IntakeMove>): seq<Submission>
    decreases |moves|
  {
    if moves == [] then []
    else
      var before := moves[..|moves| - 1];
      var saved := SavedBy(Run(map[], before), moves[|moves| - 1]);
      SavesOf(before) + if saved.Some? then [saved.value] else []
  }

  // ---- What one move does to the submissions -------------------------------------------------------

  // The submissions after are those before, with the saved one in its place.
  ghost predicate Shows(intake: Intake, after: Intake, saved: Option<Submission>) {
    match saved
    case None =>
      && after.Keys == intake.Keys
      && forall id <- intake :: after[id].submission == intake[id].submission
    case Some(s) =>
      && after.Keys == intake.Keys + {s.trackingId}
      && after[s.trackingId].submission == s
      && (s.trackingId in intake ==> s.dedupKey == intake[s.trackingId].submission.dedupKey)
      && forall id <- intake | id != s.trackingId :: after[id].submission == intake[id].submission
  }

  lemma ProcessSaves(id: string, slot: Slot, published: bool)
    requires SlotOk(id, slot)
    ensures var saved := SavedByProcess(slot.process);
            var after := AfterProcess(id, slot, published);
            && after.submission == (if saved.Some? then saved.value else slot.submission)
            && (saved.Some? ==> saved.value.trackingId == id && saved.value.dedupKey == slot.submission.dedupKey)
  {
  }

  lemma CompletionSaves(id: string, slot: Slot)
    requires SlotOk(id, slot) && slot.completing.Some? && slot.completing.value.SavingCompleted?
    ensures var saved := slot.completing.value.next;
            AfterComplete(slot).submission == saved && saved.trackingId == id
                && saved.dedupKey == slot.submission.dedupKey
  {
  }

  // A move of an existing submission shows in its own slot only.
  lemma SlotShows(intake: Intake, id: string, slot: Slot, saved: Option<Submission>)
    requires id in intake
    requires slot.submission == (if saved.Some? then saved.value else intake[id].submission)
    requires saved.Some? ==> saved.value.trackingId == id && saved.value.dedupKey == intake[id].submission.dedupKey
    ensures Shows(intake, intake[id := slot], saved)
  {
  }

  lemma {:induction false} MoveShows(intake: Intake, move: IntakeMove)
    requires Inv(intake)
    ensures Shows(intake, Step(intake, move), SavedBy(intake, move))
  {
    var id := move.trackingId;
    if id in intake {
      assert SlotOk(id, intake[id]);
      if move.ProcessStep? {
        ProcessSaves(id, intake[id], move.published);
      } else if move.CompleteStep? && SavedBy(intake, move).Some? {
        CompletionSaves(id, intake[id]);
      }
      SlotShows(intake, id, AfterMove(id, intake[id], move), SavedBy(intake, move));
    }
  }

  // ---- The store behind Intake ---------------------------------------------------------------------

  predicate RecordBacked(contents: map<string, Item>, intake: Intake, id: string) {
    Kv.Get(contents, SubmissionKey(id)) == if id in intake then Some(Record(intake[id].submission)) else None
  }

  predicate PointsAt(intake: Intake, key: string, id: string) {
    id in intake && intake[id].submission.dedupKey == key
  }

  predicate PointerBacked(contents: map<string, Item>, intake: Intake, key: string) {
    var item: Option<Item> := Kv.Get(contents, DedupPointerKey(key));
    match item
    case None => !KeySeen(intake, key)
    case Some(Pointer(id)) => PointsAt(intake, key, id)
    case Some(Record(_)) => false
  }

  ghost predicate Backed(contents: map<string, Item>, intake: Intake) {
    && (forall id: string :: RecordBacked(contents, intake, id))
    && (forall key: string :: PointerBacked(contents, intake, key))
  }

  function SavedInto(contents: map<string, Item>, saved: Option<Submission>): map<string, Item> {
    if saved.Some? then SavedTo(contents, saved.value) else contents
  }

  lemma RecordStaysBacked(contents: map<string, Item>, intake: Intake, after: Intake, saved: Option<Submission>,
          id: string)
    requires RecordBacked(contents, intake, id) && Shows(intake, after, saved)
    ensures RecordBacked(SavedInto(contents, saved), after, id)
  {
    if saved.Some? {
      PrefixesDiffer(id, saved.value.trackingId);
      PrefixesDiffer(id, saved.value.dedupKey);
    }
  }

  lemma SeenAfter(intake: Intake, after: Intake, saved: Option<Submission>, key: string)
    requires Shows(intake, after, saved)
    ensures KeySeen(after, key) <==> KeySeen(intake, key) || (saved.Some? && saved.value.dedupKey == key)
  {
    if KeySeen(intake, key) {
      var id :| id in intake && intake[id].submission.dedupKey == key;
      assert id in after && after[id].submission.dedupKey == key;
    }
    if saved.Some? && saved.value.dedupKey == key {
      assert after[saved.value.trackingId].submission.dedupKey == key;
    }
  }

  lemma PointerStaysBacked(contents: map<string, Item>, intake: Intake, after: Intake, saved: Option<Submission>,
          key: string)
    requires PointerBacked(contents, intake, key) && Shows(intake, after, saved)
    ensures PointerBacked(SavedInto(contents, saved), after, key)
  {
    SeenAfter(intake, after, saved, key);
    if saved.Some? {
      PrefixesDiffer(saved.value.trackingId, key);
      PrefixesDiffer(key, saved.value.dedupKey);
    }
  }

  lemma StaysBacked(contents: map<string, Item>, intake: Intake, after: Intake, saved: Option<Submission>)
    requires Backed(contents, intake) && Shows(intake, after, saved)
    ensures Backed(SavedInto(contents, saved), after)
  {
    forall id: string ensures RecordBacked(SavedInto(contents, saved), after, id) {
      RecordStaysBacked(contents, intake, after, saved, id);
    }
    forall key: string ensures PointerBacked(SavedInto(contents, saved), after, key) {
      PointerStaysBacked(contents, intake, after, saved, key);
    }
  }

  // With the store behind it, the dedup lookup never raises, finds something exactly for the keys
  // seen, and what it finds is a current submission with that key.
  lemma BackedLookup(contents: map<string, Item>, intake: Intake, key: string)
    requires Backed(contents, intake)
    ensures var found := FindByDedupKey(contents, key);
            && found.Found? && (found.submission.Some? <==> KeySeen(intake, key))
            && (found.submission.Some? ==>
                  exists id <- intake :: intake[id].submission == found.submission.value
                      && intake[id].submission.dedupKey == key)
  {
    assert PointerBacked(contents, intake, key);
    var item: Option<Item> := Kv.Get(contents, DedupPointerKey(key));
    if item.Some? {
      assert PointsAt(intake, key, item.value.trackingId);
      assert RecordBacked(contents, intake, item.value.trackingId);
    }
  }

  // ---- Whole runs ----------------------------------------------------------------------------------

  lemma {:induction false} RunIsBacked(moves: seq<IntakeMove>)
    ensures Backed(StoreAfter(SavesOf(moves)), Run(map[], moves))
    decreases |moves|
  {
    if moves != [] {
      var before, last := moves[..|moves| - 1], moves[|moves| - 1];
      var intake := Run(map[], before);
      var saved := SavedBy(intake, last);
      assert moves == before + [last];
      RunSnoc(map[], before, last);
      RunKeepsInv(map[], before);
      RunIsBacked(before);
      MoveShows(intake, last);
      StaysBacked(StoreAfter(SavesOf(before)), intake, Step(intake, last), saved);
      if saved.Some? {
        assert SavesOf(moves)[..|SavesOf(moves)| - 1] == SavesOf(before);
      } else {
        assert SavesOf(moves) == SavesOf(before);
      }
    }
  }

  // Every save carries the dedup key its submission still has.
  ghost predicate KeysCurrent(saves: seq<Submission>, intake: Intake) {
    forall s <- saves :: PointsAt(intake, s.dedupKey, s.trackingId)
  }

  lemma {:induction false} SavesKeepKeys(moves: seq<IntakeMove>)
    ensures KeysCurrent(SavesOf(moves), Run(map[], moves))
    decreases |moves|
  {
    if moves != [] {
      var before, last := moves[..|moves| - 1], moves[|moves| - 1];
      var intake := Run(map[], before);
      assert moves == before + [last];
      RunSnoc(map[], before, last);
      RunKeepsInv(map[], before);
      SavesKeepKeys(before);
      MoveShows(intake, last);
      forall s <- SavesOf(moves) ensures PointsAt(Step(intake, last), s.dedupKey, s.trackingId) {
        assert s in SavesOf(before) ==> PointsAt(intake, s.dedupKey, s.trackingId);
      }
    }
  }

  // For every run of Intake: its saves keep each tracking id's dedup key, so the pointer store answers
  // them as the two dictionaries do; and in both, the dedup lookup finds a submission exactly for the
  // keys that some submission of the run has, which is what submit takes for a duplicate.
  lemma {:induction false} LookupSeesEveryKey(moves: seq<IntakeMove>, key: string)
    ensures var saves := SavesOf(moves);
            var intake := Run(map[], moves);
            var found := FindByDedupKey(StoreAfter(saves), key);
            && KeysKept(saves)
            && SameAnswers(MemoryAfter(saves), StoreAfter(saves))
            && found.Found? && (found.submission.Some? <==> KeySeen(intake, key))
            && (key in MemoryAfter(saves).byDedupKey <==> KeySeen(intake, key))
            && (forall id: string :: GetSubmission(StoreAfter(saves), id) == if id in intake
                then Some(intake[id].submission) else None)
  {
    var saves := SavesOf(moves);
    var intake := Run(map[], moves);
    RunIsBacked(moves);
    SavesKeepKeys(moves);
    BackedLookup(StoreAfter(saves), intake, key);
    forall i, j | 0 <= i < |saves| && 0 <= j < |saves| && saves[i].trackingId == saves[j].trackingId
      ensures saves[i].dedupKey == saves[j].dedupKey
    {
      assert PointsAt(intake, saves[i].dedupKey, saves[i].trackingId);
      assert PointsAt(intake, saves[j].dedupKey, saves[j].trackingId);
    }
    PointerStoreRefinesDictionaries(saves);
    assert SameFind(MemoryAfter(saves), StoreAfter(saves), key);
    forall id: string ensures GetSubmission(StoreAfter(saves), id) == if id in intake
        then Some(intake[id].submission) else None {
      assert RecordBacked(StoreAfter(saves), intake, id);
    }
  }
}

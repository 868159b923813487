// Intake's stored submissions: two plain dictionaries (services/intake/repository.py) against one
// key-value store with a dedup pointer (services/intake/dapr_state_repository.py).
module IntakeStore {
  import opened Contracts
  import opened OptimisticStore
  import opened Submissions

  // ---- The simple specification ------------------------------------------------------------------

  datatype Memory = Memory(byTrackingId: map<string, Submission>, byDedupKey: map<string, Submission>)

  const EmptyMemory := Memory(map[], map[])

  function Remember(memory: Memory, s: Submission): Memory {
    Memory(memory.byTrackingId[s.trackingId := s], memory.byDedupKey[s.dedupKey := s])
  }

  class InMemoryInvoiceRepository {
    var byTrackingId: map<string, Submission>
    var byDedupKey: map<string, Submission>

    constructor ()
      ensures Memory(byTrackingId, byDedupKey) == EmptyMemory
    {
      byTrackingId, byDedupKey := map[], map[];
    }

    method Save(submission: Submission)
      modifies this
      ensures Memory(byTrackingId, byDedupKey) == Remember(Memory(old(byTrackingId), old(byDedupKey)), submission)
      ensures byTrackingId == old(byTrackingId)[submission.trackingId := submission]
      ensures byDedupKey == old(byDedupKey)[submission.dedupKey := submission]
    {
      byTrackingId := byTrackingId[submission.trackingId := submission];
      byDedupKey := byDedupKey[submission.dedupKey := submission];
    }
  }

  // ---- Record plus pointer -----------------------------------------------------------------------

  datatype Item = Record(submission: Submission) | Pointer(trackingId: string)

  // The error is a pointer whose record is missing.
  datatype Found = Found(submission: Option<Submission>) | InvoiceRepositoryError

  function SubmissionKey(trackingId: string): string { "submission:" + trackingId }

  function DedupPointerKey(dedupKey: string): string { "dedup:" + dedupKey }

  function SaveOperations(s: Submission): seq<Operation<Item>> {
    [Operation(SubmissionKey(s.trackingId), Record(s), None),
     Operation(DedupPointerKey(s.dedupKey), Pointer(s.trackingId), None)]
  }

  function SavedTo(contents: map<string, Item>, s: Submission): map<string, Item> {
    contents[SubmissionKey(s.trackingId) := Record(s)][DedupPointerKey(s.dedupKey) := Pointer(s.trackingId)]
  }

  function GetSubmission(contents: map<string, Item>, trackingId: string): Option<Submission> {
    var item: Option<Item> := Get(contents, SubmissionKey(trackingId));
    match item
    case Some(Record(s)) => Some(s)
    case _ => None
  }

  function FindByDedupKey(contents: map<string, Item>, dedupKey: string): Found {
    var item: Option<Item> := Get(contents, DedupPointerKey(dedupKey));
    match item
    case Some(Pointer(trackingId)) =>
      var submission := GetSubmission(contents, trackingId);
      if submission.None? then InvoiceRepositoryError else Found(submission)
    case _ => Found(None)
  }

  class DaprStateInvoiceRepository {
    var store: Store<Item>

    constructor ()
      ensures store == Store(map[], 0)
    {
      store := Store(map[], 0);
    }

    // One transaction writes both keys, or (if the request fails) neither.
    method Save(submission: Submission, fault: bool) returns (raised: bool)
      modifies this
      ensures raised == fault
      ensures raised ==> store == old(store)
      ensures !raised ==> Contents(store) == SavedTo(Contents(old(store)), submission)
    {
      if fault {
        return true;
      }
      var operations := SaveOperations(submission);
      var result := Execute(store, operations);
      var first, second := operations[0], operations[1];
      var middle := Put(store, first.key, first.value);
      assert operations[1..] == [second] && operations[1..][1..] == [];
      assert PutAll(middle, [second]) == PutAll(Put(middle, second.key, second.value), []);
      assert Contents(middle) == Contents(store)[first.key := first.value];
      assert Contents(Put(middle, second.key, second.value)) == Contents(middle)[second.key := second.value];
      store := result.value;
      return false;
    }

    // A request that fails raises, and so does a pointer whose record is missing.
    method Find(dedupKey: string, pointerFails: bool, recordFails: bool) returns (found: Found)
      ensures !pointerFails && !recordFails ==> found == FindByDedupKey(Contents(store), dedupKey)
      ensures !pointerFails && !recordFails ==>
                var pointer: Option<Item> := Lookup(store, DedupPointerKey(dedupKey));
                if pointer.None? || pointer.value.Record? then found == Found(None)
                else
                  var record: Option<Item> := Lookup(store, SubmissionKey(pointer.value.trackingId));
                  if record.None? || record.value.Pointer? then found == InvoiceRepositoryError
                  else found == Found(Some(record.value.submission))
      ensures pointerFails ==> found == InvoiceRepositoryError
      ensures recordFails && !pointerFails ==>
                found == if DedupPointerKey(dedupKey) in store.cells
                    && store.cells[DedupPointerKey(dedupKey)].value.Pointer?
                         then InvoiceRepositoryError else Found(None)
    {
      if pointerFails {
        return InvoiceRepositoryError;
      }
      var pointer := Lookup(store, DedupPointerKey(dedupKey));
      if pointer.None? || pointer.value.Record? {
        return Found(None);
      }
      if recordFails {
        return InvoiceRepositoryError;
      }
      var record := Lookup(store, SubmissionKey(pointer.value.trackingId));
      if record.None? || record.value.Pointer? {
        return InvoiceRepositoryError;
      }
      return Found(Some(record.value.submission));
    }
  }

  // ---- Refinement --------------------------------------------------------------------------------

  function MemoryAfter(saves: seq<Submission>): Memory {
    if saves == [] then EmptyMemory else Remember(MemoryAfter(saves[..|saves| - 1]), saves[|saves| - 1])
  }

  function StoreAfter(saves: seq<Submission>): map<string, Item> {
    if saves == [] then map[] else SavedTo(StoreAfter(saves[..|saves| - 1]), saves[|saves| - 1])
  }

  ghost predicate KeysKept(saves: seq<Submission>) {
    forall i, j | 0 <= i < |saves| && 0 <= j < |saves| && saves[i].trackingId == saves[j].trackingId ::
      saves[i].dedupKey == saves[j].dedupKey
  }

  predicate SameGet(memory: Memory, contents: map<string, Item>, id: string) {
    GetSubmission(contents, id) == Get(memory.byTrackingId, id)
  }

  predicate SameFind(memory: Memory, contents: map<string, Item>, key: string) {
    FindByDedupKey(contents, key) == Found(Get(memory.byDedupKey, key))
  }

  // Both repositories answer every lookup alike, so the pointer never dangles.
  ghost predicate SameAnswers(memory: Memory, contents: map<string, Item>) {
    && (forall id: string :: SameGet(memory, contents, id))
    && (forall key: string :: SameFind(memory, contents, key))
  }

  predicate RecordLinked(memory: Memory, contents: map<string, Item>, id: string) {
    Get(contents, SubmissionKey(id)) == if id in memory.byTrackingId then Some(Record(memory.byTrackingId[id]))
        else None
  }

  predicate PointerLinked(memory: Memory, contents: map<string, Item>, key: string) {
    Get(contents, DedupPointerKey(key))
    == if key in memory.byDedupKey then Some(Pointer(memory.byDedupKey[key].trackingId)) else None
  }

  ghost predicate Filed(memory: Memory) {
    && (forall id <- memory.byTrackingId :: memory.byTrackingId[id].trackingId == id)
    && (forall key <- memory.byDedupKey ::
          memory.byDedupKey[key].dedupKey == key && memory.byDedupKey[key].trackingId in memory.byTrackingId)
  }

  // The store holds each current submission, and for each key the tracking id remembered under it.
  ghost predicate Linked(memory: Memory, contents: map<string, Item>) {
    && (forall id: string :: RecordLinked(memory, contents, id))
    && (forall key: string :: PointerLinked(memory, contents, key))
    && Filed(memory)
  }

  // The submission remembered under a key is the current one of its tracking id.
  ghost predicate Current(memory: Memory) {
    forall key <- memory.byDedupKey ::
      memory.byDedupKey[key].trackingId in memory.byTrackingId
      && memory.byTrackingId[memory.byDedupKey[key].trackingId] == memory.byDedupKey[key]
  }

  lemma PrefixesDiffer(a: string, b: string)
    ensures SubmissionKey(a) == SubmissionKey(b) <==> a == b
    ensures DedupPointerKey(a) == DedupPointerKey(b) <==> a == b
    ensures SubmissionKey(a) != DedupPointerKey(b)
  {
    assert SubmissionKey(a)[11..] == a && SubmissionKey(b)[11..] == b;
    assert DedupPointerKey(a)[6..] == a && DedupPointerKey(b)[6..] == b;
    assert SubmissionKey(a)[0] == 's' && DedupPointerKey(b)[0] == 'd';
  }

  lemma SaveStaysLinked(memory: Memory, contents: map<string, Item>, s: Submission)
    requires Linked(memory, contents)
    ensures Linked(Remember(memory, s), SavedTo(contents, s))
  {
    var memory', contents' := Remember(memory, s), SavedTo(contents, s);
    forall id: string ensures RecordLinked(memory', contents', id) {
      PrefixesDiffer(id, s.trackingId);
      PrefixesDiffer(id, s.dedupKey);
      assert RecordLinked(memory, contents, id);
    }
    forall key: string ensures PointerLinked(memory', contents', key) {
      PrefixesDiffer(s.trackingId, key);
      PrefixesDiffer(key, s.dedupKey);
      assert PointerLinked(memory, contents, key);
    }
  }

  lemma {:induction false} SavesStayLinked(saves: seq<Submission>)
    ensures Linked(MemoryAfter(saves), StoreAfter(saves))
    decreases |saves|
  {
    if saves != [] {
      var before := saves[..|saves| - 1];
      SavesStayLinked(before);
      SaveStaysLinked(MemoryAfter(before), StoreAfter(before), saves[|saves| - 1]);
    }
  }

  lemma FindFollowsPointer(memory: Memory, contents: map<string, Item>, key: string)
    requires Linked(memory, contents)
    ensures FindByDedupKey(contents, key)
         == Found(if key in memory.byDedupKey then Some(memory.byTrackingId[memory.byDedupKey[key].trackingId])
             else None)
  {
    assert PointerLinked(memory, contents, key);
    if key in memory.byDedupKey {
      assert RecordLinked(memory, contents, memory.byDedupKey[key].trackingId);
    }
  }

  // With the links in place, equal answers and current submissions are the same thing.
  lemma SameAnswersIffCurrent(memory: Memory, contents: map<string, Item>)
    requires Linked(memory, contents)
    ensures SameAnswers(memory, contents) <==> Current(memory)
  {
    forall id: string ensures SameGet(memory, contents, id) {
      assert RecordLinked(memory, contents, id);
    }
    if Current(memory) {
      forall key: string ensures SameFind(memory, contents, key) {
        FindFollowsPointer(memory, contents, key);
      }
    }
    if SameAnswers(memory, contents) {
      forall key <- memory.byDedupKey
        ensures memory.byTrackingId[memory.byDedupKey[key].trackingId] == memory.byDedupKey[key]
      {
        assert SameFind(memory, contents, key);
        FindFollowsPointer(memory, contents, key);
      }
    }
  }

  lemma {:induction false} LastSaveOfIdHasItsKey(saves: seq<Submission>, id: string)
    ensures id in MemoryAfter(saves).byTrackingId ==>
              exists i :: 0 <= i < |saves| && saves[i] == MemoryAfter(saves).byTrackingId[id]
                  && saves[i].trackingId == id
    decreases |saves|
  {
    if saves != [] {
      var before := saves[..|saves| - 1];
      LastSaveOfIdHasItsKey(before, id);
      if saves[|saves| - 1].trackingId == id {
        assert saves[|saves| - 1] == MemoryAfter(saves).byTrackingId[id];
      } else if id in MemoryAfter(before).byTrackingId {
        var i :| 0 <= i < |before| && before[i] == MemoryAfter(before).byTrackingId[id] && before[i].trackingId == id;
        assert saves[i] == before[i];
      }
    }
  }

  lemma {:induction false} KeptKeysStayCurrent(saves: seq<Submission>)
    requires KeysKept(saves)
    ensures Current(MemoryAfter(saves))
    decreases |saves|
  {
    if saves != [] {
      var before, last := saves[..|saves| - 1], saves[|saves| - 1];
      KeptKeysStayCurrent(before);
      SavesStayLinked(before);
      LastSaveOfIdHasItsKey(before, last.trackingId);
      assert last.trackingId in MemoryAfter(before).byTrackingId ==>
               MemoryAfter(before).byTrackingId[last.trackingId].dedupKey == last.dedupKey;
    }
  }

  // For every sequence of saves in which a tracking id keeps its dedup key, pointer-then-record
  // lookup answers what the two dictionaries answer, and never raises.
  lemma PointerStoreRefinesDictionaries(saves: seq<Submission>)
    requires KeysKept(saves)
    ensures SameAnswers(MemoryAfter(saves), StoreAfter(saves))
  {
    SavesStayLinked(saves);
    KeptKeysStayCurrent(saves);
    SameAnswersIffCurrent(MemoryAfter(saves), StoreAfter(saves));
  }

  // And it takes that: from agreement, one more save keeps it if and only if no other key still
  // remembers the saved tracking id. Without any condition the pointer still never dangles.
  lemma AgreementSurvivesSaveIff(saves: seq<Submission>, s: Submission)
    requires SameAnswers(MemoryAfter(saves), StoreAfter(saves))
    ensures SameAnswers(MemoryAfter(saves + [s]), StoreAfter(saves + [s])) <==> NotElsewhere(MemoryAfter(saves), s)
    ensures forall key: string :: FindByDedupKey(StoreAfter(saves + [s]), key).Found?
  {
    var longer := saves + [s];
    assert longer[..|longer| - 1] == saves;
    SavesStayLinked(saves);
    SavesStayLinked(longer);
    SameAnswersIffCurrent(MemoryAfter(saves), StoreAfter(saves));
    SameAnswersIffCurrent(MemoryAfter(longer), StoreAfter(longer));
    SaveKeepsCurrentIff(MemoryAfter(saves), s);
    forall key: string ensures FindByDedupKey(StoreAfter(longer), key).Found? {
      FindFollowsPointer(MemoryAfter(longer), StoreAfter(longer), key);
    }
  }

  predicate NotElsewhere(memory: Memory, s: Submission) {
    forall key <- memory.byDedupKey | key != s.dedupKey :: memory.byDedupKey[key].trackingId != s.trackingId
  }

  lemma SaveKeepsCurrentIff(memory: Memory, s: Submission)
    requires Filed(memory) && Current(memory)
    ensures Current(Remember(memory, s)) <==> NotElsewhere(memory, s)
  {
    var after := Remember(memory, s);
    if key :| key in memory.byDedupKey && key != s.dedupKey && memory.byDedupKey[key].trackingId == s.trackingId {
      assert after.byDedupKey[key] == memory.byDedupKey[key] && after.byDedupKey[key] != s;
    }
  }
}

// The versioned key-value store, and any number of callers running the read / check /
// conditional-write loop against it.
//
// The store follows the fake client of tests/unit/payment/test_dapr_state_repository.py: one etag
// counter for the whole store, raised by every write, so that no etag is used twice; a missing key
// has the empty etag, here 0. Each caller is a step machine that can be interrupted at every await.
module OptimisticStore {
  import opened Contracts

  datatype Cell<V> = Cell(value: V, etag: nat)

  datatype Store<V> = Store(cells: map<string, Cell<V>>, clock: nat)

  datatype Operation<V> = Operation(key: string, value: V, etag: Option<nat>)

  datatype Write<V> = Write(key: string, value: V)

  function Lookup<V>(store: Store<V>, key: string): Option<V> {
    if key in store.cells then Some(store.cells[key].value) else None
  }

  function Etag<V>(store: Store<V>, key: string): nat {
    if key in store.cells then store.cells[key].etag else 0
  }

  function Put<V>(store: Store<V>, key: string, value: V): Store<V> {
    Store(store.cells[key := Cell(value, store.clock + 1)], store.clock + 1)
  }

  function PutAll<V>(store: Store<V>, operations: seq<Operation<V>>): Store<V>
    decreases |operations|
  {
    if operations == [] then store
    else PutAll(Put(store, operations[0].key, operations[0].value), operations[1..])
  }

  predicate EtagsMatch<V>(store: Store<V>, operations: seq<Operation<V>>) {
    forall i | 0 <= i < |operations| && operations[i].etag.Some? ::
      operations[i].etag.value == Etag(store, operations[i].key)
  }

  // All the etags are checked before anything is written; None is the rejected transaction.
  function Execute<V>(store: Store<V>, operations: seq<Operation<V>>): Option<Store<V>> {
    if EtagsMatch(store, operations) then Some(PutAll(store, operations)) else None
  }

  function Contents<V>(store: Store<V>): map<string, V> {
    map key | key in store.cells :: store.cells[key].value
  }

  ghost predicate WellStamped<V>(store: Store<V>) {
    forall key <- store.cells :: 1 <= store.cells[key].etag <= store.clock
  }

  // ---- What one call wants -------------------------------------------------------------------

  // A call watches one key. Having read it, the call either finishes or attempts a transaction:
  // unconditional companion writes, then the watched key under the etag just read.
  datatype Verdict<V, R> =
    | Finish(result: R)
    | Attempt(companions: seq<Write<V>>, guarded: V, result: R)

  datatype Api<!Op, !V, !R> = Api(
    watch: Op -> string,
    decide: (Op, Option<V>) -> Verdict<V, R>,
    attempts: Op -> nat)

  function Unguarded<V>(writes: seq<Write<V>>): (operations: seq<Operation<V>>)
    ensures |operations| == |writes|
  {
    seq(|writes|, i requires 0 <= i < |writes| => Operation(writes[i].key, writes[i].value, None))
  }

  function Transaction<V, R>(verdict: Verdict<V, R>, watched: string, etag: nat): seq<Operation<V>>
    requires verdict.Attempt?
  {
    Unguarded(verdict.companions) + [Operation(watched, verdict.guarded, Some(etag))]
  }

  function KeysWritten<V, R>(verdict: Verdict<V, R>, watched: string): set<string> {
    if verdict.Finish? then {}
    else (set i | 0 <= i < |verdict.companions| :: verdict.companions[i].key) + {watched}
  }

  // ---- The sequential object -----------------------------------------------------------------

  function WriteAll<V>(contents: map<string, V>, writes: seq<Write<V>>): map<string, V>
    decreases |writes|
  {
    if writes == [] then contents
    else WriteAll(contents[writes[0].key := writes[0].value], writes[1..])
  }

  function Get<V>(contents: map<string, V>, key: string): Option<V> {
    if key in contents then Some(contents[key]) else None
  }

  function Verdicts<Op, V, R>(api: Api<Op, V, R>, contents: map<string, V>, op: Op): Verdict<V, R> {
    api.decide(op, Get(contents, api.watch(op)))
  }

  // The whole operation done at once on a plain dictionary.
  function Apply<Op, V, R>(api: Api<Op, V, R>, contents: map<string, V>, op: Op): (map<string, V>, R) {
    match Verdicts(api, contents, op)
    case Finish(result) => (contents, result)
    case Attempt(companions, guarded, result) =>
      (WriteAll(contents, companions)[api.watch(op) := guarded], result)
  }

  // ---- The callers ---------------------------------------------------------------------------

  // Between two awaits a call is about to read, or holds a snapshot and is about to write.
  datatype Pc<V, R> =
    | Reading(tries: nat)
    | Writing(tries: nat, seen: Option<V>, etag: nat)
    | Returned(result: R)
    | ReadFailed
    | WritesRejected

  datatype Call<Op, V, R> = Call(op: Op, begun: nat, faultFree: bool, pc: Pc<V, R>)

  // One entry for each call that took effect or gave its answer, in the order in which they did.
  datatype Entry<Op, R> = Entry(call: nat, op: Op, result: R, keys: set<string>)

  datatype World<Op, V, R> = World(
    store: Store<V>,
    calls: map<nat, Call<Op, V, R>>,
    log: seq<Entry<Op, R>>)

  datatype Move<Op> =
    | Invoke(id: nat, op: Op)
    | Read(id: nat)
    | ReadFault(id: nat)
    | TryWrite(id: nat)
    | WriteFault(id: nat)

  function EmptyWorld<Op, V, R>(): World<Op, V, R> {
    World(Store(map[], 0), map[], [])
  }

  function SetPc<Op, V, R>(world: World<Op, V, R>, id: nat, pc: Pc<V, R>): World<Op, V, R>
    requires id in world.calls
  {
    world.(calls := world.calls[id := world.calls[id].(pc := pc)])
  }

  // A rejected write is tried again from the read until the attempts are used up.
  function AfterRejection<Op, V, R>(api: Api<Op, V, R>, call: Call<Op, V, R>): Pc<V, R>
    requires call.pc.Writing?
  {
    if call.pc.tries + 1 < api.attempts(call.op) then Reading(call.pc.tries + 1) else WritesRejected
  }

  function ReadStep<Op, V, R>(api: Api<Op, V, R>, world: World<Op, V, R>, id: nat): World<Op, V, R>
    requires id in world.calls && world.calls[id].pc.Reading?
  {
    var call := world.calls[id];
    var watched := api.watch(call.op);
    match api.decide(call.op, Lookup(world.store, watched))
    case Finish(result) =>
      SetPc(world, id, Returned(result)).(log := world.log + [Entry(id, call.op, result, {})])
    case Attempt(_, _, _) =>
      SetPc(world, id, Writing(call.pc.tries, Lookup(world.store, watched), Etag(world.store, watched)))
  }

  function WriteStep<Op, V, R>(api: Api<Op, V, R>, world: World<Op, V, R>, id: nat): World<Op, V, R>
    requires id in world.calls && world.calls[id].pc.Writing?
  {
    var call := world.calls[id];
    var watched := api.watch(call.op);
    var verdict := api.decide(call.op, call.pc.seen);
    if verdict.Finish? then world
    else
      match Execute(world.store, Transaction(verdict, watched, call.pc.etag))
      case None => SetPc(world, id, AfterRejection(api, call))
      case Some(store) =>
        SetPc(world, id, Returned(verdict.result)).(
          store := store,
          log := world.log + [Entry(id, call.op, verdict.result, KeysWritten(verdict, watched))])
  }

  // One await of one call, or the start of a call. A move that does not fit the state does nothing.
  function Step<Op, V, R>(api: Api<Op, V, R>, world: World<Op, V, R>, move: Move<Op>): World<Op, V, R> {
    match move
    case Invoke(id, op) =>
      if id in world.calls then world
      else world.(calls := world.calls[id := Call(op, |world.log|, true, Reading(0))])
    case Read(id) =>
      if id in world.calls && world.calls[id].pc.Reading? then ReadStep(api, world, id) else world
    case ReadFault(id) =>
      if id in world.calls && world.calls[id].pc.Reading?
      then world.(calls := world.calls[id := world.calls[id].(pc := ReadFailed, faultFree := false)])
      else world
    case TryWrite(id) =>
      if id in world.calls && world.calls[id].pc.Writing? then WriteStep(api, world, id) else world
    case WriteFault(id) =>
      if id in world.calls && world.calls[id].pc.Writing?
      then
        var call := world.calls[id];
        world.(calls := world.calls[id := call.(pc := AfterRejection(api, call), faultFree := false)])
      else world
  }

  function Run<Op, V, R>(api: Api<Op, V, R>, world: World<Op, V, R>, moves: seq<Move<Op>>): World<Op, V, R>
    decreases |moves|
  {
    if moves == [] then world else Run(api, Step(api, world, moves[0]), moves[1..])
  }

  lemma {:induction false} RunAppend<Op, V, R>(api: Api<Op, V, R>, world: World<Op, V, R>, first: seq<Move<Op>>,
          second: seq<Move<Op>>)
    ensures Run(api, world, first + second) == Run(api, Run(api, world, first), second)
    decreases |first|
  {
    if first == [] {
      assert first + second == second;
    } else {
      assert (first + second)[0] == first[0] && (first + second)[1..] == first[1..] + second;
      RunAppend(api, Step(api, world, first[0]), first[1..], second);
    }
  }

  lemma RunTwo<Op, V, R>(api: Api<Op, V, R>, world: World<Op, V, R>, first: Move<Op>, second: Move<Op>)
    ensures Run(api, world, [first]) == Step(api, world, first)
    ensures Run(api, world, [first, second]) == Step(api, Step(api, world, first), second)
  {
    var one, two := [first], [first, second];
    assert one[1..] == [] && two[1..] == [second];
    assert Run(api, world, one) == Run(api, Step(api, world, first), []);
    assert Run(api, Step(api, world, first), [second]) == Run(api, Step(api, Step(api, world, first), second), []);
  }

  lemma RunSnoc<Op, V, R>(api: Api<Op, V, R>, world: World<Op, V, R>, moves: seq<Move<Op>>, last: Move<Op>)
    ensures Run(api, world, moves + [last]) == Step(api, Run(api, world, moves), last)
  {
    RunAppend(api, world, moves, [last]);
    RunTwo(api, Run(api, world, moves), last, last);
  }

  // ---- The sequential history ----------------------------------------------------------------

  function Replay<Op, V, R>(api: Api<Op, V, R>, log: seq<Entry<Op, R>>): map<string, V> {
    if log == [] then map[]
    else Apply(api, Replay(api, log[..|log| - 1]), log[|log| - 1].op).0
  }

  // Every entry holds the answer the sequential object gives there, and the keys it writes there.
  ghost predicate Justified<Op, V, R>(api: Api<Op, V, R>, log: seq<Entry<Op, R>>) {
    log != [] ==>
      var before := log[..|log| - 1];
      var last := log[|log| - 1];
      && Justified(api, before)
      && last.result == Apply(api, Replay(api, before), last.op).1
      && last.keys == KeysWritten(Verdicts(api, Replay(api, before), last.op), api.watch(last.op))
  }

  // How many entries from position `from` on wrote `key`.
  function Commits<Op, R>(log: seq<Entry<Op, R>>, from: nat, key: string): nat {
    if |log| <= from then 0
    else Commits(log[..|log| - 1], from, key) + if key in log[|log| - 1].keys then 1 else 0
  }

  // ---- The invariant -------------------------------------------------------------------------

  // A snapshot whose etag is still current is still the value.
  ghost predicate SnapshotHonest<Op, V, R>(api: Api<Op, V, R>, store: Store<V>, call: Call<Op, V, R>) {
    call.pc.Writing? ==>
      && call.pc.etag <= store.clock
      && (call.pc.seen.None? <==> call.pc.etag == 0)
      && api.decide(call.op, call.pc.seen).Attempt?
      && (Etag(store, api.watch(call.op)) == call.pc.etag ==> Lookup(store, api.watch(call.op)) == call.pc.seen)
  }

  // Without faults, every try used up was beaten by a commit on the watched key during the call.
  ghost predicate Pressed<Op, V, R>(api: Api<Op, V, R>, world: World<Op, V, R>, call: Call<Op, V, R>) {
    call.faultFree ==>
      var pressure := Commits(world.log, call.begun, api.watch(call.op));
      match call.pc
      case Reading(tries) => tries <= pressure
      case Writing(tries, _, etag) =>
        tries + (if Etag(world.store, api.watch(call.op)) == etag then 0 else 1) <= pressure
      case Returned(_) => true
      case ReadFailed => false
      case WritesRejected => api.attempts(call.op) <= pressure
  }

  ghost predicate CallOk<Op, V, R>(api: Api<Op, V, R>, world: World<Op, V, R>, call: Call<Op, V, R>) {
    && call.begun <= |world.log|
    && SnapshotHonest(api, world.store, call)
    && Pressed(api, world, call)
  }

  // The entry at `position` is the one entry of a returned call, made during that call.
  ghost predicate EntryOk<Op, V, R>(world: World<Op, V, R>, position: nat)
    requires position < |world.log|
  {
    var entry := world.log[position];
    && entry.call in world.calls
    && var call := world.calls[entry.call];
       call.op == entry.op && call.pc == Returned(entry.result) && call.begun <= position
  }

  ghost predicate HasEntry<Op, R>(log: seq<Entry<Op, R>>, id: nat) {
    exists i :: 0 <= i < |log| && log[i].call == id
  }

  ghost predicate Inv<Op, V, R>(api: Api<Op, V, R>, world: World<Op, V, R>) {
    && WellStamped(world.store)
    && Contents(world.store) == Replay(api, world.log)
    && Justified(api, world.log)
    && (forall id <- world.calls :: CallOk(api, world, world.calls[id]))
    && (forall i | 0 <= i < |world.log| :: EntryOk(world, i))
    && (forall i, j | 0 <= i < j < |world.log| :: world.log[i].call != world.log[j].call)
    && (forall id <- world.calls | world.calls[id].pc.Returned? :: HasEntry(world.log, id))
  }

  // ---- The store's side of one transaction ---------------------------------------------------

  // What writing a list of operations does to any one key.
  lemma {:induction false} PutAllEffect<V>(store: Store<V>, operations: seq<Operation<V>>, key: string)
    requires WellStamped(store)
    ensures var after := PutAll(store, operations);
            && WellStamped(after) && store.clock <= after.clock
            && (if exists i :: 0 <= i < |operations| && operations[i].key == key
                then store.clock < Etag(after, key)
                else Etag(after, key) == Etag(store, key) && Lookup(after, key) == Lookup(store, key))
    decreases |operations|
  {
    if operations != [] {
      var next := Put(store, operations[0].key, operations[0].value);
      PutAllEffect(next, operations[1..], key);
      if i :| 0 <= i < |operations[1..]| && operations[1..][i].key == key {
        assert operations[i + 1].key == key;
      } else if operations[0].key == key {
        assert Etag(PutAll(store, operations), key) == store.clock + 1;
      } else if i :| 0 <= i < |operations| && operations[i].key == key {
        assert operations[1..][i - 1].key == key;
      }
    }
  }

  lemma {:induction false} PutAllContents<V>(store: Store<V>, writes: seq<Write<V>>, watched: string, guarded: V,
          etag: nat)
    ensures Contents(PutAll(store, Unguarded(writes) + [Operation(watched, guarded, Some(etag))]))
         == WriteAll(Contents(store), writes)[watched := guarded]
    decreases |writes|
  {
    var last := [Operation(watched, guarded, Some(etag))];
    var operations := Unguarded(writes) + last;
    if writes == [] {
      assert operations == last;
      assert PutAll(store, last) == PutAll(Put(store, watched, guarded), last[1..]);
      assert Contents(Put(store, watched, guarded)) == Contents(store)[watched := guarded];
    } else {
      var next := Put(store, writes[0].key, writes[0].value);
      assert operations[1..] == Unguarded(writes[1..]) + last;
      assert Contents(next) == Contents(store)[writes[0].key := writes[0].value];
      PutAllContents(next, writes[1..], watched, guarded, etag);
    }
  }

  // A written key gets an etag never used before; any other key keeps its cell.
  ghost predicate KeyEffect<V>(store: Store<V>, after: Store<V>, written: set<string>, key: string) {
    if key in written then store.clock < Etag(after, key)
    else Etag(after, key) == Etag(store, key) && Lookup(after, key) == Lookup(store, key)
  }

  // The transaction of an attempt goes through exactly when the watched etag is the one read.
  lemma TransactionEffect<V, R>(store: Store<V>, verdict: Verdict<V, R>, watched: string, etag: nat)
    requires WellStamped(store) && verdict.Attempt?
    ensures var result := Execute(store, Transaction(verdict, watched, etag));
            && (result.Some? <==> Etag(store, watched) == etag)
            && (result.Some? ==>
                  && WellStamped(result.value) && store.clock <= result.value.clock
                  && Contents(result.value) == WriteAll(Contents(store), verdict.companions)[watched := verdict.guarded]
                  && forall key :: KeyEffect(store, result.value, KeysWritten(verdict, watched), key))
  {
    var operations := Transaction(verdict, watched, etag);
    var n := |verdict.companions|;
    assert operations[n] == Operation(watched, verdict.guarded, Some(etag));
    PutAllContents(store, verdict.companions, watched, verdict.guarded, etag);
    PutAllEffect(store, operations, watched);
    forall key
      ensures key in KeysWritten(verdict, watched) <==> exists i :: 0 <= i < |operations| && operations[i].key == key
    {
      if key in KeysWritten(verdict, watched) && key != watched {
        var i :| 0 <= i < n && verdict.companions[i].key == key;
        assert operations[i].key == key;
      }
      if i :| 0 <= i < |operations| && operations[i].key == key {
        assert i < n ==> verdict.companions[i].key == key;
      }
    }
    forall key
      ensures KeyEffect(store, PutAll(store, operations), KeysWritten(verdict, watched), key)
    {
      PutAllEffect(store, operations, key);
    }
  }

  // ---- Every step keeps the invariant --------------------------------------------------------

  lemma LogGrows<Op, V, R>(api: Api<Op, V, R>, log: seq<Entry<Op, R>>, entry: Entry<Op, R>)
    ensures var longer := log + [entry];
            && Replay(api, longer) == Apply(api, Replay(api, log), entry.op).0
            && (Justified(api, longer) <==>
                  && Justified(api, log)
                  && entry.result == Apply(api, Replay(api, log), entry.op).1
                  && entry.keys == KeysWritten(Verdicts(api, Replay(api, log), entry.op), api.watch(entry.op)))
            && forall from: nat, key | from <= |log| ::
                 Commits(longer, from, key) == Commits(log, from, key) + if key in entry.keys then 1 else 0
  {
    var longer := log + [entry];
    assert longer[..|longer| - 1] == log;
  }

  // A new entry, by whichever call, leaves every call in order.
  lemma CallSurvivesEntry<Op, V, R>(api: Api<Op, V, R>, world: World<Op, V, R>, after: World<Op, V, R>,
          call: Call<Op, V, R>, entry: Entry<Op, R>)
    requires CallOk(api, world, call)
    requires after.log == world.log + [entry]
    requires world.store.clock <= after.store.clock
    requires KeyEffect(world.store, after.store, entry.keys, api.watch(call.op))
    ensures CallOk(api, after, call)
  {
    LogGrows(api, world.log, entry);
  }

  // Calls that have not returned own no entry, so they may move freely.
  lemma EntriesSurvive<Op, V, R>(api: Api<Op, V, R>, world: World<Op, V, R>, after: World<Op, V, R>, id: nat)
    requires Inv(api, world)
    requires id in world.calls ==> !world.calls[id].pc.Returned?
    requires world.calls.Keys <= after.calls.Keys
    requires forall other <- world.calls | other != id :: after.calls[other] == world.calls[other]
    requires world.log <= after.log
    ensures forall i | 0 <= i < |world.log| :: EntryOk(after, i) && after.log[i].call != id
  {
    forall i | 0 <= i < |world.log| ensures EntryOk(after, i) && after.log[i].call != id {
      assert EntryOk(world, i);
    }
  }

  // A call that moves without giving its answer: nothing in the store or the log changes.
  lemma QuietMoveKeepsInv<Op, V, R>(api: Api<Op, V, R>, world: World<Op, V, R>, id: nat, call: Call<Op, V, R>)
    requires Inv(api, world)
    requires id in world.calls ==> !world.calls[id].pc.Returned?
    requires CallOk(api, world, call) && !call.pc.Returned?
    ensures Inv(api, world.(calls := world.calls[id := call]))
  {
    var after := world.(calls := world.calls[id := call]);
    EntriesSurvive(api, world, after, id);
    forall other <- after.calls ensures CallOk(api, after, after.calls[other]) {
      assert other != id ==> CallOk(api, world, world.calls[other]);
    }
  }

  // A call that gives its answer at this point of the history.
  lemma AnswerKeepsInv<Op, V, R>(api: Api<Op, V, R>, world: World<Op, V, R>, id: nat, store: Store<V>,
          entry: Entry<Op, R>)
    requires Inv(api, world)
    requires id in world.calls && !world.calls[id].pc.Returned?
    requires entry.call == id && entry.op == world.calls[id].op
    requires WellStamped(store) && world.store.clock <= store.clock
    requires Contents(store) == Apply(api, Contents(world.store), entry.op).0
    requires entry.result == Apply(api, Contents(world.store), entry.op).1
    requires entry.keys == KeysWritten(Verdicts(api, Contents(world.store), entry.op), api.watch(entry.op))
    requires forall key :: KeyEffect(world.store, store, entry.keys, key)
    ensures Inv(api, SetPc(world, id, Returned(entry.result)).(store := store, log := world.log + [entry]))
  {
    var after := SetPc(world, id, Returned(entry.result)).(store := store, log := world.log + [entry]);
    LogGrows(api, world.log, entry);
    EntriesSurvive(api, world, after, id);
    assert EntryOk(after, |world.log|);
    forall other <- after.calls ensures CallOk(api, after, after.calls[other]) {
      assert CallOk(api, world, world.calls[other]);
      assert KeyEffect(world.store, store, entry.keys, api.watch(world.calls[other].op));
      CallSurvivesEntry(api, world, after, world.calls[other], entry);
    }
    forall other <- after.calls | after.calls[other].pc.Returned? ensures HasEntry(after.log, other) {
      if other == id {
        assert after.log[|world.log|].call == id;
      } else {
        var i :| 0 <= i < |world.log| && world.log[i].call == other;
        assert after.log[i].call == other;
      }
    }
  }

  lemma {:induction false} ReadKeepsInv<Op, V, R>(api: Api<Op, V, R>, world: World<Op, V, R>, id: nat)
    requires Inv(api, world) && id in world.calls && world.calls[id].pc.Reading?
    ensures Inv(api, ReadStep(api, world, id))
  {
    var call := world.calls[id];
    var watched := api.watch(call.op);
    assert CallOk(api, world, call);
    assert Lookup(world.store, watched) == Get(Contents(world.store), watched);
    match api.decide(call.op, Lookup(world.store, watched))
    case Finish(result) =>
      AnswerKeepsInv(api, world, id, world.store, Entry(id, call.op, result, {}));
      assert SetPc(world, id, Returned(result)).(store := world.store,
          log := world.log + [Entry(id, call.op, result, {})])
          == ReadStep(api, world, id);
    case Attempt(_, _, _) =>
      QuietMoveKeepsInv(api, world, id,
                        call.(pc := Writing(call.pc.tries, Lookup(world.store, watched), Etag(world.store, watched))));
  }

  lemma RejectionKeepsInv<Op, V, R>(api: Api<Op, V, R>, world: World<Op, V, R>, id: nat, faultFree: bool)
    requires Inv(api, world) && id in world.calls && world.calls[id].pc.Writing?
    requires faultFree ==> world.calls[id].faultFree
    requires faultFree ==> Etag(world.store, api.watch(world.calls[id].op)) != world.calls[id].pc.etag
    ensures var call := world.calls[id];
            Inv(api, world.(calls := world.calls[id := call.(pc := AfterRejection(api, call), faultFree := faultFree)]))
  {
    var call := world.calls[id];
    assert CallOk(api, world, call);
    QuietMoveKeepsInv(api, world, id, call.(pc := AfterRejection(api, call), faultFree := faultFree));
  }

  lemma WriteKeepsInv<Op, V, R>(api: Api<Op, V, R>, world: World<Op, V, R>, id: nat)
    requires Inv(api, world) && id in world.calls && world.calls[id].pc.Writing?
    ensures Inv(api, WriteStep(api, world, id))
  {
    var call := world.calls[id];
    var watched := api.watch(call.op);
    assert CallOk(api, world, call);
    var verdict := api.decide(call.op, call.pc.seen);
    TransactionEffect(world.store, verdict, watched, call.pc.etag);
    match Execute(world.store, Transaction(verdict, watched, call.pc.etag))
    case Some(store) =>
      assert Lookup(world.store, watched) == Get(Contents(world.store), watched) == call.pc.seen;
      var entry := Entry(id, call.op, verdict.result, KeysWritten(verdict, watched));
      AnswerKeepsInv(api, world, id, store, entry);
    case None =>
      if call.faultFree {
        RejectionKeepsInv(api, world, id, true);
      } else {
        RejectionKeepsInv(api, world, id, false);
      }
      assert call.(pc := AfterRejection(api, call), faultFree := call.faultFree)
          == call.(pc := AfterRejection(api, call));
  }

  lemma {:induction false} StepKeepsInv<Op, V, R>(api: Api<Op, V, R>, world: World<Op, V, R>, move: Move<Op>)
    requires Inv(api, world)
    ensures Inv(api, Step(api, world, move))
  {
    match move
    case Invoke(id, op) =>
      if id !in world.calls {
        QuietMoveKeepsInv(api, world, id, Call(op, |world.log|, true, Reading(0)));
      }
    case Read(id) =>
      if id in world.calls && world.calls[id].pc.Reading? { ReadKeepsInv(api, world, id); }
    case ReadFault(id) =>
      if id in world.calls && world.calls[id].pc.Reading? {
        assert CallOk(api, world, world.calls[id]);
        QuietMoveKeepsInv(api, world, id, world.calls[id].(pc := ReadFailed, faultFree := false));
      }
    case TryWrite(id) =>
      if id in world.calls && world.calls[id].pc.Writing? { WriteKeepsInv(api, world, id); }
    case WriteFault(id) =>
      if id in world.calls && world.calls[id].pc.Writing? { RejectionKeepsInv(api, world, id, false); }
  }

  lemma {:induction false} RunKeepsInv<Op, V, R>(api: Api<Op, V, R>, world: World<Op, V, R>, moves: seq<Move<Op>>)
    requires Inv(api, world)
    ensures Inv(api, Run(api, world, moves))
    decreases |moves|
  {
    if moves != [] {
      StepKeepsInv(api, world, moves[0]);
      RunKeepsInv(api, Step(api, world, moves[0]), moves[1..]);
    }
  }

  // ---- What every interleaving guarantees ----------------------------------------------------

  // The entry at `position` is this call's only entry, made after the call began, with its answer.
  ghost predicate OnlyEntry<Op, V, R>(world: World<Op, V, R>, id: nat, position: nat)
    requires id in world.calls && position < |world.log|
  {
    var call := world.calls[id];
    && call.begun <= position
    && world.log[position].call == id
    && world.log[position].op == call.op
    && call.pc == Returned(world.log[position].result)
    && forall i | 0 <= i < |world.log| && world.log[i].call == id :: i == position
  }

  // However the awaits of any number of calls interleave, and whatever requests fail, the store
  // holds what the plain dictionary holds after the logged operations one after another; a call
  // that returned is one of them, with the answer it was given there; a call that has not
  // returned, or gave up, or was cut off, is none of them.
  lemma EveryRunLinearises<Op, V, R>(api: Api<Op, V, R>, moves: seq<Move<Op>>)
    ensures var world := Run(api, EmptyWorld(), moves);
            && Contents(world.store) == Replay(api, world.log)
            && Justified(api, world.log)
            && forall id <- world.calls ::
                 if world.calls[id].pc.Returned?
                 then exists i :: 0 <= i < |world.log| && OnlyEntry(world, id, i)
                 else !HasEntry(world.log, id)
  {
    RunKeepsInv(api, EmptyWorld(), moves);
    var world := Run(api, EmptyWorld(), moves);
    forall id <- world.calls | world.calls[id].pc.Returned?
      ensures exists i :: 0 <= i < |world.log| && OnlyEntry(world, id, i)
    {
      var i :| 0 <= i < |world.log| && world.log[i].call == id;
      assert EntryOk(world, i);
      assert OnlyEntry(world, id, i);
    }
    forall id <- world.calls | HasEntry(world.log, id) ensures world.calls[id].pc.Returned? {
      var i :| 0 <= i < |world.log| && world.log[i].call == id;
      assert EntryOk(world, i);
    }
  }

  // Answers are never taken back and the history only grows at its end.
  ghost predicate Extends<Op, V, R>(world: World<Op, V, R>, after: World<Op, V, R>) {
    && world.log <= after.log
    && world.calls.Keys <= after.calls.Keys
    && (forall id <- world.calls ::
          && after.calls[id].op == world.calls[id].op
          && after.calls[id].begun == world.calls[id].begun)
    && (forall id <- world.calls | world.calls[id].pc.Returned? :: after.calls[id] == world.calls[id])
    && (forall id <- after.calls | id !in world.calls :: |world.log| <= after.calls[id].begun)
  }

  lemma StepExtends<Op, V, R>(api: Api<Op, V, R>, world: World<Op, V, R>, move: Move<Op>)
    ensures Extends(world, Step(api, world, move))
  {
  }

  lemma {:induction false} RunExtends<Op, V, R>(api: Api<Op, V, R>, world: World<Op, V, R>, moves: seq<Move<Op>>)
    ensures Extends(world, Run(api, world, moves))
    decreases |moves|
  {
    if moves != [] {
      var next := Step(api, world, moves[0]);
      StepExtends(api, world, moves[0]);
      RunExtends(api, next, moves[1..]);
      assert Run(api, world, moves) == Run(api, next, moves[1..]);
    }
  }

  // A call that returned before another began comes before it in the history.
  lemma RealTimeOrder<Op, V, R>(api: Api<Op, V, R>, first: seq<Move<Op>>, second: seq<Move<Op>>, earlier: nat,
          later: nat)
    requires var middle := Run(api, EmptyWorld(), first);
             && earlier in middle.calls && middle.calls[earlier].pc.Returned?
             && later !in middle.calls
    ensures var end := Run(api, EmptyWorld(), first + second);
            forall i, j | 0 <= i < |end.log| && 0 <= j < |end.log| && end.log[i].call == earlier
                && end.log[j].call == later ::
              i < j
  {
    var middle := Run(api, EmptyWorld(), first);
    var end := Run(api, EmptyWorld(), first + second);
    RunAppend(api, EmptyWorld(), first, second);
    RunKeepsInv(api, EmptyWorld(), first);
    RunKeepsInv(api, EmptyWorld(), first + second);
    RunExtends(api, middle, second);
    var k :| 0 <= k < |middle.log| && middle.log[k].call == earlier;
    assert end.log[k].call == earlier;
    forall i, j | 0 <= i < |end.log| && 0 <= j < |end.log| && end.log[i].call == earlier && end.log[j].call == later
      ensures i < j
    {
      assert EntryOk(end, j);
    }
  }

  // The calls that committed to `key` from position `from` on.
  function Committers<Op, R>(log: seq<Entry<Op, R>>, from: nat, key: string): set<nat> {
    set i | from <= i < |log| && key in log[i].keys :: log[i].call
  }

  lemma CommittersSnoc<Op, R>(before: seq<Entry<Op, R>>, last: Entry<Op, R>, from: nat, key: string)
    requires from <= |before|
    ensures Committers(before + [last], from, key)
         == if key in last.keys then Committers(before, from, key) + {last.call} else Committers(before, from, key)
  {
    var log := before + [last];
    forall id ensures id in Committers(log, from, key)
                 <==> id in Committers(before, from, key) || (key in last.keys && id == last.call)
    {
      if id in Committers(before, from, key) {
        var i :| from <= i < |before| && key in before[i].keys && before[i].call == id;
        assert log[i] == before[i];
      }
      assert log[|before|] == last;
    }
  }

  lemma {:induction false} CommittersAreCommits<Op, R>(log: seq<Entry<Op, R>>, from: nat, key: string)
    requires forall i, j | 0 <= i < j < |log| :: log[i].call != log[j].call
    ensures |Committers(log, from, key)| == Commits(log, from, key)
    decreases |log|
  {
    if from < |log| {
      var before := log[..|log| - 1];
      var last := log[|log| - 1];
      CommittersAreCommits(before, from, key);
      assert last.call !in Committers(before, from, key);
      assert log == before + [last];
      CommittersSnoc(before, last, from, key);
    } else {
      assert Committers(log, from, key) == {};
    }
  }

  // A call whose writes were all refused without a transport fault lost each try to a different
  // call, each of which committed to the watched key while this one was running.
  lemma RetryBound<Op, V, R>(api: Api<Op, V, R>, moves: seq<Move<Op>>, id: nat)
    requires var world := Run(api, EmptyWorld(), moves);
             id in world.calls && world.calls[id].faultFree && world.calls[id].pc.WritesRejected?
    ensures var world := Run(api, EmptyWorld(), moves);
            var call := world.calls[id];
            var rivals := Committers(world.log, call.begun, api.watch(call.op));
            api.attempts(call.op) <= |rivals| && id !in rivals
  {
    var world := Run(api, EmptyWorld(), moves);
    var call := world.calls[id];
    RunKeepsInv(api, EmptyWorld(), moves);
    assert CallOk(api, world, call);
    CommittersAreCommits(world.log, call.begun, api.watch(call.op));
    forall i | 0 <= i < |world.log| ensures world.log[i].call != id {
      assert EntryOk(world, i);
    }
  }

  // So with no more overlapping committers than this call has attempts, itself included, no
  // fault-free call is ever refused to the end.
  lemma FewRivalsNeverExhaust<Op, V, R>(api: Api<Op, V, R>, moves: seq<Move<Op>>, id: nat, overlapping: set<nat>)
    requires var world := Run(api, EmptyWorld(), moves);
             && id in world.calls && world.calls[id].faultFree
             && id in overlapping && |overlapping| <= api.attempts(world.calls[id].op)
             && Committers(world.log, world.calls[id].begun, api.watch(world.calls[id].op)) <= overlapping
    ensures !Run(api, EmptyWorld(), moves).calls[id].pc.WritesRejected?
  {
    var world := Run(api, EmptyWorld(), moves);
    if world.calls[id].pc.WritesRejected? {
      RetryBound(api, moves, id);
      var rivals := Committers(world.log, world.calls[id].begun, api.watch(world.calls[id].op));
      SubsetSize(rivals + {id}, overlapping);
    }
  }

  lemma {:induction false} SubsetSize<T>(small: set<T>, large: set<T>)
    requires small <= large
    ensures |small| <= |large|
    decreases small
  {
    if x :| x in small {
      SubsetSize(small - {x}, large - {x});
    }
  }

  // Left alone, a call returns at its next try with the sequential answer.
  lemma {:induction false} UncontendedCallReturns<Op, V, R>(api: Api<Op, V, R>, world: World<Op, V, R>, id: nat)
    requires Inv(api, world) && id in world.calls && world.calls[id].pc.Reading?
    ensures var after := Run(api, world, [Read(id), TryWrite(id)]);
            var (contents, result) := Apply(api, Contents(world.store), world.calls[id].op);
            id in after.calls && after.calls[id].pc == Returned(result) && Contents(after.store) == contents
  {
    var call := world.calls[id];
    var watched := api.watch(call.op);
    var middle := Step(api, world, Read(id));
    var after := Step(api, middle, TryWrite(id));
    RunTwo(api, world, Read(id), TryWrite(id));
    assert Lookup(world.store, watched) == Get(Contents(world.store), watched);
    var verdict := api.decide(call.op, Lookup(world.store, watched));
    if verdict.Attempt? {
      TransactionEffect(world.store, verdict, watched, Etag(world.store, watched));
    }
  }

  // ---- The retry bound is reached ------------------------------------------------------------

  // Wherever `fit` holds of the watched value for a number of rounds, both operations attempt a write,
  // and it still holds for one round fewer of what the rival writes.
  ghost predicate Contestable<Op(!new), V(!new), R(!new)>(api: Api<Op, V, R>, op: Op, rivalOp: Op,
          fit: (nat, Option<V>) -> bool) {
    && api.watch(rivalOp) == api.watch(op)
    && forall rounds: nat, current: Option<V> | fit(rounds, current) && rounds > 0 ::
         && api.decide(op, current).Attempt? && api.decide(rivalOp, current).Attempt?
         && fit(rounds - 1, Some(api.decide(rivalOp, current).guarded))
  }

  // A call about to read, on its way without a fault; `next` and all above are unused call ids.
  ghost predicate Victim<Op, V, R>(api: Api<Op, V, R>, world: World<Op, V, R>, victim: nat, op: Op, next: nat) {
    && Inv(api, world)
    && victim in world.calls && world.calls[victim].op == op && world.calls[victim].faultFree
    && forall id <- world.calls :: id < next
  }

  // A call on its own reads and commits: the watched key gets what it decided, under a new etag.
  lemma {:induction false} ReadsAndCommits<Op, V, R>(api: Api<Op, V, R>, world: World<Op, V, R>, id: nat)
    requires Inv(api, world) && id in world.calls && world.calls[id].pc.Reading?
    requires api.decide(world.calls[id].op, Lookup(world.store, api.watch(world.calls[id].op))).Attempt?
    ensures var op := world.calls[id].op;
            var watched := api.watch(op);
            var after := Step(api, Step(api, world, Read(id)), TryWrite(id));
            && Lookup(after.store, watched) == Some(api.decide(op, Lookup(world.store, watched)).guarded)
            && world.store.clock < Etag(after.store, watched)
            && after.calls.Keys == world.calls.Keys
            && forall other <- world.calls | other != id :: after.calls[other] == world.calls[other]
  {
    var watched := api.watch(world.calls[id].op);
    var verdict := api.decide(world.calls[id].op, Lookup(world.store, watched));
    var after := Step(api, Step(api, world, Read(id)), TryWrite(id));
    TransactionEffect(world.store, verdict, watched, Etag(world.store, watched));
    assert KeyEffect(world.store, after.store, KeysWritten(verdict, watched), watched);
    assert Lookup(after.store, watched) == Get(Contents(after.store), watched);
  }

  // The victim has read; the rival begins, reads and commits; the victim finds its etag stale.
  lemma {:induction false} RivalCommits<Op, V, R>(api: Api<Op, V, R>, world: World<Op, V, R>, victim: nat, op: Op,
          rival: nat, rivalOp: Op)
    requires Victim(api, world, victim, op, rival) && world.calls[victim].pc.Writing?
    requires api.watch(rivalOp) == api.watch(op)
    requires api.decide(rivalOp, Lookup(world.store, api.watch(op))).Attempt?
    ensures var watched := api.watch(op);
            var begun := Step(api, world, Invoke(rival, rivalOp));
            var after := Step(api, Step(api, begun, Read(rival)), TryWrite(rival));
            && Victim(api, after, victim, op, rival + 1)
            && after.calls[victim] == world.calls[victim]
            && Lookup(after.store, watched) == Some(api.decide(rivalOp, Lookup(world.store, watched)).guarded)
            && Etag(after.store, watched) != after.calls[victim].pc.etag
  {
    var begun := Step(api, world, Invoke(rival, rivalOp));
    assert begun.calls.Keys == world.calls.Keys + {rival} && begun.store == world.store;
    assert CallOk(api, world, world.calls[victim]);
    StepKeepsInv(api, world, Invoke(rival, rivalOp));
    StepKeepsInv(api, begun, Read(rival));
    StepKeepsInv(api, Step(api, begun, Read(rival)), TryWrite(rival));
    ReadsAndCommits(api, begun, rival);
  }

  lemma {:induction false} VictimReads<Op, V, R>(api: Api<Op, V, R>, world: World<Op, V, R>, victim: nat, op: Op,
          next: nat)
    requires Victim(api, world, victim, op, next) && world.calls[victim].pc.Reading?
    requires api.decide(op, Lookup(world.store, api.watch(op))).Attempt?
    ensures var after := Step(api, world, Read(victim));
            && Victim(api, after, victim, op, next)
            && after.store == world.store
            && after.calls[victim].pc.Writing? && after.calls[victim].pc.tries == world.calls[victim].pc.tries
  {
    StepKeepsInv(api, world, Read(victim));
  }

  function Round<Op>(victim: nat, rival: nat, rivalOp: Op): seq<Move<Op>> {
    [Read(victim), Invoke(rival, rivalOp), Read(rival), TryWrite(rival), TryWrite(victim)]
  }

  lemma RunRound<Op, V, R>(api: Api<Op, V, R>, world: World<Op, V, R>, victim: nat, rival: nat, rivalOp: Op)
    ensures var read := Step(api, world, Read(victim));
            var committed := Step(api, Step(api, Step(api, read, Invoke(rival, rivalOp)), Read(rival)),
                TryWrite(rival));
            Run(api, world, Round(victim, rival, rivalOp)) == Step(api, committed, TryWrite(victim))
  {
    var moves := Round(victim, rival, rivalOp);
    var read := Step(api, world, Read(victim));
    var begun := Step(api, read, Invoke(rival, rivalOp));
    RunTwo(api, world, Read(victim), Invoke(rival, rivalOp));
    RunTwo(api, begun, Read(rival), TryWrite(rival));
    RunAppend(api, world, [Read(victim), Invoke(rival, rivalOp)], [Read(rival), TryWrite(rival)]);
    RunSnoc(api, world, moves[..4], TryWrite(victim));
    assert [Read(victim), Invoke(rival, rivalOp)] + [Read(rival), TryWrite(rival)] == moves[..4];
    assert moves[..4] + [TryWrite(victim)] == moves;
  }

  lemma {:induction false} VictimLoses<Op, V, R>(api: Api<Op, V, R>, world: World<Op, V, R>, victim: nat, op: Op,
          next: nat)
    requires Victim(api, world, victim, op, next) && world.calls[victim].pc.Writing?
    requires Etag(world.store, api.watch(op)) != world.calls[victim].pc.etag
    ensures var after := Step(api, world, TryWrite(victim));
            && Victim(api, after, victim, op, next)
            && after.store == world.store
            && after.calls[victim].pc == AfterRejection(api, world.calls[victim])
  {
    var call := world.calls[victim];
    StepKeepsInv(api, world, TryWrite(victim));
    assert CallOk(api, world, call);
    TransactionEffect(world.store, api.decide(op, call.pc.seen), api.watch(op), call.pc.etag);
  }

  lemma {:induction false} OneRound<Op(!new), V(!new), R(!new)>(api: Api<Op, V, R>, world: World<Op, V, R>, victim: nat,
          op: Op, next: nat, rivalOp: Op, tries: nat, rounds: nat, fit: (nat, Option<V>) -> bool)
    requires Victim(api, world, victim, op, next) && world.calls[victim].pc == Reading(tries)
    requires Contestable(api, op, rivalOp, fit) && rounds > 0 && fit(rounds, Lookup(world.store, api.watch(op)))
    ensures var after := Run(api, world, Round(victim, next, rivalOp));
            && Victim(api, after, victim, op, next + 1)
            && after.calls[victim].pc == (if tries + 1 < api.attempts(op) then Reading(tries + 1) else WritesRejected)
            && fit(rounds - 1, Lookup(after.store, api.watch(op)))
  {
    var read := Step(api, world, Read(victim));
    VictimReads(api, world, victim, op, next);
    RivalCommits(api, read, victim, op, next, rivalOp);
    var committed := Step(api, Step(api, Step(api, read, Invoke(next, rivalOp)), Read(next)), TryWrite(next));
    VictimLoses(api, committed, victim, op, next + 1);
    RunRound(api, world, victim, next, rivalOp);
  }

  // A rival a try suffices: one commit between each read and write of the same call exhausts it.
  lemma {:induction false} RivalsExhaust<Op(!new), V(!new), R(!new)>(api: Api<Op, V, R>, world: World<Op, V, R>,
          victim: nat, op: Op, next: nat, rivalOp: Op, tries: nat, fit: (nat, Option<V>) -> bool)
    returns (moves: seq<Move<Op>>)
    requires Victim(api, world, victim, op, next) && world.calls[victim].pc == Reading(tries)
    requires tries < api.attempts(op) && Contestable(api, op, rivalOp, fit)
    requires fit(api.attempts(op) - tries, Lookup(world.store, api.watch(op)))
    ensures var after := Run(api, world, moves);
            && victim in after.calls && after.calls[victim].op == op
            && after.calls[victim].faultFree && after.calls[victim].pc.WritesRejected?
            && forall id <- after.calls :: id < next + (api.attempts(op) - tries)
    ensures InvokesOnly(moves, rivalOp)
    decreases api.attempts(op) - tries
  {
    moves := Round(victim, next, rivalOp);
    OneRound(api, world, victim, op, next, rivalOp, tries, api.attempts(op) - tries, fit);
    if tries + 1 < api.attempts(op) {
      var after := Run(api, world, moves);
      var more := RivalsExhaust(api, after, victim, op, next + 1, rivalOp, tries + 1, fit);
      RunAppend(api, world, moves, more);
      moves := moves + more;
    }
  }

  // So a run from the empty store does, where both operations keep attempting from the missing key on.
  lemma RivalsExhaustFromScratch<Op(!new), V(!new), R(!new)>(api: Api<Op, V, R>, op: Op, rivalOp: Op,
          fit: (nat, Option<V>) -> bool)
    returns (moves: seq<Move<Op>>)
    requires api.attempts(op) > 0 && Contestable(api, op, rivalOp, fit) && fit(api.attempts(op), None)
    ensures var after := Run(api, EmptyWorld(), moves);
            && 0 in after.calls && after.calls[0].op == op
            && after.calls[0].faultFree && after.calls[0].pc.WritesRejected?
            && forall id <- after.calls :: id < 1 + api.attempts(op) && (id > 0 ==> after.calls[id].op == rivalOp)
  {
    var begun := Step(api, EmptyWorld(), Invoke(0, op));
    StepKeepsInv(api, EmptyWorld(), Invoke(0, op));
    assert begun.calls.Keys == {0};
    var more := RivalsExhaust(api, begun, 0, op, 1, rivalOp, 0, fit);
    OnlyInvokedBegin(api, begun, more, rivalOp);
    moves := [Invoke(0, op)] + more;
    assert moves[0] == Invoke(0, op) && moves[1..] == more;
  }

  ghost predicate InvokesOnly<Op>(moves: seq<Move<Op>>, op: Op) {
    forall i | 0 <= i < |moves| && moves[i].Invoke? :: moves[i].op == op
  }

  lemma {:induction false} OnlyInvokedBegin<Op, V, R>(api: Api<Op, V, R>, world: World<Op, V, R>, moves: seq<Move<Op>>,
          op: Op)
    requires InvokesOnly(moves, op)
    ensures var after := Run(api, world, moves);
            forall id <- after.calls :: after.calls[id].op == if id in world.calls then world.calls[id].op else op
    decreases |moves|
  {
    if moves != [] {
      OnlyInvokedBegin(api, Step(api, world, moves[0]), moves[1..], op);
    }
  }
}

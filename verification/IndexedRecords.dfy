// One record a tracking id plus an append-only index, written together with the index's etag: the
// payment and the approval repositories (services/payment/dapr_state_repository.py,
// services/approval/dapr_state_repository.py) against a plain insertion-ordered dictionary.
module IndexedRecords {
  import opened Contracts
  import opened OptimisticStore
  import opened StateClients

  const MAX_RETRIES := 5

  datatype Item<R> = IndexItem(ids: seq<string>) | RecordItem(record: R)

  datatype SaveOp<R> = SaveOp(trackingId: string, record: R)

  datatype Saved = Saved

  // `prefix` is "payment:" or "approval:".
  function RecordKey(prefix: string, trackingId: string): string { prefix + trackingId }

  function IndexKey(prefix: string): string { prefix + "index" }

  function IndexIn<R>(current: Option<Item<R>>): seq<string> {
    if current.Some? && current.value.IndexItem? then current.value.ids else []
  }

  function Append(ids: seq<string>, trackingId: string): seq<string> {
    if trackingId in ids then ids else ids + [trackingId]
  }

  function DecideSave<R>(prefix: string, op: SaveOp<R>, current: Option<Item<R>>): Verdict<Item<R>, Saved> {
    Attempt([Write(RecordKey(prefix, op.trackingId), RecordItem(op.record))],
            IndexItem(Append(IndexIn(current), op.trackingId)),
            Saved)
  }

  function SaveApi<R>(prefix: string): Api<SaveOp<R>, Item<R>, Saved> {
    Api((op: SaveOp<R>) => IndexKey(prefix),
        (op: SaveOp<R>, current: Option<Item<R>>) => DecideSave(prefix, op, current),
        (op: SaveOp<R>) => MAX_RETRIES)
  }

  type SaveLog<R> = seq<Entry<SaveOp<R>, Saved>>

  // ---- The simple specification: a dictionary that remembers insertion order --------------------

  datatype Dictionary<R> = Dictionary(order: seq<string>, records: map<string, R>)

  function SaveInMemory<R>(d: Dictionary<R>, op: SaveOp<R>): Dictionary<R> {
    Dictionary(Append(d.order, op.trackingId), d.records[op.trackingId := op.record])
  }

  function AllSaved<R>(log: SaveLog<R>): Dictionary<R> {
    if log == [] then Dictionary([], map[])
    else SaveInMemory(AllSaved(log[..|log| - 1]), log[|log| - 1].op)
  }

  ghost predicate ValidDictionary<R>(d: Dictionary<R>) {
    && (forall i, j | 0 <= i < j < |d.order| :: d.order[i] != d.order[j])
    && (forall id: string :: id in d.order <==> id in d.records)
  }

  function Values<R>(d: Dictionary<R>): seq<R>
    requires ValidDictionary(d)
  {
    seq(|d.order|, i requires 0 <= i < |d.order| => d.records[d.order[i]])
  }

  class InMemoryRepository<R> {
    var dictionary: Dictionary<R>

    constructor ()
      ensures dictionary == Dictionary([], map[])
    {
      dictionary := Dictionary([], map[]);
    }

    method Save(trackingId: string, record: R)
      modifies this
      ensures dictionary == SaveInMemory(old(dictionary), SaveOp(trackingId, record))
      ensures dictionary.records == old(dictionary).records[trackingId := record]
      ensures dictionary.order == old(dictionary).order
          + (if trackingId in old(dictionary).order then [] else [trackingId])
    {
      if trackingId !in dictionary.order {
        dictionary := dictionary.(order := dictionary.order + [trackingId]);
      }
      dictionary := dictionary.(records := dictionary.records[trackingId := record]);
    }

    method ListAll() returns (records: seq<R>)
      requires ValidDictionary(dictionary)
      ensures records == Values(dictionary)
    {
      records := [];
      for i := 0 to |dictionary.order|
        invariant records == Values(dictionary)[..i]
      {
        records := records + [dictionary.records[dictionary.order[i]]];
      }
    }
  }

  // ---- The repository over the shared store -----------------------------------------------------

  class DaprStateRepository<R(!new)> {
    const client: StateClient<SaveOp<R>, Item<R>, Saved>
    const prefix: string

    constructor (client: StateClient<SaveOp<R>, Item<R>, Saved>, prefix: string)
      ensures this.client == client && this.prefix == prefix
    {
      this.client, this.prefix := client, prefix;
    }

    method Save(id: nat, trackingId: string, record: R) returns (raised: bool, ghost moves: seq<Move<SaveOp<R>>>)
      requires client.api == SaveApi(prefix) && id !in client.world.calls
      modifies client
      ensures client.world == Run(SaveApi(prefix), old(client.world), moves)
      ensures id in client.world.calls && client.world.calls[id].op == SaveOp(trackingId, record)
      ensures var pc := client.world.calls[id].pc;
              if raised then pc.ReadFailed? || pc.WritesRejected? else pc == Returned(Saved)
      ensures NoFaults(old(client.script)) ==>
          client.world.calls[id].faultFree && !client.world.calls[id].pc.ReadFailed?
    {
      ghost var start := client.world;
      ghost var api := client.api;
      var op := SaveOp(trackingId, record);
      moves := client.Start(id, op);
      for tries := 0 to MAX_RETRIES
        invariant client.world == Run(api, start, moves)
        invariant id in client.world.calls && client.world.calls[id].op == op
        invariant client.world.calls[id].pc == if tries < MAX_RETRIES then Reading(tries) else WritesRejected
        invariant NoFaults(old(client.script)) ==> NoFaults(client.script) && client.world.calls[id].faultFree
      {
        var failed, data, etag;
        ghost var more;
        failed, data, etag, more := client.GetState(id, IndexKey(prefix));
        RunAppend(api, start, moves, more);
        moves := moves + more;
        if failed {
          return true, moves;
        }
        var index := IndexIn(data);
        if trackingId !in index {
          index := index + [trackingId];
        }
        var operations := [Operation(RecordKey(prefix, trackingId), RecordItem(record), None),
                           Operation(IndexKey(prefix), IndexItem(index), Some(etag))];
        assert operations == Transaction(DecideSave(prefix, op, data), IndexKey(prefix), etag);
        var committed;
        committed, more := client.ExecuteStateTransaction(id, operations);
        RunAppend(api, start, moves, more);
        moves := moves + more;
        if committed {
          return false, moves;
        }
      }
      return true, moves;
    }

    method ReadIndex() returns (failed: bool, index: seq<string>, ghost moves: seq<Move<SaveOp<R>>>)
      modifies client
      ensures client.world == Run(client.api, old(client.world), moves)
      ensures !failed ==> index == IndexIn(Lookup(client.world.store, IndexKey(prefix)))
      ensures NoFaults(old(client.script)) ==> !failed && NoFaults(client.script)
      ensures Undisturbed(old(client.script)) ==> client.world == old(client.world) && Undisturbed(client.script)
    {
      var data;
      failed, data, moves := client.Peek(IndexKey(prefix));
      index := IndexIn(data);
    }

    // Raises when the read fails, or what is stored there is no record.
    method GetRecord(trackingId: string)
      returns (failed: bool, item: Option<Item<R>>, ghost moves: seq<Move<SaveOp<R>>>)
      modifies client
      ensures client.world == Run(client.api, old(client.world), moves)
      ensures !failed ==> item == Lookup(client.world.store, RecordKey(prefix, trackingId))
      ensures NoFaults(old(client.script)) ==> !failed && NoFaults(client.script)
      ensures Undisturbed(old(client.script)) ==> client.world == old(client.world) && Undisturbed(client.script)
    {
      failed, item, moves := client.Peek(RecordKey(prefix, trackingId));
    }

    // The index, then each record it names, other callers saving all the while: `worlds` are the states
    // at the reads. None is the error raised when a read fails or an indexed key holds no record.
    method ListAll()
      returns (failed: bool, records: Option<seq<R>>, ghost worlds: seq<World<SaveOp<R>, Item<R>, Saved>>)
      modifies client
      ensures |worlds| > 0 && Chain(client.api, old(client.world), worlds) && client.world == worlds[|worlds| - 1]
      ensures failed ==> records.None? && !NoFaults(old(client.script))
      ensures !failed ==> Reads(prefix, worlds, records)
      ensures Undisturbed(old(client.script)) ==> Still(worlds, old(client.world))
      ensures Undisturbed(old(client.script)) && !failed ==>
                records == ListRecords(prefix, Contents(old(client.world).store))
    {
      ghost var quiet := Undisturbed(client.script);
      ghost var start := client.world;
      failed, records, worlds := ReadAll();
      if quiet && !failed {
        ListingAtRest(prefix, worlds, start, records);
      }
    }

    method ReadAll()
      returns (failed: bool, records: Option<seq<R>>, ghost worlds: seq<World<SaveOp<R>, Item<R>, Saved>>)
      modifies client
      ensures |worlds| > 0 && Chain(client.api, old(client.world), worlds) && client.world == worlds[|worlds| - 1]
      ensures failed ==> records.None? && !NoFaults(old(client.script))
      ensures !failed ==> Reads(prefix, worlds, records)
      ensures Undisturbed(old(client.script)) ==> Still(worlds, old(client.world))
    {
      var index;
      ghost var moves;
      ghost var start := client.world;
      failed, index, moves := ReadIndex();
      worlds := [client.world];
      assert Run(client.api, start, moves) == client.world;
      if failed {
        return true, None, worlds;
      }
      var result := [];
      for i := 0 to |index|
        invariant |worlds| == i + 1 && worlds[i] == client.world
        invariant Chain(client.api, start, worlds)
        invariant index == IndexIn(Lookup(worlds[0].store, IndexKey(prefix)))
        invariant Collected(prefix, worlds, index[..i]) == Some(result)
        invariant NoFaults(old(client.script)) ==> NoFaults(client.script)
        invariant Undisturbed(old(client.script)) ==>
            Undisturbed(client.script) && client.world == start && Still(worlds, start)
      {
        var item;
        failed, item, moves := GetRecord(index[i]);
        ChainSnoc(client.api, start, worlds, client.world, moves);
        CollectedSnoc(prefix, worlds, client.world, index, i);
        worlds := worlds + [client.world];
        if failed {
          return true, None, worlds;
        }
        if item.Some? {
          if item.value.IndexItem? {
            return false, None, worlds;
          }
          result := result + [item.value.record];
        }
      }
      assert index[..|index|] == index;
      return false, Some(result), worlds;
    }
  }

  // Some calls, interleaved somehow, lead from one state to the other.
  ghost predicate Reaches<R(!new)>(api: Api<SaveOp<R>, Item<R>, Saved>, before: World<SaveOp<R>, Item<R>, Saved>,
          after: World<SaveOp<R>, Item<R>, Saved>) {
    exists moves: seq<Move<SaveOp<R>>> :: Run(api, before, moves) == after
  }

  ghost predicate Chain<R(!new)>(api: Api<SaveOp<R>, Item<R>, Saved>, start: World<SaveOp<R>, Item<R>, Saved>,
          worlds: seq<World<SaveOp<R>, Item<R>, Saved>>) {
    && (worlds != [] ==> Reaches(api, start, worlds[0]))
    && forall i | 0 < i < |worlds| :: Reaches(api, worlds[i - 1], worlds[i])
  }

  ghost predicate Still<R>(worlds: seq<World<SaveOp<R>, Item<R>, Saved>>, world: World<SaveOp<R>, Item<R>, Saved>) {
    forall i | 0 <= i < |worlds| :: worlds[i] == world
  }

  // The records under these ids, each read in its own state: the first is that of the index.
  function Collected<R>(prefix: string, worlds: seq<World<SaveOp<R>, Item<R>, Saved>>, ids: seq<string>): Option<seq<R>>
    requires |ids| < |worlds|
    decreases |ids|
  {
    if ids == [] then Some([])
    else
      var before := Collected(prefix, worlds, ids[..|ids| - 1]);
      var item := Lookup(worlds[|ids|].store, RecordKey(prefix, ids[|ids| - 1]));
      if before.None? || item.None? then before
      else if item.value.IndexItem? then None
      else Some(before.value + [item.value.record])
  }

  lemma {:induction false} CollectedEarlier<R>(prefix: string, first: seq<World<SaveOp<R>, Item<R>, Saved>>,
                                               worlds: seq<World<SaveOp<R>, Item<R>, Saved>>, ids: seq<string>)
    requires |ids| < |first| && first <= worlds
    ensures Collected(prefix, worlds, ids) == Collected(prefix, first, ids)
    decreases |ids|
  {
    if ids != [] {
      CollectedEarlier(prefix, first, worlds, ids[..|ids| - 1]);
    }
  }

  lemma ChainSnoc<R(!new)>(api: Api<SaveOp<R>, Item<R>, Saved>, start: World<SaveOp<R>, Item<R>, Saved>,
                           worlds: seq<World<SaveOp<R>, Item<R>, Saved>>, next: World<SaveOp<R>, Item<R>, Saved>,
                           moves: seq<Move<SaveOp<R>>>)
    requires Chain(api, start, worlds) && worlds != [] && Run(api, worlds[|worlds| - 1], moves) == next
    ensures Chain(api, start, worlds + [next])
  {
    assert Reaches(api, worlds[|worlds| - 1], next);
  }

  lemma CollectedSnoc<R>(prefix: string, worlds: seq<World<SaveOp<R>, Item<R>, Saved>>,
          next: World<SaveOp<R>, Item<R>, Saved>,
                         index: seq<string>, i: nat)
    requires i < |index| && |worlds| == i + 1
    ensures var before := Collected(prefix, worlds, index[..i]);
            var item := Lookup(next.store, RecordKey(prefix, index[i]));
            Collected(prefix, worlds + [next], index[..i + 1])
              == if before.None? || item.None? then before
                 else if item.value.IndexItem? then None else Some(before.value + [item.value.record])
  {
    assert index[..i + 1][..i] == index[..i];
    CollectedEarlier(prefix, worlds, worlds + [next], index[..i]);
  }

  // What a listing whose reads all went through returns; it stops at the first key that is no record.
  ghost predicate Reads<R>(prefix: string, worlds: seq<World<SaveOp<R>, Item<R>, Saved>>, records: Option<seq<R>>) {
    && 0 < |worlds|
    && var index := IndexIn(Lookup(worlds[0].store, IndexKey(prefix)));
       && |worlds| <= |index| + 1
       && records == Collected(prefix, worlds, index[..|worlds| - 1])
       && (records.Some? ==> |worlds| == |index| + 1)
  }

  lemma {:induction false} ChainReached<R(!new)>(prefix: string, start: World<SaveOp<R>, Item<R>, Saved>,
                                                 worlds: seq<World<SaveOp<R>, Item<R>, Saved>>, i: nat)
    requires Inv(SaveApi(prefix), start) && Chain(SaveApi(prefix), start, worlds) && i < |worlds|
    ensures Inv(SaveApi(prefix), worlds[i]) && worlds[0].log <= worlds[i].log && start.log <= worlds[0].log
    decreases i
  {
    if i > 0 {
      ChainReached(prefix, start, worlds, i - 1);
      assert Reaches(SaveApi(prefix), worlds[i - 1], worlds[i]);
    }
    var before := if i == 0 then start else worlds[i - 1];
    var moves: seq<Move<SaveOp<R>>> :| Run(SaveApi(prefix), before, moves) == worlds[i];
    RunKeepsInv(SaveApi(prefix), before, moves);
    RunExtends(SaveApi(prefix), before, moves);
  }

  // An id that has been indexed still has its record, unless it is spelled "index".
  ghost predicate HeldIn<R>(prefix: string, world: World<SaveOp<R>, Item<R>, Saved>, id: string) {
    && id in AllSaved(world.log).records
    && Lookup(world.store, RecordKey(prefix, id))
       == Some(if id == "index" then IndexItem(AllSaved(world.log).order)
           else RecordItem(AllSaved(world.log).records[id]))
  }

  lemma ReadHeld<R(!new)>(prefix: string, start: World<SaveOp<R>, Item<R>, Saved>,
                          worlds: seq<World<SaveOp<R>, Item<R>, Saved>>, i: nat, id: string)
    requires Inv(SaveApi(prefix), start) && Chain(SaveApi(prefix), start, worlds) && i < |worlds|
    requires id in AllSaved(worlds[0].log).order
    ensures HeldIn(prefix, worlds[i], id)
  {
    ChainReached(prefix, start, worlds, i);
    var d := AllSaved(worlds[i].log);
    ReplayHolds(prefix, worlds[i].log);
    OrderGrows(worlds[0].log, worlds[i].log);
    HeldItem(prefix, Contents(worlds[i].store), d, id);
    assert Lookup(worlds[i].store, RecordKey(prefix, id)) == Get(Contents(worlds[i].store), RecordKey(prefix, id));
  }

  // Each record is the one its tracking id had when it was read.
  ghost predicate ListedInTime<R>(worlds: seq<World<SaveOp<R>, Item<R>, Saved>>, ids: seq<string>, records: seq<R>)
    requires |ids| < |worlds|
  {
    && |records| == |ids|
    && forall i | 0 <= i < |ids| ::
         ids[i] in AllSaved(worlds[i + 1].log).records && records[i] == AllSaved(worlds[i + 1].log).records[ids[i]]
  }

  lemma ListedInTimeSnoc<R>(worlds: seq<World<SaveOp<R>, Item<R>, Saved>>, before: seq<string>, last: string,
          records: seq<R>)
    requires |before| + 1 < |worlds| && ListedInTime(worlds, before, records)
    requires last in AllSaved(worlds[|before| + 1].log).records
    ensures ListedInTime(worlds, before + [last], records + [AllSaved(worlds[|before| + 1].log).records[last]])
  {
  }

  lemma {:induction false} CollectedInTime<R>(prefix: string, worlds: seq<World<SaveOp<R>, Item<R>, Saved>>,
          ids: seq<string>)
    requires |ids| < |worlds| && forall i | 0 <= i < |ids| :: HeldIn(prefix, worlds[i + 1], ids[i])
    ensures Collected(prefix, worlds, ids).None? <==> "index" in ids
    ensures "index" !in ids ==> ListedInTime(worlds, ids, Collected(prefix, worlds, ids).value)
    decreases |ids|
  {
    if ids != [] {
      var before, last := ids[..|ids| - 1], ids[|ids| - 1];
      CollectedInTime(prefix, worlds, before);
      assert ids == before + [last];
      assert HeldIn(prefix, worlds[|ids| - 1 + 1], ids[|ids| - 1]);
      if "index" !in ids {
        ListedInTimeSnoc(worlds, before, last, Collected(prefix, worlds, before).value);
      }
    }
  }

  lemma AllHeld<R(!new)>(prefix: string, start: World<SaveOp<R>, Item<R>, Saved>,
                         worlds: seq<World<SaveOp<R>, Item<R>, Saved>>, ids: seq<string>)
    requires Inv(SaveApi(prefix), start) && Chain(SaveApi(prefix), start, worlds) && |ids| < |worlds|
    requires forall id <- ids :: id in AllSaved(worlds[0].log).order
    ensures forall i | 0 <= i < |ids| :: HeldIn(prefix, worlds[i + 1], ids[i])
  {
    forall i | 0 <= i < |ids| ensures HeldIn(prefix, worlds[i + 1], ids[i]) {
      assert ids[i] in ids;
      ReadHeld(prefix, start, worlds, i + 1, ids[i]);
    }
  }

  lemma IndexRead<R(!new)>(prefix: string, start: World<SaveOp<R>, Item<R>, Saved>,
          worlds: seq<World<SaveOp<R>, Item<R>, Saved>>)
    requires Inv(SaveApi(prefix), start) && Chain(SaveApi(prefix), start, worlds) && worlds != []
    ensures ValidDictionary(AllSaved(worlds[0].log))
    ensures IndexIn(Lookup(worlds[0].store, IndexKey(prefix))) == AllSaved(worlds[0].log).order
  {
    ChainReached(prefix, start, worlds, 0);
    ReplayHolds(prefix, worlds[0].log);
    IndexIsTheOrder(prefix, Contents(worlds[0].store), AllSaved(worlds[0].log));
    assert Lookup(worlds[0].store, IndexKey(prefix)) == Get(Contents(worlds[0].store), IndexKey(prefix));
  }

  // Beside any concurrent saves, a listing whose reads all go through returns, for every tracking id
  // that had a record when the index was read, in first-save order and once, the record it had when it
  // was read in turn; or raises, if and only if it reads an id spelled "index".
  lemma {:induction false} ListingBesideWriters<R(!new)>(prefix: string, start: World<SaveOp<R>, Item<R>, Saved>,
                                      worlds: seq<World<SaveOp<R>, Item<R>, Saved>>, records: Option<seq<R>>)
    requires Inv(SaveApi(prefix), start) && Chain(SaveApi(prefix), start, worlds) && Reads(prefix, worlds, records)
    ensures var order := AllSaved(worlds[0].log).order;
            && ValidDictionary(AllSaved(worlds[0].log)) && |worlds| <= |order| + 1
            && (records.None? <==> "index" in order[..|worlds| - 1])
            && (records.Some? ==> |worlds| == |order| + 1 && ListedInTime(worlds, order, records.value))
  {
    IndexRead(prefix, start, worlds);
    ListedFromIndex(prefix, start, worlds, AllSaved(worlds[0].log).order);
    assert AllSaved(worlds[0].log).order[..|AllSaved(worlds[0].log).order|] == AllSaved(worlds[0].log).order;
  }

  lemma {:induction false} ListedFromIndex<R(!new)>(prefix: string, start: World<SaveOp<R>, Item<R>, Saved>,
          worlds: seq<World<SaveOp<R>, Item<R>, Saved>>, order: seq<string>)
    requires Inv(SaveApi(prefix), start) && Chain(SaveApi(prefix), start, worlds) && 0 < |worlds| <= |order| + 1
    requires order == AllSaved(worlds[0].log).order
    ensures var ids := order[..|worlds| - 1];
            && (Collected(prefix, worlds, ids).None? <==> "index" in ids)
            && ("index" !in ids ==> ListedInTime(worlds, ids, Collected(prefix, worlds, ids).value))
  {
    var ids := order[..|worlds| - 1];
    AllHeld(prefix, start, worlds, ids);
    CollectedInTime(prefix, worlds, ids);
  }

  // With nobody saving meanwhile, it is the listing of one state.
  lemma {:induction false} CollectedAtRest<R>(prefix: string, worlds: seq<World<SaveOp<R>, Item<R>, Saved>>,
                                              world: World<SaveOp<R>, Item<R>, Saved>, ids: seq<string>)
    requires |ids| < |worlds| && Still(worlds, world)
    ensures Collected(prefix, worlds, ids) == Listed(prefix, Contents(world.store), ids)
    decreases |ids|
  {
    if ids != [] {
      CollectedAtRest(prefix, worlds, world, ids[..|ids| - 1]);
      assert Lookup(world.store, RecordKey(prefix, ids[|ids| - 1]))
          == Get(Contents(world.store), RecordKey(prefix, ids[|ids| - 1]));
    }
  }

  lemma ListingAtRest<R>(prefix: string, worlds: seq<World<SaveOp<R>, Item<R>, Saved>>,
          world: World<SaveOp<R>, Item<R>, Saved>, records: Option<seq<R>>)
    requires Reads(prefix, worlds, records) && Still(worlds, world)
    ensures records == ListRecords(prefix, Contents(world.store))
  {
    var index := IndexIn(Get(Contents(world.store), IndexKey(prefix)));
    assert Lookup(world.store, IndexKey(prefix)) == Get(Contents(world.store), IndexKey(prefix));
    CollectedAtRest(prefix, worlds, world, index[..|worlds| - 1]);
    assert index[..|index|] == index;
    if records.None? {
      ListingFails(prefix, Contents(world.store), index[..|worlds| - 1], index);
    }
  }

  function Listed<R>(prefix: string, contents: map<string, Item<R>>, ids: seq<string>): Option<seq<R>> {
    if ids == [] then Some([])
    else
      var before := Listed(prefix, contents, ids[..|ids| - 1]);
      var item := Get(contents, RecordKey(prefix, ids[|ids| - 1]));
      if before.None? || item.None? then before
      else if item.value.IndexItem? then None
      else Some(before.value + [item.value.record])
  }

  function ListRecords<R>(prefix: string, contents: map<string, Item<R>>): Option<seq<R>> {
    Listed(prefix, contents, IndexIn(Get(contents, IndexKey(prefix))))
  }

  lemma {:induction false} ListingFails<R>(prefix: string, contents: map<string, Item<R>>, first: seq<string>,
          ids: seq<string>)
    requires first <= ids && Listed(prefix, contents, first).None?
    ensures Listed(prefix, contents, ids).None?
    decreases |ids|
  {
    if |first| < |ids| {
      ListingFails(prefix, contents, first, ids[..|ids| - 1]);
    } else {
      assert first == ids;
    }
  }

  // ---- What every interleaving of saves guarantees ----------------------------------------------

  lemma RecordKeysAreDistinct(prefix: string, a: string, b: string)
    ensures RecordKey(prefix, a) == RecordKey(prefix, b) <==> a == b
  {
    assert RecordKey(prefix, a)[|prefix|..] == a && RecordKey(prefix, b)[|prefix|..] == b;
  }

  // The store holds the dictionary: the order in the index, each record under its own key. Only a
  // tracking id spelled "index" has no room for its record.
  ghost predicate Holds<R>(prefix: string, contents: map<string, Item<R>>, d: Dictionary<R>) {
    && Get(contents, IndexKey(prefix)) == (if d.order == [] then None else Some(IndexItem(d.order)))
    && forall id: string | id != "index" ::
         Get(contents, RecordKey(prefix, id)) == if id in d.records then Some(RecordItem(d.records[id])) else None
  }

  lemma SaveHolds<R>(prefix: string, contents: map<string, Item<R>>, d: Dictionary<R>, op: SaveOp<R>)
    requires Holds(prefix, contents, d) && ValidDictionary(d)
    ensures Holds(prefix, Apply(SaveApi(prefix), contents, op).0, SaveInMemory(d, op))
    ensures ValidDictionary(SaveInMemory(d, op))
  {
    var current := Get(contents, IndexKey(prefix));
    var verdict := DecideSave(prefix, op, current);
    var after := Apply(SaveApi(prefix), contents, op).0;
    var record := verdict.companions[0];
    assert verdict.companions[1..] == [];
    assert WriteAll(contents, verdict.companions) == WriteAll(contents[record.key := record.value], []);
    assert after == contents[record.key := record.value][IndexKey(prefix) := verdict.guarded];
    forall id: string | id != "index"
      ensures Get(after, RecordKey(prefix, id))
           == if id in SaveInMemory(d, op).records then Some(RecordItem(SaveInMemory(d, op).records[id])) else None
    {
      RecordKeysAreDistinct(prefix, id, "index");
      RecordKeysAreDistinct(prefix, id, op.trackingId);
      assert Get(contents, RecordKey(prefix, id)) == if id in d.records then Some(RecordItem(d.records[id])) else None;
    }
  }

  lemma {:induction false} ReplayHolds<R>(prefix: string, log: SaveLog<R>)
    ensures ValidDictionary(AllSaved(log))
    ensures Holds(prefix, Replay(SaveApi(prefix), log), AllSaved(log))
    decreases |log|
  {
    if log != [] {
      var before := log[..|log| - 1];
      ReplayHolds(prefix, before);
      SaveHolds(prefix, Replay(SaveApi(prefix), before), AllSaved(before), log[|log| - 1].op);
    }
  }

  lemma {:induction false} OrderGrows<R>(first: SaveLog<R>, log: SaveLog<R>)
    requires first <= log
    ensures AllSaved(first).order <= AllSaved(log).order
    decreases |log|
  {
    if |first| < |log| {
      OrderGrows(first, log[..|log| - 1]);
    } else {
      assert first == log;
    }
  }

  lemma HeldItem<R>(prefix: string, contents: map<string, Item<R>>, d: Dictionary<R>, id: string)
    requires Holds(prefix, contents, d) && ValidDictionary(d) && id in d.order
    ensures Get(contents, RecordKey(prefix, id))
         == Some(if id == "index" then IndexItem(d.order) else RecordItem(d.records[id]))
  {
  }

  lemma IndexIsTheOrder<R>(prefix: string, contents: map<string, Item<R>>, d: Dictionary<R>)
    requires Holds(prefix, contents, d) && ValidDictionary(d)
    ensures IndexIn(Get(contents, IndexKey(prefix))) == d.order
    ensures forall id: string | id != "index" :: id in d.order <==> RecordKey(prefix, id) in contents
  {
    forall id: string | id != "index" ensures id in d.order <==> RecordKey(prefix, id) in contents {
      assert Get(contents, RecordKey(prefix, id)).Some? <==> id in d.records;
    }
  }

  lemma ReturnedSaveIsIndexed<R>(prefix: string, world: World<SaveOp<R>, Item<R>, Saved>, id: nat)
    requires Inv(SaveApi(prefix), world) && id in world.calls && world.calls[id].pc.Returned?
    ensures world.calls[id].op.trackingId in AllSaved(world.log).order
  {
    var i :| 0 <= i < |world.log| && world.log[i].call == id;
    assert EntryOk(world, i);
    var upTo := world.log[..i + 1];
    assert upTo[..i] == world.log[..i];
    assert world.calls[id].op.trackingId in AllSaved(upTo).order;
    OrderGrows(upTo, world.log);
  }

  // Under any interleaving of saves, with any requests failing, the store is the in-memory
  // dictionary after the saves that returned, in their commit order: the index has no repeats, and
  // holds exactly the tracking ids that have a record, those of every returned save among them.
  lemma IndexAgreesWithRecords<R>(prefix: string, moves: seq<Move<SaveOp<R>>>)
    ensures var world := Run(SaveApi(prefix), EmptyWorld(), moves);
            var index := IndexIn(Get(Contents(world.store), IndexKey(prefix)));
            && ValidDictionary(AllSaved(world.log))
            && Holds(prefix, Contents(world.store), AllSaved(world.log))
            && (forall i, j | 0 <= i < j < |index| :: index[i] != index[j])
            && (forall id: string | id != "index" :: id in index <==> RecordKey(prefix, id) in Contents(world.store))
            && (forall id <- world.calls | world.calls[id].pc.Returned? :: world.calls[id].op.trackingId in index)
  {
    var world := Run(SaveApi(prefix), EmptyWorld(), moves);
    RunKeepsInv(SaveApi(prefix), EmptyWorld(), moves);
    ReplayHolds(prefix, world.log);
    IndexIsTheOrder(prefix, Contents(world.store), AllSaved(world.log));
    forall id <- world.calls | world.calls[id].pc.Returned?
      ensures world.calls[id].op.trackingId in AllSaved(world.log).order
    {
      ReturnedSaveIsIndexed(prefix, world, id);
    }
  }

  // Every earlier index is a prefix of every later one.
  lemma IndexOnlyGrows<R>(prefix: string, first: seq<Move<SaveOp<R>>>, second: seq<Move<SaveOp<R>>>)
    ensures var middle := Run(SaveApi(prefix), EmptyWorld(), first);
            var end := Run(SaveApi(prefix), middle, second);
            IndexIn(Get(Contents(middle.store), IndexKey(prefix)))
                <= IndexIn(Get(Contents(end.store), IndexKey(prefix)))
  {
    var api := SaveApi<R>(prefix);
    var middle := Run(api, EmptyWorld(), first);
    RunKeepsInv(api, EmptyWorld(), first);
    RunKeepsInv(api, middle, second);
    RunExtends(api, middle, second);
    ReplayHolds(prefix, middle.log);
    ReplayHolds(prefix, Run(api, middle, second).log);
    OrderGrows(middle.log, Run(api, middle, second).log);
  }

  lemma {:induction false} ListedInOrder<R>(prefix: string, contents: map<string, Item<R>>, d: Dictionary<R>, n: nat)
    requires Holds(prefix, contents, d) && ValidDictionary(d) && n <= |d.order|
    ensures Listed(prefix, contents, d.order[..n])
         == if "index" in d.order[..n] then None else Some(Values(d)[..n])
    decreases n
  {
    if n != 0 {
      var ids := d.order[..n];
      assert ids[..n - 1] == d.order[..n - 1];
      ListedInOrder(prefix, contents, d, n - 1);
      var last := ids[n - 1];
      HeldItem(prefix, contents, d, last);
      assert ids == ids[..n - 1] + [last];
      ValuesSnoc(d, n);
    }
  }

  lemma ValuesSnoc<R>(d: Dictionary<R>, n: nat)
    requires ValidDictionary(d) && 0 < n <= |d.order|
    ensures Values(d)[..n] == Values(d)[..n - 1] + [d.records[d.order[n - 1]]]
  {
  }

  // With no concurrent writer, listing gives each record once, in first-save order, just as the
  // in-memory repository does: if and only if no save used the tracking id "index".
  lemma ListingMatchesMemoryIffNoIndexId<R>(prefix: string, moves: seq<Move<SaveOp<R>>>)
    ensures var world := Run(SaveApi(prefix), EmptyWorld(), moves);
            var d := AllSaved(world.log);
            && ValidDictionary(d)
            && (ListRecords(prefix, Contents(world.store)) == Some(Values(d)) <==> "index" !in d.records)
            && (ListRecords(prefix, Contents(world.store)).None? <==> "index" in d.records)
  {
    var world := Run(SaveApi<R>(prefix), EmptyWorld(), moves);
    var d := AllSaved(world.log);
    IndexAgreesWithRecords(prefix, moves);
    ListedInOrder(prefix, Contents(world.store), d, |d.order|);
    assert d.order[..|d.order|] == d.order && Values(d)[..|d.order|] == Values(d);
  }

  // ---- Retries -------------------------------------------------------------------------------------

  // A fault-free save that exceeds its retries lost to five different saves, each of which committed to
  // the index while it ran.
  lemma GivingUpNeedsFiveRivals<R>(prefix: string, moves: seq<Move<SaveOp<R>>>, id: nat)
    requires var world := Run(SaveApi(prefix), EmptyWorld(), moves);
             id in world.calls && world.calls[id].faultFree && world.calls[id].pc.WritesRejected?
    ensures var world := Run(SaveApi(prefix), EmptyWorld(), moves);
            var rivals := Committers(world.log, world.calls[id].begun, IndexKey(prefix));
            && 5 <= |rivals| && id !in rivals
            && forall rival <- rivals :: rival in world.calls && world.calls[rival].pc == Returned(Saved)
  {
    var world := Run(SaveApi<R>(prefix), EmptyWorld(), moves);
    RetryBound(SaveApi(prefix), moves, id);
    RunKeepsInv(SaveApi(prefix), EmptyWorld(), moves);
    var rivals := Committers(world.log, world.calls[id].begun, IndexKey(prefix));
    forall rival <- rivals ensures rival in world.calls && world.calls[rival].pc == Returned(Saved) {
      var i :| world.calls[id].begun <= i < |world.log| && world.log[i].call == rival;
      assert EntryOk(world, i) && world.log[i].result.Saved?;
    }
  }

  // And five suffice, whatever is saved: a run from the empty store exhausts a save.
  lemma FiveRivalsExhaustFromScratch<R(!new)>(prefix: string, op: SaveOp<R>, rivalOp: SaveOp<R>)
    returns (moves: seq<Move<SaveOp<R>>>)
    ensures var world := Run(SaveApi(prefix), EmptyWorld(), moves);
            && 0 in world.calls && world.calls[0].op == op
            && world.calls[0].faultFree && world.calls[0].pc.WritesRejected?
            && forall id <- world.calls :: id < 1 + 5 && (id > 0 ==> world.calls[id].op == rivalOp)
  {
    moves := RivalsExhaustFromScratch(SaveApi(prefix), op, rivalOp, (rounds: nat, current: Option<Item<R>>) => true);
  }
}

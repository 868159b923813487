// The store as one caller sees it: two awaited requests, and at each await other callers may run
// and the request may fail in transport with nothing committed.
module StateClients {
  import opened Contracts
  import opened OptimisticStore

  datatype Turn<Op> = Turn(others: seq<Move<Op>>, fault: bool)

  // No request of this caller fails in transport.
  predicate NoFaults<Op>(script: seq<Turn<Op>>) {
    forall i | 0 <= i < |script| :: !script[i].fault
  }

  // Nor does anyone else move.
  predicate Undisturbed<Op>(script: seq<Turn<Op>>) {
    forall i | 0 <= i < |script| :: !script[i].fault && |script[i].others| == 0
  }

  predicate Spares<Op>(moves: seq<Move<Op>>, id: nat) {
    forall i | 0 <= i < |moves| :: moves[i].id != id
  }

  function Without<Op>(moves: seq<Move<Op>>, id: nat): (spared: seq<Move<Op>>)
    ensures Spares(spared, id)
    decreases |moves|
  {
    if moves == [] then []
    else (if moves[0].id == id then [] else [moves[0]]) + Without(moves[1..], id)
  }

  lemma {:induction false} SparedCallWaits<Op, V, R>(api: Api<Op, V, R>, world: World<Op, V, R>, moves: seq<Move<Op>>,
          id: nat)
    requires Spares(moves, id) && id in world.calls
    ensures id in Run(api, world, moves).calls
    ensures Run(api, world, moves).calls[id] == world.calls[id]
    decreases |moves|
  {
    if moves != [] {
      assert moves[0].id != id;
      assert Spares(moves[1..], id);
      SparedCallWaits(api, Step(api, world, moves[0]), moves[1..], id);
    }
  }

  class StateClient<Op, V, R> {
    const api: Api<Op, V, R>
    var world: World<Op, V, R>
    var script: seq<Turn<Op>>

    constructor (api: Api<Op, V, R>, world: World<Op, V, R>, script: seq<Turn<Op>>)
      ensures this.api == api && this.world == world && this.script == script
    {
      this.api, this.world, this.script := api, world, script;
    }

    method Yield(id: nat) returns (fault: bool, ghost moves: seq<Move<Op>>)
      modifies this
      ensures Spares(moves, id)
      ensures world == Run(api, old(world), moves)
      ensures NoFaults(old(script)) ==> !fault && NoFaults(script)
    {
      fault, moves := false, [];
      if script != [] {
        var others := Without(script[0].others, id);
        world := Run(api, world, others);
        fault, moves := script[0].fault, others;
        script := script[1..];
      }
    }

    // A plain read, by a caller with no call of its own.
    method Peek(key: string) returns (failed: bool, data: Option<V>, ghost moves: seq<Move<Op>>)
      modifies this
      ensures world == Run(api, old(world), moves)
      ensures failed || data == Lookup(world.store, key)
      ensures NoFaults(old(script)) ==> !failed && NoFaults(script)
      ensures Undisturbed(old(script)) ==> world == old(world) && Undisturbed(script)
    {
      failed, moves := false, [];
      if script != [] {
        world := Run(api, world, script[0].others);
        failed, moves := script[0].fault, script[0].others;
        script := script[1..];
      }
      data := Lookup(world.store, key);
    }

    method Start(id: nat, op: Op) returns (ghost moves: seq<Move<Op>>)
      requires id !in world.calls
      modifies this
      ensures world == Run(api, old(world), moves)
      ensures id in world.calls && world.calls[id] == Call(op, |old(world).log|, true, Reading(0))
      ensures script == old(script)
    {
      world := Step(api, world, Invoke(id, op));
      moves := [Invoke(id, op)];
      RunTwo(api, old(world), Invoke(id, op), Invoke(id, op));
    }

    method GetState(id: nat, key: string)
      returns (failed: bool, data: Option<V>, etag: nat, ghost moves: seq<Move<Op>>)
      requires id in world.calls && world.calls[id].pc.Reading?
      requires key == api.watch(world.calls[id].op)
      modifies this
      ensures world == Run(api, old(world), moves) && id in world.calls
      ensures NoFaults(old(script)) ==> !failed && NoFaults(script)
      ensures failed ==> world.calls[id] == old(world).calls[id].(pc := ReadFailed, faultFree := false)
      ensures !failed ==> data == Lookup(world.store, key) && etag == Etag(world.store, key)
      ensures !failed ==>
                var call := old(world).calls[id];
                world.calls[id] ==
                  match api.decide(call.op, data)
                  case Finish(result) => call.(pc := Returned(result))
                  case Attempt(_, _, _) => call.(pc := Writing(call.pc.tries, data, etag))
    {
      failed, moves := Yield(id);
      SparedCallWaits(api, old(world), moves, id);
      data, etag := Lookup(world.store, key), Etag(world.store, key);
      var own := if failed then ReadFault(id) else Read(id);
      RunSnoc(api, old(world), moves, own);
      moves := moves + [own];
      world := Step(api, world, own);
    }

    method ExecuteStateTransaction(id: nat, operations: seq<Operation<V>>)
      returns (committed: bool, ghost moves: seq<Move<Op>>)
      requires id in world.calls && world.calls[id].pc.Writing?
      requires var call := world.calls[id];
               var verdict := api.decide(call.op, call.pc.seen);
               verdict.Attempt? && operations == Transaction(verdict, api.watch(call.op), call.pc.etag)
      modifies this
      ensures world == Run(api, old(world), moves) && id in world.calls
      ensures committed ==>
                var call := old(world).calls[id];
                world.calls[id] == call.(pc := Returned(api.decide(call.op, call.pc.seen).result))
      ensures !committed ==>
                var call := old(world).calls[id];
                && world.calls[id].op == call.op && world.calls[id].begun == call.begun
                && world.calls[id].pc == AfterRejection(api, call)
      ensures NoFaults(old(script)) ==> NoFaults(script) && world.calls[id].faultFree == old(world).calls[id].faultFree
    {
      var fault;
      fault, moves := Yield(id);
      SparedCallWaits(api, old(world), moves, id);
      var call := world.calls[id];
      var own := if fault then WriteFault(id) else TryWrite(id);
      RunSnoc(api, old(world), moves, own);
      moves := moves + [own];
      committed := false;
      if fault {
        world := world.(calls := world.calls[id := call.(pc := AfterRejection(api, call), faultFree := false)]);
      } else {
        match Execute(world.store, operations)
        case None =>
          world := SetPc(world, id, AfterRejection(api, call));
        case Some(store) =>
          var verdict := api.decide(call.op, call.pc.seen);
          var entry := Entry(id, call.op, verdict.result, KeysWritten(verdict, api.watch(call.op)));
          world := SetPc(world, id, Returned(verdict.result)).(store := store, log := world.log + [entry]);
          committed := true;
      }
    }
  }
}

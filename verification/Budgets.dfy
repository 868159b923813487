// The ETag-guarded budget repository (services/payment/dapr_state_repository.py) on the store's loop.
module Budgets {
  import opened BudgetRules
  import opened Contracts
  import opened OptimisticStore
  import opened StateClients

  const MAX_RETRIES := 5

  // ---- The same operations on the versioned store ----------------------------------------------

  function BudgetKey(department: string): string { "budget:" + department }

  function DecideBudget(op: BudgetOp, current: Option<Budget>): Verdict<Budget, BudgetResult> {
    match (op, current)
    case (Seed(department, total), None) => Attempt([], Budget(department, total, total), Done)
    case (Seed(_, _), Some(_)) => Finish(Done)
    case (Reserve(_, _), None) => Finish(BudgetNotFound)
    case (Reserve(_, amount), Some(budget)) =>
      if budget.remaining < amount then Finish(InsufficientBudget)
      else Attempt([], budget.(remaining := budget.remaining - amount), Done)
    case (Release(_, _), None) => Finish(BudgetNotFound)
    case (Release(_, amount), Some(budget)) =>
      if budget.remaining + amount > budget.total then Finish(BudgetCorruption)
      else Attempt([], budget.(remaining := budget.remaining + amount), Done)
  }

  // Seeding writes once and takes no for an answer; the other two try MAX_RETRIES times.
  function BudgetApi(): Api<BudgetOp, Budget, BudgetResult> {
    Api((op: BudgetOp) => BudgetKey(op.department),
        (op: BudgetOp, current: Option<Budget>) => DecideBudget(op, current),
        (op: BudgetOp) => if op.Seed? then 1 else MAX_RETRIES)
  }

  type BudgetWorld = World<BudgetOp, Budget, BudgetResult>
  type BudgetMoves = seq<Move<BudgetOp>>
  type BudgetLog = seq<Entry<BudgetOp, BudgetResult>>

  // ---- When a department is seeded ----------------------------------------------------------------

  // A department that some entry wrote is there, and stays.
  lemma {:induction false} CommittedKeyIsThere(log: BudgetLog, from: nat, key: string)
    requires Justified(BudgetApi(), log) && Commits(log, from, key) >= 1
    ensures key in Replay(BudgetApi(), log)
    decreases |log|
  {
    var before, last := log[..|log| - 1], log[|log| - 1];
    if key !in last.keys {
      CommittedKeyIsThere(before, from, key);
    }
  }

  lemma {:induction false} SeedEntrySeeds(log: BudgetLog, i: nat)
    requires i < |log| && log[i].op.Seed?
    ensures BudgetKey(log[i].op.department) in Replay(BudgetApi(), log)
    decreases |log|
  {
    if i < |log| - 1 {
      SeedEntrySeeds(log[..|log| - 1], i);
    }
  }

  // A seed call that is over has seeded, or found seeded, its department: always if it returned, and
  // if its write was refused, provided that no request of it failed in transport.
  lemma FinishedSeedIsSeeded(world: BudgetWorld, id: nat)
    requires Inv(BudgetApi(), world) && id in world.calls && world.calls[id].op.Seed?
    requires world.calls[id].pc.Returned? || (world.calls[id].pc.WritesRejected? && world.calls[id].faultFree)
    ensures BudgetKey(world.calls[id].op.department) in world.store.cells
  {
    var call := world.calls[id];
    var key := BudgetKey(call.op.department);
    if call.pc.Returned? {
      var i: nat :| i < |world.log| && world.log[i].call == id;
      assert EntryOk(world, i);
      SeedEntrySeeds(world.log, i);
    } else {
      assert CallOk(BudgetApi(), world, call);
      CommittedKeyIsThere(world.log, call.begun, key);
    }
    assert key in Contents(world.store);
  }

  lemma SeedRunSeeds(start: BudgetWorld, moves: BudgetMoves, id: nat)
    requires var world := Run(BudgetApi(), start, moves);
             && id in world.calls && world.calls[id].op.Seed?
             && (world.calls[id].pc.Returned? || world.calls[id].pc.WritesRejected?)
    ensures var world := Run(BudgetApi(), start, moves);
            Inv(BudgetApi(), start) && (world.calls[id].pc.Returned? || world.calls[id].faultFree) ==>
              BudgetKey(world.calls[id].op.department) in world.store.cells
  {
    if Inv(BudgetApi(), start) {
      RunKeepsInv(BudgetApi(), start, moves);
      var world := Run(BudgetApi(), start, moves);
      if world.calls[id].pc.Returned? || world.calls[id].faultFree {
        FinishedSeedIsSeeded(world, id);
      }
    }
  }

  datatype RepositoryOutcome = Answer(result: BudgetResult) | BudgetRepositoryError

  // What the caller of reserve() or release() sees when its call ends.
  ghost predicate Reports(world: BudgetWorld, id: nat, outcome: RepositoryOutcome) {
    && id in world.calls
    && match outcome
       case Answer(result) => world.calls[id].pc == Returned(result)
       case BudgetRepositoryError => world.calls[id].pc.ReadFailed? || world.calls[id].pc.WritesRejected?
  }

  class DaprStateBudgetRepository {
    const client: StateClient<BudgetOp, Budget, BudgetResult>

    constructor (client: StateClient<BudgetOp, Budget, BudgetResult>)
      ensures this.client == client
    {
      this.client := client;
    }

    // Raises only on a failed read; a refused write is taken to mean that someone else seeded.
    method EnsureSeeded(id: nat, department: string, total: real) returns (raised: bool, ghost moves: BudgetMoves)
      requires client.api == BudgetApi() && id !in client.world.calls
      modifies client
      ensures client.world == Run(BudgetApi(), old(client.world), moves)
      ensures id in client.world.calls && client.world.calls[id].op == Seed(department, total)
      ensures var pc := client.world.calls[id].pc;
              if raised then pc.ReadFailed? else pc == Returned(Done) || pc.WritesRejected?
      ensures NoFaults(old(client.script)) ==> !raised && client.world.calls[id].faultFree
      ensures NoFaults(old(client.script)) && Inv(BudgetApi(), old(client.world)) ==>
                BudgetKey(department) in client.world.store.cells
    {
      ghost var start := client.world;
      moves := client.Start(id, Seed(department, total));
      var failed, data, etag;
      ghost var more;
      failed, data, etag, more := client.GetState(id, BudgetKey(department));
      RunAppend(BudgetApi(), start, moves, more);
      moves := moves + more;
      if failed {
        return true, moves;
      }
      if data.Some? {
        SeedRunSeeds(start, moves, id);
        return false, moves;
      }
      var budget := Budget(department, total, total);
      var committed;
      committed, more := client.ExecuteStateTransaction(id, [Operation(BudgetKey(department), budget, Some(etag))]);
      RunAppend(BudgetApi(), start, moves, more);
      moves := moves + more;
      SeedRunSeeds(start, moves, id);
      return false, moves;
    }

    method ReserveAmount(id: nat, department: string, amount: real)
      returns (outcome: RepositoryOutcome, ghost moves: BudgetMoves)
      requires client.api == BudgetApi() && id !in client.world.calls
      modifies client
      ensures client.world == Run(BudgetApi(), old(client.world), moves)
      ensures Reports(client.world, id, outcome) && client.world.calls[id].op == Reserve(department, amount)
      ensures NoFaults(old(client.script)) ==>
          client.world.calls[id].faultFree && !client.world.calls[id].pc.ReadFailed?
    {
      ghost var start := client.world;
      moves := client.Start(id, Reserve(department, amount));
      for tries := 0 to MAX_RETRIES
        invariant client.world == Run(BudgetApi(), start, moves)
        invariant id in client.world.calls && client.world.calls[id].op == Reserve(department, amount)
        invariant client.world.calls[id].pc == if tries < MAX_RETRIES then Reading(tries) else WritesRejected
        invariant NoFaults(old(client.script)) ==> NoFaults(client.script) && client.world.calls[id].faultFree
      {
        var failed, data, etag;
        ghost var more;
        failed, data, etag, more := client.GetState(id, BudgetKey(department));
        RunAppend(BudgetApi(), start, moves, more);
        moves := moves + more;
        if failed {
          return BudgetRepositoryError, moves;
        }
        if data.None? {
          return Answer(BudgetNotFound), moves;
        }
        var budget := data.value;
        if budget.remaining < amount {
          return Answer(InsufficientBudget), moves;
        }
        var updated := budget.(remaining := budget.remaining - amount);
        var committed;
        committed, more := client.ExecuteStateTransaction(id, [Operation(BudgetKey(department), updated, Some(etag))]);
        RunAppend(BudgetApi(), start, moves, more);
        moves := moves + more;
        if committed {
          return Answer(Done), moves;
        }
      }
      return BudgetRepositoryError, moves;
    }

    method ReleaseAmount(id: nat, department: string, amount: real)
      returns (outcome: RepositoryOutcome, ghost moves: BudgetMoves)
      requires client.api == BudgetApi() && id !in client.world.calls
      modifies client
      ensures client.world == Run(BudgetApi(), old(client.world), moves)
      ensures Reports(client.world, id, outcome) && client.world.calls[id].op == Release(department, amount)
      ensures NoFaults(old(client.script)) ==>
          client.world.calls[id].faultFree && !client.world.calls[id].pc.ReadFailed?
    {
      ghost var start := client.world;
      moves := client.Start(id, Release(department, amount));
      for tries := 0 to MAX_RETRIES
        invariant client.world == Run(BudgetApi(), start, moves)
        invariant id in client.world.calls && client.world.calls[id].op == Release(department, amount)
        invariant client.world.calls[id].pc == if tries < MAX_RETRIES then Reading(tries) else WritesRejected
        invariant NoFaults(old(client.script)) ==> NoFaults(client.script) && client.world.calls[id].faultFree
      {
        var failed, data, etag;
        ghost var more;
        failed, data, etag, more := client.GetState(id, BudgetKey(department));
        RunAppend(BudgetApi(), start, moves, more);
        moves := moves + more;
        if failed {
          return BudgetRepositoryError, moves;
        }
        if data.None? {
          return Answer(BudgetNotFound), moves;
        }
        var budget := data.value;
        var newRemaining := budget.remaining + amount;
        if newRemaining > budget.total {
          return Answer(BudgetCorruption), moves;
        }
        var updated := budget.(remaining := newRemaining);
        var committed;
        committed, more := client.ExecuteStateTransaction(id, [Operation(BudgetKey(department), updated, Some(etag))]);
        RunAppend(BudgetApi(), start, moves, more);
        moves := moves + more;
        if committed {
          return Answer(Done), moves;
        }
      }
      return BudgetRepositoryError, moves;
    }
  }
}

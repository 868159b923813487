// What any interleaving of budget calls guarantees (INV-1014).
module BudgetGuarantees {
  import opened Contracts
  import opened OptimisticStore
  import opened StateClients
  import opened BudgetRules
  import opened Budgets

  // ---- Refinement of the in-memory repository --------------------------------------------------

  // The in-memory repository after the same operations, one after another.
  function InMemoryAfter(log: BudgetLog): map<string, Budget> {
    if log == [] then map[]
    else Perform(InMemoryAfter(log[..|log| - 1]), log[|log| - 1].op).0
  }

  // Same departments, same budgets, nothing else in the store.
  ghost predicate Mirrors(contents: map<string, Budget>, budgets: map<string, Budget>) {
    && (forall d: string :: Get(contents, BudgetKey(d)) == Get(budgets, d))
    && (forall key <- contents :: exists d: string :: key == BudgetKey(d))
  }

  lemma KeysAreDistinct(d: string, e: string)
    ensures BudgetKey(d) == BudgetKey(e) <==> d == e
  {
    assert BudgetKey(d)[7..] == d && BudgetKey(e)[7..] == e;
  }

  // Both sides replace one budget by the same one, or nothing.
  lemma OneBudgetChanges(contents: map<string, Budget>, budgets: map<string, Budget>, op: BudgetOp)
    returns (b: Option<Budget>)
    requires Get(contents, BudgetKey(op.department)) == Get(budgets, op.department)
    ensures var (contents', result) := Apply(BudgetApi(), contents, op);
            var (budgets', result') := Perform(budgets, op);
            && result == result'
            && if b.None? then contents' == contents && budgets' == budgets
               else
                 && contents' == contents[BudgetKey(op.department) := b.value]
                 && budgets' == budgets[op.department := b.value]
  {
    var budgets' := Perform(budgets, op).0;
    b := if budgets' == budgets then None else Some(budgets'[op.department]);
  }

  lemma OneBudgetMirrors(contents: map<string, Budget>, budgets: map<string, Budget>, department: string, b: Budget)
    requires Mirrors(contents, budgets)
    ensures Mirrors(contents[BudgetKey(department) := b], budgets[department := b])
  {
    var contents', budgets' := contents[BudgetKey(department) := b], budgets[department := b];
    forall d: string ensures Get(contents', BudgetKey(d)) == Get(budgets', d) {
      KeysAreDistinct(d, department);
      assert Get(contents, BudgetKey(d)) == Get(budgets, d);
    }
  }

  lemma OperationMirrors(contents: map<string, Budget>, budgets: map<string, Budget>, op: BudgetOp)
    requires Mirrors(contents, budgets)
    ensures var (contents', result) := Apply(BudgetApi(), contents, op);
            var (budgets', result') := Perform(budgets, op);
            result == result' && Mirrors(contents', budgets')
  {
    var b := OneBudgetChanges(contents, budgets, op);
    if b.Some? {
      OneBudgetMirrors(contents, budgets, op.department, b.value);
    }
  }

  lemma {:induction false} ReplayMirrors(log: BudgetLog)
    ensures Mirrors(Replay(BudgetApi(), log), InMemoryAfter(log))
    decreases |log|
  {
    if log != [] {
      var before := log[..|log| - 1];
      ReplayMirrors(before);
      OperationMirrors(Replay(BudgetApi(), before), InMemoryAfter(before), log[|log| - 1].op);
    }
  }

  lemma {:induction false} AnswersMatch(log: BudgetLog, i: nat)
    requires Justified(BudgetApi(), log) && i < |log|
    ensures log[i].result == Perform(InMemoryAfter(log[..i]), log[i].op).1
    decreases |log|
  {
    var before := log[..|log| - 1];
    if i == |log| - 1 {
      ReplayMirrors(before);
      OperationMirrors(Replay(BudgetApi(), before), InMemoryAfter(before), log[i].op);
    } else {
      AnswersMatch(before, i);
      assert before[..i] == log[..i];
    }
  }

  // Any interleaving of ensure_seeded, reserve and release, split at each await, with any requests
  // failing, matches the in-memory repository doing the logged operations one at a time: same final
  // budgets, same answers. A call with an answer is logged once, during its run; a call without one
  // (BudgetRepositoryError, a refused seed, a caller that stopped) is not logged and changed nothing.
  lemma StoreRefinesInMemoryRepository(moves: BudgetMoves)
    ensures var world := Run(BudgetApi(), EmptyWorld(), moves);
            && Mirrors(Contents(world.store), InMemoryAfter(world.log))
            && (forall i | 0 <= i < |world.log| ::
                  world.log[i].result == Perform(InMemoryAfter(world.log[..i]), world.log[i].op).1)
            && (forall id <- world.calls ::
                  if world.calls[id].pc.Returned?
                  then exists i :: 0 <= i < |world.log| && OnlyEntry(world, id, i)
                  else !HasEntry(world.log, id))
  {
    var world := Run(BudgetApi(), EmptyWorld(), moves);
    EveryRunLinearises(BudgetApi(), moves);
    ReplayMirrors(world.log);
    forall i | 0 <= i < |world.log|
      ensures world.log[i].result == Perform(InMemoryAfter(world.log[..i]), world.log[i].op).1
    {
      AnswersMatch(world.log, i);
    }
  }

  // ---- INV-1014 --------------------------------------------------------------------------------

  predicate NonNegative(op: BudgetOp) {
    match op
    case Seed(_, total) => total >= 0.0
    case Reserve(_, amount) => amount >= 0.0
    case Release(_, amount) => amount >= 0.0
  }

  predicate InBounds(budget: Budget) {
    0.0 <= budget.remaining <= budget.total
  }

  // What one entry took from (positive) or gave back to (negative) a department.
  function Taken(entry: Entry<BudgetOp, BudgetResult>, department: string): real {
    if entry.op.department != department || entry.result != Done then 0.0
    else match entry.op
         case Seed(_, _) => 0.0
         case Reserve(_, amount) => amount
         case Release(_, amount) => -amount
  }

  function NetTaken(log: BudgetLog, department: string): real {
    if log == [] then 0.0
    else NetTaken(log[..|log| - 1], department) + Taken(log[|log| - 1], department)
  }

  function FirstSeed(log: BudgetLog, department: string): Option<real> {
    if log == [] then None
    else
      var before := FirstSeed(log[..|log| - 1], department);
      var op := log[|log| - 1].op;
      if before.None? && op.Seed? && op.department == department then Some(op.total) else before
  }

  // The exact account of a department: nothing before its first seed; from then on the total is
  // that seed's, whatever is seeded later, and remaining is the total less what was taken.
  ghost predicate Account(log: BudgetLog, department: string, budget: Option<Budget>) {
    match budget
    case None => FirstSeed(log, department) == None && NetTaken(log, department) == 0.0
    case Some(b) =>
      && b.department == department
      && FirstSeed(log, department) == Some(b.total)
      && b.remaining == b.total - NetTaken(log, department)
  }

  lemma {:induction false} LogAccounts(log: BudgetLog, department: string)
    requires Justified(BudgetApi(), log)
    ensures Account(log, department, Get(InMemoryAfter(log), department))
    decreases |log|
  {
    if log != [] {
      LogAccounts(log[..|log| - 1], department);
      AnswersMatch(log, |log| - 1);
    }
  }

  lemma {:induction false} LogInBounds(log: BudgetLog, department: string)
    requires forall i | 0 <= i < |log| :: NonNegative(log[i].op)
    ensures department in InMemoryAfter(log) ==> InBounds(InMemoryAfter(log)[department])
    decreases |log|
  {
    if log != [] {
      LogInBounds(log[..|log| - 1], department);
      assert NonNegative(log[|log| - 1].op);
    }
  }

  // In every reachable state, for callers of non-negative amounts, 0 <= remaining <= total; and
  // for any amounts, remaining is the seeded total less committed reserves plus committed releases.
  lemma Inv1014(moves: BudgetMoves, department: string)
    ensures var world := Run(BudgetApi(), EmptyWorld(), moves);
            var budget := Lookup(world.store, BudgetKey(department));
            && Account(world.log, department, budget)
            && ((forall id <- world.calls :: NonNegative(world.calls[id].op)) && budget.Some? ==>
                InBounds(budget.value))
  {
    var world := Run(BudgetApi(), EmptyWorld(), moves);
    var budget := Lookup(world.store, BudgetKey(department));
    RunKeepsInv(BudgetApi(), EmptyWorld(), moves);
    ReplayMirrors(world.log);
    assert budget == Get(Contents(world.store), BudgetKey(department)) == Get(InMemoryAfter(world.log), department);
    LogAccounts(world.log, department);
    if (forall id <- world.calls :: NonNegative(world.calls[id].op)) && budget.Some? {
      forall i | 0 <= i < |world.log| ensures NonNegative(world.log[i].op) {
        assert EntryOk(world, i);
      }
      LogInBounds(world.log, department);
    }
  }

  predicate OutcomeInBounds(op: BudgetOp, current: Option<Budget>) {
    match DecideBudget(op, current)
    case Finish(_) => true
    case Attempt(_, updated, _) => InBounds(updated)
  }

  // The code never checks the sign of an amount. Non-negativity is exactly what its caller owes:
  // an operation keeps every budget in bounds if and only if its amount is not negative.
  lemma BoundsNeedNonNegativeAmounts(op: BudgetOp)
    ensures (forall current: Option<Budget> | (current.Some? ==> InBounds(current.value)) ::
               OutcomeInBounds(op, current))
       <==> NonNegative(op)
  {
    if !NonNegative(op) {
      var full := Budget(op.department, 1.0, 1.0);
      var empty := Budget(op.department, 1.0, 0.0);
      assert InBounds(full) && InBounds(empty);
      assert op.Seed? ==> !OutcomeInBounds(op, None);
      assert op.Reserve? ==> !OutcomeInBounds(op, Some(full));
      assert op.Release? ==> !OutcomeInBounds(op, Some(empty));
    }
  }

  // ---- Retries ---------------------------------------------------------------------------------

  // A fault-free reserve or release that gives up was beaten by five other calls on its department.
  lemma GivingUpNeedsFiveRivals(moves: BudgetMoves, id: nat)
    requires var world := Run(BudgetApi(), EmptyWorld(), moves);
             && id in world.calls && !world.calls[id].op.Seed?
             && world.calls[id].faultFree && world.calls[id].pc.WritesRejected?
    ensures var world := Run(BudgetApi(), EmptyWorld(), moves);
            var call := world.calls[id];
            var rivals := Committers(world.log, call.begun, BudgetKey(call.op.department));
            && 5 <= |rivals| && id !in rivals
            && forall rival <- rivals ::
                 rival in world.calls && world.calls[rival].op.department == call.op.department
                     && world.calls[rival].pc == Returned(Done)
  {
    var world := Run(BudgetApi(), EmptyWorld(), moves);
    var call := world.calls[id];
    RetryBound(BudgetApi(), moves, id);
    RunKeepsInv(BudgetApi(), EmptyWorld(), moves);
    var rivals := Committers(world.log, call.begun, BudgetKey(call.op.department));
    forall rival <- rivals
      ensures rival in world.calls && world.calls[rival].op.department == call.op.department
          && world.calls[rival].pc == Returned(Done)
    {
      var i :| call.begun <= i < |world.log| && BudgetKey(call.op.department) in world.log[i].keys
          && world.log[i].call == rival;
      assert EntryOk(world, i);
      EntryWritesItsDepartment(world.log, i);
      KeysAreDistinct(call.op.department, world.log[i].op.department);
    }
  }

  lemma {:induction false} EntryWritesItsDepartment(log: BudgetLog, i: nat)
    requires Justified(BudgetApi(), log) && i < |log| && log[i].keys != {}
    ensures log[i].keys == {BudgetKey(log[i].op.department)} && log[i].result == Done
    decreases |log|
  {
    var before := log[..|log| - 1];
    if i == |log| - 1 {
      var verdict := Verdicts(BudgetApi(), Replay(BudgetApi(), before), log[i].op);
      assert verdict.Attempt? && verdict.companions == [];
    } else {
      EntryWritesItsDepartment(before, i);
    }
  }

  lemma {:induction false} FirstSeedIsSome(log: BudgetLog, department: string)
    ensures FirstSeed(log, department).Some? <==> exists e <- log :: e.op.Seed? && e.op.department == department
    decreases |log|
  {
    if log != [] {
      var before, last := log[..|log| - 1], log[|log| - 1];
      FirstSeedIsSome(before, department);
      assert log == before + [last];
      assert (exists e <- log :: e.op.Seed? && e.op.department == department)
        <==>
          || (exists e <- before :: e.op.Seed? && e.op.department == department)
          || (last.op.Seed? && last.op.department == department);
    }
  }

  // A seed call that is over leaves its department in the store if it returned, or if its write was
  // refused and none of its requests failed in transport. In general, failures included, a department
  // is there exactly if some seed of it took effect or found it.
  lemma FinishedSeedLeavesDepartment(moves: BudgetMoves, id: nat)
    requires var world := Run(BudgetApi(), EmptyWorld(), moves);
             && id in world.calls && world.calls[id].op.Seed?
             && (world.calls[id].pc.Returned? || world.calls[id].pc.WritesRejected?)
    ensures var world := Run(BudgetApi(), EmptyWorld(), moves);
            var call := world.calls[id];
            var d := call.op.department;
            && (call.pc.Returned? || call.faultFree ==> BudgetKey(d) in world.store.cells)
            && (BudgetKey(d) in world.store.cells <==> exists e <- world.log :: e.op.Seed? && e.op.department == d)
  {
    var world := Run(BudgetApi(), EmptyWorld(), moves);
    var d := world.calls[id].op.department;
    RunKeepsInv(BudgetApi(), EmptyWorld(), moves);
    if world.calls[id].pc.Returned? || world.calls[id].faultFree {
      FinishedSeedIsSeeded(world, id);
    }
    Inv1014(moves, d);
    FirstSeedIsSome(world.log, d);
    assert Lookup(world.store, BudgetKey(d)).Some? <==> BudgetKey(d) in world.store.cells;
  }

  // The proviso is needed: a failed request is swallowed like a refused one, and then the call is over
  // with nothing seeded.
  lemma SwallowedFaultSeedsNothing(department: string, total: real)
    ensures var world := Run(BudgetApi(), EmptyWorld(), [Invoke(0, Seed(department, total)), Read(0), WriteFault(0)]);
            && 0 in world.calls && world.calls[0].pc.WritesRejected? && !world.calls[0].faultFree
            && BudgetKey(department) !in world.store.cells
  {
    var api := BudgetApi();
    var begin: BudgetMoves := [Invoke(0, Seed(department, total)), Read(0)];
    RunTwo(api, EmptyWorld(), Invoke(0, Seed(department, total)), Read(0));
    RunSnoc(api, EmptyWorld(), begin, WriteFault(0));
    assert begin + [WriteFault(0)] == [Invoke(0, Seed(department, total)), Read(0), WriteFault(0)];
  }

  // A full department, a victim reserving nothing from it and about to read, and unused call ids.
  ghost predicate Contest(department: string, total: real, world: BudgetWorld, victim: nat, rival: nat) {
    && total >= 0.0
    && Lookup(world.store, BudgetKey(department)) == Some(Budget(department, total, total))
    && Victim(BudgetApi(), world, victim, Reserve(department, 0.0), rival)
    && world.calls[victim].pc == Reading(0)
  }

  // Five rivals do suffice: one commit between each read and write of the same reserve.
  lemma FiveRivalsCanExhaust(department: string, total: real, world: BudgetWorld, victim: nat, rival: nat)
    returns (moves: BudgetMoves)
    requires Contest(department, total, world, victim, rival)
    ensures var after := Run(BudgetApi(), world, moves);
            && victim in after.calls && after.calls[victim].op == Reserve(department, 0.0)
            && after.calls[victim].faultFree && after.calls[victim].pc.WritesRejected?
            && forall id <- after.calls :: id < rival + 5
  {
    var nothing := Reserve(department, 0.0);
    var full := (rounds: nat, current: Option<Budget>) => current == Some(Budget(department, total, total));
    moves := RivalsExhaust(BudgetApi(), world, victim, nothing, rival, nothing, 0, full);
  }

  function SeedAndInvoke(department: string, total: real): BudgetMoves {
    [Invoke(0, Seed(department, total)), Read(0), TryWrite(0), Invoke(1, Reserve(department, 0.0))]
  }

  // A seed call that has read.
  lemma SeedReads(department: string, total: real)
    ensures var world := Run(BudgetApi(), EmptyWorld(), [Invoke(0, Seed(department, total)), Read(0)]);
            world == EmptyWorld().(calls := map[0 := Call(Seed(department, total), 0, true, Writing(0, None, 0))])
  {
    RunTwo(BudgetApi(), EmptyWorld(), Invoke(0, Seed(department, total)), Read(0));
    var begun := Step(BudgetApi(), EmptyWorld(), Invoke(0, Seed(department, total)));
    assert begun.calls == map[0 := Call(Seed(department, total), 0, true, Reading(0))];
  }

  // And writes, before another call begins.
  lemma SeedWrites(department: string, total: real, world: BudgetWorld)
    requires world == EmptyWorld().(calls := map[0 := Call(Seed(department, total), 0, true, Writing(0, None, 0))])
    ensures var after := Run(BudgetApi(), world, [TryWrite(0), Invoke(1, Reserve(department, 0.0))]);
            && Lookup(after.store, BudgetKey(department)) == Some(Budget(department, total, total))
            && after.calls.Keys == {0, 1}
            && after.calls[1].op == Reserve(department, 0.0) && after.calls[1].faultFree
            && after.calls[1].pc == Reading(0)
  {
    RunTwo(BudgetApi(), world, TryWrite(0), Invoke(1, Reserve(department, 0.0)));
    TransactionEffect(world.store, DecideBudget(Seed(department, total), None), BudgetKey(department), 0);
    var seeded := Step(BudgetApi(), world, TryWrite(0));
    assert Lookup(seeded.store, BudgetKey(department)) == Get(Contents(seeded.store), BudgetKey(department));
  }

  lemma ContestIsReachable(department: string, total: real)
    requires total >= 0.0
    ensures var world := Run(BudgetApi(), EmptyWorld(), SeedAndInvoke(department, total));
            Contest(department, total, world, 1, 2)
  {
    var m := SeedAndInvoke(department, total);
    SeedReads(department, total);
    SeedWrites(department, total, Run(BudgetApi(), EmptyWorld(), [m[0], m[1]]));
    RunAppend(BudgetApi(), EmptyWorld(), [m[0], m[1]], [m[2], m[3]]);
    assert [m[0], m[1]] + [m[2], m[3]] == m;
    RunKeepsInv(BudgetApi(), EmptyWorld(), m);
  }

  // So the bound is reached from an empty store: seed a department, start a reserve of nothing, and let
  // five others commit between its reads and its writes.
  lemma FiveRivalsExhaustFromScratch(department: string, total: real) returns (moves: BudgetMoves)
    requires total >= 0.0
    ensures var world := Run(BudgetApi(), EmptyWorld(), moves);
            && 1 in world.calls && world.calls[1].op == Reserve(department, 0.0)
            && world.calls[1].faultFree && world.calls[1].pc.WritesRejected?
            && forall id <- world.calls :: id < 2 + 5
  {
    var begin := SeedAndInvoke(department, total);
    ContestIsReachable(department, total);
    var world := Run(BudgetApi(), EmptyWorld(), begin);
    var more := FiveRivalsCanExhaust(department, total, world, 1, 2);
    RunAppend(BudgetApi(), EmptyWorld(), begin, more);
    RunExtends(BudgetApi(), world, more);
    moves := begin + more;
  }
}

// The last consumer of the choreography (services/notification/service.py): check the mark, send,
// write the mark. Split at each await; any handler may fail at each, or die there.
module Notification {
  import opened Contracts

  // Which of the three handlers sent it, with the text it depends on.
  datatype Notice =
    | InvoiceDeclined(decision: Decision)
    | ApproverRejected(decision: Decision)
    | PaymentReport(resolution: PaymentResolution, reason: string)

  datatype Pc = Checking(notice: Notice) | Sending(notice: Notice) | Marking(notice: Notice)

  // What concerns one tracking id. `lost` and `marks` only observe: how many handlers failed after
  // their send and before their mark, and how many marks were written.
  datatype Tally = Tally(marked: bool, sends: seq<Notice>, lost: nat, marks: nat, handlers: map<nat, Pc>)

  type Desk = map<string, Tally>

  datatype NotifyMove =
    | Arrive(trackingId: string, handler: nat, notice: Notice)
    | Work(trackingId: string, handler: nat, ok: bool)

  const EmptyTally := Tally(false, [], 0, 0, map[])

  function TallyOf(desk: Desk, id: string): Tally {
    if id in desk then desk[id] else EmptyTally
  }

  function AfterWork(t: Tally, handler: nat, ok: bool): Tally
    requires handler in t.handlers
  {
    var gone := t.(handlers := t.handlers - {handler});
    match t.handlers[handler]
    case Checking(notice) =>
      if !ok || t.marked then gone else t.(handlers := t.handlers[handler := Sending(notice)])
    case Sending(notice) =>
      if !ok then gone else t.(sends := t.sends + [notice], handlers := t.handlers[handler := Marking(notice)])
    case Marking(notice) =>
      if !ok then gone.(lost := t.lost + 1) else gone.(marked := true, marks := t.marks + 1)
  }

  function AfterMove(t: Tally, move: NotifyMove): Tally {
    match move
    case Arrive(_, handler, notice) =>
      if handler in t.handlers then t else t.(handlers := t.handlers[handler := Checking(notice)])
    case Work(_, handler, ok) => if handler in t.handlers then AfterWork(t, handler, ok) else t
  }

  function Step(desk: Desk, move: NotifyMove): Desk {
    desk[move.trackingId := AfterMove(TallyOf(desk, move.trackingId), move)]
  }

  function Run(desk: Desk, moves: seq<NotifyMove>): Desk
    decreases |moves|
  {
    if moves == [] then desk else Run(Step(desk, moves[0]), moves[1..])
  }

  // ---- The books balance, even when handlers overlap -----------------------------------------------

  function InFlight(handlers: map<nat, Pc>): set<nat> {
    set h | h in handlers && handlers[h].Marking?
  }

  predicate Balanced(t: Tally) {
    && |t.sends| == t.lost + t.marks + |InFlight(t.handlers)|
    && (t.marked <==> t.marks > 0)
  }

  lemma InFlightAfter(handlers: map<nat, Pc>, h: nat, pc: Pc)
    ensures InFlight(handlers[h := pc]) == if pc.Marking? then InFlight(handlers) + {h} else InFlight(handlers) - {h}
    ensures InFlight(handlers - {h}) == InFlight(handlers) - {h}
    ensures h in InFlight(handlers) <==> h in handlers && handlers[h].Marking?
  {
  }

  lemma MoveKeepsBalance(t: Tally, move: NotifyMove)
    requires Balanced(t)
    ensures Balanced(AfterMove(t, move))
  {
    var h := move.handler;
    if move.Arrive? {
      InFlightAfter(t.handlers, h, Checking(move.notice));
    } else if h in t.handlers {
      InFlightAfter(t.handlers, h, Sending(t.handlers[h].notice));
      InFlightAfter(t.handlers, h, Marking(t.handlers[h].notice));
    }
  }

  // However handlers overlap, fail or die: every successful send is accounted for by a lost mark, a
  // written mark, or a handler about to write one. So whoever is marked was notified.
  lemma {:induction false} SendsAreAccounted(desk: Desk, moves: seq<NotifyMove>, id: string)
    requires Balanced(TallyOf(desk, id))
    ensures var t := TallyOf(Run(desk, moves), id);
            && |t.sends| == t.lost + t.marks + |InFlight(t.handlers)|
            && (t.marked <==> t.marks > 0)
            && (t.marked ==> t.sends != [])
    decreases |moves|
  {
    if moves != [] {
      MoveKeepsBalance(TallyOf(desk, id), moves[0]);
      SendsAreAccounted(Step(desk, moves[0]), moves[1..], id);
    }
  }

  // ---- One handler at a time -----------------------------------------------------------------------

  // No event of this tracking id is delivered while a handler of it is running (accepted race).
  predicate NeverOverlaps(desk: Desk, moves: seq<NotifyMove>, id: string)
    decreases |moves|
  {
    moves == []
    || (&& (moves[0].Arrive? && moves[0].trackingId == id ==> TallyOf(desk, id).handlers == map[])
        && NeverOverlaps(Step(desk, moves[0]), moves[1..], id))
  }

  predicate Lone(t: Tally) {
    && (forall a, b | a in t.handlers && b in t.handlers :: a == b)
    && (forall h <- t.handlers | !t.handlers[h].Checking? :: !t.marked)
    && t.marks <= 1
  }

  lemma MoveKeepsLone(t: Tally, move: NotifyMove)
    requires Lone(t) && Balanced(t)
    requires move.Arrive? ==> t.handlers == map[]
    ensures Lone(AfterMove(t, move)) && Balanced(AfterMove(t, move))
    ensures t.marked && t.handlers == map[] ==> AfterMove(t, move).sends == t.sends
  {
    MoveKeepsBalance(t, move);
    var after := AfterMove(t, move);
    assert forall h <- after.handlers :: h in t.handlers || h == move.handler;
  }

  lemma {:induction false} LoneRun(desk: Desk, moves: seq<NotifyMove>, id: string)
    requires Lone(TallyOf(desk, id)) && Balanced(TallyOf(desk, id)) && NeverOverlaps(desk, moves, id)
    ensures Lone(TallyOf(Run(desk, moves), id)) && Balanced(TallyOf(Run(desk, moves), id))
    decreases |moves|
  {
    if moves != [] {
      if moves[0].trackingId == id {
        MoveKeepsLone(TallyOf(desk, id), moves[0]);
      }
      LoneRun(Step(desk, moves[0]), moves[1..], id);
    }
  }

  // Between handlers, the number of successful sends is the number of handlers lost between their
  // send and their mark, plus one if marked.
  lemma SendsBetweenHandlers(moves: seq<NotifyMove>, id: string)
    requires NeverOverlaps(map[], moves, id)
    requires TallyOf(Run(map[], moves), id).handlers == map[]
    ensures var t := TallyOf(Run(map[], moves), id);
            |t.sends| == t.lost + if t.marked then 1 else 0
  {
    LoneRun(map[], moves, id);
    assert InFlight(map[]) == {};
  }

  predicate OnlyChecks(t: Tally) {
    forall h <- t.handlers :: t.handlers[h].Checking?
  }

  // Once marked and idle, nothing is ever sent for that tracking id again.
  lemma {:induction false} MarkedIsFinal(desk: Desk, moves: seq<NotifyMove>, id: string)
    requires TallyOf(desk, id).marked && OnlyChecks(TallyOf(desk, id))
    ensures var t := TallyOf(Run(desk, moves), id);
            t.marked && OnlyChecks(t) && t.sends == TallyOf(desk, id).sends && t.lost == TallyOf(desk, id).lost
    decreases |moves|
  {
    if moves != [] {
      MarkedIsFinal(Step(desk, moves[0]), moves[1..], id);
    }
  }

  // ---- The service ---------------------------------------------------------------------------------

  // During one await: moves of other tracking ids, and whether the awaited call goes through.
  datatype Turn = Turn(others: seq<NotifyMove>, ok: bool)

  function Without(moves: seq<NotifyMove>, id: string): (spared: seq<NotifyMove>)
    ensures forall i | 0 <= i < |spared| :: spared[i].trackingId != id
    decreases |moves|
  {
    if moves == [] then []
    else (if moves[0].trackingId == id then [] else [moves[0]]) + Without(moves[1..], id)
  }

  lemma {:induction false} OthersSpare(desk: Desk, moves: seq<NotifyMove>, id: string)
    requires forall i | 0 <= i < |moves| :: moves[i].trackingId != id
    ensures TallyOf(Run(desk, moves), id) == TallyOf(desk, id)
    decreases |moves|
  {
    if moves != [] {
      OthersSpare(Step(desk, moves[0]), moves[1..], id);
    }
  }

  lemma {:induction false} RunAppend(desk: Desk, first: seq<NotifyMove>, second: seq<NotifyMove>)
    ensures Run(desk, first + second) == Run(Run(desk, first), second)
    decreases |first|
  {
    if first == [] {
      assert first + second == second;
    } else {
      assert (first + second)[0] == first[0] && (first + second)[1..] == first[1..] + second;
      RunAppend(Step(desk, first[0]), first[1..], second);
    }
  }

  lemma RunSnoc(desk: Desk, moves: seq<NotifyMove>, last: NotifyMove)
    ensures Run(desk, moves + [last]) == Step(Run(desk, moves), last)
  {
    RunAppend(desk, moves, [last]);
    assert Run(Run(desk, moves), [last]) == Run(Step(Run(desk, moves), last), []);
  }

  function Race(id: string, notice: Notice): seq<NotifyMove> {
    [Arrive(id, 0, notice), Arrive(id, 1, notice), Work(id, 0, true), Work(id, 1, true), Work(id, 0, true),
        Work(id, 1, true)]
  }

  lemma RaceStep(id: string, notice: Notice, k: nat)
    requires k < 6
    ensures var m := Race(id, notice);
            TallyOf(Run(map[], m[..k + 1]), id) == AfterMove(TallyOf(Run(map[], m[..k]), id), m[k])
  {
    var m := Race(id, notice);
    RunSnoc(map[], m[..k], m[k]);
    assert m[..k + 1] == m[..k] + [m[k]];
  }

  lemma RaceTallies(id: string, notice: Notice)
    ensures var m := Race(id, notice);
            var half := EmptyTally.(handlers := map[0 := Sending(notice), 1 := Sending(notice)]);
            && AfterMove(AfterMove(AfterMove(AfterMove(EmptyTally, m[0]), m[1]), m[2]), m[3]) == half
            && AfterMove(AfterMove(half, m[4]), m[5]).sends == [notice, notice]
            && AfterMove(AfterMove(half, m[4]), m[5]).lost == 0
  {
    var m := Race(id, notice);
    var c, w := Checking(notice), Sending(notice);
    assert AfterMove(AfterMove(EmptyTally, m[0]), m[1]) == EmptyTally.(handlers := map[0 := c, 1 := c]);
    assert AfterMove(EmptyTally.(handlers := map[0 := c, 1 := c]), m[2])
        == EmptyTally.(handlers := map[0 := w, 1 := c]);
  }

  // The accepted race: two overlapping deliveries both send, with no failure anywhere.
  lemma OverlapSendsTwice(id: string, notice: Notice)
    ensures var t := TallyOf(Run(map[], Race(id, notice)), id);
            t.sends == [notice, notice] && t.lost == 0
  {
    RaceStep(id, notice, 0);
    RaceStep(id, notice, 1);
    RaceStep(id, notice, 2);
    RaceStep(id, notice, 3);
    RaceStep(id, notice, 4);
    RaceStep(id, notice, 5);
    RaceTallies(id, notice);
    assert Race(id, notice)[..6] == Race(id, notice);
  }

  // The events that lead to a notice; every other one is ignored.
  predicate DecisionNotifies(event: DecisionCompletedEvent): (notifies: bool)
    ensures !notifies <==> event.decision.route in {AutoApprove, HumanReview}
  {
    event.decision.route.Reject? || event.decision.route.Duplicate?
  }

  predicate ApprovalNotifies(event: ApprovalCompletedEvent): (notifies: bool)
    ensures !notifies <==> event.resolution == ApprovalApproved
  {
    event.resolution.ApprovalRejected?
  }

  class NotificationService {
    var desk: Desk
    var script: seq<Turn>

    constructor (desk: Desk, script: seq<Turn>)
      ensures this.desk == desk && this.script == script
    {
      this.desk, this.script := desk, script;
    }

    // Every await of this service goes through.
    predicate Healthy()
      reads this
    {
      forall turn <- script :: turn.ok
    }

    method Await(id: string) returns (ok: bool, ghost moves: seq<NotifyMove>)
      requires 0 in TallyOf(desk, id).handlers
      modifies this
      ensures desk == Run(old(desk), moves)
      ensures TallyOf(desk, id) == AfterWork(TallyOf(old(desk), id), 0, ok)
      ensures old(Healthy()) ==> ok && Healthy()
    {
      ok, moves := true, [];
      if script != [] {
        var others := Without(script[0].others, id);
        OthersSpare(desk, others, id);
        desk := Run(desk, others);
        ok, moves := script[0].ok, others;
        script := script[1..];
      }
      RunSnoc(old(desk), moves, Work(id, 0, ok));
      moves := moves + [Work(id, 0, ok)];
      desk := Step(desk, Work(id, 0, ok));
    }

    // repository.already_notified
    method AlreadyNotified(id: string, notice: Notice) returns (ok: bool, marked: bool, ghost moves: seq<NotifyMove>)
      requires TallyOf(desk, id).handlers == map[0 := Checking(notice)]
      modifies this
      ensures desk == Run(old(desk), moves) && marked == TallyOf(old(desk), id).marked
      ensures TallyOf(desk, id) == TallyOf(old(desk), id).(handlers :=
                if ok && !marked then map[0 := Sending(notice)] else map[])
      ensures old(Healthy()) ==> ok && Healthy()
    {
      marked := TallyOf(desk, id).marked;
      assert map[0 := Checking(notice)] - {0} == map[];
      assert map[0 := Checking(notice)][0 := Sending(notice)] == map[0 := Sending(notice)];
      ok, moves := Await(id);
    }

    // channel.send
    method Send(id: string, notice: Notice) returns (ok: bool, ghost moves: seq<NotifyMove>)
      requires TallyOf(desk, id).handlers == map[0 := Sending(notice)]
      modifies this
      ensures desk == Run(old(desk), moves)
      ensures var t := TallyOf(old(desk), id);
              TallyOf(desk, id) == if ok then t.(sends := t.sends + [notice], handlers := map[0 := Marking(notice)])
                                   else t.(handlers := map[])
      ensures old(Healthy()) ==> ok && Healthy()
    {
      assert map[0 := Sending(notice)] - {0} == map[];
      assert map[0 := Sending(notice)][0 := Marking(notice)] == map[0 := Marking(notice)];
      ok, moves := Await(id);
    }

    // repository.mark_notified
    method MarkNotified(id: string, ghost notice: Notice) returns (ok: bool, ghost moves: seq<NotifyMove>)
      requires TallyOf(desk, id).handlers == map[0 := Marking(notice)]
      modifies this
      ensures desk == Run(old(desk), moves)
      ensures var t := TallyOf(old(desk), id).(handlers := map[]);
              TallyOf(desk, id) == if ok then t.(marked := true, marks := t.marks + 1) else t.(lost := t.lost + 1)
      ensures old(Healthy()) ==> ok && Healthy()
    {
      assert map[0 := Marking(notice)] - {0} == map[];
      ok, moves := Await(id);
    }

    // A handler starts on its event.
    method Begin(id: string, notice: Notice) returns (ghost moves: seq<NotifyMove>)
      requires TallyOf(desk, id).handlers == map[]
      modifies this`desk
      ensures moves == [Arrive(id, 0, notice)] && desk == Run(old(desk), moves)
      ensures TallyOf(desk, id) == TallyOf(old(desk), id).(handlers := map[0 := Checking(notice)])
    {
      moves := [Arrive(id, 0, notice)];
      var none: seq<NotifyMove> := [];
      RunSnoc(desk, none, moves[0]);
      assert none + [moves[0]] == moves;
      desk := Step(desk, Arrive(id, 0, notice));
    }

    // Skips when marked; otherwise sends before it marks, and raises at the first failure.
    method Notify(id: string, notice: Notice) returns (raised: bool, ghost moves: seq<NotifyMove>)
      requires TallyOf(desk, id).handlers == map[]
      modifies this
      ensures moves != [] && moves[0] == Arrive(id, 0, notice) && desk == Run(old(desk), moves)
      ensures TallyOf(desk, id).handlers == map[]
      ensures old(TallyOf(desk, id).marked) ==> TallyOf(desk, id) == TallyOf(old(desk), id)
      ensures !old(TallyOf(desk, id).marked) && !raised ==>
                TallyOf(desk, id).marked && TallyOf(desk, id).sends == TallyOf(old(desk), id).sends + [notice]
                && TallyOf(desk, id).lost == TallyOf(old(desk), id).lost
      ensures !old(TallyOf(desk, id).marked) && raised ==>
                !TallyOf(desk, id).marked
                && |TallyOf(desk, id).sends| - TallyOf(desk, id).lost
                   == |TallyOf(old(desk), id).sends| - TallyOf(old(desk), id).lost
      ensures old(Healthy()) ==> !raised
    {
      ghost var start, more := desk, [];
      var ok, alreadyNotified;
      moves := Begin(id, notice);
      ok, alreadyNotified, more := AlreadyNotified(id, notice);
      RunAppend(start, moves, more);
      moves := moves + more;
      if !ok || alreadyNotified { return !ok, moves; }
      ok, more := Send(id, notice);
      RunAppend(start, moves, more);
      moves := moves + more;
      if !ok { return true, moves; }
      ok, more := MarkNotified(id, notice);
      RunAppend(start, moves, more);
      moves := moves + more;
      return !ok, moves;
    }

    method HandleDecisionCompleted(event: DecisionCompletedEvent) returns (raised: bool, ghost moves: seq<NotifyMove>)
      requires TallyOf(desk, event.decision.correlationId).handlers == map[]
      modifies this
      ensures desk == Run(old(desk), moves)
      ensures event.decision.route in {AutoApprove, HumanReview} ==> !raised && moves == [] && desk == old(desk)
      ensures old(Healthy()) ==> !raised
      ensures event.decision.route in {Reject, Duplicate} ==>
                moves != [] && moves[0] == Arrive(event.decision.correlationId, 0, InvoiceDeclined(event.decision))
      ensures event.decision.route in {Reject, Duplicate} && !raised ==>
                var before, after := TallyOf(old(desk), event.decision.correlationId),
                    TallyOf(desk, event.decision.correlationId);
                && after.marked
                && after.sends == before.sends + (if before.marked then [] else [InvoiceDeclined(event.decision)])
    {
      if event.decision.route !in {Reject, Duplicate} {
        return false, [];
      }
      raised, moves := Notify(event.decision.correlationId, InvoiceDeclined(event.decision));
    }

    method HandleApprovalCompleted(event: ApprovalCompletedEvent) returns (raised: bool, ghost moves: seq<NotifyMove>)
      requires TallyOf(desk, event.decision.correlationId).handlers == map[]
      modifies this
      ensures desk == Run(old(desk), moves)
      ensures event.resolution == ApprovalApproved ==> !raised && moves == [] && desk == old(desk)
      ensures old(Healthy()) ==> !raised
      ensures event.resolution == ApprovalRejected ==>
                moves != [] && moves[0] == Arrive(event.decision.correlationId, 0, ApproverRejected(event.decision))
      ensures event.resolution == ApprovalRejected && !raised ==>
                var before, after := TallyOf(old(desk), event.decision.correlationId),
                    TallyOf(desk, event.decision.correlationId);
                && after.marked
                && after.sends == before.sends + (if before.marked then [] else [ApproverRejected(event.decision)])
    {
      if event.resolution != ApprovalRejected {
        return false, [];
      }
      raised, moves := Notify(event.decision.correlationId, ApproverRejected(event.decision));
    }

    method HandlePaymentCompleted(event: PaymentCompletedEvent) returns (raised: bool, ghost moves: seq<NotifyMove>)
      requires TallyOf(desk, event.decision.correlationId).handlers == map[]
      modifies this
      ensures desk == Run(old(desk), moves)
      ensures moves != [] && moves[0] == Arrive(event.decision.correlationId, 0,
          PaymentReport(event.resolution, event.reason))
      ensures old(Healthy()) ==> !raised
      ensures !raised ==>
                var before, after := TallyOf(old(desk), event.decision.correlationId),
                    TallyOf(desk, event.decision.correlationId);
                && after.marked
                && after.sends == before.sends
                    + (if before.marked then [] else [PaymentReport(event.resolution, event.reason)])
    {
      raised, moves := Notify(event.decision.correlationId, PaymentReport(event.resolution, event.reason));
    }
  }
}

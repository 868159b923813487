// Notification behind the rest of the system: its handlers start on what has been sent, at any time and
// any number of times (services/notification/service.py:82-124).
module NotificationRuns {
  import opened Contracts
  import opened Router
  import opened Choreography
  import opened NotificationTriggers
  import opened Notification
  import Saga = PaymentSaga

  datatype Whole = Whole(system: System, desk: Desk)

  datatype WholeMove = Elsewhere(move: Move) | AtDesk(notifyMove: NotifyMove)

  const EmptyWhole := Whole(EmptySystem, map[])

  // An event that leads to this notice has been sent for this tracking id.
  predicate Due(s: System, id: string, notice: Notice) {
    match notice
    case InvoiceDeclined(decision) =>
      exists e <- s.decided :: e.decision == decision && e.decision.correlationId == id && DecisionNotifies(e)
    case ApproverRejected(decision) =>
      exists e <- s.resolved :: e.decision == decision && e.decision.correlationId == id && ApprovalNotifies(e)
    case PaymentReport(resolution, reason) =>
      exists e <- Saga.SlotOf(s.saga, id).published :: e.resolution == resolution && e.reason == reason
  }

  function WholeStep(w: Whole, move: WholeMove, thresholds: AutonomyThresholds): Whole {
    match move
    case Elsewhere(m) => w.(system := Choreography.Step(w.system, m, thresholds))
    case AtDesk(m) =>
      if m.Arrive? && !Due(w.system, m.trackingId, m.notice) then w else w.(desk := Notification.Step(w.desk, m))
  }

  function WholeRun(w: Whole, moves: seq<WholeMove>, thresholds: AutonomyThresholds): Whole
    decreases |moves|
  {
    if moves == [] then w else WholeStep(WholeRun(w, moves[..|moves| - 1], thresholds), moves[|moves| - 1], thresholds)
  }

  // The desk's own moves, those that were let in.
  function DeskMoves(w: Whole, moves: seq<WholeMove>, thresholds: AutonomyThresholds): seq<NotifyMove>
    decreases |moves|
  {
    if moves == [] then []
    else
      var before, last := moves[..|moves| - 1], moves[|moves| - 1];
      var earlier := DeskMoves(w, before, thresholds);
      if last.AtDesk? && !(last.notifyMove.Arrive?
                           && !Due(WholeRun(w, before, thresholds).system, last.notifyMove.trackingId,
                                   last.notifyMove.notice))
      then earlier + [last.notifyMove] else earlier
  }

  lemma {:induction false} DeskRunsItsMachine(moves: seq<WholeMove>, thresholds: AutonomyThresholds)
    ensures WholeRun(EmptyWhole, moves, thresholds).desk
         == Notification.Run(map[], DeskMoves(EmptyWhole, moves, thresholds))
    decreases |moves|
  {
    if moves != [] {
      var before, last := moves[..|moves| - 1], moves[|moves| - 1];
      DeskRunsItsMachine(before, thresholds);
      if last.AtDesk? {
        Notification.RunSnoc(map[], DeskMoves(EmptyWhole, before, thresholds), last.notifyMove);
      }
    }
  }

  // ---- Only what is due is ever sent ---------------------------------------------------------------

  ghost predicate OnlyDue(s: System, id: string, t: Tally) {
    && (forall notice <- t.sends :: Due(s, id, notice))
    && (forall h <- t.handlers :: Due(s, id, t.handlers[h].notice))
  }

  ghost predicate AllDue(w: Whole) {
    && Saga.SlotsOk(w.system.saga)
    && forall id <- w.desk :: OnlyDue(w.system, id, w.desk[id])
  }

  lemma DeskKeepsDue(s: System, id: string, t: Tally, move: NotifyMove)
    requires OnlyDue(s, id, t) && (move.Arrive? ==> Due(s, id, move.notice))
    ensures OnlyDue(s, id, AfterMove(t, move))
  {
    var after := AfterMove(t, move);
    forall notice <- after.sends ensures Due(s, id, notice) {
      if notice !in t.sends {
        assert notice == t.handlers[move.handler].notice;
      }
    }
    forall h <- after.handlers ensures Due(s, id, after.handlers[h].notice) {
      if h in t.handlers {
        assert Due(s, id, t.handlers[h].notice);
      }
    }
  }

  // Nothing that was sent is unsent.
  lemma SystemGrows(s: System, move: Move, id: string, thresholds: AutonomyThresholds)
    requires Saga.SlotsOk(s.saga)
    ensures var after := Choreography.Step(s, move, thresholds);
            && s.decided <= after.decided && s.resolved <= after.resolved
            && Saga.SlotOf(s.saga, id).published <= Saga.SlotOf(after.saga, id).published
            && Saga.SlotsOk(after.saga)
  {
    match move
    case PaymentWorks(m) =>
      Saga.StepKeepsSlots(s.saga, m);
      PublishedGrows(s.saga, m, id);
    case PaymentReceives(e) =>
      Saga.StepKeepsSlots(s.saga, Saga.Deliver(e));
      PublishedGrows(s.saga, Saga.Deliver(e), id);
    case _ =>
  }

  lemma PublishedGrows(saga: Saga.Saga, move: Saga.SagaMove, id: string)
    ensures Saga.SlotOf(saga, id).published <= Saga.SlotOf(Saga.Step(saga, move), id).published
  {
    if !Saga.Concerned(move, id) {
      Saga.OtherSparesSlot(saga, move, id);
    }
  }

  lemma DueStays(s: System, after: System, id: string, notice: Notice)
    requires s.decided <= after.decided && s.resolved <= after.resolved
    requires Saga.SlotOf(s.saga, id).published <= Saga.SlotOf(after.saga, id).published
    requires Due(s, id, notice)
    ensures Due(after, id, notice)
  {
    match notice
    case InvoiceDeclined(decision) =>
      var e :| e in s.decided && e.decision == decision && e.decision.correlationId == id && DecisionNotifies(e);
      assert e in after.decided;
    case ApproverRejected(decision) =>
      var e :| e in s.resolved && e.decision == decision && e.decision.correlationId == id && ApprovalNotifies(e);
      assert e in after.resolved;
    case PaymentReport(resolution, reason) =>
      var e :| e in Saga.SlotOf(s.saga, id).published && e.resolution == resolution && e.reason == reason;
      assert e in Saga.SlotOf(after.saga, id).published;
  }

  lemma ElsewhereKeepsDue(w: Whole, move: Move, thresholds: AutonomyThresholds)
    requires AllDue(w)
    ensures AllDue(WholeStep(w, Elsewhere(move), thresholds))
  {
    var after := Choreography.Step(w.system, move, thresholds);
    SystemGrows(w.system, move, "", thresholds);
    forall id <- w.desk ensures OnlyDue(after, id, w.desk[id]) {
      SystemGrows(w.system, move, id, thresholds);
      forall notice | Due(w.system, id, notice) ensures Due(after, id, notice) {
        DueStays(w.system, after, id, notice);
      }
    }
  }

  lemma {:induction false} RunKeepsDue(moves: seq<WholeMove>, thresholds: AutonomyThresholds)
    ensures AllDue(WholeRun(EmptyWhole, moves, thresholds))
    decreases |moves|
  {
    if moves != [] {
      var before, last := moves[..|moves| - 1], moves[|moves| - 1];
      var w := WholeRun(EmptyWhole, before, thresholds);
      RunKeepsDue(before, thresholds);
      match last
      case Elsewhere(m) => ElsewhereKeepsDue(w, m, thresholds);
      case AtDesk(m) =>
        if !(m.Arrive? && !Due(w.system, m.trackingId, m.notice)) {
          DeskKeepsDue(w.system, m.trackingId, TallyOf(w.desk, m.trackingId), m);
        }
    }
  }

  // ---- One notice, of one kind ---------------------------------------------------------------------

  predicate SameKind(a: Notice, b: Notice) {
    a.InvoiceDeclined? == b.InvoiceDeclined? && a.ApproverRejected? == b.ApproverRejected?
  }

  // A clash leaves at least one kind unsent, beside any notice.
  lemma ClashHasAnother(s: System, id: string, notice: Notice) returns (other: Notice)
    requires Clash(s, id)
    ensures Due(s, id, other) && !SameKind(other, notice)
  {
    if DeclinedByDecision(s, id) && !notice.InvoiceDeclined? {
      var e :| e in s.decided && e.decision.correlationId == id && DecisionNotifies(e);
      other := InvoiceDeclined(e.decision);
    } else if DeclinedByHuman(s, id) && !notice.ApproverRejected? {
      var e :| e in s.resolved && e.decision.correlationId == id && ApprovalNotifies(e);
      other := ApproverRejected(e.decision);
    } else {
      var e := Saga.SlotOf(s.saga, id).published[0];
      assert e in Saga.SlotOf(s.saga, id).published;
      other := PaymentReport(e.resolution, e.reason);
    }
  }

  // In every run of the whole system whose handlers of this tracking id do not overlap, between handlers:
  // what was sent was due; and unless a handler failed after its send and before its mark, it was sent
  // once at most, so that where two kinds of notice clash, some notice that is due is never sent, now or
  // later.
  lemma {:induction false} SecondNoticeIsNeverSent(moves: seq<WholeMove>, thresholds: AutonomyThresholds, id: string)
    requires NeverOverlaps(map[], DeskMoves(EmptyWhole, moves, thresholds), id)
    requires var t := TallyOf(WholeRun(EmptyWhole, moves, thresholds).desk, id);
             t.handlers == map[] && t.lost == 0
    ensures var w := WholeRun(EmptyWhole, moves, thresholds);
            var t := TallyOf(w.desk, id);
            && (forall notice <- t.sends :: Due(w.system, id, notice))
            && |t.sends| <= 1
            && (t.sends != [] && Clash(w.system, id) ==>
                  exists other :: Due(w.system, id, other) && !SameKind(other, t.sends[0])
                      && forall more :: other !in TallyOf(Notification.Run(w.desk, more), id).sends)
  {
    var w := WholeRun(EmptyWhole, moves, thresholds);
    var t := TallyOf(w.desk, id);
    RunKeepsDue(moves, thresholds);
    DeskRunsItsMachine(moves, thresholds);
    SendsBetweenHandlers(DeskMoves(EmptyWhole, moves, thresholds), id);
    if t.sends != [] && Clash(w.system, id) {
      var other := ClashHasAnother(w.system, id, t.sends[0]);
      forall more ensures other !in TallyOf(Notification.Run(w.desk, more), id).sends {
        MarkedIsFinal(w.desk, more, id);
      }
    }
  }
}

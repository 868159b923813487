// The human approval state machine (services/approval/service.py, services/approval/models.py).
//
// Handlers for one tracking id do not overlap, so each is one step, with the place where it may
// fail: before its save, or after its save and before its publish.
module Approval {
  import opened Contracts

  datatype ApprovalStatus = Pending | WaitingInfo | Approved | Rejected

  datatype PendingApproval = PendingApproval(
    trackingId: string,
    invoice: Invoice,
    decision: Decision,
    recommendation: Option<Recommendation>,
    status: ApprovalStatus,
    additionalInfo: Option<string>)

  datatype Action = Approve | RejectIt | RequestInfo | AddInfo(info: string)

  datatype Fault = NoFault | SaveFails | PublishFails

  datatype Reply = Updated(approval: PendingApproval) | NotFound | AlreadyResolved | NotAwaitingInfo | Raised

  datatype Book = Book(records: map<string, PendingApproval>, published: map<string, seq<ApprovalCompletedEvent>>)

  datatype ApprovalMove =
    | DecisionDelivered(event: DecisionCompletedEvent, fault: Fault)
    | Act(trackingId: string, action: Action, fault: Fault)

  const EmptyBook := Book(map[], map[])

  predicate Resolved(approval: PendingApproval) { approval.status.Approved? || approval.status.Rejected? }

  function PublishedFor(book: Book, id: string): seq<ApprovalCompletedEvent> {
    if id in book.published then book.published[id] else []
  }

  function Save(book: Book, approval: PendingApproval): Book {
    book.(records := book.records[approval.trackingId := approval])
  }

  function Publish(book: Book, event: ApprovalCompletedEvent): Book {
    var id := event.decision.correlationId;
    book.(published := book.published[id := PublishedFor(book, id) + [event]])
  }

  function Escalated(event: DecisionCompletedEvent): PendingApproval {
    PendingApproval(event.decision.correlationId, event.invoice, event.decision, event.recommendation, Pending, None)
  }

  function ResolutionEvent(approval: PendingApproval): ApprovalCompletedEvent {
    ApprovalCompletedEvent(approval.invoice, approval.decision,
                           if approval.status.Approved? then ApprovalApproved else ApprovalRejected)
  }

  function Deliver(book: Book, event: DecisionCompletedEvent, fault: Fault): Book {
    if event.decision.route != HumanReview || event.decision.correlationId in book.records || fault.SaveFails? then book
    else Save(book, Escalated(event))
  }

  // The updated record an action leads to, or why it is refused.
  function Attempted(book: Book, id: string, action: Action): Reply {
    if id !in book.records then NotFound
    else
      var approval := book.records[id];
      match action
      case AddInfo(info) =>
        if approval.status.WaitingInfo? then Updated(approval.(status := Pending, additionalInfo := Some(info)))
        else NotAwaitingInfo
      case RequestInfo => if Resolved(approval) then AlreadyResolved else Updated(approval.(status := WaitingInfo))
      case Approve => if Resolved(approval) then AlreadyResolved else Updated(approval.(status := Approved))
      case RejectIt => if Resolved(approval) then AlreadyResolved else Updated(approval.(status := Rejected))
  }

  function Perform(book: Book, id: string, action: Action, fault: Fault): (Book, Reply) {
    var attempted := Attempted(book, id, action);
    if !attempted.Updated? then (book, attempted)
    else if fault.SaveFails? then (book, Raised)
    else
      var saved := Save(book, attempted.approval);
      if !Resolved(attempted.approval) then (saved, attempted)
      else if fault.PublishFails? then (saved, Raised)
      else (Publish(saved, ResolutionEvent(attempted.approval)), attempted)
  }

  function Step(book: Book, move: ApprovalMove): Book {
    match move
    case DecisionDelivered(event, fault) => Deliver(book, event, fault)
    case Act(id, action, fault) => Perform(book, id, action, fault).0
  }

  function Run(book: Book, moves: seq<ApprovalMove>): Book
    decreases |moves|
  {
    if moves == [] then book else Run(Step(book, moves[0]), moves[1..])
  }

  lemma {:induction false} RunSnoc(book: Book, moves: seq<ApprovalMove>, last: ApprovalMove)
    ensures Run(book, moves + [last]) == Step(Run(book, moves), last)
    decreases |moves|
  {
    if moves == [] {
      assert moves + [last] == [last];
      assert Run(book, [last]) == Run(Step(book, last), []);
    } else {
      assert (moves + [last])[0] == moves[0] && (moves + [last])[1..] == moves[1..] + [last];
      RunSnoc(Step(book, moves[0]), moves[1..], last);
    }
  }

  // ---- The service ---------------------------------------------------------------------------------

  class ApprovalService {
    var book: Book

    constructor ()
      ensures book == EmptyBook
    {
      book := EmptyBook;
    }

    method HandleDecisionCompleted(event: DecisionCompletedEvent, fault: Fault) returns (raised: bool)
      modifies this
      ensures book == Deliver(old(book), event, fault)
      ensures var id := event.decision.correlationId;
              if event.decision.route == HumanReview && id !in old(book).records && fault != SaveFails then
                book == old(book).(records := old(book).records[id := PendingApproval(id, event.invoice,
                    event.decision, event.recommendation, Pending, None)])
              else book == old(book)
      ensures raised == (event.decision.route == HumanReview && event.decision.correlationId !in old(book).records
                         && fault == SaveFails)
    {
      if event.decision.route != HumanReview {
        return false;
      }
      var trackingId := event.decision.correlationId;
      if trackingId in book.records {
        return false;
      }
      if fault == SaveFails {
        return true;
      }
      var approval := PendingApproval(trackingId, event.invoice, event.decision, event.recommendation, Pending, None);
      book := book.(records := book.records[trackingId := approval]);
      return false;
    }

    method Resolve(trackingId: string, status: ApprovalStatus, resolution: ApprovalResolution, fault: Fault)
      returns (reply: Reply)
      requires (status == Approved && resolution == ApprovalApproved)
            || (status == Rejected && resolution == ApprovalRejected)
      requires ValidBook(book)
      modifies this
      ensures (book, reply) == Perform(old(book), trackingId, if status == Approved then Approve else RejectIt, fault)
      ensures trackingId !in old(book).records ==> reply == NotFound
      ensures trackingId in old(book).records ==>
                var approval := old(book).records[trackingId];
                if approval.status in {Approved, Rejected} then reply == AlreadyResolved
                else if fault == SaveFails then reply == Raised && book == old(book)
                else
                  && book.records == old(book).records[trackingId := approval.(status := status)]
                  && reply == (if fault == PublishFails then Raised else Updated(approval.(status := status)))
                  && PublishedFor(book, trackingId) == PublishedFor(old(book), trackingId)
                      + (if fault == PublishFails then []
                         else [ApprovalCompletedEvent(approval.invoice, approval.decision, resolution)])
      ensures reply in {NotFound, AlreadyResolved} ==> book == old(book)
    {
      if trackingId !in book.records {
        return NotFound;
      }
      var approval := book.records[trackingId];
      assert RecordOk(book, trackingId);
      if approval.status !in {Pending, WaitingInfo} {
        return AlreadyResolved;
      }
      var updated := approval.(status := status);
      if fault == SaveFails {
        return Raised;
      }
      book := Save(book, updated);
      if fault == PublishFails {
        return Raised;
      }
      book := Publish(book, ApprovalCompletedEvent(updated.invoice, updated.decision, resolution));
      return Updated(updated);
    }

    method RequestMoreInfo(trackingId: string, fault: Fault) returns (reply: Reply)
      requires ValidBook(book)
      modifies this
      ensures (book, reply) == Perform(old(book), trackingId, RequestInfo, fault)
      ensures trackingId !in old(book).records ==> reply == NotFound
      ensures trackingId in old(book).records ==>
                var approval := old(book).records[trackingId];
                if approval.status in {Approved, Rejected} then reply == AlreadyResolved
                else if fault == SaveFails then reply == Raised
                else reply == Updated(approval.(status := WaitingInfo))
      ensures book == if reply.Updated?
                      then old(book).(records := old(book).records[trackingId := reply.approval]) else old(book)
    {
      if trackingId !in book.records {
        return NotFound;
      }
      var approval := book.records[trackingId];
      assert RecordOk(book, trackingId);
      if approval.status !in {Pending, WaitingInfo} {
        return AlreadyResolved;
      }
      if fault == SaveFails {
        return Raised;
      }
      var updated := approval.(status := WaitingInfo);
      book := Save(book, updated);
      return Updated(updated);
    }

    method AddAdditionalInfo(trackingId: string, info: string, fault: Fault) returns (reply: Reply)
      requires ValidBook(book)
      modifies this
      ensures (book, reply) == Perform(old(book), trackingId, AddInfo(info), fault)
      ensures trackingId !in old(book).records ==> reply == NotFound
      ensures trackingId in old(book).records ==>
                var approval := old(book).records[trackingId];
                if approval.status != WaitingInfo then reply == NotAwaitingInfo
                else if fault == SaveFails then reply == Raised
                else reply == Updated(approval.(status := Pending, additionalInfo := Some(info)))
      ensures book == if reply.Updated?
                      then old(book).(records := old(book).records[trackingId := reply.approval]) else old(book)
    {
      if trackingId !in book.records {
        return NotFound;
      }
      var approval := book.records[trackingId];
      assert RecordOk(book, trackingId);
      if approval.status != WaitingInfo {
        return NotAwaitingInfo;
      }
      if fault == SaveFails {
        return Raised;
      }
      var updated := approval.(status := Pending, additionalInfo := Some(info));
      book := Save(book, updated);
      return Updated(updated);
    }
  }

  // ---- What every sequence of deliveries and actions keeps -----------------------------------------

  predicate RecordOk(book: Book, id: string)
    requires id in book.records
  {
    var r := book.records[id];
    r.trackingId == id == r.decision.correlationId && r.decision.route == HumanReview
  }

  function Target(move: ApprovalMove): string {
    if move.Act? then move.trackingId else move.event.decision.correlationId
  }

  // At most one publication, and only the saved resolution's.
  predicate PublicationOk(book: Book, id: string) {
    PublishedFor(book, id) == []
    || (id in book.records && Resolved(book.records[id])
        && PublishedFor(book, id) == [ResolutionEvent(book.records[id])])
  }

  ghost predicate ValidBook(book: Book) {
    && (forall id <- book.records :: RecordOk(book, id))
    && (forall id: string :: PublicationOk(book, id))
  }

  // The table of legal moves, with what a record never loses.
  predicate LegalMove(before: PendingApproval, after: PendingApproval) {
    && after.trackingId == before.trackingId && after.invoice == before.invoice
    && after.decision == before.decision && after.recommendation == before.recommendation
    && (before.additionalInfo.Some? ==> after.additionalInfo.Some?)
    && (after.additionalInfo != before.additionalInfo ==> before.status.WaitingInfo? && after.status.Pending?)
    && (Resolved(before) ==> after == before)
  }

  // Only the record and the publications of the tracking id concerned can change.
  lemma StepSparesOthers(book: Book, move: ApprovalMove, id: string)
    requires id != Target(move)
    requires Target(move) in book.records ==> RecordOk(book, Target(move))
    ensures var after := Step(book, move);
            && (id in after.records <==> id in book.records)
            && (id in book.records ==> after.records[id] == book.records[id])
            && PublishedFor(after, id) == PublishedFor(book, id)
  {
  }

  lemma TargetIsLegal(book: Book, move: ApprovalMove)
    requires Target(move) in book.records ==> RecordOk(book, Target(move))
    requires PublicationOk(book, Target(move))
    ensures var after := Step(book, move);
            var id := Target(move);
            && (id in after.records ==> RecordOk(after, id))
            && PublicationOk(after, id)
            && (id in book.records ==> id in after.records && LegalMove(book.records[id], after.records[id]))
  {
  }

  lemma StepIsLegal(book: Book, move: ApprovalMove)
    requires ValidBook(book)
    ensures ValidBook(Step(book, move))
    ensures forall id <- book.records ::
              && id in Step(book, move).records
              && LegalMove(book.records[id], Step(book, move).records[id])
  {
    var after := Step(book, move);
    assert Target(move) in book.records ==> RecordOk(book, Target(move));
    assert PublicationOk(book, Target(move));
    TargetIsLegal(book, move);
    forall id: string
      ensures PublicationOk(after, id)
      ensures id in after.records ==> RecordOk(after, id)
      ensures id in book.records ==> id in after.records && LegalMove(book.records[id], after.records[id])
    {
      assert PublicationOk(book, id);
      if id != Target(move) {
        StepSparesOthers(book, move, id);
      }
    }
  }

  lemma {:induction false} RunIsLegal(book: Book, moves: seq<ApprovalMove>)
    requires ValidBook(book)
    ensures ValidBook(Run(book, moves))
    decreases |moves|
  {
    if moves != [] {
      StepIsLegal(book, moves[0]);
      RunIsLegal(Step(book, moves[0]), moves[1..]);
    }
  }

  // Over every sequence of deliveries, actions and failures: approval.completed is published at most
  // once for a tracking id, with the resolution that is saved; and only escalated decisions have a record.
  lemma PublishedOnceAsSaved(moves: seq<ApprovalMove>, id: string)
    ensures var book := Run(EmptyBook, moves);
            && |PublishedFor(book, id)| <= 1
            && (PublishedFor(book, id) != [] ==>
                  && id in book.records
                  && PublishedFor(book, id)[0].invoice == book.records[id].invoice
                  && PublishedFor(book, id)[0].decision == book.records[id].decision
                  && book.records[id].status
                     == if PublishedFor(book, id)[0].resolution == ApprovalApproved then Approved else Rejected)
            && (id in book.records ==>
                  && book.records[id].decision.route == HumanReview
                  && book.records[id].decision.correlationId == id)
  {
    RunIsLegal(EmptyBook, moves);
    var book := Run(EmptyBook, moves);
    assert PublicationOk(book, id);
    assert id in book.records ==> RecordOk(book, id);
  }

  // APPROVED and REJECTED are final, redelivered decisions never alter a record, and additional
  // information once given is never cleared.
  lemma {:induction false} ResolvedIsForever(book: Book, moves: seq<ApprovalMove>, id: string)
    requires ValidBook(book) && id in book.records
    ensures var after := Run(book, moves);
            && id in after.records
            && (Resolved(book.records[id]) ==> after.records[id] == book.records[id])
            && (book.records[id].additionalInfo.Some? ==> after.records[id].additionalInfo.Some?)
            && after.records[id].invoice == book.records[id].invoice
                && after.records[id].decision == book.records[id].decision
    decreases |moves|
  {
    if moves != [] {
      StepIsLegal(book, moves[0]);
      assert LegalMove(book.records[id], Step(book, moves[0]).records[id]);
      ResolvedIsForever(Step(book, moves[0]), moves[1..], id);
    }
  }

  // ---- What a record says ---------------------------------------------------------------------------

  // An approver asks, the submitter answers: in every run, a request on an open record whose save goes
  // through leaves that record WAITING_INFO and changes nothing else, and the answer to it is accepted
  // and leaves the record PENDING with its text.
  lemma InfoIsAskedAndGiven(moves: seq<ApprovalMove>, id: string, info: string, fault: Fault, fault': Fault)
    requires var book := Run(EmptyBook, moves);
             id in book.records && book.records[id].status in {Pending, WaitingInfo}
    requires fault != SaveFails && fault' != SaveFails
    ensures var book := Run(EmptyBook, moves);
            var record := book.records[id];
            var asked := Run(EmptyBook, moves + [Act(id, RequestInfo, fault)]);
            var answered := Run(EmptyBook, moves + [Act(id, RequestInfo, fault), Act(id, AddInfo(info), fault')]);
            && asked == book.(records := book.records[id := record.(status := WaitingInfo)])
            && answered
                == book.(records := book.records[id := record.(status := Pending, additionalInfo := Some(info))])
            && Perform(book, id, RequestInfo, fault).1 == Updated(asked.records[id])
            && Perform(asked, id, AddInfo(info), fault').1 == Updated(answered.records[id])
  {
    var book := Run(EmptyBook, moves);
    var ask, answer := Act(id, RequestInfo, fault), Act(id, AddInfo(info), fault');
    RunSnoc(EmptyBook, moves, ask);
    RunSnoc(EmptyBook, moves + [ask], answer);
    assert moves + [ask] + [answer] == moves + [ask, answer];
    RunIsLegal(EmptyBook, moves);
    assert RecordOk(book, id);
    Asked(book, id, fault);
    Answered(Step(book, ask), id, info, fault');
  }

  lemma Asked(book: Book, id: string, fault: Fault)
    requires id in book.records && RecordOk(book, id) && book.records[id].status in {Pending, WaitingInfo}
    requires fault != SaveFails
    ensures var record := book.records[id].(status := WaitingInfo);
            Perform(book, id, RequestInfo, fault) == (book.(records := book.records[id := record]), Updated(record))
  {
  }

  lemma Answered(book: Book, id: string, info: string, fault: Fault)
    requires id in book.records && RecordOk(book, id) && book.records[id].status == WaitingInfo
    requires fault != SaveFails
    ensures var record := book.records[id].(status := Pending, additionalInfo := Some(info));
            Perform(book, id, AddInfo(info), fault) == (book.(records := book.records[id := record]), Updated(record))
  {
  }

  // A human's action that was saved: the record was open, or, for an answer, waiting for one.
  ghost predicate SavedAt(moves: seq<ApprovalMove>, i: nat, id: string) {
    && i < |moves| && moves[i].Act? && moves[i].trackingId == id && moves[i].fault != SaveFails
    && var before := Run(EmptyBook, moves[..i]);
       && id in before.records
       && if moves[i].action.AddInfo? then before.records[id].status == WaitingInfo
          else before.records[id].status in {Pending, WaitingInfo}
  }

  ghost predicate AnsweredAt(moves: seq<ApprovalMove>, i: nat, id: string) {
    SavedAt(moves, i, id) && moves[i].action.AddInfo?
  }

  ghost predicate LastSaved(moves: seq<ApprovalMove>, last: Option<nat>, id: string) {
    && (last.Some? ==> SavedAt(moves, last.value, id))
    && forall i: nat :: SavedAt(moves, i, id) ==> last.Some? && i <= last.value
  }

  ghost predicate LastAnswered(moves: seq<ApprovalMove>, last: Option<nat>, id: string) {
    && (last.Some? ==> AnsweredAt(moves, last.value, id))
    && forall i: nat :: AnsweredAt(moves, i, id) ==> last.Some? && i <= last.value
  }

  lemma SavedEarlier(before: seq<ApprovalMove>, last: ApprovalMove, i: nat, id: string)
    requires i < |before|
    ensures SavedAt(before + [last], i, id) <==> SavedAt(before, i, id)
    ensures AnsweredAt(before + [last], i, id) <==> AnsweredAt(before, i, id)
  {
    assert (before + [last])[..i] == before[..i] && (before + [last])[i] == before[i];
  }

  function StatusAfter(action: Action): ApprovalStatus {
    match action
    case Approve => Approved
    case RejectIt => Rejected
    case RequestInfo => WaitingInfo
    case AddInfo(_) => Pending
  }

  // What one move does to a record.
  lemma StepSaves(book: Book, move: ApprovalMove, id: string)
    requires ValidBook(book) && id in Step(book, move).records
    ensures var after := Step(book, move).records[id];
            var saved := move.Act? && move.trackingId == id && move.fault != SaveFails && id in book.records
                && if move.action.AddInfo? then book.records[id].status == WaitingInfo
                   else book.records[id].status in {Pending, WaitingInfo};
            if id !in book.records then !saved && after.status == Pending && after.additionalInfo == None
            else
              && after.status == (if saved then StatusAfter(move.action) else book.records[id].status)
              && after.additionalInfo == (if saved && move.action.AddInfo? then Some(move.action.info)
                  else book.records[id].additionalInfo)
  {
    assert id in book.records ==> RecordOk(book, id);
    assert move.Act? && move.trackingId in book.records ==> RecordOk(book, move.trackingId);
  }

  lemma NothingSavedBefore(moves: seq<ApprovalMove>, id: string, i: nat)
    requires id !in Run(EmptyBook, moves).records && i < |moves|
    ensures !SavedAt(moves, i, id)
  {
    if SavedAt(moves, i, id) {
      assert moves[..i] + moves[i..] == moves;
      StaysRecorded(moves[..i], moves[i..], id);
    }
  }

  lemma {:induction false} StaysRecorded(first: seq<ApprovalMove>, second: seq<ApprovalMove>, id: string)
    requires id in Run(EmptyBook, first).records
    ensures id in Run(EmptyBook, first + second).records
    decreases |second|
  {
    if second == [] {
      assert first + second == first;
    } else {
      var before, last := second[..|second| - 1], second[|second| - 1];
      StaysRecorded(first, before, id);
      assert first + second == first + before + [last];
      RunSnoc(EmptyBook, first + before, last);
      RunIsLegal(EmptyBook, first + before);
      StepIsLegal(Run(EmptyBook, first + before), last);
    }
  }

  // In every sequence of deliveries, actions and failures, a record's status is that of the last action
  // saved on it, PENDING if there is none; and its information is the last answer saved, if any.
  lemma {:induction false} RecordSaysLastAction(moves: seq<ApprovalMove>, id: string)
    returns (last: Option<nat>, answer: Option<nat>)
    requires id in Run(EmptyBook, moves).records
    ensures LastSaved(moves, last, id) && LastAnswered(moves, answer, id)
    ensures Run(EmptyBook, moves).records[id].status
        == if last.None? then Pending
           else match moves[last.value].action
                case Approve => Approved
                case RejectIt => Rejected
                case RequestInfo => WaitingInfo
                case AddInfo(_) => Pending
    ensures Run(EmptyBook, moves).records[id].additionalInfo
        == if answer.None? then None else Some(moves[answer.value].action.info)
    decreases |moves|
  {
    var before, move := moves[..|moves| - 1], moves[|moves| - 1];
    var book := Run(EmptyBook, before);
    assert moves == before + [move] && moves[..|before|] == before;
    RunSnoc(EmptyBook, before, move);
    RunIsLegal(EmptyBook, before);
    StepSaves(book, move, id);
    last, answer := None, None;
    if id in book.records {
      last, answer := RecordSaysLastAction(before, id);
    }
    LastMoves(before, move, id, last, answer);
    if SavedAt(moves, |before|, id) {
      last := Some(|before|);
      answer := if move.action.AddInfo? then last else answer;
    }
  }

  // Of the saved actions, the latest is the last move if that was saved, and otherwise the one before.
  lemma LastMoves(before: seq<ApprovalMove>, move: ApprovalMove, id: string, last: Option<nat>, answer: Option<nat>)
    requires if id in Run(EmptyBook, before).records
             then LastSaved(before, last, id) && LastAnswered(before, answer, id)
             else last.None? && answer.None?
    ensures var moves := before + [move];
            var now := SavedAt(moves, |before|, id);
            && LastSaved(moves, if now then Some(|before|) else last, id)
            && LastAnswered(moves, if now && move.action.AddInfo? then Some(|before|) else answer, id)
  {
    var moves := before + [move];
    forall i: nat | i < |before|
      ensures SavedAt(moves, i, id) <==> SavedAt(before, i, id)
      ensures AnsweredAt(moves, i, id) <==> AnsweredAt(before, i, id)
    {
      SavedEarlier(before, move, i, id);
    }
    if id !in Run(EmptyBook, before).records {
      forall i: nat | i < |before| ensures !SavedAt(before, i, id) {
        NothingSavedBefore(before, id, i);
      }
    }
  }

  // The run without its redeliveries: those of a decision whose tracking id has a record by then.
  function FirstSightings(book: Book, moves: seq<ApprovalMove>): seq<ApprovalMove>
    decreases |moves|
  {
    if moves == [] then []
    else
      var rest := FirstSightings(Step(book, moves[0]), moves[1..]);
      if moves[0].DecisionDelivered? && moves[0].event.decision.correlationId in book.records then rest
      else [moves[0]] + rest
  }

  // Over every sequence of deliveries, actions and failures: whatever was redelivered, records and
  // events are what they would be without it.
  lemma {:induction false} RedeliveryChangesNothing(book: Book, moves: seq<ApprovalMove>)
    ensures Run(book, FirstSightings(book, moves)) == Run(book, moves)
    decreases |moves|
  {
    if moves != [] {
      var next := Step(book, moves[0]);
      var rest := FirstSightings(next, moves[1..]);
      RedeliveryChangesNothing(next, moves[1..]);
      if moves[0].DecisionDelivered? && moves[0].event.decision.correlationId in book.records {
        assert next == book;
      } else {
        assert ([moves[0]] + rest)[0] == moves[0] && ([moves[0]] + rest)[1..] == rest;
      }
    }
  }

  // ---- Where a resolution comes from ---------------------------------------------------------------

  function Resolving(record: PendingApproval): Action {
    if record.status.Approved? then Approve else RejectIt
  }

  // At move `i` a human, on an unresolved record of this tracking id, did what `record` says.
  ghost predicate ResolvedAt(moves: seq<ApprovalMove>, i: nat, id: string, record: PendingApproval) {
    && i < |moves|
    && var before := Run(EmptyBook, moves[..i]);
       && id in before.records && before.records[id].status in {Pending, WaitingInfo}
       && moves[i] == Act(id, Resolving(record), moves[i].fault) && !moves[i].fault.SaveFails?
       && record == before.records[id].(status := record.status)
  }

  // The delivery that created the record.
  ghost predicate EscalatedAt(moves: seq<ApprovalMove>, i: nat, id: string, record: PendingApproval) {
    && i < |moves| && moves[i].DecisionDelivered?
    && var event := moves[i].event;
       && event.decision.route == HumanReview && event.decision.correlationId == id
       && event.invoice == record.invoice && event.decision == record.decision
           && event.recommendation == record.recommendation
       && id !in Run(EmptyBook, moves[..i]).records
  }

  lemma AtEarlier(moves: seq<ApprovalMove>, last: ApprovalMove, i: nat, id: string, record: PendingApproval)
    ensures ResolvedAt(moves, i, id, record) ==> ResolvedAt(moves + [last], i, id, record)
    ensures EscalatedAt(moves, i, id, record) ==> EscalatedAt(moves + [last], i, id, record)
  {
    if i < |moves| {
      assert (moves + [last])[..i] == moves[..i] && (moves + [last])[i] == moves[i];
    }
  }

  // One step that resolves a record is a human's, and its event is lost exactly if its publish fails.
  lemma StepResolves(book: Book, move: ApprovalMove, id: string)
    requires ValidBook(book)
    requires var after := Step(book, move);
             id in after.records && Resolved(after.records[id]) && !(id in book.records && Resolved(book.records[id]))
    ensures id in book.records && book.records[id].status in {Pending, WaitingInfo}
    ensures var record := Step(book, move).records[id];
            && move.Act? && move == Act(id, Resolving(record), move.fault) && !move.fault.SaveFails?
            && record == book.records[id].(status := record.status)
            && (PublishedFor(Step(book, move), id) == [] <==> move.fault.PublishFails?)
  {
    assert PublicationOk(book, id);
  }

  lemma StepKeepsPublished(book: Book, move: ApprovalMove, id: string)
    requires ValidBook(book) && id in book.records && Resolved(book.records[id])
    ensures PublishedFor(Step(book, move), id) == PublishedFor(book, id)
  {
  }

  // Over every sequence of deliveries, actions and failures: a resolved record was resolved by a
  // human's action on it while it was open, and approval.completed was lost exactly if the publish
  // of that action failed.
  lemma {:induction false} ResolutionHasItsAction(moves: seq<ApprovalMove>, id: string)
    requires var book := Run(EmptyBook, moves);
             id in book.records && Resolved(book.records[id])
    ensures var book := Run(EmptyBook, moves);
            exists i: nat :: ResolvedAt(moves, i, id, book.records[id])
                        && (PublishedFor(book, id) == [] <==> moves[i].fault.PublishFails?)
    decreases |moves|
  {
    var before, last := moves[..|moves| - 1], moves[|moves| - 1];
    var book := Run(EmptyBook, before);
    assert moves == before + [last];
    RunSnoc(EmptyBook, before, last);
    RunIsLegal(EmptyBook, before);
    StepIsLegal(book, last);
    var record := Step(book, last).records[id];
    if id in book.records && Resolved(book.records[id]) {
      ResolutionHasItsAction(before, id);
      assert LegalMove(book.records[id], record);
      StepKeepsPublished(book, last, id);
      var i: nat :| ResolvedAt(before, i, id, record)
          && (PublishedFor(book, id) == [] <==> before[i].fault.PublishFails?);
      AtEarlier(before, last, i, id, record);
      assert ResolvedAt(moves, i, id, record) && moves[i] == before[i];
    } else {
      StepResolves(book, last, id);
      assert moves[..|before|] == before;
      assert ResolvedAt(moves, |before|, id, record);
    }
  }

  lemma StepCreates(book: Book, move: ApprovalMove, id: string)
    requires ValidBook(book) && id !in book.records && id in Step(book, move).records
    ensures move.DecisionDelivered? && move.event.decision.route == HumanReview
        && move.event.decision.correlationId == id
    ensures Step(book, move).records[id] == Escalated(move.event)
  {
  }

  // And every record was created by the first HUMAN_REVIEW decision delivered for it, whose invoice,
  // decision and recommendation it still carries.
  lemma {:induction false} RecordHasItsDecision(moves: seq<ApprovalMove>, id: string)
    requires id in Run(EmptyBook, moves).records
    ensures exists i: nat :: EscalatedAt(moves, i, id, Run(EmptyBook, moves).records[id])
    decreases |moves|
  {
    var before, last := moves[..|moves| - 1], moves[|moves| - 1];
    var book := Run(EmptyBook, before);
    assert moves == before + [last];
    RunSnoc(EmptyBook, before, last);
    RunIsLegal(EmptyBook, before);
    StepIsLegal(book, last);
    var record := Step(book, last).records[id];
    if id in book.records {
      RecordHasItsDecision(before, id);
      assert LegalMove(book.records[id], record);
      var i: nat :| EscalatedAt(before, i, id, book.records[id]);
      AtEarlier(before, last, i, id, book.records[id]);
      assert EscalatedAt(moves, i, id, record);
    } else {
      StepCreates(book, last, id);
      assert moves[..|before|] == before;
      assert EscalatedAt(moves, |before|, id, record);
    }
  }
}

// What the audit view of the whole system guarantees: its table does not depend on how the network
// delivered the events, nor its dashboard on the order in which the store lists the rows.
module AuditGuarantees {
  import opened Contracts
  import opened AuditProjection
  import opened AuditSummary
  import opened Choreography
  import opened Sums
  import Saga = PaymentSaga
  import Approval
  import Router

  // ---- The dashboard is a function of the table ----------------------------------------------------

  // An order in which a store may list its rows: every row once.
  ghost predicate Lists(order: seq<string>, table: Table) {
    && (forall id :: id in order <==> id in table)
    && (forall i, j | 0 <= i < j < |order| :: order[i] != order[j])
  }

  function TotalAt(table: Table): string -> real {
    id => if id in table then table[id].total else 0.0
  }

  function Wanted(table: Table, order: seq<string>, wanted: AuditTrail -> bool): set<string> {
    set id | id in order && id in table && wanted(table[id])
  }

  lemma WantedSnoc(table: Table, before: seq<string>, last: string, wanted: AuditTrail -> bool)
    requires last in table && last !in before
    ensures var all := Wanted(table, before + [last], wanted);
            if wanted(table[last]) then last in all && all - {last} == Wanted(table, before, wanted)
            else all == Wanted(table, before, wanted)
  {
  }

  lemma RowsSnoc(table: Table, before: seq<string>, last: string, wanted: AuditTrail -> bool)
    requires last in table && forall id <- before :: id in table
    ensures var rows := RowsOf(table, before);
            && CountRows(RowsOf(table, before + [last]), wanted)
                == CountRows(rows, wanted) + (if wanted(table[last]) then 1 else 0)
            && TotalRows(RowsOf(table, before + [last]), wanted)
               == TotalRows(rows, wanted) + (if wanted(table[last]) then table[last].total else 0.0)
  {
    var all := RowsOf(table, before + [last]);
    assert all[..|all| - 1] == RowsOf(table, before);
  }

  lemma {:induction false} ListedOnce(table: Table, order: seq<string>, wanted: AuditTrail -> bool)
    requires forall id <- order :: id in table
    requires forall i, j | 0 <= i < j < |order| :: order[i] != order[j]
    ensures CountRows(RowsOf(table, order), wanted) == |Wanted(table, order, wanted)|
    ensures TotalRows(RowsOf(table, order), wanted) == Sum(Wanted(table, order, wanted), TotalAt(table))
    decreases |order|
  {
    if order != [] {
      var before, last := order[..|order| - 1], order[|order| - 1];
      ListedOnce(table, before, wanted);
      assert order == before + [last];
      RowsSnoc(table, before, last, wanted);
      WantedSnoc(table, before, last, wanted);
      if wanted(table[last]) {
        SumSplit(Wanted(table, order, wanted), TotalAt(table), last);
      }
    }
  }

  lemma SameNumbers(table: Table, order: seq<string>, order': seq<string>, wanted: AuditTrail -> bool)
    requires Lists(order, table) && Lists(order', table)
    ensures CountRows(RowsOf(table, order), wanted) == CountRows(RowsOf(table, order'), wanted)
    ensures TotalRows(RowsOf(table, order), wanted) == TotalRows(RowsOf(table, order'), wanted)
  {
    ListedOnce(table, order, wanted);
    ListedOnce(table, order', wanted);
    assert Wanted(table, order, wanted) == Wanted(table, order', wanted);
  }

  lemma MoneyMapIsTotal(money: map<string, real>, rows: seq<AuditTrail>, wanted: string -> (AuditTrail -> bool),
          currency: string)
    requires MoneyOf(money, rows, wanted)
    ensures currency in money <==> CountRows(rows, wanted(currency)) > 0
    ensures currency in money ==> money[currency] == TotalRows(rows, wanted(currency))
  {
    CountSome(rows, wanted(currency));
  }

  lemma {:induction false} SameCurrency(table: Table, order: seq<string>, order': seq<string>,
          wanted: string -> (AuditTrail -> bool), money: map<string, real>, money': map<string, real>, currency: string)
    requires Lists(order, table) && Lists(order', table)
    requires MoneyOf(money, RowsOf(table, order), wanted) && MoneyOf(money', RowsOf(table, order'), wanted)
    ensures currency in money <==> currency in money'
    ensures currency in money ==> money[currency] == money'[currency]
  {
    SameNumbers(table, order, order', wanted(currency));
    MoneyMapIsTotal(money, RowsOf(table, order), wanted, currency);
    MoneyMapIsTotal(money', RowsOf(table, order'), wanted, currency);
  }

  lemma {:induction false} SameMoney(table: Table, order: seq<string>, order': seq<string>,
          wanted: string -> (AuditTrail -> bool), money: map<string, real>, money': map<string, real>)
    requires Lists(order, table) && Lists(order', table)
    requires MoneyOf(money, RowsOf(table, order), wanted) && MoneyOf(money', RowsOf(table, order'), wanted)
    ensures money == money'
  {
    forall currency: string
      ensures currency in money <==> currency in money'
      ensures currency in money ==> currency in money' && money[currency] == money'[currency]
    {
      SameCurrency(table, order, order', wanted, money, money', currency);
    }
  }

  // A route map says of each route how many rows it has, zero if it is absent.
  lemma RouteMapIsCount(counts: map<Route, nat>, rows: seq<AuditTrail>, route: Route)
    requires ReportsRoutes(counts, rows)
    ensures route in counts <==> CountRows(rows, Routed(route)) > 0
    ensures route in counts ==> counts[route] == CountRows(rows, Routed(route))
  {
    RoutePresent(rows, route);
  }

  lemma {:induction false} SameRoute(table: Table, order: seq<string>, order': seq<string>, counts: map<Route, nat>,
          counts': map<Route, nat>, route: Route)
    requires Lists(order, table) && Lists(order', table)
    requires ReportsRoutes(counts, RowsOf(table, order)) && ReportsRoutes(counts', RowsOf(table, order'))
    ensures route in counts <==> route in counts'
    ensures route in counts ==> counts[route] == counts'[route]
  {
    SameNumbers(table, order, order', Routed(route));
    RouteMapIsCount(counts, RowsOf(table, order), route);
    RouteMapIsCount(counts', RowsOf(table, order'), route);
  }

  lemma SameRoutes(table: Table, order: seq<string>, order': seq<string>, counts: map<Route, nat>,
          counts': map<Route, nat>)
    requires Lists(order, table) && Lists(order', table)
    requires ReportsRoutes(counts, RowsOf(table, order)) && ReportsRoutes(counts', RowsOf(table, order'))
    ensures counts == counts'
  {
    forall route: Route
      ensures route in counts <==> route in counts'
      ensures route in counts ==> route in counts' && counts[route] == counts'[route]
    {
      SameRoute(table, order, order', counts, counts', route);
    }
  }

  lemma SameCounts(table: Table, order: seq<string>, order': seq<string>)
    requires Lists(order, table) && Lists(order', table)
    ensures |order| == |order'|
    ensures CountRows(RowsOf(table, order), Routed(AutoApprove))
        == CountRows(RowsOf(table, order'), Routed(AutoApprove))
    ensures CountRows(RowsOf(table, order), Routed(HumanReview))
        == CountRows(RowsOf(table, order'), Routed(HumanReview))
  {
    SameNumbers(table, order, order', Every());
    SameNumbers(table, order, order', Routed(AutoApprove));
    SameNumbers(table, order, order', Routed(HumanReview));
    CountAll(RowsOf(table, order));
    CountAll(RowsOf(table, order'));
  }

  // Whatever order two stores list the same rows in, they show the same dashboard.
  lemma DashboardIgnoresOrder(table: Table, order: seq<string>, order': seq<string>, d: Dashboard, d': Dashboard)
    requires Lists(order, table) && Lists(order', table)
    requires Reports(d, RowsOf(table, order)) && Reports(d', RowsOf(table, order'))
    ensures d == d'
  {
    SameCounts(table, order, order');
    SameRoutes(table, order, order', d.countsByRoute, d'.countsByRoute);
    SameMoney(table, order, order', AutoIn, d.moneyAutoApproved, d'.moneyAutoApproved);
    SameMoney(table, order, order', ApprovedIn, d.moneyHumanApproved, d'.moneyHumanApproved);
  }

  // ---- The events of one run of the system ---------------------------------------------------------

  // What the audit service can ever be delivered.
  ghost predicate Emitted(s: System, e: AuditEvent) {
    match e
    case DecisionRecorded(d) => d in s.decided
    case ApprovalRecorded(a) => a in s.resolved
    case PaymentRecorded(p) => p in Saga.SlotOf(s.saga, p.decision.correlationId).published
  }

  // The Decision service has answered each submission with one event.
  predicate AnsweredOnce(s: System) {
    forall e, f | e in s.decided && f in s.decided && e.decision.correlationId == f.decision.correlationId :: e == f
  }

  // Every event carries an invoice and a decision that was sent as a decision.
  lemma EmittedWasDecided(s: System, e: AuditEvent, thresholds: Router.AutonomyThresholds)
    requires Choreography.Inv(s, thresholds) && Emitted(s, e)
    ensures DecisionSent(s, EventInvoice(e), EventDecision(e))
  {
    match e
    case DecisionRecorded(d) => assert d in s.decided;
    case ApprovalRecorded(a) => assert ResolvedOk(s, a);
    case PaymentRecorded(p) =>
      var id := p.decision.correlationId;
      var slot := Saga.SlotOf(s.saga, id);
      assert Saga.SlotOk(id, slot) && SlotAuthorised(s, slot);
      AuthorisedMeans(s, slot.record.value.invoice, slot.record.value.decision, thresholds);
  }

  // A tracking id has one resolution and one payment outcome.
  lemma EmittedOnce(s: System, e: AuditEvent, f: AuditEvent, thresholds: Router.AutonomyThresholds)
    requires Choreography.Inv(s, thresholds)
    requires Emitted(s, e) && Emitted(s, f) && EventId(e) == EventId(f)
    ensures e.ApprovalRecorded? && f.ApprovalRecorded? ==> e == f
    ensures e.PaymentRecorded? && f.PaymentRecorded? ==> e == f
  {
    if e.ApprovalRecorded? && f.ApprovalRecorded? {
      assert ResolvedOk(s, e.resolved) && ResolvedOk(s, f.resolved);
    }
    if e.PaymentRecorded? && f.PaymentRecorded? {
      assert Saga.SlotOk(EventId(e), Saga.SlotOf(s.saga, EventId(e)));
    }
  }

  lemma EmittedAgree(s: System, e: AuditEvent, f: AuditEvent, thresholds: Router.AutonomyThresholds)
    requires Choreography.Inv(s, thresholds) && AnsweredOnce(s)
    requires Emitted(s, e) && Emitted(s, f) && EventId(e) == EventId(f)
    ensures Agree(e, f)
  {
    EmittedWasDecided(s, e, thresholds);
    EmittedWasDecided(s, f, thresholds);
    EmittedOnce(s, e, f, thresholds);
  }

  ghost predicate AllEmitted(s: System, events: seq<AuditEvent>) {
    forall e <- events :: Emitted(s, e)
  }

  lemma EmittedConsistent(s: System, events: seq<AuditEvent>, thresholds: Router.AutonomyThresholds)
    requires Choreography.Inv(s, thresholds) && AnsweredOnce(s) && AllEmitted(s, events)
    ensures Consistent(events)
  {
    forall e, f | e in events && f in events && EventId(e) == EventId(f) ensures Agree(e, f) {
      EmittedAgree(s, e, f, thresholds);
    }
  }

  predicate SameMembers(events: seq<AuditEvent>, events': seq<AuditEvent>) {
    (forall e <- events :: e in events') && (forall e <- events' :: e in events)
  }

  // Both orders, in both stores, end in one table.
  ghost predicate OneTable(events: seq<AuditEvent>, events': seq<AuditEvent>) {
    After(events) == After(events') == AfterSql(events) == AfterSql(events')
  }

  lemma SqlKeepsLastDecision(first: DecisionCompletedEvent, last: DecisionCompletedEvent)
    requires first.decision.correlationId == last.decision.correlationId
    ensures var table := AfterSql([DecisionRecorded(first), DecisionRecorded(last)]);
            var id := last.decision.correlationId;
            id in table && table[id] == BaseRow(last.invoice, last.decision).(recommendation := last.recommendation)
  {
    var x, y := DecisionRecorded(first), DecisionRecorded(last);
    assert [x, y][..1] == [x] && [x][..0] == [];
    assert AfterSql([x]) == UpsertSql(AfterSql([]), x);
  }

  // Two answers to one submission: delivered in either order, the database ends differently.
  lemma TwoAnswersTwoTables(s: System) returns (events: seq<AuditEvent>, events': seq<AuditEvent>)
    requires !AnsweredOnce(s)
    ensures AllEmitted(s, events) && SameMembers(events, events') && AfterSql(events) != AfterSql(events')
  {
    var e, f :| e in s.decided && f in s.decided && e.decision.correlationId == f.decision.correlationId && e != f;
    events := [DecisionRecorded(e), DecisionRecorded(f)];
    events' := [DecisionRecorded(f), DecisionRecorded(e)];
    assert events'[0] in events' && events'[1] in events' && events[0] in events && events[1] in events;
    SqlKeepsLastDecision(e, f);
    SqlKeepsLastDecision(f, e);
    var id := e.decision.correlationId;
    assert AfterSql(events)[id] == AfterSql(events')[id] ==> e.invoice == f.invoice && e.decision == f.decision;
  }

  // In every run: any two ways of delivering the same events to Audit (any order, any redelivery, the
  // dictionary or the database) end in one table if and only if no submission was answered in two ways.
  lemma AuditIgnoresDeliveryIffAnsweredOnce(moves: seq<Move>, thresholds: Router.AutonomyThresholds)
    ensures var s := Choreography.Run(EmptySystem, moves, thresholds);
            (forall events, events' | AllEmitted(s, events)
                && SameMembers(events, events') :: OneTable(events, events'))
            <==> AnsweredOnce(s)
  {
    var s := Choreography.Run(EmptySystem, moves, thresholds);
    RunKeepsInv(EmptySystem, moves, thresholds);
    if AnsweredOnce(s) {
      forall events, events' | AllEmitted(s, events) && SameMembers(events, events') ensures OneTable(events, events') {
        EmittedConsistent(s, events, thresholds);
        OrderAndRedeliveryDoNotMatter(events, events');
      }
    } else {
      var events, events' := TwoAnswersTwoTables(s);
      assert !OneTable(events, events');
    }
  }

  // ---- The base fields -----------------------------------------------------------------------------

  // All events of a tracking id would write the same base fields.
  ghost predicate BaseFieldsAgree(s: System, id: string) {
    forall e, f | Emitted(s, e) && Emitted(s, f) && EventId(e) == id && EventId(f) == id ::
      BaseRow(EventInvoice(e), EventDecision(e)) == BaseRow(EventInvoice(f), EventDecision(f))
  }

  predicate DecisionsAgree(s: System, id: string) {
    forall e, f | e in s.decided && f in s.decided && e.decision.correlationId == id
        && f.decision.correlationId == id ::
      e.decision == f.decision
  }

  lemma EmittedCarriesSubmission(s: System, e: AuditEvent, thresholds: Router.AutonomyThresholds)
    returns (d: DecisionCompletedEvent)
    requires Choreography.Inv(s, thresholds) && Emitted(s, e)
    ensures EventId(e) in s.intake && EventInvoice(e) == s.intake[EventId(e)].submission.invoice
    ensures d in s.decided && d.decision == EventDecision(e)
  {
    EmittedWasDecided(s, e, thresholds);
    d :| d in s.decided && d.invoice == EventInvoice(e) && d.decision == EventDecision(e);
    assert DecidedOk(s, d, thresholds);
  }

  lemma SameDecisionSameBase(s: System, e: AuditEvent, f: AuditEvent, thresholds: Router.AutonomyThresholds)
    requires Choreography.Inv(s, thresholds) && Emitted(s, e) && Emitted(s, f) && EventId(e) == EventId(f)
    requires DecisionsAgree(s, EventId(e))
    ensures BaseRow(EventInvoice(e), EventDecision(e)) == BaseRow(EventInvoice(f), EventDecision(f))
  {
    var d := EmittedCarriesSubmission(s, e, thresholds);
    var d' := EmittedCarriesSubmission(s, f, thresholds);
  }

  lemma SameBaseSameDecision(s: System, e: DecisionCompletedEvent, f: DecisionCompletedEvent, id: string)
    requires BaseFieldsAgree(s, id) && e in s.decided && f in s.decided
    requires e.decision.correlationId == id && f.decision.correlationId == id
    ensures e.decision == f.decision
  {
    assert Emitted(s, DecisionRecorded(e)) && Emitted(s, DecisionRecorded(f));
    assert BaseRow(e.invoice, e.decision) == BaseRow(f.invoice, f.decision);
  }

  // A later event of a tracking id rewrites the base fields with what they are, if and only if all
  // decisions sent for it are the same decision (their recommendations may differ).
  lemma BaseFieldsAgreeIffDecisionsDo(moves: seq<Move>, thresholds: Router.AutonomyThresholds, id: string)
    ensures var s := Choreography.Run(EmptySystem, moves, thresholds);
            BaseFieldsAgree(s, id) <==> DecisionsAgree(s, id)
  {
    var s := Choreography.Run(EmptySystem, moves, thresholds);
    RunKeepsInv(EmptySystem, moves, thresholds);
    if DecisionsAgree(s, id) {
      forall e, f | Emitted(s, e) && Emitted(s, f) && EventId(e) == id && EventId(f) == id
        ensures BaseRow(EventInvoice(e), EventDecision(e)) == BaseRow(EventInvoice(f), EventDecision(f))
      {
        SameDecisionSameBase(s, e, f, thresholds);
      }
    }
    if BaseFieldsAgree(s, id) {
      forall e, f | e in s.decided && f in s.decided && e.decision.correlationId == id && f.decision.correlationId == id
        ensures e.decision == f.decision
      {
        SameBaseSameDecision(s, e, f, id);
      }
    }
  }

  // ---- Where the two stores differ -----------------------------------------------------------------

  function Answer(invoice: Invoice, id: string, recommendation: Option<Recommendation>,
          thresholds: Router.AutonomyThresholds): DecisionCompletedEvent {
    var (route, rules) := Router.RouteOf(invoice, recommendation, false, thresholds);
    DecisionCompletedEvent(invoice, Decision(route, "", rules, id), recommendation)
  }

  // For any invoice there is a run in which they do: the agent recommends, and when the submission is
  // delivered again it fails. The dictionary keeps the recommendation, the database forgets it.
  lemma StoresDifferOnARun(id: string, invoice: Invoice, recommendation: Recommendation,
          thresholds: Router.AutonomyThresholds)
    returns (moves: seq<Move>, events: seq<AuditEvent>)
    ensures AllEmitted(Choreography.Run(EmptySystem, moves, thresholds), events)
    ensures After(events) != AfterSql(events)
  {
    var submission := InvoiceSubmittedEvent(invoice, id);
    var given := Answer(invoice, id, Some(recommendation), thresholds);
    var failed := Answer(invoice, id, None, thresholds);
    var answers := [DecisionAnswers(submission, given), DecisionAnswers(submission, failed)];
    var begin := Announcement(id, invoice);
    AnnouncementIsSent(id, invoice, thresholds);
    AnswersAreSent(Choreography.Run(EmptySystem, begin, thresholds), submission, given, failed, thresholds);
    Choreography.RunAppend(EmptySystem, begin, answers, thresholds);
    moves := begin + answers;
    events := [DecisionRecorded(given), DecisionRecorded(failed)];
    assert WithdrawnAt(events, id, 0, 1);
    assert Withdrawn(events, id);
    StoresAgreeIffNoneWithdrawn(events);
  }
}

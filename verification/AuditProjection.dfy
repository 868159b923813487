// The audit read model: one row a tracking id, enriched by whichever event arrives
// (services/audit/repository.py, services/audit/postgres_repository.py). Timestamps are left out.
module AuditProjection {
  import opened Contracts

  datatype PaymentOutcome = PaymentOutcome(resolution: PaymentResolution, reason: string)

  // The four recommendation columns are always written together, and so are the two payment columns.
  datatype AuditTrail = AuditTrail(
    trackingId: string,
    invoiceNumber: string,
    vendor: string,
    department: string,
    category: Category,
    total: real,
    currency: string,
    invoice: Invoice,
    route: Route,
    decisionReason: string,
    triggeredRules: seq<string>,
    recommendation: Option<Recommendation>,
    approvalResolution: Option<ApprovalResolution>,
    payment: Option<PaymentOutcome>)

  type Table = map<string, AuditTrail>

  datatype AuditEvent =
    | DecisionRecorded(decided: DecisionCompletedEvent)
    | ApprovalRecorded(resolved: ApprovalCompletedEvent)
    | PaymentRecorded(paid: PaymentCompletedEvent)

  // The columns one upsert writes: the base columns always, the others only where present.
  datatype Fields = Fields(
    invoice: Invoice,
    decision: Decision,
    recommendation: Option<Recommendation>,
    approvalResolution: Option<ApprovalResolution>,
    payment: Option<PaymentOutcome>)

  function EventInvoice(e: AuditEvent): Invoice {
    match e
    case DecisionRecorded(d) => d.invoice
    case ApprovalRecorded(a) => a.invoice
    case PaymentRecorded(p) => p.invoice
  }

  function EventDecision(e: AuditEvent): Decision {
    match e
    case DecisionRecorded(d) => d.decision
    case ApprovalRecorded(a) => a.decision
    case PaymentRecorded(p) => p.decision
  }

  function EventId(e: AuditEvent): string { EventDecision(e).correlationId }

  function FieldsOf(e: AuditEvent): Fields {
    Fields(EventInvoice(e), EventDecision(e),
           if e.DecisionRecorded? then e.decided.recommendation else None,
           if e.ApprovalRecorded? then Some(e.resolved.resolution) else None,
           if e.PaymentRecorded? then Some(PaymentOutcome(e.paid.resolution, e.paid.reason)) else None)
  }

  function BaseRow(i: Invoice, d: Decision): AuditTrail {
    AuditTrail(d.correlationId, i.invoiceNumber, i.vendor, i.department, i.category, i.total, i.currency, i,
               d.route, d.reason, d.triggeredRules, None, None, None)
  }

  function Or<T>(written: Option<T>, kept: Option<T>): Option<T> {
    if written.Some? then written else kept
  }

  function Enrich(row: AuditTrail, f: Fields): AuditTrail {
    BaseRow(f.invoice, f.decision).(
      recommendation := Or(f.recommendation, row.recommendation),
      approvalResolution := Or(f.approvalResolution, row.approvalResolution),
      payment := Or(f.payment, row.payment))
  }

  function Merged(table: Table, id: string, f: Fields): AuditTrail {
    Enrich(if id in table then table[id] else BaseRow(f.invoice, f.decision), f)
  }

  function Upsert(table: Table, e: AuditEvent): Table {
    table[EventId(e) := Merged(table, EventId(e), FieldsOf(e))]
  }

  // The SQL upsert of a decision writes its recommendation columns even when they are NULL.
  function UpsertSql(table: Table, e: AuditEvent): Table {
    var row := Merged(table, EventId(e), FieldsOf(e));
    table[EventId(e) := if e.DecisionRecorded? then row.(recommendation := e.decided.recommendation) else row]
  }

  function After(events: seq<AuditEvent>): Table
    decreases |events|
  {
    if events == [] then map[] else Upsert(After(events[..|events| - 1]), events[|events| - 1])
  }

  function AfterSql(events: seq<AuditEvent>): Table
    decreases |events|
  {
    if events == [] then map[] else UpsertSql(AfterSql(events[..|events| - 1]), events[|events| - 1])
  }

  // ---- What a row says, whatever the events --------------------------------------------------------

  // The last of the events that are wanted, if there is one.
  ghost predicate LastOf(events: seq<AuditEvent>, last: Option<nat>, wanted: AuditEvent -> bool) {
    && (last.Some? ==> last.value < |events| && wanted(events[last.value]))
    && forall i | 0 <= i < |events| && wanted(events[i]) :: last.Some? && i <= last.value
  }

  function OneMore(before: seq<AuditEvent>, e: AuditEvent, last: Option<nat>, wanted: AuditEvent -> bool): Option<nat> {
    if wanted(e) then Some(|before|) else last
  }

  lemma LastOfSnoc(before: seq<AuditEvent>, e: AuditEvent, last: Option<nat>, wanted: AuditEvent -> bool)
    requires LastOf(before, last, wanted)
    ensures LastOf(before + [e], OneMore(before, e, last, wanted), wanted)
  {
    forall i | 0 <= i < |before + [e]| && wanted((before + [e])[i])
      ensures OneMore(before, e, last, wanted).Some? && i <= OneMore(before, e, last, wanted).value
    {
      assert i < |before| ==> wanted(before[i]);
    }
  }

  function About(id: string): AuditEvent -> bool { e => EventId(e) == id }
  function Recommends(id: string): AuditEvent -> bool {
    e => EventId(e) == id && e.DecisionRecorded? && e.decided.recommendation.Some?
  }
  function Resolves(id: string): AuditEvent -> bool { e => EventId(e) == id && e.ApprovalRecorded? }
  function Pays(id: string): AuditEvent -> bool { e => EventId(e) == id && e.PaymentRecorded? }

  // The columns every upsert writes.
  predicate ShowsBase(row: AuditTrail, invoice: Invoice, decision: Decision) {
    && row.trackingId == decision.correlationId && row.route == decision.route
    && row.decisionReason == decision.reason && row.triggeredRules == decision.triggeredRules
    && row.invoice == invoice && row.invoiceNumber == invoice.invoiceNumber && row.vendor == invoice.vendor
    && row.department == invoice.department && row.category == invoice.category
    && row.total == invoice.total && row.currency == invoice.currency
  }

  // What one upsert does to the row of a tracking id.
  lemma UpsertWrites(table: Table, e: AuditEvent, id: string)
    ensures var after := Upsert(table, e);
            && (id in after <==> id in table || EventId(e) == id)
            && (id in table && EventId(e) != id ==> after[id] == table[id])
            && (EventId(e) == id ==>
                  && ShowsBase(after[id], EventInvoice(e), EventDecision(e))
                  && after[id].recommendation == (if Recommends(id)(e) then e.decided.recommendation
                      else if id in table then table[id].recommendation else None)
                  && after[id].approvalResolution == (if Resolves(id)(e) then Some(e.resolved.resolution)
                      else if id in table then table[id].approvalResolution else None)
                  && after[id].payment == (if Pays(id)(e) then Some(PaymentOutcome(e.paid.resolution, e.paid.reason))
                      else if id in table then table[id].payment else None))
  {
  }

  // The events a row's columns come from.
  datatype Sources = Sources(base: Option<nat>, given: Option<nat>, resolved: Option<nat>, paid: Option<nat>)

  ghost predicate AreLast(events: seq<AuditEvent>, from: Sources, id: string) {
    && LastOf(events, from.base, About(id)) && LastOf(events, from.given, Recommends(id))
    && LastOf(events, from.resolved, Resolves(id)) && LastOf(events, from.paid, Pays(id))
  }

  predicate ShowsOptions(row: AuditTrail, events: seq<AuditEvent>, from: Sources)
    requires from.given.Some? ==> from.given.value < |events| && events[from.given.value].DecisionRecorded?
    requires from.resolved.Some? ==> from.resolved.value < |events| && events[from.resolved.value].ApprovalRecorded?
    requires from.paid.Some? ==> from.paid.value < |events| && events[from.paid.value].PaymentRecorded?
  {
    && row.recommendation == (if from.given.None? then None else events[from.given.value].decided.recommendation)
    && row.approvalResolution
        == (if from.resolved.None? then None else Some(events[from.resolved.value].resolved.resolution))
    && row.payment
        == (if from.paid.None? then None
            else Some(PaymentOutcome(events[from.paid.value].paid.resolution, events[from.paid.value].paid.reason)))
  }

  ghost predicate ComesFrom(table: Table, events: seq<AuditEvent>, from: Sources, id: string) {
    && AreLast(events, from, id)
    && (id in table <==> from.base.Some?)
    && (from.base.None? ==> from == Sources(None, None, None, None))
    && (from.base.Some? ==>
          && ShowsBase(table[id], EventInvoice(events[from.base.value]), EventDecision(events[from.base.value]))
          && ShowsOptions(table[id], events, from))
  }

  lemma {:induction false} ComesFromNext(table: Table, before: seq<AuditEvent>, last: AuditEvent, from: Sources,
          id: string)
    requires ComesFrom(table, before, from, id)
    ensures ComesFrom(Upsert(table, last), before + [last],
                      Sources(OneMore(before, last, from.base, About(id)),
                              OneMore(before, last, from.given, Recommends(id)),
                              OneMore(before, last, from.resolved, Resolves(id)),
                              OneMore(before, last, from.paid, Pays(id))), id)
  {
    LastOfSnoc(before, last, from.base, About(id));
    LastOfSnoc(before, last, from.given, Recommends(id));
    LastOfSnoc(before, last, from.resolved, Resolves(id));
    LastOfSnoc(before, last, from.paid, Pays(id));
    UpsertWrites(table, last, id);
  }

  lemma {:induction false} RowComesFrom(events: seq<AuditEvent>, id: string) returns (from: Sources)
    ensures ComesFrom(After(events), events, from, id)
    decreases |events|
  {
    from := Sources(None, None, None, None);
    if events != [] {
      var before, last := events[..|events| - 1], events[|events| - 1];
      assert events == before + [last];
      from := RowComesFrom(before, id);
      ComesFromNext(After(before), before, last, from, id);
      from := Sources(OneMore(before, last, from.base, About(id)), OneMore(before, last, from.given, Recommends(id)),
                      OneMore(before, last, from.resolved, Resolves(id)), OneMore(before, last, from.paid, Pays(id)));
    }
  }

  // In every sequence of events: there is a row exactly for the tracking ids some event is about. Its
  // base columns are the own fields of the last such event's invoice and decision; its recommendation
  // is the last one given, its resolution the last approval's, its payment columns the last payment's.
  lemma RowSaysLastEvents(events: seq<AuditEvent>, id: string)
    returns (base: Option<nat>, given: Option<nat>, resolved: Option<nat>, paid: Option<nat>)
    ensures LastOf(events, base, e => EventId(e) == id)
    ensures LastOf(events, given, e => EventId(e) == id && e.DecisionRecorded? && e.decided.recommendation.Some?)
    ensures LastOf(events, resolved, e => EventId(e) == id && e.ApprovalRecorded?)
    ensures LastOf(events, paid, e => EventId(e) == id && e.PaymentRecorded?)
    ensures id in After(events) <==> base.Some?
    ensures base.Some? ==>
              var row, invoice := After(events)[id], EventInvoice(events[base.value]);
              var decision := EventDecision(events[base.value]);
              && row.trackingId == id == decision.correlationId
              && row.invoiceNumber == invoice.invoiceNumber && row.vendor == invoice.vendor
              && row.department == invoice.department && row.category == invoice.category
              && row.total == invoice.total && row.currency == invoice.currency && row.invoice == invoice
              && row.route == decision.route && row.decisionReason == decision.reason
              && row.triggeredRules == decision.triggeredRules
              && row.recommendation == (if given.None? then None else events[given.value].decided.recommendation)
              && row.approvalResolution
                  == (if resolved.None? then None else Some(events[resolved.value].resolved.resolution))
              && row.payment
                  == (if paid.None? then None
                      else Some(PaymentOutcome(events[paid.value].paid.resolution, events[paid.value].paid.reason)))
  {
    var from := RowComesFrom(events, id);
    base, given, resolved, paid := from.base, from.given, from.resolved, from.paid;
  }

  // ---- What a table says about the events behind it ------------------------------------------------

  // Events of one tracking id carry one invoice and one decision, and those of one kind are equal.
  ghost predicate Consistent(events: seq<AuditEvent>) {
    forall e, f | e in events && f in events && EventId(e) == EventId(f) :: Agree(e, f)
  }

  predicate Agree(e: AuditEvent, f: AuditEvent) {
    && EventInvoice(e) == EventInvoice(f) && EventDecision(e) == EventDecision(f)
    && (e.DecisionRecorded? && f.DecisionRecorded? ==> e == f)
    && (e.ApprovalRecorded? && f.ApprovalRecorded? ==> e == f)
    && (e.PaymentRecorded? && f.PaymentRecorded? ==> e == f)
  }

  predicate Mentions(events: seq<AuditEvent>, id: string) {
    exists e <- events :: EventId(e) == id
  }

  predicate Shows(row: AuditTrail, e: AuditEvent) {
    && row.(recommendation := None, approvalResolution := None, payment := None)
        == BaseRow(EventInvoice(e), EventDecision(e))
    && match e
       case DecisionRecorded(d) => row.recommendation == d.recommendation
       case ApprovalRecorded(a) => row.approvalResolution == Some(a.resolution)
       case PaymentRecorded(p) => row.payment == Some(PaymentOutcome(p.resolution, p.reason))
  }

  // A row shows all events of its tracking id, and nothing that no event said.
  predicate RowDescribed(row: AuditTrail, id: string, events: seq<AuditEvent>) {
    && (forall e <- events | EventId(e) == id :: Shows(row, e))
    && (row.recommendation.Some? ==> exists e <- events :: EventId(e) == id && e.DecisionRecorded?)
    && (row.approvalResolution.Some? ==> exists e <- events :: EventId(e) == id && e.ApprovalRecorded?)
    && (row.payment.Some? ==> exists e <- events :: EventId(e) == id && e.PaymentRecorded?)
  }

  ghost predicate Describes(table: Table, events: seq<AuditEvent>) {
    && (forall id: string :: id in table <==> Mentions(events, id))
    && (forall id <- table :: RowDescribed(table[id], id, events))
  }

  lemma MentionsSnoc(before: seq<AuditEvent>, last: AuditEvent, id: string)
    ensures Mentions(before + [last], id) <==> Mentions(before, id) || EventId(last) == id
  {
    if Mentions(before, id) {
      var e :| e in before && EventId(e) == id;
      assert e in before + [last];
    }
    assert last in before + [last];
  }

  // One more event, in either store, keeps the description.
  lemma {:induction false} UpsertDescribes(table: Table, before: seq<AuditEvent>, last: AuditEvent)
    requires Describes(table, before) && Consistent(before + [last])
    ensures Describes(Upsert(table, last), before + [last])
    ensures UpsertSql(table, last) == Upsert(table, last)
  {
    var events := before + [last];
    var after := Upsert(table, last);
    var target := EventId(last);
    forall id: string ensures id in after <==> Mentions(events, id) {
      MentionsSnoc(before, last, id);
    }
    assert last in events;
    assert forall e <- before :: e in events;
    RowGrows(table, before, last);
    SqlKeepsRow(table, before, last);
    forall id <- after ensures RowDescribed(after[id], id, events) {
      if id != target {
        assert RowDescribed(table[id], id, before);
        assert forall e <- events | EventId(e) == id :: e in before;
      }
    }
  }

  // Writing an event into a row that shows it not to conflict shows both.
  lemma EnrichShows(row: AuditTrail, last: AuditEvent, e: AuditEvent)
    requires EventId(e) == EventId(last) && Agree(e, last)
    requires e == last || Shows(row, e)
    requires last.DecisionRecorded? && row.recommendation.Some? ==> row.recommendation == last.decided.recommendation
    ensures Shows(Enrich(row, FieldsOf(last)), e)
  {
  }

  lemma RowGrows(table: Table, before: seq<AuditEvent>, last: AuditEvent)
    requires Describes(table, before) && Consistent(before + [last])
    ensures RowDescribed(Upsert(table, last)[EventId(last)], EventId(last), before + [last])
  {
    var events := before + [last];
    var id := EventId(last);
    var row := if id in table then table[id] else BaseRow(EventInvoice(last), EventDecision(last));
    assert last in events && forall e <- before :: e in events;
    SqlKeepsRow(table, before, last);
    assert id in table ==> RowDescribed(table[id], id, before);
    assert id !in table ==> !Mentions(before, id);
    forall e <- events | EventId(e) == id ensures Shows(Enrich(row, FieldsOf(last)), e) {
      assert Agree(e, last);
      EnrichShows(row, last, e);
    }
  }

  lemma SqlKeepsRow(table: Table, before: seq<AuditEvent>, last: AuditEvent)
    requires Describes(table, before) && Consistent(before + [last])
    ensures UpsertSql(table, last) == Upsert(table, last)
    ensures last.DecisionRecorded? && EventId(last) in table && table[EventId(last)].recommendation.Some? ==>
              table[EventId(last)].recommendation == last.decided.recommendation
  {
    var id := EventId(last);
    if last.DecisionRecorded? && id in table && table[id].recommendation.Some? {
      assert RowDescribed(table[id], id, before);
      var e :| e in before && EventId(e) == id && e.DecisionRecorded?;
      assert e in before + [last] && last in before + [last];
      assert Agree(e, last) && Shows(table[id], e);
    }
  }

  lemma {:induction false} RunDescribes(events: seq<AuditEvent>)
    requires Consistent(events)
    ensures Describes(After(events), events)
    ensures AfterSql(events) == After(events)
    decreases |events|
  {
    if events != [] {
      var before, last := events[..|events| - 1], events[|events| - 1];
      assert events == before + [last];
      assert forall e <- before :: e in events;
      RunDescribes(before);
      UpsertDescribes(After(before), before, last);
    }
  }

  lemma RowDescribedOnce(row: AuditTrail, events: seq<AuditEvent>, row': AuditTrail, events': seq<AuditEvent>,
          id: string)
    requires RowDescribed(row, id, events) && RowDescribed(row', id, events') && Mentions(events, id)
    requires forall e :: e in events <==> e in events'
    ensures row == row'
  {
    var e :| e in events && EventId(e) == id;
    assert Shows(row, e) && Shows(row', e);
    assert row.recommendation == row'.recommendation;
    assert row.approvalResolution == row'.approvalResolution;
    assert row.payment == row'.payment;
  }

  // The events decide the table: two tables that show the same events are equal.
  lemma DescribedOnce(table: Table, events: seq<AuditEvent>, table': Table, events': seq<AuditEvent>)
    requires Describes(table, events) && Describes(table', events')
    requires forall e :: e in events <==> e in events'
    ensures table == table'
  {
    forall id: string ensures id in table <==> id in table' {
      assert Mentions(events, id) <==> Mentions(events', id);
    }
    forall id <- table ensures table[id] == table'[id] {
      RowDescribedOnce(table[id], events, table'[id], events', id);
    }
  }

  // The final table depends only on which events arrived: not on their order, not on how often each
  // was redelivered, and not on which of the two stores keeps it.
  lemma {:induction false} OrderAndRedeliveryDoNotMatter(events: seq<AuditEvent>, events': seq<AuditEvent>)
    requires Consistent(events)
    requires forall e :: e in events <==> e in events'
    ensures After(events) == After(events') == AfterSql(events) == AfterSql(events')
  {
    RunDescribes(events);
    RunDescribes(events');
    DescribedOnce(After(events), events, After(events'), events');
  }

  // ---- Without consistency -------------------------------------------------------------------------

  predicate Gives(e: AuditEvent, id: string) {
    e.DecisionRecorded? && EventId(e) == id && e.decided.recommendation.Some?
  }

  predicate Withholds(e: AuditEvent, id: string) {
    e.DecisionRecorded? && EventId(e) == id && e.decided.recommendation.None?
  }

  // A recommendation was given, a later decision came without one, and none was given after that.
  predicate WithdrawnAt(events: seq<AuditEvent>, id: string, i: nat, j: nat) {
    && i < j < |events| && Gives(events[i], id) && Withholds(events[j], id)
    && forall k | j < k < |events| :: !Gives(events[k], id)
  }

  ghost predicate Withdrawn(events: seq<AuditEvent>, id: string) {
    exists i: nat, j: nat :: WithdrawnAt(events, id, i, j)
  }

  function KeptBy(table: Table, id: string): Option<Recommendation> {
    if id in table then table[id].recommendation else None
  }

  lemma {:induction false} StoresDifferOnlyInRecommendations(events: seq<AuditEvent>)
    ensures After(events).Keys == AfterSql(events).Keys
    ensures forall id <- After(events) ::
              AfterSql(events)[id] == After(events)[id].(recommendation := KeptBy(AfterSql(events), id))
    decreases |events|
  {
    if events != [] {
      StoresDifferOnlyInRecommendations(events[..|events| - 1]);
    }
  }

  lemma {:induction false} KeptIfGiven(events: seq<AuditEvent>, id: string)
    ensures KeptBy(After(events), id).Some? <==> exists e <- events :: Gives(e, id)
    decreases |events|
  {
    if events != [] {
      var before, last := events[..|events| - 1], events[|events| - 1];
      KeptIfGiven(before, id);
      assert events == before + [last];
      assert (exists e <- events :: Gives(e, id)) <==> (exists e <- before :: Gives(e, id)) || Gives(last, id);
    }
  }

  lemma WithdrawnGrows(before: seq<AuditEvent>, last: AuditEvent, id: string)
    requires Withdrawn(before, id) && !Gives(last, id)
    ensures Withdrawn(before + [last], id)
  {
    var i: nat, j: nat :| WithdrawnAt(before, id, i, j);
    assert WithdrawnAt(before + [last], id, i, j);
  }

  lemma WithdrawnNow(before: seq<AuditEvent>, last: AuditEvent, id: string)
    requires Withholds(last, id) && exists e <- before :: Gives(e, id)
    ensures Withdrawn(before + [last], id)
  {
    var e :| e in before && Gives(e, id);
    var i: nat :| i < |before| && before[i] == e;
    assert WithdrawnAt(before + [last], id, i, |before|);
  }

  lemma WithdrawnSnoc(before: seq<AuditEvent>, last: AuditEvent, id: string)
    ensures Withdrawn(before + [last], id) <==>
              || (Withholds(last, id) && exists e <- before :: Gives(e, id))
              || (Withdrawn(before, id) && !Gives(last, id))
  {
    var events := before + [last];
    if i: nat, j: nat :| WithdrawnAt(events, id, i, j) {
      assert before[i] == events[i] && before[i] in before;
      if j < |before| {
        assert !Gives(events[|before|], id);
        assert forall k | j < k < |before| :: before[k] == events[k];
        assert WithdrawnAt(before, id, i, j);
      }
    }
    if Withdrawn(before, id) && !Gives(last, id) {
      WithdrawnGrows(before, last, id);
    }
    if Withholds(last, id) && exists e <- before :: Gives(e, id) {
      WithdrawnNow(before, last, id);
    }
  }

  lemma {:induction false} KeptDiffersIffWithdrawn(events: seq<AuditEvent>, id: string)
    ensures KeptBy(After(events), id) != KeptBy(AfterSql(events), id) <==> Withdrawn(events, id)
    ensures Withdrawn(events, id) ==> KeptBy(AfterSql(events), id).None?
    decreases |events|
  {
    if events != [] {
      var before, last := events[..|events| - 1], events[|events| - 1];
      assert events == before + [last];
      KeptDiffersIffWithdrawn(before, id);
      KeptIfGiven(before, id);
      WithdrawnSnoc(before, last, id);
      StoresDifferOnlyInRecommendations(before);
    }
  }

  // For every sequence of events, consistent or not, the two stores hold the same table exactly if no
  // tracking id had a recommendation withdrawn; where it had, the dictionary keeps the old one and
  // the database forgets it.
  lemma StoresAgreeIffNoneWithdrawn(events: seq<AuditEvent>)
    ensures After(events) == AfterSql(events) <==> forall id: string :: !Withdrawn(events, id)
  {
    StoresDifferOnlyInRecommendations(events);
    forall id: string ensures KeptBy(After(events), id) != KeptBy(AfterSql(events), id) <==> Withdrawn(events, id) {
      KeptDiffersIffWithdrawn(events, id);
    }
    if forall id: string :: !Withdrawn(events, id) {
      forall id <- After(events) ensures After(events)[id] == AfterSql(events)[id] {
        assert !Withdrawn(events, id);
      }
    }
  }

  // Two decisions for one tracking id commute exactly if they say the same of the invoice and of the
  // decision, and do not give two different recommendations.
  lemma DecisionsCommuteIff(a: DecisionCompletedEvent, b: DecisionCompletedEvent)
    requires a.decision.correlationId == b.decision.correlationId
    ensures After([DecisionRecorded(a), DecisionRecorded(b)]) == After([DecisionRecorded(b), DecisionRecorded(a)])
       <==> BaseRow(a.invoice, a.decision) == BaseRow(b.invoice, b.decision)
            && (a.recommendation.Some? && b.recommendation.Some? ==> a.recommendation == b.recommendation)
  {
    AfterTwo(DecisionRecorded(a), DecisionRecorded(b));
    AfterTwo(DecisionRecorded(b), DecisionRecorded(a));
    var id := a.decision.correlationId;
    var ab := After([DecisionRecorded(a), DecisionRecorded(b)]);
    var ba := After([DecisionRecorded(b), DecisionRecorded(a)]);
    assert ab.Keys == {id} == ba.Keys;
    assert ab == ba <==> ab[id] == ba[id];
  }

  lemma AfterTwo(first: AuditEvent, second: AuditEvent)
    ensures After([first, second]) == Upsert(Upsert(map[], first), second)
  {
    assert [first, second][..1] == [first] && [first][..0] == [];
    assert After([first]) == Upsert(After([]), first);
  }
}

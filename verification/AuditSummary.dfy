// The dashboard: rows are grouped by the repository and the groups are summed by the service
// (services/audit/repository.py, services/audit/service.py).
module AuditSummary {
  import opened Contracts
  import opened AuditProjection

  datatype Key = Key(route: Route, currency: string, resolution: Option<ApprovalResolution>)

  datatype Bucket = Bucket(key: Key, count: nat, total: real)

  // ---- Counting rows and counting groups -----------------------------------------------------------

  function CountRows(rows: seq<AuditTrail>, wanted: AuditTrail -> bool): nat
    decreases |rows|
  {
    if rows == [] then 0
    else CountRows(rows[..|rows| - 1], wanted) + if wanted(rows[|rows| - 1]) then 1 else 0
  }

  function TotalRows(rows: seq<AuditTrail>, wanted: AuditTrail -> bool): real
    decreases |rows|
  {
    if rows == [] then 0.0
    else TotalRows(rows[..|rows| - 1], wanted) + if wanted(rows[|rows| - 1]) then rows[|rows| - 1].total else 0.0
  }

  function SumCounts(buckets: seq<Bucket>, wanted: Key -> bool): nat
    decreases |buckets|
  {
    if buckets == [] then 0
    else SumCounts(buckets[..|buckets| - 1], wanted)
         + if wanted(buckets[|buckets| - 1].key) then buckets[|buckets| - 1].count else 0
  }

  function SumTotals(buckets: seq<Bucket>, wanted: Key -> bool): real
    decreases |buckets|
  {
    if buckets == [] then 0.0
    else SumTotals(buckets[..|buckets| - 1], wanted)
         + if wanted(buckets[|buckets| - 1].key) then buckets[|buckets| - 1].total else 0.0
  }

  // The rows the dashboard is about.
  function Every(): AuditTrail -> bool { (row: AuditTrail) => true }
  function Routed(route: Route): AuditTrail -> bool { (row: AuditTrail) => row.route == route }
  function AutoIn(currency: string): AuditTrail -> bool {
    (row: AuditTrail) => row.route == AutoApprove && row.currency == currency
  }
  function ApprovedIn(currency: string): AuditTrail -> bool {
    (row: AuditTrail) =>
      row.route == HumanReview && row.approvalResolution == Some(ApprovalApproved) && row.currency == currency
  }

  // The same of groups.
  function EveryKey(): Key -> bool { (k: Key) => true }
  function RoutedKey(route: Route): Key -> bool { (k: Key) => k.route == route }
  function AutoKey(currency: string): Key -> bool { (k: Key) => k.route == AutoApprove && k.currency == currency }
  function ApprovedKey(currency: string): Key -> bool {
    (k: Key) => k.route == HumanReview && k.resolution == Some(ApprovalApproved) && k.currency == currency
  }

  // The rows of one group.
  function Under(key: Key): AuditTrail -> bool {
    (row: AuditTrail) =>
      row.route == key.route && row.currency == key.currency && row.approvalResolution == key.resolution
  }

  // What is asked of a row, asked of its group.
  ghost predicate Matches(wanted: AuditTrail -> bool, keys: Key -> bool) {
    forall key: Key, row: AuditTrail | Under(key)(row) :: wanted(row) <==> keys(key)
  }

  // What GROUP BY promises, in any order: one group for each route, currency and resolution that some row
  // has, each with its rows' count and total.
  ghost predicate Groups(buckets: seq<Bucket>, rows: seq<AuditTrail>) {
    && (forall i, j | 0 <= i < j < |buckets| :: buckets[i].key != buckets[j].key)
    && (forall b <- buckets ::
          && b.count > 0
          && b.count == CountRows(rows, Under(b.key))
          && b.total == TotalRows(rows, Under(b.key)))
    && (forall row <- rows :: exists b <- buckets :: Under(b.key)(row))
  }

  // Counting and adding up is by the row: nothing for none, one row's one and its total if it is wanted,
  // and of two lists together what the two give.
  lemma {:induction false} RowsAddUp(rows: seq<AuditTrail>, more: seq<AuditTrail>, row: AuditTrail,
          wanted: AuditTrail -> bool)
    ensures CountRows([], wanted) == 0 && TotalRows([], wanted) == 0.0
    ensures CountRows([row], wanted) == if wanted(row) then 1 else 0
    ensures TotalRows([row], wanted) == if wanted(row) then row.total else 0.0
    ensures CountRows(rows + more, wanted) == CountRows(rows, wanted) + CountRows(more, wanted)
    ensures TotalRows(rows + more, wanted) == TotalRows(rows, wanted) + TotalRows(more, wanted)
    decreases |more|
  {
    assert [row][..0] == [];
    if more == [] {
      assert rows + more == rows;
    } else {
      assert (rows + more)[..|rows + more| - 1] == rows + more[..|more| - 1];
      RowsAddUp(rows, more[..|more| - 1], row, wanted);
    }
  }

  lemma {:induction false} SameRows(rows: seq<AuditTrail>, wanted: AuditTrail -> bool, wanted': AuditTrail -> bool)
    requires forall row <- rows :: wanted(row) <==> wanted'(row)
    ensures CountRows(rows, wanted) == CountRows(rows, wanted')
    ensures TotalRows(rows, wanted) == TotalRows(rows, wanted')
    decreases |rows|
  {
    if rows != [] {
      SameRows(rows[..|rows| - 1], wanted, wanted');
    }
  }

  function Others(rows: seq<AuditTrail>, key: Key): seq<AuditTrail>
    decreases |rows|
  {
    if rows == [] then []
    else Others(rows[..|rows| - 1], key) + if Under(key)(rows[|rows| - 1]) then [] else [rows[|rows| - 1]]
  }

  lemma OthersSnoc(rows: seq<AuditTrail>, key: Key, wanted: AuditTrail -> bool)
    requires rows != [] && !Under(key)(rows[|rows| - 1])
    ensures var last := rows[|rows| - 1];
            var before := Others(rows[..|rows| - 1], key);
            && CountRows(Others(rows, key), wanted)
                == CountRows(before, wanted) + (if wanted(last) then 1 else 0)
            && TotalRows(Others(rows, key), wanted)
                == TotalRows(before, wanted) + (if wanted(last) then last.total else 0.0)
  {
    assert Others(rows, key)[..|Others(rows, key)| - 1] == Others(rows[..|rows| - 1], key);
  }

  // Setting one group's rows aside takes exactly that group out of every count and total.
  lemma {:induction false} OthersCount(rows: seq<AuditTrail>, key: Key, wanted: AuditTrail -> bool, keys: Key -> bool)
    requires Matches(wanted, keys)
    ensures CountRows(rows, wanted)
         == CountRows(Others(rows, key), wanted) + if keys(key) then CountRows(rows, Under(key)) else 0
    ensures TotalRows(rows, wanted)
         == TotalRows(Others(rows, key), wanted) + if keys(key) then TotalRows(rows, Under(key)) else 0.0
    decreases |rows|
  {
    if rows != [] {
      OthersCount(rows[..|rows| - 1], key, wanted, keys);
      if !Under(key)(rows[|rows| - 1]) {
        OthersSnoc(rows, key, wanted);
      } else {
        assert Others(rows, key) == Others(rows[..|rows| - 1], key);
      }
    }
  }

  lemma {:induction false} OthersMember(rows: seq<AuditTrail>, key: Key, row: AuditTrail)
    ensures row in Others(rows, key) <==> row in rows && !Under(key)(row)
    decreases |rows|
  {
    if rows != [] {
      var before, last := rows[..|rows| - 1], rows[|rows| - 1];
      OthersMember(before, key, row);
      assert row in rows <==> row in before || row == last by {
        assert rows == before + [last];
      }
    }
  }

  lemma UnderMatches(key: Key)
    ensures Matches(Under(key), (k: Key) => k == key)
  {
  }

  lemma GroupsWithoutLast(buckets: seq<Bucket>, rows: seq<AuditTrail>)
    requires Groups(buckets, rows) && buckets != []
    ensures Groups(buckets[..|buckets| - 1], Others(rows, buckets[|buckets| - 1].key))
  {
    var before, key := buckets[..|buckets| - 1], buckets[|buckets| - 1].key;
    var others := Others(rows, key);
    forall b <- before
      ensures b.count == CountRows(others, Under(b.key)) && b.total == TotalRows(others, Under(b.key))
    {
      assert b in buckets && b.key != key;
      UnderMatches(b.key);
      OthersCount(rows, key, Under(b.key), (k: Key) => k == b.key);
    }
    forall row <- others ensures exists b <- before :: Under(b.key)(row) {
      OthersMember(rows, key, row);
      var b :| b in buckets && Under(b.key)(row);
      assert buckets == before + [buckets[|buckets| - 1]];
      assert b in before;
    }
  }

  // However the rows were grouped, summing the groups is summing the rows.
  lemma {:induction false} GroupingIsExact(buckets: seq<Bucket>, rows: seq<AuditTrail>, wanted: AuditTrail -> bool,
          keys: Key -> bool)
    requires Groups(buckets, rows) && Matches(wanted, keys)
    ensures SumCounts(buckets, keys) == CountRows(rows, wanted)
    ensures SumTotals(buckets, keys) == TotalRows(rows, wanted)
    decreases |buckets|
  {
    assert rows == [] || rows[0] in rows;
    if buckets != [] {
      var before, last := buckets[..|buckets| - 1], buckets[|buckets| - 1];
      GroupsWithoutLast(buckets, rows);
      GroupingIsExact(before, Others(rows, last.key), wanted, keys);
      OthersCount(rows, last.key, wanted, keys);
      assert last in buckets;
    }
  }

  lemma {:induction false} CountSome(rows: seq<AuditTrail>, wanted: AuditTrail -> bool)
    ensures CountRows(rows, wanted) > 0 <==> exists row <- rows :: wanted(row)
    decreases |rows|
  {
    if rows != [] {
      var before, last := rows[..|rows| - 1], rows[|rows| - 1];
      CountSome(before, wanted);
      assert rows == before + [last];
      assert (exists row <- rows :: wanted(row)) <==> (exists row <- before :: wanted(row)) || wanted(last);
    }
  }

  lemma {:induction false} CountAll(rows: seq<AuditTrail>)
    ensures CountRows(rows, Every()) == |rows|
    decreases |rows|
  {
    if rows != [] {
      CountAll(rows[..|rows| - 1]);
    }
  }

  // The four routes part the rows.
  lemma {:induction false} RoutesPart(rows: seq<AuditTrail>)
    ensures CountRows(rows, Routed(AutoApprove)) + CountRows(rows, Routed(HumanReview))
            + CountRows(rows, Routed(Reject)) + CountRows(rows, Routed(Duplicate)) == |rows|
    decreases |rows|
  {
    if rows != [] {
      RoutesPart(rows[..|rows| - 1]);
    }
  }

  // ---- The repository ------------------------------------------------------------------------------

  // `order` is the dictionary's own iteration order.
  function RowsOf(table: Table, order: seq<string>): seq<AuditTrail>
    requires forall id <- order :: id in table
  {
    seq(|order|, i requires 0 <= i < |order| => table[order[i]])
  }

  class InMemoryAuditRepository {
    var byTrackingId: Table
    var order: seq<string>

    constructor ()
      ensures Valid() && byTrackingId == map[]
    {
      byTrackingId, order := map[], [];
    }

    ghost predicate Valid()
      reads this
    {
      && (forall id :: id in order <==> id in byTrackingId)
      && (forall i, j | 0 <= i < j < |order| :: order[i] != order[j])
    }

    method Merge(trackingId: string, fields: Fields)
      requires Valid()
      modifies this
      ensures Valid()
      ensures byTrackingId == old(byTrackingId)[trackingId := Merged(old(byTrackingId), trackingId, fields)]
      ensures old(order) <= order
    {
      if trackingId in byTrackingId {
        byTrackingId := byTrackingId[trackingId := Enrich(byTrackingId[trackingId], fields)];
      } else {
        byTrackingId := byTrackingId[trackingId := Enrich(BaseRow(fields.invoice, fields.decision), fields)];
        order := order + [trackingId];
      }
    }

    method UpsertDecision(event: DecisionCompletedEvent)
      requires Valid()
      modifies this
      ensures Valid() && byTrackingId == Upsert(old(byTrackingId), DecisionRecorded(event))
      ensures var id, before := event.decision.correlationId, old(byTrackingId);
              && id in byTrackingId && byTrackingId == before[id := byTrackingId[id]]
              && ShowsBase(byTrackingId[id], event.invoice, event.decision)
              && byTrackingId[id].recommendation == (if event.recommendation.Some? then event.recommendation
                  else if id in before then before[id].recommendation else None)
              && byTrackingId[id].approvalResolution == (if id in before then before[id].approvalResolution else None)
              && byTrackingId[id].payment == (if id in before then before[id].payment else None)
    {
      var fields := Fields(event.invoice, event.decision, None, None, None);
      if event.recommendation.Some? {
        fields := fields.(recommendation := event.recommendation);
      }
      Merge(event.decision.correlationId, fields);
    }

    method UpsertApproval(event: ApprovalCompletedEvent)
      requires Valid()
      modifies this
      ensures Valid() && byTrackingId == Upsert(old(byTrackingId), ApprovalRecorded(event))
      ensures var id, before := event.decision.correlationId, old(byTrackingId);
              && id in byTrackingId && byTrackingId == before[id := byTrackingId[id]]
              && ShowsBase(byTrackingId[id], event.invoice, event.decision)
              && byTrackingId[id].recommendation == (if id in before then before[id].recommendation else None)
              && byTrackingId[id].approvalResolution == Some(event.resolution)
              && byTrackingId[id].payment == (if id in before then before[id].payment else None)
    {
      var fields := Fields(event.invoice, event.decision, None, Some(event.resolution), None);
      Merge(event.decision.correlationId, fields);
    }

    method UpsertPayment(event: PaymentCompletedEvent)
      requires Valid()
      modifies this
      ensures Valid() && byTrackingId == Upsert(old(byTrackingId), PaymentRecorded(event))
      ensures var id, before := event.decision.correlationId, old(byTrackingId);
              && id in byTrackingId && byTrackingId == before[id := byTrackingId[id]]
              && ShowsBase(byTrackingId[id], event.invoice, event.decision)
              && byTrackingId[id].recommendation == (if id in before then before[id].recommendation else None)
              && byTrackingId[id].approvalResolution == (if id in before then before[id].approvalResolution else None)
              && byTrackingId[id].payment == Some(PaymentOutcome(event.resolution, event.reason))
    {
      var fields := Fields(event.invoice, event.decision, None, None,
          Some(PaymentOutcome(event.resolution, event.reason)));
      Merge(event.decision.correlationId, fields);
    }

    function Values(): (rows: seq<AuditTrail>)
      requires Valid()
      reads this
      ensures |rows| == |order| && forall i | 0 <= i < |order| :: rows[i] == byTrackingId[order[i]]
    {
      RowsOf(byTrackingId, order)
    }

    method GetRouteSummary() returns (buckets: seq<Bucket>)
      requires Valid()
      ensures Groups(buckets, Values())
    {
      var grouped, keys := GroupRows(Values());
      buckets := [];
      for i := 0 to |keys|
        invariant |buckets| == i
        invariant forall j | 0 <= j < i :: buckets[j] == BucketOf(grouped, keys[j])
      {
        buckets := buckets + [BucketOf(grouped, keys[i])];
      }
      CollectedGroups(grouped, keys, Values(), buckets);
    }
  }

  method GroupRows(rows: seq<AuditTrail>) returns (grouped: map<Key, (nat, real)>, keys: seq<Key>)
    ensures Collected(grouped, keys, rows)
  {
    grouped, keys := map[], [];
    for i := 0 to |rows|
      invariant Collected(grouped, keys, rows[..i])
    {
      CollectNext(grouped, keys, rows, i);
      var trail := rows[i];
      var key := Key(trail.route, trail.currency, trail.approvalResolution);
      var (count, total) := if key in grouped then grouped[key] else (0, 0.0);
      keys := if key in grouped then keys else keys + [key];
      grouped := grouped[key := (count + 1, total + trail.total)];
    }
    assert rows[..|rows|] == rows;
  }

  function BucketOf(grouped: map<Key, (nat, real)>, key: Key): Bucket
    requires key in grouped
  {
    Bucket(key, grouped[key].0, grouped[key].1)
  }

  lemma CollectedGroups(grouped: map<Key, (nat, real)>, keys: seq<Key>, rows: seq<AuditTrail>, buckets: seq<Bucket>)
    requires Collected(grouped, keys, rows) && |buckets| == |keys|
    requires forall j | 0 <= j < |keys| :: buckets[j] == BucketOf(grouped, keys[j])
    ensures Groups(buckets, rows)
  {
    forall row <- rows ensures exists b <- buckets :: Under(b.key)(row) {
      var key :| key in grouped && Under(key)(row);
      var j :| 0 <= j < |keys| && keys[j] == key;
      assert buckets[j] in buckets;
    }
  }

  // The dictionary being filled, with its keys in the order in which they came.
  ghost predicate Collected(grouped: map<Key, (nat, real)>, keys: seq<Key>, rows: seq<AuditTrail>) {
    && (forall key :: key in keys <==> key in grouped)
    && (forall i, j | 0 <= i < j < |keys| :: keys[i] != keys[j])
    && (forall key <- grouped ::
          grouped[key].0 > 0 && grouped[key] == (CountRows(rows, Under(key)), TotalRows(rows, Under(key))))
    && (forall row <- rows :: exists key <- grouped :: Under(key)(row))
  }

  lemma Collect(grouped: map<Key, (nat, real)>, keys: seq<Key>, rows: seq<AuditTrail>, row: AuditTrail)
    requires Collected(grouped, keys, rows)
    ensures var key := Key(row.route, row.currency, row.approvalResolution);
            var (count, total) := if key in grouped then grouped[key] else (0, 0.0);
            Collected(grouped[key := (count + 1, total + row.total)], if key in grouped then keys
                else keys + [key], rows + [row])
  {
    var key := Key(row.route, row.currency, row.approvalResolution);
    var (count, total) := if key in grouped then grouped[key] else (0, 0.0);
    var grouped' := grouped[key := (count + 1, total + row.total)];
    assert (rows + [row])[..|rows|] == rows;
    if key !in grouped {
      NothingCollected(grouped, keys, rows, key);
    }
    forall r <- rows + [row] ensures exists k <- grouped' :: Under(k)(r) {
      if r in rows {
        var k :| k in grouped && Under(k)(r);
        assert k in grouped';
      } else {
        assert key in grouped' && Under(key)(r);
      }
    }
  }

  lemma CollectNext(grouped: map<Key, (nat, real)>, keys: seq<Key>, rows: seq<AuditTrail>, i: nat)
    requires i < |rows| && Collected(grouped, keys, rows[..i])
    ensures var key := Key(rows[i].route, rows[i].currency, rows[i].approvalResolution);
            var (count, total) := if key in grouped then grouped[key] else (0, 0.0);
            i + 1 <= |rows|
            && Collected(grouped[key := (count + 1, total + rows[i].total)], if key in grouped then keys
                else keys + [key], rows[..i + 1])
  {
    Collect(grouped, keys, rows[..i], rows[i]);
    assert rows[..i] + [rows[i]] == rows[..i + 1];
  }

  lemma NothingCollected(grouped: map<Key, (nat, real)>, keys: seq<Key>, rows: seq<AuditTrail>, key: Key)
    requires Collected(grouped, keys, rows) && key !in grouped
    ensures CountRows(rows, Under(key)) == 0 && TotalRows(rows, Under(key)) == 0.0
  {
    forall row <- rows ensures !Under(key)(row) {
      var k :| k in grouped && Under(k)(row);
    }
    NothingCounted(rows, Under(key));
  }

  lemma {:induction false} NothingCounted(rows: seq<AuditTrail>, wanted: AuditTrail -> bool)
    requires forall row <- rows :: !wanted(row)
    ensures CountRows(rows, wanted) == 0 && TotalRows(rows, wanted) == 0.0
    decreases |rows|
  {
    if rows != [] {
      NothingCounted(rows[..|rows| - 1], wanted);
    }
  }

  // ---- The service ---------------------------------------------------------------------------------

  datatype Dashboard = Dashboard(
    totalInvoices: nat,
    autoApprovedCount: nat,
    humanReviewCount: nat,
    autoApprovalRate: real,
    humanEscalationRate: real,
    moneyAutoApproved: map<string, real>,
    moneyHumanApproved: map<string, real>,
    countsByRoute: map<Route, nat>)

  // The money map lists exactly the currencies of the wanted rows, each with those rows' total.
  ghost predicate MoneyOf(money: map<string, real>, rows: seq<AuditTrail>, wanted: string -> (AuditTrail -> bool)) {
    && (forall currency :: currency in money <==> exists row <- rows :: wanted(currency)(row))
    && (forall currency <- money :: money[currency] == TotalRows(rows, wanted(currency)))
  }

  function Rate(count: nat, total: nat): real {
    if total != 0 then count as real / total as real else 0.0
  }

  lemma RateTimesTotal(count: nat, total: nat)
    requires count <= total
    ensures Rate(count, total) * total as real == count as real
  {
  }

  ghost predicate ReportsRates(d: Dashboard, rows: seq<AuditTrail>) {
    && d.totalInvoices == |rows|
    && d.autoApprovedCount == CountRows(rows, Routed(AutoApprove))
    && d.humanReviewCount == CountRows(rows, Routed(HumanReview))
    && d.autoApprovalRate == Rate(d.autoApprovedCount, |rows|)
    && d.humanEscalationRate == Rate(d.humanReviewCount, |rows|)
  }

  ghost predicate ReportsRoutes(counts: map<Route, nat>, rows: seq<AuditTrail>) {
    && (forall route :: route in counts <==> exists row <- rows :: row.route == route)
    && (forall route <- counts :: counts[route] == CountRows(rows, Routed(route)))
  }

  // The dashboard, stated on the rows alone.
  ghost predicate Reports(d: Dashboard, rows: seq<AuditTrail>) {
    && ReportsRates(d, rows)
    && ReportsRoutes(d.countsByRoute, rows)
    && MoneyOf(d.moneyAutoApproved, rows, AutoIn)
    && MoneyOf(d.moneyHumanApproved, rows, ApprovedIn)
  }

  // Read off the rows' own columns.
  lemma DashboardSays(d: Dashboard, rows: seq<AuditTrail>)
    requires Reports(d, rows)
    ensures d.totalInvoices == |rows|
    ensures d.autoApprovedCount == CountRows(rows, (row: AuditTrail) => row.route == AutoApprove)
    ensures d.humanReviewCount == CountRows(rows, (row: AuditTrail) => row.route == HumanReview)
    ensures forall c: string :: c in d.moneyAutoApproved <==>
              exists row <- rows :: row.route == AutoApprove && row.currency == c
    ensures forall c <- d.moneyAutoApproved ::
              d.moneyAutoApproved[c]
              == TotalRows(rows, (row: AuditTrail) => row.route == AutoApprove && row.currency == c)
    ensures forall c: string :: c in d.moneyHumanApproved <==>
              exists row <- rows :: row.route == HumanReview && row.approvalResolution == Some(ApprovalApproved)
                                    && row.currency == c
    ensures forall c <- d.moneyHumanApproved ::
              d.moneyHumanApproved[c]
              == TotalRows(rows, (row: AuditTrail) => row.route == HumanReview
                       && row.approvalResolution == Some(ApprovalApproved) && row.currency == c)
    ensures forall route: Route :: route in d.countsByRoute <==> exists row <- rows :: row.route == route
    ensures forall route <- d.countsByRoute ::
              d.countsByRoute[route] == CountRows(rows, (row: AuditTrail) => row.route == route)
  {
    SameRows(rows, Routed(AutoApprove), (row: AuditTrail) => row.route == AutoApprove);
    SameRows(rows, Routed(HumanReview), (row: AuditTrail) => row.route == HumanReview);
    forall c: string
      ensures TotalRows(rows, AutoIn(c))
           == TotalRows(rows, (row: AuditTrail) => row.route == AutoApprove && row.currency == c)
      ensures TotalRows(rows, ApprovedIn(c))
           == TotalRows(rows, (row: AuditTrail) => row.route == HumanReview
                    && row.approvalResolution == Some(ApprovalApproved) && row.currency == c)
    {
      SameRows(rows, AutoIn(c), (row: AuditTrail) => row.route == AutoApprove && row.currency == c);
      SameRows(rows, ApprovedIn(c), (row: AuditTrail) => row.route == HumanReview
          && row.approvalResolution == Some(ApprovalApproved) && row.currency == c);
    }
    forall route: Route
      ensures CountRows(rows, Routed(route)) == CountRows(rows, (row: AuditTrail) => row.route == route)
    {
      SameRows(rows, Routed(route), (row: AuditTrail) => row.route == route);
    }
  }

  lemma Proportion(rate: real, count: real, whole: real)
    requires whole > 0.0 && rate * whole == count && 0.0 <= count <= whole
    ensures 0.0 <= rate <= 1.0
  {
  }

  lemma TwoProportions(rateA: real, rateB: real, a: real, b: real, whole: real)
    requires whole > 0.0 && rateA * whole == a && rateB * whole == b
    requires 0.0 <= a && 0.0 <= b && a + b <= whole
    ensures 0.0 <= rateA && 0.0 <= rateB && rateA + rateB <= 1.0
  {
    Proportion(rateA, a, whole);
    Proportion(rateB, b, whole);
    assert (rateA + rateB) * whole == a + b;
    Proportion(rateA + rateB, a + b, whole);
  }

  lemma TwoRates(rateA: real, rateB: real, a: nat, b: nat, total: nat)
    requires a + b <= total && rateA == Rate(a, total) && rateB == Rate(b, total)
    ensures rateA * total as real == a as real && rateB * total as real == b as real
    ensures total == 0 ==> rateA == 0.0 && rateB == 0.0
    ensures 0.0 <= rateA && 0.0 <= rateB && rateA + rateB <= 1.0
  {
    RateTimesTotal(a, total);
    RateTimesTotal(b, total);
    if total > 0 {
      TwoProportions(rateA, rateB, a as real, b as real, total as real);
    }
  }

  lemma TwoCountsFit(rows: seq<AuditTrail>)
    ensures CountRows(rows, Routed(AutoApprove)) + CountRows(rows, Routed(HumanReview)) <= |rows|
  {
    RoutesPart(rows);
  }

  // Rates are proportions of one whole, the number of rows: each lies in [0, 1], and together they do
  // not exceed 1. Without a row they are 0.
  lemma RatesAreProportions(d: Dashboard, rows: seq<AuditTrail>)
    requires ReportsRates(d, rows)
    ensures d.autoApprovalRate * d.totalInvoices as real == d.autoApprovedCount as real
    ensures d.humanEscalationRate * d.totalInvoices as real == d.humanReviewCount as real
    ensures rows == [] ==> d.autoApprovalRate == 0.0 && d.humanEscalationRate == 0.0
    ensures 0.0 <= d.autoApprovalRate && 0.0 <= d.humanEscalationRate
    ensures d.autoApprovalRate + d.humanEscalationRate <= 1.0
  {
    TwoCountsFit(rows);
    TwoRates(d.autoApprovalRate, d.humanEscalationRate, d.autoApprovedCount, d.humanReviewCount, d.totalInvoices);
  }

  function CountFor(counts: map<Route, nat>, route: Route): nat {
    if route in counts then counts[route] else 0
  }

  // The counts by route add up to the number of rows, and contain the two counts shown on their own.
  lemma CountsAddUp(d: Dashboard, rows: seq<AuditTrail>)
    requires Reports(d, rows)
    ensures CountFor(d.countsByRoute, AutoApprove) + CountFor(d.countsByRoute, HumanReview)
            + CountFor(d.countsByRoute, Reject) + CountFor(d.countsByRoute, Duplicate) == d.totalInvoices
    ensures CountFor(d.countsByRoute, AutoApprove) == d.autoApprovedCount
    ensures CountFor(d.countsByRoute, HumanReview) == d.humanReviewCount
  {
    RoutesPart(rows);
    CountSome(rows, Routed(AutoApprove));
    CountSome(rows, Routed(HumanReview));
    CountSome(rows, Routed(Reject));
    CountSome(rows, Routed(Duplicate));
  }

  function AddAmount(money: map<string, real>, currency: string, amount: real): map<string, real> {
    money[currency := (if currency in money then money[currency] else 0.0) + amount]
  }

  // What the loop has added up so far.
  ghost predicate MoneyAdded(money: map<string, real>, buckets: seq<Bucket>, wanted: string -> (Key -> bool)) {
    && (forall currency :: currency in money <==> exists b <- buckets :: wanted(currency)(b.key))
    && (forall currency :: (if currency in money then money[currency] else 0.0) == SumTotals(buckets, wanted(currency)))
  }

  ghost predicate CountsAdded(counts: map<Route, nat>, buckets: seq<Bucket>) {
    && (forall route :: route in counts <==> exists b <- buckets :: b.key.route == route)
    && (forall route :: CountFor(counts, route) == SumCounts(buckets, RoutedKey(route)))
  }

  lemma AddOne(money: map<string, real>, before: seq<Bucket>, b: Bucket, wanted: string -> (Key -> bool), fits: bool)
    requires MoneyAdded(money, before, wanted)
    requires forall currency :: wanted(currency)(b.key) <==> fits && currency == b.key.currency
    ensures MoneyAdded(if fits then AddAmount(money, b.key.currency, b.total) else money, before + [b], wanted)
  {
    assert (before + [b])[..|before|] == before;
    forall currency
      ensures (exists x <- before + [b] :: wanted(currency)(x.key))
         <==> (exists x <- before :: wanted(currency)(x.key)) || wanted(currency)(b.key)
    {
      assert b in before + [b];
      assert forall x <- before :: x in before + [b];
    }
  }

  lemma CountOne(counts: map<Route, nat>, before: seq<Bucket>, b: Bucket)
    requires CountsAdded(counts, before)
    ensures CountsAdded(counts[b.key.route := CountFor(counts, b.key.route) + b.count], before + [b])
  {
    assert (before + [b])[..|before|] == before;
    assert b in before + [b];
    assert forall x <- before :: x in before + [b];
  }

  // There is a group of a kind exactly if there is a row of it.
  lemma GroupedIffPresent(buckets: seq<Bucket>, rows: seq<AuditTrail>, wanted: AuditTrail -> bool, keys: Key -> bool)
    requires Groups(buckets, rows) && Matches(wanted, keys)
    ensures (exists b <- buckets :: keys(b.key)) <==> exists row <- rows :: wanted(row)
  {
    if row :| row in rows && wanted(row) {
      var b :| b in buckets && Under(b.key)(row);
      assert keys(b.key);
    }
    if b :| b in buckets && keys(b.key) {
      CountSome(rows, Under(b.key));
      var row :| row in rows && Under(b.key)(row);
      assert wanted(row);
    }
  }

  lemma MoneyIsExact(money: map<string, real>, buckets: seq<Bucket>, rows: seq<AuditTrail>,
          wanted: string -> (AuditTrail -> bool), keys: string -> (Key -> bool))
    requires MoneyAdded(money, buckets, keys) && Groups(buckets, rows)
    requires forall currency: string :: Matches(wanted(currency), keys(currency))
    ensures MoneyOf(money, rows, wanted)
  {
    forall currency: string
      ensures currency in money <==> exists row <- rows :: wanted(currency)(row)
      ensures currency in money ==> money[currency] == TotalRows(rows, wanted(currency))
    {
      GroupedIffPresent(buckets, rows, wanted(currency), keys(currency));
      GroupingIsExact(buckets, rows, wanted(currency), keys(currency));
    }
  }

  lemma RoutePresent(rows: seq<AuditTrail>, route: Route)
    ensures (exists row <- rows :: row.route == route) <==> CountRows(rows, Routed(route)) > 0
  {
    CountSome(rows, Routed(route));
    assert (exists row <- rows :: Routed(route)(row)) <==> exists row <- rows :: row.route == route;
  }

  lemma {:induction false} RouteIsExact(buckets: seq<Bucket>, rows: seq<AuditTrail>, route: Route)
    requires Groups(buckets, rows)
    ensures (exists b <- buckets :: b.key.route == route) <==> exists row <- rows :: row.route == route
    ensures SumCounts(buckets, RoutedKey(route)) == CountRows(rows, Routed(route))
  {
    GroupedIffPresent(buckets, rows, Routed(route), RoutedKey(route));
    GroupingIsExact(buckets, rows, Routed(route), RoutedKey(route));
    assert (exists b <- buckets :: RoutedKey(route)(b.key)) <==> exists b <- buckets :: b.key.route == route;
    assert (exists row <- rows :: Routed(route)(row)) <==> exists row <- rows :: row.route == route;
  }

  lemma CountsAreExact(counts: map<Route, nat>, buckets: seq<Bucket>, rows: seq<AuditTrail>)
    requires CountsAdded(counts, buckets) && Groups(buckets, rows)
    ensures ReportsRoutes(counts, rows)
  {
    forall route: Route
      ensures route in counts <==> exists row <- rows :: row.route == route
      ensures route in counts ==> counts[route] == CountRows(rows, Routed(route))
    {
      RouteIsExact(buckets, rows, route);
      assert CountFor(counts, route) == SumCounts(buckets, RoutedKey(route));
    }
  }

  class AuditService {
    const repository: InMemoryAuditRepository

    constructor (repository: InMemoryAuditRepository)
      ensures this.repository == repository
    {
      this.repository := repository;
    }

    // The two-stage aggregation reports exactly what the rows say.
    method GetSummary() returns (dashboard: Dashboard)
      requires repository.Valid()
      ensures Reports(dashboard, repository.Values())
    {
      var buckets := repository.GetRouteSummary();
      dashboard := Summarise(buckets, repository.Values());
    }
  }

  // The three dictionaries the loop fills.
  method AddUp(buckets: seq<Bucket>)
    returns (moneyAuto: map<string, real>, moneyHumanApproved: map<string, real>, countsByRoute: map<Route, nat>)
    ensures MoneyAdded(moneyAuto, buckets, AutoKey)
    ensures MoneyAdded(moneyHumanApproved, buckets, ApprovedKey)
    ensures CountsAdded(countsByRoute, buckets)
  {
    moneyAuto, moneyHumanApproved, countsByRoute := map[], map[], map[];
    for i := 0 to |buckets|
      invariant MoneyAdded(moneyAuto, buckets[..i], AutoKey)
      invariant MoneyAdded(moneyHumanApproved, buckets[..i], ApprovedKey)
      invariant CountsAdded(countsByRoute, buckets[..i])
    {
      var b := buckets[i];
      assert buckets[..i] + [b] == buckets[..i + 1];
      ghost var approved := b.key.route == HumanReview && b.key.resolution == Some(ApprovalApproved);
      CountOne(countsByRoute, buckets[..i], b);
      AddOne(moneyAuto, buckets[..i], b, AutoKey, b.key.route == AutoApprove);
      AddOne(moneyHumanApproved, buckets[..i], b, ApprovedKey, approved);
      countsByRoute := countsByRoute[b.key.route := CountFor(countsByRoute, b.key.route) + b.count];
      if b.key.route == AutoApprove {
        moneyAuto := AddAmount(moneyAuto, b.key.currency, b.total);
      }
      if b.key.route == HumanReview && b.key.resolution == Some(ApprovalApproved) {
        moneyHumanApproved := AddAmount(moneyHumanApproved, b.key.currency, b.total);
      }
    }
    assert buckets[..|buckets|] == buckets;
  }

  // Any grouping of the rows will do, so the database's GROUP BY gives the same dashboard.
  method Summarise(buckets: seq<Bucket>, ghost rows: seq<AuditTrail>) returns (dashboard: Dashboard)
    requires Groups(buckets, rows)
    ensures Reports(dashboard, rows)
  {
    var total := SumCounts(buckets, EveryKey());
    var autoCount := SumCounts(buckets, RoutedKey(AutoApprove));
    var humanCount := SumCounts(buckets, RoutedKey(HumanReview));
    var moneyAuto, moneyHumanApproved, countsByRoute := AddUp(buckets);
    dashboard := Dashboard(total, autoCount, humanCount, Rate(autoCount, total), Rate(humanCount, total),
                           moneyAuto, moneyHumanApproved, countsByRoute);
    MoneyIsExact(moneyAuto, buckets, rows, AutoIn, AutoKey);
    MoneyIsExact(moneyHumanApproved, buckets, rows, ApprovedIn, ApprovedKey);
    CountsAreExact(countsByRoute, buckets, rows);
    CountedExactly(buckets, rows);
  }

  lemma CountedExactly(buckets: seq<Bucket>, rows: seq<AuditTrail>)
    requires Groups(buckets, rows)
    ensures SumCounts(buckets, EveryKey()) == |rows|
    ensures SumCounts(buckets, RoutedKey(AutoApprove)) == CountRows(rows, Routed(AutoApprove))
    ensures SumCounts(buckets, RoutedKey(HumanReview)) == CountRows(rows, Routed(HumanReview))
    ensures CountRows(rows, Routed(AutoApprove)) + CountRows(rows, Routed(HumanReview)) <= |rows|
  {
    GroupingIsExact(buckets, rows, Every(), EveryKey());
    GroupingIsExact(buckets, rows, Routed(AutoApprove), RoutedKey(AutoApprove));
    GroupingIsExact(buckets, rows, Routed(HumanReview), RoutedKey(HumanReview));
    CountAll(rows);
    TwoCountsFit(rows);
  }
}

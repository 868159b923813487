// Fixed-window rate limiting on the same conditional-write loop (shared/rate_limiter.py).
module RateLimiter {
  import opened Contracts
  import opened OptimisticStore
  import opened StateClients

  const MAX_RETRIES := 5

  type Positive = n: int | n >= 1 witness 1

  datatype HitOp = HitOp(scope: string, identity: string, limit: Positive, window: Positive, now: real)

  // A counter whose data does not read as a number is an error, and is left as it is.
  datatype Answer = Allowed | Denied | Corrupted

  datatype Counter = Number(count: int) | Garbage

  datatype RateLimitResult = RateLimitResult(allowed: bool, retryAfterSeconds: int)

  // ---- Window arithmetic -----------------------------------------------------------------------

  // int() of a float drops the fraction, whatever the sign.
  function Truncate(x: real): int {
    if x >= 0.0 then x.Floor else -(-x).Floor
  }

  function Bucket(now: real, window: Positive): int {
    (now / window as real).Floor
  }

  function WindowEnd(now: real, window: Positive): int {
    (Bucket(now, window) + 1) * window
  }

  function RetryAfter(now: real, window: Positive): int {
    Truncate(WindowEnd(now, window) as real - now)
  }

  lemma BucketHoldsItsTime(now: real, window: Positive)
    ensures var b := Bucket(now, window);
            (b * window) as real <= now < ((b + 1) * window) as real
  {
    var w := window as real;
    var b := Bucket(now, window) as real;
    assert now / w * w == now;
    ScaleUp(b, now / w, w);
    ScaleUpStrictly(now / w, b + 1.0, w);
    assert (Bucket(now, window) * window) as real == b * w;
    assert ((Bucket(now, window) + 1) * window) as real == (b + 1.0) * w;
  }

  lemma BucketIsItsInterval(now: real, window: Positive, bucket: int)
    ensures Bucket(now, window) == bucket <==> (bucket * window) as real <= now < ((bucket + 1) * window) as real
  {
    var b := Bucket(now, window);
    BucketHoldsItsTime(now, window);
    if b < bucket {
      MultiplyOrder(b + 1, bucket, window);
    } else if bucket < b {
      MultiplyOrder(bucket + 1, b, window);
    }
  }

  lemma ScaleUp(x: real, y: real, w: real)
    requires x <= y && w > 0.0
    ensures x * w <= y * w
  {
  }

  lemma ScaleUpStrictly(x: real, y: real, w: real)
    requires x < y && w > 0.0
    ensures x * w < y * w
  {
  }

  // A stretch of one window length meets at most two buckets.
  lemma WindowMeetsTwoBuckets(start: real, now: real, window: Positive)
    requires start <= now < start + window as real
    ensures Bucket(now, window) == Bucket(start, window) || Bucket(now, window) == Bucket(start, window) + 1
  {
    var b := Bucket(start, window);
    BucketIsItsInterval(start, window, b);
    BucketIsItsInterval(now, window, b);
    BucketIsItsInterval(now, window, b + 1);
    assert ((b + 2) * window) as real == ((b + 1) * window) as real + window as real;
  }

  // Whole seconds up to a whole-second deadline.
  lemma WholeSecondsLeft(now: real, end: int)
    requires now <= end as real
    ensures var wait := Truncate(end as real - now);
            && 0 <= wait
            && now + wait as real <= end as real < now + wait as real + 1.0
            && (now + wait as real == end as real <==> now == now.Floor as real)
  {
    var wait := Truncate(end as real - now);
    if now == now.Floor as real {
      assert end as real - now == (end - now.Floor) as real;
    }
    assert now + wait as real == end as real ==> now == (end - wait) as real;
  }

  lemma WaitEndsTheWindow(now: real, window: Positive)
    ensures var end := WindowEnd(now, window) as real;
            var wait := RetryAfter(now, window);
            && 0 <= wait <= window
            && now + wait as real <= end < now + wait as real + 1.0
            && (now + wait as real == end <==> now == now.Floor as real)
  {
    var b := Bucket(now, window);
    BucketHoldsItsTime(now, window);
    assert (b * window) as real + window as real == WindowEnd(now, window) as real;
    WholeSecondsLeft(now, WindowEnd(now, window));
  }

  // The advertised wait lies within the window, and one second more always reaches the next bucket;
  // the advertised wait itself is enough if and only if the clock read a whole number of seconds.
  lemma RetryAfterReachesNextBucket(now: real, window: Positive)
    ensures var wait := RetryAfter(now, window);
            && 0 <= wait <= window
            && Bucket(now, window) < Bucket(now + wait as real + 1.0, window)
            && (Bucket(now, window) < Bucket(now + wait as real, window) <==> now == now.Floor as real)
  {
    var wait := RetryAfter(now, window);
    WaitEndsTheWindow(now, window);
    ReachesNext(now, now + wait as real + 1.0, window);
    ReachesNext(now, now + wait as real, window);
  }

  lemma ReachesNext(now: real, later: real, window: Positive)
    requires now <= later
    ensures Bucket(now, window) < Bucket(later, window) <==> WindowEnd(now, window) as real <= later
  {
    var b := Bucket(now, window);
    var c := Bucket(later, window);
    BucketHoldsItsTime(now, window);
    BucketHoldsItsTime(later, window);
    if b < c {
      MultiplyOrder(b + 1, c, window);
    } else {
      MultiplyOrder(c + 1, b + 1, window);
    }
  }

  lemma MultiplyOrder(a: int, b: int, w: Positive)
    requires a <= b
    ensures a * w <= b * w
  {
  }

  // ---- Keys --------------------------------------------------------------------------------------

  function Digit(n: nat): char
    requires n < 10
  {
    ('0' as int + n) as char
  }

  function NatText(n: nat): string {
    if n < 10 then [Digit(n)] else NatText(n / 10) + [Digit(n % 10)]
  }

  function IntText(n: int): string {
    if n < 0 then "-" + NatText(-n) else NatText(n)
  }

  function Key(scope: string, identity: string, bucket: int): string {
    "ratelimit:" + (scope + ":" + (identity + ":" + IntText(bucket)))
  }

  lemma {:induction false} NatTextIsDigits(n: nat)
    ensures NatText(n) != [] && forall i | 0 <= i < |NatText(n)| :: '0' <= NatText(n)[i] <= '9'
  {
    if n >= 10 {
      NatTextIsDigits(n / 10);
    }
  }

  lemma {:induction false} NatTextInjective(m: nat, n: nat)
    requires NatText(m) == NatText(n)
    ensures m == n
  {
    NatTextIsDigits(m / 10);
    NatTextIsDigits(n / 10);
    if m >= 10 && n >= 10 {
      var a, b := NatText(m), NatText(n);
      assert a[..|a| - 1] == NatText(m / 10) && b[..|b| - 1] == NatText(n / 10);
      assert a[|a| - 1] == Digit(m % 10) && b[|b| - 1] == Digit(n % 10);
      NatTextInjective(m / 10, n / 10);
    }
  }

  lemma IntTextInjective(m: int, n: int)
    ensures IntText(m) == IntText(n) <==> m == n
    ensures ':' !in IntText(m)
  {
    NatTextIsDigits(if m < 0 then -m else m);
    NatTextIsDigits(if n < 0 then -n else n);
    assert IntText(m)[0] == '-' <==> m < 0;
    assert IntText(n)[0] == '-' <==> n < 0;
    if IntText(m) == IntText(n) && m < 0 {
      assert IntText(m)[1..] == NatText(-m) && IntText(n)[1..] == NatText(-n);
      NatTextInjective(-m, -n);
    } else if IntText(m) == IntText(n) {
      NatTextInjective(m, n);
    }
  }

  // Cut at the last occurrence of the separator instead.
  lemma SplitAtLast(left: string, right: string, left': string, right': string, separator: char)
    requires separator !in right && separator !in right'
    requires left + [separator] + right == left' + [separator] + right'
    ensures left == left' && right == right'
  {
    var text, text' := left + [separator] + right, left' + [separator] + right';
    assert text[|left|] == separator && text'[|left'|] == separator;
    assert forall k | |left| < k < |text| :: text[k] == right[k - |left| - 1];
    assert forall k | |left'| < k < |text'| :: text'[k] == right'[k - |left'| - 1];
    assert left == text[..|left|] && left' == text'[..|left'|];
    assert right == text[|left| + 1..] && right' == text'[|left'| + 1..];
  }

  // Within one scope, a key names one identity and one bucket.
  lemma KeyNamesIdentityAndBucket(scope: string, identity: string, bucket: int, identity': string, bucket': int)
    ensures Key(scope, identity, bucket) == Key(scope, identity', bucket') <==>
        identity == identity' && bucket == bucket'
  {
    if Key(scope, identity, bucket) == Key(scope, identity', bucket') {
      var rest, rest' := identity + ":" + IntText(bucket), identity' + ":" + IntText(bucket');
      assert rest == Key(scope, identity, bucket)[10 + |scope| + 1..];
      assert rest' == Key(scope, identity', bucket')[10 + |scope| + 1..];
      IntTextInjective(bucket, bucket');
      IntTextInjective(bucket', bucket);
      SplitAtLast(identity, IntText(bucket), identity', IntText(bucket'), ':');
    }
  }

  // Two scopes can share a key if and only if one, with its colon, begins the other. So scopes
  // without a colon never do.
  lemma ScopesShareKeysIffOneExtendsOther(s: string, t: string)
    requires s != t
    ensures (exists i, b, j, c :: Key(s, i, b) == Key(t, j, c)) <==> s + ":" <= t || t + ":" <= s
  {
    if i, b, j, c :| Key(s, i, b) == Key(t, j, c) {
      var tailS, tailT := i + ":" + IntText(b), j + ":" + IntText(c);
      var text := s + ":" + tailS;
      assert text == Key(s, i, b)[10..] && t + ":" + tailT == Key(t, j, c)[10..];
      assert s == text[..|s|] && t == text[..|t|];
      if |s| < |t| {
        assert t[..|s| + 1] == text[..|s| + 1] == s + ":";
      } else if |t| < |s| {
        assert text == t + ":" + tailT;
        assert s[..|t| + 1] == text[..|t| + 1] == t + ":";
      }
    }
    if s + ":" <= t {
      ExtendedScopeCollides(s, t);
    }
    if t + ":" <= s {
      ExtendedScopeCollides(t, s);
      assert Key(s, "x", 0) == Key(t, s[|t| + 1..] + ":x", 0);
    }
  }

  lemma ExtendedScopeCollides(s: string, t: string)
    requires s + ":" <= t
    ensures Key(s, t[|s| + 1..] + ":x", 0) == Key(t, "x", 0)
  {
    var rest := t[|s| + 1..];
    assert t == s + ":" + rest;
    assert s + ":" + ((rest + ":x") + ":" + IntText(0)) == t + ":" + ("x" + ":" + IntText(0));
  }

  // ---- The limiters ------------------------------------------------------------------------------

  function KeyOf(op: HitOp): string {
    Key(op.scope, op.identity, Bucket(op.now, op.window))
  }

  function Count(counts: map<string, int>, key: string): int {
    if key in counts then counts[key] else 0
  }

  // The in-memory limiter: one dictionary of counters, one hit at a time.
  function PerformHit(counts: map<string, int>, op: HitOp): (map<string, int>, Answer) {
    if Count(counts, KeyOf(op)) >= op.limit then (counts, Denied)
    else (counts[KeyOf(op) := Count(counts, KeyOf(op)) + 1], Allowed)
  }

  function DecideHit(op: HitOp, current: Option<Counter>): Verdict<Counter, Answer> {
    match current
    case Some(Garbage) => Finish(Corrupted)
    case Some(Number(count)) => if count >= op.limit then Finish(Denied) else Attempt([], Number(count + 1), Allowed)
    case None => Attempt([], Number(1), Allowed)
  }

  function HitApi(): Api<HitOp, Counter, Answer> {
    Api((op: HitOp) => KeyOf(op),
        (op: HitOp, current: Option<Counter>) => DecideHit(op, current),
        (op: HitOp) => MAX_RETRIES)
  }

  type HitWorld = World<HitOp, Counter, Answer>
  type HitLog = seq<Entry<HitOp, Answer>>

  datatype HitOutcome = Result(result: RateLimitResult) | RateLimiterError | ValueError

  class InMemoryRateLimiter {
    var counts: map<string, int>

    constructor ()
      ensures counts == map[]
    {
      counts := map[];
    }

    method Hit(scope: string, identity: string, limit: int, windowSeconds: int, now: real) returns (outcome: HitOutcome)
      modifies this
      ensures outcome == ValueError <==> limit < 1 || windowSeconds < 1
      ensures outcome == ValueError ==> counts == old(counts)
      ensures outcome != ValueError ==>
                var (counts', answer) := PerformHit(old(counts), HitOp(scope, identity, limit, windowSeconds, now));
                counts == counts' && outcome == Result(RateLimitResult(answer.Allowed?, RetryAfter(now, windowSeconds)))
      ensures outcome != ValueError ==>
                var key := Key(scope, identity, Bucket(now, windowSeconds));
                var current := if key in old(counts) then old(counts)[key] else 0;
                if current < limit then outcome.result.allowed && counts == old(counts)[key := current + 1]
                else outcome.Result? && !outcome.result.allowed && counts == old(counts)
    {
      if limit < 1 || windowSeconds < 1 {
        return ValueError;
      }
      var retryAfter := RetryAfter(now, windowSeconds);
      var key := Key(scope, identity, Bucket(now, windowSeconds));
      var current := Count(counts, key);
      if current >= limit {
        return Result(RateLimitResult(false, retryAfter));
      }
      counts := counts[key := current + 1];
      return Result(RateLimitResult(true, retryAfter));
    }
  }

  class DaprStateRateLimiter {
    const client: StateClient<HitOp, Counter, Answer>

    constructor (client: StateClient<HitOp, Counter, Answer>)
      ensures this.client == client
    {
      this.client := client;
    }

    // One read of the counter: the count it holds, or an error for a failed request or a text that is no
    // number.
    method ReadCounter(id: nat, key: string)
      returns (raised: bool, current: int, etag: nat, ghost moves: seq<Move<HitOp>>)
      requires client.api == HitApi() && id in client.world.calls && client.world.calls[id].pc.Reading?
      requires key == KeyOf(client.world.calls[id].op) && client.world.calls[id].op.limit >= 1
      modifies client
      ensures client.world == Run(HitApi(), old(client.world), moves) && id in client.world.calls
      ensures client.world.calls[id].op == old(client.world).calls[id].op
      ensures var pc := client.world.calls[id].pc;
              if raised then pc.ReadFailed? || pc == Returned(Corrupted)
              else if current >= client.world.calls[id].op.limit then pc == Returned(Denied)
              else
                && pc.Writing? && pc.tries == old(client.world).calls[id].pc.tries && pc.etag == etag
                && DecideHit(client.world.calls[id].op, pc.seen) == Attempt([], Number(current + 1), Allowed)
      ensures NoFaults(old(client.script)) ==>
                && NoFaults(client.script) && !client.world.calls[id].pc.ReadFailed?
                && client.world.calls[id].faultFree == old(client.world).calls[id].faultFree
    {
      var failed, data;
      failed, data, etag, moves := client.GetState(id, key);
      if failed || (data.Some? && data.value.Garbage?) {
        return true, 0, etag, moves;
      }
      raised, current := false, if data.Some? then data.value.count else 0;
    }

    method Hit(id: nat, scope: string, identity: string, limit: int, windowSeconds: int, now: real)
      returns (outcome: HitOutcome, ghost moves: seq<Move<HitOp>>)
      requires client.api == HitApi() && id !in client.world.calls
      modifies client
      ensures outcome == ValueError <==> limit < 1 || windowSeconds < 1
      ensures client.world == Run(HitApi(), old(client.world), moves)
      ensures outcome == ValueError ==> moves == []
      ensures outcome != ValueError ==>
                && id in client.world.calls
                && client.world.calls[id].op == HitOp(scope, identity, limit, windowSeconds, now)
                && var pc := client.world.calls[id].pc;
                   match outcome
                   case Result(r) => r.retryAfterSeconds == RetryAfter(now, windowSeconds)
                       && pc == Returned(if r.allowed then Allowed else Denied)
                   case _ => pc.ReadFailed? || pc.WritesRejected? || pc == Returned(Corrupted)
      ensures outcome != ValueError && NoFaults(old(client.script)) ==>
                client.world.calls[id].faultFree && !client.world.calls[id].pc.ReadFailed?
    {
      ghost var start := client.world;
      if limit < 1 || windowSeconds < 1 {
        return ValueError, [];
      }
      var retryAfter := RetryAfter(now, windowSeconds);
      var key := Key(scope, identity, Bucket(now, windowSeconds));
      var op := HitOp(scope, identity, limit, windowSeconds, now);
      moves := client.Start(id, op);
      for tries := 0 to MAX_RETRIES
        invariant client.world == Run(HitApi(), start, moves)
        invariant id in client.world.calls && client.world.calls[id].op == op
        invariant client.world.calls[id].pc == if tries < MAX_RETRIES then Reading(tries) else WritesRejected
        invariant NoFaults(old(client.script)) ==> NoFaults(client.script) && client.world.calls[id].faultFree
      {
        var raised, current, etag;
        ghost var more;
        raised, current, etag, more := ReadCounter(id, key);
        RunAppend(HitApi(), start, moves, more);
        moves := moves + more;
        if raised {
          return RateLimiterError, moves;
        }
        if current >= limit {
          return Result(RateLimitResult(false, retryAfter)), moves;
        }
        var committed;
        committed, more := client.ExecuteStateTransaction(id, [Operation(key, Number(current + 1), Some(etag))]);
        RunAppend(HitApi(), start, moves, more);
        moves := moves + more;
        if committed {
          return Result(RateLimitResult(true, retryAfter)), moves;
        }
      }
      return RateLimiterError, moves;
    }
  }

  // ---- What every interleaving of hits guarantees ------------------------------------------------

  function CountsAfter(log: HitLog): map<string, int> {
    if log == [] then map[] else PerformHit(CountsAfter(log[..|log| - 1]), log[|log| - 1].op).0
  }

  function CountIf(log: HitLog, p: Entry<HitOp, Answer> -> bool): nat {
    if log == [] then 0
    else CountIf(log[..|log| - 1], p) + if p(log[|log| - 1]) then 1 else 0
  }

  predicate AllowedAt(entry: Entry<HitOp, Answer>, scope: string, identity: string, bucket: int) {
    entry.result.Allowed? && entry.op.scope == scope && entry.op.identity == identity
    && Bucket(entry.op.now, entry.op.window) == bucket
  }

  function AllowedIn(scope: string, identity: string, bucket: int): Entry<HitOp, Answer> -> bool {
    (e: Entry<HitOp, Answer>) => AllowedAt(e, scope, identity, bucket)
  }

  function AllowedWithin(scope: string, identity: string, start: real, end: real): Entry<HitOp, Answer> -> bool {
    (e: Entry<HitOp, Answer>) => AllowedDuring(e, scope, identity, start, end)
  }

  predicate AllowedDuring(entry: Entry<HitOp, Answer>, scope: string, identity: string, start: real, end: real) {
    entry.result.Allowed? && entry.op.scope == scope && entry.op.identity == identity && start <= entry.op.now < end
  }

  // Each scope is used with one limit and one window, and contains no colon.
  ghost predicate OneRulePerScope(log: HitLog, limit: string -> Positive, window: string -> Positive) {
    forall i | 0 <= i < |log| ::
      var op := log[i].op;
      ':' !in op.scope && op.limit == limit(op.scope) && op.window == window(op.scope)
  }

  function Numbers(counts: map<string, int>): map<string, Counter> {
    map key | key in counts :: Number(counts[key])
  }

  lemma {:induction false} ReplayIsCounts(log: HitLog)
    ensures Replay(HitApi(), log) == Numbers(CountsAfter(log))
    decreases |log|
  {
    if log != [] {
      ReplayIsCounts(log[..|log| - 1]);
    }
  }

  lemma {:induction false} AnswersMatch(log: HitLog, i: nat)
    requires Justified(HitApi(), log) && i < |log|
    ensures log[i].result == PerformHit(CountsAfter(log[..i]), log[i].op).1
    decreases |log|
  {
    var before := log[..|log| - 1];
    if i == |log| - 1 {
      ReplayIsCounts(before);
    } else {
      AnswersMatch(before, i);
      assert before[..i] == log[..i];
    }
  }

  lemma ExtensionHasColon(s: string, t: string)
    ensures s + ":" <= t ==> ':' in t
  {
    assert s + ":" <= t ==> t[|s|] == ':';
  }

  lemma ColonFreeKeys(a: HitOp, b: HitOp)
    requires ':' !in a.scope && ':' !in b.scope
    ensures KeyOf(a) == KeyOf(b)
       <==> a.scope == b.scope && a.identity == b.identity && Bucket(a.now, a.window) == Bucket(b.now, b.window)
  {
    if a.scope == b.scope {
      KeyNamesIdentityAndBucket(a.scope, a.identity, Bucket(a.now, a.window), b.identity, Bucket(b.now, b.window));
    } else if KeyOf(a) == KeyOf(b) {
      ExtensionHasColon(a.scope, b.scope);
      ExtensionHasColon(b.scope, a.scope);
      ScopesShareKeysIffOneExtendsOther(a.scope, b.scope);
    }
  }

  lemma {:induction false} CounterIsAllowedHits(log: HitLog, limit: string -> Positive, window: string -> Positive,
          op: HitOp)
    requires Justified(HitApi(), log) && OneRulePerScope(log, limit, window)
    requires ':' !in op.scope
    ensures var bucket := Bucket(op.now, op.window);
            Count(CountsAfter(log), KeyOf(op)) == CountIf(log, AllowedIn(op.scope, op.identity, bucket))
                <= limit(op.scope)
    decreases |log|
  {
    if log != [] {
      var before := log[..|log| - 1];
      var last := log[|log| - 1];
      CounterIsAllowedHits(before, limit, window, op);
      AnswersMatch(log, |log| - 1);
      ColonFreeKeys(last.op, op);
    }
  }

  // How many hits of the bucket of hit `i` had been allowed before it.
  function AllowedBefore(log: HitLog, i: nat): nat
    requires i < |log|
  {
    var op := log[i].op;
    CountIf(log[..i], AllowedIn(op.scope, op.identity, Bucket(op.now, op.window)))
  }

  lemma {:induction false} AllowedBelowLimit(log: HitLog, limit: string -> Positive, window: string -> Positive, i: nat)
    requires Justified(HitApi(), log) && OneRulePerScope(log, limit, window) && i < |log|
    ensures log[i].result == if AllowedBefore(log, i) < limit(log[i].op.scope) then Allowed else Denied
    decreases |log|
  {
    var before := log[..|log| - 1];
    if i == |log| - 1 {
      AnswersMatch(log, i);
      CounterIsAllowedHits(before, limit, window, log[i].op);
    } else {
      AllowedBelowLimit(before, limit, window, i);
      assert before[..i] == log[..i];
    }
  }

  // Any interleaving of hits matches the in-memory limiter doing the logged ones one at a time; and
  // with one rule per colon-free scope, a hit is allowed exactly if fewer of its bucket were allowed
  // before it than the limit, and a bucket's counter is the number of hits it allowed.
  lemma CountersAreExact(moves: seq<Move<HitOp>>, limit: string -> Positive, window: string -> Positive, op: HitOp)
    requires OneRulePerScope(Run(HitApi(), EmptyWorld(), moves).log, limit, window)
    requires ':' !in op.scope
    ensures var world := Run(HitApi(), EmptyWorld(), moves);
            var bucket := Bucket(op.now, op.window);
            var stored := Lookup(world.store, KeyOf(op));
            && Contents(world.store) == Numbers(CountsAfter(world.log))
            && (forall i | 0 <= i < |world.log| ::
                  world.log[i].result
                  == PerformHit(CountsAfter(world.log[..i]), world.log[i].op).1)
            && (forall i | 0 <= i < |world.log| ::
                  world.log[i].result
                  == if AllowedBefore(world.log, i) < limit(world.log[i].op.scope) then Allowed else Denied)
            && (stored.Some? ==> stored.value.Number?)
            && (if stored.Some? then stored.value.count else 0)
               == CountIf(world.log, AllowedIn(op.scope, op.identity, bucket)) <= limit(op.scope)
  {
    var world := Run(HitApi(), EmptyWorld(), moves);
    EveryRunLinearises(HitApi(), moves);
    ReplayIsCounts(world.log);
    CounterIsAllowedHits(world.log, limit, window, op);
    forall i | 0 <= i < |world.log|
      ensures world.log[i].result == PerformHit(CountsAfter(world.log[..i]), world.log[i].op).1
    {
      AnswersMatch(world.log, i);
    }
    forall i | 0 <= i < |world.log|
      ensures world.log[i].result
           == if AllowedBefore(world.log, i) < limit(world.log[i].op.scope) then Allowed else Denied
    {
      AllowedBelowLimit(world.log, limit, window, i);
    }
    assert Lookup(world.store, KeyOf(op)) == Get(Contents(world.store), KeyOf(op));
  }

  lemma {:induction false} CountCovered(log: HitLog, p: Entry<HitOp, Answer> -> bool, q: Entry<HitOp, Answer> -> bool,
          r: Entry<HitOp, Answer> -> bool)
    requires forall i | 0 <= i < |log| :: p(log[i]) ==> q(log[i]) || r(log[i])
    ensures CountIf(log, p) <= CountIf(log, q) + CountIf(log, r)
    decreases |log|
  {
    if log != [] {
      CountCovered(log[..|log| - 1], p, q, r);
    }
  }

  lemma {:induction false} BucketAllowsTheLimit(log: HitLog, limit: string -> Positive, window: string -> Positive,
          scope: string, identity: string, bucket: int)
    requires Justified(HitApi(), log) && OneRulePerScope(log, limit, window) && ':' !in scope
    ensures CountIf(log, AllowedIn(scope, identity, bucket)) <= limit(scope)
  {
    var w := window(scope);
    var op := HitOp(scope, identity, limit(scope), w, (bucket * w) as real);
    MultiplyOrder(bucket, bucket + 1, w);
    BucketIsItsInterval(op.now, w, bucket);
    CounterIsAllowedHits(log, limit, window, op);
  }

  lemma StretchIsTwoBuckets(log: HitLog, limit: string -> Positive, window: string -> Positive, scope: string,
          identity: string, start: real)
    requires OneRulePerScope(log, limit, window)
    ensures var w := window(scope);
            var b := Bucket(start, w);
            CountIf(log, AllowedWithin(scope, identity, start, start + w as real))
            <= CountIf(log, AllowedIn(scope, identity, b)) + CountIf(log, AllowedIn(scope, identity, b + 1))
  {
    var w := window(scope);
    var b := Bucket(start, w);
    forall i | 0 <= i < |log| && AllowedDuring(log[i], scope, identity, start, start + w as real)
      ensures AllowedAt(log[i], scope, identity, b) || AllowedAt(log[i], scope, identity, b + 1)
    {
      WindowMeetsTwoBuckets(start, log[i].op.now, w);
    }
    CountCovered(log, AllowedWithin(scope, identity, start, start + w as real),
                 AllowedIn(scope, identity, b), AllowedIn(scope, identity, b + 1));
  }

  lemma {:induction false} TwiceInLog(log: HitLog, limit: string -> Positive, window: string -> Positive, scope: string,
          identity: string, start: real)
    requires Justified(HitApi(), log) && OneRulePerScope(log, limit, window) && ':' !in scope
    ensures CountIf(log, AllowedWithin(scope, identity, start, start + window(scope) as real)) <= 2 * limit(scope)
  {
    var b := Bucket(start, window(scope));
    BucketAllowsTheLimit(log, limit, window, scope, identity, b);
    BucketAllowsTheLimit(log, limit, window, scope, identity, b + 1);
    StretchIsTwoBuckets(log, limit, window, scope, identity, start);
  }

  // So no half-open stretch of one window length, wherever it starts, sees more than twice the limit
  // of allowed hits by one identity.
  lemma TwiceTheLimit(moves: seq<Move<HitOp>>, limit: string -> Positive, window: string -> Positive, scope: string,
          identity: string, start: real)
    requires OneRulePerScope(Run(HitApi(), EmptyWorld(), moves).log, limit, window)
    requires ':' !in scope
    ensures var log := Run(HitApi(), EmptyWorld(), moves).log;
            CountIf(log, AllowedWithin(scope, identity, start, start + window(scope) as real)) <= 2 * limit(scope)
  {
    EveryRunLinearises(HitApi(), moves);
    TwiceInLog(Run(HitApi(), EmptyWorld(), moves).log, limit, window, scope, identity, start);
  }

  // ---- Retries -------------------------------------------------------------------------------------

  lemma {:induction false} EntryWritesItsKey(log: HitLog, i: nat)
    requires Justified(HitApi(), log) && i < |log| && log[i].keys != {}
    ensures log[i].keys == {KeyOf(log[i].op)} && log[i].result == Allowed
    decreases |log|
  {
    var before := log[..|log| - 1];
    if i == |log| - 1 {
      var verdict := Verdicts(HitApi(), Replay(HitApi(), before), log[i].op);
      assert verdict.Attempt? && verdict.companions == [];
    } else {
      EntryWritesItsKey(before, i);
    }
  }

  // A fault-free hit that exceeds its retries lost to five different hits on its counter, all allowed.
  lemma GivingUpNeedsFiveRivals(moves: seq<Move<HitOp>>, id: nat)
    requires var world := Run(HitApi(), EmptyWorld(), moves);
             id in world.calls && world.calls[id].faultFree && world.calls[id].pc.WritesRejected?
    ensures var world := Run(HitApi(), EmptyWorld(), moves);
            var call := world.calls[id];
            var rivals := Committers(world.log, call.begun, KeyOf(call.op));
            && 5 <= |rivals| && id !in rivals
            && forall rival <- rivals ::
                 rival in world.calls && KeyOf(world.calls[rival].op) == KeyOf(call.op)
                     && world.calls[rival].pc == Returned(Allowed)
  {
    var world := Run(HitApi(), EmptyWorld(), moves);
    var call := world.calls[id];
    RetryBound(HitApi(), moves, id);
    RunKeepsInv(HitApi(), EmptyWorld(), moves);
    var rivals := Committers(world.log, call.begun, KeyOf(call.op));
    forall rival <- rivals
      ensures rival in world.calls && KeyOf(world.calls[rival].op) == KeyOf(call.op)
          && world.calls[rival].pc == Returned(Allowed)
    {
      var i :| call.begun <= i < |world.log| && KeyOf(call.op) in world.log[i].keys && world.log[i].call == rival;
      assert EntryOk(world, i);
      EntryWritesItsKey(world.log, i);
    }
  }

  // Five do suffice: from the empty store, five other hits of the same bucket, committing one between
  // each read and write of this one, exhaust it, unless its limit would have denied it before.
  lemma FiveRivalsExhaustFromScratch(op: HitOp) returns (moves: seq<Move<HitOp>>)
    requires op.limit >= 5
    ensures var world := Run(HitApi(), EmptyWorld(), moves);
            && 0 in world.calls && world.calls[0].op == op
            && world.calls[0].faultFree && world.calls[0].pc.WritesRejected?
            && forall id <- world.calls :: id < 1 + 5 && world.calls[id].op == op
  {
    var room := (rounds: nat, current: Option<Counter>) =>
      match current
      case None => rounds <= op.limit
      case Some(Number(count)) => count + rounds <= op.limit
      case Some(Garbage) => false;
    moves := RivalsExhaustFromScratch(HitApi(), op, op, room);
  }

  lemma {:induction false} CommitsWereAllowed(log: HitLog, from: nat, op: HitOp)
    requires Justified(HitApi(), log) && ':' !in op.scope
    requires forall i | 0 <= i < |log| :: ':' !in log[i].op.scope
    ensures Commits(log, from, KeyOf(op)) <= CountIf(log, AllowedIn(op.scope, op.identity, Bucket(op.now, op.window)))
    decreases |log|
  {
    if log != [] {
      var before, last := log[..|log| - 1], log[|log| - 1];
      CommitsWereAllowed(before, from, op);
      if KeyOf(op) in last.keys {
        EntryWritesItsKey(log, |log| - 1);
        ColonFreeKeys(op, last.op);
      }
    }
  }

  // With one rule a scope, a run in which this hit gives up without a transport fault.
  ghost predicate GivesUp(op: HitOp, moves: seq<Move<HitOp>>, id: nat, limit: string -> Positive,
          window: string -> Positive)
  {
    var world := Run(HitApi(), EmptyWorld(), moves);
    && OneRulePerScope(world.log, limit, window) && limit(op.scope) == op.limit
    && id in world.calls && world.calls[id].op == op
    && world.calls[id].faultFree && world.calls[id].pc.WritesRejected?
  }

  lemma GivingUpNeedsLimitFive(op: HitOp, moves: seq<Move<HitOp>>, id: nat, limit: string -> Positive,
          window: string -> Positive)
    requires ':' !in op.scope && GivesUp(op, moves, id, limit, window)
    ensures op.limit >= 5
  {
    var world := Run(HitApi(), EmptyWorld(), moves);
    RunKeepsInv(HitApi(), EmptyWorld(), moves);
    assert CallOk(HitApi(), world, world.calls[id]);
    CommitsWereAllowed(world.log, world.calls[id].begun, op);
    CounterIsAllowedHits(world.log, limit, window, op);
  }

  // So whoever else is at work, a hit whose requests all go through can end in the limiter's error if
  // and only if its limit is at least five: below that, somebody's commits have used it up by then.
  lemma HitGivesUpIffLimitFive(op: HitOp)
    requires ':' !in op.scope
    ensures (exists moves, id, limit, window :: GivesUp(op, moves, id, limit, window)) <==> op.limit >= 5
  {
    if moves, id, limit, window :| GivesUp(op, moves, id, limit, window) {
      GivingUpNeedsLimitFive(op, moves, id, limit, window);
    }
    if op.limit >= 5 {
      var moves := FiveRivalsExhaustFromScratch(op);
      var world := Run(HitApi(), EmptyWorld(), moves);
      RunKeepsInv(HitApi(), EmptyWorld(), moves);
      forall i | 0 <= i < |world.log| ensures world.log[i].op == op {
        assert EntryOk(world, i);
      }
      assert GivesUp(op, moves, 0, (scope: string) => op.limit, (scope: string) => op.window);
    }
  }

  // A counter that is no number is an error for whoever reads it, and stays.
  lemma GarbageRaises(world: HitWorld, id: nat)
    requires id in world.calls && world.calls[id].pc.Reading?
    requires Lookup(world.store, KeyOf(world.calls[id].op)) == Some(Garbage)
    ensures var after := Step(HitApi(), world, Read(id));
            after.calls[id].pc == Returned(Corrupted) && after.store == world.store
  {
  }
}

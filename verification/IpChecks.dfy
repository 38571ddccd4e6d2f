/**
 The server's pending address checks. A client's request waits in the bucket of its address until a
 pong resolves it, the address turns out to be unreachable, it times out, or its session goes away.

 Sessions are held weakly: `alive` gives the session ids of those that still exist when an event is
 handled. Every callback invocation and every retry ping is recorded.
 */
module IpChecks {
  import opened Wrappers

  type Addr = nat
  type Session = nat
  type SessionId = nat
  type Tag = nat

  /** `tag` tells requests apart; `retries` is the number of retry pings left. */
  datatype Request = Request(tag: Tag, session: Session, addr: Addr, ts: int, retries: nat)

  datatype State = State(
    pending: map<Addr, seq<Request>>,
    calls: seq<(Tag, bool)>,
    pings: seq<Tag>,
    enqueued: seq<Tag>,
    duplicates: seq<Tag>,
    lost: seq<Tag>)

  const Init := State(map[], [], [], [], [], [])

  datatype Event =
    | Pong(sid: SessionId)
    | Unreachable
    | Retry(now: int, timeout: nat)

  /** What becomes of a request. */
  datatype Verdict = Keep(ping: bool) | Resolve(ok: bool) | Lose

  function Judge(e: Event, alive: map<Session, SessionId>, r: Request): Verdict {
    if r.session !in alive then Lose
    else
      match e
      case Pong(sid) => if alive[r.session] == sid then Resolve(true) else Keep(false)
      case Unreachable => Resolve(false)
      case Retry(now, timeout) => if now - r.ts > timeout then Resolve(false) else Keep(r.retries > 0)
  }

  function Pinged(r: Request, v: Verdict): Request {
    if v.Keep? && v.ping && r.retries > 0 then r.(retries := r.retries - 1) else r
  }

  // ---------------------------------------------------------------- one bucket

  function Kept(rs: seq<Request>, e: Event, alive: map<Session, SessionId>): seq<Request> {
    if rs == [] then []
    else
      var v := Judge(e, alive, rs[0]);
      if v.Keep? then [Pinged(rs[0], v)] + Kept(rs[1..], e, alive) else Kept(rs[1..], e, alive)
  }

  function Calls(rs: seq<Request>, e: Event, alive: map<Session, SessionId>): seq<(Tag, bool)> {
    if rs == [] then []
    else
      var v := Judge(e, alive, rs[0]);
      if v.Resolve? then [(rs[0].tag, v.ok)] + Calls(rs[1..], e, alive) else Calls(rs[1..], e, alive)
  }

  function Losses(rs: seq<Request>, e: Event, alive: map<Session, SessionId>): seq<Tag> {
    if rs == [] then []
    else if Judge(e, alive, rs[0]).Lose? then [rs[0].tag] + Losses(rs[1..], e, alive)
    else Losses(rs[1..], e, alive)
  }

  function Pings(rs: seq<Request>, e: Event, alive: map<Session, SessionId>): seq<Tag> {
    if rs == [] then []
    else
      var v := Judge(e, alive, rs[0]);
      if v.Keep? && v.ping then [rs[0].tag] + Pings(rs[1..], e, alive) else Pings(rs[1..], e, alive)
  }

  /** What is counted over the requests with one tag: the requests themselves or their retries. */
  datatype Measure = Number | RetriesLeft

  function Weight(r: Request, t: Tag, q: Measure): nat {
    if r.tag != t then 0 else if q.Number? then 1 else r.retries
  }

  function Sum(rs: seq<Request>, t: Tag, q: Measure): nat {
    if rs == [] then 0 else Weight(rs[0], t, q) + Sum(rs[1..], t, q)
  }

  /** How often the callback of request `t` was invoked. */
  function Called(calls: seq<(Tag, bool)>, t: Tag): nat {
    if calls == [] then 0 else (if calls[0].0 == t then 1 else 0) + Called(calls[1..], t)
  }

  function Occurs(tags: seq<Tag>, t: Tag): nat {
    if tags == [] then 0 else (if tags[0] == t then 1 else 0) + Occurs(tags[1..], t)
  }

  // ---------------------------------------------------------------- operations

  /** A bucket that would become empty is removed. */
  function Put(pending: map<Addr, seq<Request>>, a: Addr, rs: seq<Request>): map<Addr, seq<Request>> {
    if rs == [] then pending - {a} else pending[a := rs]
  }

  function HandleBucket(s: State, a: Addr, e: Event, alive: map<Session, SessionId>): State {
    if a !in s.pending then s
    else
      var rs := s.pending[a];
      s.(pending := Put(s.pending, a, Kept(rs, e, alive)),
         calls := s.calls + Calls(rs, e, alive),
         pings := s.pings + Pings(rs, e, alive),
         lost := s.lost + Losses(rs, e, alive))
  }

  function HandleBuckets(s: State, keys: seq<Addr>, e: Event, alive: map<Session, SessionId>): State
    decreases |keys|
  {
    if keys == [] then s else HandleBuckets(HandleBucket(s, keys[0], e, alive), keys[1..], e, alive)
  }

  predicate HasSession(rs: seq<Request>, session: Session) {
    rs != [] && (rs[0].session == session || HasSession(rs[1..], session))
  }

  function Bucket(s: State, a: Addr): seq<Request> {
    if a in s.pending then s.pending[a] else []
  }

  /** A session has at most one pending request per address; further ones are dropped. */
  function Enqueue(s: State, r: Request): State {
    var rs := Bucket(s, r.addr);
    if HasSession(rs, r.session)
    then s.(enqueued := s.enqueued + [r.tag], duplicates := s.duplicates + [r.tag])
    else s.(enqueued := s.enqueued + [r.tag], pending := s.pending[r.addr := rs + [r]])
  }

  datatype Op =
    | Enqueuing(request: Request)
    | Ponging(peer: Addr, sid: Option<SessionId>, alive: map<Session, SessionId>)
    | Unreaching(peer: Addr, alive: map<Session, SessionId>)
    | Retrying(keys: seq<Addr>, now: int, timeout: nat, alive: map<Session, SessionId>)

  predicate Enumerates(keys: seq<Addr>, m: map<Addr, seq<Request>>) {
    && (forall a :: a in keys ==> a in m)
    && (forall a :: a in m ==> a in keys)
    && (forall i, j :: 0 <= i < j < |keys| ==> keys[i] != keys[j])
  }

  predicate Enabled(s: State, op: Op, retryCount: nat) {
    match op
    case Enqueuing(r) => r.tag !in s.enqueued && r.retries == retryCount
    case Retrying(keys, _, _, _) => Enumerates(keys, s.pending)
    case _ => true
  }

  function Step(s: State, op: Op): State {
    match op
    case Enqueuing(r) => Enqueue(s, r)
    case Ponging(peer, sid, alive) => if sid.None? then s else HandleBucket(s, peer, Pong(sid.value), alive)
    case Unreaching(peer, alive) => HandleBucket(s, peer, Unreachable, alive)
    case Retrying(keys, now, timeout, alive) => HandleBuckets(s, keys, Retry(now, timeout), alive)
  }

  predicate IsRun(s: State, ops: seq<Op>, retryCount: nat)
    decreases |ops|
  {
    ops == [] || (Enabled(s, ops[0], retryCount) && IsRun(Step(s, ops[0]), ops[1..], retryCount))
  }

  function Run(s: State, ops: seq<Op>): State
    decreases |ops|
  {
    if ops == [] then s else Run(Step(s, ops[0]), ops[1..])
  }

  // ---------------------------------------------------------------- counting the pending requests

  ghost function Total(m: map<Addr, seq<Request>>, t: Tag, q: Measure): nat
    decreases |m|
  {
    if m == map[] then 0
    else
      var a :| a in m;
      Smaller(m, a);
      Sum(m[a], t, q) + Total(m - {a}, t, q)
  }

  lemma Smaller(m: map<Addr, seq<Request>>, a: Addr)
    requires a in m
    ensures |m - {a}| < |m|
  {
    var n := m - {a};
    assert n.Keys == m.Keys - {a};
    assert |n| == |n.Keys| && |m| == |m.Keys|;
  }

  /** The total does not depend on the order in which buckets are added up. */
  lemma {:induction false} TotalSplits(m: map<Addr, seq<Request>>, a: Addr, t: Tag, q: Measure)
    requires a in m
    ensures Total(m, t, q) == Sum(m[a], t, q) + Total(m - {a}, t, q)
    decreases |m|
  {
    var b :| b in m && Total(m, t, q) == Sum(m[b], t, q) + Total(m - {b}, t, q);
    if a != b {
      Smaller(m, a);
      Smaller(m, b);
      TotalSplits(m - {b}, a, t, q);
      TotalSplits(m - {a}, b, t, q);
      assert m - {b} - {a} == m - {a} - {b};
    }
  }

  lemma TotalPut(m: map<Addr, seq<Request>>, a: Addr, rs: seq<Request>, t: Tag, q: Measure)
    ensures Total(Put(m, a, rs), t, q) == Total(m - {a}, t, q) + Sum(rs, t, q)
  {
    var n := Put(m, a, rs);
    if rs != [] {
      TotalSplits(n, a, t, q);
      assert n - {a} == m - {a};
    }
  }

  /** What replacing one bucket does to the total. */
  lemma TotalReplaced(m: map<Addr, seq<Request>>, a: Addr, rs: seq<Request>, t: Tag, q: Measure)
    ensures Total(Put(m, a, rs), t, q) + (if a in m then Sum(m[a], t, q) else 0) == Total(m, t, q) + Sum(rs, t, q)
  {
    TotalPut(m, a, rs, t, q);
    if a in m {
      TotalSplits(m, a, t, q);
    } else {
      assert m - {a} == m;
    }
  }

  lemma {:induction false} SumAppend(a: seq<Request>, b: seq<Request>, t: Tag, q: Measure)
    ensures Sum(a + b, t, q) == Sum(a, t, q) + Sum(b, t, q)
  {
    if a == [] {
      assert a + b == b;
    } else {
      SumAppend(a[1..], b, t, q);
      assert (a + b)[1..] == a[1..] + b;
    }
  }

  // ---------------------------------------------------------------- conservation

  /** Every request that was ever enqueued is pending, resolved, dropped as a duplicate or lost with
      its session, counted with multiplicity. */
  ghost predicate ConservedAt(s: State, t: Tag) {
    Occurs(s.enqueued, t) ==
    Total(s.pending, t, Number) + Called(s.calls, t) + Occurs(s.duplicates, t) + Occurs(s.lost, t)
  }

  /** Every retry ping is paid for by the retry count the request came with. */
  ghost predicate WithinBudgetAt(s: State, t: Tag, retryCount: nat) {
    Occurs(s.pings, t) + Total(s.pending, t, RetriesLeft) <= retryCount * Occurs(s.enqueued, t)
  }

  lemma {:induction false} BucketSplits(rs: seq<Request>, e: Event, alive: map<Session, SessionId>, t: Tag)
    ensures Sum(rs, t, Number) ==
            Sum(Kept(rs, e, alive), t, Number) + Called(Calls(rs, e, alive), t) + Occurs(Losses(rs, e, alive), t)
  {
    if rs != [] {
      BucketSplits(rs[1..], e, alive, t);
      match Judge(e, alive, rs[0]) {
        case Keep(_) => assert Kept(rs, e, alive)[1..] == Kept(rs[1..], e, alive);
        case Resolve(_) => assert Calls(rs, e, alive)[1..] == Calls(rs[1..], e, alive);
        case Lose => assert Losses(rs, e, alive)[1..] == Losses(rs[1..], e, alive);
      }
    }
  }

  lemma {:induction false} PingsPaid(rs: seq<Request>, e: Event, alive: map<Session, SessionId>, t: Tag)
    ensures Sum(Kept(rs, e, alive), t, RetriesLeft) + Occurs(Pings(rs, e, alive), t) <= Sum(rs, t, RetriesLeft)
  {
    if rs != [] {
      PingsPaid(rs[1..], e, alive, t);
      var v := Judge(e, alive, rs[0]);
      if v.Keep? {
        assert Kept(rs, e, alive)[1..] == Kept(rs[1..], e, alive);
        if v.ping {
          assert Pings(rs, e, alive)[1..] == Pings(rs[1..], e, alive);
        }
      }
    }
  }

  lemma {:induction false} CalledAppend(a: seq<(Tag, bool)>, b: seq<(Tag, bool)>, t: Tag)
    ensures Called(a + b, t) == Called(a, t) + Called(b, t)
  {
    if a == [] {
      assert a + b == b;
    } else {
      CalledAppend(a[1..], b, t);
      assert (a + b)[1..] == a[1..] + b;
    }
  }

  lemma {:induction false} OccursAppend(a: seq<Tag>, b: seq<Tag>, t: Tag)
    ensures Occurs(a + b, t) == Occurs(a, t) + Occurs(b, t)
  {
    if a == [] {
      assert a + b == b;
    } else {
      OccursAppend(a[1..], b, t);
      assert (a + b)[1..] == a[1..] + b;
    }
  }

  lemma HandleConserves(s: State, a: Addr, e: Event, alive: map<Session, SessionId>, t: Tag, retryCount: nat)
    ensures ConservedAt(s, t) ==> ConservedAt(HandleBucket(s, a, e, alive), t)
    ensures WithinBudgetAt(s, t, retryCount) ==> WithinBudgetAt(HandleBucket(s, a, e, alive), t, retryCount)
  {
    if a in s.pending {
      var rs := s.pending[a];
      TotalReplaced(s.pending, a, Kept(rs, e, alive), t, Number);
      TotalReplaced(s.pending, a, Kept(rs, e, alive), t, RetriesLeft);
      BucketSplits(rs, e, alive, t);
      PingsPaid(rs, e, alive, t);
      CalledAppend(s.calls, Calls(rs, e, alive), t);
      OccursAppend(s.lost, Losses(rs, e, alive), t);
      OccursAppend(s.pings, Pings(rs, e, alive), t);
    }
  }

  lemma {:induction false} HandleAllConserves(s: State, keys: seq<Addr>, e: Event, alive: map<Session, SessionId>,
                                              t: Tag, retryCount: nat)
    ensures ConservedAt(s, t) ==> ConservedAt(HandleBuckets(s, keys, e, alive), t)
    ensures WithinBudgetAt(s, t, retryCount) ==> WithinBudgetAt(HandleBuckets(s, keys, e, alive), t, retryCount)
    decreases |keys|
  {
    if keys != [] {
      HandleConserves(s, keys[0], e, alive, t, retryCount);
      HandleAllConserves(HandleBucket(s, keys[0], e, alive), keys[1..], e, alive, t, retryCount);
    }
  }

  lemma EnqueueConserves(s: State, r: Request, t: Tag, retryCount: nat)
    requires r.retries == retryCount
    ensures ConservedAt(s, t) ==> ConservedAt(Enqueue(s, r), t)
    ensures WithinBudgetAt(s, t, retryCount) ==> WithinBudgetAt(Enqueue(s, r), t, retryCount)
  {
    OccursAppend(s.enqueued, [r.tag], t);
    var rs := Bucket(s, r.addr);
    if HasSession(rs, r.session) {
      OccursAppend(s.duplicates, [r.tag], t);
    } else {
      TotalReplaced(s.pending, r.addr, rs + [r], t, Number);
      TotalReplaced(s.pending, r.addr, rs + [r], t, RetriesLeft);
      SumAppend(rs, [r], t, Number);
      SumAppend(rs, [r], t, RetriesLeft);
    }
    BudgetGrows(s.enqueued, r.tag, t, retryCount);
  }

  lemma BudgetGrows(tags: seq<Tag>, x: Tag, t: Tag, retryCount: nat)
    ensures retryCount * Occurs(tags + [x], t) == retryCount * Occurs(tags, t) + (if x == t then retryCount else 0)
  {
    OccursAppend(tags, [x], t);
    assert Occurs([x], t) == if x == t then 1 else 0;
  }

  lemma StepConserves(s: State, op: Op, t: Tag, retryCount: nat)
    requires Enabled(s, op, retryCount)
    requires ConservedAt(s, t) && WithinBudgetAt(s, t, retryCount)
    ensures ConservedAt(Step(s, op), t) && WithinBudgetAt(Step(s, op), t, retryCount)
  {
    match op {
      case Enqueuing(r) => EnqueueConserves(s, r, t, retryCount);
      case Ponging(peer, sid, alive) =>
        if sid.Some? {
          HandleConserves(s, peer, Pong(sid.value), alive, t, retryCount);
        }
      case Unreaching(peer, alive) => HandleConserves(s, peer, Unreachable, alive, t, retryCount);
      case Retrying(keys, now, timeout, alive) =>
        HandleAllConserves(s, keys, Retry(now, timeout), alive, t, retryCount);
    }
  }

  predicate EnqueuedOnce(s: State, t: Tag) {
    Occurs(s.enqueued, t) <= 1
  }

  lemma {:induction false} NotThere(tags: seq<Tag>, t: Tag)
    requires t !in tags
    ensures Occurs(tags, t) == 0
  {
    if tags != [] {
      NotThere(tags[1..], t);
    }
  }

  lemma EnqueuesOnce(s: State, op: Op, t: Tag, retryCount: nat)
    requires Enabled(s, op, retryCount) && EnqueuedOnce(s, t)
    ensures EnqueuedOnce(Step(s, op), t)
  {
    match op {
      case Enqueuing(r) =>
        OccursAppend(s.enqueued, [r.tag], t);
        if r.tag == t {
          NotThere(s.enqueued, t);
        }
      case Retrying(keys, now, timeout, alive) => HandleAllKeepsEnqueued(s, keys, Retry(now, timeout), alive);
      case _ =>
    }
  }

  lemma {:induction false} HandleAllKeepsEnqueued(s: State, keys: seq<Addr>, e: Event, alive: map<Session, SessionId>)
    ensures HandleBuckets(s, keys, e, alive).enqueued == s.enqueued
    decreases |keys|
  {
    if keys != [] {
      HandleAllKeepsEnqueued(HandleBucket(s, keys[0], e, alive), keys[1..], e, alive);
    }
  }

  lemma {:induction false} RunConserves(s: State, ops: seq<Op>, t: Tag, retryCount: nat)
    requires IsRun(s, ops, retryCount)
    requires ConservedAt(s, t) && WithinBudgetAt(s, t, retryCount) && EnqueuedOnce(s, t)
    ensures var s' := Run(s, ops); ConservedAt(s', t) && WithinBudgetAt(s', t, retryCount) && EnqueuedOnce(s', t)
    decreases |ops|
  {
    if ops != [] {
      StepConserves(s, ops[0], t, retryCount);
      EnqueuesOnce(s, ops[0], t, retryCount);
      RunConserves(Step(s, ops[0]), ops[1..], t, retryCount);
    }
  }

  /** After any run, a request that was enqueued is in exactly one place: pending, resolved by exactly
      one callback invocation, dropped as a duplicate, or lost with its session; and it was pinged again
      at most as often as the retry count allows. */
  lemma EveryRequestAccountedFor(ops: seq<Op>, t: Tag, retryCount: nat)
    requires IsRun(Init, ops, retryCount)
    ensures var s := Run(Init, ops);
            && Total(s.pending, t, Number) + Called(s.calls, t) + Occurs(s.duplicates, t) + Occurs(s.lost, t)
               == (if t in s.enqueued then 1 else 0)
            && Occurs(s.pings, t) <= retryCount
  {
    assert Total(map[], t, Number) == 0 && Total(map[], t, RetriesLeft) == 0;
    RunConserves(Init, ops, t, retryCount);
    var s := Run(Init, ops);
    if t in s.enqueued {
      There(s.enqueued, t);
    } else {
      NotThere(s.enqueued, t);
    }
    assert retryCount * Occurs(s.enqueued, t) <= retryCount;
  }

  lemma {:induction false} There(tags: seq<Tag>, t: Tag)
    requires t in tags
    ensures Occurs(tags, t) >= 1
  {
    if tags[0] != t {
      There(tags[1..], t);
    }
  }

  // ---------------------------------------------------------------- the buckets

  predicate DistinctSessions(rs: seq<Request>) {
    rs == [] || (!HasSession(rs[1..], rs[0].session) && DistinctSessions(rs[1..]))
  }

  predicate AllAt(rs: seq<Request>, a: Addr) {
    rs == [] || (rs[0].addr == a && AllAt(rs[1..], a))
  }

  /** Buckets are never empty, hold only requests for their own address, one per session. */
  predicate BucketsOk(m: map<Addr, seq<Request>>) {
    forall a :: a in m ==> m[a] != [] && AllAt(m[a], a) && DistinctSessions(m[a])
  }

  lemma {:induction false} KeptOk(rs: seq<Request>, e: Event, alive: map<Session, SessionId>, a: Addr, session: Session)
    ensures AllAt(rs, a) ==> AllAt(Kept(rs, e, alive), a)
    ensures HasSession(Kept(rs, e, alive), session) ==> HasSession(rs, session)
    ensures DistinctSessions(rs) ==> DistinctSessions(Kept(rs, e, alive))
  {
    if rs != [] {
      KeptOk(rs[1..], e, alive, a, session);
      KeptOk(rs[1..], e, alive, a, rs[0].session);
      if Judge(e, alive, rs[0]).Keep? {
        assert Kept(rs, e, alive)[1..] == Kept(rs[1..], e, alive);
      }
    }
  }

  lemma HandleBucketsOk(s: State, a: Addr, e: Event, alive: map<Session, SessionId>)
    requires BucketsOk(s.pending)
    ensures BucketsOk(HandleBucket(s, a, e, alive).pending)
  {
    if a in s.pending {
      KeptOk(s.pending[a], e, alive, a, 0);
    }
  }

  lemma {:induction false} HandleAllOk(s: State, keys: seq<Addr>, e: Event, alive: map<Session, SessionId>)
    requires BucketsOk(s.pending)
    ensures BucketsOk(HandleBuckets(s, keys, e, alive).pending)
    decreases |keys|
  {
    if keys != [] {
      HandleBucketsOk(s, keys[0], e, alive);
      HandleAllOk(HandleBucket(s, keys[0], e, alive), keys[1..], e, alive);
    }
  }

  lemma {:induction false} PushOk(rs: seq<Request>, r: Request, a: Addr, session: Session)
    requires AllAt(rs, a) && r.addr == a
    ensures AllAt(rs + [r], a)
    ensures HasSession(rs + [r], session) <==> HasSession(rs, session) || r.session == session
    ensures DistinctSessions(rs) && !HasSession(rs, r.session) ==> DistinctSessions(rs + [r])
  {
    if rs != [] {
      PushOk(rs[1..], r, a, session);
      PushOk(rs[1..], r, a, rs[0].session);
      assert (rs + [r])[1..] == rs[1..] + [r];
    } else {
      assert rs + [r] == [r] && [r][1..] == [];
    }
  }

  lemma {:induction false} RunKeepsBuckets(s: State, ops: seq<Op>)
    requires BucketsOk(s.pending)
    ensures BucketsOk(Run(s, ops).pending)
    decreases |ops|
  {
    if ops != [] {
      match ops[0] {
        case Enqueuing(r) => PushOk(Bucket(s, r.addr), r, r.addr, 0);
        case Ponging(peer, sid, alive) =>
          if sid.Some? {
            HandleBucketsOk(s, peer, Pong(sid.value), alive);
          }
        case Unreaching(peer, alive) => HandleBucketsOk(s, peer, Unreachable, alive);
        case Retrying(keys, now, timeout, alive) => HandleAllOk(s, keys, Retry(now, timeout), alive);
      }
      RunKeepsBuckets(Step(s, ops[0]), ops[1..]);
    }
  }

  // ---------------------------------------------------------------- timeouts

  predicate InTime(rs: seq<Request>, now: int, timeout: nat, alive: map<Session, SessionId>) {
    rs == [] || (rs[0].session in alive && now - rs[0].ts <= timeout && InTime(rs[1..], now, timeout, alive))
  }

  lemma {:induction false} KeptInTime(rs: seq<Request>, now: int, timeout: nat, alive: map<Session, SessionId>)
    ensures InTime(Kept(rs, Retry(now, timeout), alive), now, timeout, alive)
  {
    if rs != [] {
      KeptInTime(rs[1..], now, timeout, alive);
      if Judge(Retry(now, timeout), alive, rs[0]).Keep? {
        assert Kept(rs, Retry(now, timeout), alive)[1..] == Kept(rs[1..], Retry(now, timeout), alive);
      }
    }
  }

  predicate AllInTime(m: map<Addr, seq<Request>>, now: int, timeout: nat, alive: map<Session, SessionId>) {
    forall a :: a in m ==> InTime(m[a], now, timeout, alive)
  }

  predicate OthersInTime(m: map<Addr, seq<Request>>, keys: seq<Addr>, now: int, timeout: nat,
                         alive: map<Session, SessionId>)
  {
    forall a :: a in m ==> a in keys || InTime(m[a], now, timeout, alive)
  }

  lemma {:induction false} HandleAllInTime(s: State, keys: seq<Addr>, now: int, timeout: nat,
                                           alive: map<Session, SessionId>)
    requires OthersInTime(s.pending, keys, now, timeout, alive)
    ensures AllInTime(HandleBuckets(s, keys, Retry(now, timeout), alive).pending, now, timeout, alive)
    decreases |keys|
  {
    if keys != [] {
      var s1 := HandleBucket(s, keys[0], Retry(now, timeout), alive);
      if keys[0] in s.pending {
        KeptInTime(s.pending[keys[0]], now, timeout, alive);
      }
      forall a | a in s1.pending ensures a in keys[1..] || InTime(s1.pending[a], now, timeout, alive) {
        if a != keys[0] && a in keys {
          var i :| 0 <= i < |keys| && keys[i] == a;
          assert keys[1..][i - 1] == a;
        }
      }
      HandleAllInTime(s1, keys[1..], now, timeout, alive);
    }
  }

  /** After the pings have been sent nothing is pending that has timed out or lost its session. */
  lemma NoTimedOutSurvivor(s: State, keys: seq<Addr>, now: int, timeout: nat, alive: map<Session, SessionId>)
    requires Enumerates(keys, s.pending)
    ensures AllInTime(Step(s, Retrying(keys, now, timeout, alive)).pending, now, timeout, alive)
  {
    HandleAllInTime(s, keys, now, timeout, alive);
  }

  // ---------------------------------------------------------------- outcomes

  /** The event answers the request: a pong with the id of its live session says yes, an unreachable address
      or a timeout says no. */
  predicate Answered(e: Event, alive: map<Session, SessionId>, r: Request, ok: bool) {
    && r.session in alive
    && (ok ==> e.Pong? && e.sid == alive[r.session])
    && (!ok ==> e.Unreachable? || (e.Retry? && r.ts + e.timeout < e.now))
  }

  predicate Unanswered(e: Event, alive: map<Session, SessionId>, r: Request) {
    r.session in alive && !Answered(e, alive, r, true) && !Answered(e, alive, r, false)
  }

  predicate PingDue(e: Event, alive: map<Session, SessionId>, r: Request) {
    e.Retry? && Unanswered(e, alive, r) && r.retries > 0
  }

  /** What is left of a request that has not been answered. */
  function Remaining(e: Event, alive: map<Session, SessionId>, r: Request): Request {
    if PingDue(e, alive, r) then r.(retries := r.retries - 1) else r
  }

  /** One request of a bucket: exactly one of kept, answered and lost. */
  lemma OneFate(e: Event, alive: map<Session, SessionId>, r: Request)
    ensures forall ok :: Answered(e, alive, r, ok) <==> Judge(e, alive, r) == Resolve(ok)
    ensures Unanswered(e, alive, r) <==> Judge(e, alive, r).Keep?
    ensures r.session !in alive <==> Judge(e, alive, r).Lose?
    ensures PingDue(e, alive, r) <==> Judge(e, alive, r) == Keep(true)
    ensures Judge(e, alive, r).Keep? ==> Pinged(r, Judge(e, alive, r)) == Remaining(e, alive, r)
  {
  }

  /** The callback of a request is invoked exactly with the answer the event gives to it. */
  lemma {:induction false} CallsAreAnswers(rs: seq<Request>, e: Event, alive: map<Session, SessionId>, t: Tag, ok: bool)
    ensures (t, ok) in Calls(rs, e, alive) <==> exists r :: r in rs && r.tag == t && Answered(e, alive, r, ok)
  {
    if rs != [] {
      OneFate(e, alive, rs[0]);
      CallsAreAnswers(rs[1..], e, alive, t, ok);
      assert forall r :: r in rs <==> r == rs[0] || r in rs[1..];
    }
  }

  lemma {:induction false} LossesAreGone(rs: seq<Request>, e: Event, alive: map<Session, SessionId>, t: Tag)
    ensures t in Losses(rs, e, alive) <==> exists r :: r in rs && r.tag == t && r.session !in alive
  {
    if rs != [] {
      OneFate(e, alive, rs[0]);
      LossesAreGone(rs[1..], e, alive, t);
      assert forall r :: r in rs <==> r == rs[0] || r in rs[1..];
    }
  }

  lemma {:induction false} PingsAreDue(rs: seq<Request>, e: Event, alive: map<Session, SessionId>, t: Tag)
    ensures t in Pings(rs, e, alive) <==> exists r :: r in rs && r.tag == t && PingDue(e, alive, r)
  {
    if rs != [] {
      OneFate(e, alive, rs[0]);
      PingsAreDue(rs[1..], e, alive, t);
      assert forall r :: r in rs <==> r == rs[0] || r in rs[1..];
    }
  }

  lemma {:induction false} KeptAreUnanswered(rs: seq<Request>, e: Event, alive: map<Session, SessionId>, x: Request)
    ensures x in Kept(rs, e, alive) <==>
            exists r :: r in rs && Unanswered(e, alive, r) && x == Remaining(e, alive, r)
  {
    if rs != [] {
      OneFate(e, alive, rs[0]);
      KeptAreUnanswered(rs[1..], e, alive, x);
      assert forall r :: r in rs <==> r == rs[0] || r in rs[1..];
    }
  }

  // ---------------------------------------------------------------- over all buckets

  /** What handling the buckets `keys` adds to the calls, the pings and the losses. */
  function CallsOver(m: map<Addr, seq<Request>>, keys: seq<Addr>, e: Event, alive: map<Session, SessionId>)
    : seq<(Tag, bool)>
  {
    if keys == [] then []
    else (if keys[0] in m then Calls(m[keys[0]], e, alive) else []) + CallsOver(m, keys[1..], e, alive)
  }

  function PingsOver(m: map<Addr, seq<Request>>, keys: seq<Addr>, e: Event, alive: map<Session, SessionId>): seq<Tag> {
    if keys == [] then []
    else (if keys[0] in m then Pings(m[keys[0]], e, alive) else []) + PingsOver(m, keys[1..], e, alive)
  }

  function LossesOver(m: map<Addr, seq<Request>>, keys: seq<Addr>, e: Event, alive: map<Session, SessionId>): seq<Tag> {
    if keys == [] then []
    else (if keys[0] in m then Losses(m[keys[0]], e, alive) else []) + LossesOver(m, keys[1..], e, alive)
  }

  predicate Agree(m: map<Addr, seq<Request>>, n: map<Addr, seq<Request>>, keys: seq<Addr>) {
    forall a :: a in keys ==> (a in m <==> a in n) && (a in m && a in n ==> m[a] == n[a])
  }

  lemma {:induction false} OverAgree(m: map<Addr, seq<Request>>, n: map<Addr, seq<Request>>, keys: seq<Addr>, e: Event,
                                     alive: map<Session, SessionId>)
    requires Agree(m, n, keys)
    ensures CallsOver(m, keys, e, alive) == CallsOver(n, keys, e, alive)
    ensures PingsOver(m, keys, e, alive) == PingsOver(n, keys, e, alive)
    ensures LossesOver(m, keys, e, alive) == LossesOver(n, keys, e, alive)
    decreases |keys|
  {
    if keys != [] {
      OverAgree(m, n, keys[1..], e, alive);
    }
  }

  lemma Associates<T>(a: seq<T>, b: seq<T>, c: seq<T>)
    ensures a + b + c == a + (b + c)
  {
  }

  lemma OneBucketAdds(s: State, a: Addr, e: Event, alive: map<Session, SessionId>)
    ensures var s' := HandleBucket(s, a, e, alive); var rs := Bucket(s, a);
            && s'.calls == s.calls + Calls(rs, e, alive) && s'.pings == s.pings + Pings(rs, e, alive)
            && s'.lost == s.lost + Losses(rs, e, alive) && s'.duplicates == s.duplicates
  {
    if a !in s.pending {
      assert s.calls + [] == s.calls && s.pings + [] == s.pings && s.lost + [] == s.lost;
    }
  }

  lemma {:induction false} HandleAllAdds(s: State, keys: seq<Addr>, e: Event, alive: map<Session, SessionId>)
    requires forall i, j :: 0 <= i < j < |keys| ==> keys[i] != keys[j]
    ensures var s' := HandleBuckets(s, keys, e, alive);
            && s'.calls == s.calls + CallsOver(s.pending, keys, e, alive)
            && s'.pings == s.pings + PingsOver(s.pending, keys, e, alive)
            && s'.lost == s.lost + LossesOver(s.pending, keys, e, alive)
            && s'.duplicates == s.duplicates
    decreases |keys|
  {
    if keys != [] {
      var s1, rest := HandleBucket(s, keys[0], e, alive), keys[1..];
      HandleAllAdds(s1, rest, e, alive);
      assert Agree(s1.pending, s.pending, rest);
      OverAgree(s1.pending, s.pending, rest, e, alive);
      var rs := Bucket(s, keys[0]);
      OneBucketAdds(s, keys[0], e, alive);
      Associates(s.calls, Calls(rs, e, alive), CallsOver(s.pending, rest, e, alive));
      Associates(s.pings, Pings(rs, e, alive), PingsOver(s.pending, rest, e, alive));
      Associates(s.lost, Losses(rs, e, alive), LossesOver(s.pending, rest, e, alive));
    }
  }

  lemma {:induction false} HandleAllKeeps(s: State, keys: seq<Addr>, e: Event, alive: map<Session, SessionId>, a: Addr)
    requires forall i, j :: 0 <= i < j < |keys| ==> keys[i] != keys[j]
    ensures Bucket(HandleBuckets(s, keys, e, alive), a) ==
            if a in keys then Kept(Bucket(s, a), e, alive) else Bucket(s, a)
    decreases |keys|
  {
    if keys != [] {
      HandleAllKeeps(HandleBucket(s, keys[0], e, alive), keys[1..], e, alive, a);
    }
  }

  lemma {:induction false} CallsOverAre(m: map<Addr, seq<Request>>, keys: seq<Addr>, e: Event,
                                        alive: map<Session, SessionId>, t: Tag, ok: bool)
    ensures (t, ok) in CallsOver(m, keys, e, alive) <==>
            exists a, r :: a in keys && a in m && r in m[a] && r.tag == t && Answered(e, alive, r, ok)
    decreases |keys|
  {
    if keys != [] {
      CallsOverAre(m, keys[1..], e, alive, t, ok);
      if keys[0] in m {
        CallsAreAnswers(m[keys[0]], e, alive, t, ok);
      }
      assert forall a :: a in keys <==> a == keys[0] || a in keys[1..];
    }
  }

  lemma {:induction false} PingsOverAre(m: map<Addr, seq<Request>>, keys: seq<Addr>, e: Event,
                                        alive: map<Session, SessionId>, t: Tag)
    ensures t in PingsOver(m, keys, e, alive) <==>
            exists a, r :: a in keys && a in m && r in m[a] && r.tag == t && PingDue(e, alive, r)
    decreases |keys|
  {
    if keys != [] {
      PingsOverAre(m, keys[1..], e, alive, t);
      if keys[0] in m {
        PingsAreDue(m[keys[0]], e, alive, t);
      }
      assert forall a :: a in keys <==> a == keys[0] || a in keys[1..];
    }
  }

  lemma {:induction false} LossesOverAre(m: map<Addr, seq<Request>>, keys: seq<Addr>, e: Event,
                                         alive: map<Session, SessionId>, t: Tag)
    ensures t in LossesOver(m, keys, e, alive) <==>
            exists a, r :: a in keys && a in m && r in m[a] && r.tag == t && r.session !in alive
    decreases |keys|
  {
    if keys != [] {
      LossesOverAre(m, keys[1..], e, alive, t);
      if keys[0] in m {
        LossesAreGone(m[keys[0]], e, alive, t);
      }
      assert forall a :: a in keys <==> a == keys[0] || a in keys[1..];
    }
  }

  // ---------------------------------------------------------------- what an operation does to a request

  predicate IsPending(s: State, r: Request) {
    r.addr in s.pending && r in s.pending[r.addr]
  }

  /** The operation looks at the request's bucket. */
  predicate Concerns(op: Op, r: Request) {
    match op
    case Enqueuing(_) => false
    case Ponging(peer, sid, _) => sid.Some? && peer == r.addr
    case Unreaching(peer, _) => peer == r.addr
    case Retrying(_, _, _, _) => true
  }

  /** The answer is yes exactly to a pong from the request's address with the id of its live session; it is no
      exactly if the address is unreachable or the request has timed out, while its session is alive. */
  predicate Answers(op: Op, r: Request, ok: bool) {
    match op
    case Enqueuing(_) => false
    case Ponging(peer, sid, alive) => ok && peer == r.addr && r.session in alive && sid == Some(alive[r.session])
    case Unreaching(peer, alive) => !ok && peer == r.addr && r.session in alive
    case Retrying(_, now, timeout, alive) => !ok && r.session in alive && r.ts + timeout < now
  }

  /** A retry ping is due to a request whose session is alive, that has not timed out and has retries left. */
  predicate PingsAgain(op: Op, r: Request) {
    op.Retrying? && r.session in op.alive && op.now <= r.ts + op.timeout && r.retries > 0
  }

  function Visited(op: Op): seq<Addr> {
    match op
    case Enqueuing(_) => []
    case Ponging(peer, sid, _) => if sid.Some? then [peer] else []
    case Unreaching(peer, _) => [peer]
    case Retrying(keys, _, _, _) => keys
  }

  function EventOf(op: Op): Event {
    match op
    case Ponging(_, sid, _) => Pong(if sid.Some? then sid.value else 0)
    case Retrying(_, now, timeout, _) => Retry(now, timeout)
    case _ => Unreachable
  }

  lemma StepVisits(s: State, op: Op)
    requires !op.Enqueuing?
    ensures Step(s, op) == HandleBuckets(s, Visited(op), EventOf(op), op.alive)
  {
  }

  lemma {:induction false} AtOwnAddress(rs: seq<Request>, a: Addr, r: Request)
    requires AllAt(rs, a) && r in rs
    ensures r.addr == a
  {
    if rs[0] != r {
      AtOwnAddress(rs[1..], a, r);
    }
  }

  /** Pending requests are found in the bucket of their address and nowhere else. */
  lemma PendingIn(s: State, a: Addr, r: Request)
    requires BucketsOk(s.pending)
    ensures a in s.pending && r in s.pending[a] <==> IsPending(s, r) && r.addr == a
  {
    if a in s.pending && r in s.pending[a] {
      AtOwnAddress(s.pending[a], a, r);
    }
  }

  predicate Visits(s: State, op: Op) {
    BucketsOk(s.pending) && !op.Enqueuing? && (op.Retrying? ==> Enumerates(op.keys, s.pending))
  }

  lemma VisitedIffConcerned(s: State, op: Op, r: Request)
    requires Visits(s, op) && IsPending(s, r)
    ensures r.addr in Visited(op) <==> Concerns(op, r)
    ensures forall ok :: Answers(op, r, ok) <==>
              Concerns(op, r) && Answered(EventOf(op), op.alive, r, ok)
    ensures PingsAgain(op, r) <==> Concerns(op, r) && PingDue(EventOf(op), op.alive, r)
  {
  }

  lemma CallsOf(s: State, op: Op, t: Tag, ok: bool) returns (added: seq<(Tag, bool)>)
    requires Visits(s, op)
    ensures Step(s, op).calls == s.calls + added
    ensures (t, ok) in added <==> exists r :: IsPending(s, r) && r.tag == t && Answers(op, r, ok)
  {
    StepVisits(s, op);
    HandleAllAdds(s, Visited(op), EventOf(op), op.alive);
    added := CallsOver(s.pending, Visited(op), EventOf(op), op.alive);
    CallsOverAre(s.pending, Visited(op), EventOf(op), op.alive, t, ok);
    forall a, r | a in Visited(op) && a in s.pending && r in s.pending[a]
      ensures IsPending(s, r) && r.addr in Visited(op)
    {
      PendingIn(s, a, r);
    }
    forall r | IsPending(s, r)
      ensures r.addr in Visited(op) && Answered(EventOf(op), op.alive, r, ok) <==> Answers(op, r, ok)
    {
      VisitedIffConcerned(s, op, r);
    }
  }

  lemma LossesOf(s: State, op: Op, t: Tag) returns (added: seq<Tag>)
    requires Visits(s, op)
    ensures Step(s, op).lost == s.lost + added
    ensures t in added <==> exists r :: IsPending(s, r) && r.tag == t && Concerns(op, r) && r.session !in op.alive
  {
    StepVisits(s, op);
    HandleAllAdds(s, Visited(op), EventOf(op), op.alive);
    added := LossesOver(s.pending, Visited(op), EventOf(op), op.alive);
    LossesOverAre(s.pending, Visited(op), EventOf(op), op.alive, t);
    forall a, r | a in Visited(op) && a in s.pending && r in s.pending[a]
      ensures IsPending(s, r) && r.addr in Visited(op)
    {
      PendingIn(s, a, r);
    }
    forall r | IsPending(s, r) ensures r.addr in Visited(op) <==> Concerns(op, r) {
      VisitedIffConcerned(s, op, r);
    }
  }

  lemma PingsOf(s: State, op: Op, t: Tag) returns (added: seq<Tag>)
    requires Visits(s, op)
    ensures Step(s, op).pings == s.pings + added
    ensures t in added <==> exists r :: IsPending(s, r) && r.tag == t && PingsAgain(op, r)
  {
    StepVisits(s, op);
    HandleAllAdds(s, Visited(op), EventOf(op), op.alive);
    added := PingsOver(s.pending, Visited(op), EventOf(op), op.alive);
    PingsOverAre(s.pending, Visited(op), EventOf(op), op.alive, t);
    forall a, r | a in Visited(op) && a in s.pending && r in s.pending[a]
      ensures IsPending(s, r) && r.addr in Visited(op)
    {
      PendingIn(s, a, r);
    }
    forall r | IsPending(s, r)
      ensures r.addr in Visited(op) && PingDue(EventOf(op), op.alive, r) <==> PingsAgain(op, r)
    {
      VisitedIffConcerned(s, op, r);
    }
  }

  /** What the operation leaves of a pending request: nothing, or the request with a ping paid. */
  predicate Leaves(op: Op, r: Request, x: Request) {
    if !Concerns(op, r) then x == r
    else
      && r.session in op.alive && !Answers(op, r, true) && !Answers(op, r, false)
      && x == if PingsAgain(op, r) then r.(retries := r.retries - 1) else r
  }

  lemma LeftPending(s: State, op: Op, x: Request)
    requires Visits(s, op)
    ensures IsPending(Step(s, op), x) <==> exists r :: IsPending(s, r) && Leaves(op, r, x)
  {
    StepVisits(s, op);
    var a, e := x.addr, EventOf(op);
    HandleAllKeeps(s, Visited(op), e, op.alive, a);
    KeptAreUnanswered(Bucket(s, a), e, op.alive, x);
    assert IsPending(Step(s, op), x) <==> x in Bucket(Step(s, op), a);
    forall r | IsPending(s, r)
      ensures Leaves(op, r, x) <==> r.addr == a && (if a in Visited(op)
                then Unanswered(e, op.alive, r) && x == Remaining(e, op.alive, r) else x == r)
    {
      VisitedIffConcerned(s, op, r);
    }
    forall r ensures r in Bucket(s, a) <==> IsPending(s, r) && r.addr == a {
      PendingIn(s, a, r);
    }
  }

  /** After any run, the next operation invokes the callback of a pending request with `ok` exactly if it
      answers the request with `ok`; it loses exactly the requests it looks at whose session is gone, pings
      exactly those with a ping due, and leaves the others as they are. */
  lemma RequestsGetTheirAnswer(ops: seq<Op>, op: Op, t: Tag, ok: bool, x: Request, retryCount: nat)
    returns (calls: seq<(Tag, bool)>, lost: seq<Tag>, pings: seq<Tag>)
    requires IsRun(Init, ops, retryCount) && Enabled(Run(Init, ops), op, retryCount) && !op.Enqueuing?
    ensures var s := Run(Init, ops); var s' := Step(s, op);
            && s'.calls == s.calls + calls && s'.lost == s.lost + lost && s'.pings == s.pings + pings
            && ((t, ok) in calls <==> exists r :: IsPending(s, r) && r.tag == t && Answers(op, r, ok))
            && (t in lost <==> exists r :: IsPending(s, r) && r.tag == t && Concerns(op, r) && r.session !in op.alive)
            && (t in pings <==> exists r :: IsPending(s, r) && r.tag == t && PingsAgain(op, r))
            && (IsPending(s', x) <==> exists r :: IsPending(s, r) && Leaves(op, r, x))
  {
    var s := Run(Init, ops);
    RunKeepsBuckets(Init, ops);
    calls := CallsOf(s, op, t, ok);
    lost := LossesOf(s, op, t);
    pings := PingsOf(s, op, t);
    LeftPending(s, op, x);
  }

  lemma {:induction false} SessionIn(rs: seq<Request>, session: Session)
    ensures HasSession(rs, session) <==> exists r :: r in rs && r.session == session
  {
    if rs != [] {
      SessionIn(rs[1..], session);
      assert forall r :: r in rs <==> r == rs[0] || r in rs[1..];
    }
  }

  /** A new request is pending afterwards, at the end of its bucket, exactly if no request of its session is
      pending at its address; otherwise it is dropped. Everything else stays as it is. */
  lemma EnqueuedUnlessPending(ops: seq<Op>, q: Request, retryCount: nat)
    requires IsRun(Init, ops, retryCount) && Enabled(Run(Init, ops), Enqueuing(q), retryCount)
    ensures var s := Run(Init, ops); var s' := Step(s, Enqueuing(q));
            && s'.calls == s.calls && s'.pings == s.pings && s'.lost == s.lost
            && if exists r :: IsPending(s, r) && r.addr == q.addr && r.session == q.session
               then s'.pending == s.pending && s'.duplicates == s.duplicates + [q.tag]
               else s'.pending == s.pending[q.addr := Bucket(s, q.addr) + [q]] && s'.duplicates == s.duplicates
  {
    var s := Run(Init, ops);
    RunKeepsBuckets(Init, ops);
    SessionIn(Bucket(s, q.addr), q.session);
    forall r ensures r in Bucket(s, q.addr) <==> IsPending(s, r) && r.addr == q.addr {
      PendingIn(s, q.addr, r);
    }
  }
}

/** The checker's table as it is kept in memory. Callback invocations and retry pings are recorded. */
module IpCheckers {
  import opened Wrappers
  import opened C = IpChecks

  class IpCheckerState {
    var requests: map<Addr, seq<Request>>
    var calls: seq<(Tag, bool)>
    var pings: seq<Tag>
    ghost var enqueued: seq<Tag>
    ghost var duplicates: seq<Tag>
    ghost var lost: seq<Tag>

    constructor ()
      ensures Model() == Init
    {
      requests := map[];
      calls, pings := [], [];
      enqueued, duplicates, lost := [], [], [];
    }

    ghost function Model(): State
      reads this
    {
      State(requests, calls, pings, enqueued, duplicates, lost)
    }

    method IsPending(rs: seq<Request>, session: Session) returns (found: bool)
      ensures found == HasSession(rs, session)
    {
      for i := 0 to |rs|
        invariant HasSession(rs, session) == HasSession(rs[i..], session)
      {
        if rs[i].session == session {
          return true;
        }
        assert rs[i..][1..] == rs[i + 1..];
      }
      return false;
    }

    method EnqueueRequest(r: Request)
      modifies this
      ensures Model() == Enqueue(old(Model()), r)
    {
      var rs := if r.addr in requests then requests[r.addr] else [];
      var known := IsPending(rs, r.session);
      enqueued := enqueued + [r.tag];
      if known {
        duplicates := duplicates + [r.tag];
      } else {
        requests := requests[r.addr := rs + [r]];
      }
    }

    /** Keep the requests whose session is still there and has another id; resolve those with the id. */
    method FilterPong(rs: seq<Request>, sid: SessionId, alive: map<Session, SessionId>) returns (kept: seq<Request>)
      modifies this`calls, this`lost
      ensures kept == Kept(rs, Pong(sid), alive)
      ensures calls == old(calls) + Calls(rs, Pong(sid), alive)
      ensures lost == old(lost) + Losses(rs, Pong(sid), alive)
    {
      var e := Pong(sid);
      kept := [];
      for i := 0 to |rs|
        invariant kept + Kept(rs[i..], e, alive) == Kept(rs, e, alive)
        invariant calls + Calls(rs[i..], e, alive) == old(calls) + Calls(rs, e, alive)
        invariant lost + Losses(rs[i..], e, alive) == old(lost) + Losses(rs, e, alive)
      {
        assert rs[i..][1..] == rs[i + 1..];
        var req := rs[i];
        if req.session !in alive {
          lost := lost + [req.tag];
        } else if alive[req.session] == sid {
          calls := calls + [(req.tag, true)];
        } else {
          kept := kept + [req];
        }
      }
    }

    /** Resolve every request whose session is still there. */
    method FailAll(rs: seq<Request>, alive: map<Session, SessionId>)
      modifies this`calls, this`lost
      ensures Kept(rs, Unreachable, alive) == []
      ensures calls == old(calls) + Calls(rs, Unreachable, alive)
      ensures lost == old(lost) + Losses(rs, Unreachable, alive)
    {
      var e := Unreachable;
      for i := 0 to |rs|
        invariant Kept(rs[i..], e, alive) == Kept(rs, e, alive)
        invariant calls + Calls(rs[i..], e, alive) == old(calls) + Calls(rs, e, alive)
        invariant lost + Losses(rs[i..], e, alive) == old(lost) + Losses(rs, e, alive)
      {
        assert rs[i..][1..] == rs[i + 1..];
        if rs[i].session in alive {
          calls := calls + [(rs[i].tag, false)];
        } else {
          lost := lost + [rs[i].tag];
        }
      }
    }

    /** Resolve what has timed out; ping the rest again while it has retries left. */
    method FilterRetry(rs: seq<Request>, now: int, timeout: nat, alive: map<Session, SessionId>)
      returns (kept: seq<Request>)
      modifies this`calls, this`pings, this`lost
      ensures kept == Kept(rs, Retry(now, timeout), alive)
      ensures calls == old(calls) + Calls(rs, Retry(now, timeout), alive)
      ensures pings == old(pings) + Pings(rs, Retry(now, timeout), alive)
      ensures lost == old(lost) + Losses(rs, Retry(now, timeout), alive)
    {
      var e := Retry(now, timeout);
      kept := [];
      for i := 0 to |rs|
        invariant kept + Kept(rs[i..], e, alive) == Kept(rs, e, alive)
        invariant calls + Calls(rs[i..], e, alive) == old(calls) + Calls(rs, e, alive)
        invariant pings + Pings(rs[i..], e, alive) == old(pings) + Pings(rs, e, alive)
        invariant lost + Losses(rs[i..], e, alive) == old(lost) + Losses(rs, e, alive)
      {
        assert rs[i..][1..] == rs[i + 1..];
        var req := rs[i];
        if req.session !in alive {
          lost := lost + [req.tag];
        } else if now - req.ts > timeout {
          calls := calls + [(req.tag, false)];
        } else {
          if req.retries > 0 {
            req := req.(retries := req.retries - 1);
            pings := pings + [req.tag];
          }
          kept := kept + [req];
        }
      }
    }

    /** A pong that carries no valid session id is ignored. */
    method ResolveSuccess(peer: Addr, sid: Option<SessionId>, alive: map<Session, SessionId>)
      modifies this
      ensures Model() == Step(old(Model()), Ponging(peer, sid, alive))
    {
      if sid.Some? && peer in requests {
        OnlyRetriesPing(requests[peer], Pong(sid.value), alive);
        var kept := FilterPong(requests[peer], sid.value, alive);
        requests := if kept == [] then requests - {peer} else requests[peer := kept];
      }
    }

    method ResolveUnreachable(peer: Addr, alive: map<Session, SessionId>)
      modifies this
      ensures Model() == Step(old(Model()), Unreaching(peer, alive))
    {
      if peer in requests {
        var reqs := requests[peer];
        OnlyRetriesPing(reqs, Unreachable, alive);
        requests := requests - {peer};
        FailAll(reqs, alive);
      }
    }

    method RetryBucket(a: Addr, now: int, timeout: nat, alive: map<Session, SessionId>)
      modifies this
      ensures Model() == HandleBucket(old(Model()), a, Retry(now, timeout), alive)
    {
      if a in requests {
        var kept := FilterRetry(requests[a], now, timeout, alive);
        requests := if kept == [] then requests - {a} else requests[a := kept];
      }
    }

    /** Visit every bucket once, in some order. */
    method SendPings(now: int, timeout: nat, alive: map<Session, SessionId>) returns (ghost keys: seq<Addr>)
      modifies this
      ensures Enumerates(keys, old(requests))
      ensures Model() == Step(old(Model()), Retrying(keys, now, timeout, alive))
    {
      keys := [];
      var rest := requests.Keys;
      while rest != {}
        invariant forall a :: a in keys ==> a in old(requests) && a !in rest
        invariant forall a :: a in old(requests) ==> a in keys || a in rest
        invariant forall i, j :: 0 <= i < j < |keys| ==> keys[i] != keys[j]
        invariant Model() == HandleBuckets(old(Model()), keys, Retry(now, timeout), alive)
        invariant rest <= old(requests).Keys
        decreases rest
      {
        var a :| a in rest;
        HandleOneMore(old(Model()), keys, a, Retry(now, timeout), alive);
        RetryBucket(a, now, timeout, alive);
        keys := keys + [a];
        rest := rest - {a};
      }
    }
  }

  lemma {:induction false} OnlyRetriesPing(rs: seq<Request>, e: Event, alive: map<Session, SessionId>)
    requires !e.Retry?
    ensures Pings(rs, e, alive) == []
  {
    if rs != [] {
      OnlyRetriesPing(rs[1..], e, alive);
    }
  }

  lemma {:induction false} HandleOneMore(s: State, keys: seq<Addr>, a: Addr, e: Event, alive: map<Session, SessionId>)
    ensures HandleBuckets(s, keys + [a], e, alive) == HandleBucket(HandleBuckets(s, keys, e, alive), a, e, alive)
    decreases |keys|
  {
    if keys == [] {
      assert keys + [a] == [a] && [a][1..] == [];
      assert HandleBuckets(HandleBucket(s, a, e, alive), [], e, alive) == HandleBucket(s, a, e, alive);
    } else {
      HandleOneMore(HandleBucket(s, keys[0], e, alive), keys[1..], a, e, alive);
      assert (keys + [a])[1..] == keys[1..] + [a];
    }
  }
}

/** The token buckets that limit how fast requests are taken from one address or service node. */
module RateLimiter {
  import opened MonitorTypes

  const BUCKET_SIZE: nat := 600
  const TOKEN_RATE: nat := 300
  const TOKEN_RATE_SN: nat := 600
  const MAX_CLIENTS: nat := 10000
  const UINT32: nat := 0x1_0000_0000

  /** Whole microseconds between two tokens: 3333 for clients, 1666 for service nodes. */
  const TOKEN_PERIOD_US: nat := 1_000_000 / TOKEN_RATE
  const TOKEN_PERIOD_SN_US: nat := 1_000_000 / TOKEN_RATE_SN
  const FILL_EMPTY_BUCKET_US: nat := TOKEN_PERIOD_US * BUCKET_SIZE

  datatype Bucket = Bucket(tokens: nat, last: Time)

  /** Division that truncates toward zero. */
  function TruncDiv(a: int, b: int): int
    requires b > 0
  {
    if a >= 0 then a / b else -(-a / b)
  }

  /** As a 32-bit unsigned number: wrapped around, if it does not fit. */
  function Uint32(n: int): nat {
    if 0 <= n < UINT32 then n else n % UINT32
  }

  function Period(sn: bool): (p: nat)
    ensures p > 0
  {
    if sn then TOKEN_PERIOD_SN_US else TOKEN_PERIOD_US
  }

  /** The tokens that the time since the last request taken is worth, as a 32-bit number: the time is clamped
      to how long the bucket takes to fill. */
  function Added(b: Bucket, now: Time, sn: bool): nat {
    Uint32(Worth(TruncDiv(now - b.last, 1000), sn))
  }

  function Worth(us: int, sn: bool): int {
    TruncDiv(if us < FILL_EMPTY_BUCKET_US then us else FILL_EMPTY_BUCKET_US, Period(sn))
  }

  function Fill(b: Bucket, now: Time, sn: bool): Bucket {
    var n := Uint32(b.tokens + Added(b, now, sn));
    b.(tokens := if n >= BUCKET_SIZE then BUCKET_SIZE else n)
  }

  predicate IsFull(b: Bucket) {
    b.tokens == BUCKET_SIZE
  }

  /** Takes a token, if there is one: the bucket then, and whether there was. */
  function Remove(b: Bucket, now: Time, sn: bool): (Bucket, bool) {
    var f := Fill(b, now, sn);
    if f.tokens == 0 then (f, false) else (Bucket(f.tokens - 1, now), true)
  }

  /** A request of one identifier, which may have no bucket yet. */
  function Ask(o: Option<Bucket>, now: Time, sn: bool): (Option<Bucket>, bool) {
    if o.None? then (Some(Bucket(BUCKET_SIZE - 1, now)), true)
    else var (b, taken) := Remove(o.value, now, sn); (Some(b), taken)
  }

  /** Requests of one identifier at the given times: its bucket after them, and which of them were taken. */
  function Serve(o: Option<Bucket>, times: seq<Time>, sn: bool): (r: (Option<Bucket>, seq<bool>))
    ensures |r.1| == |times|
    decreases |times|
  {
    if times == [] then (o, [])
    else
      var k := |times| - 1;
      var (o1, before) := Serve(o, times[..k], sn);
      var (o2, taken) := Ask(o1, times[k], sn);
      (o2, before + [taken])
  }

  function Taken(answers: seq<bool>): nat {
    if answers == [] then 0 else Taken(answers[..|answers| - 1]) + if answers[|answers| - 1] then 1 else 0
  }

  // ---- An ideal bucket

  /** How many whole periods a time is, in nanoseconds. */
  function Whole(ns: nat, sn: bool): nat {
    if sn then ns / 1_666_000 else ns / 3_333_000
  }

  /** A bucket that a run of requests can leave. */
  predicate Usual(b: Bucket, now: Time) {
    b.tokens <= BUCKET_SIZE && b.last <= now
  }

  /** Clamping the time and counting in 32 bits change nothing, with times that do not go back: the bucket
      gains a token for each whole period, up to its size. */
  lemma FillIsIdeal(b: Bucket, now: Time, sn: bool)
    requires Usual(b, now)
    ensures var n := b.tokens + Whole(now - b.last, sn);
      Fill(b, now, sn).tokens == if n >= BUCKET_SIZE then BUCKET_SIZE else n
  {
    AddedIs(b, now, sn);
  }

  lemma AddedIs(b: Bucket, now: Time, sn: bool)
    requires b.last <= now
    ensures var n, w := Added(b, now, sn), Whole(now - b.last, sn);
      n <= 1200 && (n == w || (600 <= n && 600 <= w))
  {
    var ns := now - b.last;
    WorthIs(ns, sn);
    assert TruncDiv(ns, 1000) == ns / 1000;
  }

  lemma WorthIs(ns: nat, sn: bool)
    ensures var n, w := Worth(ns / 1000, sn), Whole(ns, sn);
      0 <= n <= 1200 && (n == w || (600 <= n && 600 <= w))
  {
    if sn { WorthSn(ns / 1000); WholeSn(ns); } else { WorthClient(ns / 1000); WholeClient(ns); }
  }

  lemma WorthClient(us: nat)
    ensures Worth(us, false) == if us < 1_999_800 then us / 3333 else 600
  {
    assert TOKEN_PERIOD_US == 3333;
  }

  lemma WorthSn(us: nat)
    ensures Worth(us, true) == if us < 1_999_800 then us / 1666 else 1200
  {
    assert TOKEN_PERIOD_SN_US == 1666 && TOKEN_PERIOD_US == 3333;
  }

  lemma WholeClient(ns: nat)
    ensures Whole(ns, false) == ns / 1000 / 3333
  {
  }

  lemma WholeSn(ns: nat)
    ensures Whole(ns, true) == ns / 1000 / 1666
  {
  }

  lemma WholeAdds(x: nat, y: nat, sn: bool)
    ensures Whole(x, sn) + Whole(y, sn) <= Whole(x + y, sn)
  {
  }

  // ---- The bound

  lemma AskKeeps(o: Option<Bucket>, now: Time, sn: bool)
    requires o.Some? ==> Usual(o.value, now)
    ensures var (o', taken) := Ask(o, now, sn);
      && o'.Some? && Usual(o'.value, now)
      && (!taken ==> o.Some? && o' == o)
      && (taken ==> o'.value.last == now && o'.value.tokens < BUCKET_SIZE)
      && (taken && o.Some? ==> o'.value.tokens + 1 <= o.value.tokens + Whole(now - o.value.last, sn))
  {
    if o.Some? { FillIsIdeal(o.value, now, sn); }
  }

  /** The bucket after a clean-up, which deletes it if it is full by then, and otherwise leaves it filled as of
      then but with the time of its last request. */
  function Cleaned(b: Bucket, now: Time, sn: bool): Option<Bucket> {
    var f := Fill(b, now, sn);
    if IsFull(f) then None else Some(f)
  }

  datatype Event = Request(at: Time) | CleanUp(at: Time)

  /** What an event does to the bucket of one identifier, and whether it is a request that is taken. */
  function Do(o: Option<Bucket>, e: Event, sn: bool): (Option<Bucket>, bool) {
    match e
    case Request(now) => Ask(o, now, sn)
    case CleanUp(now) => (if o.None? then None else Cleaned(o.value, now, sn), false)
  }

  /** A clean-up of a bucket that is full by then, or that no whole period has passed for since its last request
      taken, credits no time twice. */
  predicate Harmless(o: Option<Bucket>, e: Event, sn: bool) {
    e.CleanUp? && o.Some? ==>
      IsFull(Fill(o.value, e.at, sn)) || e.at < o.value.last || Whole(e.at - o.value.last, sn) == 0
  }

  /** What has been taken since `start`, with what the bucket still holds, is within the bound; an absent
      bucket is a full one. */
  predicate Within(o: Option<Bucket>, taken: nat, start: Time, now: Time, sn: bool) {
    && start <= now
    && match o
       case None => taken <= Whole(now - start, sn)
       case Some(b) => Usual(b, now) && (taken > 0 ==> start <= b.last && b.tokens + taken <= BUCKET_SIZE + Whole(b.last - start, sn))
  }

  lemma AskWithin(o: Option<Bucket>, taken: nat, start: Time, then_: Time, now: Time, sn: bool)
    requires Within(o, taken, start, then_, sn) && then_ <= now
    ensures var (o', t) := Ask(o, now, sn); Within(o', taken + if t then 1 else 0, start, now, sn)
  {
    AskKeeps(o, now, sn);
    WholeAdds(then_ - start, now - then_, sn);
    if o.Some? && taken > 0 { WholeAdds(o.value.last - start, now - o.value.last, sn); }
  }

  lemma CleanWithin(o: Option<Bucket>, taken: nat, start: Time, then_: Time, now: Time, sn: bool)
    requires Within(o, taken, start, then_, sn) && then_ <= now && Harmless(o, CleanUp(now), sn)
    ensures Within(Do(o, CleanUp(now), sn).0, taken, start, now, sn)
  {
    WholeAdds(then_ - start, now - then_, sn);
    if o.Some? {
      FillIsIdeal(o.value, now, sn);
      if taken > 0 { WholeAdds(o.value.last - start, now - o.value.last, sn); }
    }
  }

  lemma DoWithin(o: Option<Bucket>, taken: nat, start: Time, then_: Time, e: Event, sn: bool)
    requires Within(o, taken, start, then_, sn) && then_ <= e.at && Harmless(o, e, sn)
    ensures var (o', t) := Do(o, e, sn); Within(o', taken + if t then 1 else 0, start, e.at, sn)
  {
    match e
    case Request(now) => AskWithin(o, taken, start, then_, now, sn);
    case CleanUp(now) => CleanWithin(o, taken, start, then_, now, sn);
  }

  /** A run of one identifier's requests, and of clean-ups, with its bucket before and after each and which
      requests were taken. */
  ghost predicate Run(os: seq<Option<Bucket>>, es: seq<Event>, answers: seq<bool>, sn: bool) {
    && |os| == |es| + 1 && |answers| == |es|
    && (forall i, j :: 0 <= i < j < |es| ==> es[i].at <= es[j].at)
    && (os[0].Some? && es != [] ==> Usual(os[0].value, es[0].at))
    && forall i :: 0 <= i < |es| ==> Done(os, es, answers, sn, i)
  }

  ghost predicate Done(os: seq<Option<Bucket>>, es: seq<Event>, answers: seq<bool>, sn: bool, i: nat)
    requires i < |es| && |os| == |es| + 1 && |answers| == |es|
  {
    (os[i + 1], answers[i]) == Do(os[i], es[i], sn)
  }

  /** How many of the requests from `i` up to `j` were taken. */
  function TakenIn(answers: seq<bool>, i: nat, j: nat): nat
    requires i <= j <= |answers|
    decreases j
  {
    if i == j then 0 else TakenIn(answers, i, j - 1) + if answers[j - 1] then 1 else 0
  }

  lemma DoIsUsual(o: Option<Bucket>, e: Event, sn: bool)
    requires o.Some? ==> Usual(o.value, e.at)
    ensures var o' := Do(o, e, sn).0; o'.Some? ==> Usual(o'.value, e.at)
  {
    if e.Request? { AskKeeps(o, e.at, sn); }
  }

  lemma {:induction false} RunIsUsual(os: seq<Option<Bucket>>, es: seq<Event>, answers: seq<bool>, sn: bool, i: nat)
    requires Run(os, es, answers, sn) && i < |es|
    ensures os[i].Some? ==> Usual(os[i].value, es[i].at)
  {
    if i > 0 {
      RunIsUsual(os, es, answers, sn, i - 1);
      assert Done(os, es, answers, sn, i - 1);
      DoIsUsual(os[i - 1], es[i - 1], sn);
    }
  }

  /** Every clean-up from `i` up to `j` is harmless. */
  ghost predicate AllHarmless(os: seq<Option<Bucket>>, es: seq<Event>, sn: bool, i: nat, j: nat)
    requires j <= |es| && |os| == |es| + 1
  {
    forall k :: i <= k < j ==> Harmless(os[k], es[k], sn)
  }

  lemma {:induction false} WindowKeeps(os: seq<Option<Bucket>>, es: seq<Event>, answers: seq<bool>, sn: bool, i: nat, j: nat)
    requires Run(os, es, answers, sn) && i < j <= |es| && AllHarmless(os, es, sn, i, j)
    ensures Within(os[j], TakenIn(answers, i, j), es[i].at, es[j - 1].at, sn)
    decreases j
  {
    assert Done(os, es, answers, sn, j - 1);
    if i + 1 == j {
      RunIsUsual(os, es, answers, sn, i);
      DoWithin(os[i], 0, es[i].at, es[i].at, es[i], sn);
    } else {
      WindowKeeps(os, es, answers, sn, i, j - 1);
      DoWithin(os[j - 1], TakenIn(answers, i, j - 1), es[i].at, es[j - 2].at, es[j - 1], sn);
    }
  }

  /** Of any requests in a row, among clean-ups that are harmless, no more are taken than the bucket holds and the
      whole periods from the first of them to the last. */
  lemma TakenIsBounded(os: seq<Option<Bucket>>, es: seq<Event>, answers: seq<bool>, sn: bool, i: nat, j: nat)
    requires Run(os, es, answers, sn) && i < j <= |es| && AllHarmless(os, es, sn, i, j)
    ensures es[i].at <= es[j - 1].at && TakenIn(answers, i, j) <= BUCKET_SIZE + Whole(es[j - 1].at - es[i].at, sn)
  {
    WindowKeeps(os, es, answers, sn, i, j);
    BoundAt(os[j], TakenIn(answers, i, j), es[i].at, es[j - 1].at, sn);
  }

  lemma BoundAt(o: Option<Bucket>, taken: nat, start: Time, now: Time, sn: bool)
    requires Within(o, taken, start, now, sn)
    ensures taken <= BUCKET_SIZE + Whole(now - start, sn)
  {
    if o.Some? && taken > 0 { WholeAdds(o.value.last - start, now - o.value.last, sn); }
  }

  // ---- When a request is refused

  /** A request is refused exactly if the bucket is empty and no whole period, of 3333 microseconds for a client and 1666
      for a service node, has passed since its last request taken; one that is taken leaves one token less than 600 or
      than there were with those gained. */
  lemma RefusedExactly(o: Option<Bucket>, now: Time, sn: bool)
    requires o.Some? ==> Usual(o.value, now)
    ensures var (o', taken) := Ask(o, now, sn); var period := if sn then 1_666_000 else 3_333_000;
      && (!taken <==> o.Some? && o.value.tokens == 0 && now - o.value.last < period)
      && (taken ==> o' == Some(Bucket((if o.None? || o.value.tokens + (now - o.value.last) / period >= 600 then 600
                                       else o.value.tokens + (now - o.value.last) / period) - 1, now)))
      && (!taken ==> o' == o)
  {
    if o.Some? { FillIsIdeal(o.value, now, sn); }
  }

  function Left(o: Option<Bucket>): nat {
    if o.None? then 600 else o.value.tokens
  }

  lemma LeftAfter(o: Option<Bucket>, e: Event, sn: bool)
    requires o.Some? ==> Usual(o.value, e.at)
    ensures var (o', taken) := Do(o, e, sn);
      || Left(o') + (if taken then 1 else 0) >= Left(o)
      || Left(o') + (if taken then 1 else 0) >= 600
  {
    if o.Some? { FillIsIdeal(o.value, e.at, sn); }
  }

  /** What has been taken since some point, with what is left, comes to a full bucket. */
  lemma {:induction false} SpentSince(os: seq<Option<Bucket>>, es: seq<Event>, answers: seq<bool>, sn: bool, n: nat) returns (i: nat)
    requires Run(os, es, answers, sn) && os[0].None? && n <= |es|
    ensures i <= n && TakenIn(answers, i, n) + Left(os[n]) >= 600
  {
    if n == 0 {
      i := 0;
    } else {
      i := SpentSince(os, es, answers, sn, n - 1);
      RunIsUsual(os, es, answers, sn, n - 1);
      assert Done(os, es, answers, sn, n - 1);
      LeftAfter(os[n - 1], es[n - 1], sn);
      if TakenIn(answers, i, n) + Left(os[n]) < 600 { i := n - 1; }
    }
  }

  /** In every run from a client's first request, whatever clean-ups there are, a request is refused only after at least
      600 of those before it were taken, since some point. */
  lemma RefusedIfSpent(os: seq<Option<Bucket>>, es: seq<Event>, answers: seq<bool>, sn: bool, n: nat) returns (i: nat)
    requires Run(os, es, answers, sn) && os[0].None? && n < |es| && es[n].Request? && !answers[n]
    ensures i <= n && TakenIn(answers, i, n) >= 600
  {
    i := SpentSince(os, es, answers, sn, n);
    RunIsUsual(os, es, answers, sn, n);
    assert Done(os, es, answers, sn, n);
    RefusedExactly(os[n], es[n].at, sn);
  }

  // ---- Clean-ups that are not

  function LastOf(now: Time, times: seq<Time>): Time {
    if times == [] then now else times[|times| - 1]
  }

  /** Times that go on from `now` and do not go back. */
  predicate Follows(now: Time, times: seq<Time>) {
    times == [] || var k := |times| - 1; Follows(now, times[..k]) && LastOf(now, times[..k]) <= times[k]
  }

  function Burst(now: Time, n: nat): seq<Time> {
    seq(n, _ => now)
  }

  lemma {:induction false} BurstFollows(now: Time, n: nat)
    ensures Follows(now, Burst(now, n))
  {
    if n > 0 {
      BurstFollows(now, n - 1);
      assert Burst(now, n)[..n - 1] == Burst(now, n - 1);
    }
  }

  lemma ServeOneMore(o: Option<Bucket>, times: seq<Time>, sn: bool)
    requires times != []
    ensures var k := |times| - 1; var (o1, before) := Serve(o, times[..k], sn); var (o2, taken) := Ask(o1, times[k], sn);
      && Serve(o, times, sn).0 == o2 && Taken(Serve(o, times, sn).1) == Taken(before) + (if taken then 1 else 0)
      && (k == 0 ==> o1 == o && Taken(before) == 0)
  {
    var k := |times| - 1;
    var (o1, before) := Serve(o, times[..k], sn);
    var (o2, taken) := Ask(o1, times[k], sn);
    assert (before + [taken])[..k] == before;
  }

  /** A request right after another takes a token if there is one, and gains none. */
  lemma AskAgain(b: Bucket, now: Time, sn: bool)
    requires b.tokens <= BUCKET_SIZE && b.last == now
    ensures Ask(Some(b), now, sn) == if b.tokens == 0 then (Some(b), false) else (Some(Bucket(b.tokens - 1, now)), true)
  {
    FillIsIdeal(b, now, sn);
  }

  /** A bucket after `n` requests at once, having held `held` tokens. */
  function Spent(b: Bucket, now: Time, held: nat, n: nat): Bucket {
    if n == 0 || held == 0 then b else Bucket(if n <= held then held - n else 0, now)
  }

  lemma SpendOne(b: Bucket, now: Time, n: nat, sn: bool)
    requires Usual(b, now) && n > 0
    ensures var held := Fill(b, now, sn).tokens;
      Ask(Some(Spent(b, now, held, n - 1)), now, sn) == (Some(Spent(b, now, held, n)), n <= held)
  {
    var held := Fill(b, now, sn).tokens;
    FillIsIdeal(b, now, sn);
    if n > 1 && held > 0 { AskAgain(Spent(b, now, held, n - 1), now, sn); }
  }

  lemma BurstOneMore(b: Bucket, now: Time, n: nat, sn: bool)
    requires n > 0
    ensures var (o1, before) := Serve(Some(b), Burst(now, n - 1), sn); var (o2, taken) := Ask(o1, now, sn);
      var (o, answers) := Serve(Some(b), Burst(now, n), sn);
      o == o2 && Taken(answers) == Taken(before) + if taken then 1 else 0
  {
    assert Burst(now, n)[..n - 1] == Burst(now, n - 1);
    ServeOneMore(Some(b), Burst(now, n), sn);
  }

  /** How a burst of `n` requests ends, from a bucket that holds `held` tokens. */
  predicate Bursts(b: Bucket, now: Time, n: nat, held: nat, o: Option<Bucket>, taken: nat) {
    o == Some(Spent(b, now, held, n)) && taken == if n <= held then n else held
  }

  lemma {:induction false} BurstTakes(b: Bucket, now: Time, n: nat, sn: bool)
    requires Usual(b, now)
    ensures Bursts(b, now, n, Fill(b, now, sn).tokens, Serve(Some(b), Burst(now, n), sn).0, Taken(Serve(Some(b), Burst(now, n), sn).1))
    decreases n
  {
    if n > 0 {
      BurstTakes(b, now, n - 1, sn);
      BurstOneMore(b, now, n, sn);
      SpendOne(b, now, n, sn);
    }
  }

  /** No later request can tell that the clean-up was. */
  ghost predicate Unnoticed(b: Bucket, now: Time, sn: bool) {
    forall times :: Follows(now, times) ==> SameAnswers(b, now, sn, times)
  }

  ghost predicate SameAnswers(b: Bucket, now: Time, sn: bool, times: seq<Time>) {
    Serve(Cleaned(b, now, sn), times, sn).1 == Serve(Some(b), times, sn).1
  }

  lemma StaysFull(b: Bucket, now: Time, sn: bool, times: seq<Time>)
    requires Usual(b, now) && IsFull(Fill(b, now, sn)) && Follows(now, times)
    ensures SameAnswers(b, now, sn, times)
  {
    FullFromStart(b, now, sn, times);
  }

  lemma {:induction false} FullFromStart(b: Bucket, now: Time, sn: bool, times: seq<Time>)
    requires Usual(b, now) && IsFull(Fill(b, now, sn)) && Follows(now, times)
    ensures Serve(None, times, sn).1 == Serve(Some(b), times, sn).1
    ensures times != [] ==> Serve(None, times, sn).0 == Serve(Some(b), times, sn).0
    decreases |times|
  {
    if times != [] {
      var k := |times| - 1;
      FullFromStart(b, now, sn, times[..k]);
      if k == 0 {
        FillIsIdeal(b, now, sn);
        FillIsIdeal(b, times[0], sn);
        WholeAdds(now - b.last, times[0] - now, sn);
      }
    }
  }

  /** A clean-up changes no later answer exactly if it deletes the bucket as full, or if no whole period has
      passed since the bucket's last request.  Otherwise it credits that time twice, since it does not move
      the time that filling counts from. */
  lemma CleanupIsExact(b: Bucket, now: Time, sn: bool)
    requires Usual(b, now)
    ensures Unnoticed(b, now, sn) <==> IsFull(Fill(b, now, sn)) || Whole(now - b.last, sn) == 0
  {
    FillIsIdeal(b, now, sn);
    var f := Fill(b, now, sn);
    if IsFull(f) {
      forall times | Follows(now, times) ensures SameAnswers(b, now, sn, times) {
        StaysFull(b, now, sn, times);
      }
    } else if Whole(now - b.last, sn) == 0 {
      assert f == b;
    } else {
      BurstTells(b, now, sn);
      BurstFollows(now, f.tokens + 1);
      assert !SameAnswers(b, now, sn, Burst(now, f.tokens + 1));
    }
  }

  lemma BurstTells(b: Bucket, now: Time, sn: bool)
    requires Usual(b, now) && !IsFull(Fill(b, now, sn)) && Whole(now - b.last, sn) > 0
    ensures var f := Fill(b, now, sn); var times := Burst(now, f.tokens + 1);
      Taken(Serve(Some(f), times, sn).1) > Taken(Serve(Some(b), times, sn).1)
  {
    var f := Fill(b, now, sn);
    FillIsIdeal(b, now, sn);
    FillIsIdeal(f, now, sn);
    BurstTakes(b, now, f.tokens + 1, sn);
    BurstTakes(f, now, f.tokens + 1, sn);
  }

  lemma {:induction false} ServeWithin(o: Option<Bucket>, taken: nat, start: Time, now: Time, times: seq<Time>, sn: bool)
    requires Within(o, taken, start, now, sn) && Follows(now, times)
    ensures Within(Serve(o, times, sn).0, taken + Taken(Serve(o, times, sn).1), start, LastOf(now, times), sn)
    decreases |times|
  {
    if times == [] {
      assert Serve(o, times, sn) == (o, []);
    } else {
      var k := |times| - 1;
      var earlier := times[..k];
      ServeWithin(o, taken, start, now, earlier, sn);
      ServeOneMore(o, times, sn);
      AskWithin(Serve(o, earlier, sn).0, taken + Taken(Serve(o, earlier, sn).1), start, LastOf(now, earlier), times[k], sn);
    }
  }

  /** However the requests go on after the clean-up, the bound holds from `last` on, when `k` were taken. */
  ghost predicate KeepsBound(k: nat, last: Time, o: Option<Bucket>, now: Time, sn: bool) {
    forall times :: Follows(now, times) ==> StaysBounded(k, last, o, now, sn, times)
  }

  ghost predicate StaysBounded(k: nat, last: Time, o: Option<Bucket>, now: Time, sn: bool, times: seq<Time>) {
    last <= LastOf(now, times) && k + Taken(Serve(o, times, sn).1) <= BUCKET_SIZE + Whole(LastOf(now, times) - last, sn)
  }

  /** A clean-up of a bucket that `k` requests were taken from at once when it was full keeps the bound for
      everything that can follow exactly if it is harmless. */
  lemma CleanupBoundIsExact(k: nat, last: Time, now: Time, sn: bool)
    requires 1 <= k <= BUCKET_SIZE && last <= now
    ensures var b := Bucket(BUCKET_SIZE - k, last);
      KeepsBound(k, last, Cleaned(b, now, sn), now, sn) <==> Harmless(Some(b), CleanUp(now), sn)
  {
    var b := Bucket(BUCKET_SIZE - k, last);
    if Harmless(Some(b), CleanUp(now), sn) {
      CleanWithin(Some(b), k, last, last, now, sn);
      forall times | Follows(now, times) ensures StaysBounded(k, last, Cleaned(b, now, sn), now, sn, times) {
        ServeWithin(Cleaned(b, now, sn), k, last, now, times, sn);
        BoundAt(Serve(Cleaned(b, now, sn), times, sn).0, k + Taken(Serve(Cleaned(b, now, sn), times, sn).1), last, LastOf(now, times), sn);
      }
    } else {
      BurstExceeds(k, last, now, sn);
      BurstFollows(now, BUCKET_SIZE);
      assert !StaysBounded(k, last, Cleaned(b, now, sn), now, sn, Burst(now, BUCKET_SIZE));
    }
  }

  lemma BurstExceeds(k: nat, last: Time, now: Time, sn: bool)
    requires 1 <= k <= BUCKET_SIZE && last <= now
    requires var b := Bucket(BUCKET_SIZE - k, last); !IsFull(Fill(b, now, sn)) && Whole(now - last, sn) > 0
    ensures var f := Fill(Bucket(BUCKET_SIZE - k, last), now, sn);
      k + Taken(Serve(Some(f), Burst(now, BUCKET_SIZE), sn).1) > BUCKET_SIZE + Whole(now - last, sn)
  {
    var b := Bucket(BUCKET_SIZE - k, last);
    var f := Fill(b, now, sn);
    FillIsIdeal(b, now, sn);
    FillIsIdeal(f, now, sn);
    BurstTakes(f, now, BUCKET_SIZE, sn);
  }

  /** A client takes all of a bucket's 600 tokens at once, the buckets are cleaned up a second later, and it takes
      600 more: where the bucket's size and the periods of that second come to 900. */
  lemma CleanupBreaksBound()
    ensures var (o, first) := Serve(None, Burst(0, BUCKET_SIZE), false); var second := 1_000_000_000;
      && o == Some(Bucket(0, 0)) && Cleaned(o.value, second, false) == Some(Bucket(300, 0))
      && var (_, then_) := Serve(Some(Bucket(300, 0)), Burst(second, BUCKET_SIZE), false);
      && Taken(first) + Taken(then_) == 1200 && BUCKET_SIZE + Whole(second, false) == 900
  {
    var full := Bucket(BUCKET_SIZE, 0);
    FillIsIdeal(full, 0, false);
    BurstFollows(0, BUCKET_SIZE);
    FullFromStart(full, 0, false, Burst(0, BUCKET_SIZE));
    BurstTakes(full, 0, BUCKET_SIZE, false);
    FillIsIdeal(Bucket(0, 0), 1_000_000_000, false);
    FillIsIdeal(Bucket(300, 0), 1_000_000_000, false);
    BurstTakes(Bucket(300, 0), 1_000_000_000, BUCKET_SIZE, false);
  }

  // ---- The limiter

  class Limiter {
    var clients: map<Ip, Bucket>
    var snodes: map<string, Bucket>
    var clientLimiting: bool

    constructor ()
      ensures clients == map[] && snodes == map[] && clientLimiting
    {
      clients, snodes, clientLimiting := map[], map[], true;
    }

    /** True if the service node's request is refused. */
    method ShouldRateLimit(pubkey: string, now: Time) returns (limited: bool)
      modifies this
      ensures var (o, taken) := Ask(Held(old(snodes), pubkey), now, true); limited == !taken && o == Held(snodes, pubkey)
      ensures forall k :: k != pubkey ==> Held(snodes, k) == Held(old(snodes), k)
      ensures clients == old(clients) && clientLimiting == old(clientLimiting)
    {
      if pubkey !in snodes {
        snodes := snodes[pubkey := Bucket(BUCKET_SIZE - 1, now)];
        return false;
      }
      var (b, taken) := Remove(snodes[pubkey], now, true);
      snodes := snodes[pubkey := b];
      return !taken;
    }

    /** True if the client's request is refused: for want of a token or, for a new client, of room. */
    method ShouldRateLimitClient(ip: Ip, now: Time) returns (limited: bool)
      modifies this
      ensures !old(clientLimiting) ==> !limited && clients == old(clients) && snodes == old(snodes)
      ensures old(clientLimiting) && (ip in old(clients) || |old(clients)| < 10_000) ==>
        var (o, taken) := Ask(Held(old(clients), ip), now, false); limited == !taken && o == Held(clients, ip)
      ensures old(clientLimiting) && (ip in old(clients) || |old(clients)| < 10_000) ==>
        snodes == old(snodes) && forall k :: k != ip ==> Held(clients, k) == Held(old(clients), k)
      ensures old(clientLimiting) && ip !in old(clients) && |old(clients)| >= 10_000 ==>
        var left := CleanedAll(old(clients), now, false);
        snodes == CleanedAll(old(snodes), now, true) && limited == (|left| >= 10_000)
        && clients == if limited then left else left[ip := Bucket(BUCKET_SIZE - 1, now)]
      ensures clientLimiting == old(clientLimiting)
    {
      if !clientLimiting {
        return false;
      }
      if ip in clients {
        var (b, taken) := Remove(clients[ip], now, false);
        clients := clients[ip := b];
        return !taken;
      }
      if |clients| >= MAX_CLIENTS {
        CleanBuckets(now);
        if |clients| >= MAX_CLIENTS {
          return true;
        }
      }
      clients := clients[ip := Bucket(BUCKET_SIZE - 1, now)];
      return false;
    }

    /** Fills every bucket, and deletes those that are full. */
    method CleanBuckets(now: Time)
      modifies this
      ensures clients == CleanedAll(old(clients), now, false) && snodes == CleanedAll(old(snodes), now, true)
      ensures clientLimiting == old(clientLimiting)
    {
      clients := CleanMap(clients, now, false);
      snodes := CleanMap(snodes, now, true);
    }
  }

  function Held<K>(buckets: map<K, Bucket>, k: K): Option<Bucket> {
    if k in buckets then Some(buckets[k]) else None
  }

  function CleanedAll<K>(buckets: map<K, Bucket>, now: Time, sn: bool): map<K, Bucket> {
    map k | k in buckets && !IsFull(Fill(buckets[k], now, sn)) :: Fill(buckets[k], now, sn)
  }

  method CleanMap<K(==)>(buckets: map<K, Bucket>, now: Time, sn: bool) returns (left: map<K, Bucket>)
    ensures left == CleanedAll(buckets, now, sn)
  {
    left := buckets;
    var todo := buckets.Keys;
    while todo != {}
      invariant todo <= buckets.Keys && left.Keys <= buckets.Keys
      invariant forall k :: k in todo ==> k in left && left[k] == buckets[k]
      invariant forall k :: k in buckets && k !in todo ==>
        (k in left <==> !IsFull(Fill(buckets[k], now, sn))) && (k in left ==> left[k] == Fill(buckets[k], now, sn))
      decreases todo
    {
      var k :| k in todo;
      var f := Fill(left[k], now, sn);
      if IsFull(f) {
        left := left - {k};
      } else {
        left := left[k := f];
      }
      todo := todo - {k};
    }
  }
}

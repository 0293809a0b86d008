/** A sweep of the monitor table, some of its buckets at a time, with everything else going on in between. */
module SweepRun {
  import opened MonitorTypes
  import opened SessionLog
  import opened MonitorCore
  import opened CoreInvariants
  import opened Sweeping

  // ---- The table's buckets

  /** The bucket of an account, in a table of `n` of them: whatever the table's hash makes of them. */
  function Slot(hash: (Account, nat) -> nat, a: Account, n: nat): nat
    requires n > 0
  {
    if hash(a, n) < n then hash(a, n) else 0
  }

  /** The table's entries as its buckets hold them: each in the bucket of its account, those of the same
      account next to each other. */
  ghost predicate Laid(hash: (Account, nat) -> nat, mons: map<nat, Monitor>, buckets: seq<seq<nat>>) {
    && |buckets| > 0
    && (forall b, i :: 0 <= b < |buckets| && 0 <= i < |buckets[b]| ==>
          buckets[b][i] in mons && Slot(hash, mons[buckets[b][i]].account, |buckets|) == b)
    && (forall m :: m in mons ==> m in buckets[Slot(hash, mons[m].account, |buckets|)])
    && (forall b :: 0 <= b < |buckets| ==> Adjacent(mons, buckets[b]))
  }

  ghost predicate Adjacent(mons: map<nat, Monitor>, bucket: seq<nat>) {
    && (forall i :: 0 <= i < |bucket| ==> bucket[i] in mons)
    && forall i, j, k :: 0 <= i < j < k < |bucket| && mons[bucket[i]].account == mons[bucket[k]].account ==>
         mons[bucket[j]].account == mons[bucket[i]].account
  }

  /** Where a sweep has got to: the next bucket, of a table of `count` of them. */
  datatype Position = Position(bucket: nat, count: nat)

  /** The first bucket of the next batch: the very first if their number has changed. */
  function From(p: Position, n: nat): nat {
    if p.count != n then 0 else p.bucket
  }

  function Until(p: Position, n: nat): nat {
    if From(p, n) + PASS_BATCH < n then From(p, n) + PASS_BATCH else n
  }

  ghost predicate Distinct(accounts: seq<Account>) {
    forall i, j :: 0 <= i < j < |accounts| ==> accounts[i] != accounts[j]
  }

  predicate InTable(mons: map<nat, Monitor>, bucket: seq<nat>) {
    forall i :: 0 <= i < |bucket| ==> bucket[i] in mons
  }

  function AddedTo(accounts: seq<Account>, a: Account): seq<Account> {
    if accounts == [] || accounts[|accounts| - 1] != a then accounts + [a] else accounts
  }

  /** The accounts, and those of the bucket's first `i` entries, each added unless it is the last one listed. */
  function Listing(mons: map<nat, Monitor>, bucket: seq<nat>, i: nat, before: seq<Account>): seq<Account>
    requires InTable(mons, bucket) && i <= |bucket|
    decreases i
  {
    if i == 0 then before
    else
      AddedTo(Listing(mons, bucket, i - 1, before), mons[bucket[i - 1]].account)
  }

  method AccountsOfBucket(mons: map<nat, Monitor>, bucket: seq<nat>, before: seq<Account>) returns (accounts: seq<Account>)
    requires InTable(mons, bucket)
    ensures accounts == Listing(mons, bucket, |bucket|, before)
  {
    accounts := before;
    var i := 0;
    while i < |bucket|
      invariant i <= |bucket| && accounts == Listing(mons, bucket, i, before)
    {
      var a := mons[bucket[i]].account;
      if accounts == [] || accounts[|accounts| - 1] != a {
        accounts := accounts + [a];
      }
      i := i + 1;
    }
  }

  ghost predicate EarlierBuckets(hash: (Account, nat) -> nat, n: nat, b: nat, before: seq<Account>)
    requires n > 0
  {
    forall a :: a in before ==> Slot(hash, a, n) < b
  }

  /** So far, the accounts are those of the buckets before and of the entries passed, each once. */
  ghost predicate ListedSoFar(mons: map<nat, Monitor>, bucket: seq<nat>, i: nat, before: seq<Account>, accounts: seq<Account>)
    requires InTable(mons, bucket) && i <= |bucket|
  {
    && Distinct(accounts) && WithFirst(mons, bucket, i, before, accounts)
    && (i > 0 ==> accounts != [] && accounts[|accounts| - 1] == mons[bucket[i - 1]].account)
  }

  /** An account that is not the one of the entry before is of no entry before, nor listed before the bucket. */
  ghost predicate NewAt(mons: map<nat, Monitor>, bucket: seq<nat>, before: seq<Account>, i: nat)
    requires InTable(mons, bucket) && i < |bucket|
  {
    var a := mons[bucket[i]].account;
    a !in before && (i > 0 && mons[bucket[i - 1]].account != a ==> !AmongFirst(mons, bucket, i, a))
  }

  lemma AdjacentIsNew(hash: (Account, nat) -> nat, mons: map<nat, Monitor>, buckets: seq<seq<nat>>, b: nat, i: nat,
                      before: seq<Account>)
    requires Laid(hash, mons, buckets) && b < |buckets| && InTable(mons, buckets[b]) && i < |buckets[b]|
    requires EarlierBuckets(hash, |buckets|, b, before)
    ensures NewAt(mons, buckets[b], before, i)
  {
    var bucket := buckets[b];
    var a := mons[bucket[i]].account;
    assert Slot(hash, a, |buckets|) == b;
    assert Adjacent(mons, bucket);
    if i > 0 && mons[bucket[i - 1]].account != a {
      forall j | 0 <= j < i ensures mons[bucket[j]].account != a {
        if j < i - 1 { assert 0 <= j < i - 1 < i; }
      }
    }
  }

  lemma {:induction false} ListingHolds(mons: map<nat, Monitor>, bucket: seq<nat>, i: nat, before: seq<Account>)
    requires InTable(mons, bucket) && i <= |bucket| && Distinct(before)
    requires forall j :: 0 <= j < |bucket| ==> NewAt(mons, bucket, before, j)
    ensures ListedSoFar(mons, bucket, i, before, Listing(mons, bucket, i, before))
    decreases i
  {
    if i == 0 {
      NoEntries(mons, bucket, before);
    } else {
      ListingHolds(mons, bucket, i - 1, before);
      OneMoreListed(mons, bucket, i, before, Listing(mons, bucket, i - 1, before));
    }
  }

  lemma OneMoreListed(mons: map<nat, Monitor>, bucket: seq<nat>, i: nat, before: seq<Account>, accounts: seq<Account>)
    requires InTable(mons, bucket) && 0 < i <= |bucket| && NewAt(mons, bucket, before, i - 1)
    requires ListedSoFar(mons, bucket, i - 1, before, accounts)
    ensures ListedSoFar(mons, bucket, i, before, AddedTo(accounts, mons[bucket[i - 1]].account))
  {
    var a := mons[bucket[i - 1]].account;
    if accounts == [] || accounts[|accounts| - 1] != a {
      AddedEntry(mons, bucket, i, before, accounts);
    } else {
      SameEntry(mons, bucket, i, before, accounts);
    }
  }

  /** The accounts of a bucket, added to those of the buckets before it: each once. */
  lemma BucketIsListed(hash: (Account, nat) -> nat, mons: map<nat, Monitor>, buckets: seq<seq<nat>>, b: nat,
                       before: seq<Account>)
    requires Laid(hash, mons, buckets) && b < |buckets| && InTable(mons, buckets[b])
    requires Distinct(before) && EarlierBuckets(hash, |buckets|, b, before)
    ensures var accounts := Listing(mons, buckets[b], |buckets[b]|, before);
      && Distinct(accounts)
      && forall a :: a in accounts <==> a in before || exists m :: m in buckets[b] && m in mons && mons[m].account == a
  {
    forall j | 0 <= j < |buckets[b]| ensures NewAt(mons, buckets[b], before, j) {
      AdjacentIsNew(hash, mons, buckets, b, j, before);
    }
    ListingHolds(mons, buckets[b], |buckets[b]|, before);
    AllEntries(mons, buckets[b], before, Listing(mons, buckets[b], |buckets[b]|, before));
  }

  /** `accounts` are those of `before` and of the bucket's first `i` entries. */
  ghost predicate WithFirst(mons: map<nat, Monitor>, bucket: seq<nat>, i: nat, before: seq<Account>, accounts: seq<Account>) {
    forall a :: a in accounts <==> a in before || AmongFirst(mons, bucket, i, a)
  }

  lemma NoEntries(mons: map<nat, Monitor>, bucket: seq<nat>, before: seq<Account>)
    ensures WithFirst(mons, bucket, 0, before, before)
  {
  }

  lemma AddedEntry(mons: map<nat, Monitor>, bucket: seq<nat>, i: nat, before: seq<Account>, accounts: seq<Account>)
    requires 0 < i <= |bucket| && bucket[i - 1] in mons && WithFirst(mons, bucket, i - 1, before, accounts)
    requires Distinct(accounts) && mons[bucket[i - 1]].account !in accounts
    ensures var accounts' := accounts + [mons[bucket[i - 1]].account];
      WithFirst(mons, bucket, i, before, accounts') && Distinct(accounts')
  {
    OneMoreEntry(mons, bucket, i);
  }

  lemma SameEntry(mons: map<nat, Monitor>, bucket: seq<nat>, i: nat, before: seq<Account>, accounts: seq<Account>)
    requires 0 < i <= |bucket| && bucket[i - 1] in mons && WithFirst(mons, bucket, i - 1, before, accounts)
    requires mons[bucket[i - 1]].account in accounts
    ensures WithFirst(mons, bucket, i, before, accounts)
  {
    OneMoreEntry(mons, bucket, i);
  }

  /** One of the bucket's first `i` entries is of the account. */
  ghost predicate AmongFirst(mons: map<nat, Monitor>, bucket: seq<nat>, i: nat, a: Account) {
    exists j :: 0 <= j < i && j < |bucket| && bucket[j] in mons && mons[bucket[j]].account == a
  }

  lemma OneMoreEntry(mons: map<nat, Monitor>, bucket: seq<nat>, i: nat)
    requires 0 < i <= |bucket| && bucket[i - 1] in mons
    ensures forall a :: AmongFirst(mons, bucket, i, a) <==> AmongFirst(mons, bucket, i - 1, a) || mons[bucket[i - 1]].account == a
  {
    forall a ensures AmongFirst(mons, bucket, i, a) <==> AmongFirst(mons, bucket, i - 1, a) || mons[bucket[i - 1]].account == a {
      if AmongFirst(mons, bucket, i - 1, a) {
        var j :| 0 <= j < i - 1 && j < |bucket| && bucket[j] in mons && mons[bucket[j]].account == a;
        assert 0 <= j < i;
      }
    }
  }

  lemma AllEntries(mons: map<nat, Monitor>, bucket: seq<nat>, before: seq<Account>, accounts: seq<Account>)
    requires WithFirst(mons, bucket, |bucket|, before, accounts)
    ensures forall a :: a in accounts <==> a in before || exists m :: m in bucket && m in mons && mons[m].account == a
  {
    forall a
      ensures AmongFirst(mons, bucket, |bucket|, a) <==> exists m :: m in bucket && m in mons && mons[m].account == a
    {
      if m :| m in bucket && m in mons && mons[m].account == a {
        var j :| 0 <= j < |bucket| && bucket[j] == m;
        assert bucket[j] in mons;
      }
    }
  }

  /** The accounts with entries in the next batch of buckets, each once, and where that leaves the sweep. */
  method AccountsInBuckets(hash: (Account, nat) -> nat, mons: map<nat, Monitor>, buckets: seq<seq<nat>>, p: Position)
    returns (accounts: seq<Account>, p': Position)
    requires Laid(hash, mons, buckets)
    ensures IsBatch(hash, mons, |buckets|, p, accounts, p') && Distinct(accounts)
  {
    var bucket := if p.count != |buckets| then 0 else p.bucket;
    var end := if bucket + PASS_BATCH < |buckets| then bucket + PASS_BATCH else |buckets|;
    accounts := [];
    ghost var start := bucket;
    while bucket < end
      invariant start <= bucket && (bucket <= end || bucket == start) && Distinct(accounts)
      invariant AllListed(hash, mons, |buckets|, start, bucket, accounts)
    {
      OneMoreBucket(hash, mons, buckets, start, bucket, accounts);
      accounts := AccountsOfBucket(mons, buckets[bucket], accounts);
      bucket := bucket + 1;
    }
    p' := Position(bucket, |buckets|);
  }

  /** The account has an entry, in a bucket from `start` on and before `end`. */
  ghost predicate Listed(hash: (Account, nat) -> nat, mons: map<nat, Monitor>, n: nat, start: nat, end: nat, a: Account)
    requires n > 0
  {
    start <= Slot(hash, a, n) < end && exists m :: m in mons && mons[m].account == a
  }

  ghost predicate AllListed(hash: (Account, nat) -> nat, mons: map<nat, Monitor>, n: nat, start: nat, end: nat, accounts: seq<Account>)
    requires n > 0
  {
    forall a :: a in accounts <==> Listed(hash, mons, n, start, end, a)
  }

  lemma OneMoreBucket(hash: (Account, nat) -> nat, mons: map<nat, Monitor>, buckets: seq<seq<nat>>, start: nat, b: nat,
                      before: seq<Account>)
    requires Laid(hash, mons, buckets) && start <= b < |buckets| && Distinct(before)
    requires AllListed(hash, mons, |buckets|, start, b, before)
    ensures InTable(mons, buckets[b])
    ensures var accounts := Listing(mons, buckets[b], |buckets[b]|, before);
      Distinct(accounts) && AllListed(hash, mons, |buckets|, start, b + 1, accounts)
  {
    BucketIsListed(hash, mons, buckets, b, before);
    BucketAdds(hash, mons, buckets, start, b, before, Listing(mons, buckets[b], |buckets[b]|, before));
  }

  lemma BucketAdds(hash: (Account, nat) -> nat, mons: map<nat, Monitor>, buckets: seq<seq<nat>>, start: nat, b: nat,
                   before: seq<Account>, accounts: seq<Account>)
    requires Laid(hash, mons, buckets) && start <= b < |buckets| && AllListed(hash, mons, |buckets|, start, b, before)
    requires forall a :: a in accounts <==> a in before || exists m :: m in buckets[b] && m in mons && mons[m].account == a
    ensures AllListed(hash, mons, |buckets|, start, b + 1, accounts)
  {
    forall a ensures a in accounts <==> Listed(hash, mons, |buckets|, start, b + 1, a) {
      if m :| m in mons && mons[m].account == a {
        if Slot(hash, a, |buckets|) == b { assert m in buckets[b]; }
      }
      if m :| m in buckets[b] && m in mons && mons[m].account == a {
        var i :| 0 <= i < |buckets[b]| && buckets[b][i] == m;
        assert Slot(hash, mons[buckets[b][i]].account, |buckets|) == b;
      }
    }
  }

  /** `accounts` are those of the next batch of buckets. */
  ghost predicate IsBatch(hash: (Account, nat) -> nat, mons: map<nat, Monitor>, n: nat, p: Position,
                          accounts: seq<Account>, p': Position)
    requires n > 0
  {
    && AllListed(hash, mons, n, From(p, n), Until(p, n), accounts)
    && p' == Position(if From(p, n) < Until(p, n) then Until(p, n) else From(p, n), n)
  }

  /** A batch is of at most 4096 buckets, and of fewer only if those are all that are left. */
  lemma BatchOf4096(hash: (Account, nat) -> nat, mons: map<nat, Monitor>, n: nat, p: Position, accounts: seq<Account>, p': Position)
    requires n > 0 && IsBatch(hash, mons, n, p, accounts, p')
    ensures p'.count == n && if From(p, n) >= n then p'.bucket == From(p, n)
            else p'.bucket == if From(p, n) + 4096 < n then From(p, n) + 4096 else n
  {
  }

  // ---- The sweep among other steps

  datatype Step =
    | Other(e: Event)
    | Batch(accounts: seq<Account>, now: Time)

  /** The tables, how many buckets the table of monitors has, and how far the sweep has got. */
  datatype State = State(core: Core, n: nat, at: Position)

  /** Anything else may happen between two batches, and the table of monitors may be rehashed, into more
      buckets than it had. */
  ghost predicate SweepNext(hash: (Account, nat) -> nat, y: State, s: Step, lim: Limits, y': State) {
    y.n > 0 &&
    match s
    case Other(e) => Next(y.core, e, lim, y'.core) && y.n <= y'.n && y'.at == y.at
    case Batch(accounts, now) =>
      && IsBatch(hash, y.core.mons, y.n, y.at, accounts, y'.at)
      && Next(y.core, Expire(ExpiredOf(y.core, accounts, now), now), lim, y'.core) && y'.n == y.n
  }

  ghost predicate Sweep(hash: (Account, nat) -> nat, ys: seq<State>, steps: seq<Step>, lim: Limits) {
    && |ys| == |steps| + 1 && ys[0].at == Position(0, 0)
    && OwnersStored(ys[0].core)
    && forall i :: 0 <= i < |steps| ==> SweepSteps(hash, ys, steps, lim, i)
  }

  ghost predicate SweepSteps(hash: (Account, nat) -> nat, ys: seq<State>, steps: seq<Step>, lim: Limits, i: nat)
    requires i < |steps| && |ys| == |steps| + 1
  {
    SweepNext(hash, ys[i], steps[i], lim, ys[i + 1])
  }

  /** Expired before the first batch, never renewed, and its owner never without a connection. */
  ghost predicate StaysExpired(ys: seq<State>, steps: seq<Step>, m: nat)
    requires |ys| == |steps| + 1
  {
    forall i :: 0 <= i < |steps| && steps[i].Batch? && m in ys[i].core.mons ==>
      && ys[i].core.mons[m].expiry < steps[i].now
      && Destination(ys[i].core.sess, ys[i].core.mons[m].owner).Some?
  }

  // ---- Following one monitor

  ghost predicate Tracked(c: Core, m: nat, a: Account) {
    m < c.nextMon && (m in c.mons ==> c.mons[m].account == a)
  }

  lemma {:induction false} SubscribeTracks(c: Core, o: Owner, subs: seq<Subscription>, now: Time, lim: Limits,
                                           m: nat, a: Account)
    requires Tracked(c, m, a)
    ensures var r := SubscribeAll(c, o, subs, now, lim); Tracked(r, m, a) && (m in r.mons <==> m in c.mons)
    decreases |subs|
  {
    if subs != [] {
      var k := |subs| - 1;
      SubscribeTracks(c, o, subs[..k], now, lim, m, a);
      SubscribeOneCases(SubscribeAll(c, o, subs[..k], now, lim), o, subs[k], now, lim);
    }
  }

  lemma NextTracks(c: Core, e: Event, lim: Limits, c': Core, m: nat, a: Account)
    requires Next(c, e, lim, c') && Tracked(c, m, a)
    ensures Tracked(c', m, a) && (m !in c.mons ==> m !in c'.mons)
  {
    match e
    case Subscribe(x, subs, o, now) => SubscribeTracks(c, o, subs, now, lim, m, a);
    case _ =>
      NextRemovesOnly(c, e, lim, c');
      NextMonGrows(c, e, lim, c');
  }

  lemma NextMonGrows(c: Core, e: Event, lim: Limits, c': Core)
    requires Next(c, e, lim, c') && !e.Subscribe?
    ensures c.nextMon <= c'.nextMon
  {
  }

  /** The monitor is erased, or in a bucket that the sweep has still to come to. */
  ghost predicate Ahead(hash: (Account, nat) -> nat, y: State, m: nat, a: Account) {
    && y.at.count <= y.n && Tracked(y.core, m, a)
    && (m in y.core.mons && y.at.bucket > 0 ==> y.at.count > 0 && y.at.bucket <= Slot(hash, a, y.at.count))
  }

  lemma StepKeepsAhead(hash: (Account, nat) -> nat, y: State, s: Step, lim: Limits, y': State, m: nat, a: Account)
    requires SweepNext(hash, y, s, lim, y') && Ahead(hash, y, m, a)
    requires s.Batch? && m in y.core.mons ==>
      y.core.mons[m].expiry < s.now && Destination(y.core.sess, y.core.mons[m].owner).Some?
    ensures Ahead(hash, y', m, a)
  {
    match s
    case Other(e) => NextTracks(y.core, e, lim, y'.core, m, a);
    case Batch(accounts, now) =>
      NextTracks(y.core, Expire(ExpiredOf(y.core, accounts, now), now), lim, y'.core, m, a);
      if m in y'.core.mons {
        assert m in y.core.mons && m !in ExpiredOf(y.core, accounts, now);
        assert a !in accounts;
        assert !Listed(hash, y.core.mons, y.n, From(y.at, y.n), Until(y.at, y.n), a);
        assert Slot(hash, a, y.n) < y.n;
      }
  }

  lemma {:induction false} SweepKeepsAhead(hash: (Account, nat) -> nat, ys: seq<State>, steps: seq<Step>, lim: Limits,
                                           m: nat, k: nat)
    requires Sweep(hash, ys, steps, lim) && m in ys[0].core.mons && StaysExpired(ys, steps, m) && k < |ys|
    ensures Ahead(hash, ys[k], m, ys[0].core.mons[m].account)
  {
    if k > 0 {
      SweepKeepsAhead(hash, ys, steps, lim, m, k - 1);
      assert SweepSteps(hash, ys, steps, lim, k - 1);
      StepKeepsAhead(hash, ys[k - 1], steps[k - 1], lim, ys[k], m, ys[0].core.mons[m].account);
    }
  }

  /** A sweep ends when a batch has reached the last bucket. */
  ghost predicate Done(ys: seq<State>, steps: seq<Step>, k: nat)
    requires |ys| == |steps| + 1 && k < |steps|
  {
    steps[k].Batch? && ys[k + 1].at.bucket >= ys[k + 1].n
  }

  /** Whatever goes on in between, and however often the table grows, at the end of a sweep every monitor
      that was there and expired at its start, was not renewed, and whose owner kept a connection, is
      erased. */
  lemma SweepErasesExpired(hash: (Account, nat) -> nat, ys: seq<State>, steps: seq<Step>, lim: Limits, m: nat, k: nat)
    requires Sweep(hash, ys, steps, lim) && m in ys[0].core.mons && StaysExpired(ys, steps, m)
    requires k < |steps| && Done(ys, steps, k)
    ensures m !in ys[k + 1].core.mons
  {
    SweepKeepsAhead(hash, ys, steps, lim, m, k + 1);
    assert SweepSteps(hash, ys, steps, lim, k);
  }

  // ---- What a sweep leaves

  predicate OwnedByAny(o: Owner, sids: set<Sid>) {
    o.OfSession? && o.sid in sids
  }

  /** The step takes the monitor away: with its connection or its session, as expired, or with its account. */
  predicate Takes(c: Core, e: Event, m: nat)
    requires m in c.mons
  {
    var mon := c.mons[m];
    match e
    case OpenSession(_, Started(_, madeRoom, _, evicted), _) => OwnedByAny(mon.owner, madeRoom) || OwnedByAny(mon.owner, evicted)
    case OpenSession(_, Resumed(_, _, evicted, _, _), _) => OwnedByAny(mon.owner, evicted)
    case Close(x, _, evicted, _) => mon.owner == OfConn(x) || OwnedByAny(mon.owner, evicted)
    case EndSessions(ended, _) => OwnedByAny(mon.owner, ended)
    case Expire(erased, _) => m in erased
    case Foreign(accounts) => mon.account in accounts
    case _ => false
  }

  /** A step that does not take a monitor away leaves it. */
  lemma NextLeaves(c: Core, e: Event, lim: Limits, c': Core, m: nat)
    requires Next(c, e, lim, c') && m in c.mons && m < c.nextMon && !Takes(c, e, m)
    ensures m in c'.mons
  {
    match e
    case Subscribe(x, subs, o, now) => SubscribeTracks(c, o, subs, now, lim, m, c.mons[m].account);
    case OpenSession(req, out, now) => OpenLeaves(c, req, out, now, lim, c', m);
    case _ =>
  }

  lemma OpenLeaves(c: Core, req: SessionRequest, out: Outcome, now: Time, lim: Limits, c': Core, m: nat)
    requires OpenStep(c, req, out, now, lim, c') && m in c.mons && !Takes(c, OpenSession(req, out, now), m)
    ensures m in c'.mons
  {
    match out
    case Started(_, _, _, _) =>
    case Resumed(_, _, _, _, _) =>
    case _ =>
  }

  /** What a step of the run does to the tables. */
  function EventOf(y: State, s: Step): Event {
    match s
    case Other(e) => e
    case Batch(accounts, now) => Expire(ExpiredOf(y.core, accounts, now), now)
  }

  /** A sweep has no reason to remove the monitor: it is not expired or nobody could have renewed it, and the
      session that it may be of has not ended. */
  predicate NotDue(c: Core, e: Event, m: nat)
    requires m in c.mons
  {
    var mon := c.mons[m];
    match e
    case Expire(_, now) => mon.expiry >= now || Destination(c.sess, mon.owner).None?
    case EndSessions(_, now) => mon.owner.OfSession? && mon.owner.sid in c.sess ==> Live(c.sess[mon.owner.sid], now)
    case _ => true
  }

  ghost predicate NeverDue(ys: seq<State>, steps: seq<Step>, m: nat)
    requires |ys| == |steps| + 1
  {
    forall i :: 0 <= i < |steps| && m in ys[i].core.mons ==> NotDue(ys[i].core, EventOf(ys[i], steps[i]), m)
  }

  /** Something other than the sweep took the monitor away at step `i`. */
  predicate TakenAt(ys: seq<State>, steps: seq<Step>, m: nat, i: nat)
    requires |ys| == |steps| + 1 && i < |steps|
  {
    && m in ys[i].core.mons && steps[i].Other? && Takes(ys[i].core, steps[i].e, m)
    && (steps[i].e.OpenSession? || steps[i].e.Close? || steps[i].e.Foreign?)
  }

  lemma StepLeaves(hash: (Account, nat) -> nat, ys: seq<State>, steps: seq<Step>, lim: Limits, m: nat, i: nat)
    requires Sweep(hash, ys, steps, lim) && i < |steps|
    requires m in ys[i].core.mons && m < ys[i].core.nextMon && NotDue(ys[i].core, EventOf(ys[i], steps[i]), m)
    ensures m in ys[i + 1].core.mons || TakenAt(ys, steps, m, i)
  {
    var e := EventOf(ys[i], steps[i]);
    assert SweepSteps(hash, ys, steps, lim, i);
    assert Next(ys[i].core, e, lim, ys[i + 1].core);
    if !Takes(ys[i].core, e, m) { NextLeaves(ys[i].core, e, lim, ys[i + 1].core, m); }
  }

  lemma {:induction false} SweepTracks(hash: (Account, nat) -> nat, ys: seq<State>, steps: seq<Step>, lim: Limits, m: nat, k: nat)
    requires Sweep(hash, ys, steps, lim) && m in ys[0].core.mons && k < |ys|
    ensures Tracked(ys[k].core, m, ys[0].core.mons[m].account)
  {
    if k > 0 {
      SweepTracks(hash, ys, steps, lim, m, k - 1);
      assert SweepSteps(hash, ys, steps, lim, k - 1);
      NextTracks(ys[k - 1].core, EventOf(ys[k - 1], steps[k - 1]), lim, ys[k].core, m, ys[0].core.mons[m].account);
    }
  }

  /** However long a sweep takes, and whatever goes on in between, it spares every monitor that it never has a
      reason to remove: that is still there, unless its connection closed, its session was evicted, or its
      account left the swarm. */
  lemma {:induction false} SweepSparesOthers(hash: (Account, nat) -> nat, ys: seq<State>, steps: seq<Step>, lim: Limits,
                                             m: nat, k: nat)
    requires Sweep(hash, ys, steps, lim) && m in ys[0].core.mons && NeverDue(ys, steps, m) && k < |ys|
    ensures m in ys[k].core.mons || exists i :: 0 <= i < k && TakenAt(ys, steps, m, i)
  {
    if k > 0 {
      SweepSparesOthers(hash, ys, steps, lim, m, k - 1);
      if i :| 0 <= i < k - 1 && TakenAt(ys, steps, m, i) {
        assert 0 <= i < k;
      } else {
        SweepTracks(hash, ys, steps, lim, m, k - 1);
        StepLeaves(hash, ys, steps, lim, m, k - 1);
      }
    }
  }
}

/** What one step of a sweep or of a replay does to the tables. */
module Sweeping {
  import opened MonitorTypes
  import opened SessionLog
  import opened MonitorCore
  import opened MonitorIndex

  /** The monitors of the accounts that a sweep erases: expired, and with a connection to be renewed on. */
  function ExpiredOf(c: Core, accounts: seq<Account>, now: Time): set<nat> {
    set m | m in c.mons && c.mons[m].account in accounts && c.mons[m].expiry < now
            && Destination(c.sess, c.mons[m].owner).Some?
  }

  lemma ExpireNone(c: Core, accounts: seq<Account>, now: Time)
    ensures ExpiredOf(c, accounts[..0], now) == {} && EraseMons(c, ExpiredOf(c, accounts[..0], now)) == c
  {
    assert c.mons - {} == c.mons;
  }

  lemma FewerOwners(mons: map<nat, Monitor>, gone: set<nat>)
    ensures OwningSessions(mons - gone) <= OwningSessions(mons)
  {
  }

  lemma ExpireOneMore(c: Core, accounts: seq<Account>, now: Time, i: nat)
    requires i < |accounts|
    ensures var before := ExpiredOf(c, accounts[..i], now); var c1 := EraseMons(c, before);
      var more := ExpiredOf(c1, [accounts[i]], now);
      && EraseMons(c1, more) == EraseMons(c, ExpiredOf(c, accounts[..i + 1], now))
      && |ExpiredOf(c, accounts[..i + 1], now)| == |before| + |more|
  {
    var before := ExpiredOf(c, accounts[..i], now);
    var more := ExpiredOf(EraseMons(c, before), [accounts[i]], now);
    ExpiredSplit(c, accounts, now, i);
    assert (c.mons - before) - more == c.mons - (before + more);
  }

  lemma ExpiredSplit(c: Core, accounts: seq<Account>, now: Time, i: nat)
    requires i < |accounts|
    ensures var before := ExpiredOf(c, accounts[..i], now); var more := ExpiredOf(EraseMons(c, before), [accounts[i]], now);
      before !! more && before + more == ExpiredOf(c, accounts[..i + 1], now)
  {
    assert accounts[..i + 1] == accounts[..i] + [accounts[i]];
    var before := ExpiredOf(c, accounts[..i], now);
    var more := ExpiredOf(EraseMons(c, before), [accounts[i]], now);
    forall m | m in ExpiredOf(c, accounts[..i + 1], now) ensures m in before + more {
      assert c.mons[m].account in accounts[..i] || c.mons[m].account == accounts[i];
    }
  }

  /** The logs once the sessions in `done` are pruned. */
  function PrunedIn(sess: map<Sid, Session>, logs: map<Sid, Log>, now: Time, done: set<Sid>): map<Sid, Log>
    requires logs.Keys == sess.Keys
  {
    map s | s in logs :: if s in done && sess[s].conn.Some? then Pruned(logs[s], now) else logs[s]
  }

  lemma PrunedNone(c: Core, now: Time)
    requires c.logs.Keys == c.sess.Keys
    ensures PrunedIn(c.sess, c.logs, now, {}) == c.logs && PrunedIn(c.sess, c.logs, now, c.sess.Keys) == PruneAll(c, now)
  {
  }

  lemma PrunedOneMore(sess: map<Sid, Session>, logs: map<Sid, Log>, now: Time, done: set<Sid>, s: Sid)
    requires logs.Keys == sess.Keys && s in sess && s !in done
    ensures var l := PrunedIn(sess, logs, now, done);
      && s in l && l[s] == logs[s]
      && PrunedIn(sess, logs, now, done + {s}) == if sess[s].conn.Some? then l[s := Pruned(logs[s], now)] else l
  {
  }

  ghost predicate IsEnded(sess: map<Sid, Session>, now: Time, ended: seq<Sid>) {
    forall s :: s in ended <==> s in sess && !Live(sess[s], now)
  }

  /** Exactly the sessions that have been without a connection for ten minutes. */
  ghost predicate EndedExactly(sess: map<Sid, Session>, now: Time, ended: seq<Sid>) {
    forall s :: s in ended <==> s in sess && sess[s].conn.None? && sess[s].since.Some? && sess[s].since.value + 600 * 1_000_000_000 <= now
  }

  lemma EndedByTime(sess: map<Sid, Session>, now: Time, ended: seq<Sid>)
    requires IsEnded(sess, now, ended)
    ensures EndedExactly(sess, now, ended)
  {
  }

  /** The owner is a connection, or a session that is on one. */
  predicate HasConn(sess: map<Sid, Session>, o: Owner) {
    o.OfConn? || (o.sid in sess && sess[o.sid].conn != None)
  }

  /** Not for a sweep to remove: gone already, or live. */
  predicate StillLive(sess: map<Sid, Session>, s: Sid, now: Time) {
    s !in sess || Live(sess[s], now)
  }

  /** Those from `first` to `next` are removed, or are not to be. */
  ghost predicate SweptTo(sess: map<Sid, Session>, ended: seq<Sid>, first: nat, next: nat, removed: set<Sid>, now: Time)
    requires next <= |ended|
  {
    && (forall s :: s in removed ==> s in sess && !Live(sess[s], now))
    && (forall i :: first <= i < next ==> ended[i] in removed || StillLive(sess, ended[i], now))
  }

  lemma SweptOneMore(sess: map<Sid, Session>, ended: seq<Sid>, first: nat, next: nat, removed: set<Sid>, now: Time)
    requires next < |ended| && SweptTo(sess, ended, first, next, removed, now)
    ensures var s := ended[next];
      SweptTo(sess, ended, first, next + 1, if s in sess && !Live(sess[s], now) then removed + {s} else removed, now)
  {
  }

  /** How much goes with the sessions: each of them and its monitors. */
  function Weight(mons: map<nat, Monitor>, removed: set<Sid>): nat {
    |removed| + |MonsOf(mons, removed)|
  }

  /** `gone` is what has gone in one batch so far, and the last of it went while there was room for it. */
  ghost predicate InBatch(mons: map<nat, Monitor>, removed: set<Sid>, gone: nat) {
    && gone == Weight(mons, removed)
    && (removed != {} ==> exists s :: s in removed && Weight(mons, removed - {s}) < PASS_BATCH)
  }

  lemma NothingGone(mons: map<nat, Monitor>)
    ensures InBatch(mons, {}, 0)
  {
    assert MonsOf(mons, {}) == {};
  }

  lemma StillThere(c: Core, removed: set<Sid>, s: Sid)
    ensures s in RemoveSessions(c, removed).sess <==> s in c.sess && s !in removed
    ensures s in RemoveSessions(c, removed).sess ==> RemoveSessions(c, removed).sess[s] == c.sess[s]
    ensures s in removed ==> removed + {s} == removed
  {
  }

  lemma OneMoreGone(c: Core, removed: set<Sid>, gone: nat, s: Sid)
    requires InBatch(c.mons, removed, gone) && gone < PASS_BATCH && s !in removed
    ensures InBatch(c.mons, removed + {s}, gone + |OwnedBy(RemoveSessions(c, removed).mons, OfSession(s))| + 1)
  {
    WeighOneMore(c.mons, removed, s);
    assert s in removed + {s} && (removed + {s}) - {s} == removed;
  }

  lemma WeighOneMore(mons: map<nat, Monitor>, removed: set<Sid>, s: Sid)
    requires s !in removed
    ensures Weight(mons, removed + {s}) == Weight(mons, removed) + |OwnedBy(mons - MonsOf(mons, removed), OfSession(s))| + 1
  {
    var own := OwnedBy(mons - MonsOf(mons, removed), OfSession(s));
    MonsOfOneMore(mons, removed, s);
    assert MonsOf(mons, removed) !! own;
  }

  lemma MonsOfOneMore(mons: map<nat, Monitor>, removed: set<Sid>, s: Sid)
    ensures MonsOf(mons, removed + {s}) == MonsOf(mons, removed) + OwnedBy(mons - MonsOf(mons, removed), OfSession(s))
  {
  }

  // ---- The limit of a resume applied

  function Only(starts: map<(Account, Namespace), int>, done: set<(Account, Namespace)>): map<(Account, Namespace), int> {
    map p | p in starts && p in done :: starts[p]
  }

  /** The start of one pair raised. */
  function RaiseOne(l: Log, p: (Account, Namespace), start: int): Log {
    if p.0 !in l.index then l
    else
      var k := (l.index[p.0], p.1);
      if k in l.missed && l.missed[k].id < start then l.(missed := l.missed[k := l.missed[k].(id := start)]) else l
  }

  /** The start of a pair as the listed starts raise it. */
  function RaisedStart(l: Log, starts: map<(Account, Namespace), int>, k: (nat, Namespace)): MissedFrom
    requires k in l.missed && k.0 < |l.keys|
  {
    var p := (l.keys[k.0], k.1);
    if p in starts && l.missed[k].id < starts[p] then l.missed[k].(id := starts[p]) else l.missed[k]
  }

  lemma RaisedAt(l: Log, starts: map<(Account, Namespace), int>, k: (nat, Namespace))
    requires WellFormed(l) && k in l.missed
    ensures Raised(l, starts).missed[k] == RaisedStart(l, starts, k)
  {
  }

  lemma StartOneMore(l: Log, starts: map<(Account, Namespace), int>, done: set<(Account, Namespace)>, p: (Account,
                     Namespace), k: (nat, Namespace))
    requires WellFormed(l) && p in starts && p !in done && k in l.missed
    ensures var was := RaisedStart(l, Only(starts, done), k);
      RaisedStart(l, Only(starts, done + {p}), k) ==
        if (l.keys[k.0], k.1) == p && was.id < starts[p] then was.(id := starts[p]) else was
  {
  }

  lemma RaisedOneAt(l: Log, was: Log, p: (Account, Namespace), start: int, k: (nat, Namespace))
    requires WellFormed(l) && was == l.(missed := was.missed) && was.missed.Keys == l.missed.Keys && k in l.missed
    ensures var r := RaiseOne(was, p, start).missed;
      k in r && r[k] == if (l.keys[k.0], k.1) == p && was.missed[k].id < start then was.missed[k].(id := start) else was.missed[k]
  {
    assert (l.keys[k.0], k.1) == p <==> p.0 in l.index && k == (l.index[p.0], p.1);
  }

  lemma RaisedKeys(l: Log, p: (Account, Namespace), start: int)
    ensures RaiseOne(l, p, start).missed.Keys == l.missed.Keys
  {
  }

  lemma SameStarts(a: map<(nat, Namespace), MissedFrom>, b: map<(nat, Namespace), MissedFrom>)
    requires a.Keys == b.Keys && forall k :: k in a ==> a[k] == b[k]
    ensures a == b
  {
  }

  lemma RaisedStartAt(l: Log, starts: map<(Account, Namespace), int>, done: set<(Account, Namespace)>, p: (Account,
                      Namespace), k: (nat, Namespace))
    requires WellFormed(l) && p in starts && p !in done && k in l.missed
    ensures var r := RaiseOne(Raised(l, Only(starts, done)), p, starts[p]).missed;
      k in r && Raised(l, Only(starts, done + {p})).missed[k] == r[k]
  {
    RaisedAt(l, Only(starts, done), k);
    RaisedAt(l, Only(starts, done + {p}), k);
    StartOneMore(l, starts, done, p, k);
    RaisedOneAt(l, Raised(l, Only(starts, done)), p, starts[p], k);
  }

  lemma RaisedStarts(l: Log, starts: map<(Account, Namespace), int>, done: set<(Account, Namespace)>, p: (Account,
                     Namespace))
    requires WellFormed(l) && p in starts && p !in done
    ensures Raised(l, Only(starts, done + {p})).missed == RaiseOne(Raised(l, Only(starts, done)), p, starts[p]).missed
  {
    var a, b := Raised(l, Only(starts, done + {p})).missed, RaiseOne(Raised(l, Only(starts, done)), p, starts[p]).missed;
    RaisedKeys(Raised(l, Only(starts, done)), p, starts[p]);
    forall k | k in a ensures a[k] == b[k] {
      RaisedStartAt(l, starts, done, p, k);
    }
    SameStarts(a, b);
  }

  lemma RaisedOneMore(l: Log, starts: map<(Account, Namespace), int>, done: set<(Account, Namespace)>, p: (Account,
                      Namespace))
    requires WellFormed(l) && p in starts && p !in done
    ensures Raised(l, Only(starts, done + {p})) == RaiseOne(Raised(l, Only(starts, done)), p, starts[p])
  {
    RaisedStarts(l, starts, done, p);
  }

  lemma RaisedNone(l: Log, starts: map<(Account, Namespace), int>)
    ensures Raised(l, Only(starts, {})) == l && Only(starts, starts.Keys) == starts
  {
    assert Raised(l, Only(starts, {})).missed == l.missed;
  }

  lemma MovePair(done: set<(Account, Namespace)>, left: set<(Account, Namespace)>, p: (Account, Namespace))
    requires p in left && done !! left
    ensures done + {p} !! left - {p} && (done + {p}) + (left - {p}) == done + left
  {
  }

  // ---- The order of a replay

  /** The order of a session's starts: by account, in the order they came up, and then by namespace. */
  predicate Before(a: (nat, Namespace), b: (nat, Namespace)) {
    a.0 < b.0 || (a.0 == b.0 && a.1 <= b.1)
  }

  predicate FirstOf(keys: set<(nat, Namespace)>, k: (nat, Namespace)) {
    k in keys && forall q :: q in keys ==> Before(k, q)
  }

  lemma {:induction false} FirstExists(keys: set<(nat, Namespace)>)
    requires keys != {}
    ensures exists k :: FirstOf(keys, k)
    decreases keys
  {
    var x :| x in keys;
    var rest := keys - {x};
    var e := x;
    if rest != {} {
      FirstExists(rest);
      var k :| FirstOf(rest, k);
      if !Before(x, k) { e := k; }
    }
    forall q | q in keys ensures Before(e, q) {
      if q != x { assert q in rest; }
    }
    assert FirstOf(keys, e);
  }

  /** The log with its starts raised, one after another. */
  method RaiseStarts(l: Log, starts: map<(Account, Namespace), int>) returns (r: Log)
    requires WellFormed(l)
    ensures r == Raised(l, starts)
  {
    r := l;
    var todo := starts.Keys;
    ghost var done := {};
    RaisedNone(l, starts);
    while todo != {}
      invariant done !! todo && done + todo == starts.Keys
      invariant r == Raised(l, Only(starts, done))
      decreases todo
    {
      var p :| p in todo;
      RaisedOneMore(l, starts, done, p);
      r := RaiseOne(r, p, starts[p]);
      MovePair(done, todo, p);
      todo := todo - {p};
      done := done + {p};
    }
    assert done == starts.Keys;
  }

  /** The log once the rows looked up for the pair have been sent, and which of them were: those not below
      where the pair now starts. */
  method Advance(l: Log, k: (nat, Namespace), from: MissedFrom, rows: seq<int>, now: Time)
    returns (r: Log, sent: seq<int>)
    requires k in l.missed
    ensures sent == SentOf(rows, l.missed[k].id)
    ensures r == Advanced(l, k, from, rows, now)
  {
    var start := l.missed[k].id;
    sent := [];
    var recent := l.recent;
    var i := 0;
    while i < |rows|
      invariant i <= |rows| && sent == SentOf(rows[..i], start)
      invariant recent == l.recent + AsRecent(sent, k, from.wantData, now)
    {
      assert rows[..i + 1][..i] == rows[..i];
      if rows[i] >= start {
        sent := sent + [rows[i]];
        recent := recent + [Recent(now, rows[i], k.0, k.1, from.wantData)];
      }
      i := i + 1;
    }
    assert rows[..|rows|] == rows;
    if |rows| < REPLAY_CHUNK {
      r := l.(recent := recent, missed := l.missed - {k});
    } else {
      r := l.(recent := recent, missed := l.missed[k := l.missed[k].(id := rows[|rows| - 1] + 1)]);
    }
  }
}

/** Whom a stored message is notified to, and how much of it. */
module Notifying {
  import opened MonitorTypes
  import opened SessionLog
  import opened MonitorCore
  import opened MonitorIndex
  import opened BodyLimits

  /** How much of a body the owner asked for at most: only sessions can. */
  function BodyMaxOf(c: Core, o: Owner): Option<nat> {
    match o
    case OfConn(_) => None
    case OfSession(s) => if s in c.sess then c.sess[s].bodyMax else None
  }

  function LimitOf(c: Core, m: nat): (b: BodyLimit)
    requires m in c.mons
    ensures Normal(b)
  {
    var mon := c.mons[m];
    BodyLimit(mon.wantData, if mon.wantData then BodyMaxOf(c, mon.owner) else None)
  }

  function AllMatched(c: Core, account: Account, ns: Namespace, now: Time): set<nat> {
    set m | m in c.mons && Matches(c, m, account, ns, now)
  }

  /** The monitors of `ms` that resolve to the connection. */
  function Towards(c: Core, ms: set<nat>, x: Conn): set<nat> {
    set m | m in ms && m in c.mons && Destination(c.sess, c.mons[m].owner) == Some(x)
  }

  function LimitsTowards(c: Core, ms: set<nat>, x: Conn): set<BodyLimit> {
    set m | m in Towards(c, ms, x) :: LimitOf(c, m)
  }

  /** `to` lists exactly the connections that some monitor of `ms` resolves to, with the join of their limits. */
  ghost predicate Merged(c: Core, ms: set<nat>, to: map<Conn, BodyLimit>) {
    && (forall x {:trigger x in to} :: x in to <==> Towards(c, ms, x) != {})
    && (forall x :: x in to ==> IsJoin(LimitsTowards(c, ms, x), to[x]))
  }

  function MergedWith(to: map<Conn, BodyLimit>, x: Conn, l: BodyLimit): map<Conn, BodyLimit> {
    to[x := Merge(if x in to then to[x] else NoBody, l)]
  }

  lemma TowardsOneMore(c: Core, ms: set<nat>, m: nat, x: Conn)
    requires m in c.mons
    ensures if Destination(c.sess, c.mons[m].owner) == Some(x)
            then Towards(c, ms + {m}, x) == Towards(c, ms, x) + {m} && LimitsTowards(c, ms + {m}, x) == LimitsTowards(c, ms, x) + {LimitOf(c, m)}
            else Towards(c, ms + {m}, x) == Towards(c, ms, x) && LimitsTowards(c, ms + {m}, x) == LimitsTowards(c, ms, x)
  {
    if Destination(c.sess, c.mons[m].owner) == Some(x) {
      assert Towards(c, ms + {m}, x) == Towards(c, ms, x) + {m};
    } else {
      assert Towards(c, ms + {m}, x) == Towards(c, ms, x);
    }
  }

  ghost predicate MergedFor(c: Core, ms: set<nat>, to: map<Conn, BodyLimit>, x: Conn) {
    (x in to <==> Towards(c, ms, x) != {}) && (x in to ==> IsJoin(LimitsTowards(c, ms, x), to[x]))
  }

  lemma MergeOneMoreFor(c: Core, ms: set<nat>, to: map<Conn, BodyLimit>, m: nat, to': map<Conn, BodyLimit>, x: Conn)
    requires MergedFor(c, ms, to, x) && m in c.mons
    requires var dest := Destination(c.sess, c.mons[m].owner);
      to' == if dest.Some? then MergedWith(to, dest.value, LimitOf(c, m)) else to
    ensures MergedFor(c, ms + {m}, to', x)
  {
    TowardsOneMore(c, ms, m, x);
    if Destination(c.sess, c.mons[m].owner) == Some(x) {
      if x !in to { NothingToJoin(); }
      MergeJoins(LimitsTowards(c, ms, x), if x in to then to[x] else NoBody, LimitOf(c, m));
    }
  }

  lemma MergeOneMore(c: Core, ms: set<nat>, to: map<Conn, BodyLimit>, m: nat)
    requires Merged(c, ms, to) && m in c.mons
    ensures var dest := Destination(c.sess, c.mons[m].owner);
      Merged(c, ms + {m}, if dest.Some? then MergedWith(to, dest.value, LimitOf(c, m)) else to)
  {
    var dest := Destination(c.sess, c.mons[m].owner);
    var to' := if dest.Some? then MergedWith(to, dest.value, LimitOf(c, m)) else to;
    forall x ensures MergedFor(c, ms + {m}, to', x) {
      assert x in to <==> Towards(c, ms, x) != {};
      MergeOneMoreFor(c, ms, to, m, to', x);
    }
    MergedForAll(c, ms + {m}, to');
  }

  lemma MergedForAll(c: Core, ms: set<nat>, to: map<Conn, BodyLimit>)
    requires forall x :: MergedFor(c, ms, to, x)
    ensures Merged(c, ms, to)
  {
    forall x {:trigger x in to} ensures x in to <==> Towards(c, ms, x) != {} {
      assert MergedFor(c, ms, to, x);
    }
    forall x | x in to ensures IsJoin(LimitsTowards(c, ms, x), to[x]) {
      assert MergedFor(c, ms, to, x);
    }
  }

  // ---- The sessions it is for

  function OwnedIn(c: Core, ms: set<nat>, s: Sid): set<nat> {
    set m | m in ms && m in c.mons && c.mons[m].owner == OfSession(s)
  }

  /** `to` lists exactly the sessions with a monitor in `ms`, and whether any of those wants data. */
  ghost predicate Noted(c: Core, ms: set<nat>, to: map<Sid, bool>) {
    && (forall s {:trigger s in to} :: s in to <==> OwnedIn(c, ms, s) != {})
    && (forall s :: s in to ==> to[s] == WantsData(c.mons, OwnedIn(c, ms, s)))
  }

  function NotedWith(to: map<Sid, bool>, s: Sid, wantData: bool): map<Sid, bool> {
    to[s := (s in to && to[s]) || wantData]
  }

  lemma NoteOneMore(c: Core, ms: set<nat>, to: map<Sid, bool>, m: nat)
    requires Noted(c, ms, to) && m in c.mons
    ensures var o := c.mons[m].owner;
      Noted(c, ms + {m}, if o.OfSession? then NotedWith(to, o.sid, c.mons[m].wantData) else to)
  {
    var o := c.mons[m].owner;
    var to' := if o.OfSession? then NotedWith(to, o.sid, c.mons[m].wantData) else to;
    forall s {:trigger s in to'}
      ensures (s in to' <==> OwnedIn(c, ms + {m}, s) != {}) && (s in to' ==> to'[s] == WantsData(c.mons, OwnedIn(c, ms + {m}, s)))
    {
      assert s in to <==> OwnedIn(c, ms, s) != {};
      if o == OfSession(s) {
        assert OwnedIn(c, ms + {m}, s) == OwnedIn(c, ms, s) + {m};
        assert m in OwnedIn(c, ms, s) + {m};
      } else {
        assert OwnedIn(c, ms + {m}, s) == OwnedIn(c, ms, s);
      }
    }
  }

  lemma NothingMatched(c: Core)
    ensures Merged(c, {}, map[]) && Noted(c, {}, map[])
  {
  }

  /** The logs once the sessions in `done` have remembered the message. */
  function NotedLogs(sess: map<Sid, Session>, logs: map<Sid, Log>, to: map<Sid, bool>, done: set<Sid>,
                     account: Account, ns: Namespace, id: int, now: Time): map<Sid, Log>
    requires logs.Keys == sess.Keys
  {
    map s | s in logs ::
      if s in to && s in done then Remembered(logs[s], sess[s].conn.Some?, now, Msg(account, ns, id, to[s])) else logs[s]
  }

  lemma NotedNone(sess: map<Sid, Session>, logs: map<Sid, Log>, to: map<Sid, bool>, account: Account,
                  ns: Namespace, id: int, now: Time)
    requires logs.Keys == sess.Keys
    ensures NotedLogs(sess, logs, to, {}, account, ns, id, now) == logs
  {
  }

  lemma NotedOneMore(sess: map<Sid, Session>, logs: map<Sid, Log>, to: map<Sid, bool>, done: set<Sid>,
                     account: Account, ns: Namespace, id: int, now: Time, s: Sid)
    requires logs.Keys == sess.Keys && s in sess && s in to && s !in done
    ensures var l := NotedLogs(sess, logs, to, done, account, ns, id, now);
      && s in l && l[s] == logs[s]
      && NotedLogs(sess, logs, to, done + {s}, account, ns, id, now) == l[s := Remembered(logs[s], sess[s].conn.Some?, now, Msg(account, ns, id, to[s]))]
  {
  }

  lemma AllNoted(c: Core, to: map<Sid, bool>, account: Account, ns: Namespace, id: int, now: Time)
    requires c.logs.Keys == c.sess.Keys && Noted(c, AllMatched(c, account, ns, now), to)
    ensures NotedLogs(c.sess, c.logs, to, to.Keys, account, ns, id, now) == NotifiedLogs(c, account, ns, id, now)
  {
    var ms := AllMatched(c, account, ns, now);
    forall s | s in c.logs
      ensures OwnedIn(c, ms, s) == MatchedFor(c, s, account, ns, now) && (s in to <==> OwnedIn(c, ms, s) != {})
    {
    }
  }

  lemma NotedAreStored(c: Core, to: map<Sid, bool>, account: Account, ns: Namespace, now: Time)
    requires Noted(c, AllMatched(c, account, ns, now), to)
    requires OwningSessions(c.mons) <= c.sess.Keys
    ensures to.Keys <= c.sess.Keys
  {
    forall s | s in to ensures s in c.sess {
      var m :| m in OwnedIn(c, AllMatched(c, account, ns, now), s);
      assert c.mons[m].owner.sid in OwningSessions(c.mons);
    }
  }

  /** `seen` are the matching monitors but for those still to be looked at. */
  ghost predicate SeenAll(c: Core, left: set<nat>, seen: set<nat>, account: Account, ns: Namespace, now: Time) {
    && (forall m :: m in seen ==> m in c.mons && m !in left)
    && (forall m :: m in c.mons && m !in left ==> (m in seen <==> Matches(c, m, account, ns, now)))
  }

  lemma SeeOneMore(c: Core, left: set<nat>, seen: set<nat>, account: Account, ns: Namespace, now: Time, m: nat)
    requires SeenAll(c, left, seen, account, ns, now) && m in left && m in c.mons
    ensures SeenAll(c, left - {m}, if Matches(c, m, account, ns, now) then seen + {m} else seen, account, ns, now)
  {
  }

  lemma SeenIsAll(c: Core, seen: set<nat>, account: Account, ns: Namespace, now: Time)
    requires SeenAll(c, {}, seen, account, ns, now)
    ensures seen == AllMatched(c, account, ns, now)
  {
  }

  // ---- What is sent

  /** Each connection is in the one group of what applies to it. */
  ghost predicate Grouped(to: map<Conn, BodyLimit>, size: nat, groups: map<BodyLimit, set<Conn>>) {
    && (forall b, x :: b in groups && x in groups[b] ==> x in to && b == Applied(to[x], size))
    && (forall x :: x in to ==> Applied(to[x], size) in groups && x in groups[Applied(to[x], size)])
  }

  /** The notification of `data` for `x`, if it is sent one. */
  ghost predicate IsSent(groups: map<BodyLimit, set<Conn>>, data: string, x: Conn, body: Body) {
    exists b :: b in groups && x in groups[b] && body == NotifyBody(data, b)
  }

  /** A connection is sent one notification if some matching monitor resolves to it, and none otherwise; its
      body is the one that the most demanding of those monitors alone would get. */
  lemma EachIsToldOnce(c: Core, ms: set<nat>, to: map<Conn, BodyLimit>, groups: map<BodyLimit, set<Conn>>,
                       data: string, x: Conn)
    requires Merged(c, ms, to) && Grouped(to, |data|, groups)
    ensures (exists body :: IsSent(groups, data, x, body)) <==> Towards(c, ms, x) != {}
    ensures forall b, b' :: b in groups && b' in groups && x in groups[b] && x in groups[b'] ==> b == b'
    ensures forall body :: IsSent(groups, data, x, body) ==>
      && (exists m :: m in Towards(c, ms, x) && body == NotifyBody(data, LimitOf(c, m)))
      && (forall m :: m in Towards(c, ms, x) ==> Shown(NotifyBody(data, LimitOf(c, m))) <= Shown(body))
      && (body.fullSize.Some? <==>
            (exists m :: m in Towards(c, ms, x) && c.mons[m].wantData)
            && forall m :: m in Towards(c, ms, x) && c.mons[m].wantData ==> NotifyBody(data, LimitOf(c, m)).data != Some(data))
  {
    if x in to {
      var b := Applied(to[x], |data|);
      AppliedIsEnough(data, to[x]);
      assert IsSent(groups, data, x, NotifyBody(data, b));
      BestOfAll(c, ms, to, data, x);
    }
  }

  lemma BestOfAll(c: Core, ms: set<nat>, to: map<Conn, BodyLimit>, data: string, x: Conn)
    requires Merged(c, ms, to) && x in to
    ensures var body := NotifyBody(data, to[x]);
      && (exists m :: m in Towards(c, ms, x) && body == NotifyBody(data, LimitOf(c, m)))
      && (forall m :: m in Towards(c, ms, x) ==> Shown(NotifyBody(data, LimitOf(c, m))) <= Shown(body))
      && (body.fullSize.Some? <==>
            (exists m :: m in Towards(c, ms, x) && c.mons[m].wantData)
            && forall m :: m in Towards(c, ms, x) && c.mons[m].wantData ==> NotifyBody(data, LimitOf(c, m)).data != Some(data))
  {
    assert Towards(c, ms, x) != {};
    BestIsOne(c, ms, data, to[x], x);
    BestIsSized(c, ms, data, to[x], x);
  }

  /** The limits towards a connection are those of its monitors. */
  lemma LimitsAreTowards(c: Core, ms: set<nat>, x: Conn)
    ensures forall m :: m in Towards(c, ms, x) ==> LimitOf(c, m) in LimitsTowards(c, ms, x) && LimitOf(c, m).data == c.mons[m].wantData
    ensures forall l :: l in LimitsTowards(c, ms, x) ==> exists m :: m in Towards(c, ms, x) && LimitOf(c, m) == l
  {
  }

  lemma BestIsOne(c: Core, ms: set<nat>, data: string, l: BodyLimit, x: Conn)
    requires IsJoin(LimitsTowards(c, ms, x), l) && Towards(c, ms, x) != {}
    ensures var body := NotifyBody(data, l);
      && (exists m :: m in Towards(c, ms, x) && body == NotifyBody(data, LimitOf(c, m)))
      && (forall m :: m in Towards(c, ms, x) ==> Shown(NotifyBody(data, LimitOf(c, m))) <= Shown(body))
  {
    var ls := LimitsTowards(c, ms, x);
    LimitsAreTowards(c, ms, x);
    var some :| some in Towards(c, ms, x);
    assert LimitOf(c, some) in ls;
    JoinShowsLongest(data, ls, l);
    var a :| a in ls && NotifyBody(data, a) == NotifyBody(data, l);
    var m :| m in Towards(c, ms, x) && LimitOf(c, m) == a;
  }

  lemma BestIsSized(c: Core, ms: set<nat>, data: string, l: BodyLimit, x: Conn)
    requires IsJoin(LimitsTowards(c, ms, x), l) && Towards(c, ms, x) != {}
    ensures NotifyBody(data, l).fullSize.Some? <==>
      && (exists m :: m in Towards(c, ms, x) && c.mons[m].wantData)
      && forall m :: m in Towards(c, ms, x) && c.mons[m].wantData ==> NotifyBody(data, LimitOf(c, m)).data != Some(data)
  {
    var ls := LimitsTowards(c, ms, x);
    LimitsAreTowards(c, ms, x);
    var some :| some in Towards(c, ms, x);
    assert LimitOf(c, some) in ls;
    JoinShowsLongest(data, ls, l);
    if w :| w in ls && w.data {
      var n :| n in Towards(c, ms, x) && LimitOf(c, n) == w;
      assert c.mons[n].wantData;
    }
  }

  /** Groups the connections: two are together exactly if the same applies to both for a body of this size. */
  method GroupByBody(to: map<Conn, BodyLimit>, size: nat) returns (groups: map<BodyLimit, set<Conn>>)
    ensures Grouped(to, size, groups)
  {
    groups := map[];
    var todo := to.Keys;
    while todo != {}
      invariant todo <= to.Keys
      invariant forall b, x :: b in groups && x in groups[b] ==> x in to && b == Applied(to[x], size)
      invariant forall x :: x in to && x !in todo ==> Applied(to[x], size) in groups && x in groups[Applied(to[x], size)]
      decreases todo
    {
      var x :| x in todo;
      var b := Applied(to[x], size);
      groups := groups[b := (if b in groups then groups[b] else {}) + {x}];
      todo := todo - {x};
    }
  }

  // ---- Who is told of a message, by the fields of the monitors

  /** A monitor of the account with the namespace. */
  predicate Watches(mon: Monitor, account: Account, ns: Namespace) {
    mon.account == account && exists i :: 0 <= i < |mon.namespaces| && mon.namespaces[i] == ns
  }

  /** The monitor is the connection's own, or of the session on it. */
  ghost predicate GoesTo(sess: map<Sid, Session>, mon: Monitor, x: Conn) {
    mon.owner == OfConn(x) || exists s :: s in sess && mon.owner == OfSession(s) && sess[s].conn == Some(x)
  }

  ghost predicate TellsOf(c: Core, m: nat, account: Account, ns: Namespace, now: Time, x: Conn)
    requires m in c.mons
  {
    Watches(c.mons[m], account, ns) && GoesTo(c.sess, c.mons[m], x) && now <= c.mons[m].expiry
  }

  ghost predicate IsToldOf(c: Core, account: Account, ns: Namespace, now: Time, x: Conn) {
    exists m :: m in c.mons && TellsOf(c, m, account, ns, now, x)
  }

  predicate InSomeGroup(groups: map<BodyLimit, set<Conn>>, x: Conn) {
    exists b :: b in groups && x in groups[b]
  }

  lemma TowardsTells(c: Core, account: Account, ns: Namespace, now: Time, x: Conn, m: nat)
    requires m in c.mons
    ensures m in Towards(c, AllMatched(c, account, ns, now), x) <==> TellsOf(c, m, account, ns, now, x)
  {
  }

  /** A connection is in some group exactly if an unexpired monitor of the account and namespace is its own, or its
      session's. */
  lemma ToldExactly(c: Core, account: Account, ns: Namespace, now: Time, to: map<Conn, BodyLimit>, size: nat,
                    groups: map<BodyLimit, set<Conn>>, x: Conn)
    requires Merged(c, AllMatched(c, account, ns, now), to) && Grouped(to, size, groups)
    ensures InSomeGroup(groups, x) <==> IsToldOf(c, account, ns, now, x)
  {
    var ms := Towards(c, AllMatched(c, account, ns, now), x);
    assert x in to <==> ms != {};
    if x in to {
      assert Applied(to[x], size) in groups;
      var m :| m in ms;
      TowardsTells(c, account, ns, now, x, m);
    }
    if m :| m in c.mons && TellsOf(c, m, account, ns, now, x) { TowardsTells(c, account, ns, now, x, m); }
  }

  /** How much of a body of this size the monitor is for: nothing without data, and for a session no more than the
      maximum that it gave. */
  function Amount(sess: map<Sid, Session>, mon: Monitor, size: nat): nat {
    if !mon.wantData then 0
    else match mon.owner
      case OfConn(_) => size
      case OfSession(s) =>
        if s in sess && sess[s].bodyMax.Some? && sess[s].bodyMax.value < size then sess[s].bodyMax.value else size
  }

  function ShownOf(body: Body): string {
    if body.data.Some? then body.data.value else ""
  }

  lemma LimitShows(c: Core, m: nat, data: string)
    requires m in c.mons
    ensures ShownOf(NotifyBody(data, LimitOf(c, m))) == data[..Amount(c.sess, c.mons[m], |data|)]
  {
    assert data[..|data|] == data;
  }

  /** What a connection is shown of a message is as much of its start as the most that any monitor is for, of those by
      which it is told. */
  lemma ShownExactly(c: Core, account: Account, ns: Namespace, now: Time, to: map<Conn, BodyLimit>, data: string,
                     groups: map<BodyLimit, set<Conn>>, x: Conn, body: Body)
    requires Merged(c, AllMatched(c, account, ns, now), to) && Grouped(to, |data|, groups) && IsSent(groups, data, x, body)
    ensures ShownOf(body) <= data
    ensures exists m :: m in c.mons && TellsOf(c, m, account, ns, now, x) && |ShownOf(body)| == Amount(c.sess, c.mons[m], |data|)
    ensures forall m :: m in c.mons && TellsOf(c, m, account, ns, now, x) ==> Amount(c.sess, c.mons[m], |data|) <= |ShownOf(body)|
  {
    var ms := AllMatched(c, account, ns, now);
    EachIsToldOnce(c, ms, to, groups, data, x);
    var best :| best in Towards(c, ms, x) && body == NotifyBody(data, LimitOf(c, best));
    TowardsTells(c, account, ns, now, x, best);
    LimitShows(c, best, data);
    forall m | m in c.mons && TellsOf(c, m, account, ns, now, x)
      ensures Amount(c.sess, c.mons[m], |data|) <= |ShownOf(body)|
    {
      TowardsTells(c, account, ns, now, x, m);
      LimitShows(c, m, data);
    }
  }

  // ---- What a session notes of a message

  /** A monitor of the session by which it notes the message: unexpired, unless the session has no connection. */
  predicate NotesBy(c: Core, s: Sid, m: nat, account: Account, ns: Namespace, now: Time)
    requires s in c.sess && m in c.mons
  {
    c.mons[m].owner == OfSession(s) && Watches(c.mons[m], account, ns) && (c.sess[s].conn.None? || now <= c.mons[m].expiry)
  }

  predicate NotesIt(c: Core, s: Sid, account: Account, ns: Namespace, now: Time)
    requires s in c.sess
  {
    exists m :: m in c.mons && NotesBy(c, s, m, account, ns, now)
  }

  predicate NotesData(c: Core, s: Sid, account: Account, ns: Namespace, now: Time)
    requires s in c.sess
  {
    exists m :: m in c.mons && NotesBy(c, s, m, account, ns, now) && c.mons[m].wantData
  }

  /** The log with the message noted as sent: one more recent entry. */
  ghost predicate NotedSent(l: Log, l': Log, account: Account, ns: Namespace, id: int, data: bool, now: Time) {
    && l.keys <= l'.keys && l'.missed == l.missed && l'.replayId == l.replayId
    && |l'.recent| == |l.recent| + 1 && l'.recent[..|l.recent|] == l.recent
    && var r := l'.recent[|l.recent|];
    && r.account < |l'.keys| && l'.keys[r.account] == account
    && r.ns == ns && r.id == id && r.wantData == data && r.sent == now
  }

  /** The log with the message noted as missed: the start of its pair at or below it, and no lower than it need be. */
  ghost predicate NotedMissed(l: Log, l': Log, account: Account, ns: Namespace, id: int, data: bool) {
    && l.keys <= l'.keys && l'.recent == l.recent && l'.replayId == l.replayId
    && account in l'.index && l'.index[account] < |l'.keys| && l'.keys[l'.index[account]] == account
    && var k := (l'.index[account], ns);
    && l'.missed.Keys == l.missed.Keys + {k} && (forall q :: q in l.missed && q != k ==> l'.missed[q] == l.missed[q])
    && l'.missed[k].id == (if k in l.missed && l.missed[k].id < id then l.missed[k].id else id)
    && l'.missed[k].wantData == (data || (k in l.missed && l.missed[k].wantData))
  }

  lemma MatchedNotes(c: Core, s: Sid, account: Account, ns: Namespace, now: Time)
    requires s in c.sess
    ensures MatchedFor(c, s, account, ns, now) != {} <==> NotesIt(c, s, account, ns, now)
    ensures WantsData(c.mons, MatchedFor(c, s, account, ns, now)) <==> NotesData(c, s, account, ns, now)
  {
    var ms := MatchedFor(c, s, account, ns, now);
    forall m | m in c.mons ensures m in ms <==> NotesBy(c, s, m, account, ns, now) {
    }
    if m :| m in c.mons && NotesBy(c, s, m, account, ns, now) && c.mons[m].wantData { assert m in ms; }
    if m :| m in c.mons && NotesBy(c, s, m, account, ns, now) { assert m in ms; }
  }

  /** A session's log changes only for a message that one of its monitors is for, and then notes it: as sent if the
      session has a connection, as missed if not, wanting data if one of those monitors does. */
  lemma NotedExactly(c: Core, s: Sid, account: Account, ns: Namespace, id: int, now: Time)
    requires c.logs.Keys == c.sess.Keys && s in c.sess && WellFormed(c.logs[s])
    ensures var l, l' := c.logs[s], NotifiedLogs(c, account, ns, id, now)[s];
      if !NotesIt(c, s, account, ns, now) then l' == l
      else if c.sess[s].conn.Some? then NotedSent(l, l', account, ns, id, NotesData(c, s, account, ns, now), now)
      else NotedMissed(l, l', account, ns, id, NotesData(c, s, account, ns, now))
  {
    MatchedNotes(c, s, account, ns, now);
    InternedKeeps(c.logs[s], account);
  }
}

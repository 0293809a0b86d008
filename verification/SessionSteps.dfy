/** What the lock sections of the server's sessions do, step by step: the facts that tie each of their
    changes to the steps of MonitorCore and to the indices. */
module SessionSteps {
  import opened MonitorTypes
  import opened SessionLog
  import opened MonitorCore
  import opened CoreInvariants
  import opened MonitorIndex
  import opened SessionIndex

  /** Empty tables have empty indices. */
  lemma NothingIndexed()
    ensures Recount(map[], map[]) == Indices(map[], map[], map[], 0)
    ensures Relist(map[]) == Lookups(map[], map[], {}, {}, map[])
  {
    assert DetachedMons(map[], map[]) == {};
    assert OwningConns(map[]) == {};
    assert TokensOf(map[]) == {} && BoundConns(map[]) == {} && IpsOf(map[]) == {};
  }

  lemma LogIsWellFormed(c: Core, s: Sid, lim: Limits)
    requires Inv(c, lim) && s in c.logs
    ensures WellFormed(c.logs[s])
  {
  }

  datatype Refusal = SessionAlreadyStarted | TooMany

  /** What the client is told of its request; `replay` is the replay that a resume starts. */
  datatype Reply =
    | NoReply
    | Refused(why: Refusal)
    | Opened(resumed: bool, token: Token, ended: set<Account>, replay: nat)

  function ReplyFor(req: SessionRequest, out: Outcome): Reply {
    match out
    case Ignored => NoReply
    case AlreadyStarted => Refused(SessionAlreadyStarted)
    case TooManySessions => Refused(TooMany)
    case Started(_, _, _, _) => Opened(false, req.drawn, {}, 0)
    case Resumed(_, _, _, replay, ended) => Opened(true, req.drawn, ended, replay)
  }

  /** The first draw that no session has. */
  predicate IsFirstDraw(sess: map<Sid, Session>, draws: nat -> Token, i: nat, t: Token) {
    t == draws(i) && forall j :: 0 <= j < i ==> HasToken(sess, draws(j))
  }

  /** Making room removes only detached sessions, and so not the connection's. */
  lemma RoomKeepsStartable(c: Core, req: SessionRequest, previous: Option<Sid>, removed: set<Sid>, lim: Limits)
    requires Inv(c, lim) && BoundElsewhere(c.sess, req.conn, None, previous)
    requires MakesRoom(c.sess, CountedIp(req), removed, lim)
    ensures Startable(RemoveSessions(c, removed), req.conn, previous) && DetachedCap(RemoveSessions(c, removed), lim)
  {
    var r := RemoveSessions(c, removed);
    RoomRemovesDetached(c, CountedIp(req), removed, lim);
    InvNames(c, lim);
    RemoveKeepsNamed(c, removed);
    RemoveKeepsBinding(c, removed);
    RoomKeepsOthers(c, req.conn, previous, removed);
    FewerDetached(c.mons, c.sess, r.mons, r.sess);
  }

  lemma RoomRemovesDetached(c: Core, ip: Ip, removed: set<Sid>, lim: Limits)
    requires MakesRoom(c.sess, ip, removed, lim)
    ensures forall s :: s in removed ==> s in c.sess && c.sess[s].since.Some?
  {
  }

  lemma RoomKeepsOthers(c: Core, x: Conn, previous: Option<Sid>, removed: set<Sid>)
    requires OwnersStored(c) && BindingSound(c.sess) && BoundElsewhere(c.sess, x, None, previous)
    requires forall s :: s in removed ==> s in c.sess && c.sess[s].since.Some?
    ensures var r := RemoveSessions(c, removed); BoundElsewhere(r.sess, x, None, previous) && r.nextSid !in r.sess
  {
  }

  /** Removing sessions frees no token that was not taken, and takes none. */
  lemma RemoveTakesNoToken(c: Core, removed: set<Sid>, t: Token)
    requires !HasToken(c.sess, t)
    ensures !HasToken(RemoveSessions(c, removed).sess, t)
  {
  }

  /** What starting a session finds: `previous` on the connection. */
  ghost predicate Startable(c: Core, x: Conn, previous: Option<Sid>) {
    && Named(c) && BindingSound(c.sess) && BoundElsewhere(c.sess, x, None, previous) && c.nextSid !in c.sess
  }

  lemma StartDetaches(c: Core, x: Conn, previous: Option<Sid>)
    requires Startable(c, x, previous)
    ensures previous.Some? ==> Detachable(c, previous.value, Relist(c.sess))
  {
    if previous.Some? {
      BoundIndexHolds(c.sess);
      RemoveUnbinds(c.sess, previous.value);
    }
  }

  lemma StartFollows(c: Core, req: SessionRequest, previous: Option<Sid>, now: Time, evicted: set<Sid>)
    requires Startable(c, req.conn, previous)
    requires !HasToken(RemoveSessions(DetachPrevious(c, previous, now), evicted).sess, req.drawn)
    ensures var c3 := RemoveSessions(DetachPrevious(c, previous, now), evicted); var r := NewSession(c3, req);
      var n := c3.nextSid; var ls := Relist(c3.sess); var ix := Recount(c3.mons, c3.sess);
      && Relist(r.sess) == ls.(tokens := ls.tokens[req.drawn := n], byIp := IpsWith(ls.byIp, CountedIp(req), n), bound := ls.bound[req.conn := n])
      && Recount(r.mons, r.sess) == ix.(accounts := ix.accounts[n := {}], count := ix.count[n := 0])
  {
    var c2 := DetachPrevious(c, previous, now);
    var c3 := RemoveSessions(c2, evicted);
    DetachFreesConn(c, req.conn, None, previous, now);
    DetachKeepsBinding(c, previous, now);
    RemoveKeepsBinding(c2, evicted);
    FreedFacts(c, req.conn, previous, now, evicted);
    var r := NewSession(c3, req);
    AddRelists(c3.sess, c3.nextSid, r.sess[c3.nextSid]);
    AddRecounts(c3.mons, c3.sess, c3.nextSid, r.sess[c3.nextSid]);
  }

  lemma FreedFacts(c: Core, x: Conn, previous: Option<Sid>, now: Time, evicted: set<Sid>)
    requires Startable(c, x, previous)
    requires forall s :: s in DetachPrevious(c, previous, now).sess ==> DetachPrevious(c, previous, now).sess[s].conn != Some(x)
    ensures var c3 := RemoveSessions(DetachPrevious(c, previous, now), evicted);
      && c3.nextSid == c.nextSid && c3.nextSid !in c3.sess && c3.nextSid !in OwningSessions(c3.mons)
      && TokensDistinct(c3.sess) && !IsBound(c3.sess, x)
  {
  }

  lemma StartTakesNoToken(c: Core, previous: Option<Sid>, now: Time, evicted: set<Sid>, t: Token)
    requires TokensDistinct(c.sess) && !HasToken(c.sess, t) && (previous.Some? ==> previous.value in c.sess && previous.value in c.logs)
    ensures var c3 := RemoveSessions(DetachPrevious(c, previous, now), evicted); !HasToken(c3.sess, t) && TokensDistinct(c3.sess)
  {
  }

  /** What resuming finds. */
  ghost predicate Resuming(c: Core, x: Conn, s: Sid, previous: Option<Sid>) {
    Named(c) && BindingSound(c.sess) && s in c.sess && BoundElsewhere(c.sess, x, Some(s), previous)
  }

  lemma ResumeCounts(c: Core, s: Sid, x: Conn)
    requires s in c.sess && s in c.logs
    ensures var c1 := Reported(BindOne(c, s, x), s); var ix := Recount(c.mons, c.sess);
      && s in ix.count && (Evictable(c.sess, s) ==> ix.count[s] <= ix.detachedMons)
      && Recount(c1.mons, c1.sess) == (if Evictable(c.sess, s) then ix.(detachedMons := ix.detachedMons - ix.count[s]) else ix)
  {
    var c1 := Reported(BindOne(c, s, x), s);
    ChangeRecounts(c.mons, c.sess, s, c1.sess[s]);
    assert c1.sess == c.sess[s := c1.sess[s]];
  }

  lemma ResumeLists(c: Core, x: Conn, s: Sid, previous: Option<Sid>)
    requires Resuming(c, x, s, previous)
    ensures var c1 := Reported(BindOne(c, s, x), s); var ls1 := BindListed(Relist(c.sess), s, c.sess[s], x);
      if previous.Some? then Detachable(c1, previous.value, ls1) else ls1 == Relist(c1.sess)
  {
    var c1 := Reported(BindOne(c, s, x), s);
    var ls1 := BindListed(Relist(c.sess), s, c.sess[s], x);
    BindBinds(c.sess, s, c1.sess[s], x, previous);
    BindRelists(c.sess, s, c1.sess[s], x);
    assert c1.sess == c.sess[s := c1.sess[s]];
    assert c1.sess - {} == c1.sess;
  }

  lemma ResumeKeepsCap(c: Core, s: Sid, x: Conn, lim: Limits)
    requires s in c.sess && s in c.logs && DetachedCap(c, lim)
    ensures DetachedCap(Reported(BindOne(c, s, x), s), lim)
  {
    var c1 := Reported(BindOne(c, s, x), s);
    FewerDetached(c.mons, c.sess, c1.mons, c1.sess);
  }

  lemma TokensSurvive(sess: map<Sid, Session>, sess': map<Sid, Session>, t: Token)
    requires TokensDistinct(sess) && !HasToken(sess, t)
    requires forall r :: r in sess' ==> r in sess && sess'[r].token == sess[r].token
    ensures TokensDistinct(sess') && !HasToken(sess', t)
  {
  }

  lemma ResumedStays(c: Core, x: Conn, s: Sid, previous: Option<Sid>, now: Time, evicted: set<Sid>, lim: Limits,
                     t: Token)
    requires Resuming(c, x, s, previous) && !HasToken(c.sess, t)
    requires EvictsOldest(DetachPrevious(Reported(BindOne(c, s, x), s), previous, now), evicted, lim)
    ensures var c3 := RemoveSessions(DetachPrevious(Reported(BindOne(c, s, x), s), previous, now), evicted);
      s in c3.sess && s in c3.logs && !HasToken(c3.sess, t) && TokensDistinct(c3.sess)
  {
    ResumedIsNeverEvicted(c, s, x, previous, now, evicted, lim);
    ResumeKeepsTokens(c, x, s, previous, now, evicted, t);
  }

  lemma ResumeKeepsTokens(c: Core, x: Conn, s: Sid, previous: Option<Sid>, now: Time, evicted: set<Sid>, t: Token)
    requires c.logs.Keys == c.sess.Keys && TokensDistinct(c.sess) && !HasToken(c.sess, t)
    requires s in c.sess && (previous.Some? ==> previous.value in c.sess)
    ensures var c3 := RemoveSessions(DetachPrevious(Reported(BindOne(c, s, x), s), previous, now), evicted);
      !HasToken(c3.sess, t) && TokensDistinct(c3.sess)
  {
    var c3 := RemoveSessions(DetachPrevious(Reported(BindOne(c, s, x), s), previous, now), evicted);
    TokensSurvive(c.sess, c3.sess, t);
  }

  lemma ResumeFollows(c: Core, req: SessionRequest, s: Sid, previous: Option<Sid>, now: Time, evicted: set<Sid>)
    requires Resuming(c, req.conn, s, previous)
    requires var c3 := RemoveSessions(DetachPrevious(Reported(BindOne(c, s, req.conn), s), previous, now), evicted);
      s in c3.sess && s in c3.logs && !HasToken(c3.sess, req.drawn) && TokensDistinct(c3.sess)
    ensures var c3 := RemoveSessions(DetachPrevious(Reported(BindOne(c, s, req.conn), s), previous, now), evicted);
      var r := Rotated(c3, s, req); var ls := Relist(c3.sess);
      && Relist(r.sess) == ls.(tokens := (ls.tokens - {c3.sess[s].token})[req.drawn := s])
      && Recount(r.mons, r.sess) == Recount(c3.mons, c3.sess)
  {
    var c2 := DetachPrevious(Reported(BindOne(c, s, req.conn), s), previous, now);
    var c3 := RemoveSessions(c2, evicted);
    ResumeRebinds(c, s, req.conn, previous, now);
    RemoveKeepsBinding(c2, evicted);
    var n := Rotated(c3, s, req).sess[s];
    RotateRelists(c3.sess, s, n);
    SameRecounts(c3.mons, c3.sess, s, n);
  }

  ghost predicate LongestOf(sess: map<Sid, Session>, among: set<Sid>, o: Sid) {
    && o in sess && sess[o].since.Some?
    && forall s :: s in among && s in sess && sess[s].since.Some? ==> sess[o].since.value <= sess[s].since.value
  }

  /** The IP is within its limit, so removing one of its sessions makes room for another. */
  lemma RoomAfter(c: Core, ip: Ip, o: Sid, lim: Limits)
    requires IpCaps(c.sess, lim) && ip != "" && o in SessionsOf(c.sess, ip)
    ensures |SessionsOf(RemoveSessions(c, {o}).sess, ip)| < lim.perIp
  {
    assert SessionsOf(RemoveSessions(c, {o}).sess, ip) == SessionsOf(c.sess, ip) - {o};
  }

  lemma InvNames(c: Core, lim: Limits)
    requires Inv(c, lim)
    ensures Named(c)
  {
  }

  /** The index finds the one session on a connection, which can be detached, or there is none. */
  lemma OnConn(c: Core, x: Conn, lim: Limits)
    requires Inv(c, lim)
    ensures var b := BoundIndex(c.sess);
      if x in b then BoundElsewhere(c.sess, x, None, Some(b[x])) && Detachable(c, b[x], Relist(c.sess))
      else BoundElsewhere(c.sess, x, None, None)
  {
    InvNames(c, lim);
    BoundIndexHolds(c.sess);
    var b := BoundIndex(c.sess);
    if x in b { RemoveUnbinds(c.sess, b[x]); }
  }

  /** The session can be taken off its connection: it has one, if perhaps shared with the session
      replacing it there. */
  ghost predicate Detachable(c: Core, s: Sid, ls: Lookups) {
    && OwningSessions(c.mons) <= c.sess.Keys && c.logs.Keys == c.sess.Keys
    && s in c.sess && c.sess[s].since.None? && TokensDistinct(c.sess) && ConnsDistinct(c.sess - {s})
    && ls == Relist(c.sess).(bound := ls.bound)
    && Unbound(ls.bound, s, c.sess[s].conn) == BoundIndex(c.sess - {s})
  }

  lemma DetachFollows(c: Core, s: Sid, now: Time, ls: Lookups, lim: Limits)
    requires Detachable(c, s, ls) && DetachedCap(c, lim)
    ensures var r := DetachOne(c, s, now); var ix := Recount(c.mons, c.sess);
      && Named(r)
      && DetachListed(ls, s, c.sess[s], now) == Relist(r.sess)
      && s in ix.count
      && Recount(r.mons, r.sess) == (if c.sess[s].privileged then ix else ix.(detachedMons := ix.detachedMons + ix.count[s]))
      && (c.sess[s].privileged ==> EvictsOldest(r, {}, lim))
  {
    var r := DetachOne(c, s, now);
    DetachRelists(c.sess, s, now, ls.bound);
    ChangeRecounts(c.mons, c.sess, s, r.sess[s]);
    if c.sess[s].privileged { RemoveNone(r); }
  }

  predicate Earliest(listed: set<(Time, Sid)>, v: (Time, Sid)) {
    forall w :: w in listed ==> v.0 <= w.0
  }

  lemma {:induction false} EarliestExists(listed: set<(Time, Sid)>)
    requires listed != {}
    ensures exists v :: v in listed && Earliest(listed, v)
  {
    var x :| x in listed;
    if listed == {x} {
      assert Earliest(listed, x);
    } else {
      EarliestExists(listed - {x});
      var v :| v in listed - {x} && Earliest(listed - {x}, v);
      var e := if x.0 < v.0 then x else v;
      assert Earliest(listed, e);
    }
  }

  lemma RemoveNone(c: Core)
    ensures RemoveSessions(c, {}) == c
  {
    assert c.sess - {} == c.sess && c.logs - {} == c.logs && c.mons - MonsOf(c.mons, {}) == c.mons;
  }

  /** The sessions removed so far were the longest detached, and the last of them had to go. */
  ghost predicate EvictsInOrder(c: Core, v: set<Sid>, lim: Limits) {
    && (forall x :: x in v ==> Evictable(c.sess, x))
    && (forall x, y :: x in v && Evictable(c.sess, y) && y !in v ==> c.sess[x].since.value <= c.sess[y].since.value)
    && (v != {} ==> exists x :: x in v && LastEvicted(c, v, x, lim))
  }

  lemma RemoveOneMore(c: Core, v: set<Sid>, x: Sid)
    ensures RemoveSessions(RemoveSessions(c, v), {x}) == RemoveSessions(c, v + {x})
  {
    var a, b := RemoveSessions(RemoveSessions(c, v), {x}), RemoveSessions(c, v + {x});
    assert a.sess == b.sess && a.logs == b.logs;
    assert a.mons == b.mons;
  }

  lemma EvictOneMore(c: Core, v: set<Sid>, p: (Time, Sid), lim: Limits)
    requires EvictsInOrder(c, v, lim) && !DetachedCap(RemoveSessions(c, v), lim)
    requires var listed := DetachedList(RemoveSessions(c, v).sess, false); p in listed && Earliest(listed, p)
    ensures p.1 in RemoveSessions(c, v).sess && p.1 !in v
    ensures EvictsInOrder(c, v + {p.1}, lim)
    ensures RemoveSessions(RemoveSessions(c, v), {p.1}) == RemoveSessions(c, v + {p.1})
  {
    var r := RemoveSessions(c, v);
    DetachedHas(r.sess, false, p);
    RemoveOneMore(c, v, p.1);
    forall y | Evictable(c.sess, y) && y !in v ensures p.0 <= c.sess[y].since.value {
      DetachedHas(r.sess, false, (c.sess[y].since.value, y));
    }
    assert (v + {p.1}) - {p.1} == v;
    assert LastEvicted(c, v + {p.1}, p.1, lim);
  }

  lemma NoneLeftIsEnough(c: Core, v: set<Sid>, lim: Limits)
    requires EvictsInOrder(c, v, lim)
    requires DetachedCap(RemoveSessions(c, v), lim) || DetachedList(RemoveSessions(c, v).sess, false) == {}
    ensures EvictsOldest(c, v, lim)
  {
    var r := RemoveSessions(c, v);
    if DetachedList(r.sess, false) == {} {
      forall m | m in DetachedMons(r.mons, r.sess) ensures false {
        var s := r.mons[m].owner.sid;
        DetachedHas(r.sess, false, (r.sess[s].since.value, s));
      }
      assert DetachedMons(r.mons, r.sess) == {};
    }
  }

  /** What makes the lookups unambiguous. */
  ghost predicate Named(c: Core) {
    && OwningSessions(c.mons) <= c.sess.Keys && c.logs.Keys == c.sess.Keys
    && TokensDistinct(c.sess) && ConnsDistinct(c.sess)
  }

  lemma RemovedOwnsNothing(mons: map<nat, Monitor>, s: Sid)
    ensures OwnedBy(mons - MonsOf(mons, {s}), OfSession(s)) == {}
  {
  }

  /** Erasing a session's monitors and then taking it out of every index is recounting without it. */
  lemma RemoveFollows(c: Core, s: Sid)
    requires Named(c) && s in c.sess
    ensures var r := RemoveSessions(c, {s}); var ix := Recount(c.mons - MonsOf(c.mons, {s}), c.sess);
      && Recount(r.mons, r.sess) == ix.(accounts := ix.accounts - {s}, count := ix.count - {s})
      && DropListed(Relist(c.sess), s, c.sess[s]) == Relist(r.sess)
  {
    RemovedOwnsNothing(c.mons, s);
    RemoveRecounts(c.mons - MonsOf(c.mons, {s}), c.sess, s);
    RemoveRelists(c.sess, s);
  }

  lemma RemoveKeepsNamed(c: Core, v: set<Sid>)
    requires Named(c)
    ensures Named(RemoveSessions(c, v))
  {
  }
}

/** What the server's steps come to for a client, on the fields of the tables before and after. */
module Outcomes {
  import opened MonitorTypes
  import opened SessionLog
  import opened MonitorCore
  import opened CoreInvariants
  import opened SessionHistory
  import opened SessionSteps

  // ---- Starting and resuming

  /** Some session has the token that the request gives, and is within its lifetime. */
  predicate GivesLiveToken(c: Core, req: SessionRequest, now: Time) {
    exists s :: s in c.sess && req.token == Some(c.sess[s].token) && WithinLifetime(c.sess[s], now)
  }

  /** The request counts for an IP that has as many sessions as it may. */
  predicate IpIsFull(c: Core, req: SessionRequest, lim: Limits) {
    !req.privilegedKey && req.ip != "" && |set s | s in c.sess && c.sess[s].ip == req.ip| >= lim.perIp
  }

  predicate HasDetachedOf(c: Core, ip: Ip) {
    exists s :: s in c.sess && c.sess[s].ip == ip && c.sess[s].since.Some?
  }

  /** The session of the IP detached the earliest. */
  ghost predicate EarliestOf(c: Core, ip: Ip, o: Sid) {
    && o in c.sess && c.sess[o].ip == ip && c.sess[o].since.Some?
    && forall s :: s in c.sess && c.sess[s].ip == ip && c.sess[s].since.Some? ==> c.sess[o].since.value <= c.sess[s].since.value
  }

  lemma SameIpSet(c: Core, ip: Ip)
    ensures SessionsOf(c.sess, ip) == set s | s in c.sess && c.sess[s].ip == ip
  {
  }

  lemma ResumableExactly(c: Core, req: SessionRequest, now: Time)
    requires BindingSound(c.sess)
    ensures Resumable(c, req.token, now) <==> GivesLiveToken(c, req, now)
  {
    if Resumable(c, req.token, now) {
      var s :| s in c.sess && c.sess[s].token == req.token.value && Live(c.sess[s], now);
      LiveIsWithin(c, s, now);
    }
    if s :| s in c.sess && req.token == Some(c.sess[s].token) && WithinLifetime(c.sess[s], now) { LiveIsWithin(c, s, now); }
  }

  /** What a request to start or resume a session comes to: nothing on a closed connection; a resume exactly if it gives
      a token that is good; and otherwise a refusal on a connection that has started one, or for an IP that is full with
      none detached, and a new session if neither. */
  lemma OpenExactly(c: Core, req: SessionRequest, out: Outcome, now: Time, lim: Limits, c': Core)
    requires Inv(c, lim) && Next(c, OpenSession(req, out, now), lim, c')
    ensures if req.conn in c.closed then out == Ignored
            else if GivesLiveToken(c, req, now) then out.Resumed?
            else if req.conn in c.started then out == AlreadyStarted
            else if IpIsFull(c, req, lim) && !HasDetachedOf(c, req.ip) then out == TooManySessions
            else out.Started?
    ensures !out.Started? && !out.Resumed? ==> c' == c
  {
    ResumableExactly(c, req, now);
    SameIpSet(c, req.ip);
    if out.Resumed? { LiveIsWithin(c, out.sid, now); }
  }

  /** A new session takes the place of another from its IP exactly if that is full: of the one detached the earliest. */
  lemma RoomIsMadeFor(c: Core, req: SessionRequest, out: Outcome, now: Time, lim: Limits, c': Core)
    requires OwnersStored(c) && Next(c, OpenSession(req, out, now), lim, c') && out.Started?
    ensures out.sid in c'.sess && out.sid !in c.sess && c'.sess[out.sid].conn == Some(req.conn)
    ensures if IpIsFull(c, req, lim) then exists o :: out.madeRoom == {o} && EarliestOf(c, req.ip, o) else out.madeRoom == {}
  {
    StartMakesRoom(c, req, out, now, lim, c');
  }

  lemma StartMakesRoom(c: Core, req: SessionRequest, out: Outcome, now: Time, lim: Limits, c': Core)
    requires OwnersStored(c) && out.Started? && StartStep(c, req, out, now, lim, c')
    ensures out.sid in c'.sess && out.sid !in c.sess && c'.sess[out.sid].conn == Some(req.conn)
    ensures if IpIsFull(c, req, lim) then exists o :: out.madeRoom == {o} && EarliestOf(c, req.ip, o) else out.madeRoom == {}
  {
    SameIpSet(c, req.ip);
    if IpIsFull(c, req, lim) {
      var o :| out.madeRoom == {o} && OldestOf(c.sess, req.ip, o);
      assert EarliestOf(c, req.ip, o);
    }
  }

  /** The reply to the request: opened exactly if a session was started or resumed, with the token that the session now
      has, and whether it was there before; a resume's, with the accounts it had to report and the number of its replay. */
  lemma ReplyTells(c: Core, req: SessionRequest, out: Outcome, now: Time, lim: Limits, c': Core)
    requires OwnersStored(c) && Next(c, OpenSession(req, out, now), lim, c')
    ensures var r := ReplyFor(req, out);
      && (r.Opened? <==> out.Started? || out.Resumed?)
      && (r.Opened? ==> && out.sid in c'.sess && out.sid in c'.logs && r.token == c'.sess[out.sid].token
                        && (r.resumed <==> out.sid in c.sess)
                        && if r.resumed then r.ended == c.sess[out.sid].ended && r.replay == c'.logs[out.sid].replayId else r.ended == {})
  {
  }

  // ---- Which sessions go

  /** The connection that a step starts, resumes or ends something on. */
  function ConnOf(e: Event): Option<Conn> {
    match e
    case OpenSession(req, _, _) => Some(req.conn)
    case Close(x, _, _, _) => Some(x)
    case _ => None
  }

  function EvictedBy(e: Event): set<Sid> {
    match e
    case OpenSession(_, Started(_, _, _, evicted), _) => evicted
    case OpenSession(_, Resumed(_, _, evicted, _, _), _) => evicted
    case Close(_, _, evicted, _) => evicted
    case _ => {}
  }

  function TimeOf(e: Event): Time {
    match e
    case OpenSession(_, _, now) => now
    case Close(_, _, _, now) => now
    case EndSessions(_, now) => now
    case _ => 0
  }

  /** When the session lost its connection: before the step, or in it. */
  function DetachedAt(c: Core, e: Event, s: Sid): Time
    requires s in c.sess
  {
    if c.sess[s].since.Some? then c.sess[s].since.value else TimeOf(e)
  }

  /** The session is without a connection, or on the one that the step takes from it. */
  predicate LosesConn(c: Core, e: Event, s: Sid)
    requires s in c.sess
  {
    c.sess[s].since.Some? || (c.sess[s].conn.Some? && c.sess[s].conn == ConnOf(e))
  }

  lemma StartRemoves(c: Core, e: Event, lim: Limits, c': Core, s: Sid)
    requires e.OpenSession? && e.out.Started? && OwnersStored(c) && BindingSound(c.sess) && IpCaps(c.sess, lim)
    requires StartStep(c, e.req, e.out, e.now, lim, c') && s in c.sess && s !in c'.sess
    ensures !c.sess[s].privileged && LosesConn(c, e, s)
    ensures s in e.out.madeRoom || s in e.out.evicted
  {
  }

  lemma ResumeRemoves(c: Core, e: Event, lim: Limits, c': Core, s: Sid)
    requires e.OpenSession? && e.out.Resumed? && BindingSound(c.sess)
    requires ResumeStep(c, e.req, e.out, e.now, lim, c') && s in c.sess && s !in c'.sess
    ensures !c.sess[s].privileged && LosesConn(c, e, s) && s in e.out.evicted && s != e.out.sid
  {
  }

  lemma CloseRemoves(c: Core, e: Event, lim: Limits, c': Core, s: Sid)
    requires e.Close? && BindingSound(c.sess)
    requires CloseStep(c, e.conn, e.bound, e.evicted, e.now, lim, c') && s in c.sess && s !in c'.sess
    ensures !c.sess[s].privileged && LosesConn(c, e, s) && s in e.evicted
  {
  }

  /** A session goes only when its lifetime is over, or, if it is unprivileged and has no connection or is just losing it,
      to make room: never while it is on a connection, and never before its time if it is privileged. */
  lemma GoesOnly(c: Core, e: Event, lim: Limits, c': Core, s: Sid)
    requires OwnersStored(c) && BindingSound(c.sess) && IpCaps(c.sess, lim) && Next(c, e, lim, c') && s in c.sess && s !in c'.sess
    ensures if e.EndSessions? then !WithinLifetime(c.sess[s], e.now)
            else !c.sess[s].privileged && LosesConn(c, e, s)
  {
    match e
    case Subscribe(x, subs, o, now) => SubscribeFrame(c, o, subs, now, lim);
    case OpenSession(req, out, now) =>
      if out.Started? { StartRemoves(c, e, lim, c', s); }
      if out.Resumed? { ResumeRemoves(c, e, lim, c', s); }
    case Close(x, bound, v, now) => CloseRemoves(c, e, lim, c', s);
    case EndSessions(v, now) => LiveIsWithin(c, s, now);
    case _ =>
  }

  /** Those evicted lost their connections no later than any unprivileged session that is left without one. */
  lemma EvictedWentFirst(c: Core, e: Event, lim: Limits, c': Core, x: Sid, y: Sid)
    requires OwnersStored(c) && BindingSound(c.sess) && Next(c, e, lim, c') && x in EvictedBy(e) && x in c.sess
    requires y in c'.sess && !c'.sess[y].privileged && c'.sess[y].since.Some?
    ensures DetachedAt(c, e, x) <= c'.sess[y].since.value
  {
    match e
    case OpenSession(req, out, now) =>
      if out.Started? { StartEvictsFirst(c, e, lim, c', x, y); }
      if out.Resumed? { ResumeEvictsFirst(c, e, lim, c', x, y); }
    case Close(_, _, _, _) => CloseEvictsFirst(c, e, lim, c', x, y);
  }

  lemma StartEvictsFirst(c: Core, e: Event, lim: Limits, c': Core, x: Sid, y: Sid)
    requires e.OpenSession? && e.out.Started? && OwnersStored(c) && BindingSound(c.sess) && StartStep(c, e.req, e.out, e.now, lim, c')
    requires x in e.out.evicted && x in c.sess && y in c'.sess && !c'.sess[y].privileged && c'.sess[y].since.Some?
    ensures DetachedAt(c, e, x) <= c'.sess[y].since.value
  {
    var c2 := DetachPrevious(RemoveSessions(c, e.out.madeRoom), e.out.previous, e.now);
    assert Evictable(c2.sess, y) && Evictable(c2.sess, x);
  }

  /** The tables of a resume before anything is evicted. */
  function ResumeMid(c: Core, e: Event): Core
    requires e.OpenSession? && e.out.Resumed? && e.out.sid in c.sess && e.out.sid in c.logs
    requires e.out.previous.Some? ==> e.out.previous.value in c.sess && e.out.previous.value in c.logs
  {
    DetachPrevious(Reported(BindOne(c, e.out.sid, e.req.conn), e.out.sid), e.out.previous, e.now)
  }

  lemma ResumeEvicts(c: Core, e: Event, lim: Limits, c': Core)
    requires e.OpenSession? && e.out.Resumed? && ResumeStep(c, e.req, e.out, e.now, lim, c')
    ensures e.out.sid in c.sess && e.out.sid in c.logs
    ensures e.out.previous.Some? ==> e.out.previous.value in c.sess && e.out.previous.value in c.logs
    ensures EvictsOldest(ResumeMid(c, e), e.out.evicted, lim)
    ensures forall s :: s in c'.sess <==> s in ResumeMid(c, e).sess && s !in e.out.evicted
    ensures forall s :: s in c'.sess ==> c'.sess[s].since == ResumeMid(c, e).sess[s].since && c'.sess[s].privileged == ResumeMid(c, e).sess[s].privileged
  {
  }

  lemma ResumeVictim(c: Core, e: Event, x: Sid)
    requires e.OpenSession? && e.out.Resumed? && e.out.sid in c.sess && e.out.sid in c.logs
    requires e.out.previous.Some? ==> e.out.previous.value in c.sess && e.out.previous.value in c.logs
    requires e.out.previous.Some? ==> c.sess[e.out.previous.value].since.None?
    requires x in c.sess && Evictable(ResumeMid(c, e).sess, x)
    ensures ResumeMid(c, e).sess[x].since.value == DetachedAt(c, e, x)
  {
  }

  lemma ResumeEvictsFirst(c: Core, e: Event, lim: Limits, c': Core, x: Sid, y: Sid)
    requires e.OpenSession? && e.out.Resumed? && BindingSound(c.sess) && ResumeStep(c, e.req, e.out, e.now, lim, c')
    requires x in e.out.evicted && x in c.sess && y in c'.sess && !c'.sess[y].privileged && c'.sess[y].since.Some?
    ensures DetachedAt(c, e, x) <= c'.sess[y].since.value
  {
    ResumeEvicts(c, e, lim, c');
    PreviousIsBound(c, e, lim, c');
    ResumeVictim(c, e, x);
    assert Evictable(ResumeMid(c, e).sess, y);
  }

  lemma PreviousIsBound(c: Core, e: Event, lim: Limits, c': Core)
    requires e.OpenSession? && e.out.Resumed? && BindingSound(c.sess) && ResumeStep(c, e.req, e.out, e.now, lim, c')
    ensures e.out.previous.Some? ==> e.out.previous.value in c.sess && c.sess[e.out.previous.value].since.None?
  {
  }

  lemma CloseEvictsFirst(c: Core, e: Event, lim: Limits, c': Core, x: Sid, y: Sid)
    requires e.Close? && BindingSound(c.sess) && CloseStep(c, e.conn, e.bound, e.evicted, e.now, lim, c')
    requires x in e.evicted && x in c.sess && y in c'.sess && !c'.sess[y].privileged && c'.sess[y].since.Some?
    ensures DetachedAt(c, e, x) <= c'.sess[y].since.value
  {
    var c2 := DetachPrevious(MarkClosed(c, e.conn, e.now), e.bound, e.now);
    assert Evictable(c2.sess, y) && Evictable(c2.sess, x);
  }

  /** The monitors of the unprivileged sessions without a connection in `c'`, and of `x`. */
  function DetachedMonsWith(mons: map<nat, Monitor>, c': Core, x: Sid): set<nat> {
    set m | m in mons && mons[m].owner.OfSession? && var s := mons[m].owner.sid;
      s == x || (s in c'.sess && !c'.sess[s].privileged && c'.sess[s].since.Some?)
  }

  lemma NoMoreThanNeeded(c: Core, c2: Core, v: set<Sid>, lim: Limits, c': Core)
    requires EvictsOldest(c2, v, lim) && v != {} && Fewer(c.mons, c2.mons)
    requires forall s :: Evictable(c2.sess, s) && s !in v ==> s in c'.sess && !c'.sess[s].privileged && c'.sess[s].since.Some?
    ensures exists x :: x in v && |DetachedMonsWith(c.mons, c', x)| > lim.detached
  {
    var x :| x in v && LastEvicted(c2, v, x, lim);
    var left := RemoveSessions(c2, v - {x});
    forall m | m in DetachedMons(left.mons, left.sess) ensures m in DetachedMonsWith(c.mons, c', x) {
      StaysDetached(c, c2, v, c', x, m);
    }
    SubsetCardinality(DetachedMons(left.mons, left.sess), DetachedMonsWith(c.mons, c', x));
  }

  lemma StaysDetached(c: Core, c2: Core, v: set<Sid>, c': Core, x: Sid, m: nat)
    requires Fewer(c.mons, c2.mons)
    requires forall s :: Evictable(c2.sess, s) && s !in v ==> s in c'.sess && !c'.sess[s].privileged && c'.sess[s].since.Some?
    requires var left := RemoveSessions(c2, v - {x}); m in DetachedMons(left.mons, left.sess)
    ensures m in DetachedMonsWith(c.mons, c', x)
  {
    var s := c2.mons[m].owner.sid;
    assert Evictable(c2.sess, s);
  }

  lemma StartEvictsNoMore(c: Core, e: Event, lim: Limits, c': Core)
    requires e.OpenSession? && e.out.Started? && OwnersStored(c) && StartStep(c, e.req, e.out, e.now, lim, c') && e.out.evicted != {}
    ensures exists x :: x in e.out.evicted && |DetachedMonsWith(c.mons, c', x)| > lim.detached
  {
    NoMoreThanNeeded(c, DetachPrevious(RemoveSessions(c, e.out.madeRoom), e.out.previous, e.now), e.out.evicted, lim, c');
  }

  lemma ResumeEvictsNoMore(c: Core, e: Event, lim: Limits, c': Core)
    requires e.OpenSession? && e.out.Resumed? && ResumeStep(c, e.req, e.out, e.now, lim, c') && e.out.evicted != {}
    ensures exists x :: x in e.out.evicted && |DetachedMonsWith(c.mons, c', x)| > lim.detached
  {
    NoMoreThanNeeded(c, DetachPrevious(Reported(BindOne(c, e.out.sid, e.req.conn), e.out.sid), e.out.previous, e.now), e.out.evicted, lim, c');
  }

  lemma CloseEvictsNoMore(c: Core, e: Event, lim: Limits, c': Core)
    requires e.Close? && CloseStep(c, e.conn, e.bound, e.evicted, e.now, lim, c') && e.evicted != {}
    ensures exists x :: x in e.evicted && |DetachedMonsWith(c.mons, c', x)| > lim.detached
  {
    NoMoreThanNeeded(c, DetachPrevious(MarkClosed(c, e.conn, e.now), e.bound, e.now), e.evicted, lim, c');
  }

  /** If any is evicted, the monitors of the sessions then left without a connection, with those of one that was evicted,
      would have been over the limit. */
  lemma EvictsNoMore(c: Core, e: Event, lim: Limits, c': Core)
    requires OwnersStored(c) && Next(c, e, lim, c') && EvictedBy(e) != {}
    ensures exists x :: x in EvictedBy(e) && |DetachedMonsWith(c.mons, c', x)| > lim.detached
  {
    match e
    case OpenSession(req, out, now) =>
      if out.Started? { StartEvictsNoMore(c, e, lim, c'); }
      if out.Resumed? { ResumeEvictsNoMore(c, e, lim, c'); }
    case Close(_, _, _, _) => CloseEvictsNoMore(c, e, lim, c');
  }

  // ---- Losing a connection

  lemma StartDetaches(c: Core, e: Event, lim: Limits, c': Core, s: Sid)
    requires e.OpenSession? && e.out.Started? && OwnersStored(c) && StartStep(c, e.req, e.out, e.now, lim, c')
    requires s in c.sess && s in c'.sess && c.sess[s].conn.Some? && c'.sess[s].conn.None?
    ensures c.sess[s].conn == Some(e.req.conn) && c'.sess[s].since == Some(e.now)
  {
  }

  lemma ResumeDetaches(c: Core, e: Event, lim: Limits, c': Core, s: Sid)
    requires e.OpenSession? && e.out.Resumed? && ResumeStep(c, e.req, e.out, e.now, lim, c')
    requires s in c.sess && s in c'.sess && c.sess[s].conn.Some? && c'.sess[s].conn.None?
    ensures c.sess[s].conn == Some(e.req.conn) && c'.sess[s].since == Some(e.now)
  {
  }

  /** A session is left without a connection only by that closing, or by another session's being put on it; it then
      counts as detached from that moment, with nothing left in its recent log. */
  lemma DetachesOnly(c: Core, e: Event, lim: Limits, c': Core, s: Sid)
    requires OwnersStored(c) && LogsSound(c') && Next(c, e, lim, c') && s in c.sess && s in c'.sess
    requires c.sess[s].conn.Some? && c'.sess[s].conn.None?
    ensures c.sess[s].conn == ConnOf(e) && c'.sess[s].since == Some(TimeOf(e)) && c'.logs[s].recent == []
  {
    assert LogSound(c'.logs[s], c'.sess[s], c'.nextReplay);
    match e
    case Subscribe(x, subs, o, now) => SubscribeFrame(c, o, subs, now, lim);
    case OpenSession(req, out, now) =>
      if out.Started? { StartDetaches(c, e, lim, c', s); }
      if out.Resumed? { ResumeDetaches(c, e, lim, c', s); }
    case Close(x, bound, v, now) => CloseDetaches(c, e, lim, c', s);
    case _ =>
  }

  lemma CloseDetaches(c: Core, e: Event, lim: Limits, c': Core, s: Sid)
    requires e.Close? && CloseStep(c, e.conn, e.bound, e.evicted, e.now, lim, c') && s in c.sess && s in c'.sess
    requires c.sess[s].conn.Some? && c'.sess[s].conn.None?
    ensures c.sess[s].conn == Some(e.conn) && c'.sess[s].since == Some(e.now)
  {
  }

  // ---- Subscribing

  /** What is subscribed on a connection is the session's that is on it, if there is one, and otherwise the connection's. */
  lemma OwnerExactly(c: Core, x: Conn, subs: seq<Subscription>, o: Owner, now: Time, lim: Limits, c': Core, s: Sid)
    requires BindingSound(c.sess) && Next(c, Subscribe(x, subs, o, now), lim, c') && x !in c.closed
    ensures s in c.sess && c.sess[s].conn == Some(x) ==> o == OfSession(s)
    ensures o.OfConn? ==> o.conn == x
    ensures o.OfSession? ==> o.sid in c.sess && c.sess[o.sid].conn == Some(x)
  {
  }

  /** The monitor is what the subscription asks for, good for 65 minutes from now. */
  predicate IsFor(mon: Monitor, o: Owner, sub: Subscription, now: Time) {
    mon == Monitor(sub.account, now + 65 * 60 * 1_000_000_000, sub.namespaces, o, sub.wantData)
  }

  /** What a monitor may come to by a request: it stays as it was, or is one that the request is for, renewed. */
  ghost predicate KeptOrRenewed(mons: map<nat, Monitor>, mons': map<nat, Monitor>, o: Owner, subs: seq<Subscription>, now: Time, m: nat)
    requires m in mons
  {
    && m in mons'
    && (|| mons'[m] == mons[m]
        || (mons'[m] == mons[m].(expiry := mons'[m].expiry) && exists i :: 0 <= i < |subs| && IsFor(mons'[m], o, subs[i], now)))
  }

  /** A request for monitors takes none away, changes none but by renewing those that it names, and adds none but those
      that it names. */
  lemma {:induction false} SubscribesOnly(c: Core, o: Owner, subs: seq<Subscription>, now: Time, lim: Limits, m: nat)
    requires forall n :: n in c.mons ==> n < c.nextMon
    ensures var r := SubscribeAll(c, o, subs, now, lim);
      && (forall n :: n in r.mons ==> n < r.nextMon)
      && (m in c.mons ==> KeptOrRenewed(c.mons, r.mons, o, subs, now, m))
      && (m in r.mons && m !in c.mons ==> exists i :: 0 <= i < |subs| && IsFor(r.mons[m], o, subs[i], now))
    decreases |subs|
  {
    if subs != [] {
      var k := |subs| - 1;
      SubscribesOnly(c, o, subs[..k], now, lim, m);
      OneSubscribesOnly(SubscribeAll(c, o, subs[..k], now, lim), o, subs[k], now, lim, m);
      var r := SubscribeAll(c, o, subs, now, lim);
      assert forall i :: 0 <= i < k ==> subs[..k][i] == subs[i];
      if m in r.mons && IsFor(r.mons[m], o, subs[k], now) { assert 0 <= k < |subs|; }
    }
  }

  lemma OneSubscribesOnly(c: Core, o: Owner, sub: Subscription, now: Time, lim: Limits, m: nat)
    requires forall n :: n in c.mons ==> n < c.nextMon
    ensures var r := SubscribeOne(c, o, sub, now, lim);
      && (forall n :: n in r.mons ==> n < r.nextMon)
      && (m in c.mons ==> m in r.mons && (r.mons[m] == c.mons[m] || (r.mons[m] == c.mons[m].(expiry := r.mons[m].expiry) && IsFor(r.mons[m], o, sub, now))))
      && (m in r.mons && m !in c.mons ==> IsFor(r.mons[m], o, sub, now))
  {
  }
}

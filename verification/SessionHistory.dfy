/** What a session is, by the requests that made it; how long it can be resumed; and how long a closed connection stays
    closed. */
module SessionHistory {
  import opened MonitorTypes
  import opened SessionLog
  import opened MonitorCore
  import opened CoreInvariants

  // ---- Which token resumes

  /** The session is on a connection, or has been without one for less than ten minutes. */
  predicate WithinLifetime(s: Session, now: Time) {
    s.conn.Some? || (s.since.Some? && now < s.since.value + 600 * 1_000_000_000)
  }

  /** A request on an open connection resumes a session exactly if it gives that session's token, and the session is on a
      connection or was, less than ten minutes ago. */
  lemma ResumedExactly(c: Core, req: SessionRequest, out: Outcome, now: Time, lim: Limits, c': Core, s: Sid)
    requires Inv(c, lim) && Next(c, OpenSession(req, out, now), lim, c') && req.conn !in c.closed && s in c.sess
    ensures out.Resumed? && out.sid == s <==> req.token == Some(c.sess[s].token) && WithinLifetime(c.sess[s], now)
  {
    LiveIsWithin(c, s, now);
    if req.token == Some(c.sess[s].token) && out.Resumed? { assert out.sid == s; }
  }

  lemma LiveIsWithin(c: Core, s: Sid, now: Time)
    requires BindingSound(c.sess) && s in c.sess
    ensures Live(c.sess[s], now) <==> WithinLifetime(c.sess[s], now)
  {
  }

  /** No step ends a session within its lifetime but one that evicts it, or makes room for another from its IP. */
  lemma EndsOnlyAfterLifetime(c: Core, ended: set<Sid>, now: Time, lim: Limits, c': Core, s: Sid)
    requires BindingSound(c.sess) && Next(c, EndSessions(ended, now), lim, c') && s in c.sess && WithinLifetime(c.sess[s], now)
    ensures s in c'.sess && c'.sess[s] == c.sess[s]
  {
    LiveIsWithin(c, s, now);
  }

  // ---- What a session is

  /** The event starts the session, or resumes it. */
  predicate Opens(e: Event, s: Sid) {
    e.OpenSession? && (e.out.Started? || e.out.Resumed?) && e.out.sid == s
  }

  predicate Begins(e: Event, s: Sid) {
    e.OpenSession? && e.out.Started? && e.out.sid == s
  }

  /** Step `i` is the last before `n` that opens the session. */
  ghost predicate LastOpens(es: seq<Event>, i: nat, n: nat, s: Sid)
    requires n <= |es|
  {
    i < n && Opens(es[i], s) && forall j :: i < j < n ==> !Opens(es[j], s)
  }

  /** The session as its latest opening made it: with the token drawn and the body limit given then, and on that
      connection or none. */
  predicate OpenedBy(o: Session, req: SessionRequest) {
    o.token == req.drawn && o.bodyMax == req.bodyMax && (o.conn == Some(req.conn) || o.conn == None)
  }

  /** The session as it was started: privileged exactly if the key was, and counted for its IP exactly if not. */
  predicate BegunBy(o: Session, req: SessionRequest) {
    o.privileged == req.privilegedKey && o.ip == if req.privilegedKey then "" else req.ip
  }

  /** The same, but for the connection, which it may have lost, and what it has to report. */
  predicate SameSession(o: Session, o': Session) {
    && o'.token == o.token && o'.bodyMax == o.bodyMax && o'.privileged == o.privileged && o'.ip == o.ip
    && (o'.conn == o.conn || o'.conn.None?)
  }

  lemma StartOpens(c: Core, req: SessionRequest, out: Outcome, now: Time, lim: Limits, c': Core, s: Sid)
    requires OwnersStored(c) && out.Started? && StartStep(c, req, out, now, lim, c') && s in c'.sess
    ensures if s == out.sid then s !in c.sess && OpenedBy(c'.sess[s], req) && BegunBy(c'.sess[s], req)
            else s in c.sess && SameSession(c.sess[s], c'.sess[s])
  {
  }

  lemma ResumeOpens(c: Core, req: SessionRequest, out: Outcome, now: Time, lim: Limits, c': Core, s: Sid)
    requires out.Resumed? && ResumeStep(c, req, out, now, lim, c') && s in c'.sess
    ensures s in c.sess
    ensures if s == out.sid then OpenedBy(c'.sess[s], req) && c'.sess[s].privileged == c.sess[s].privileged && c'.sess[s].ip == c.sess[s].ip
            else SameSession(c.sess[s], c'.sess[s])
  {
  }

  lemma CloseKeepsSession(c: Core, x: Conn, bound: Option<Sid>, v: set<Sid>, now: Time, lim: Limits, c': Core, s: Sid)
    requires CloseStep(c, x, bound, v, now, lim, c') && s in c'.sess
    ensures s in c.sess && SameSession(c.sess[s], c'.sess[s])
  {
  }

  lemma OtherKeepsSession(c: Core, e: Event, lim: Limits, c': Core, s: Sid)
    requires Next(c, e, lim, c') && !Opens(e, s) && s in c'.sess && OwnersStored(c)
    ensures s in c.sess && SameSession(c.sess[s], c'.sess[s])
  {
    match e
    case Subscribe(x, subs, o, now) => SubscribeFrame(c, o, subs, now, lim);
    case OpenSession(req, out, now) =>
      if out.Started? { StartOpens(c, req, out, now, lim, c', s); }
      if out.Resumed? { ResumeOpens(c, req, out, now, lim, c', s); }
    case Close(x, bound, v, now) => CloseKeepsSession(c, x, bound, v, now, lim, c', s);
    case _ =>
  }

  lemma StepFrom(cs: seq<Core>, es: seq<Event>, lim: Limits, n: nat, s: Sid)
    requires Run(cs, es, lim) && lim.perIp >= 1 && n < |es| && s in cs[n + 1].sess
    ensures if Begins(es[n], s) then OpenedBy(cs[n + 1].sess[s], es[n].req) && BegunBy(cs[n + 1].sess[s], es[n].req)
            else && s in cs[n].sess && cs[n + 1].sess[s].privileged == cs[n].sess[s].privileged && cs[n + 1].sess[s].ip == cs[n].sess[s].ip
                 && if Opens(es[n], s) then OpenedBy(cs[n + 1].sess[s], es[n].req) else SameSession(cs[n].sess[s], cs[n + 1].sess[s])
  {
    RunKeeps(cs, es, lim, n);
    assert Steps(cs, es, lim, n);
    if Begins(es[n], s) {
      StartOpens(cs[n], es[n].req, es[n].out, es[n].now, lim, cs[n + 1], s);
    } else if Opens(es[n], s) {
      ResumeOpens(cs[n], es[n].req, es[n].out, es[n].now, lim, cs[n + 1], s);
    } else {
      OtherKeepsSession(cs[n], es[n], lim, cs[n + 1], s);
    }
  }

  /** In every run, a session has the token and the body limit of the latest request that started or resumed it, is on
      that request's connection or none, and is privileged or counted for its IP as the request that started it was. */
  lemma {:induction false} SessionIs(cs: seq<Core>, es: seq<Event>, lim: Limits, n: nat, s: Sid) returns (i: nat, j: nat)
    requires Run(cs, es, lim) && lim.perIp >= 1 && n < |cs| && s in cs[n].sess
    ensures LastOpens(es, i, n, s) && OpenedBy(cs[n].sess[s], es[i].req)
    ensures j <= i && Begins(es[j], s) && BegunBy(cs[n].sess[s], es[j].req)
  {
    assert n > 0;
    StepFrom(cs, es, lim, n - 1, s);
    if Begins(es[n - 1], s) {
      i, j := n - 1, n - 1;
    } else {
      i, j := SessionIs(cs, es, lim, n - 1, s);
      if Opens(es[n - 1], s) { i := n - 1; }
    }
  }

  // ---- Closed connections

  /** No clean-up from `i` up to `n` comes later than a minute after `t`. */
  ghost predicate WithinMinute(es: seq<Event>, i: nat, n: nat, t: Time)
    requires n <= |es|
  {
    forall k :: i <= k < n && es[k].Housekeep? ==> es[k].now <= t + 60 * 1_000_000_000
  }

  lemma ClosedStep(c: Core, e: Event, lim: Limits, c': Core, x: Conn)
    requires Next(c, e, lim, c')
    ensures x in c.closed && (e.Housekeep? ==> e.now <= c.closed[x] + 60 * 1_000_000_000) ==> x in c'.closed && c'.closed[x] == c.closed[x]
    ensures x in c.closed && e.Housekeep? && c.closed[x] + 60 * 1_000_000_000 < e.now ==> x !in c'.closed
    ensures e.Close? && e.conn == x && x !in c.closed ==> x in c'.closed && c'.closed[x] == e.now
    ensures x !in c.closed && !(e.Close? && e.conn == x) ==> x !in c'.closed
  {
    if e.Subscribe? { SubscribeFrame(c, e.owner, e.subs, e.now, lim); }
  }

  lemma {:induction false} ClosedStays(cs: seq<Core>, es: seq<Event>, lim: Limits, i: nat, n: nat, x: Conn)
    requires Run(cs, es, lim) && i <= n < |cs| && x in cs[i].closed && WithinMinute(es, i, n, cs[i].closed[x])
    ensures x in cs[n].closed && cs[n].closed[x] == cs[i].closed[x]
  {
    if i < n {
      ClosedStays(cs, es, lim, i, n - 1, x);
      assert Steps(cs, es, lim, n - 1);
      ClosedStep(cs[n - 1], es[n - 1], lim, cs[n], x);
    }
  }

  lemma IgnoresClosed(c: Core, e: Event, lim: Limits, c': Core)
    requires Next(c, e, lim, c') && ((e.Subscribe? && e.conn in c.closed) || (e.OpenSession? && e.req.conn in c.closed))
    ensures c' == c && (e.OpenSession? ==> e.out == Ignored)
  {
  }

  /** In every run, once a connection that was not known as closed is closed, every request on it that comes in while no
      clean-up is more than a minute after that changes nothing. */
  lemma ClosedIsIgnored(cs: seq<Core>, es: seq<Event>, lim: Limits, i: nat, n: nat, x: Conn)
    requires Run(cs, es, lim) && i < n < |es| && es[i].Close? && es[i].conn == x && x !in cs[i].closed
    requires WithinMinute(es, i + 1, n, es[i].now)
    requires (es[n].Subscribe? && es[n].conn == x) || (es[n].OpenSession? && es[n].req.conn == x)
    ensures cs[n + 1] == cs[n] && (es[n].OpenSession? ==> es[n].out == Ignored)
  {
    assert Steps(cs, es, lim, i);
    ClosedStep(cs[i], es[i], lim, cs[i + 1], x);
    ClosedStays(cs, es, lim, i + 1, n, x);
    assert Steps(cs, es, lim, n);
    IgnoresClosed(cs[n], es[n], lim, cs[n + 1]);
  }

  // ---- One new session for each connection

  /** The event starts a session on the connection. */
  predicate StartsOn(e: Event, x: Conn) {
    e.OpenSession? && e.out.Started? && e.req.conn == x
  }

  predicate Closes(e: Event, x: Conn) {
    e.Close? && e.conn == x
  }

  /** A session was started on the connection, which has not closed since. */
  ghost predicate HasStarted(es: seq<Event>, n: nat, x: Conn)
    requires n <= |es|
  {
    exists i :: 0 <= i < n && StartsOn(es[i], x) && StaysOpen(es, i, n, x)
  }

  ghost predicate StaysOpen(es: seq<Event>, i: nat, n: nat, x: Conn)
    requires n <= |es|
  {
    forall j :: i < j < n ==> !Closes(es[j], x)
  }

  lemma StartedStep(c: Core, e: Event, lim: Limits, c': Core, x: Conn)
    requires Next(c, e, lim, c')
    ensures x in c'.started <==> StartsOn(e, x) || (x in c.started && !Closes(e, x))
  {
    match e
    case Subscribe(y, subs, o, now) => SubscribeFrame(c, o, subs, now, lim);
    case _ =>
  }

  lemma HasStartedStep(es: seq<Event>, n: nat, x: Conn)
    requires 0 < n <= |es|
    ensures HasStarted(es, n, x) <==> StartsOn(es[n - 1], x) || (HasStarted(es, n - 1, x) && !Closes(es[n - 1], x))
  {
    if StartsOn(es[n - 1], x) { assert StaysOpen(es, n - 1, n, x); }
    if HasStarted(es, n - 1, x) && !Closes(es[n - 1], x) {
      var i :| 0 <= i < n - 1 && StartsOn(es[i], x) && StaysOpen(es, i, n - 1, x);
      assert StaysOpen(es, i, n, x);
    }
    if HasStarted(es, n, x) {
      var i :| 0 <= i < n && StartsOn(es[i], x) && StaysOpen(es, i, n, x);
      if i < n - 1 { assert StaysOpen(es, i, n - 1, x); }
    }
  }

  /** In every run, the connections marked as having started a session are those that have, and have not closed since. */
  lemma {:induction false} StartedExactly(cs: seq<Core>, es: seq<Event>, lim: Limits, n: nat, x: Conn)
    requires Run(cs, es, lim) && n < |cs|
    ensures x in cs[n].started <==> HasStarted(es, n, x)
  {
    if n > 0 {
      StartedExactly(cs, es, lim, n - 1, x);
      assert Steps(cs, es, lim, n - 1);
      StartedStep(cs[n - 1], es[n - 1], lim, cs[n], x);
      HasStartedStep(es, n, x);
    }
  }

  /** In every run, no second session is started on a connection that has not closed in between. */
  lemma StartsOnce(cs: seq<Core>, es: seq<Event>, lim: Limits, i: nat, n: nat, x: Conn)
    requires Run(cs, es, lim) && i < n < |es| && StartsOn(es[i], x) && StaysOpen(es, i, n, x)
    ensures !StartsOn(es[n], x)
  {
    StartedExactly(cs, es, lim, n, x);
    assert Steps(cs, es, lim, n);
  }
}

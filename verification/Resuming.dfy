/** What a resume promises: whatever was sent through a connection that the session is no longer on may have been lost with
    it, and is replayed. */
module Resuming {
  import opened MonitorTypes
  import opened SessionLog
  import opened MonitorCore
  import opened CoreInvariants
  import opened MessageTable
  import opened NoLoss
  import opened ReplaySends

  /** A resumed session is on the request's connection, by the resume's replay. */
  lemma ResumeFlies(c: Core, req: SessionRequest, out: Outcome, now: Time, lim: Limits, c': Core)
    requires OpenStep(c, req, out, now, lim, c') && out.Resumed?
    ensures out.sid in c.sess && out.sid in c.logs && Current(c', out.sid, req.conn, out.replay)
  {
  }

  lemma ResumedLog(c: Core, req: SessionRequest, out: Outcome, now: Time, lim: Limits, c': Core)
    requires out.Resumed? && ResumeStep(c, req, out, now, lim, c')
    ensures out.sid in c.sess && out.sid in c.logs && out.sid in c'.logs
    ensures SameTraces(BindOne(c, out.sid, req.conn).logs[out.sid], c'.logs[out.sid])
  {
  }

  lemma BoundLog(c: Core, s: Sid, x: Conn)
    requires LogsSound(c) && BindingSound(c.sess) && s in c.sess
    ensures BindOne(c, s, x).logs[s] == if c.sess[s].conn == Some(x) then c.logs[s] else Folded(c.logs[s])
  {
    assert LogSound(c.logs[s], c.sess[s], c.nextReplay);
  }

  lemma ResumeMovesLog(c: Core, req: SessionRequest, out: Outcome, now: Time, lim: Limits, c': Core)
    requires LogsSound(c) && BindingSound(c.sess) && OpenStep(c, req, out, now, lim, c') && out.Resumed?
    ensures out.sid in c.sess && out.sid in c.logs && out.sid in c'.logs && WellFormed(c.logs[out.sid])
    ensures var l, l' := c.logs[out.sid], c'.logs[out.sid];
      if c.sess[out.sid].conn == Some(req.conn) then SameTraces(l, l') else SameTraces(Folded(l), l')
  {
    ResumedLog(c, req, out, now, lim, c');
    BoundLog(c, out.sid, req.conn);
    assert LogSound(c.logs[out.sid], c.sess[out.sid], c.nextReplay);
  }

  /** A session resumed on a connection that it was not on has nothing left in its recent log, and whatever that or a
      missed start covered, a missed start covers: so it is all to be replayed, though the connection that it was sent
      through may still look open.  One that was already there keeps its log as it was. */
  lemma ResumeFolds(c: Core, req: SessionRequest, out: Outcome, now: Time, lim: Limits, c': Core)
    requires Inv(c, lim) && Next(c, OpenSession(req, out, now), lim, c') && out.Resumed?
    ensures out.sid in c.sess && out.sid in c.logs && out.sid in c'.logs
    ensures var l, l' := c.logs[out.sid], c'.logs[out.sid];
      if c.sess[out.sid].conn == Some(req.conn) then l'.recent == l.recent && l'.missed == l.missed && l'.keys == l.keys
      else l'.recent == [] && forall m :: Covered(l, m) ==> InMissed(l', m)
  {
    ResumeMovesLog(c, req, out, now, lim, c');
    var l, l' := c.logs[out.sid], c'.logs[out.sid];
    if c.sess[out.sid].conn != Some(req.conn) { FoldedKeeps(l); }
  }

  /** In a run, a resume of session `s` at step `i`, on a connection that it was not on. */
  ghost predicate ResumesElsewhere(ys: seq<Sys>, as_: seq<SysEvent>, i: nat, s: Sid)
    requires |ys| == |as_| + 1 && i < |as_|
  {
    && as_[i].Act? && as_[i].e.OpenSession? && as_[i].e.out.Resumed? && as_[i].e.out.sid == s
    && s in ys[i].core.sess && ys[i].core.sess[s].conn != Some(as_[i].e.req.conn)
  }

  /** Right after such a resume, its replay is flying, with nothing in hand, and has everything covered before to send. */
  lemma ResumeIsReady(ys: seq<Sys>, as_: seq<SysEvent>, lim: Limits, i: nat, s: Sid, m: Msg)
    requires SysRun(ys, as_, lim) && lim.perIp >= 1 && i < |as_| && ResumesElsewhere(ys, as_, i, s)
    requires s in ys[i].core.logs && Covered(ys[i].core.logs[s], m)
    ensures var r := as_[i].e.out.replay;
      && Flying(ys[i + 1], r) && ys[i + 1].flights[r] == Flight(s, as_[i].e.req.conn, Idle)
      && LogFor(ys[i + 1], r).recent == [] && InMissed(LogFor(ys[i + 1], r), m) && WellFormed(LogFor(ys[i + 1], r))
  {
    var e := as_[i].e;
    SysRunKeeps(ys, as_, lim, i);
    ResumeStepAt(ys, as_, lim, i);
    ResumeFlies(ys[i].core, e.req, e.out, e.now, lim, ys[i + 1].core);
    ResumeFolds(ys[i].core, e.req, e.out, e.now, lim, ys[i + 1].core);
    SysRunKeeps(ys, as_, lim, i + 1);
    LogIsSound(ys[i + 1], lim, s);
  }

  lemma LogIsSound(y: Sys, lim: Limits, s: Sid)
    requires SysInv(y, lim) && s in y.core.logs
    ensures WellFormed(y.core.logs[s])
  {
    assert LogSound(y.core.logs[s], y.core.sess[s], y.core.nextReplay);
  }

  lemma ResumeStepAt(ys: seq<Sys>, as_: seq<SysEvent>, lim: Limits, i: nat)
    requires SysRun(ys, as_, lim) && i < |as_| && as_[i].Act? && as_[i].e.OpenSession? && as_[i].e.out.Resumed?
    ensures var e := as_[i].e; Next(ys[i].core, e, lim, ys[i + 1].core)
    ensures var e := as_[i].e; OpenStep(ys[i].core, e.req, e.out, e.now, lim, ys[i + 1].core)
    ensures var e := as_[i].e; ys[i + 1].flights == ys[i].flights[e.out.replay := Flight(e.out.sid, e.req.conn, Idle)]
  {
    assert SysSteps(ys, as_, lim, i);
  }

  /** The place of the message's pair in the log. */
  function KeyOf(l: Log, m: Msg): Key
    requires m.account in l.index
  {
    (l.index[m.account], m.ns)
  }

  /** The message is from its pair's start on. */
  predicate ToSend(l: Log, m: Msg) {
    m.account in l.index && KeyOf(l, m) in l.missed && l.missed[KeyOf(l, m)].id <= m.id
  }

  /** A resume replays what may have been lost: everything that the session's log covered before it, sent lately through
      another connection or missed, and that stays stored until the replay is past it, is sent by that replay, unless a
      resume's limit raises the start past it meanwhile. */
  lemma ResumeReplays(ys: seq<Sys>, as_: seq<SysEvent>, lim: Limits, i: nat, n: nat, s: Sid, m: Msg)
    requires SysRun(ys, as_, lim) && lim.perIp >= 1 && i < n < |ys| && ResumesElsewhere(ys, as_, i, s)
    requires s in ys[i].core.logs && Covered(ys[i].core.logs[s], m)
    requires Flying(ys[n], as_[i].e.out.replay) && ReplaySends.StaysStored(ys, Row(m.id, m.account, m.ns), i + 1, n)
    requires !ToSend(LogFor(ys[n], as_[i].e.out.replay), m)
    ensures m.account in LogFor(ys[n], as_[i].e.out.replay).index
    ensures SentOrPassed(ys, as_, as_[i].e.out.replay, KeyOf(LogFor(ys[n], as_[i].e.out.replay), m), m.account, m.id, i + 1, n)
  {
    var r := as_[i].e.out.replay;
    ResumeIsReady(ys, as_, lim, i, s, m);
    KeyStays(ys, as_, lim, r, i + 1, n, m.account);
    var l := LogFor(ys[i + 1], r);
    assert l.keys[l.index[m.account]] == m.account;
    ReplaySendsEach(ys, as_, lim, r, KeyOf(l, m), m.id, i + 1, n);
  }

  /** An account keeps its place in the log that a replay is for. */
  lemma {:induction false} KeyStays(ys: seq<Sys>, as_: seq<SysEvent>, lim: Limits, r: nat, i: nat, n: nat, a: Account)
    requires SysRun(ys, as_, lim) && lim.perIp >= 1 && i <= n < |ys| && Flying(ys[i], r) && Flying(ys[n], r)
    requires a in LogFor(ys[i], r).index
    ensures a in LogFor(ys[n], r).index && LogFor(ys[n], r).index[a] == LogFor(ys[i], r).index[a]
  {
    if i < n {
      FlewBefore(ys, as_, lim, r, i, n);
      KeyStays(ys, as_, lim, r, i, n - 1, a);
      StepAt(ys, as_, lim, r, n - 1);
      KeyStaysAt(ys, as_, lim, r, n - 1, a);
    }
  }

  lemma KeyStaysAt(ys: seq<Sys>, as_: seq<SysEvent>, lim: Limits, r: nat, n: nat, a: Account)
    requires SysRun(ys, as_, lim) && lim.perIp >= 1 && n < |as_| && LogMoves(ys[n], as_[n], ys[n + 1], r)
    requires a in LogFor(ys[n], r).index
    ensures a in LogFor(ys[n + 1], r).index && LogFor(ys[n + 1], r).index[a] == LogFor(ys[n], r).index[a]
  {
    SysRunKeeps(ys, as_, lim, n);
    SysRunKeeps(ys, as_, lim, n + 1);
    LogIsSound(ys[n], lim, ys[n].flights[r].sid);
    LogIsSound(ys[n + 1], lim, ys[n].flights[r].sid);
    SameKey(LogFor(ys[n], r), LogFor(ys[n + 1], r), a);
  }

  lemma SameKey(l: Log, l': Log, a: Account)
    requires WellFormed(l) && WellFormed(l') && l.keys <= l'.keys && a in l.index
    ensures a in l'.index && l'.index[a] == l.index[a]
  {
    assert l'.keys[l.index[a]] == a;
  }
}

/** What runs promise of sessions beyond their invariants: a token resumes once, a session being resumed
    is never evicted, and every monitor that a swarm change ends is told of exactly once. */
module SessionRuns {
  import opened MonitorTypes
  import opened SessionLog
  import opened MonitorCore
  import opened CoreInvariants

  predicate Resumes(e: Event) {
    e.OpenSession? && e.out.Resumed?
  }

  // ---- Tokens

  lemma ResumeSpendsToken(c: Core, req: SessionRequest, out: Outcome, now: Time, lim: Limits, c': Core)
    requires TokensDistinct(c.sess) && out.Resumed? && ResumeStep(c, req, out, now, lim, c')
    ensures req.token.Some? && !HasToken(c'.sess, req.token.value)
    ensures out.sid in c'.sess && c'.sess[out.sid].token == req.drawn
  {
  }

  lemma OpenDrawsOnlyIts(c: Core, req: SessionRequest, out: Outcome, now: Time, lim: Limits, c': Core, t: Token)
    requires OpenStep(c, req, out, now, lim, c') && !HasToken(c.sess, t) && req.drawn != t
    ensures !HasToken(c'.sess, t)
  {
    match out
    case Started(_, _, _, _) =>
    case Resumed(_, _, _, _, _) =>
    case _ =>
  }

  lemma SpentStaysSpent(c: Core, e: Event, lim: Limits, c': Core, t: Token)
    requires Next(c, e, lim, c') && !HasToken(c.sess, t) && !(e.OpenSession? && e.req.drawn == t)
    ensures !HasToken(c'.sess, t)
  {
    match e
    case Subscribe(x, subs, o, now) => SubscribeFrame(c, o, subs, now, lim);
    case OpenSession(req, out, now) => OpenDrawsOnlyIts(c, req, out, now, lim, c', t);
    case _ =>
  }

  /** The token is not drawn again by the steps from `i` up to `n`. */
  ghost predicate NotDrawn(es: seq<Event>, i: nat, n: nat, t: Token)
    requires n <= |es|
  {
    forall k :: i <= k < n ==> !(es[k].OpenSession? && es[k].req.drawn == t)
  }

  lemma {:induction false} TokenStaysSpent(cs: seq<Core>, es: seq<Event>, lim: Limits, i: nat, n: nat, t: Token)
    requires Run(cs, es, lim) && i <= n <= |es| && NotDrawn(es, i, n, t) && !HasToken(cs[i].sess, t)
    ensures !HasToken(cs[n].sess, t)
  {
    if i < n {
      TokenStaysSpent(cs, es, lim, i, n - 1, t);
      assert Steps(cs, es, lim, n - 1);
      SpentStaysSpent(cs[n - 1], es[n - 1], lim, cs[n], t);
    }
  }

  lemma RunSpendsToken(cs: seq<Core>, es: seq<Event>, lim: Limits, i: nat)
    requires Run(cs, es, lim) && lim.perIp >= 1 && i < |es| && Resumes(es[i])
    ensures es[i].req.token.Some? && HasToken(cs[i].sess, es[i].req.token.value)
    ensures !HasToken(cs[i + 1].sess, es[i].req.token.value)
  {
    RunKeeps(cs, es, lim, i);
    assert Steps(cs, es, lim, i);
    ResumeSpendsToken(cs[i], es[i].req, es[i].out, es[i].now, lim, cs[i + 1]);
  }

  /** A token resumes at most once: of two resumes with the same token, the random source drew it again
      in between. */
  lemma TokenResumesOnce(cs: seq<Core>, es: seq<Event>, lim: Limits, i: nat, n: nat)
    requires Run(cs, es, lim) && lim.perIp >= 1 && i < n < |es| && Resumes(es[i]) && Resumes(es[n])
    requires es[i].req.token == es[n].req.token
    ensures es[i].req.token.Some? && !NotDrawn(es, i + 1, n, es[i].req.token.value)
  {
    RunSpendsToken(cs, es, lim, i);
    RunSpendsToken(cs, es, lim, n);
    if NotDrawn(es, i + 1, n, es[i].req.token.value) {
      TokenStaysSpent(cs, es, lim, i + 1, n, es[i].req.token.value);
    }
  }

  // ---- Eviction

  /** Nothing is evicted while the detached monitors are within their limit. */
  lemma WithinLimitEvictsNone(c: Core, v: set<Sid>, lim: Limits)
    requires DetachedCap(c, lim) && EvictsOldest(c, v, lim)
    ensures v == {}
  {
    if v != {} {
      var x :| x in v && LastEvicted(c, v, x, lim);
      var r := RemoveSessions(c, v - {x});
      FewerDetached(c.mons, c.sess, r.mons, r.sess);
    }
  }

  // ---- Monitors that a swarm change ends

  /** Every monitor of a lost account goes, and if its owner has no connection to be told on, the session
      records the account; every other monitor is untouched. */
  lemma ForeignAccountsForAll(c: Core, accounts: set<Account>, m: nat)
    requires OwnersStored(c) && m in c.mons
    ensures var c' := EndAccounts(c, accounts); var mon := c.mons[m];
      if mon.account in accounts
      then m !in c'.mons
           && (Destination(c.sess, mon.owner).None? ==>
                 mon.owner.sid in c'.sess && mon.account in c'.sess[mon.owner.sid].ended)
      else m in c'.mons && c'.mons[m] == mon
  {
    var mon := c.mons[m];
    if mon.account in accounts && Destination(c.sess, mon.owner).None? {
      assert mon.account in AccountsOf(c.mons, mon.owner);
    }
  }

  lemma StartEnded(c: Core, req: SessionRequest, out: Outcome, now: Time, lim: Limits, c': Core, s: Sid)
    requires OwnersStored(c) && out.Started? && StartStep(c, req, out, now, lim, c') && s in c.sess && s in c'.sess
    ensures c'.sess[s].ended == c.sess[s].ended
  {
  }

  lemma ResumeEnded(c: Core, req: SessionRequest, out: Outcome, now: Time, lim: Limits, c': Core, s: Sid)
    requires out.Resumed? && ResumeStep(c, req, out, now, lim, c') && s in c.sess && s in c'.sess
    ensures c'.sess[s].ended == if out.sid == s then {} else c.sess[s].ended
    ensures out.sid == s ==> out.ended == c.sess[s].ended
  {
  }

  lemma OpenEnded(c: Core, req: SessionRequest, out: Outcome, now: Time, lim: Limits, c': Core, s: Sid)
    requires OwnersStored(c) && OpenStep(c, req, out, now, lim, c') && s in c.sess && s in c'.sess
    ensures c'.sess[s].ended == if out.Resumed? && out.sid == s then {} else c.sess[s].ended
    ensures out.Resumed? && out.sid == s ==> out.ended == c.sess[s].ended
  {
    match out
    case Started(_, _, _, _) => StartEnded(c, req, out, now, lim, c', s);
    case Resumed(_, _, _, _, _) => ResumeEnded(c, req, out, now, lim, c', s);
    case _ =>
  }

  /** What a step does to what a session has to report: a resume of it reports and forgets it all, and
      only a swarm change, while it has no connection, adds to it. */
  ghost predicate EndedChange(c: Core, e: Event, c': Core, s: Sid)
    requires s in c.sess && s in c'.sess
  {
    if Resumes(e) && e.out.sid == s then e.out.ended == c.sess[s].ended && c'.sess[s].ended == {}
    else if e.Foreign? then c'.sess[s].ended == c.sess[s].ended + Unreported(c, s, e.accounts)
    else c'.sess[s].ended == c.sess[s].ended
  }

  lemma EndedStep(c: Core, e: Event, lim: Limits, c': Core, s: Sid)
    requires OwnersStored(c) && Next(c, e, lim, c') && s in c.sess && s in c'.sess
    ensures EndedChange(c, e, c', s)
  {
    match e
    case Subscribe(x, subs, o, now) => SubscribeFrame(c, o, subs, now, lim);
    case OpenSession(req, out, now) => OpenEnded(c, req, out, now, lim, c', s);
    case _ =>
  }

  lemma RunEnded(cs: seq<Core>, es: seq<Event>, lim: Limits, n: nat, s: Sid)
    requires Run(cs, es, lim) && lim.perIp >= 1 && n < |es| && s in cs[n].sess && s in cs[n + 1].sess
    ensures EndedChange(cs[n], es[n], cs[n + 1], s)
  {
    RunKeeps(cs, es, lim, n);
    assert Steps(cs, es, lim, n);
    EndedStep(cs[n], es[n], lim, cs[n + 1], s);
  }

  /** The session is stored throughout, and no step from `i` up to `n` resumes it. */
  ghost predicate StoredUnresumed(cs: seq<Core>, es: seq<Event>, i: nat, n: nat, s: Sid)
    requires |cs| == |es| + 1 && n <= |es|
  {
    && (forall k :: i <= k <= n ==> s in cs[k].sess)
    && forall k :: i <= k < n ==> !(Resumes(es[k]) && es[k].out.sid == s)
  }

  lemma {:induction false} EndedWaits(cs: seq<Core>, es: seq<Event>, lim: Limits, i: nat, n: nat, s: Sid, a: Account)
    requires Run(cs, es, lim) && lim.perIp >= 1 && i <= n <= |es| && StoredUnresumed(cs, es, i, n, s)
    requires a in cs[i].sess[s].ended
    ensures a in cs[n].sess[s].ended
  {
    if i < n {
      EndedWaits(cs, es, lim, i, n - 1, s, a);
      RunEnded(cs, es, lim, n - 1, s);
    }
  }

  /** An ended account waits for the session's next resume, which reports it. */
  lemma EndedIsTold(cs: seq<Core>, es: seq<Event>, lim: Limits, i: nat, n: nat, s: Sid, a: Account)
    requires Run(cs, es, lim) && lim.perIp >= 1 && i <= n < |es| && StoredUnresumed(cs, es, i, n, s)
    requires a in cs[i].sess[s].ended && Resumes(es[n]) && es[n].out.sid == s
    ensures a in es[n].out.ended
  {
    EndedWaits(cs, es, lim, i, n, s, a);
    assert Steps(cs, es, lim, n);
  }

  /** A step between `i` and `n` at which the session, having no connection, lost a monitor of `a`. */
  ghost predicate LostBetween(cs: seq<Core>, es: seq<Event>, i: nat, n: nat, s: Sid, a: Account)
    requires |cs| == |es| + 1 && n <= |es|
  {
    exists k :: i <= k < n && es[k].Foreign? && s in cs[k].sess && a in Unreported(cs[k], s, es[k].accounts)
  }

  /** ... and after that resume it is not reported again, unless the session loses the account again. */
  lemma {:induction false} EndedIsToldOnce(cs: seq<Core>, es: seq<Event>, lim: Limits, i: nat, n: nat, s: Sid,
                                           a: Account)
    requires Run(cs, es, lim) && lim.perIp >= 1 && i < n < |es|
    requires Resumes(es[i]) && es[i].out.sid == s && StoredUnresumed(cs, es, i + 1, n, s)
    requires s in cs[i].sess && a in cs[n].sess[s].ended
    ensures LostBetween(cs, es, i + 1, n, s, a)
  {
    RunEnded(cs, es, lim, n - 1, s);
    if i + 1 < n {
      if a in cs[n - 1].sess[s].ended {
        EndedIsToldOnce(cs, es, lim, i, n - 1, s, a);
        var k :| i + 1 <= k < n - 1 && es[k].Foreign? && s in cs[k].sess && a in Unreported(cs[k], s, es[k].accounts);
        assert i + 1 <= k < n;
      } else {
        assert a in Unreported(cs[n - 1], s, es[n - 1].accounts);
      }
    }
  }

  // ---- Replays

  /** The session is gone for good, or only replays from `r` on may act for it. */
  ghost predicate Superseded(c: Core, s: Sid, r: nat) {
    s < c.nextSid && (s in c.sess ==> s in c.logs && r <= c.logs[s].replayId)
  }

  lemma OpenSupersedes(c: Core, req: SessionRequest, out: Outcome, now: Time, lim: Limits, c': Core, s: Sid, r: nat)
    requires OpenStep(c, req, out, now, lim, c') && Superseded(c, s, r) && (s in c.logs ==> c.logs[s].replayId < c.nextReplay)
    ensures Superseded(c', s, r)
  {
    match out
    case Started(_, _, _, _) => StartSupersedes(c, req, out, now, lim, c', s, r);
    case Resumed(_, _, _, _, _) => ResumeKeeps(c, req, out, now, lim, c', s, r);
    case _ =>
  }

  lemma StartSupersedes(c: Core, req: SessionRequest, out: Outcome, now: Time, lim: Limits, c': Core, s: Sid, r: nat)
    requires out.Started? && StartStep(c, req, out, now, lim, c') && Superseded(c, s, r)
    ensures Superseded(c', s, r)
  {
  }

  lemma ResumeKeeps(c: Core, req: SessionRequest, out: Outcome, now: Time, lim: Limits, c': Core, s: Sid, r: nat)
    requires out.Resumed? && ResumeStep(c, req, out, now, lim, c') && Superseded(c, s, r) && (s in c.logs ==> c.logs[s].replayId < c.nextReplay)
    ensures Superseded(c', s, r)
  {
  }

  lemma StaysSuperseded(c: Core, e: Event, lim: Limits, c': Core, s: Sid, r: nat)
    requires Next(c, e, lim, c') && Superseded(c, s, r) && (s in c.logs ==> c.logs[s].replayId < c.nextReplay)
    ensures Superseded(c', s, r)
  {
    match e
    case Subscribe(x, subs, o, now) => SubscribeFrame(c, o, subs, now, lim);
    case OpenSession(req, out, now) => OpenSupersedes(c, req, out, now, lim, c', s, r);
    case _ =>
  }

  /** A replay that may act for a session was started before now. */
  lemma ReplaysAreStarted(cs: seq<Core>, es: seq<Event>, lim: Limits, n: nat, s: Sid)
    requires Run(cs, es, lim) && lim.perIp >= 1 && n < |cs|
    ensures OwnersStored(cs[n]) && (s in cs[n].logs ==> cs[n].logs[s].replayId < cs[n].nextReplay)
  {
    RunKeeps(cs, es, lim, n);
  }

  lemma ResumeSupersedes(c: Core, e: Event, lim: Limits, c': Core)
    requires OwnersStored(c) && Resumes(e) && Next(c, e, lim, c')
    ensures Superseded(c', e.out.sid, e.out.replay)
  {
  }

  lemma {:induction false} RunSupersedes(cs: seq<Core>, es: seq<Event>, lim: Limits, i: nat, n: nat)
    requires Run(cs, es, lim) && lim.perIp >= 1 && i < n <= |es| && Resumes(es[i])
    ensures Superseded(cs[n], es[i].out.sid, es[i].out.replay)
  {
    ReplaysAreStarted(cs, es, lim, n - 1, es[i].out.sid);
    assert Steps(cs, es, lim, n - 1);
    if i + 1 == n {
      ResumeSupersedes(cs[i], es[i], lim, cs[n]);
    } else {
      RunSupersedes(cs, es, lim, i, n - 1);
      StaysSuperseded(cs[n - 1], es[n - 1], lim, cs[n], es[i].out.sid, es[i].out.replay);
    }
  }

  /** Once a session has been resumed, a chunk of any earlier replay of it changes nothing, ever. */
  lemma OnlyTheLatestReplays(cs: seq<Core>, es: seq<Event>, lim: Limits, i: nat, n: nat)
    requires Run(cs, es, lim) && lim.perIp >= 1 && i < n < |es| && Resumes(es[i]) && es[n].ReplayChunk?
    requires es[n].sid == es[i].out.sid && es[n].replay < es[i].out.replay
    ensures cs[n + 1] == cs[n]
  {
    RunSupersedes(cs, es, lim, i, n);
    assert Steps(cs, es, lim, n);
  }
}

/** Every step of the protocol keeps its invariants, and so every run does. */
module CoreInvariants {
  import opened MonitorTypes
  import opened SessionLog
  import opened MonitorCore

  lemma {:induction false} SubsetCardinality<T>(a: set<T>, b: set<T>)
    requires a <= b
    ensures |a| <= |b|
  {
    if a != {} {
      var x :| x in a;
      SubsetCardinality(a - {x}, b - {x});
    }
  }

  // ---- Bound or detached, and one session a connection

  lemma RemoveKeepsBinding(c: Core, v: set<Sid>)
    requires BindingSound(c.sess)
    ensures BindingSound(RemoveSessions(c, v).sess)
  {
  }

  lemma DetachKeepsBinding(c: Core, p: Option<Sid>, now: Time)
    requires BindingSound(c.sess) && (p.Some? ==> p.value in c.sess && p.value in c.logs)
    ensures BindingSound(DetachPrevious(c, p, now).sess)
  {
  }

  /** Nothing is left bound to a connection whose session has been detached. */
  lemma DetachFreesConn(c: Core, x: Conn, not: Option<Sid>, p: Option<Sid>, now: Time)
    requires BindingSound(c.sess) && BoundElsewhere(c.sess, x, not, p)
    requires p.Some? ==> p.value in c.sess && p.value in c.logs
    ensures forall s :: s in DetachPrevious(c, p, now).sess && not != Some(s)
              ==> DetachPrevious(c, p, now).sess[s].conn != Some(x)
  {
  }

  lemma StartKeepsBinding(c: Core, req: SessionRequest, out: Outcome, now: Time, lim: Limits, c': Core)
    requires BindingSound(c.sess) && OwnersStored(c) && out.Started? && StartStep(c, req, out, now, lim, c')
    ensures BindingSound(c'.sess)
  {
    var c1 := RemoveSessions(c, out.madeRoom);
    RemoveKeepsBinding(c, out.madeRoom);
    var c2 := DetachPrevious(c1, out.previous, now);
    DetachKeepsBinding(c1, out.previous, now);
    DetachFreesConn(c1, req.conn, None, out.previous, now);
    RemoveKeepsBinding(c2, out.evicted);
  }

  /** Between its two halves a resume leaves two sessions on the connection; detaching the previous
      one restores the binding. */
  lemma ResumeRebinds(c: Core, s: Sid, x: Conn, p: Option<Sid>, now: Time)
    requires BindingSound(c.sess) && s in c.sess && s in c.logs
    requires BoundElsewhere(c.sess, x, Some(s), p)
    requires p.Some? ==> p.value in c.logs
    ensures BindingSound(DetachPrevious(Reported(BindOne(c, s, x), s), p, now).sess)
  {
  }

  lemma ResumeKeepsBinding(c: Core, req: SessionRequest, out: Outcome, now: Time, lim: Limits, c': Core)
    requires BindingSound(c.sess) && out.Resumed? && ResumeStep(c, req, out, now, lim, c')
    ensures BindingSound(c'.sess)
  {
    ResumeRebinds(c, out.sid, req.conn, out.previous, now);
    var c2 := DetachPrevious(Reported(BindOne(c, out.sid, req.conn), out.sid), out.previous, now);
    RemoveKeepsBinding(c2, out.evicted);
  }

  lemma NextKeepsBinding(c: Core, e: Event, lim: Limits, c': Core)
    requires BindingSound(c.sess) && OwnersStored(c) && Next(c, e, lim, c')
    ensures BindingSound(c'.sess)
  {
    match e
    case Subscribe(x, subs, o, now) => SubscribeFrame(c, o, subs, now, lim);
    case OpenSession(req, out, now) =>
      if out.Started? { StartKeepsBinding(c, req, out, now, lim, c'); }
      if out.Resumed? { ResumeKeepsBinding(c, req, out, now, lim, c'); }
    case Close(x, bound, v, now) =>
      DetachKeepsBinding(MarkClosed(c, x, now), bound, now);
    case _ =>
  }

  // ---- Tokens

  /** The tokens held after a step are among those held before, but for one freshly drawn. */
  lemma NextKeepsTokens(c: Core, e: Event, lim: Limits, c': Core)
    requires TokensDistinct(c.sess) && OwnersStored(c) && Next(c, e, lim, c')
    ensures TokensDistinct(c'.sess)
  {
    match e
    case Subscribe(x, subs, o, now) => SubscribeFrame(c, o, subs, now, lim);
    case OpenSession(req, out, now) =>
      if out.Started? { StartKeepsTokens(c, req, out, now, lim, c'); }
      if out.Resumed? { ResumeKeepsTokens(c, req, out, now, lim, c'); }
    case _ =>
  }

  lemma StartKeepsTokens(c: Core, req: SessionRequest, out: Outcome, now: Time, lim: Limits, c': Core)
    requires TokensDistinct(c.sess) && out.Started? && StartStep(c, req, out, now, lim, c')
    ensures TokensDistinct(c'.sess)
  {
  }

  lemma ResumeKeepsTokens(c: Core, req: SessionRequest, out: Outcome, now: Time, lim: Limits, c': Core)
    requires TokensDistinct(c.sess) && out.Resumed? && ResumeStep(c, req, out, now, lim, c')
    ensures TokensDistinct(c'.sess)
  {
  }

  // ---- Owners

  lemma RemoveKeepsOwners(c: Core, v: set<Sid>)
    requires OwnersStored(c)
    ensures OwnersStored(RemoveSessions(c, v))
  {
  }

  lemma DetachKeepsOwners(c: Core, p: Option<Sid>, now: Time)
    requires OwnersStored(c) && (p.Some? ==> p.value in c.sess && p.value in c.logs)
    ensures OwnersStored(DetachPrevious(c, p, now))
  {
  }

  lemma StartKeepsOwners(c: Core, req: SessionRequest, out: Outcome, now: Time, lim: Limits, c': Core)
    requires OwnersStored(c) && out.Started? && StartStep(c, req, out, now, lim, c')
    ensures OwnersStored(c')
  {
    RemoveKeepsOwners(c, out.madeRoom);
    var c1 := RemoveSessions(c, out.madeRoom);
    DetachKeepsOwners(c1, out.previous, now);
    RemoveKeepsOwners(DetachPrevious(c1, out.previous, now), out.evicted);
  }

  lemma ResumeKeepsOwners(c: Core, req: SessionRequest, out: Outcome, now: Time, lim: Limits, c': Core)
    requires OwnersStored(c) && out.Resumed? && ResumeStep(c, req, out, now, lim, c')
    ensures OwnersStored(c')
  {
    var c1 := Reported(BindOne(c, out.sid, req.conn), out.sid);
    DetachKeepsOwners(c1, out.previous, now);
    RemoveKeepsOwners(DetachPrevious(c1, out.previous, now), out.evicted);
  }

  lemma CloseKeepsOwners(c: Core, x: Conn, bound: Option<Sid>, v: set<Sid>, now: Time, lim: Limits, c': Core)
    requires OwnersStored(c) && CloseStep(c, x, bound, v, now, lim, c')
    ensures OwnersStored(c')
  {
    var c1 := MarkClosed(c, x, now);
    DetachKeepsOwners(c1, bound, now);
    RemoveKeepsOwners(DetachPrevious(c1, bound, now), v);
  }

  lemma NextKeepsOwners(c: Core, e: Event, lim: Limits, c': Core)
    requires OwnersStored(c) && Next(c, e, lim, c')
    ensures OwnersStored(c')
  {
    match e
    case Subscribe(x, subs, o, now) =>
      if x !in c.closed { SubscribeAllKeepsOwners(c, o, subs, now, lim); SubscribeFrame(c, o, subs, now, lim); }
    case OpenSession(req, out, now) =>
      if out.Started? { StartKeepsOwners(c, req, out, now, lim, c'); }
      if out.Resumed? { ResumeKeepsOwners(c, req, out, now, lim, c'); }
    case Close(x, bound, v, now) => CloseKeepsOwners(c, x, bound, v, now, lim, c');
    case _ =>
  }

  // ---- Subscribing

  /** A request's subscriptions leave everything but the monitors alone. */
  lemma {:induction false} SubscribeFrame(c: Core, o: Owner, subs: seq<Subscription>, now: Time, lim: Limits)
    ensures var r := SubscribeAll(c, o, subs, now, lim);
      r == c.(mons := r.mons, nextMon := r.nextMon)
    decreases |subs|
  {
    if subs != [] {
      SubscribeFrame(c, o, subs[..|subs| - 1], now, lim);
    }
  }

  /** The same monitors, if with other expiries. */
  ghost predicate RenewsOnly(mons: map<nat, Monitor>, mons': map<nat, Monitor>) {
    mons'.Keys == mons.Keys && forall m :: m in mons ==> SameSubscription(mons[m], mons'[m])
  }

  /** One subscription renews a monitor (or is refused), or adds one that its owner has room for and
      has not got. */
  lemma SubscribeOneCases(c: Core, o: Owner, sub: Subscription, now: Time, lim: Limits)
    ensures var r := SubscribeOne(c, o, sub, now, lim);
      || (RenewsOnly(c.mons, r.mons) && r == c.(mons := r.mons))
      || (&& !AlreadyHas(c.mons, o, sub) && !AtCap(c, o, lim)
          && r == c.(mons := c.mons[c.nextMon := Monitor(sub.account, now + MONITOR_EXPIRY_TIME, sub.namespaces, o, sub.wantData)],
                     nextMon := c.nextMon + 1))
  {
  }

  /** Nobody's monitors change hands, and the new ones are the owner's. */
  ghost predicate AddsOnlyFor(mons: map<nat, Monitor>, mons': map<nat, Monitor>, o: Owner) {
    && (forall m :: m in mons' && m !in mons ==> mons'[m].owner == o)
    && (forall m :: m in mons ==> m in mons' && mons'[m].owner == mons[m].owner)
  }

  lemma SubscribeOneKeepsOwners(c: Core, o: Owner, sub: Subscription, now: Time, lim: Limits)
    requires OwnersStored(c) && (o.OfSession? ==> o.sid in c.sess)
    ensures OwnersStored(SubscribeOne(c, o, sub, now, lim))
    ensures AddsOnlyFor(c.mons, SubscribeOne(c, o, sub, now, lim).mons, o)
  {
    SubscribeOneCases(c, o, sub, now, lim);
  }

  lemma {:induction false} SubscribeAllKeepsOwners(c: Core, o: Owner, subs: seq<Subscription>, now: Time, lim: Limits)
    requires OwnersStored(c) && (o.OfSession? ==> o.sid in c.sess)
    ensures OwnersStored(SubscribeAll(c, o, subs, now, lim))
    ensures AddsOnlyFor(c.mons, SubscribeAll(c, o, subs, now, lim).mons, o)
    decreases |subs|
  {
    if subs != [] {
      var k := |subs| - 1;
      SubscribeFrame(c, o, subs[..k], now, lim);
      SubscribeAllKeepsOwners(c, o, subs[..k], now, lim);
      SubscribeOneKeepsOwners(SubscribeAll(c, o, subs[..k], now, lim), o, subs[k], now, lim);
    }
  }

  lemma SubscribeOneKeepsUnique(c: Core, o: Owner, sub: Subscription, now: Time, lim: Limits)
    requires OwnersStored(c) && NoDuplicates(c)
    ensures NoDuplicates(SubscribeOne(c, o, sub, now, lim))
  {
    SubscribeOneCases(c, o, sub, now, lim);
    var r := SubscribeOne(c, o, sub, now, lim);
    if r.nextMon == c.nextMon {
      RenewKeepsUnique(c, r);
    } else {
      assert forall m :: m in c.mons ==> !Subscribed(c.mons[m], o, sub);
    }
  }

  lemma RenewKeepsUnique(c: Core, r: Core)
    requires NoDuplicates(c) && RenewsOnly(c.mons, r.mons)
    ensures NoDuplicates(r)
  {
  }

  lemma {:induction false} SubscribeAllKeepsUnique(c: Core, o: Owner, subs: seq<Subscription>, now: Time, lim: Limits)
    requires OwnersStored(c) && NoDuplicates(c) && (o.OfSession? ==> o.sid in c.sess)
    ensures NoDuplicates(SubscribeAll(c, o, subs, now, lim))
    decreases |subs|
  {
    if subs != [] {
      var k := |subs| - 1;
      SubscribeAllKeepsOwners(c, o, subs[..k], now, lim);
      SubscribeAllKeepsUnique(c, o, subs[..k], now, lim);
      SubscribeOneKeepsUnique(SubscribeAll(c, o, subs[..k], now, lim), o, subs[k], now, lim);
    }
  }

  lemma RenewKeepsOwned(mons: map<nat, Monitor>, mons': map<nat, Monitor>, o: Owner)
    requires RenewsOnly(mons, mons')
    ensures OwnedBy(mons', o) == OwnedBy(mons, o)
  {
  }

  lemma AddChangesOwned(mons: map<nat, Monitor>, k: nat, mon: Monitor, o: Owner)
    requires k !in mons
    ensures OwnedBy(mons[k := mon], o) == if mon.owner == o then OwnedBy(mons, o) + {k} else OwnedBy(mons, o)
  {
  }

  lemma SubscribeOneKeepsCaps(c: Core, o: Owner, sub: Subscription, now: Time, lim: Limits)
    requires OwnersStored(c) && MonitorCaps(c, lim)
    ensures MonitorCaps(SubscribeOne(c, o, sub, now, lim), lim)
  {
    SubscribeOneCases(c, o, sub, now, lim);
    var r := SubscribeOne(c, o, sub, now, lim);
    forall s | s in r.sess && !r.sess[s].privileged ensures |OwnedBy(r.mons, OfSession(s))| <= lim.monitors {
      if r.nextMon == c.nextMon {
        RenewKeepsOwned(c.mons, r.mons, OfSession(s));
      } else {
        AddChangesOwned(c.mons, c.nextMon, r.mons[c.nextMon], OfSession(s));
      }
    }
  }

  lemma {:induction false} SubscribeAllKeepsCaps(c: Core, o: Owner, subs: seq<Subscription>, now: Time, lim: Limits)
    requires OwnersStored(c) && MonitorCaps(c, lim) && (o.OfSession? ==> o.sid in c.sess)
    ensures MonitorCaps(SubscribeAll(c, o, subs, now, lim), lim)
    decreases |subs|
  {
    if subs != [] {
      var k := |subs| - 1;
      SubscribeAllKeepsOwners(c, o, subs[..k], now, lim);
      SubscribeAllKeepsCaps(c, o, subs[..k], now, lim);
      SubscribeOneKeepsCaps(SubscribeAll(c, o, subs[..k], now, lim), o, subs[k], now, lim);
    }
  }

  // ---- Fewer monitors, or fewer sessions, break nothing

  /** Fewer monitors, none of them changed. */
  ghost predicate Fewer(mons: map<nat, Monitor>, fewer: map<nat, Monitor>) {
    forall m :: m in fewer ==> m in mons && fewer[m] == mons[m]
  }

  lemma OpenRemovesOnly(c: Core, req: SessionRequest, out: Outcome, now: Time, lim: Limits, c': Core)
    requires OpenStep(c, req, out, now, lim, c')
    ensures Fewer(c.mons, c'.mons)
  {
  }

  lemma CloseRemovesOnly(c: Core, x: Conn, bound: Option<Sid>, v: set<Sid>, now: Time, lim: Limits, c': Core)
    requires CloseStep(c, x, bound, v, now, lim, c')
    ensures Fewer(c.mons, c'.mons)
  {
  }

  /** Every step but subscribing only removes monitors. */
  lemma NextRemovesOnly(c: Core, e: Event, lim: Limits, c': Core)
    requires Next(c, e, lim, c') && !e.Subscribe?
    ensures Fewer(c.mons, c'.mons)
  {
    match e
    case OpenSession(req, out, now) => OpenRemovesOnly(c, req, out, now, lim, c');
    case Close(x, bound, v, now) => CloseRemovesOnly(c, x, bound, v, now, lim, c');
    case _ =>
  }

  lemma NextKeepsUnique(c: Core, e: Event, lim: Limits, c': Core)
    requires OwnersStored(c) && NoDuplicates(c) && Next(c, e, lim, c')
    ensures NoDuplicates(c')
  {
    if e.Subscribe? {
      if e.conn !in c.closed { SubscribeAllKeepsUnique(c, e.owner, e.subs, e.now, lim); }
    } else {
      NextRemovesOnly(c, e, lim, c');
    }
  }

  /** The sessions kept from before are of the same kind and IP. */
  ghost predicate SameKinds(sess: map<Sid, Session>, sess': map<Sid, Session>) {
    forall s :: s in sess' && s in sess ==> sess'[s].privileged == sess[s].privileged && sess'[s].ip == sess[s].ip
  }

  lemma StartKeepsKinds(c: Core, req: SessionRequest, out: Outcome, now: Time, lim: Limits, c': Core)
    requires OwnersStored(c) && out.Started? && StartStep(c, req, out, now, lim, c')
    ensures SameKinds(c.sess, c'.sess) && c'.sess.Keys <= c.sess.Keys + {c.nextSid} && c.nextSid !in c.sess
  {
  }

  lemma ResumeKeepsKinds(c: Core, req: SessionRequest, out: Outcome, now: Time, lim: Limits, c': Core)
    requires out.Resumed? && ResumeStep(c, req, out, now, lim, c')
    ensures SameKinds(c.sess, c'.sess) && c'.sess.Keys <= c.sess.Keys
  {
  }

  /** A session keeps its kind and its IP for life, and only starting adds one. */
  lemma NextKeepsKinds(c: Core, e: Event, lim: Limits, c': Core)
    requires OwnersStored(c) && Next(c, e, lim, c')
    ensures SameKinds(c.sess, c'.sess)
    ensures c'.sess.Keys <= c.sess.Keys || (e.OpenSession? && e.out.Started? && c'.sess.Keys <= c.sess.Keys + {c.nextSid})
  {
    match e
    case Subscribe(x, subs, o, now) => SubscribeFrame(c, o, subs, now, lim);
    case OpenSession(req, out, now) =>
      if out.Started? { StartKeepsKinds(c, req, out, now, lim, c'); }
      if out.Resumed? { ResumeKeepsKinds(c, req, out, now, lim, c'); }
    case _ =>
  }

  lemma NextKeepsMonitorCaps(c: Core, e: Event, lim: Limits, c': Core)
    requires OwnersStored(c) && MonitorCaps(c, lim) && Next(c, e, lim, c')
    ensures MonitorCaps(c', lim)
  {
    if e.Subscribe? {
      if e.conn !in c.closed { SubscribeAllKeepsCaps(c, e.owner, e.subs, e.now, lim); }
    } else {
      NextKeepsKinds(c, e, lim, c');
      NextRemovesOnly(c, e, lim, c');
      FewerKeepsCaps(c, c', lim);
    }
  }

  lemma FewerKeepsCaps(c: Core, c': Core, lim: Limits)
    requires MonitorCaps(c, lim) && Fewer(c.mons, c'.mons)
    requires SameKinds(c.sess, c'.sess) && OwnersStored(c)
    ensures MonitorCaps(c', lim)
  {
    forall s | s in c'.sess && !c'.sess[s].privileged ensures |OwnedBy(c'.mons, OfSession(s))| <= lim.monitors {
      if s in c.sess {
        SubsetCardinality(OwnedBy(c'.mons, OfSession(s)), OwnedBy(c.mons, OfSession(s)));
      } else {
        assert OwnedBy(c'.mons, OfSession(s)) == {};
      }
    }
  }

  // ---- The cap on detached monitors

  lemma FewerDetached(mons: map<nat, Monitor>, sess: map<Sid, Session>, mons': map<nat, Monitor>, sess': map<Sid,
                      Session>)
    requires forall m :: m in mons' && mons'[m].owner.OfSession? && Evictable(sess', mons'[m].owner.sid) ==>
      m in mons && mons'[m].owner == mons[m].owner && Evictable(sess, mons'[m].owner.sid)
    ensures |DetachedMons(mons', sess')| <= |DetachedMons(mons, sess)|
  {
    SubsetCardinality(DetachedMons(mons', sess'), DetachedMons(mons, sess));
  }

  lemma NextKeepsDetachedCap(c: Core, e: Event, lim: Limits, c': Core)
    requires OwnersStored(c) && BindingSound(c.sess) && DetachedCap(c, lim) && Next(c, e, lim, c')
    ensures DetachedCap(c', lim)
  {
    match e
    case Subscribe(x, subs, o, now) =>
      if x !in c.closed {
        SubscribeFrame(c, o, subs, now, lim);
        SubscribeAllKeepsOwners(c, o, subs, now, lim);
        FewerDetached(c.mons, c.sess, c'.mons, c'.sess);
      }
    case OpenSession(req, out, now) =>
      if out.Started? { StartKeepsDetachedCap(c, req, out, now, lim, c'); }
      if out.Resumed? { ResumeKeepsDetachedCap(c, req, out, now, lim, c'); }
    case Close(x, bound, v, now) =>
      var c3 := RemoveSessions(DetachPrevious(MarkClosed(c, x, now), bound, now), v);
      FewerDetached(c3.mons, c3.sess, c'.mons, c'.sess);
    case _ => FewerDetached(c.mons, c.sess, c'.mons, c'.sess);
  }

  lemma StartKeepsDetachedCap(c: Core, req: SessionRequest, out: Outcome, now: Time, lim: Limits, c': Core)
    requires out.Started? && StartStep(c, req, out, now, lim, c')
    ensures DetachedCap(c', lim)
  {
    var c3 := RemoveSessions(DetachPrevious(RemoveSessions(c, out.madeRoom), out.previous, now), out.evicted);
    FewerDetached(c3.mons, c3.sess, c'.mons, c'.sess);
  }

  lemma ResumeKeepsDetachedCap(c: Core, req: SessionRequest, out: Outcome, now: Time, lim: Limits, c': Core)
    requires out.Resumed? && ResumeStep(c, req, out, now, lim, c')
    ensures DetachedCap(c', lim)
  {
    var c2 := DetachPrevious(Reported(BindOne(c, out.sid, req.conn), out.sid), out.previous, now);
    var c3 := RemoveSessions(c2, out.evicted);
    FewerDetached(c3.mons, c3.sess, c'.mons, c'.sess);
  }

  /** Binding first keeps the resumed session out of whatever detaching the previous one evicts. */
  lemma ResumedIsNeverEvicted(c: Core, s: Sid, x: Conn, p: Option<Sid>, now: Time, v: set<Sid>, lim: Limits)
    requires s in c.sess && s in c.logs && p != Some(s) && (p.Some? ==> p.value in c.sess && p.value in c.logs)
    requires EvictsOldest(DetachPrevious(Reported(BindOne(c, s, x), s), p, now), v, lim)
    ensures s !in v
  {
  }

  // ---- The cap on an IP's sessions

  lemma FewerOfIp(sess: map<Sid, Session>, sess': map<Sid, Session>, lim: Limits)
    requires IpCaps(sess, lim)
    requires SameKinds(sess, sess') && sess'.Keys <= sess.Keys
    ensures IpCaps(sess', lim)
  {
    forall ip {:trigger SessionsOf(sess', ip)} | ip != "" ensures |SessionsOf(sess', ip)| <= lim.perIp {
      SubsetCardinality(SessionsOf(sess', ip), SessionsOf(sess, ip));
    }
  }

  lemma MakeRoomFrees(sess: map<Sid, Session>, ip: Ip, v: set<Sid>, lim: Limits)
    requires IpCaps(sess, lim) && MakesRoom(sess, ip, v, lim) && lim.perIp >= 1
    ensures ip != "" ==> |SessionsOf(sess - v, ip)| < lim.perIp
  {
    if ip != "" {
      if |SessionsOf(sess, ip)| < lim.perIp {
        assert SessionsOf(sess - v, ip) == SessionsOf(sess, ip);
      } else {
        var o :| v == {o} && OldestOf(sess, ip, o);
        assert SessionsOf(sess - v, ip) == SessionsOf(sess, ip) - {o};
      }
    }
  }

  lemma AddedKeepsIpCaps(sess: map<Sid, Session>, n: Sid, s: Session, lim: Limits)
    requires IpCaps(sess, lim) && n !in sess && (s.privileged ==> s.ip == "")
    requires s.ip != "" ==> |SessionsOf(sess, s.ip)| < lim.perIp
    ensures IpCaps(sess[n := s], lim)
  {
    forall ip {:trigger SessionsOf(sess[n := s], ip)} | ip != "" ensures |SessionsOf(sess[n := s], ip)| <= lim.perIp {
      if ip == s.ip {
        assert SessionsOf(sess[n := s], ip) == SessionsOf(sess, ip) + {n};
      } else {
        assert SessionsOf(sess[n := s], ip) == SessionsOf(sess, ip);
      }
    }
  }

  /** What a new session is added to, once room is made and the connection's old session has gone. */
  lemma StartLeavesRoom(c: Core, req: SessionRequest, out: Outcome, now: Time, lim: Limits, c': Core)
    requires OwnersStored(c) && IpCaps(c.sess, lim) && out.Started? && StartStep(c, req, out, now, lim, c') && lim.perIp >= 1
    ensures var c1 := RemoveSessions(c, out.madeRoom);
      && (out.previous.Some? ==> out.previous.value in c1.sess && out.previous.value in c1.logs)
      && var sess := RemoveSessions(DetachPrevious(c1, out.previous, now), out.evicted).sess;
      && c.nextSid !in sess && SameKinds(c.sess, sess) && sess.Keys <= c1.sess.Keys <= c.sess.Keys
      && SessionsOf(sess, CountedIp(req)) <= SessionsOf(c1.sess, CountedIp(req))
  {
  }

  lemma StartKeepsIpCaps(c: Core, req: SessionRequest, out: Outcome, now: Time, lim: Limits, c': Core)
    requires OwnersStored(c) && IpCaps(c.sess, lim) && out.Started? && StartStep(c, req, out, now, lim, c') && lim.perIp >= 1
    ensures IpCaps(c'.sess, lim)
  {
    var ip := CountedIp(req);
    var c1 := RemoveSessions(c, out.madeRoom);
    StartLeavesRoom(c, req, out, now, lim, c');
    MakeRoomFrees(c.sess, ip, out.madeRoom, lim);
    var sess := RemoveSessions(DetachPrevious(c1, out.previous, now), out.evicted).sess;
    FewerOfIp(c.sess, sess, lim);
    SubsetCardinality(SessionsOf(sess, ip), SessionsOf(c1.sess, ip));
    AddedKeepsIpCaps(sess, c.nextSid, c'.sess[c.nextSid], lim);
  }

  lemma NextKeepsIpCaps(c: Core, e: Event, lim: Limits, c': Core)
    requires OwnersStored(c) && IpCaps(c.sess, lim) && Next(c, e, lim, c') && lim.perIp >= 1
    ensures IpCaps(c'.sess, lim)
  {
    if e.OpenSession? && e.out.Started? {
      StartKeepsIpCaps(c, e.req, e.out, e.now, lim, c');
    } else {
      NextKeepsKinds(c, e, lim, c');
      FewerOfIp(c.sess, c'.sess, lim);
    }
  }

  // ---- Closed connections stay bare

  lemma NextKeepsClosed(c: Core, e: Event, lim: Limits, c': Core)
    requires OwnersStored(c) && BindingSound(c.sess) && ClosedBare(c) && Next(c, e, lim, c')
    ensures ClosedBare(c')
  {
    match e
    case Subscribe(x, subs, o, now) =>
      if x !in c.closed {
        SubscribeFrame(c, o, subs, now, lim);
        SubscribeAllKeepsOwners(c, o, subs, now, lim);
      }
    case OpenSession(req, out, now) =>
      OpenKeepsClosed(c, req, out, now, lim, c');
    case Close(x, bound, v, now) => CloseLeavesBare(c, x, bound, v, now, lim, c');
    case _ =>
      NextRemovesOnly(c, e, lim, c');
      QuietBindsNothing(c, e, lim, c');
  }

  lemma OpenKeepsClosed(c: Core, req: SessionRequest, out: Outcome, now: Time, lim: Limits, c': Core)
    requires ClosedBare(c) && OpenStep(c, req, out, now, lim, c')
    ensures ClosedBare(c')
  {
    if out.Started? || out.Resumed? {
      OpenRemovesOnly(c, req, out, now, lim, c');
      OpenBindsOnlyIts(c, req, out, now, lim, c');
      BindingOneKeepsClosed(c, req.conn, c');
    }
  }

  /** At most `x` is newly bound or newly started on, and nothing is newly closed. */
  ghost predicate BindsOnly(c: Core, x: Conn, c': Core) {
    && c'.closed == c.closed && c'.started <= c.started + {x}
    && forall s :: s in c'.sess && c'.sess[s].conn.Some? && c'.sess[s].conn.value != x ==>
      s in c.sess && c.sess[s].conn == c'.sess[s].conn
  }

  lemma BindingOneKeepsClosed(c: Core, x: Conn, c': Core)
    requires ClosedBare(c) && x !in c.closed && BindsOnly(c, x, c') && Fewer(c.mons, c'.mons)
    ensures ClosedBare(c')
  {
  }

  lemma OpenBindsOnlyIts(c: Core, req: SessionRequest, out: Outcome, now: Time, lim: Limits, c': Core)
    requires out.Started? || out.Resumed?
    requires OpenStep(c, req, out, now, lim, c')
    ensures BindsOnly(c, req.conn, c')
  {
    if out.Started? { StartBindsOnlyIts(c, req, out, now, lim, c'); }
    if out.Resumed? { ResumeBindsOnlyIts(c, req, out, now, lim, c'); }
  }

  lemma StartBindsOnlyIts(c: Core, req: SessionRequest, out: Outcome, now: Time, lim: Limits, c': Core)
    requires out.Started? && StartStep(c, req, out, now, lim, c')
    ensures BindsOnly(c, req.conn, c')
  {
  }

  lemma ResumeBindsOnlyIts(c: Core, req: SessionRequest, out: Outcome, now: Time, lim: Limits, c': Core)
    requires out.Resumed? && ResumeStep(c, req, out, now, lim, c')
    ensures BindsOnly(c, req.conn, c')
  {
  }

  lemma QuietBindsNothing(c: Core, e: Event, lim: Limits, c': Core)
    requires Next(c, e, lim, c') && !e.Subscribe? && !e.OpenSession? && !e.Close?
    ensures c'.closed.Keys <= c.closed.Keys && c'.started == c.started
    ensures forall s :: s in c'.sess ==> s in c.sess && c.sess[s].conn == c'.sess[s].conn
  {
  }

  lemma CloseLeavesBare(c: Core, x: Conn, bound: Option<Sid>, v: set<Sid>, now: Time, lim: Limits, c': Core)
    requires BindingSound(c.sess) && ClosedBare(c) && CloseStep(c, x, bound, v, now, lim, c')
    ensures ClosedBare(c')
  {
    DetachFreesConn(MarkClosed(c, x, now), x, None, bound, now);
  }

  // ---- Logs

  lemma RemoveKeepsLogs(c: Core, v: set<Sid>)
    requires LogsSound(c)
    ensures LogsSound(RemoveSessions(c, v))
  {
    assert RemoveSessions(c, v).logs.Keys == RemoveSessions(c, v).sess.Keys;
  }

  lemma DetachKeepsLogs(c: Core, p: Option<Sid>, now: Time)
    requires LogsSound(c) && (p.Some? ==> p.value in c.sess && p.value in c.logs)
    ensures LogsSound(DetachPrevious(c, p, now))
  {
    if p.Some? {
      FoldedKeeps(c.logs[p.value]);
      assert DetachOne(c, p.value, now).logs.Keys == c.logs.Keys;
    }
  }

  lemma BindKeepsLogs(c: Core, s: Sid, x: Conn)
    requires LogsSound(c) && s in c.sess && s in c.logs
    ensures LogsSound(BindOne(c, s, x))
  {
    FoldedKeeps(c.logs[s]);
    assert BindOne(c, s, x).logs.Keys == c.logs.Keys;
  }

  lemma PrunedSound(l: Log, s: Session, nextReplay: nat, now: Time)
    requires LogSound(l, s, nextReplay)
    ensures LogSound(Pruned(l, now), s, nextReplay)
  {
  }

  lemma PruneKeepsLogs(c: Core, now: Time)
    requires LogsSound(c)
    ensures LogsSound(c.(logs := PruneAll(c, now)))
  {
    var r := PruneAll(c, now);
    forall s | s in c.sess ensures LogSound(r[s], c.sess[s], c.nextReplay) {
      PrunedSound(c.logs[s], c.sess[s], c.nextReplay, now);
    }
  }

  lemma NotifyKeepsLogs(c: Core, account: Account, ns: Namespace, id: int, now: Time)
    requires LogsSound(c) && BindingSound(c.sess)
    ensures LogsSound(c.(logs := NotifiedLogs(c, account, ns, id, now)))
  {
    assert NotifiedLogs(c, account, ns, id, now).Keys == c.sess.Keys;
    forall s | s in c.sess ensures LogSound(NotifiedLogs(c, account, ns, id, now)[s], c.sess[s], c.nextReplay) {
      NotifyKeepsLog(c, account, ns, id, now, s);
    }
  }

  lemma NotifyKeepsLog(c: Core, account: Account, ns: Namespace, id: int, now: Time, s: Sid)
    requires c.logs.Keys == c.sess.Keys && s in c.sess && LogSound(c.logs[s], c.sess[s], c.nextReplay)
    requires c.sess[s].conn.Some? <==> c.sess[s].since.None?
    ensures LogSound(NotifiedLogs(c, account, ns, id, now)[s], c.sess[s], c.nextReplay)
  {
    var ms := MatchedFor(c, s, account, ns, now);
    RememberedSound(c.logs[s], c.sess[s], c.nextReplay, now, Msg(account, ns, id, WantsData(c.mons, ms)));
  }

  lemma RememberedSound(l: Log, s: Session, nextReplay: nat, now: Time, m: Msg)
    requires LogSound(l, s, nextReplay) && (s.conn.Some? <==> s.since.None?)
    ensures LogSound(Remembered(l, s.conn.Some?, now, m), s, nextReplay)
  {
    RememberedKeeps(l, s.conn.Some?, now, m);
  }

  lemma NextKeepsLogs(c: Core, e: Event, lim: Limits, c': Core)
    requires LogsSound(c) && BindingSound(c.sess) && Next(c, e, lim, c')
    ensures LogsSound(c')
  {
    match e
    case Subscribe(x, subs, o, now) => SubscribeFrame(c, o, subs, now, lim);
    case OpenSession(req, out, now) =>
      if out.Started? { StartKeepsLogs(c, req, out, now, lim, c'); }
      if out.Resumed? { ResumeKeepsLogs(c, req, out, now, lim, c'); }
    case Close(x, bound, v, now) => CloseKeepsLogs(c, x, bound, v, now, lim, c');
    case Housekeep(now) => PruneKeepsLogs(c, now);
    case EndSessions(v, now) => RemoveKeepsLogs(c, v);
    case Foreign(accounts) => ForeignKeepsLogs(c, accounts);
    case Notify(account, ns, id, now) => NotifyKeepsLogs(c, account, ns, id, now);
    case CutReplay(s, starts) => CutKeepsLogs(c, s, starts);
    case ReplayChunk(s, x, replay, k, from, rows, now) => ChunkKeepsLogs(c, s, x, replay, k, from, rows, now);
    case _ =>
  }

  lemma CutKeepsLogs(c: Core, s: Sid, starts: map<(Account, Namespace), int>)
    requires LogsSound(c)
    ensures LogsSound(AfterCut(c, s, starts))
  {
    if s in c.logs {
      RaisedWellFormed(c.logs[s], starts);
      OneLogKeeps(c, s, Raised(c.logs[s], starts));
    }
  }

  lemma ChunkKeepsLogs(c: Core, s: Sid, x: Conn, replay: nat, k: (nat, Namespace), from: MissedFrom, rows: seq<int>,
                       now: Time)
    requires LogsSound(c) && BindingSound(c.sess)
    ensures LogsSound(AfterReplayChunk(c, s, x, replay, k, from, rows, now))
  {
    if Current(c, s, x, replay) && k in c.logs[s].missed {
      AdvancedKeeps(c.logs[s], k, from, rows, now);
      OneLogKeeps(c, s, Advanced(c.logs[s], k, from, rows, now));
    }
  }

  lemma ForeignKeepsLogs(c: Core, accounts: set<Account>)
    requires LogsSound(c)
    ensures LogsSound(EndAccounts(c, accounts))
  {
    assert EndAccounts(c, accounts).sess.Keys == c.sess.Keys;
  }

  lemma OneLogKeeps(c: Core, s: Sid, l: Log)
    requires LogsSound(c) && s in c.logs && WellFormed(l) && l.replayId < c.nextReplay
    requires c.sess[s].since.Some? ==> l.recent == []
    ensures LogsSound(c.(logs := c.logs[s := l]))
  {
    assert c.logs[s := l].Keys == c.logs.Keys;
  }

  lemma RaisedWellFormed(l: Log, starts: map<(Account, Namespace), int>)
    requires WellFormed(l)
    ensures WellFormed(Raised(l, starts))
  {
  }

  lemma AdvancedKeeps(l: Log, k: (nat, Namespace), from: MissedFrom, rows: seq<int>, now: Time)
    requires WellFormed(l) && k in l.missed
    ensures WellFormed(Advanced(l, k, from, rows, now))
  {
  }

  lemma CloseKeepsLogs(c: Core, x: Conn, bound: Option<Sid>, v: set<Sid>, now: Time, lim: Limits, c': Core)
    requires LogsSound(c) && CloseStep(c, x, bound, v, now, lim, c')
    ensures LogsSound(c')
  {
    var c1 := MarkClosed(c, x, now);
    DetachKeepsLogs(c1, bound, now);
    RemoveKeepsLogs(DetachPrevious(c1, bound, now), v);
  }

  lemma StartKeepsLogs(c: Core, req: SessionRequest, out: Outcome, now: Time, lim: Limits, c': Core)
    requires LogsSound(c) && out.Started? && StartStep(c, req, out, now, lim, c')
    ensures LogsSound(c')
  {
    var c1 := RemoveSessions(c, out.madeRoom);
    RemoveKeepsLogs(c, out.madeRoom);
    var c2 := DetachPrevious(c1, out.previous, now);
    DetachKeepsLogs(c1, out.previous, now);
    RemoveKeepsLogs(c2, out.evicted);
    NewSessionKeepsLogs(RemoveSessions(c2, out.evicted), req);
  }

  lemma NewSessionKeepsLogs(c: Core, req: SessionRequest)
    requires LogsSound(c)
    ensures LogsSound(NewSession(c, req))
  {
    assert NewSession(c, req).logs.Keys == NewSession(c, req).sess.Keys;
  }

  lemma ResumeKeepsLogs(c: Core, req: SessionRequest, out: Outcome, now: Time, lim: Limits, c': Core)
    requires LogsSound(c) && out.Resumed? && ResumeStep(c, req, out, now, lim, c')
    ensures LogsSound(c')
  {
    BindKeepsLogs(c, out.sid, req.conn);
    ReportedKeepsLogs(BindOne(c, out.sid, req.conn), out.sid);
    var c1 := Reported(BindOne(c, out.sid, req.conn), out.sid);
    var c2 := DetachPrevious(c1, out.previous, now);
    DetachKeepsLogs(c1, out.previous, now);
    RemoveKeepsLogs(c2, out.evicted);
    RotateKeepsLogs(RemoveSessions(c2, out.evicted), out.sid, req);
  }

  lemma ReportedKeepsLogs(c: Core, s: Sid)
    requires LogsSound(c) && s in c.sess
    ensures LogsSound(Reported(c, s))
  {
    assert Reported(c, s).sess.Keys == c.sess.Keys;
  }

  lemma RotateKeepsLogs(c: Core, s: Sid, req: SessionRequest)
    requires LogsSound(c) && s in c.sess && s in c.logs
    ensures LogsSound(Rotated(c, s, req))
  {
    assert Rotated(c, s, req).logs.Keys == Rotated(c, s, req).sess.Keys;
  }

  // ---- Every step, and every run

  /** Every step keeps every invariant. */
  lemma NextKeeps(c: Core, e: Event, lim: Limits, c': Core)
    requires Inv(c, lim) && Next(c, e, lim, c') && lim.perIp >= 1
    ensures Inv(c', lim)
  {
    NextKeepsOwners(c, e, lim, c');
    NextKeepsUnique(c, e, lim, c');
    NextKeepsBinding(c, e, lim, c');
    NextKeepsTokens(c, e, lim, c');
    NextKeepsClosed(c, e, lim, c');
    NextKeepsLogs(c, e, lim, c');
    NextKeepsMonitorCaps(c, e, lim, c');
    NextKeepsDetachedCap(c, e, lim, c');
    NextKeepsIpCaps(c, e, lim, c');
  }

  lemma CloseKeeps(c: Core, x: Conn, bound: Option<Sid>, evicted: set<Sid>, now: Time, lim: Limits, c': Core)
    requires Inv(c, lim) && lim.perIp >= 1 && CloseStep(c, x, bound, evicted, now, lim, c')
    ensures Inv(c', lim)
  {
    NextKeeps(c, Close(x, bound, evicted, now), lim, c');
  }

  lemma OpenKeeps(c: Core, req: SessionRequest, out: Outcome, now: Time, lim: Limits, c': Core)
    requires Inv(c, lim) && lim.perIp >= 1 && OpenStep(c, req, out, now, lim, c')
    ensures Inv(c', lim)
  {
    NextKeeps(c, OpenSession(req, out, now), lim, c');
  }

  lemma HousekeepKeeps(c: Core, now: Time, lim: Limits, c': Core)
    requires Inv(c, lim) && lim.perIp >= 1 && c.logs.Keys == c.sess.Keys
    requires c' == c.(closed := ForgetClosed(c.closed, now), logs := PruneAll(c, now))
    ensures Inv(c', lim)
  {
    NextKeeps(c, Housekeep(now), lim, c');
  }

  /** A run: states joined by steps, from an empty server. */
  ghost predicate Run(cs: seq<Core>, es: seq<Event>, lim: Limits) {
    && |cs| == |es| + 1 && cs[0] == Initial
    && forall i :: 0 <= i < |es| ==> Steps(cs, es, lim, i)
  }

  ghost predicate Steps(cs: seq<Core>, es: seq<Event>, lim: Limits, i: nat)
    requires i < |es| && |cs| == |es| + 1
  {
    Next(cs[i], es[i], lim, cs[i + 1])
  }

  lemma InitialHolds(lim: Limits)
    ensures Inv(Initial, lim)
  {
    assert DetachedMons(Initial.mons, Initial.sess) == {};
    forall ip {:trigger SessionsOf(Initial.sess, ip)} ensures SessionsOf(Initial.sess, ip) == {} {}
  }

  /** In every run, whatever its interleaving, every invariant holds at every point. */
  lemma {:induction false} RunKeeps(cs: seq<Core>, es: seq<Event>, lim: Limits, n: nat)
    requires Run(cs, es, lim) && lim.perIp >= 1 && n < |cs|
    ensures Inv(cs[n], lim)
  {
    if n == 0 {
      InitialHolds(lim);
    } else {
      RunKeeps(cs, es, lim, n - 1);
      StepKeeps(cs, es, lim, n);
    }
  }

  lemma StepKeeps(cs: seq<Core>, es: seq<Event>, lim: Limits, n: nat)
    requires Run(cs, es, lim) && lim.perIp >= 1 && 0 < n < |cs| && Inv(cs[n - 1], lim)
    ensures Inv(cs[n], lim)
  {
    assert Steps(cs, es, lim, n - 1);
    NextKeeps(cs[n - 1], es[n - 1], lim, cs[n]);
  }
}

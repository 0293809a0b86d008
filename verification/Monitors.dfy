/** The monitor tables as the server keeps them: with every reverse index and counter maintained in place,
    step by step.  Each public method is one lock section and is proved to be the step of MonitorCore of
    the same name, with every index again exactly what a recount would give. */
module MonitorServer {
  import opened MonitorTypes
  import opened SessionLog
  import opened MonitorCore
  import opened CoreInvariants
  import opened MonitorIndex
  import opened SessionIndex
  import opened SessionSteps
  import opened Subscriptions
  import opened BodyLimits
  import opened Notifying
  import opened SwarmChange
  import opened Sweeping

  class Monitors {
    /** The monitors, the sessions and their logs, and what is known of connections. */
    var core: Core
    /** The accounts of each connection and session, the sessions' monitor counts, and the count of
        detached monitors. */
    var counts: Indices
    /** The sessions by token, IP and connection, and the detached ones. */
    var lookups: Lookups
    const limits: Limits

    ghost predicate Counted()
      reads this
    {
      counts == Recount(core.mons, core.sess)
    }

    ghost predicate Listed()
      reads this
    {
      lookups == Relist(core.sess)
    }

    ghost predicate Valid()
      reads this
    {
      Counted() && Listed() && Inv(core, limits) && limits.perIp >= 1
    }

    constructor (limits: Limits)
      requires limits.perIp >= 1
      ensures Valid() && core == Initial && this.limits == limits
    {
      core := Initial;
      counts := Indices(map[], map[], map[], 0);
      lookups := Lookups(map[], map[], {}, {}, map[]);
      this.limits := limits;
      new;
      NothingIndexed();
      InitialHolds(limits);
    }

    // ---- The table of monitors

    /** Looks the account up among the owner's monitors. */
    method HasMonitor(account: Account, owner: Owner) returns (found: bool)
      ensures found <==> Has(core.mons, account, owner)
    {
      var range := set m | m in core.mons && core.mons[m].account == account;
      found := false;
      while range != {}
        invariant forall m :: m in range ==> m in core.mons
        invariant forall m :: m in core.mons && core.mons[m].account == account && m !in range ==> core.mons[m].owner != owner
        decreases range
      {
        var it :| it in range;
        if core.mons[it].account == account && core.mons[it].owner == owner {
          return true;
        }
        range := range - {it};
      }
    }

    /** Takes an erased monitor of `account` and `owner` out of the indices and counts. */
    method DropFromIndices(account: Account, owner: Owner, still: bool)
      requires owner.OfSession? ==>
        owner.sid in core.sess && owner.sid in counts.accounts && owner.sid in counts.count && counts.count[owner.sid] > 0
      requires owner.OfSession? && Evictable(core.sess, owner.sid) ==> counts.detachedMons > 0
      modifies this`counts
      ensures counts == Erased(core.sess, old(counts), account, owner, still)
    {
      match owner {
        case OfSession(s) =>
          counts := counts.(count := counts.count[s := counts.count[s] - 1]);
          if !core.sess[s].privileged && core.sess[s].since.Some? {
            counts := counts.(detachedMons := counts.detachedMons - 1);
          }
          if !still {
            counts := counts.(accounts := counts.accounts[s := counts.accounts[s] - {account}]);
          }
        case OfConn(x) =>
          if !still && x in counts.conns {
            var left := counts.conns[x] - {account};
            if left == {} {
              counts := counts.(conns := counts.conns - {x});
            } else {
              counts := counts.(conns := counts.conns[x := left]);
            }
          }
      }
    }

    /** Erases a monitor, keeping its owner's reverse index, a session's count, and the count of detached
        monitors up to date. */
    method EraseMonitor(it: nat)
      requires Counted() && it in core.mons
      requires core.mons[it].owner.OfSession? ==> core.mons[it].owner.sid in core.sess
      modifies this`core, this`counts
      ensures core == EraseMons(old(core), {it})
      ensures Counted()
    {
      var account, owner := core.mons[it].account, core.mons[it].owner;
      core := core.(mons := core.mons - {it});
      var still := HasMonitor(account, owner);
      EraseRecounts(old(core).mons, core.sess, it, still);
      DropFromIndices(account, owner, still);
    }

    /** Erases the monitors in `doomed`, one after another. */
    method EraseMonitors(doomed: set<nat>)
      requires Counted() && OwningSessions(core.mons) <= core.sess.Keys
      requires doomed <= core.mons.Keys
      modifies this`core, this`counts
      ensures core == EraseMons(old(core), doomed)
      ensures Counted()
    {
      var todo := doomed;
      while todo != {}
        invariant todo <= doomed && core == EraseMons(old(core), doomed - todo)
        invariant Counted()
        decreases todo
      {
        var it :| it in todo;
        EraseOneMore(old(core).mons, doomed, todo, it);
        EraseMonitor(it);
        todo := todo - {it};
      }
    }

    // ---- Sessions

    /** Erases the session's monitors, account by account. */
    method EraseSessionMonitors(s: Sid)
      requires Counted() && OwningSessions(core.mons) <= core.sess.Keys && s in core.sess
      modifies this`core, this`counts
      ensures core == EraseMons(old(core), MonsOf(old(core).mons, {s}))
      ensures Counted()
    {
      var todo := counts.accounts[s];
      ghost var was := core;
      ghost var all := AccountsOf(was.mons, OfSession(s));
      AccountsReachAll(was.mons, s);
      EraseNoAccount(was, s, all);
      while todo != {}
        invariant todo <= all && core == EraseMons(was, OwnedOf(was.mons, s, all - todo))
        invariant Counted()
        decreases todo
      {
        var account :| account in todo;
        EraseOneAccount(was.mons, s, all, todo, account);
        EraseMonitors(OwnedOf(core.mons, s, {account}));
        todo := todo - {account};
      }
      assert all - todo == all;
    }

    /** Takes a session out of every index, and drops it. */
    method DropSession(s: Sid)
      requires s in core.sess
      modifies this
      ensures core == old(core).(sess := old(core).sess - {s}, logs := old(core).logs - {s})
      ensures counts == old(counts).(accounts := old(counts).accounts - {s}, count := old(counts).count - {s})
      ensures lookups == DropListed(old(lookups), s, old(core).sess[s])
    {
      var o := core.sess[s];
      if o.conn.Some? && o.conn.value in lookups.bound && lookups.bound[o.conn.value] == s {
        lookups := lookups.(bound := lookups.bound - {o.conn.value});
      }
      if o.ip != "" && o.ip in lookups.byIp {
        var left := lookups.byIp[o.ip] - {s};
        if left == {} {
          lookups := lookups.(byIp := lookups.byIp - {o.ip});
        } else {
          lookups := lookups.(byIp := lookups.byIp[o.ip := left]);
        }
      }
      if o.since.Some? {
        if o.privileged {
          lookups := lookups.(detachedPrivileged := lookups.detachedPrivileged - {(o.since.value, s)});
        } else {
          lookups := lookups.(detached := lookups.detached - {(o.since.value, s)});
        }
      }
      lookups := lookups.(tokens := lookups.tokens - {o.token});
      counts := counts.(accounts := counts.accounts - {s}, count := counts.count - {s});
      core := core.(sess := core.sess - {s}, logs := core.logs - {s});
    }

    /** Takes a session out of every table and index, and with it whatever it owned. */
    method RemoveSession(s: Sid)
      requires Counted() && Listed() && Named(core) && s in core.sess
      modifies this
      ensures core == RemoveSessions(old(core), {s})
      ensures Counted() && Listed()
    {
      EraseSessionMonitors(s);
      DropSession(s);
      RemoveFollows(old(core), s);
    }

    /** Lowers the pair's missed start to `id`, or begins one there, wanting data if either does. */
    method NoteMissedFor(s: Sid, account: nat, ns: Namespace, id: int, wantData: bool)
      requires s in core.logs
      modifies this`core
      ensures core == old(core).(logs := old(core).logs[s := NoteMissed(old(core).logs[s], account, ns, id, wantData)])
    {
      var l := core.logs[s];
      var k := (account, ns);
      var from := MissedFrom(id, wantData);
      if k in l.missed {
        from := l.missed[k];
        if id < from.id {
          from := from.(id := id);
        }
        from := from.(wantData := from.wantData || wantData);
      }
      core := core.(logs := core.logs[s := l.(missed := l.missed[k := from])]);
    }

    /** Folds the session's log: each of its recent entries into the missed start of its pair. */
    method FoldRecent(s: Sid)
      requires s in core.logs
      modifies this`core
      ensures core == old(core).(logs := old(core).logs[s := Folded(old(core).logs[s])])
    {
      var l := FoldLog(core.logs[s]);
      core := core.(logs := core.logs[s := l]);
    }

    /** Prunes the session's log: what the window has passed for goes from its front. */
    method PruneRecent(s: Sid, now: Time)
      requires s in core.logs
      modifies this`core
      ensures core == old(core).(logs := old(core).logs[s := Pruned(old(core).logs[s], now)])
    {
      ghost var all := core.logs[s].recent;
      ghost var n := 0;
      while core.logs[s].recent != [] && core.logs[s].recent[0].sent + RECENT_WINDOW < now
        invariant s in core.logs && n <= |all| && KeptFrom(all, now) == n + KeptFrom(all[n..], now)
        invariant core == old(core).(logs := old(core).logs[s := old(core).logs[s].(recent := all[n..])])
        decreases |core.logs[s].recent|
      {
        assert all[n..][1..] == all[n + 1..];
        core := core.(logs := core.logs[s := core.logs[s].(recent := core.logs[s].recent[1..])]);
        n := n + 1;
      }
    }

    /** The first half of a detach: the session loses its connection, and is counted among the detached. */
    method Unbind(s: Sid, now: Time)
      requires s in core.sess && s in core.logs && s in counts.count
      modifies this
      ensures core == DetachOne(old(core), s, now)
      ensures lookups == DetachListed(old(lookups), s, old(core).sess[s], now)
      ensures counts == if old(core).sess[s].privileged then old(counts)
                        else old(counts).(detachedMons := old(counts).detachedMons + old(counts).count[s])
    {
      var o := core.sess[s];
      if o.conn.Some? && o.conn.value in lookups.bound && lookups.bound[o.conn.value] == s {
        lookups := lookups.(bound := lookups.bound - {o.conn.value});
      }
      core := core.(sess := core.sess[s := o.(conn := None, since := Some(now))]);
      FoldRecent(s);
      if o.privileged {
        lookups := lookups.(detachedPrivileged := lookups.detachedPrivileged + {(now, s)});
        return;
      }
      lookups := lookups.(detached := lookups.detached + {(now, s)});
      counts := counts.(detachedMons := counts.detachedMons + counts.count[s]);
    }

    /** While the detached sessions' monitors are over their limit, removes the session detached the
        longest, whole. */
    method EvictDetached() returns (ghost evicted: set<Sid>)
      requires Counted() && Listed() && Named(core)
      modifies this
      ensures EvictsOldest(old(core), evicted, limits) && core == RemoveSessions(old(core), evicted)
      ensures Counted() && Listed()
    {
      evicted := {};
      RemoveNone(core);
      while counts.detachedMons > limits.detached && lookups.detached != {}
        invariant Counted() && Listed() && core == RemoveSessions(old(core), evicted)
        invariant EvictsInOrder(old(core), evicted, limits)
        decreases core.sess.Keys
      {
        EarliestExists(lookups.detached);
        var victim :| victim in lookups.detached && Earliest(lookups.detached, victim);
        RemoveKeepsNamed(old(core), evicted);
        EvictOneMore(old(core), evicted, victim, limits);
        RemoveSession(victim.1);
        evicted := evicted + {victim.1};
      }
      NoneLeftIsEnough(old(core), evicted, limits);
    }

    /** Detaches the session, folding its log, and then evicts down to the limit of detached monitors, possibly the
        session itself. */
    method Detach(s: Sid, now: Time) returns (ghost evicted: set<Sid>)
      requires Counted() && Detachable(core, s, lookups) && DetachedCap(core, limits)
      modifies this
      ensures core == RemoveSessions(DetachOne(old(core), s, now), evicted)
      ensures EvictsOldest(DetachOne(old(core), s, now), evicted, limits)
      ensures Counted() && Listed()
    {
      Unbind(s, now);
      DetachFollows(old(core), s, now, old(lookups), limits);
      evicted := {};
      if core.sess[s].privileged {
        RemoveNone(core);
        return;
      }
      evicted := EvictDetached();
    }

    /** Puts the session on `x`, off whichever list of detached sessions it was on. */
    method Bind(s: Sid, x: Conn)
      requires s in core.sess && s in core.logs && s in counts.count
      requires Evictable(core.sess, s) ==> counts.count[s] <= counts.detachedMons
      modifies this
      ensures core == BindOne(old(core), s, x)
      ensures lookups == BindListed(old(lookups), s, old(core).sess[s], x)
      ensures counts == if Evictable(old(core).sess, s) then old(counts).(detachedMons := old(counts).detachedMons - old(counts).count[s])
                        else old(counts)
    {
      var o := core.sess[s];
      if o.since.Some? {
        if o.privileged {
          lookups := lookups.(detachedPrivileged := lookups.detachedPrivileged - {(o.since.value, s)});
        } else {
          lookups := lookups.(detached := lookups.detached - {(o.since.value, s)});
          counts := counts.(detachedMons := counts.detachedMons - counts.count[s]);
        }
      } else if o.conn.Some? && o.conn.value != x {
        if o.conn.value in lookups.bound && lookups.bound[o.conn.value] == s {
          lookups := lookups.(bound := lookups.bound - {o.conn.value});
        }
        FoldRecent(s);
      }
      core := core.(sess := core.sess[s := o.(conn := Some(x), since := None)]);
      lookups := lookups.(bound := lookups.bound[x := s]);
    }

    // ---- Connections

    /** Erases the connection's own monitors, account by account, and then its entry of the index. */
    method EraseConn(x: Conn)
      requires Counted()
      modifies this`core, this`counts
      ensures core == EraseMons(old(core), OwnedBy(old(core).mons, OfConn(x)))
      ensures Counted()
    {
      ghost var was := core;
      ghost var all := AccountsOf(was.mons, OfConn(x));
      ConnAccountsReachAll(was.mons, x);
      CloseRecounts(was.mons, was.sess, x);
      if x !in counts.conns {
        assert was.mons - {} == was.mons;
        return;
      }
      var todo := counts.conns[x];
      assert all - todo == {};
      while todo != {}
        invariant todo <= all && core == EraseMons(was, OfConnIn(was.mons, x, all - todo)) && counts == old(counts)
        decreases todo
      {
        var account :| account in todo;
        EraseOneOfConn(was.mons, x, all, todo, account);
        core := core.(mons := core.mons - OfConnIn(core.mons, x, {account}));
        todo := todo - {account};
      }
      assert all - todo == all;
      counts := counts.(conns := counts.conns - {x});
    }

    /** The step Close: what the connection owned goes, and the session on it, if any, is detached. */
    method ConnectionClosed(x: Conn, now: Time) returns (ghost bound: Option<Sid>, ghost evicted: set<Sid>)
      requires Valid()
      modifies this
      ensures Next(old(core), Close(x, bound, evicted, now), limits, core)
      ensures Valid()
    {
      bound, evicted := CloseConn(x, now);
    }

    method CloseConn(x: Conn, now: Time) returns (ghost bound: Option<Sid>, ghost evicted: set<Sid>)
      requires Valid()
      modifies this
      ensures CloseStep(old(core), x, bound, evicted, now, limits, core)
      ensures Valid()
    {
      ghost var c := core;
      if x !in core.closed {
        core := core.(closed := core.closed[x := now]);
      }
      core := core.(started := core.started - {x});
      OnConn(c, x, limits);
      bound, evicted := DetachBound(x, now);
      EraseConn(x);
      CloseKeeps(c, x, bound, evicted, now, limits, core);
    }

    /** Detaches the session bound to the connection, if any. */
    method DetachBound(x: Conn, now: Time) returns (ghost bound: Option<Sid>, ghost evicted: set<Sid>)
      requires Counted() && Listed() && DetachedCap(core, limits)
      requires x in BoundIndex(core.sess) ==> Detachable(core, BoundIndex(core.sess)[x], Relist(core.sess))
      modifies this
      ensures bound == if x in BoundIndex(old(core).sess) then Some(BoundIndex(old(core).sess)[x]) else None
      ensures bound.Some? ==> bound.value in old(core).sess && bound.value in old(core).logs
      ensures core == RemoveSessions(DetachPrevious(old(core), bound, now), evicted)
      ensures EvictsOldest(DetachPrevious(old(core), bound, now), evicted, limits)
      ensures Counted() && Listed()
    {
      bound, evicted := None, {};
      if x in lookups.bound {
        bound := Some(lookups.bound[x]);
        evicted := Detach(lookups.bound[x], now);
      } else {
        RemoveNone(core);
      }
    }

    // ---- monitor

    /** The owner's monitor of exactly this subscription, if it has one. */
    method FindMonitor(sub: Subscription, owner: Owner) returns (found: Option<nat>)
      ensures found.Some? ==> found.value in core.mons && Subscribed(core.mons[found.value], owner, sub)
      ensures found.None? ==> !AlreadyHas(core.mons, owner, sub)
    {
      var range := set m | m in core.mons && core.mons[m].account == sub.account;
      while range != {}
        invariant forall m :: m in range ==> m in core.mons && core.mons[m].account == sub.account
        invariant forall m :: m in core.mons && core.mons[m].account == sub.account && m !in range ==> !Subscribed(core.mons[m], owner, sub)
        decreases range
      {
        var it :| it in range;
        var mon := core.mons[it];
        if mon.owner == owner && mon.namespaces == sub.namespaces && mon.wantData == sub.wantData {
          return Some(it);
        }
        range := range - {it};
      }
      return None;
    }

    /** Adds a monitor of `account` to its owner's index and count. */
    method CountMonitor(account: Account, owner: Owner)
      requires owner.OfSession? ==> owner.sid in counts.accounts && owner.sid in counts.count
      modifies this`counts
      ensures counts == Added(old(counts), account, owner)
    {
      match owner {
        case OfSession(s) =>
          counts := counts.(accounts := counts.accounts[s := counts.accounts[s] + {account}],
                            count := counts.count[s := counts.count[s] + 1]);
        case OfConn(x) =>
          var has := if x in counts.conns then counts.conns[x] else {};
          counts := counts.(conns := counts.conns[x := has + {account}]);
      }
    }

    /** Enters a new monitor into the table and its owner's index. */
    method AddMonitor(sub: Subscription, owner: Owner, now: Time)
      requires Counted() && core.nextMon !in core.mons
      requires owner.OfSession? ==> owner.sid in core.sess && core.sess[owner.sid].since.None?
      modifies this`core, this`counts
      ensures var m := Monitor(sub.account, now + MONITOR_EXPIRY_TIME, sub.namespaces, owner, sub.wantData);
        core == old(core).(mons := old(core).mons[old(core).nextMon := m], nextMon := old(core).nextMon + 1)
      ensures Counted()
    {
      CountMonitor(sub.account, owner);
      var m := Monitor(sub.account, now + MONITOR_EXPIRY_TIME, sub.namespaces, owner, sub.wantData);
      AddMonitorRecounts(old(core).mons, core.sess, core.nextMon, m);
      core := core.(mons := core.mons[core.nextMon := m], nextMon := core.nextMon + 1);
    }

    /** Renews the owner's monitor of the subscription, or adds one if there is room for it. */
    method Renew(sub: Subscription, owner: Owner, now: Time) returns (expiry: Option<nat>)
      requires Counted() && Subscribing(core, owner)
      modifies this`core, this`counts
      ensures core == SubscribeOne(old(core), owner, sub, now, limits)
      ensures expiry == Answer(old(core), owner, sub, limits)
      ensures Counted()
    {
      var found := FindMonitor(sub, owner);
      if found.Some? {
        var it := found.value;
        RenewRecounts(core.mons, core.sess, it, now + MONITOR_EXPIRY_TIME);
        RenewsTheOne(core, owner, sub, it, now);
        core := core.(mons := core.mons[it := core.mons[it].(expiry := now + MONITOR_EXPIRY_TIME)]);
        return Some(MONITOR_EXPIRY_TIME / SECOND);
      }
      if owner.OfSession? && !core.sess[owner.sid].privileged && counts.count[owner.sid] >= limits.monitors {
        return None;
      }
      AddMonitor(sub, owner, now);
      return Some(MONITOR_EXPIRY_TIME / SECOND);
    }

    /** Adds or renews the owner's subscriptions, in order. */
    method RenewAll(subs: seq<Subscription>, owner: Owner, now: Time) returns (expiries: seq<Option<nat>>)
      requires Counted() && Subscribing(core, owner)
      modifies this`core, this`counts
      ensures core == SubscribeAll(old(core), owner, subs, now, limits)
      ensures expiries == Answers(old(core), owner, subs, now, limits)
      ensures Counted()
    {
      expiries := [];
      var i := 0;
      ghost var c := core;
      NoSubscription(c, owner, subs, now, limits);
      while i < |subs|
        invariant i <= |subs| && SubscribedTo(c, owner, subs, i, now, limits, core, expiries) && Counted()
      {
        NextSubscription(c, owner, subs, i, now, limits, core, expiries);
        var e := Renew(subs[i], owner, now);
        expiries := expiries + [e];
        i := i + 1;
      }
      AllSubscriptions(c, owner, subs, now, limits, core, expiries);
    }

    /** Adds or renews the subscriptions of a `monitor` request, in order, all in one step: for each of
        them, how many seconds it then lasts, or none if it was refused. */
    method UpdateMonitors(subs: seq<Subscription>, x: Conn, now: Time)
      returns (expiries: seq<Option<nat>>, ghost owner: Owner)
      requires Valid()
      modifies this
      ensures Next(old(core), Subscribe(x, subs, owner, now), limits, core)
      ensures expiries == if x in old(core).closed then NoAnswers(|subs|) else Answers(old(core), owner, subs, now, limits)
      ensures |expiries| == |subs| && forall i :: 0 <= i < |subs| ==>
        (expiries[i].None? <==> x !in old(core).closed && NoRoomFor(SubscribeAll(old(core), owner, subs[..i], now, limits), owner, subs[i], limits))
      ensures Valid()
    {
      if x in core.closed {
        return NoAnswers(|subs|), OfConn(x);
      }
      OwnerFound(core, x, limits);
      var whose := if x in lookups.bound then OfSession(lookups.bound[x]) else OfConn(x);
      owner := whose;
      expiries := RenewAll(subs, whose, now);
      SubscribeFrame(old(core), whose, subs, now, limits);
      NextKeeps(old(core), Subscribe(x, subs, whose, now), limits, core);
      forall i | 0 <= i < |subs|
        ensures expiries[i].None? <==> NoRoomFor(SubscribeAll(old(core), whose, subs[..i], now, limits), whose, subs[i], limits)
      {
        RefusedExactly(old(core), whose, subs, now, limits, i);
      }
    }

    // ---- monitor_session

    /** The longest detached of the sessions, if any is detached. */
    method LongestDetached(among: set<Sid>) returns (oldest: Option<Sid>)
      requires among <= core.sess.Keys
      ensures oldest.None? ==> forall s :: s in among ==> core.sess[s].since.None?
      ensures oldest.Some? ==> oldest.value in among && LongestOf(core.sess, among, oldest.value)
    {
      oldest := None;
      var todo := among;
      while todo != {}
        invariant todo <= among
        invariant oldest.None? ==> forall s :: s in among - todo ==> core.sess[s].since.None?
        invariant oldest.Some? ==> oldest.value in among && LongestOf(core.sess, among - todo, oldest.value)
        decreases todo
      {
        var s :| s in todo;
        if core.sess[s].since.Some? && (oldest.None? || core.sess[s].since.value < core.sess[oldest.value].since.value) {
          oldest := Some(s);
        }
        todo := todo - {s};
      }
    }

    /** Brings the IP below its limit of sessions by removing the one detached earliest; not `ok` if it is at the
        limit with none detached, and then nothing changes. */
    method MakeRoom(ip: Ip) returns (ok: bool, ghost removed: set<Sid>)
      requires Counted() && Listed() && Named(core) && IpCaps(core.sess, limits) && limits.perIp >= 1
      modifies this
      ensures ok ==> MakesRoom(old(core).sess, ip, removed, limits) && core == RemoveSessions(old(core), removed)
      ensures !ok ==> core == old(core) && ip != "" && |SessionsOf(core.sess, ip)| >= limits.perIp
      ensures !ok ==> forall s :: s in SessionsOf(core.sess, ip) ==> core.sess[s].since.None?
      ensures Counted() && Listed()
    {
      removed := {};
      ok := true;
      RemoveNone(core);
      while ip != ""
        invariant Counted() && Listed() && core == RemoveSessions(old(core), removed)
        invariant removed == {} || (MakesRoom(old(core).sess, ip, removed, limits) && |SessionsOf(core.sess, ip)| < limits.perIp)
        decreases core.sess.Keys
      {
        IpIndexHas(core.sess, ip);
        if ip !in lookups.byIp || |lookups.byIp[ip]| < limits.perIp {
          break;
        }
        var oldest := LongestDetached(lookups.byIp[ip]);
        if oldest.None? {
          ok := false;
          return;
        }
        RemoveSession(oldest.value);
        RoomAfter(old(core), ip, oldest.value, limits);
        removed := {oldest.value};
        assert OldestOf(old(core).sess, ip, oldest.value);
      }
    }

    /** Detaches the session that the connection had, if any. */
    method DetachFrom(previous: Option<Sid>, now: Time) returns (ghost evicted: set<Sid>)
      requires Counted() && DetachedCap(core, limits)
      requires if previous.Some? then Detachable(core, previous.value, lookups) else Listed()
      modifies this
      ensures previous.Some? ==> previous.value in old(core).sess && previous.value in old(core).logs
      ensures core == RemoveSessions(DetachPrevious(old(core), previous, now), evicted)
      ensures EvictsOldest(DetachPrevious(old(core), previous, now), evicted, limits)
      ensures Counted() && Listed()
    {
      if previous.Some? {
        evicted := Detach(previous.value, now);
      } else {
        evicted := {};
        RemoveNone(core);
      }
    }

    /** Makes the new session, bound to its connection, and lists it. */
    method AddSession(req: SessionRequest)
      modifies this
      ensures core == NewSession(old(core), req)
      ensures lookups == old(lookups).(tokens := old(lookups).tokens[req.drawn := old(core).nextSid],
                                       byIp := IpsWith(old(lookups).byIp, CountedIp(req), old(core).nextSid),
                                       bound := old(lookups).bound[req.conn := old(core).nextSid])
      ensures counts == old(counts).(accounts := old(counts).accounts[old(core).nextSid := {}],
                                     count := old(counts).count[old(core).nextSid := 0])
    {
      var n := core.nextSid;
      var ip := if req.privilegedKey then "" else req.ip;
      if ip != "" {
        var others := if ip in lookups.byIp then lookups.byIp[ip] else {};
        lookups := lookups.(byIp := lookups.byIp[ip := others + {n}]);
      }
      core := core.(started := core.started + {req.conn}, nextSid := n + 1,
                    sess := core.sess[n := Session(req.drawn, req.privilegedKey, ip, Some(req.conn), None, req.bodyMax, {})],
                    logs := core.logs[n := EmptyLog]);
      lookups := lookups.(tokens := lookups.tokens[req.drawn := n], bound := lookups.bound[req.conn := n]);
      counts := counts.(accounts := counts.accounts[n := {}], count := counts.count[n := 0]);
    }

    /** Puts the request's token and body limit in place of the session's, and starts a new replay number. */
    method Rotate(s: Sid, req: SessionRequest)
      requires s in core.sess && s in core.logs
      modifies this
      ensures core == Rotated(old(core), s, req)
      ensures lookups == old(lookups).(tokens := (old(lookups).tokens - {old(core).sess[s].token})[req.drawn := s])
      ensures counts == old(counts)
    {
      lookups := lookups.(tokens := (lookups.tokens - {core.sess[s].token})[req.drawn := s]);
      core := core.(sess := core.sess[s := core.sess[s].(token := req.drawn, bodyMax := req.bodyMax)],
                    logs := core.logs[s := core.logs[s].(replayId := core.nextReplay)],
                    nextReplay := core.nextReplay + 1);
    }

    /** Draws a token that no session has.  The random source is given, with a draw of it that would do. */
    method DrawToken(draws: nat -> Token, ghost enough: nat) returns (t: Token)
      requires Listed() && TokensDistinct(core.sess) && !HasToken(core.sess, draws(enough))
      ensures !HasToken(core.sess, t) && exists i :: IsFirstDraw(core.sess, draws, i, t)
    {
      TokenIndexHolds(core.sess);
      var i := 0;
      t := draws(0);
      while t in lookups.tokens
        invariant t == draws(i) && i <= enough && forall j :: 0 <= j < i ==> HasToken(core.sess, draws(j))
        decreases enough - i
      {
        i := i + 1;
        t := draws(i);
      }
      assert IsFirstDraw(core.sess, draws, i, t);
    }

    /** The last part of starting a session, once there is room for it. */
    method StartSession(req: SessionRequest, draws: nat -> Token, ghost enough: nat, previous: Option<Sid>, now: Time)
      returns (ghost evicted: set<Sid>, token: Token)
      requires Counted() && Listed() && Startable(core, req.conn, previous) && DetachedCap(core, limits)
      requires !HasToken(core.sess, draws(enough))
      modifies this
      ensures previous.Some? ==> previous.value in old(core).sess && previous.value in old(core).logs
      ensures EvictsOldest(DetachPrevious(old(core), previous, now), evicted, limits)
      ensures !HasToken(RemoveSessions(DetachPrevious(old(core), previous, now), evicted).sess, token)
      ensures core == NewSession(RemoveSessions(DetachPrevious(old(core), previous, now), evicted), req.(drawn := token))
      ensures Counted() && Listed()
    {
      StartDetaches(core, req.conn, previous);
      evicted := DetachFrom(previous, now);
      StartTakesNoToken(old(core), previous, now, evicted, draws(enough));
      token := DrawToken(draws, enough);
      AddSession(req.(drawn := token));
      StartFollows(old(core), req.(drawn := token), previous, now, evicted);
    }

    /** The first half of a resume: the session is bound, and reports what ended while it was away. */
    method BindAndReport(s: Sid, x: Conn) returns (ended: set<Account>)
      requires Counted() && s in core.sess && s in core.logs
      modifies this
      ensures ended == old(core).sess[s].ended && core == Reported(BindOne(old(core), s, x), s)
      ensures lookups == BindListed(old(lookups), s, old(core).sess[s], x)
      ensures Counted()
    {
      OwnWithinDetached(core.mons, core.sess, s);
      Bind(s, x);
      ended := core.sess[s].ended;
      core := core.(sess := core.sess[s := core.sess[s].(ended := {})]);
      ResumeCounts(old(core), s, x);
    }

    /** A resume, once the session is found: bound first, so that detaching the previous session cannot
        evict it.  (Binding it again at the end, as the server does, changes nothing.) */
    method ResumeSession(req: SessionRequest, draws: nat -> Token, ghost enough: nat, s: Sid,
                         previous: Option<Sid>, now: Time)
      returns (ghost evicted: set<Sid>, ended: set<Account>, token: Token)
      requires Counted() && Listed() && Resuming(core, req.conn, s, previous) && DetachedCap(core, limits)
      requires !HasToken(core.sess, draws(enough))
      modifies this
      ensures ended == old(core).sess[s].ended
      ensures previous.Some? ==> previous.value in old(core).sess && previous.value in old(core).logs
      ensures var c2 := DetachPrevious(Reported(BindOne(old(core), s, req.conn), s), previous, now);
        && EvictsOldest(c2, evicted, limits)
        && s in RemoveSessions(c2, evicted).sess && s in RemoveSessions(c2, evicted).logs
        && !HasToken(RemoveSessions(c2, evicted).sess, token)
        && core == Rotated(RemoveSessions(c2, evicted), s, req.(drawn := token))
      ensures Counted() && Listed()
    {
      ended := BindAndReport(s, req.conn);
      ResumeLists(old(core), req.conn, s, previous);
      ResumeKeepsCap(old(core), s, req.conn, limits);
      evicted := DetachFrom(previous, now);
      ResumedStays(old(core), req.conn, s, previous, now, evicted, limits, draws(enough));
      token := DrawToken(draws, enough);
      Rotate(s, req.(drawn := token));
      ResumeFollows(old(core), req.(drawn := token), s, previous, now, evicted);
    }

    /** The session that a token still resumes, if any. */
    method FindSession(token: Option<Token>, now: Time) returns (s: Option<Sid>)
      requires Listed() && TokensDistinct(core.sess)
      ensures s.None? ==> !Resumable(core, token, now)
      ensures s.Some? ==> s.value in core.sess && token == Some(core.sess[s.value].token) && Live(core.sess[s.value], now)
    {
      TokenIndexHolds(core.sess);
      if token.Some? && token.value in lookups.tokens && Live(core.sess[lookups.tokens[token.value]], now) {
        return Some(lookups.tokens[token.value]);
      }
      return None;
    }

    /** The session other than `not` that the connection has, if any. */
    method FindPrevious(x: Conn, not: Option<Sid>) returns (p: Option<Sid>)
      requires Listed() && ConnsDistinct(core.sess)
      ensures BoundElsewhere(core.sess, x, not, p)
    {
      BoundIndexHolds(core.sess);
      if x in lookups.bound && Some(lookups.bound[x]) != not {
        return Some(lookups.bound[x]);
      }
      return None;
    }

    /** Handles a `monitor_session` request: the session is started or resumed, bound to the connection
        and given a fresh token all at once, or nothing is changed.  `asked` is the request with the token
        that was drawn for it. */
    method HandleMonitorSession(req: SessionRequest, draws: nat -> Token, ghost enough: nat, now: Time)
      returns (reply: Reply, ghost asked: SessionRequest, ghost out: Outcome)
      requires Valid() && !HasToken(core.sess, draws(enough))
      modifies this
      ensures asked == req.(drawn := asked.drawn) && Next(old(core), OpenSession(asked, out, now), limits, core)
      ensures reply == ReplyFor(asked, out)
      ensures Valid()
    {
      reply, asked, out := StartOrResume(req, draws, enough, now);
    }

    method StartOrResume(req: SessionRequest, draws: nat -> Token, ghost enough: nat, now: Time)
      returns (reply: Reply, ghost asked: SessionRequest, ghost out: Outcome)
      requires Valid() && !HasToken(core.sess, draws(enough))
      modifies this
      ensures asked == req.(drawn := asked.drawn) && OpenStep(old(core), asked, out, now, limits, core)
      ensures reply == ReplyFor(asked, out)
      ensures Valid()
    {
      ghost var c := core;
      asked := req;
      InvNames(c, limits);
      if req.conn in core.closed {
        return NoReply, req, Ignored;
      }
      var session := FindSession(req.token, now);
      var previous := FindPrevious(req.conn, session);
      if session.Some? {
        var replay := core.nextReplay;
        ghost var evicted;
        var ended, token;
        evicted, ended, token := ResumeSession(req, draws, enough, session.value, previous, now);
        asked := req.(drawn := token);
        out := Resumed(session.value, previous, evicted, replay, ended);
        reply := Opened(true, token, ended, replay);
        assert ResumeStep(c, asked, out, now, limits, core);
      } else {
        reply, asked, out := StartOrRefuse(req, draws, enough, previous, now);
      }
      OpenKeeps(c, asked, out, now, limits, core);
    }

    /** A request that resumes nothing: a new session, or a refusal. */
    method StartOrRefuse(req: SessionRequest, draws: nat -> Token, ghost enough: nat, previous: Option<Sid>, now: Time)
      returns (reply: Reply, ghost asked: SessionRequest, ghost out: Outcome)
      requires Valid() && !HasToken(core.sess, draws(enough)) && req.conn !in core.closed && !Resumable(core, req.token, now)
      requires BoundElsewhere(core.sess, req.conn, None, previous)
      modifies this
      ensures asked == req.(drawn := asked.drawn) && OpenStep(old(core), asked, out, now, limits, core)
      ensures reply == ReplyFor(asked, out)
      ensures Counted() && Listed()
    {
      ghost var c := core;
      asked := req;
      if req.conn in core.started {
        return Refused(SessionAlreadyStarted), req, AlreadyStarted;
      }
      InvNames(c, limits);
      var ok, removed := MakeRoom(if req.privilegedKey then "" else req.ip);
      if !ok {
        return Refused(TooMany), req, TooManySessions;
      }
      RoomKeepsStartable(c, req, previous, removed, limits);
      RemoveTakesNoToken(c, removed, draws(enough));
      ghost var evicted;
      var token;
      evicted, token := StartSession(req, draws, enough, previous, now);
      asked := req.(drawn := token);
      out := Started(c.nextSid, removed, previous, evicted);
      reply := Opened(false, token, {}, 0);
    }

    // ---- Sweeping

    /** The first step of a sweep: connections closed long ago are forgotten, and the logs of the sessions
        with a connection pruned.  Returns the sessions found ended. */
    method BeginSweep(now: Time) returns (ended: seq<Sid>)
      requires Valid()
      modifies this
      ensures Next(old(core), Housekeep(now), limits, core)
      ensures IsEnded(core.sess, now, ended)
      ensures EndedExactly(core.sess, now, ended)
      ensures Valid()
    {
      ended := ForgetPruneAndFind(now);
    }

    method ForgetPruneAndFind(now: Time) returns (ended: seq<Sid>)
      requires Valid()
      modifies this
      ensures old(core).logs.Keys == old(core).sess.Keys
      ensures core == old(core).(closed := ForgetClosed(old(core).closed, now), logs := PruneAll(old(core), now))
      ensures IsEnded(core.sess, now, ended) && EndedExactly(core.sess, now, ended)
      ensures Valid()
    {
      InvNames(core, limits);
      ended := ForgetAndPrune(now);
      EndedByTime(core.sess, now, ended);
      HousekeepKeeps(old(core), now, limits, core);
    }

    method ForgetAndPrune(now: Time) returns (ended: seq<Sid>)
      requires core.logs.Keys == core.sess.Keys
      modifies this`core
      ensures core == old(core).(closed := ForgetClosed(old(core).closed, now), logs := PruneAll(old(core), now))
      ensures IsEnded(core.sess, now, ended)
    {
      core := core.(closed := map x | x in core.closed && !(core.closed[x] + CLOSED_CONN_MEMORY < now) :: core.closed[x]);
      assert core.closed == ForgetClosed(old(core).closed, now);
      PrunedNone(old(core), now);
      ended := PruneBound(now);
    }

    /** Prunes the logs of the sessions with a connection. */
    method PruneBound(now: Time) returns (ended: seq<Sid>)
      requires core.logs.Keys == core.sess.Keys
      modifies this`core
      ensures core == old(core).(logs := PrunedIn(old(core).sess, old(core).logs, now, old(core).sess.Keys))
      ensures IsEnded(core.sess, now, ended)
    {
      ended := [];
      var todo := core.sess.Keys;
      ghost var done := {};
      PrunedNone(core, now);
      while todo != {}
        invariant done + todo == old(core).sess.Keys && done !! todo
        invariant core == old(core).(logs := PrunedIn(old(core).sess, old(core).logs, now, done))
        invariant forall s :: s in ended <==> s in done && !Live(core.sess[s], now)
        decreases todo
      {
        var s :| s in todo;
        PrunedOneMore(old(core).sess, old(core).logs, now, done, s);
        if !Live(core.sess[s], now) {
          ended := ended + [s];
        } else if core.sess[s].conn.Some? {
          PruneRecent(s, now);
        }
        todo := todo - {s};
        done := done + {s};
      }
    }

    /** Goes on through the sessions that a sweep found ended, from `first` to before `next`, removing each that is
        still there and still not live; stops early only when the weight removed has come to a batch. */
    method SweepSessions(ended: seq<Sid>, first: nat, now: Time) returns (next: nat, gone: nat, ghost removed: set<Sid>)
      requires Valid() && first <= |ended|
      modifies this
      ensures Next(old(core), EndSessions(removed, now), limits, core)
      ensures first <= next <= |ended| && (first < |ended| ==> first < next)
      ensures forall i :: first <= i < next ==> ended[i] in removed || StillLive(old(core).sess, ended[i], now)
      ensures InBatch(old(core).mons, removed, gone) && (next < |ended| ==> gone >= 4096)
      ensures Valid()
    {
      InvNames(core, limits);
      next, gone, removed := RemoveEnded(ended, first, now);
      NextKeeps(old(core), EndSessions(removed, now), limits, core);
    }

    method RemoveEnded(ended: seq<Sid>, first: nat, now: Time) returns (next: nat, gone: nat, ghost removed: set<Sid>)
      requires Counted() && Listed() && Named(core) && first <= |ended|
      modifies this
      ensures core == RemoveSessions(old(core), removed)
      ensures first <= next <= |ended| && (first < |ended| ==> first < next)
      ensures SweptTo(old(core).sess, ended, first, next, removed, now)
      ensures InBatch(old(core).mons, removed, gone) && (next < |ended| ==> gone >= 4096)
      ensures Counted() && Listed()
    {
      next, gone, removed := first, 0, {};
      RemoveNone(core);
      NothingGone(core.mons);
      while next < |ended| && gone < PASS_BATCH
        invariant first <= next <= |ended| && (first == next ==> gone == 0)
        invariant Counted() && Listed() && core == RemoveSessions(old(core), removed)
        invariant SweptTo(old(core).sess, ended, first, next, removed, now)
        invariant InBatch(old(core).mons, removed, gone)
      {
        ghost var was := removed;
        SweptOneMore(old(core).sess, ended, first, next, was, now);
        gone, removed := RemoveIfEnded(ended[next], gone, now, old(core), was);
        next := next + 1;
      }
    }

    /** Removes the session if it has ended, and counts what goes. */
    method RemoveIfEnded(s: Sid, before: nat, now: Time, ghost c: Core, ghost was: set<Sid>)
      returns (gone: nat, ghost removed: set<Sid>)
      requires Counted() && Listed() && Named(c) && core == RemoveSessions(c, was) && InBatch(c.mons, was, before) && before < PASS_BATCH
      modifies this
      ensures removed == if s in c.sess && !Live(c.sess[s], now) then was + {s} else was
      ensures Counted() && Listed() && core == RemoveSessions(c, removed) && InBatch(c.mons, removed, gone)
    {
      gone, removed := before, was;
      StillThere(c, was, s);
      if s in core.sess && !Live(core.sess[s], now) {
        OneMoreGone(c, was, gone, s);
        gone := gone + counts.count[s] + 1;
        RemoveKeepsNamed(c, was);
        RemoveOneMore(c, was, s);
        RemoveSession(s);
        removed := was + {s};
      }
    }

    /** The step Expire for these accounts: what has expired and could have been renewed. */
    method SweepMonitors(accounts: seq<Account>, now: Time) returns (expired: nat)
      requires Valid()
      modifies this
      ensures Next(old(core), Expire(ExpiredOf(old(core), accounts, now), now), limits, core)
      ensures expired == |ExpiredOf(old(core), accounts, now)|
      ensures forall m :: m in core.mons <==>
        m in old(core).mons && !(old(core).mons[m].account in accounts && old(core).mons[m].expiry < now && HasConn(old(core).sess, old(core).mons[m].owner))
      ensures Valid()
    {
      expired := EraseExpired(accounts, now);
      NextKeeps(old(core), Expire(ExpiredOf(old(core), accounts, now), now), limits, core);
    }

    /** Erases the expired monitors of the accounts. */
    method EraseExpired(accounts: seq<Account>, now: Time) returns (expired: nat)
      requires Counted() && OwningSessions(core.mons) <= core.sess.Keys
      modifies this`core, this`counts
      ensures core == EraseMons(old(core), ExpiredOf(old(core), accounts, now))
      ensures expired == |ExpiredOf(old(core), accounts, now)|
      ensures Counted()
    {
      expired := 0;
      var i := 0;
      ghost var c := core;
      ExpireNone(c, accounts, now);
      while i < |accounts|
        invariant i <= |accounts| && core == EraseMons(c, ExpiredOf(c, accounts[..i], now))
        invariant expired == |ExpiredOf(c, accounts[..i], now)|
        invariant Counted()
      {
        ExpireOneMore(c, accounts, now, i);
        FewerOwners(c.mons, ExpiredOf(c, accounts[..i], now));
        var n := EraseExpiredOf(accounts[i], now);
        expired := expired + n;
        i := i + 1;
      }
      assert accounts[..|accounts|] == accounts;
    }

    method EraseExpiredOf(account: Account, now: Time) returns (expired: nat)
      requires Counted() && OwningSessions(core.mons) <= core.sess.Keys
      modifies this`core, this`counts
      ensures core == EraseMons(old(core), ExpiredOf(old(core), [account], now))
      ensures expired == |ExpiredOf(old(core), [account], now)|
      ensures Counted()
    {
      var range := set m | m in core.mons && core.mons[m].account == account;
      var doomed := set m | m in range && core.mons[m].expiry < now && Destination(core.sess, core.mons[m].owner).Some?;
      assert doomed == ExpiredOf(core, [account], now);
      EraseMonitors(doomed);
      expired := |doomed|;
    }

    // ---- Swarm changes

    /** Ends one monitor of a lost account: `to` is where its owner can be told, and a session that cannot be told
        records the account as ended. */
    method EndMonitor(it: nat) returns (to: Option<Conn>)
      requires Counted() && Listed() && Named(core) && it in core.mons
      modifies this
      ensures core == EndMons(old(core), {it})
      ensures to == Destination(old(core).sess, old(core).mons[it].owner)
      ensures Counted() && Listed()
    {
      var owner := core.mons[it].owner;
      to := Destination(core.sess, owner);
      OwnersNamed(core, it);
      EndedOne(core, it);
      if to.None? {
        var s := owner.sid;
        NotingKeepsIndices(core, s, core.sess[s].ended + {core.mons[it].account});
        core := core.(sess := core.sess[s := core.sess[s].(ended := core.sess[s].ended + {core.mons[it].account})]);
      }
      EraseMonitor(it);
    }

    /** Ends every monitor of the account: the connections to tell, each once. */
    method EndAccount(account: Account) returns (conns: set<Conn>)
      requires Counted() && Listed() && Named(core)
      modifies this
      ensures core == EndMons(old(core), MonsFor(old(core), [account]))
      ensures conns == DestinationsOf(old(core), MonsFor(old(core), [account]))
      ensures Counted() && Listed()
    {
      conns := {};
      var range := set m | m in core.mons && core.mons[m].account == account;
      ghost var gone := {};
      EndNone(core);
      ghost var all := MonsFor(core, [account]);
      assert range == all && DestinationsOf(core, {}) == {};
      while range != {}
        invariant gone !! range && gone + range == all
        invariant core == EndMons(old(core), gone) && conns == DestinationsOf(old(core), gone)
        invariant Counted() && Listed()
        decreases range
      {
        var it :| it in range;
        EndStep(old(core), gone, it);
        ghost var d := Destination(core.sess, core.mons[it].owner);
        var to := EndMonitor(it);
        assert to == d;
        if to.Some? {
          conns := conns + {to.value};
        }
        MoveOne(gone, range, it);
        range := range - {it};
        gone := gone + {it};
      }
      assert gone == all;
    }

    /** A batch of a swarm change: ends the monitors of the accounts, which are no longer ours.  Returns, for
        each account with anyone to tell, the connections to tell. */
    method ExtractForeign(batch: seq<Account>) returns (dropped: map<Account, set<Conn>>)
      requires Valid() && forall i, j :: 0 <= i < j < |batch| ==> batch[i] != batch[j]
      modifies this
      ensures Next(old(core), Foreign(set a | a in batch), limits, core)
      ensures dropped == ToldOf(old(core), batch)
      ensures forall a, x :: a in dropped && x in dropped[a] <==> a in batch && Watched(old(core), a, x)
      ensures Valid()
    {
      ghost var c := core;
      InvNames(c, limits);
      dropped := EndBatch(batch);
      forall a, x ensures a in dropped && x in dropped[a] <==> a in batch && Watched(c, a, x) {
        EndIsToldTo(c, batch, a, x);
      }
      EndAll(c, batch);
      NextKeeps(c, Foreign(set a | a in batch), limits, core);
    }

    method EndBatch(batch: seq<Account>) returns (dropped: map<Account, set<Conn>>)
      requires Counted() && Listed() && Named(core) && forall i, j :: 0 <= i < j < |batch| ==> batch[i] != batch[j]
      modifies this
      ensures core == EndMons(old(core), MonsFor(old(core), batch))
      ensures dropped == ToldOf(old(core), batch)
      ensures Counted() && Listed()
    {
      dropped := map[];
      var i := 0;
      ghost var c := core;
      EndNoAccounts(c, batch);
      while i < |batch|
        invariant i <= |batch| && core == EndMons(c, MonsFor(c, batch[..i])) && dropped == ToldOf(c, batch[..i])
        invariant Counted() && Listed()
      {
        EndKeepsNamed(c, MonsFor(c, batch[..i]));
        EndOneAccount(c, batch, i);
        var conns := EndAccount(batch[i]);
        if conns != {} {
          dropped := dropped[batch[i] := conns];
        }
        i := i + 1;
      }
      assert batch[..|batch|] == batch;
    }

    // ---- Notifications

    /** The connections and the sessions that a message is for: each connection with the most that any of its
        monitors wants of the body, each session with whether any of its monitors wants data. */
    method GatherMatches(account: Account, ns: Namespace, now: Time)
      returns (toConns: map<Conn, BodyLimit>, toSessions: map<Sid, bool>)
      ensures Merged(core, AllMatched(core, account, ns, now), toConns)
      ensures Noted(core, AllMatched(core, account, ns, now), toSessions)
    {
      toConns, toSessions := map[], map[];
      var range := set m | m in core.mons && core.mons[m].account == account;
      ghost var seen := {};
      NothingMatched(core);
      while range != {}
        invariant forall m :: m in range ==> m in core.mons && core.mons[m].account == account
        invariant SeenAll(core, range, seen, account, ns, now)
        invariant Merged(core, seen, toConns) && Noted(core, seen, toSessions)
        decreases range
      {
        var it :| it in range;
        var mon := core.mons[it];
        var to := Destination(core.sess, mon.owner);
        SeeOneMore(core, range, seen, account, ns, now, it);
        if !(to.Some? && mon.expiry < now) && ns in mon.namespaces {
          MergeOneMore(core, seen, toConns, it);
          NoteOneMore(core, seen, toSessions, it);
          if to.Some? {
            var limit := BodyLimit(mon.wantData, if mon.wantData then BodyMaxOf(core, mon.owner) else None);
            toConns := toConns[to.value := Merge(if to.value in toConns then toConns[to.value] else NoBody, limit)];
          }
          if mon.owner.OfSession? {
            var s := mon.owner.sid;
            toSessions := toSessions[s := (s in toSessions && toSessions[s]) || mon.wantData];
          }
          seen := seen + {it};
        }
        range := range - {it};
      }
      SeenIsAll(core, seen, account, ns, now);
    }

    /** Notes the message in the session's log: as sent if it has a connection, as missed if not. */
    method Remember(s: Sid, account: Account, ns: Namespace, id: int, wantData: bool, now: Time)
      requires s in core.sess && s in core.logs
      modifies this`core
      ensures core == old(core).(logs := old(core).logs[s := Remembered(old(core).logs[s], old(core).sess[s].conn.Some?, now, Msg(account, ns, id, wantData))])
    {
      var l := core.logs[s];
      if account !in l.index {
        l := l.(keys := l.keys + [account], index := l.index[account := |l.keys|]);
      }
      var idx := l.index[account];
      if core.sess[s].conn.Some? {
        core := core.(logs := core.logs[s := l.(recent := l.recent + [Recent(now, id, idx, ns, wantData)])]);
      } else {
        core := core.(logs := core.logs[s := l]);
        NoteMissedFor(s, idx, ns, id, wantData);
        assert core.logs == old(core).logs[s := NoteMissed(l, idx, ns, id, wantData)];
      }
    }

    /** Notes the message in the log of each of the sessions. */
    method RememberAll(to: map<Sid, bool>, account: Account, ns: Namespace, id: int, now: Time)
      requires core.logs.Keys == core.sess.Keys && to.Keys <= core.sess.Keys
      modifies this`core
      ensures core == old(core).(logs := NotedLogs(old(core).sess, old(core).logs, to, to.Keys, account, ns, id, now))
    {
      var todo := to.Keys;
      ghost var done := {};
      NotedNone(core.sess, core.logs, to, account, ns, id, now);
      while todo != {}
        invariant done !! todo && done + todo == to.Keys
        invariant core == old(core).(logs := NotedLogs(old(core).sess, old(core).logs, to, done, account, ns, id, now))
        decreases todo
      {
        var s :| s in todo;
        NotedOneMore(old(core).sess, old(core).logs, to, done, account, ns, id, now, s);
        Remember(s, account, ns, id, to[s], now);
        MoveOne(done, todo, s);
        todo := todo - {s};
        done := done + {s};
      }
      assert done == to.Keys;
    }

    /** Notifies a newly stored message: the connections by what of its body they are sent. */
    method NotifyMessage(account: Account, ns: Namespace, id: int, data: string, now: Time)
      returns (relayTo: map<BodyLimit, set<Conn>>, to: map<Conn, BodyLimit>)
      requires Valid()
      modifies this
      ensures Next(old(core), Notify(account, ns, id, now), limits, core)
      ensures Merged(old(core), AllMatched(old(core), account, ns, now), to) && Grouped(to, |data|, relayTo)
      ensures forall x :: InSomeGroup(relayTo, x) <==> IsToldOf(old(core), account, ns, now, x)
      ensures Valid()
    {
      InvNames(core, limits);
      to := NotifyMatches(account, ns, id, now);
      relayTo := GroupByBody(to, |data|);
      NextKeeps(old(core), Notify(account, ns, id, now), limits, core);
      forall x ensures InSomeGroup(relayTo, x) <==> IsToldOf(old(core), account, ns, now, x) {
        ToldExactly(old(core), account, ns, now, to, |data|, relayTo, x);
      }
    }

    method NotifyMatches(account: Account, ns: Namespace, id: int, now: Time) returns (to: map<Conn, BodyLimit>)
      requires Counted() && Listed() && Named(core)
      modifies this`core
      ensures core == old(core).(logs := NotifiedLogs(old(core), account, ns, id, now))
      ensures Merged(old(core), AllMatched(old(core), account, ns, now), to)
      ensures Counted() && Listed()
    {
      var toSessions;
      to, toSessions := GatherMatches(account, ns, now);
      NotedAreStored(core, toSessions, account, ns, now);
      AllNoted(core, toSessions, account, ns, id, now);
      RememberAll(toSessions, account, ns, id, now);
    }

    // ---- Replays

    /** The last step of a resume's limit, once it is worked out which rows it leaves: raises the session's
        starts to those. */
    method LimitReplay(s: Sid, starts: map<(Account, Namespace), int>)
      requires Valid() && s in core.logs
      modifies this
      ensures Next(old(core), CutReplay(s, starts), limits, core)
      ensures Valid()
    {
      LogIsWellFormed(core, s, limits);
      var l := RaiseStarts(core.logs[s], starts);
      SetLog(s, l);
      NextKeeps(old(core), CutReplay(s, starts), limits, core);
    }

    method SetLog(s: Sid, l: Log)
      requires Counted() && Listed()
      modifies this`core
      ensures core == old(core).(logs := old(core).logs[s := l])
      ensures Counted() && Listed()
    {
      core := core.(logs := core.logs[s := l]);
    }

    /** The first step of a replay chunk: the first of the session's starts, unless the session has moved on
        or nothing is left. */
    method TakeStart(s: Sid, x: Conn, replay: nat) returns (taken: Option<(Account, (nat, Namespace), MissedFrom)>)
      requires Valid()
      ensures taken.None? <==> !Current(core, s, x, replay) || core.logs[s].missed == map[]
      ensures taken.Some? ==> var (account, k, from) := taken.value; var l := core.logs[s];
        && FirstOf(l.missed.Keys, k) && from == l.missed[k] && k.0 < |l.keys| && account == l.keys[k.0]
        && forall q :: q in l.missed ==> k.0 < q.0 || (k.0 == q.0 && k.1 <= q.1)
    {
      if !(s in core.sess && s in core.logs && core.sess[s].conn == Some(x) && core.logs[s].replayId == replay) {
        return None;
      }
      var l := core.logs[s];
      if l.missed.Keys == {} {
        assert l.missed == map[];
        return None;
      }
      FirstExists(l.missed.Keys);
      var k :| k in l.missed.Keys && FirstOf(l.missed.Keys, k);
      assert WellFormed(l);
      return Some((l.keys[k.0], k, l.missed[k]));
    }

    /** The last step of a replay chunk, given the rows that were looked up: those still to be sent, which go
        into the recent log in the same step as the start moves past them. */
    method ApplyRows(s: Sid, x: Conn, replay: nat, k: (nat, Namespace), from: MissedFrom, rows: seq<int>, now: Time)
      returns (goOn: bool, sent: seq<int>)
      requires Valid()
      modifies this
      ensures Next(old(core), ReplayChunk(s, x, replay, k, from, rows, now), limits, core)
      ensures goOn <==> Current(old(core), s, x, replay)
      ensures sent == if Current(old(core), s, x, replay) && k in old(core).logs[s].missed
                      then SentOf(rows, old(core).logs[s].missed[k].id) else []
      ensures Valid()
    {
      goOn, sent := AdvanceIfCurrent(s, x, replay, k, from, rows, now);
      NextKeeps(old(core), ReplayChunk(s, x, replay, k, from, rows, now), limits, core);
    }

    method AdvanceIfCurrent(s: Sid, x: Conn, replay: nat, k: (nat, Namespace), from: MissedFrom, rows: seq<int>,
                            now: Time)
      returns (goOn: bool, sent: seq<int>)
      requires Counted() && Listed()
      modifies this`core
      ensures Next(old(core), ReplayChunk(s, x, replay, k, from, rows, now), limits, core)
      ensures goOn <==> Current(old(core), s, x, replay)
      ensures sent == if Current(old(core), s, x, replay) && k in old(core).logs[s].missed
                      then SentOf(rows, old(core).logs[s].missed[k].id) else []
      ensures Counted() && Listed()
    {
      goOn := s in core.sess && s in core.logs && core.sess[s].conn == Some(x) && core.logs[s].replayId == replay;
      sent := [];
      if goOn && k in core.logs[s].missed {
        var l;
        l, sent := Advance(core.logs[s], k, from, rows, now);
        SetLog(s, l);
      }
    }
  }
}

/** The redundant tables as a recount of the table of monitors and of the sessions would give them, and
    how each single change to those two is followed in them. */
module MonitorIndex {
  import opened MonitorTypes
  import opened MonitorCore

  // ---- The recounts

  /** The connections with monitors of their own. */
  function OwningConns(mons: map<nat, Monitor>): set<Conn> {
    set m | m in mons && mons[m].owner.OfConn? :: mons[m].owner.conn
  }

  function OwningSessions(mons: map<nat, Monitor>): set<Sid> {
    set m | m in mons && mons[m].owner.OfSession? :: mons[m].owner.sid
  }

  datatype Indices = Indices(
    conns: map<Conn, set<Account>>,
    accounts: map<Sid, set<Account>>,
    count: map<Sid, nat>,
    detachedMons: nat)

  /** `monitoring_conns_`: the accounts of each connection's own monitors. */
  function ConnIndex(mons: map<nat, Monitor>): map<Conn, set<Account>> {
    map x | x in OwningConns(mons) :: AccountsOf(mons, OfConn(x))
  }

  /** Each session's `accounts`. */
  function AccountIndex(mons: map<nat, Monitor>, sess: map<Sid, Session>): map<Sid, set<Account>> {
    map s | s in sess :: AccountsOf(mons, OfSession(s))
  }

  /** Each session's `monitor_count`. */
  function CountIndex(mons: map<nat, Monitor>, sess: map<Sid, Session>): map<Sid, nat> {
    map s | s in sess :: |OwnedBy(mons, OfSession(s))|
  }

  function Recount(mons: map<nat, Monitor>, sess: map<Sid, Session>): Indices {
    Indices(ConnIndex(mons), AccountIndex(mons, sess), CountIndex(mons, sess), |DetachedMons(mons, sess)|)
  }

  // ---- Following an erasure

  /** The account is among those that the owner watches. */
  predicate Has(mons: map<nat, Monitor>, account: Account, owner: Owner) {
    exists m :: m in mons && mons[m].account == account && mons[m].owner == owner
  }

  lemma EraseFromAccounts(mons: map<nat, Monitor>, it: nat, o: Owner)
    requires it in mons
    ensures var a := mons[it].account; var left := mons - {it};
      AccountsOf(left, o) == if mons[it].owner == o && !Has(left, a, o) then AccountsOf(mons, o) - {a} else AccountsOf(mons, o)
  {
    var a := mons[it].account;
    var left := mons - {it};
    forall b | b in AccountsOf(mons, o) && (b != a || mons[it].owner != o) ensures b in AccountsOf(left, o) {
      var m :| m in mons && mons[m].owner == o && mons[m].account == b;
      assert m in left;
    }
    if mons[it].owner == o && Has(left, a, o) {
      var m :| m in left && left[m].account == a && left[m].owner == o;
      assert a in AccountsOf(left, o);
    }
    if mons[it].owner == o && !Has(left, a, o) {
      assert a !in AccountsOf(left, o);
    }
  }

  lemma EraseFromOwned(mons: map<nat, Monitor>, it: nat, o: Owner)
    requires it in mons
    ensures |OwnedBy(mons - {it}, o)| == if mons[it].owner == o then |OwnedBy(mons, o)| - 1 else |OwnedBy(mons, o)|
  {
    assert OwnedBy(mons - {it}, o) == OwnedBy(mons, o) - {it};
    assert it in OwnedBy(mons, o) <==> mons[it].owner == o;
  }

  lemma EraseFromDetached(mons: map<nat, Monitor>, sess: map<Sid, Session>, it: nat)
    requires it in mons
    ensures var counted := mons[it].owner.OfSession? && Evictable(sess, mons[it].owner.sid);
      |DetachedMons(mons - {it}, sess)| == if counted then |DetachedMons(mons, sess)| - 1 else |DetachedMons(mons, sess)|
  {
    assert DetachedMons(mons - {it}, sess) == DetachedMons(mons, sess) - {it};
    assert it in DetachedMons(mons, sess) <==> mons[it].owner.OfSession? && Evictable(sess, mons[it].owner.sid);
  }

  function ConnsWithout(conns: map<Conn, set<Account>>, x: Conn, a: Account): map<Conn, set<Account>>
  {
    if x !in conns then conns
    else if conns[x] - {a} == {} then conns - {x}
    else conns[x := conns[x] - {a}]
  }

  /** What erasing a monitor of `account` and `owner` does to the indices, `still` saying whether the owner
      has another monitor of the account. */
  function Erased(sess: map<Sid, Session>, ix: Indices, account: Account, owner: Owner, still: bool): Indices
    requires owner.OfSession? ==> owner.sid in sess && owner.sid in ix.accounts && owner.sid in ix.count && ix.count[owner.sid] > 0
    requires owner.OfSession? && Evictable(sess, owner.sid) ==> ix.detachedMons > 0
  {
    match owner
    case OfConn(x) => if still then ix else ix.(conns := ConnsWithout(ix.conns, x, account))
    case OfSession(s) =>
      ix.(count := ix.count[s := ix.count[s] - 1],
          detachedMons := if Evictable(sess, s) then ix.detachedMons - 1 else ix.detachedMons,
          accounts := if still then ix.accounts else ix.accounts[s := ix.accounts[s] - {account}])
  }

  lemma OwningHasAccounts(mons: map<nat, Monitor>, x: Conn)
    ensures x in ConnIndex(mons) <==> AccountsOf(mons, OfConn(x)) != {}
  {
    if x in OwningConns(mons) {
      var m :| m in mons && mons[m].owner == OfConn(x);
      assert mons[m].account in AccountsOf(mons, OfConn(x));
    }
    if AccountsOf(mons, OfConn(x)) != {} {
      var a :| a in AccountsOf(mons, OfConn(x));
      var m :| m in mons && mons[m].owner == OfConn(x) && mons[m].account == a;
    }
  }

  lemma EraseFromConns(mons: map<nat, Monitor>, it: nat)
    requires it in mons && mons[it].owner.OfConn?
    ensures var o := mons[it].owner; var left := mons - {it};
      ConnIndex(left) == if Has(left, mons[it].account, o) then ConnIndex(mons)
                         else ConnsWithout(ConnIndex(mons), o.conn, mons[it].account)
  {
    var o := mons[it].owner;
    var left := mons - {it};
    var was, now := ConnIndex(mons), ConnIndex(left);
    var want := if Has(left, mons[it].account, o) then was else ConnsWithout(was, o.conn, mons[it].account);
    forall x {:trigger x in now} ensures (x in now <==> x in want) && (x in now ==> now[x] == want[x]) {
      OwningHasAccounts(left, x);
      OwningHasAccounts(mons, x);
      EraseFromAccounts(mons, it, OfConn(x));
    }
  }

  lemma EraseLeavesConns(mons: map<nat, Monitor>, it: nat)
    requires it in mons && mons[it].owner.OfSession?
    ensures ConnIndex(mons - {it}) == ConnIndex(mons)
  {
    var left := mons - {it};
    forall x {:trigger x in ConnIndex(left)}
      ensures (x in ConnIndex(left) <==> x in ConnIndex(mons)) && (x in ConnIndex(left) ==> ConnIndex(left)[x] == ConnIndex(mons)[x])
    {
      OwningHasAccounts(left, x);
      OwningHasAccounts(mons, x);
      EraseFromAccounts(mons, it, OfConn(x));
    }
  }

  lemma EraseFromCounts(mons: map<nat, Monitor>, sess: map<Sid, Session>, it: nat)
    requires it in mons
    ensures var o := mons[it].owner; var was := CountIndex(mons, sess);
      if o.OfSession? && o.sid in sess then was[o.sid] > 0 && CountIndex(mons - {it}, sess) == was[o.sid := was[o.sid] - 1]
      else CountIndex(mons - {it}, sess) == was
  {
    var o := mons[it].owner;
    if o.OfSession? && o.sid in sess { assert it in OwnedBy(mons, o); }
    forall s | s in sess
      ensures |OwnedBy(mons - {it}, OfSession(s))| == if o == OfSession(s) then |OwnedBy(mons, OfSession(s))| - 1 else |OwnedBy(mons, OfSession(s))|
    {
      EraseFromOwned(mons, it, OfSession(s));
    }
  }

  lemma EraseFromAccountIndex(mons: map<nat, Monitor>, sess: map<Sid, Session>, it: nat)
    requires it in mons
    ensures var o := mons[it].owner; var was := AccountIndex(mons, sess);
      AccountIndex(mons - {it}, sess) ==
        if o.OfSession? && o.sid in sess && !Has(mons - {it}, mons[it].account, o) then was[o.sid := was[o.sid] - {mons[it].account}]
        else was
  {
    forall s | s in sess
      ensures var o := mons[it].owner;
        AccountsOf(mons - {it}, OfSession(s)) == if o == OfSession(s) && !Has(mons - {it}, mons[it].account, o) then AccountsOf(mons, OfSession(s)) - {mons[it].account} else AccountsOf(mons, OfSession(s))
    {
      EraseFromAccounts(mons, it, OfSession(s));
    }
  }

  /** Erasing one monitor and following it in the indices is recounting without the monitor. */
  lemma EraseRecounts(mons: map<nat, Monitor>, sess: map<Sid, Session>, it: nat, still: bool)
    requires it in mons && (mons[it].owner.OfSession? ==> mons[it].owner.sid in sess)
    requires still == Has(mons - {it}, mons[it].account, mons[it].owner)
    ensures mons[it].owner.OfSession? ==> Recount(mons, sess).count[mons[it].owner.sid] > 0
    ensures mons[it].owner.OfSession? && Evictable(sess, mons[it].owner.sid) ==> Recount(mons, sess).detachedMons > 0
    ensures Erased(sess, Recount(mons, sess), mons[it].account, mons[it].owner, still) == Recount(mons - {it}, sess)
  {
    EraseFromCounts(mons, sess, it);
    EraseFromAccountIndex(mons, sess, it);
    EraseFromDetached(mons, sess, it);
    if mons[it].owner.OfConn? {
      EraseFromConns(mons, it);
    } else {
      EraseLeavesConns(mons, it);
      if Evictable(sess, mons[it].owner.sid) { assert it in DetachedMons(mons, sess); }
    }
  }

  // ---- Following changes to sessions

  /** A session without monitors leaves only its own entries when it goes. */
  lemma RemoveRecounts(mons: map<nat, Monitor>, sess: map<Sid, Session>, s: Sid)
    requires s in sess && OwnedBy(mons, OfSession(s)) == {}
    ensures var ix := Recount(mons, sess);
      Recount(mons, sess - {s}) == ix.(accounts := ix.accounts - {s}, count := ix.count - {s})
  {
    assert forall m :: m in mons && mons[m].owner == OfSession(s) ==> m in OwnedBy(mons, OfSession(s));
    assert DetachedMons(mons, sess - {s}) == DetachedMons(mons, sess);
  }

  /** The session's monitors of some accounts. */
  function OwnedOf(mons: map<nat, Monitor>, s: Sid, accounts: set<Account>): set<nat> {
    set m | m in mons && mons[m].owner == OfSession(s) && mons[m].account in accounts
  }

  /** The monitors of the session's accounts are all of its monitors. */
  lemma AccountsReachAll(mons: map<nat, Monitor>, s: Sid)
    ensures OwnedOf(mons, s, AccountsOf(mons, OfSession(s))) == MonsOf(mons, {s})
    ensures OwnedOf(mons, s, {}) == {}
  {
    forall m | m in MonsOf(mons, {s}) ensures mons[m].account in AccountsOf(mons, OfSession(s)) {
    }
  }

  lemma EraseOneMore(mons: map<nat, Monitor>, doomed: set<nat>, todo: set<nat>, it: nat)
    requires it in todo && todo <= doomed && doomed <= mons.Keys
    ensures it in mons - (doomed - todo) && (mons - (doomed - todo))[it] == mons[it]
    ensures (mons - (doomed - todo)) - {it} == mons - (doomed - (todo - {it}))
    ensures mons[it].owner.OfSession? ==> mons[it].owner.sid in OwningSessions(mons)
  {
  }

  lemma EraseNoAccount(c: Core, s: Sid, all: set<Account>)
    ensures EraseMons(c, OwnedOf(c.mons, s, all - all)) == c
  {
    assert OwnedOf(c.mons, s, all - all) == {} && c.mons - {} == c.mons;
  }

  lemma EraseOneAccount(mons: map<nat, Monitor>, s: Sid, all: set<Account>, todo: set<Account>, account: Account)
    requires account in todo && todo <= all
    ensures var left := mons - OwnedOf(mons, s, all - todo);
      && left - OwnedOf(left, s, {account}) == mons - OwnedOf(mons, s, all - (todo - {account}))
      && OwningSessions(left) <= OwningSessions(mons)
      && OwnedOf(left, s, {account}) <= left.Keys
  {
  }

  /** Changing whether a session is detached moves its monitors into or out of the count, whole. */
  lemma ChangeRecounts(mons: map<nat, Monitor>, sess: map<Sid, Session>, s: Sid, n: Session)
    requires s in sess && sess[s].privileged == n.privileged
    ensures var ix := Recount(mons, sess); var own := |OwnedBy(mons, OfSession(s))|;
      var rest := |DetachedMons(mons, sess - {s})|;
      && ix.detachedMons == rest + (if Evictable(sess, s) then own else 0)
      && Recount(mons, sess[s := n]) == ix.(detachedMons := rest + if !n.privileged && n.since.Some? then own else 0)
  {
    ChangeInCount(mons, sess, s, sess[s]);
    assert sess[s := sess[s]] == sess;
    ChangeInCount(mons, sess, s, n);
    assert AccountIndex(mons, sess[s := n]) == AccountIndex(mons, sess);
    assert CountIndex(mons, sess[s := n]) == CountIndex(mons, sess);
  }

  /** A change that does not touch that leaves the indices as they are. */
  lemma SameRecounts(mons: map<nat, Monitor>, sess: map<Sid, Session>, s: Sid, n: Session)
    requires s in sess && sess[s].privileged == n.privileged && sess[s].since == n.since
    ensures Recount(mons, sess[s := n]) == Recount(mons, sess)
  {
    ChangeRecounts(mons, sess, s, n);
  }

  lemma ChangeInCount(mons: map<nat, Monitor>, sess: map<Sid, Session>, s: Sid, n: Session)
    ensures |DetachedMons(mons, sess[s := n])| ==
      |DetachedMons(mons, sess - {s})| + if !n.privileged && n.since.Some? then |OwnedBy(mons, OfSession(s))| else 0
  {
    var own := if !n.privileged && n.since.Some? then OwnedBy(mons, OfSession(s)) else {};
    ChangeInDetachedMons(mons, sess, s, n);
    assert DetachedMons(mons, sess - {s}) !! own;
  }

  lemma ChangeInDetachedMons(mons: map<nat, Monitor>, sess: map<Sid, Session>, s: Sid, n: Session)
    ensures DetachedMons(mons, sess[s := n]) ==
      DetachedMons(mons, sess - {s}) + if !n.privileged && n.since.Some? then OwnedBy(mons, OfSession(s)) else {}
  {
  }

  // ---- Following a connection's going

  /** The connection's own monitors of some accounts. */
  function OfConnIn(mons: map<nat, Monitor>, x: Conn, accounts: set<Account>): set<nat> {
    set m | m in mons && mons[m].owner == OfConn(x) && mons[m].account in accounts
  }

  lemma ConnAccountsReachAll(mons: map<nat, Monitor>, x: Conn)
    ensures OfConnIn(mons, x, AccountsOf(mons, OfConn(x))) == OwnedBy(mons, OfConn(x))
    ensures OfConnIn(mons, x, {}) == {}
    ensures x in ConnIndex(mons) ==> ConnIndex(mons)[x] == AccountsOf(mons, OfConn(x))
    ensures x !in ConnIndex(mons) ==> OwnedBy(mons, OfConn(x)) == {}
  {
    OwningHasAccounts(mons, x);
    forall m | m in OwnedBy(mons, OfConn(x)) ensures mons[m].account in AccountsOf(mons, OfConn(x)) {
    }
  }

  lemma EraseOneOfConn(mons: map<nat, Monitor>, x: Conn, all: set<Account>, todo: set<Account>, account: Account)
    requires account in todo && todo <= all
    ensures var left := mons - OfConnIn(mons, x, all - todo);
      left - OfConnIn(left, x, {account}) == mons - OfConnIn(mons, x, all - (todo - {account}))
  {
  }

  lemma OthersKeepAccounts(mons: map<nat, Monitor>, x: Conn, o: Owner)
    requires o != OfConn(x)
    ensures var left := mons - OwnedBy(mons, OfConn(x));
      AccountsOf(left, o) == AccountsOf(mons, o) && OwnedBy(left, o) == OwnedBy(mons, o)
  {
    var left := mons - OwnedBy(mons, OfConn(x));
    forall a | a in AccountsOf(mons, o) ensures a in AccountsOf(left, o) {
      var m :| m in mons && mons[m].owner == o && mons[m].account == a;
      assert m in left;
    }
  }

  /** Erasing all of a connection's monitors is erasing its entry of the index. */
  lemma CloseRecounts(mons: map<nat, Monitor>, sess: map<Sid, Session>, x: Conn)
    ensures var ix := Recount(mons, sess);
      Recount(mons - OwnedBy(mons, OfConn(x)), sess) == ix.(conns := ix.conns - {x})
  {
    var left := mons - OwnedBy(mons, OfConn(x));
    forall s | s in sess
      ensures AccountsOf(left, OfSession(s)) == AccountsOf(mons, OfSession(s)) && OwnedBy(left, OfSession(s)) == OwnedBy(mons, OfSession(s))
    {
      OthersKeepAccounts(mons, x, OfSession(s));
    }
    assert AccountIndex(left, sess) == AccountIndex(mons, sess) && CountIndex(left, sess) == CountIndex(mons, sess);
    assert DetachedMons(left, sess) == DetachedMons(mons, sess);
    CloseConnIndex(mons, x);
  }

  lemma CloseConnIndex(mons: map<nat, Monitor>, x: Conn)
    ensures ConnIndex(mons - OwnedBy(mons, OfConn(x))) == ConnIndex(mons) - {x}
  {
    var left := mons - OwnedBy(mons, OfConn(x));
    forall y {:trigger y in ConnIndex(left)}
      ensures (y in ConnIndex(left) <==> y in ConnIndex(mons) - {x}) && (y in ConnIndex(left) ==> ConnIndex(left)[y] == ConnIndex(mons)[y])
    {
      OwningHasAccounts(left, y);
      OwningHasAccounts(mons, y);
      if y != x { OthersKeepAccounts(mons, x, OfConn(y)); }
    }
  }

  // ---- Following a new session

  lemma AddRecounts(mons: map<nat, Monitor>, sess: map<Sid, Session>, s: Sid, n: Session)
    requires s !in sess && s !in OwningSessions(mons)
    ensures var ix := Recount(mons, sess);
      Recount(mons, sess[s := n]) == ix.(accounts := ix.accounts[s := {}], count := ix.count[s := 0])
  {
    assert forall m :: m in mons && mons[m].owner.OfSession? ==> mons[m].owner.sid in OwningSessions(mons);
    assert OwnedBy(mons, OfSession(s)) == {} && AccountsOf(mons, OfSession(s)) == {};
    assert DetachedMons(mons, sess[s := n]) == DetachedMons(mons, sess);
    var more := sess[s := n];
    assert AccountIndex(mons, more) == AccountIndex(mons, sess)[s := {}];
    assert CountIndex(mons, more) == CountIndex(mons, sess)[s := 0];
  }

  lemma OwnWithinDetached(mons: map<nat, Monitor>, sess: map<Sid, Session>, s: Sid)
    requires s in sess
    ensures s in Recount(mons, sess).count
    ensures Evictable(sess, s) ==> Recount(mons, sess).count[s] <= Recount(mons, sess).detachedMons
  {
    ChangeRecounts(mons, sess, s, sess[s]);
  }

  // ---- Following a new monitor

  /** What a new monitor of `account` and `owner` adds to the indices. */
  function Added(ix: Indices, account: Account, owner: Owner): Indices
    requires owner.OfSession? ==> owner.sid in ix.accounts && owner.sid in ix.count
  {
    match owner
    case OfConn(x) => ix.(conns := ix.conns[x := (if x in ix.conns then ix.conns[x] else {}) + {account}])
    case OfSession(s) => ix.(accounts := ix.accounts[s := ix.accounts[s] + {account}], count := ix.count[s := ix.count[s] + 1])
  }

  lemma AddToAccounts(mons: map<nat, Monitor>, id: nat, m: Monitor, o: Owner)
    requires id !in mons
    ensures AccountsOf(mons[id := m], o) == if m.owner == o then AccountsOf(mons, o) + {m.account} else AccountsOf(mons, o)
  {
    var more := mons[id := m];
    assert more - {id} == mons;
    EraseFromAccounts(more, id, o);
    if m.owner == o { assert more[id].account in AccountsOf(more, o); }
    if m.owner == o && Has(mons, m.account, o) {
      var n :| n in mons && mons[n].account == m.account && mons[n].owner == o;
      assert mons[n].account in AccountsOf(mons, o);
    }
  }

  lemma AddToOwned(mons: map<nat, Monitor>, id: nat, m: Monitor, o: Owner)
    requires id !in mons
    ensures |OwnedBy(mons[id := m], o)| == |OwnedBy(mons, o)| + if m.owner == o then 1 else 0
  {
    assert mons[id := m] - {id} == mons;
    EraseFromOwned(mons[id := m], id, o);
  }

  lemma AddToConns(mons: map<nat, Monitor>, id: nat, m: Monitor)
    requires id !in mons
    ensures var was := ConnIndex(mons);
      ConnIndex(mons[id := m]) == match m.owner
        case OfConn(x) => was[x := (if x in was then was[x] else {}) + {m.account}]
        case OfSession(_) => was
  {
    var now, was := ConnIndex(mons[id := m]), ConnIndex(mons);
    var want := match m.owner
      case OfConn(x) => was[x := (if x in was then was[x] else {}) + {m.account}]
      case OfSession(_) => was;
    forall y {:trigger y in now} ensures (y in now <==> y in want) && (y in now ==> now[y] == want[y]) {
      OwningHasAccounts(mons, y);
      OwningHasAccounts(mons[id := m], y);
      AddToAccounts(mons, id, m, OfConn(y));
    }
  }

  lemma AddToAccountIndex(mons: map<nat, Monitor>, sess: map<Sid, Session>, id: nat, m: Monitor)
    requires id !in mons && (m.owner.OfSession? ==> m.owner.sid in sess)
    ensures var was := AccountIndex(mons, sess);
      AccountIndex(mons[id := m], sess) ==
        if m.owner.OfConn? then was else was[m.owner.sid := was[m.owner.sid] + {m.account}]
  {
    forall s | s in sess
      ensures var was := AccountsOf(mons, OfSession(s));
        AccountsOf(mons[id := m], OfSession(s)) == if m.owner == OfSession(s) then was + {m.account} else was
    {
      AddToAccounts(mons, id, m, OfSession(s));
    }
  }

  lemma AddToCounts(mons: map<nat, Monitor>, sess: map<Sid, Session>, id: nat, m: Monitor)
    requires id !in mons && (m.owner.OfSession? ==> m.owner.sid in sess)
    ensures var was := CountIndex(mons, sess);
      CountIndex(mons[id := m], sess) == if m.owner.OfConn? then was else was[m.owner.sid := was[m.owner.sid] + 1]
  {
    forall s | s in sess
      ensures |OwnedBy(mons[id := m], OfSession(s))| == |OwnedBy(mons, OfSession(s))| + if m.owner == OfSession(s) then 1 else 0
    {
      AddToOwned(mons, id, m, OfSession(s));
    }
  }

  /** Adding a monitor of a connection, or of a session that has one, and following it in the indices is
      recounting with the monitor. */
  lemma AddMonitorRecounts(mons: map<nat, Monitor>, sess: map<Sid, Session>, id: nat, m: Monitor)
    requires id !in mons && (m.owner.OfSession? ==> m.owner.sid in sess && sess[m.owner.sid].since.None?)
    ensures Recount(mons[id := m], sess) == Added(Recount(mons, sess), m.account, m.owner)
  {
    AddToConns(mons, id, m);
    AddToAccountIndex(mons, sess, id, m);
    AddToCounts(mons, sess, id, m);
    AddOutsideDetached(mons, sess, id, m);
  }

  lemma AddOutsideDetached(mons: map<nat, Monitor>, sess: map<Sid, Session>, id: nat, m: Monitor)
    requires id !in mons && (m.owner.OfSession? ==> m.owner.sid in sess && sess[m.owner.sid].since.None?)
    ensures DetachedMons(mons[id := m], sess) == DetachedMons(mons, sess)
  {
  }

  /** A monitor's expiry is in no index. */
  lemma RenewRecounts(mons: map<nat, Monitor>, sess: map<Sid, Session>, id: nat, expiry: Time)
    requires id in mons
    ensures Recount(mons[id := mons[id].(expiry := expiry)], sess) == Recount(mons, sess)
  {
    var r := mons[id := mons[id].(expiry := expiry)];
    forall o {:trigger AccountsOf(r, o)}
      ensures AccountsOf(r, o) == AccountsOf(mons, o) && OwnedBy(r, o) == OwnedBy(mons, o)
    {
      RenewKeepsOwned(mons, id, expiry, o);
    }
    RenewKeepsConns(mons, id, expiry);
    assert AccountIndex(r, sess) == AccountIndex(mons, sess) && CountIndex(r, sess) == CountIndex(mons, sess);
    assert DetachedMons(r, sess) == DetachedMons(mons, sess);
  }

  lemma RenewKeepsConns(mons: map<nat, Monitor>, id: nat, expiry: Time)
    requires id in mons
    ensures ConnIndex(mons[id := mons[id].(expiry := expiry)]) == ConnIndex(mons)
  {
    var r := mons[id := mons[id].(expiry := expiry)];
    forall x {:trigger x in ConnIndex(r)}
      ensures (x in ConnIndex(r) <==> x in ConnIndex(mons)) && (x in ConnIndex(r) ==> ConnIndex(r)[x] == ConnIndex(mons)[x])
    {
      OwningHasAccounts(r, x);
      OwningHasAccounts(mons, x);
      RenewKeepsOwned(mons, id, expiry, OfConn(x));
    }
  }

  lemma RenewKeepsOwned(mons: map<nat, Monitor>, id: nat, expiry: Time, o: Owner)
    requires id in mons
    ensures var r := mons[id := mons[id].(expiry := expiry)];
      AccountsOf(r, o) == AccountsOf(mons, o) && OwnedBy(r, o) == OwnedBy(mons, o)
  {
    var r := mons[id := mons[id].(expiry := expiry)];
    forall a | a in AccountsOf(mons, o) ensures a in AccountsOf(r, o) {
      var m :| m in mons && mons[m].owner == o && mons[m].account == a;
      assert m in r && r[m].owner == o && r[m].account == a;
    }
  }
}

/** The indices of the sessions, as functions of the sessions alone, and how each change to a session is
    followed in them. */
module SessionIndex {
  import opened MonitorTypes
  import opened MonitorCore

  // ---- The sessions by token

  ghost function TokensOf(sess: map<Sid, Session>): set<Token> {
    set s | s in sess :: sess[s].token
  }

  ghost function HolderOf(sess: map<Sid, Session>, t: Token): Sid
    requires t in TokensOf(sess)
  {
    var s :| s in sess && sess[s].token == t;
    s
  }

  /** `sessions_`. */
  ghost function TokenIndex(sess: map<Sid, Session>): map<Token, Sid> {
    map t | t in TokensOf(sess) :: HolderOf(sess, t)
  }

  ghost predicate TokensIndexed(sess: map<Sid, Session>, tokens: map<Token, Sid>) {
    && (forall s :: s in sess ==> sess[s].token in tokens && tokens[sess[s].token] == s)
    && (forall t :: t in tokens ==> tokens[t] in sess && sess[tokens[t]].token == t)
  }

  lemma TokenIndexHolds(sess: map<Sid, Session>)
    requires TokensDistinct(sess)
    ensures TokensIndexed(sess, TokenIndex(sess))
  {
  }

  lemma TokenIndexIs(sess: map<Sid, Session>, tokens: map<Token, Sid>)
    requires TokensIndexed(sess, tokens)
    ensures tokens == TokenIndex(sess)
  {
    forall t | t in tokens ensures t in TokensOf(sess) && HolderOf(sess, t) == tokens[t] {
    }
  }

  // ---- The sessions by connection

  ghost function BoundConns(sess: map<Sid, Session>): set<Conn> {
    set s | s in sess && sess[s].conn.Some? :: sess[s].conn.value
  }

  ghost function BoundTo(sess: map<Sid, Session>, x: Conn): Sid
    requires x in BoundConns(sess)
  {
    var s :| s in sess && sess[s].conn == Some(x);
    s
  }

  /** `session_conns_`. */
  ghost function BoundIndex(sess: map<Sid, Session>): map<Conn, Sid> {
    map x | x in BoundConns(sess) :: BoundTo(sess, x)
  }

  ghost predicate ConnsDistinct(sess: map<Sid, Session>) {
    forall s, r :: s in sess && r in sess && sess[s].conn.Some? && sess[s].conn == sess[r].conn ==> s == r
  }

  ghost predicate ConnsBound(sess: map<Sid, Session>, bound: map<Conn, Sid>) {
    && (forall x :: x in bound ==> bound[x] in sess && sess[bound[x]].conn == Some(x))
    && (forall s :: s in sess && sess[s].conn.Some? ==> sess[s].conn.value in bound && bound[sess[s].conn.value] == s)
  }

  lemma BoundIndexHolds(sess: map<Sid, Session>)
    requires ConnsDistinct(sess)
    ensures ConnsBound(sess, BoundIndex(sess))
  {
  }

  lemma BoundIndexIs(sess: map<Sid, Session>, bound: map<Conn, Sid>)
    requires ConnsBound(sess, bound)
    ensures bound == BoundIndex(sess)
  {
    forall x | x in bound ensures x in BoundConns(sess) && BoundTo(sess, x) == bound[x] {
    }
  }

  // ---- The detached sessions, and the sessions by IP

  /** `detached_[privileged]`: the sessions of a kind without a connection, and since when. */
  function DetachedList(sess: map<Sid, Session>, privileged: bool): set<(Time, Sid)> {
    set s | s in sess && sess[s].privileged == privileged && sess[s].since.Some? :: (sess[s].since.value, s)
  }

  function IpsOf(sess: map<Sid, Session>): set<Ip> {
    set s | s in sess && sess[s].ip != "" :: sess[s].ip
  }

  /** `sessions_by_ip_`. */
  function IpIndex(sess: map<Sid, Session>): map<Ip, set<Sid>> {
    map ip | ip in IpsOf(sess) :: SessionsOf(sess, ip)
  }

  datatype Lookups = Lookups(
    tokens: map<Token, Sid>,
    byIp: map<Ip, set<Sid>>,
    detached: set<(Time, Sid)>,
    detachedPrivileged: set<(Time, Sid)>,
    bound: map<Conn, Sid>)

  ghost function Relist(sess: map<Sid, Session>): Lookups {
    Lookups(TokenIndex(sess), IpIndex(sess), DetachedList(sess, false), DetachedList(sess, true), BoundIndex(sess))
  }

  // ---- Following the removal of a session

  function IpsWithout(byIp: map<Ip, set<Sid>>, ip: Ip, s: Sid): map<Ip, set<Sid>> {
    if ip == "" || ip !in byIp then byIp
    else if byIp[ip] - {s} == {} then byIp - {ip}
    else byIp[ip := byIp[ip] - {s}]
  }

  lemma IpIndexHas(sess: map<Sid, Session>, ip: Ip)
    ensures ip in IpIndex(sess) <==> ip != "" && SessionsOf(sess, ip) != {}
  {
    if ip in IpsOf(sess) {
      var s :| s in sess && sess[s].ip == ip && ip != "";
      assert s in SessionsOf(sess, ip);
    }
  }

  lemma RemoveFromIps(sess: map<Sid, Session>, s: Sid)
    requires s in sess
    ensures IpIndex(sess - {s}) == IpsWithout(IpIndex(sess), sess[s].ip, s)
  {
    var was, left, want := IpIndex(sess), IpIndex(sess - {s}), IpsWithout(IpIndex(sess), sess[s].ip, s);
    forall ip {:trigger ip in left} ensures (ip in left <==> ip in want) && (ip in left ==> left[ip] == want[ip]) {
      IpIndexHas(sess, ip);
      IpIndexHas(sess - {s}, ip);
      assert SessionsOf(sess - {s}, ip) == SessionsOf(sess, ip) - {s};
    }
  }

  lemma RemoveFromTokens(sess: map<Sid, Session>, s: Sid)
    requires s in sess && TokensDistinct(sess)
    ensures sess[s].token in TokenIndex(sess) && TokenIndex(sess - {s}) == TokenIndex(sess) - {sess[s].token}
  {
    TokenIndexHolds(sess);
    TokenIndexIs(sess - {s}, TokenIndex(sess) - {sess[s].token});
  }

  /** The connection taken from the session, if it is still the session's. */
  function Unbound(bound: map<Conn, Sid>, s: Sid, conn: Option<Conn>): map<Conn, Sid> {
    if conn.Some? && conn.value in bound && bound[conn.value] == s then bound - {conn.value} else bound
  }

  function DropListed(ls: Lookups, s: Sid, was: Session): Lookups {
    ls.(byIp := IpsWithout(ls.byIp, was.ip, s),
        detached := if was.since.Some? && !was.privileged then ls.detached - {(was.since.value, s)} else ls.detached,
        detachedPrivileged := if was.since.Some? && was.privileged then ls.detachedPrivileged - {(was.since.value, s)} else ls.detachedPrivileged,
        tokens := ls.tokens - {was.token},
        bound := Unbound(ls.bound, s, was.conn))
  }

  lemma DetachedHas(sess: map<Sid, Session>, privileged: bool, p: (Time, Sid))
    ensures p in DetachedList(sess, privileged) <==>
      p.1 in sess && sess[p.1].privileged == privileged && sess[p.1].since == Some(p.0)
  {
    if p.1 in sess && sess[p.1].privileged == privileged && sess[p.1].since == Some(p.0) {
      assert p == (sess[p.1].since.value, p.1);
    }
  }

  lemma RemoveFromDetached(sess: map<Sid, Session>, s: Sid, privileged: bool)
    requires s in sess
    ensures DetachedList(sess - {s}, privileged) ==
      if sess[s].since.Some? && sess[s].privileged == privileged then DetachedList(sess, privileged) - {(sess[s].since.value, s)}
      else DetachedList(sess, privileged)
  {
    forall p: (Time, Sid) {:trigger p in DetachedList(sess, privileged)}
      ensures p in DetachedList(sess - {s}, privileged) <==> p in DetachedList(sess, privileged) && p.1 != s
    {
      DetachedHas(sess, privileged, p);
      DetachedHas(sess - {s}, privileged, p);
    }
    forall p: (Time, Sid) | p in DetachedList(sess, privileged) && p.1 == s
      ensures sess[s].since == Some(p.0) && sess[s].privileged == privileged
    {
      DetachedHas(sess, privileged, p);
    }
  }

  lemma RemoveUnbinds(sess: map<Sid, Session>, s: Sid)
    requires s in sess && ConnsDistinct(sess)
    ensures BoundIndex(sess - {s}) == Unbound(BoundIndex(sess), s, sess[s].conn)
  {
    BoundIndexHolds(sess);
    BoundIndexIs(sess - {s}, Unbound(BoundIndex(sess), s, sess[s].conn));
  }

  lemma RemoveRelists(sess: map<Sid, Session>, s: Sid)
    requires s in sess && TokensDistinct(sess) && ConnsDistinct(sess)
    ensures DropListed(Relist(sess), s, sess[s]) == Relist(sess - {s})
  {
    RemoveUnbinds(sess, s);
    RemoveFromIps(sess, s);
    RemoveFromTokens(sess, s);
    RemoveFromDetached(sess, s, false);
    RemoveFromDetached(sess, s, true);
  }

  // ---- Following a change to a session

  /** A session changed in nothing that finds it by token or IP. */
  ghost predicate SameNames(a: Session, b: Session) {
    a.token == b.token && a.ip == b.ip && a.privileged == b.privileged
  }

  lemma ChangeKeepsTokens(sess: map<Sid, Session>, s: Sid, n: Session)
    requires s in sess && TokensDistinct(sess) && SameNames(sess[s], n)
    ensures TokensDistinct(sess[s := n])
    ensures TokenIndex(sess[s := n]) == TokenIndex(sess)
  {
    TokenIndexHolds(sess);
    TokenIndexIs(sess[s := n], TokenIndex(sess));
  }

  lemma ChangeKeepsIps(sess: map<Sid, Session>, s: Sid, n: Session)
    requires s in sess && SameNames(sess[s], n)
    ensures IpIndex(sess[s := n]) == IpIndex(sess)
  {
    var was, now := IpIndex(sess), IpIndex(sess[s := n]);
    forall ip {:trigger ip in now} ensures (ip in now <==> ip in was) && (ip in now ==> now[ip] == was[ip]) {
      assert SessionsOf(sess[s := n], ip) == SessionsOf(sess, ip);
      IpIndexHas(sess, ip);
      IpIndexHas(sess[s := n], ip);
    }
  }

  lemma ChangeInDetached(sess: map<Sid, Session>, s: Sid, n: Session, privileged: bool)
    requires s in sess && sess[s].privileged == n.privileged
    ensures DetachedList(sess[s := n], privileged) ==
      DetachedList(sess - {s}, privileged) + if n.privileged == privileged && n.since.Some? then {(n.since.value, s)} else {}
  {
    var added := if n.privileged == privileged && n.since.Some? then {(n.since.value, s)} else {};
    forall p: (Time, Sid) {:trigger p in added}
      ensures p in DetachedList(sess[s := n], privileged) <==> p in DetachedList(sess - {s}, privileged) || p in added
    {
      DetachedHas(sess[s := n], privileged, p);
      DetachedHas(sess - {s}, privileged, p);
    }
  }

  /** What losing its connection does to where a session is found. */
  function DetachListed(ls: Lookups, s: Sid, was: Session, now: Time): Lookups {
    ls.(bound := Unbound(ls.bound, s, was.conn),
        detached := if was.privileged then ls.detached else ls.detached + {(now, s)},
        detachedPrivileged := if was.privileged then ls.detachedPrivileged + {(now, s)} else ls.detachedPrivileged)
  }

  lemma UnboundIsAbsent(sess: map<Sid, Session>, s: Sid, n: Session)
    requires n.conn.None? && ConnsDistinct(sess - {s})
    ensures BoundIndex(sess[s := n]) == BoundIndex(sess - {s}) && ConnsDistinct(sess[s := n])
  {
    var rest, off := sess - {s}, sess[s := n];
    BoundIndexHolds(rest);
    assert forall r :: r in off && off[r].conn.Some? ==> r in rest && rest[r] == off[r];
    BoundIndexIs(off, BoundIndex(rest));
  }

  /** A session taken off its connection is found just where a recount would find it, even if the
      connection had already gone to another. */
  lemma DetachRelists(sess: map<Sid, Session>, s: Sid, now: Time, bound: map<Conn, Sid>)
    requires s in sess && sess[s].since.None? && TokensDistinct(sess) && ConnsDistinct(sess - {s})
    requires Unbound(bound, s, sess[s].conn) == BoundIndex(sess - {s})
    ensures var off := sess[s := sess[s].(conn := None, since := Some(now))];
      && DetachListed(Relist(sess).(bound := bound), s, sess[s], now) == Relist(off)
      && TokensDistinct(off) && ConnsDistinct(off)
  {
    var n := sess[s].(conn := None, since := Some(now));
    UnboundIsAbsent(sess, s, n);
    ChangeKeepsTokens(sess, s, n);
    ChangeKeepsIps(sess, s, n);
    forall p | p in {false, true}
      ensures DetachedList(sess[s := n], p) == DetachedList(sess, p) + if n.privileged == p then {(now, s)} else {}
    {
      ChangeInDetached(sess, s, n, p);
      RemoveFromDetached(sess, s, p);
    }
    assert false in {false, true} && true in {false, true};
  }

  /** What gaining a connection does to where a session is found. */
  function BindListed(ls: Lookups, s: Sid, was: Session, x: Conn): Lookups {
    ls.(detached := if was.since.Some? && !was.privileged then ls.detached - {(was.since.value, s)} else ls.detached,
        detachedPrivileged := if was.since.Some? && was.privileged then ls.detachedPrivileged - {(was.since.value, s)} else ls.detachedPrivileged,
        bound := (if was.since.None? && was.conn.Some? && was.conn.value != x then Unbound(ls.bound, s, was.conn) else ls.bound)[x := s])
  }

  /** The session other than `s` on `x`, if there is one, is the only one out of place. */
  lemma BindBinds(sess: map<Sid, Session>, s: Sid, n: Session, x: Conn, p: Option<Sid>)
    requires s in sess && BindingSound(sess) && BoundElsewhere(sess, x, Some(s), p) && n.conn == Some(x)
    ensures var others := if p.Some? then {p.value} else {};
      && ConnsDistinct(sess[s := n] - others)
      && BindListed(Relist(sess), s, sess[s], x).bound == BoundIndex(sess[s := n] - others)
  {
    var others := if p.Some? then {p.value} else {};
    var was := BoundIndex(sess);
    var bound := BindListed(Relist(sess), s, sess[s], x).bound;
    var now := sess[s := n] - others;
    BoundIndexHolds(sess);
    assert bound == (if sess[s].conn.Some? && sess[s].conn.value != x then was - {sess[s].conn.value} else was)[x := s];
    BindBound(sess, s, n, x, p, was, bound);
    BoundIndexIs(now, bound);
  }

  lemma BindBound(sess: map<Sid, Session>, s: Sid, n: Session, x: Conn, p: Option<Sid>, was: map<Conn, Sid>,
                  bound: map<Conn, Sid>)
    requires s in sess && ConnsDistinct(sess) && ConnsBound(sess, was) && BoundElsewhere(sess, x, Some(s), p) && n.conn == Some(x)
    requires bound == (if sess[s].conn.Some? && sess[s].conn.value != x then was - {sess[s].conn.value} else was)[x := s]
    ensures var now := sess[s := n] - if p.Some? then {p.value} else {};
      ConnsBound(now, bound) && ConnsDistinct(now)
  {
    var now := sess[s := n] - if p.Some? then {p.value} else {};
    forall r | r in now && now[r].conn.Some? ensures now[r].conn.value in bound && bound[now[r].conn.value] == r {
      if r != s {
        assert sess[r].conn.value in was;
        assert sess[r].conn.value != x;
      }
    }
    forall y | y in bound ensures bound[y] in now && now[bound[y]].conn == Some(y) {
      if y != x {
        assert y in was && bound[y] == was[y];
      }
    }
  }

  lemma BindRelists(sess: map<Sid, Session>, s: Sid, n: Session, x: Conn)
    requires s in sess && TokensDistinct(sess) && SameNames(sess[s], n) && n.since.None?
    ensures var ls := BindListed(Relist(sess), s, sess[s], x);
      ls == Relist(sess[s := n]).(bound := ls.bound) && TokensDistinct(sess[s := n])
  {
    ChangeKeepsTokens(sess, s, n);
    ChangeKeepsIps(sess, s, n);
    forall p | p in {false, true} ensures DetachedList(sess[s := n], p) == DetachedList(sess - {s}, p) {
      ChangeInDetached(sess, s, n, p);
    }
    assert false in {false, true} && true in {false, true};
    RemoveFromDetached(sess, s, false);
    RemoveFromDetached(sess, s, true);
  }

  // ---- Following a new token and a new session

  lemma RotateTokens(sess: map<Sid, Session>, s: Sid, n: Session)
    requires s in sess && TokensDistinct(sess) && !HasToken(sess, n.token)
    ensures TokenIndex(sess[s := n]) == (TokenIndex(sess) - {sess[s].token})[n.token := s]
  {
    TokenIndexHolds(sess);
    TokenIndexIs(sess[s := n], (TokenIndex(sess) - {sess[s].token})[n.token := s]);
  }

  lemma RotateRelists(sess: map<Sid, Session>, s: Sid, n: Session)
    requires s in sess && TokensDistinct(sess) && ConnsDistinct(sess) && !HasToken(sess, n.token)
    requires n.conn == sess[s].conn && n.since == sess[s].since && n.ip == sess[s].ip && n.privileged == sess[s].privileged
    ensures var ls := Relist(sess);
      Relist(sess[s := n]) == ls.(tokens := (ls.tokens - {sess[s].token})[n.token := s])
  {
    assert sess[s := sess[s]] == sess;
    RotateTokens(sess, s, n);
    SameConnsBound(sess, s, n);
    TokenApart(sess, s, sess[s], n);
    forall p | p in {false, true} ensures DetachedList(sess[s := n], p) == DetachedList(sess, p) {
      ChangeInDetached(sess, s, n, p);
      ChangeInDetached(sess, s, sess[s], p);
    }
    assert false in {false, true} && true in {false, true};
  }

  lemma SameConnsBound(sess: map<Sid, Session>, s: Sid, n: Session)
    requires s in sess && ConnsDistinct(sess) && n.conn == sess[s].conn
    ensures BoundIndex(sess[s := n]) == BoundIndex(sess)
  {
    BoundIndexHolds(sess);
    BoundIndexIs(sess[s := n], BoundIndex(sess));
  }

  lemma TokenApart(sess: map<Sid, Session>, s: Sid, a: Session, b: Session)
    requires a.ip == b.ip
    ensures IpIndex(sess[s := a]) == IpIndex(sess[s := b])
  {
    forall ip {:trigger ip in IpIndex(sess[s := a])}
      ensures (ip in IpIndex(sess[s := a]) <==> ip in IpIndex(sess[s := b])) && SessionsOf(sess[s := a], ip) == SessionsOf(sess[s := b], ip)
    {
      assert SessionsOf(sess[s := a], ip) == SessionsOf(sess[s := b], ip);
      IpIndexHas(sess[s := a], ip);
      IpIndexHas(sess[s := b], ip);
    }
  }

  function IpsWith(byIp: map<Ip, set<Sid>>, ip: Ip, s: Sid): map<Ip, set<Sid>> {
    if ip == "" then byIp else byIp[ip := (if ip in byIp then byIp[ip] else {}) + {s}]
  }

  lemma AddToIps(sess: map<Sid, Session>, s: Sid, n: Session)
    requires s !in sess
    ensures IpIndex(sess[s := n]) == IpsWith(IpIndex(sess), n.ip, s)
  {
    var now, want := IpIndex(sess[s := n]), IpsWith(IpIndex(sess), n.ip, s);
    forall ip {:trigger ip in now} ensures (ip in now <==> ip in want) && (ip in now ==> now[ip] == want[ip]) {
      assert SessionsOf(sess[s := n], ip) == SessionsOf(sess, ip) + if n.ip == ip then {s} else {};
      IpIndexHas(sess, ip);
      IpIndexHas(sess[s := n], ip);
    }
  }

  lemma AddToTokens(sess: map<Sid, Session>, s: Sid, n: Session)
    requires s !in sess && TokensDistinct(sess) && !HasToken(sess, n.token)
    ensures TokenIndex(sess[s := n]) == TokenIndex(sess)[n.token := s]
  {
    TokenIndexHolds(sess);
    TokenIndexIs(sess[s := n], TokenIndex(sess)[n.token := s]);
  }

  lemma AddToBound(sess: map<Sid, Session>, s: Sid, n: Session)
    requires s !in sess && ConnsDistinct(sess) && n.conn.Some? && !IsBound(sess, n.conn.value)
    ensures BoundIndex(sess[s := n]) == BoundIndex(sess)[n.conn.value := s]
  {
    BoundIndexHolds(sess);
    BoundIndexIs(sess[s := n], BoundIndex(sess)[n.conn.value := s]);
  }

  lemma AddRelists(sess: map<Sid, Session>, s: Sid, n: Session)
    requires s !in sess && TokensDistinct(sess) && ConnsDistinct(sess) && !HasToken(sess, n.token)
    requires n.since.None? && n.conn.Some? && !IsBound(sess, n.conn.value)
    ensures var ls := Relist(sess);
      Relist(sess[s := n]) == ls.(tokens := ls.tokens[n.token := s], byIp := IpsWith(ls.byIp, n.ip, s), bound := ls.bound[n.conn.value := s])
  {
    AddToTokens(sess, s, n);
    AddToBound(sess, s, n);
    AddToIps(sess, s, n);
    forall p | p in {false, true} ensures DetachedList(sess[s := n], p) == DetachedList(sess, p) {
      AddNoDetached(sess, s, n, p);
    }
    assert false in {false, true} && true in {false, true};
  }

  lemma AddNoDetached(sess: map<Sid, Session>, s: Sid, n: Session, privileged: bool)
    requires s !in sess && n.since.None?
    ensures DetachedList(sess[s := n], privileged) == DetachedList(sess, privileged)
  {
    forall q: (Time, Sid) {:trigger q in DetachedList(sess, privileged)}
      ensures q in DetachedList(sess[s := n], privileged) <==> q in DetachedList(sess, privileged)
    {
      DetachedHas(sess[s := n], privileged, q);
      DetachedHas(sess, privileged, q);
    }
  }
}

/** The monitor protocol without its indices: the table of monitors, the sessions and their logs, and
    what each of the server's lock sections does to them.  The indexed tables refine this
    (see Monitors.dfy); here are the claims about every run. */
module MonitorCore {
  import opened MonitorTypes
  import opened SessionLog

  datatype Core = Core(
    mons: map<nat, Monitor>,
    nextMon: nat,
    sess: map<Sid, Session>,
    nextSid: nat,
    logs: map<Sid, Log>,
    started: set<Conn>,
    closed: map<Conn, Time>,
    nextReplay: nat)

  const Initial: Core := Core(map[], 0, map[], 0, map[], {}, map[], 1)

  // ---- What the tables say

  function OwnedBy(mons: map<nat, Monitor>, o: Owner): set<nat> {
    set m | m in mons && mons[m].owner == o
  }

  function AccountsOf(mons: map<nat, Monitor>, o: Owner): set<Account> {
    set m | m in mons && mons[m].owner == o :: mons[m].account
  }

  /** A session that counts against the limit on detached monitors. */
  predicate Evictable(sess: map<Sid, Session>, s: Sid) {
    s in sess && !sess[s].privileged && sess[s].since.Some?
  }

  function DetachedMons(mons: map<nat, Monitor>, sess: map<Sid, Session>): set<nat> {
    set m | m in mons && mons[m].owner.OfSession? && Evictable(sess, mons[m].owner.sid)
  }

  function SessionsOf(sess: map<Sid, Session>, ip: Ip): set<Sid> {
    set s | s in sess && sess[s].ip == ip
  }

  predicate HasToken(sess: map<Sid, Session>, t: Token) {
    exists s :: s in sess && sess[s].token == t
  }

  predicate IsBound(sess: map<Sid, Session>, c: Conn) {
    exists s :: s in sess && sess[s].conn == Some(c)
  }

  /** The connection a monitor's notifications go to, if any. */
  function Destination(sess: map<Sid, Session>, o: Owner): Option<Conn> {
    match o
    case OfConn(c) => Some(c)
    case OfSession(s) => if s in sess then sess[s].conn else None
  }

  predicate Live(s: Session, now: Time) {
    s.conn.Some? || s.since.None? || now < s.since.value + SESSION_DETACHED_LIFETIME
  }

  // ---- Invariants

  ghost predicate OwnersStored(c: Core) {
    && (forall m :: m in c.mons ==> m < c.nextMon)
    && (forall s :: s in c.sess ==> s < c.nextSid)
    && (forall m :: m in c.mons && c.mons[m].owner.OfSession? ==> c.mons[m].owner.sid in c.sess)
  }

  predicate SameSubscription(a: Monitor, b: Monitor) {
    a.account == b.account && a.owner == b.owner && a.namespaces == b.namespaces && a.wantData == b.wantData
  }

  ghost predicate NoDuplicates(c: Core) {
    forall m, n :: m in c.mons && n in c.mons && SameSubscription(c.mons[m], c.mons[n]) ==> m == n
  }

  /** Bound or detached, never both; and a connection has at most one session. */
  ghost predicate BindingSound(sess: map<Sid, Session>) {
    && (forall s :: s in sess ==> (sess[s].conn.Some? <==> sess[s].since.None?))
    && (forall s, r :: s in sess && r in sess && sess[s].conn.Some? && sess[s].conn == sess[r].conn ==> s == r)
  }

  ghost predicate TokensDistinct(sess: map<Sid, Session>) {
    forall s, r :: s in sess && r in sess && sess[s].token == sess[r].token ==> s == r
  }

  /** A connection remembered as closed has nothing. */
  ghost predicate ClosedBare(c: Core) {
    forall x :: x in c.closed ==>
      && x !in c.started
      && (forall s :: s in c.sess ==> c.sess[s].conn != Some(x))
      && (forall m :: m in c.mons ==> c.mons[m].owner != OfConn(x))
  }

  ghost predicate LogSound(l: Log, s: Session, nextReplay: nat) {
    WellFormed(l) && l.replayId < nextReplay && (s.since.Some? ==> l.recent == [])
  }

  ghost predicate LogsSound(c: Core) {
    && c.logs.Keys == c.sess.Keys && 0 < c.nextReplay
    && forall s :: s in c.sess ==> LogSound(c.logs[s], c.sess[s], c.nextReplay)
  }

  ghost predicate MonitorCaps(c: Core, lim: Limits) {
    forall s :: s in c.sess && !c.sess[s].privileged ==> |OwnedBy(c.mons, OfSession(s))| <= lim.monitors
  }

  ghost predicate DetachedCap(c: Core, lim: Limits) {
    |DetachedMons(c.mons, c.sess)| <= lim.detached
  }

  ghost predicate IpCaps(sess: map<Sid, Session>, lim: Limits) {
    && (forall s :: s in sess && sess[s].privileged ==> sess[s].ip == "")
    && (forall ip {:trigger SessionsOf(sess, ip)} :: ip != "" ==> |SessionsOf(sess, ip)| <= lim.perIp)
  }

  ghost predicate Inv(c: Core, lim: Limits) {
    && OwnersStored(c)
    && NoDuplicates(c)
    && BindingSound(c.sess)
    && TokensDistinct(c.sess)
    && ClosedBare(c)
    && LogsSound(c)
    && MonitorCaps(c, lim)
    && DetachedCap(c, lim)
    && IpCaps(c.sess, lim)
  }

  // ---- The changes the steps are made of

  function EraseMons(c: Core, e: set<nat>): Core {
    c.(mons := c.mons - e)
  }

  /** The monitors of the sessions `v`. */
  function MonsOf(mons: map<nat, Monitor>, v: set<Sid>): set<nat> {
    set m | m in mons && mons[m].owner.OfSession? && mons[m].owner.sid in v
  }

  function RemoveSessions(c: Core, v: set<Sid>): Core {
    c.(mons := c.mons - MonsOf(c.mons, v), sess := c.sess - v, logs := c.logs - v)
  }

  /** The session loses its connection, noting what it was sent lately as missed. */
  function DetachOne(c: Core, s: Sid, now: Time): Core
    requires s in c.sess && s in c.logs
  {
    c.(sess := c.sess[s := c.sess[s].(conn := None, since := Some(now))],
       logs := c.logs[s := Folded(c.logs[s])])
  }

  function BindOne(c: Core, s: Sid, x: Conn): Core
    requires s in c.sess && s in c.logs
  {
    var was := c.sess[s];
    c.(sess := c.sess[s := was.(conn := Some(x), since := None)],
       logs := c.logs[s := if was.since.None? && was.conn.Some? && was.conn.value != x
                           then Folded(c.logs[s]) else c.logs[s]])
  }

  /** `v` is what making room among the detached sessions removes: the longest detached, until the
      limit is met, and no more than that. */
  ghost predicate EvictsOldest(c: Core, v: set<Sid>, lim: Limits) {
    && (forall x :: x in v ==> Evictable(c.sess, x))
    && (forall x, y :: x in v && Evictable(c.sess, y) && y !in v
          ==> c.sess[x].since.value <= c.sess[y].since.value)
    && DetachedCap(RemoveSessions(c, v), lim)
    && (v != {} ==> exists x :: x in v && LastEvicted(c, v, x, lim))
  }

  /** Removing all of `v` but `x`, the last of them, would not have been enough. */
  ghost predicate LastEvicted(c: Core, v: set<Sid>, x: Sid, lim: Limits) {
    && Evictable(c.sess, x)
    && (forall y :: y in v && Evictable(c.sess, y) ==> c.sess[y].since.value <= c.sess[x].since.value)
    && !DetachedCap(RemoveSessions(c, v - {x}), lim)
  }

  // ---- The steps

  datatype Outcome =
    | Ignored
    | AlreadyStarted
    | TooManySessions
    | Started(sid: Sid, madeRoom: set<Sid>, previous: Option<Sid>, evicted: set<Sid>)
    | Resumed(sid: Sid, previous: Option<Sid>, evicted: set<Sid>, replay: nat, ended: set<Account>)

  /** A `monitor_session` request: what it gives, and the token that would be issued. */
  datatype SessionRequest = SessionRequest(
    conn: Conn,
    token: Option<Token>,
    bodyMax: Option<nat>,
    privilegedKey: bool,
    ip: Ip,
    drawn: Token)

  datatype Event =
    | Subscribe(conn: Conn, subs: seq<Subscription>, owner: Owner, now: Time)
    | OpenSession(req: SessionRequest, out: Outcome, now: Time)
    | Close(conn: Conn, bound: Option<Sid>, evicted: set<Sid>, now: Time)
    | Housekeep(now: Time)
    | EndSessions(ended: set<Sid>, now: Time)
    | Expire(erased: set<nat>, now: Time)
    | Foreign(accounts: set<Account>)
    | Notify(account: Account, ns: Namespace, id: int, now: Time)
    | CutReplay(sid: Sid, starts: map<(Account, Namespace), int>)
    | ReplayChunk(sid: Sid, conn: Conn, replay: nat, key: (nat, Namespace), from: MissedFrom, rows: seq<int>, now: Time)

  /** Whom the monitors of a request on `x` belong to: the session bound to it, or the connection. */
  ghost predicate OwnerFor(sess: map<Sid, Session>, x: Conn, o: Owner) {
    match o
    case OfConn(y) => y == x && !IsBound(sess, x)
    case OfSession(s) => s in sess && sess[s].conn == Some(x)
  }

  /** The session other than `not` bound to `x`. */
  ghost predicate BoundElsewhere(sess: map<Sid, Session>, x: Conn, not: Option<Sid>, p: Option<Sid>) {
    match p
    case Some(s) => s in sess && sess[s].conn == Some(x) && not != Some(s)
    case None => forall s :: s in sess && sess[s].conn == Some(x) ==> not == Some(s)
  }

  predicate Subscribed(m: Monitor, o: Owner, sub: Subscription) {
    m.owner == o && m.account == sub.account && m.namespaces == sub.namespaces && m.wantData == sub.wantData
  }

  predicate AlreadyHas(mons: map<nat, Monitor>, o: Owner, sub: Subscription) {
    exists m :: m in mons && Subscribed(mons[m], o, sub)
  }

  function Renewed(mons: map<nat, Monitor>, o: Owner, sub: Subscription, now: Time): map<nat, Monitor> {
    map m | m in mons :: if Subscribed(mons[m], o, sub) then mons[m].(expiry := now + MONITOR_EXPIRY_TIME) else mons[m]
  }

  /** No room for another monitor of the owner. */
  predicate AtCap(c: Core, o: Owner, lim: Limits) {
    o.OfSession? && o.sid in c.sess && !c.sess[o.sid].privileged && |OwnedBy(c.mons, o)| >= lim.monitors
  }

  function SubscribeOne(c: Core, o: Owner, sub: Subscription, now: Time, lim: Limits): Core {
    if AlreadyHas(c.mons, o, sub) then c.(mons := Renewed(c.mons, o, sub, now))
    else if AtCap(c, o, lim) then c
    else c.(mons := c.mons[c.nextMon := Monitor(sub.account, now + MONITOR_EXPIRY_TIME, sub.namespaces, o, sub.wantData)],
            nextMon := c.nextMon + 1)
  }

  function SubscribeAll(c: Core, o: Owner, subs: seq<Subscription>, now: Time, lim: Limits): Core
    decreases |subs|
  {
    if subs == [] then c
    else
      var k := |subs| - 1;
      SubscribeOne(SubscribeAll(c, o, subs[..k], now, lim), o, subs[k], now, lim)
  }

  predicate Resumable(c: Core, token: Option<Token>, now: Time) {
    token.Some? && exists s :: s in c.sess && c.sess[s].token == token.value && Live(c.sess[s], now)
  }

  /** The IP that a new session counts against: none for a privileged one. */
  function CountedIp(req: SessionRequest): Ip {
    if req.privilegedKey then "" else req.ip
  }

  /** `v` is what making room among the IP's sessions removes: nothing, or its longest detached. */
  ghost predicate MakesRoom(sess: map<Sid, Session>, ip: Ip, v: set<Sid>, lim: Limits) {
    if ip == "" || |SessionsOf(sess, ip)| < lim.perIp then v == {}
    else exists o :: v == {o} && OldestOf(sess, ip, o)
  }

  ghost predicate OldestOf(sess: map<Sid, Session>, ip: Ip, o: Sid) {
    && o in SessionsOf(sess, ip) && sess[o].since.Some?
    && forall s :: s in SessionsOf(sess, ip) && sess[s].since.Some? ==> sess[o].since.value <= sess[s].since.value
  }

  function DetachPrevious(c: Core, p: Option<Sid>, now: Time): Core
    requires p.Some? ==> p.value in c.sess && p.value in c.logs
  {
    if p.None? then c else DetachOne(c, p.value, now)
  }

  function NewSession(c: Core, req: SessionRequest): Core {
    c.(sess := c.sess[c.nextSid := Session(req.drawn, req.privilegedKey, CountedIp(req), Some(req.conn), None, req.bodyMax, {})],
       logs := c.logs[c.nextSid := EmptyLog],
       nextSid := c.nextSid + 1,
       started := c.started + {req.conn})
  }

  /** The resumed session as the resume leaves it: its token rotated, its replay the one that counts. */
  function Rotated(c: Core, s: Sid, req: SessionRequest): Core
    requires s in c.sess && s in c.logs
  {
    c.(sess := c.sess[s := c.sess[s].(token := req.drawn, bodyMax := req.bodyMax)],
       logs := c.logs[s := c.logs[s].(replayId := c.nextReplay)],
       nextReplay := c.nextReplay + 1)
  }

  function Reported(c: Core, s: Sid): Core
    requires s in c.sess
  {
    c.(sess := c.sess[s := c.sess[s].(ended := {})])
  }

  ghost predicate StartStep(c: Core, req: SessionRequest, out: Outcome, now: Time, lim: Limits, c': Core)
    requires out.Started?
  {
    && req.conn !in c.closed && req.conn !in c.started && !Resumable(c, req.token, now)
    && out.sid == c.nextSid
    && MakesRoom(c.sess, CountedIp(req), out.madeRoom, lim)
    && BoundElsewhere(c.sess, req.conn, None, out.previous)
    && var c1 := RemoveSessions(c, out.madeRoom);
    && (out.previous.Some? ==> out.previous.value in c1.sess && out.previous.value in c1.logs)
    && var c2 := DetachPrevious(c1, out.previous, now);
    && EvictsOldest(c2, out.evicted, lim)
    && var c3 := RemoveSessions(c2, out.evicted);
    && !HasToken(c3.sess, req.drawn)
    && c' == NewSession(c3, req)
  }

  ghost predicate ResumeStep(c: Core, req: SessionRequest, out: Outcome, now: Time, lim: Limits, c': Core)
    requires out.Resumed?
  {
    && req.conn !in c.closed
    && out.sid in c.sess && out.sid in c.logs && req.token == Some(c.sess[out.sid].token) && Live(c.sess[out.sid], now)
    && out.ended == c.sess[out.sid].ended && out.replay == c.nextReplay
    && BoundElsewhere(c.sess, req.conn, Some(out.sid), out.previous)
    && var c1 := Reported(BindOne(c, out.sid, req.conn), out.sid);
    && (out.previous.Some? ==> out.previous.value in c1.sess && out.previous.value in c1.logs)
    && var c2 := DetachPrevious(c1, out.previous, now);
    && EvictsOldest(c2, out.evicted, lim)
    && var c3 := RemoveSessions(c2, out.evicted);
    && out.sid in c3.sess && out.sid in c3.logs
    && !HasToken(c3.sess, req.drawn)
    && c' == Rotated(c3, out.sid, req)
  }

  ghost predicate OpenStep(c: Core, req: SessionRequest, out: Outcome, now: Time, lim: Limits, c': Core) {
    match out
    case Ignored => req.conn in c.closed && c' == c
    case AlreadyStarted =>
      req.conn !in c.closed && !Resumable(c, req.token, now) && req.conn in c.started && c' == c
    case TooManySessions =>
      && req.conn !in c.closed && !Resumable(c, req.token, now) && req.conn !in c.started
      && CountedIp(req) != "" && |SessionsOf(c.sess, CountedIp(req))| >= lim.perIp
      && (forall s :: s in SessionsOf(c.sess, CountedIp(req)) ==> c.sess[s].since.None?)
      && c' == c
    case Started(_, _, _, _) => StartStep(c, req, out, now, lim, c')
    case Resumed(_, _, _, _, _) => ResumeStep(c, req, out, now, lim, c')
  }

  function MarkClosed(c: Core, x: Conn, now: Time): Core {
    c.(closed := if x in c.closed then c.closed else c.closed[x := now], started := c.started - {x})
  }

  ghost predicate CloseStep(c: Core, x: Conn, bound: Option<Sid>, v: set<Sid>, now: Time, lim: Limits, c': Core) {
    && BoundElsewhere(c.sess, x, None, bound)
    && var c1 := MarkClosed(c, x, now);
    && (bound.Some? ==> bound.value in c1.sess && bound.value in c1.logs)
    && var c2 := DetachPrevious(c1, bound, now);
    && EvictsOldest(c2, v, lim)
    && var c3 := RemoveSessions(c2, v);
    && c' == EraseMons(c3, OwnedBy(c3.mons, OfConn(x)))
  }

  function PruneAll(c: Core, now: Time): map<Sid, Log>
    requires c.logs.Keys == c.sess.Keys
  {
    map s | s in c.logs :: if c.sess[s].conn.Some? then Pruned(c.logs[s], now) else c.logs[s]
  }

  function ForgetClosed(closed: map<Conn, Time>, now: Time): map<Conn, Time> {
    map x | x in closed && now <= closed[x] + CLOSED_CONN_MEMORY :: closed[x]
  }

  /** Of `accounts`, those that a session without a connection watches. */
  function Unreported(c: Core, s: Sid, accounts: set<Account>): set<Account>
    requires s in c.sess
  {
    if c.sess[s].conn.Some? then {} else AccountsOf(c.mons, OfSession(s)) * accounts
  }

  function EndAccounts(c: Core, accounts: set<Account>): Core {
    c.(mons := map m | m in c.mons && c.mons[m].account !in accounts :: c.mons[m],
       sess := map s | s in c.sess :: c.sess[s].(ended := c.sess[s].ended + Unreported(c, s, accounts)))
  }

  /** The monitors that match a message: of its account and namespace, and not expired, unless its
      owner has no connection to renew it on. */
  predicate Matches(c: Core, m: nat, account: Account, ns: Namespace, now: Time)
    requires m in c.mons
  {
    var mon := c.mons[m];
    && mon.account == account && ns in mon.namespaces
    && !(Destination(c.sess, mon.owner).Some? && mon.expiry < now)
  }

  function MatchedFor(c: Core, s: Sid, account: Account, ns: Namespace, now: Time): set<nat> {
    set m | m in c.mons && c.mons[m].owner == OfSession(s) && Matches(c, m, account, ns, now)
  }

  predicate WantsData(mons: map<nat, Monitor>, ms: set<nat>) {
    exists m :: m in ms && m in mons && mons[m].wantData
  }

  function NotifiedLogs(c: Core, account: Account, ns: Namespace, id: int, now: Time): map<Sid, Log>
    requires c.logs.Keys == c.sess.Keys
  {
    map s | s in c.logs ::
      var ms := MatchedFor(c, s, account, ns, now);
      if ms == {} then c.logs[s]
      else Remembered(c.logs[s], c.sess[s].conn.Some?, now, Msg(account, ns, id, WantsData(c.mons, ms)))
  }

  /** The starts of the listed pairs raised to the listed ids. */
  function Raised(l: Log, starts: map<(Account, Namespace), int>): Log {
    l.(missed := map k | k in l.missed ::
         if k.0 < |l.keys| && (l.keys[k.0], k.1) in starts && l.missed[k].id < starts[(l.keys[k.0], k.1)]
         then l.missed[k].(id := starts[(l.keys[k.0], k.1)]) else l.missed[k])
  }

  /** The session is on the replay's connection, and has not been resumed since. */
  predicate Current(c: Core, s: Sid, x: Conn, replay: nat) {
    s in c.sess && s in c.logs && c.sess[s].conn == Some(x) && c.logs[s].replayId == replay
  }

  function SentOf(rows: seq<int>, start: int): (r: seq<int>)
    ensures forall i :: 0 <= i < |r| ==> r[i] in rows && start <= r[i]
    ensures forall x :: x in rows && start <= x ==> x in r
  {
    if rows == [] then []
    else
      var k := |rows| - 1;
      if rows[k] < start then SentOf(rows[..k], start) else SentOf(rows[..k], start) + [rows[k]]
  }

  function AsRecent(ids: seq<int>, k: (nat, Namespace), wantData: bool, now: Time): (r: seq<Recent>)
    ensures |r| == |ids|
    ensures forall i :: 0 <= i < |r| ==> r[i] == Recent(now, ids[i], k.0, k.1, wantData)
  {
    seq(|ids|, i requires 0 <= i < |ids| => Recent(now, ids[i], k.0, k.1, wantData))
  }

  /** A replay chunk's second half: what it took goes into the recent log in the same step as the
      pair's start moves past it. */
  function Advanced(l: Log, k: (nat, Namespace), from: MissedFrom, rows: seq<int>, now: Time): Log
    requires k in l.missed
  {
    l.(recent := l.recent + AsRecent(SentOf(rows, l.missed[k].id), k, from.wantData, now),
       missed := if |rows| < REPLAY_CHUNK then l.missed - {k}
                 else l.missed[k := l.missed[k].(id := rows[|rows| - 1] + 1)])
  }

  function AfterCut(c: Core, s: Sid, starts: map<(Account, Namespace), int>): Core {
    if s in c.logs then c.(logs := c.logs[s := Raised(c.logs[s], starts)]) else c
  }

  function AfterReplayChunk(c: Core, s: Sid, x: Conn, replay: nat, k: (nat, Namespace), from: MissedFrom, rows: seq<int>,
                            now: Time): Core
  {
    if Current(c, s, x, replay) && k in c.logs[s].missed
    then c.(logs := c.logs[s := Advanced(c.logs[s], k, from, rows, now)])
    else c
  }

  ghost predicate Next(c: Core, e: Event, lim: Limits, c': Core) {
    match e
    case Subscribe(x, subs, o, now) =>
      if x in c.closed then c' == c else OwnerFor(c.sess, x, o) && c' == SubscribeAll(c, o, subs, now, lim)
    case OpenSession(req, out, now) => OpenStep(c, req, out, now, lim, c')
    case Close(x, bound, v, now) => CloseStep(c, x, bound, v, now, lim, c')
    case Housekeep(now) =>
      c.logs.Keys == c.sess.Keys && c' == c.(closed := ForgetClosed(c.closed, now), logs := PruneAll(c, now))
    case EndSessions(v, now) =>
      (forall s :: s in v ==> s in c.sess && !Live(c.sess[s], now)) && c' == RemoveSessions(c, v)
    case Expire(e, now) =>
      && (forall m :: m in e ==> m in c.mons && c.mons[m].expiry < now && Destination(c.sess, c.mons[m].owner).Some?)
      && c' == EraseMons(c, e)
    case Foreign(accounts) => c' == EndAccounts(c, accounts)
    case Notify(account, ns, id, now) =>
      c.logs.Keys == c.sess.Keys && c' == c.(logs := NotifiedLogs(c, account, ns, id, now))
    case CutReplay(s, starts) => c' == AfterCut(c, s, starts)
    case ReplayChunk(s, x, replay, k, from, rows, now) => c' == AfterReplayChunk(c, s, x, replay, k, from, rows, now)
  }
}

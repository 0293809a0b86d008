/** At-least-once delivery: in every interleaving of notifications, reconnections, prunes, sweeps, resumes'
    limits and replay chunks with the message table changing underneath, a notification matched for a session
    stays covered by the session's recent log or by a missed start, unless it is pruned, or reported as cut, or
    passed over by a limit that comes after its resume is over: because the start was lowered since the limit
    read it, or the row stored since the limit counted. */
module NoLoss {
  import opened MonitorTypes
  import opened SessionLog
  import opened MonitorCore
  import opened CoreInvariants
  import opened MessageTable

  // ---- The protocol with its replays in flight

  type Pair = (Account, Namespace)

  /** How far a resume has got: with a replay's current chunk, or with the limit that comes before its replay.
      Working out the limit has read the starts `from`, and for some of the pairs found where they are to start
      instead and which rows that cuts, which it reports the number of. */
  datatype Phase =
    | Idle
    | Taken(account: Account, key: (nat, Namespace), from: MissedFrom)
    | Looked(account: Account, key: (nat, Namespace), from: MissedFrom, rows: seq<int>)
    | Limiting(starting: map<Pair, int>, starts: map<Pair, int>, counted: map<Pair, set<int>>)

  datatype Flight = Flight(sid: Sid, conn: Conn, phase: Phase)

  /** `owed` records, for each session, the matched notifications that must not be lost. */
  datatype Sys = Sys(core: Core, db: seq<Row>, flights: map<nat, Flight>, owed: map<Sid, set<Msg>>)

  datatype SysEvent =
    | Act(e: Event)
    | TakePair(replay: nat, key: (nat, Namespace))
    | LookUp(replay: nat)
    | ApplyChunk(replay: nat, now: Time)
    | ReadStarts(replay: nat, starting: map<Pair, int>)
    | CountPair(replay: nat, pair: Pair, cutoff: int)
    | RaiseStarts(replay: nat)
    | Abandon(replay: nat)
    | StoreRow(row: Row)
    | DeleteRow(id: int)

  /** Pruned: it was sent through the connection, which the session has kept, longer ago than the window
      every time that it was. */
  ghost predicate PrunedAway(l: Log, m: Msg, now: Time) {
    InRecent(l, m) && forall i :: 0 <= i < |l.recent| && Sends(l, l.recent[i], m) ==> l.recent[i].sent + RECENT_WINDOW < now
  }

  /** Cut: only a missed start covers it, and the start is raised past it. */
  ghost predicate CutOff(l: Log, m: Msg, starts: map<Pair, int>) {
    !InRecent(l, m) && (m.account, m.ns) in starts && m.id < starts[(m.account, m.ns)]
  }

  /** What the step gives up, for session `s`: what is pruned from a bound session's log, and what a
      resume's limit cuts. */
  ghost predicate GivesUp(c: Core, e: Event, s: Sid, m: Msg) {
    s in c.sess && s in c.logs &&
    match e
    case Housekeep(now) => c.sess[s].conn.Some? && PrunedAway(c.logs[s], m, now)
    case CutReplay(x, starts) => x == s && CutOff(c.logs[s], m, starts)
    case _ => false
  }

  /** The notification that the step matches for session `s`. */
  ghost predicate MatchedBy(c: Core, e: Event, s: Sid, m: Msg) {
    && e.Notify? && m.account == e.account && m.ns == e.ns && m.id == e.id
    && MatchedFor(c, s, e.account, e.ns, e.now) != {}
    && m.wantData == WantsData(c.mons, MatchedFor(c, s, e.account, e.ns, e.now))
  }

  ghost function OwedAfter(y: Sys, e: Event, c': Core): map<Sid, set<Msg>> {
    map s | s in c'.sess ::
      (set m | m in (if s in y.owed then y.owed[s] else {}) && !GivesUp(y.core, e, s, m)) +
      if e.Notify? then
        (set m | m in {Msg(e.account, e.ns, e.id, true), Msg(e.account, e.ns, e.id, false)}
                 && MatchedBy(y.core, e, s, m) && StoredIn(y.db, m))
      else {}
  }

  function FlightsAfter(flights: map<nat, Flight>, e: Event): map<nat, Flight> {
    if e.OpenSession? && e.out.Resumed? then flights[e.out.replay := Flight(e.out.sid, e.req.conn, Idle)]
    else flights
  }

  ghost predicate Flying(y: Sys, r: nat) {
    r in y.flights && Current(y.core, y.flights[r].sid, y.flights[r].conn, r)
  }

  function WithPhase(y: Sys, r: nat, p: Phase): Sys
    requires r in y.flights
  {
    y.(flights := y.flights[r := y.flights[r].(phase := p)])
  }

  ghost predicate ActStep(y: Sys, e: Event, lim: Limits, y': Sys) {
    && !e.ReplayChunk? && Next(y.core, e, lim, y'.core)
    && y' == Sys(y'.core, y.db, FlightsAfter(y.flights, e), OwedAfter(y, e, y'.core))
  }

  /** `starting` are the log's starts. */
  ghost predicate IsSnapshot(l: Log, starting: map<Pair, int>) {
    && (forall p :: p in starting <==> p.0 in l.index && (l.index[p.0], p.1) in l.missed)
    && (forall p :: p in starting ==> starting[p] == l.missed[(l.index[p.0], p.1)].id)
  }

  /** The pair's rows from `from` on and below `cutoff`. */
  function RowsBetween(db: seq<Row>, p: Pair, from: int, cutoff: int): set<int> {
    set id | id in IdsFrom(db, p.0, p.1, from) && id < cutoff
  }

  function CountedPair(p: Phase, db: seq<Row>, pair: Pair, cutoff: int): Phase
    requires p.Limiting? && pair in p.starting
  {
    p.(starts := p.starts[pair := cutoff], counted := p.counted[pair := RowsBetween(db, pair, p.starting[pair], cutoff)])
  }

  ghost predicate TakeStep(y: Sys, r: nat, k: (nat, Namespace), y': Sys) {
    && Flying(y, r) && y.flights[r].phase.Idle?
    && var l := y.core.logs[y.flights[r].sid];
    && k in l.missed && k.0 < |l.keys|
    && y' == WithPhase(y, r, Taken(l.keys[k.0], k, l.missed[k]))
  }

  ghost predicate LookStep(y: Sys, r: nat, y': Sys) {
    && r in y.flights && y.flights[r].phase.Taken?
    && var p := y.flights[r].phase;
    && y' == WithPhase(y, r, Looked(p.account, p.key, p.from, Lookup(y.db, p.account, p.key.1, p.from.id, REPLAY_CHUNK)))
  }

  /** The step ReplayChunk of the tables. */
  ghost predicate ApplyStep(y: Sys, r: nat, now: Time, y': Sys) {
    && r in y.flights && y.flights[r].phase.Looked?
    && var f := y.flights[r];
    && var c' := AfterReplayChunk(y.core, f.sid, f.conn, r, f.phase.key, f.phase.from, f.phase.rows, now);
    && y' == WithPhase(y, r, Idle).(core := c')
  }

  ghost predicate ReadStep(y: Sys, r: nat, starting: map<Pair, int>, y': Sys) {
    && r in y.flights && y.flights[r].phase.Idle? && y.flights[r].sid in y.core.logs
    && IsSnapshot(y.core.logs[y.flights[r].sid], starting)
    && y' == WithPhase(y, r, Limiting(starting, map[], map[]))
  }

  ghost predicate CountStep(y: Sys, r: nat, p: Pair, cutoff: int, y': Sys) {
    && r in y.flights && y.flights[r].phase.Limiting?
    && p in y.flights[r].phase.starting && y.flights[r].phase.starting[p] < cutoff
    && y' == WithPhase(y, r, CountedPair(y.flights[r].phase, y.db, p, cutoff))
  }

  /** The step CutReplay of the tables. */
  ghost predicate RaiseStep(y: Sys, r: nat, y': Sys) {
    r in y.flights && y.flights[r].phase.Limiting? && y' == WithPhase(AfterRaise(y, r), r, Idle)
  }

  ghost function AfterRaise(y: Sys, r: nat): Sys
    requires r in y.flights && y.flights[r].phase.Limiting?
  {
    var f := y.flights[r];
    var c' := AfterCut(y.core, f.sid, f.phase.starts);
    Sys(c', y.db, y.flights, OwedAfter(y, RaiseBy(f), c'))
  }

  ghost predicate StoreStep(y: Sys, row: Row, y': Sys) {
    (forall i :: 0 <= i < |y.db| ==> y.db[i].id < row.id) && y' == y.(db := y.db + [row])
  }

  function AfterDelete(y: Sys, id: int): Sys {
    y.(db := Without(y.db, id), owed := OwedStored(y.owed, Without(y.db, id)))
  }

  ghost predicate SysNext(y: Sys, a: SysEvent, lim: Limits, y': Sys) {
    match a
    case Act(e) => !e.CutReplay? && ActStep(y, e, lim, y')
    case TakePair(r, k) => TakeStep(y, r, k, y')
    case LookUp(r) => LookStep(y, r, y')
    case ApplyChunk(r, now) => ApplyStep(y, r, now, y')
    case ReadStarts(r, starting) => ReadStep(y, r, starting, y')
    case CountPair(r, p, cutoff) => CountStep(y, r, p, cutoff, y')
    case RaiseStarts(r) => RaiseStep(y, r, y')
    case Abandon(r) => y' == y.(flights := y.flights - {r})
    case StoreRow(row) => StoreStep(y, row, y')
    case DeleteRow(id) => y' == AfterDelete(y, id)
  }

  /** The last step of a resume's limit: whether or not the session still has the connection that asked for it. */
  function RaiseBy(f: Flight): Event
    requires f.phase.Limiting?
  {
    CutReplay(f.sid, f.phase.starts)
  }

  function Without(db: seq<Row>, id: int): (r: seq<Row>)
    ensures forall x :: x in r <==> x in db && x.id != id
  {
    if db == [] then []
    else (if db[0].id == id then [] else [db[0]]) + Without(db[1..], id)
  }

  /** Nothing is owed of a message that is no longer stored. */
  function OwedStored(owed: map<Sid, set<Msg>>, db: seq<Row>): map<Sid, set<Msg>> {
    map s | s in owed :: set m | m in owed[s] && StoredIn(db, m)
  }

  // ---- The invariant

  ghost predicate SessionCovered(db: seq<Row>, l: Log, owed: set<Msg>) {
    forall m :: m in owed ==> StoredIn(db, m) && Covered(l, m)
  }

  ghost predicate AllCovered(y: Sys) {
    && y.owed.Keys == y.core.sess.Keys == y.core.logs.Keys
    && forall s :: s in y.core.sess ==> SessionCovered(y.db, y.core.logs[s], y.owed[s])
  }

  /** What a replay took is not ahead of where the pair's start now is. */
  ghost predicate TakenSound(l: Log, a: Account, k: (nat, Namespace), from: MissedFrom) {
    && k.0 < |l.keys| && l.keys[k.0] == a
    && (k in l.missed ==> from.id <= l.missed[k].id && (l.missed[k].wantData ==> from.wantData))
  }

  /** What a replay found leaves out nothing that only the pair's start covers. */
  ghost predicate FoundAll(l: Log, owed: set<Msg>, a: Account, ns: Namespace, rows: seq<int>) {
    forall m :: m in owed && m.account == a && m.ns == ns && !InRecent(l, m) ==>
      m.id in rows || (|rows| == REPLAY_CHUNK && rows[REPLAY_CHUNK - 1] < m.id)
  }

  /** Everything owed that only a start covers was there for the limit to count, and is counted if it is cut. */
  ghost predicate LimitSound(l: Log, owed: set<Msg>, starting: map<Pair, int>, starts: map<Pair, int>, counted: map<Pair, set<int>>) {
    forall m :: m in owed && !InRecent(l, m) ==> CountsIt(m, starting, starts, counted)
  }

  predicate CountsIt(m: Msg, starting: map<Pair, int>, starts: map<Pair, int>, counted: map<Pair, set<int>>) {
    var p := (m.account, m.ns);
    && p in starting && starting[p] <= m.id
    && (p in starts && m.id < starts[p] ==> p in counted && m.id in counted[p])
  }

  ghost predicate PhaseSound(l: Log, owed: set<Msg>, p: Phase) {
    match p
    case Idle => true
    case Taken(a, k, from) => TakenSound(l, a, k, from)
    case Looked(a, k, from, rows) => TakenSound(l, a, k, from) && FoundAll(l, owed, a, k.1, rows)
    case Limiting(starting, starts, counted) => LimitSound(l, owed, starting, starts, counted)
  }

  ghost predicate FlightsSound(y: Sys) {
    && (forall r :: r in y.flights ==> 0 < r < y.core.nextReplay)
    && forall r :: Flying(y, r) && y.flights[r].sid in y.owed ==>
         PhaseSound(y.core.logs[y.flights[r].sid], y.owed[y.flights[r].sid], y.flights[r].phase)
  }

  ghost predicate SysInv(y: Sys, lim: Limits) {
    Inv(y.core, lim) && Ascending(y.db) && AllCovered(y) && FlightsSound(y)
  }

  // ---- What each kind of step does to one session's log

  /** The steps that add to no log: they leave a session's log alone or fold it. */
  predicate Structural(e: Event) {
    e.Subscribe? || e.OpenSession? || e.Close? || e.EndSessions? || e.Expire? || e.Foreign?
  }

  /** The same but for which replay may advance it. */
  ghost predicate SameTraces(l: Log, l': Log) {
    l' == l.(replayId := l'.replayId)
  }

  lemma SameTracesCover(l: Log, l': Log, m: Msg)
    requires SameTraces(l, l') && Covered(l, m)
    ensures Covered(l', m)
  {
    if InRecent(l, m) {
      var i :| 0 <= i < |l.recent| && Sends(l, l.recent[i], m);
      assert Sends(l', l'.recent[i], m);
    }
  }

  lemma FoldedTracesCover(l: Log, l': Log, m: Msg)
    requires WellFormed(l) && SameTraces(Folded(l), l') && Covered(l, m)
    ensures Covered(l', m)
  {
    FoldedKeeps(l);
  }

  ghost predicate LeftOrFolded(c: Core, c': Core, s: Sid) {
    && s in c.logs && s in c'.logs
    && (SameTraces(c.logs[s], c'.logs[s]) || SameTraces(Folded(c.logs[s]), c'.logs[s]))
  }

  lemma StartLogs(c: Core, req: SessionRequest, out: Outcome, now: Time, lim: Limits, c': Core, s: Sid)
    requires c.logs.Keys == c.sess.Keys && s < c.nextSid && out.Started? && StartStep(c, req, out, now, lim, c') && s in c.sess && s in c'.sess
    ensures LeftOrFolded(c, c', s)
    ensures c'.sess[s].conn.Some? ==> c'.sess[s].conn == c.sess[s].conn && c'.logs[s] == c.logs[s]
  {
  }

  lemma ResumeLogs(c: Core, req: SessionRequest, out: Outcome, now: Time, lim: Limits, c': Core, s: Sid)
    requires c.logs.Keys == c.sess.Keys && out.Resumed? && ResumeStep(c, req, out, now, lim, c') && s in c.sess && s in c'.sess
    ensures LeftOrFolded(c, c', s)
    ensures s != out.sid && c'.sess[s].conn.Some? ==> c'.sess[s].conn == c.sess[s].conn && c'.logs[s] == c.logs[s]
    ensures s == out.sid ==> c'.logs[s].replayId == c.nextReplay
  {
  }

  lemma CloseLogs(c: Core, x: Conn, bound: Option<Sid>, v: set<Sid>, now: Time, lim: Limits, c': Core, s: Sid)
    requires LogsSound(c) && CloseStep(c, x, bound, v, now, lim, c') && s in c.sess && s in c'.sess
    ensures LeftOrFolded(c, c', s)
    ensures c'.sess[s].conn.Some? ==> c'.sess[s].conn == c.sess[s].conn && c'.logs[s] == c.logs[s]
  {
  }

  /** A structural step leaves a log alone or folds it; and one that an earlier replay may still advance
      it leaves alone, bound as it was. */
  lemma StructuralLogs(c: Core, e: Event, lim: Limits, c': Core, s: Sid)
    requires LogsSound(c) && OwnersStored(c) && Structural(e) && Next(c, e, lim, c') && s in c.sess && s in c'.sess
    ensures LeftOrFolded(c, c', s)
    ensures c'.sess[s].conn.Some? && c'.logs[s].replayId < c.nextReplay ==>
      c'.sess[s].conn == c.sess[s].conn && c'.logs[s] == c.logs[s]
  {
    match e
    case Subscribe(x, subs, o, now) => SubscribeFrame(c, o, subs, now, lim);
    case OpenSession(req, out, now) =>
      if out.Started? { StartLogs(c, req, out, now, lim, c', s); }
      if out.Resumed? { ResumeLogs(c, req, out, now, lim, c', s); }
    case Close(x, bound, v, now) => CloseLogs(c, x, bound, v, now, lim, c', s);
    case _ =>
  }

  /** What is not pruned away keeps its place: in the recent log, or else under a start. */
  lemma PrunedCovers(l: Log, now: Time, m: Msg)
    requires WellFormed(l) && !PrunedAway(l, m, now)
    ensures InRecent(l, m) ==> InRecent(Pruned(l, now), m)
    ensures InMissed(l, m) ==> InMissed(Pruned(l, now), m)
  {
    if InRecent(l, m) {
      var n := KeptFrom(l.recent, now);
      var i :| 0 <= i < |l.recent| && Sends(l, l.recent[i], m) && now <= l.recent[i].sent + RECENT_WINDOW;
      assert n <= i;
      assert Sends(Pruned(l, now), Pruned(l, now).recent[i - n], m);
    }
  }

  lemma RaisedCovers(l: Log, starts: map<(Account, Namespace), int>, m: Msg)
    requires WellFormed(l) && Covered(l, m) && !CutOff(l, m, starts)
    ensures Covered(Raised(l, starts), m)
  {
    var l' := Raised(l, starts);
    if InRecent(l, m) {
      var i :| 0 <= i < |l.recent| && Sends(l, l.recent[i], m);
      assert Sends(l', l'.recent[i], m);
    } else {
      assert InMissed(l', m);
    }
  }

  /** A chunk that found all that the start covers moves the start past nothing that it does not send. */
  lemma AdvancedCovers(l: Log, owed: set<Msg>, a: Account, k: (nat, Namespace), from: MissedFrom, rows: seq<int>,
                       now: Time, m: Msg)
    requires WellFormed(l) && k in l.missed && TakenSound(l, a, k, from) && FoundAll(l, owed, a, k.1, rows)
    requires m in owed && Covered(l, m)
    ensures Covered(Advanced(l, k, from, rows, now), m)
  {
    var l' := Advanced(l, k, from, rows, now);
    if InRecent(l, m) {
      var i :| 0 <= i < |l.recent| && Sends(l, l.recent[i], m);
      assert Sends(l', l'.recent[i], m);
    } else if m.account != a || m.ns != k.1 {
      assert InMissed(l', m);
    } else {
      assert k == (l.index[m.account], m.ns);
      if m.id in rows {
        var ids := SentOf(rows, l.missed[k].id);
        var j :| 0 <= j < |ids| && ids[j] == m.id;
        assert Sends(l', l'.recent[|l.recent| + j], m);
      } else {
        assert InMissed(l', m);
      }
    }
  }

  // ---- Coverage is kept

  /** Whatever the step, what a session is owed and does not give up stays covered. */
  lemma StepCovers(c: Core, e: Event, lim: Limits, c': Core, s: Sid, m: Msg)
    requires LogsSound(c) && OwnersStored(c) && !e.ReplayChunk? && Next(c, e, lim, c')
    requires s in c.sess && s in c'.sess && s in c'.logs && Covered(c.logs[s], m) && !GivesUp(c, e, s, m)
    ensures Covered(c'.logs[s], m)
  {
    var l := c.logs[s];
    assert LogSound(l, c.sess[s], c.nextReplay);
    if Structural(e) {
      StructuralLogs(c, e, lim, c', s);
      if SameTraces(l, c'.logs[s]) { SameTracesCover(l, c'.logs[s], m); } else { FoldedTracesCover(l, c'.logs[s], m); }
    } else if e.Housekeep? {
      if c.sess[s].conn.Some? { PrunedCovers(l, e.now, m); }
    } else if e.Notify? {
      NotifyCovers(c, s, e.account, e.ns, e.id, e.now, m);
    } else if e.sid == s {
      RaisedCovers(l, e.starts, m);
    }
  }

  lemma NotifyCovers(c: Core, s: Sid, a: Account, ns: Namespace, id: int, now: Time, m: Msg)
    requires LogsSound(c) && s in c.sess && Covered(c.logs[s], m)
    ensures s in NotifiedLogs(c, a, ns, id, now) && Covered(NotifiedLogs(c, a, ns, id, now)[s], m)
  {
    var ms := MatchedFor(c, s, a, ns, now);
    assert LogSound(c.logs[s], c.sess[s], c.nextReplay);
    RememberedKeeps(c.logs[s], c.sess[s].conn.Some?, now, Msg(a, ns, id, WantsData(c.mons, ms)));
  }

  /** A matched notification is covered from then on: by the recent log of a bound session, by the
      starts of a detached one. */
  lemma MatchCovers(c: Core, e: Event, lim: Limits, c': Core, s: Sid, m: Msg)
    requires LogsSound(c) && Next(c, e, lim, c') && s in c.sess && MatchedBy(c, e, s, m)
    ensures s in c'.logs && (if c.sess[s].conn.Some? then InRecent(c'.logs[s], m) else InMissed(c'.logs[s], m))
  {
    assert LogSound(c.logs[s], c.sess[s], c.nextReplay);
    RememberedKeeps(c.logs[s], c.sess[s].conn.Some?, e.now, m);
  }

  /** An owed notification was owed before and was not given up, or is newly matched. */
  lemma OwedComesFrom(y: Sys, e: Event, c': Core, s: Sid, m: Msg)
    requires y.owed.Keys == y.core.sess.Keys && s in OwedAfter(y, e, c') && m in OwedAfter(y, e, c')[s]
    ensures (s in y.core.sess && m in y.owed[s] && !GivesUp(y.core, e, s, m))
         || (MatchedBy(y.core, e, s, m) && StoredIn(y.db, m))
  {
  }

  lemma MatchedIsStored(c: Core, e: Event, s: Sid, m: Msg)
    requires OwnersStored(c) && MatchedBy(c, e, s, m)
    ensures s in c.sess
  {
    var x :| x in MatchedFor(c, s, e.account, e.ns, e.now);
  }

  lemma ActCovers(y: Sys, e: Event, lim: Limits, c': Core, s: Sid, m: Msg)
    requires LogsSound(y.core) && OwnersStored(y.core) && y.owed.Keys == y.core.sess.Keys && c'.logs.Keys == c'.sess.Keys
    requires !e.ReplayChunk? && Next(y.core, e, lim, c') && s in c'.sess
    requires s in y.core.sess && m in y.owed[s] ==> Covered(y.core.logs[s], m)
    requires (s in y.core.sess && m in y.owed[s] && !GivesUp(y.core, e, s, m)) || MatchedBy(y.core, e, s, m)
    ensures Covered(c'.logs[s], m)
  {
    if s in y.core.sess && m in y.owed[s] && !GivesUp(y.core, e, s, m) {
      StepCovers(y.core, e, lim, c', s, m);
    } else {
      MatchedIsStored(y.core, e, s, m);
      MatchCovers(y.core, e, lim, c', s, m);
    }
  }

  lemma ActCoversSession(y: Sys, e: Event, lim: Limits, c': Core, s: Sid)
    requires LogsSound(y.core) && OwnersStored(y.core) && y.owed.Keys == y.core.sess.Keys && c'.logs.Keys == c'.sess.Keys
    requires !e.ReplayChunk? && Next(y.core, e, lim, c') && s in c'.sess
    requires s in y.core.sess ==> SessionCovered(y.db, y.core.logs[s], y.owed[s])
    ensures SessionCovered(y.db, c'.logs[s], OwedAfter(y, e, c')[s])
  {
    forall m | m in OwedAfter(y, e, c')[s] ensures StoredIn(y.db, m) && Covered(c'.logs[s], m) {
      OwedComesFrom(y, e, c', s, m);
      ActCovers(y, e, lim, c', s, m);
    }
  }

  lemma ActKeepsCovered(y: Sys, e: Event, lim: Limits, y': Sys)
    requires LogsSound(y.core) && y'.core.logs.Keys == y'.core.sess.Keys && OwnersStored(y.core) && AllCovered(y)
    requires ActStep(y, e, lim, y')
    ensures AllCovered(y')
  {
    forall s | s in y'.core.sess ensures SessionCovered(y'.db, y'.core.logs[s], y'.owed[s]) {
      ActCoversSession(y, e, lim, y'.core, s);
    }
  }

  lemma ApplyCovers(db: seq<Row>, l: Log, owed: set<Msg>, p: Phase, now: Time)
    requires WellFormed(l) && p.Looked? && p.key in l.missed && PhaseSound(l, owed, p)
    requires SessionCovered(db, l, owed)
    ensures SessionCovered(db, Advanced(l, p.key, p.from, p.rows, now), owed)
  {
    forall m | m in owed ensures Covered(Advanced(l, p.key, p.from, p.rows, now), m) {
      AdvancedCovers(l, owed, p.account, p.key, p.from, p.rows, now, m);
    }
  }

  lemma ApplyKeepsCovered(y: Sys, r: nat, now: Time, y': Sys)
    requires LogsSound(y.core) && AllCovered(y) && FlightsSound(y) && ApplyStep(y, r, now, y')
    ensures AllCovered(y')
  {
    var f := y.flights[r];
    forall s | s in y'.core.sess ensures SessionCovered(y'.db, y'.core.logs[s], y'.owed[s]) {
      assert SessionCovered(y.db, y.core.logs[s], y.owed[s]);
      if s == f.sid && Flying(y, r) && f.phase.key in y.core.logs[s].missed {
        assert LogSound(y.core.logs[s], y.core.sess[s], y.core.nextReplay);
        ApplyCovers(y.db, y.core.logs[s], y.owed[s], f.phase, now);
      }
    }
  }

  lemma {:induction false} WithoutKeepsAscending(db: seq<Row>, id: int)
    requires Ascending(db)
    ensures Ascending(Without(db, id))
  {
    if db != [] {
      WithoutKeepsAscending(db[1..], id);
      var rest := Without(db[1..], id);
      forall j | 0 <= j < |rest| ensures db[0].id < rest[j].id {
        assert rest[j] in db[1..];
      }
    }
  }

  // ---- Flights stay sound

  /** While its replay stays current, a session's log may only gain recent entries and raise starts, and
      be owed nothing more that is not in the recent log. */
  ghost predicate Benign(l: Log, owed: set<Msg>, l': Log, owed': set<Msg>) {
    && l.keys <= l'.keys
    && (forall k :: k in l'.missed ==>
          k in l.missed && l.missed[k].id <= l'.missed[k].id && (l'.missed[k].wantData ==> l.missed[k].wantData))
    && (forall m :: m in owed' && !InRecent(l', m) ==> m in owed && !InRecent(l, m))
  }

  lemma BenignKeepsPhase(l: Log, owed: set<Msg>, l': Log, owed': set<Msg>, p: Phase)
    requires PhaseSound(l, owed, p) && Benign(l, owed, l', owed')
    ensures PhaseSound(l', owed', p)
  {
  }

  lemma PrunedIsBenign(l: Log, owed: set<Msg>, now: Time, owed': set<Msg>)
    requires WellFormed(l)
    requires forall m :: m in owed' ==> m in owed && !PrunedAway(l, m, now)
    ensures Benign(l, owed, Pruned(l, now), owed')
  {
    forall m | m in owed' && !InRecent(Pruned(l, now), m) ensures !InRecent(l, m) {
      PrunedCovers(l, now, m);
    }
  }

  lemma RaisedIsBenign(l: Log, owed: set<Msg>, starts: map<(Account, Namespace), int>, owed': set<Msg>)
    requires owed' <= owed
    ensures Benign(l, owed, Raised(l, starts), owed')
  {
    var l' := Raised(l, starts);
    forall m | m in owed' ensures InRecent(l, m) ==> InRecent(l', m) {
      RaisedKeepsRecent(l, starts, m);
    }
  }

  lemma RaisedKeepsRecent(l: Log, starts: map<(Account, Namespace), int>, m: Msg)
    ensures InRecent(l, m) ==> InRecent(Raised(l, starts), m)
  {
    if InRecent(l, m) {
      var i :| 0 <= i < |l.recent| && Sends(l, l.recent[i], m);
      assert Sends(Raised(l, starts), Raised(l, starts).recent[i], m);
    }
  }

  lemma RememberedIsBenign(l: Log, owed: set<Msg>, now: Time, m: Msg, owed': set<Msg>)
    requires WellFormed(l) && owed' <= owed + {m}
    ensures Benign(l, owed, Remembered(l, true, now, m), owed')
  {
    RememberedKeeps(l, true, now, m);
  }

  lemma SameIsBenign(l: Log, owed: set<Msg>, owed': set<Msg>)
    requires owed' <= owed
    ensures Benign(l, owed, l, owed')
  {
  }

  /** A replay that is current after a step, and not the one that the step started, was current before it,
      and the step did nothing to its session's log that could make the replay lose anything. */
  lemma ActIsBenign(y: Sys, e: Event, lim: Limits, y': Sys, s: Sid, x: Conn, r: nat)
    requires LogsSound(y.core) && OwnersStored(y.core) && y.owed.Keys == y.core.sess.Keys && ActStep(y, e, lim, y')
    requires Current(y'.core, s, x, r) && 0 < r < y.core.nextReplay
    ensures Current(y.core, s, x, r) && s in y.owed && s in y'.owed
    ensures Benign(y.core.logs[s], y.owed[s], y'.core.logs[s], y'.owed[s])
  {
    WasCurrent(y.core, e, lim, y'.core, s, x, r);
    if Structural(e) {
      OwedOnlyShrinks(y, e, y'.core, s);
      SameIsBenign(y.core.logs[s], y.owed[s], OwedAfter(y, e, y'.core)[s]);
    } else {
      QuietIsBenign(y, e, lim, y', s);
    }
  }

  lemma WasCurrent(c: Core, e: Event, lim: Limits, c': Core, s: Sid, x: Conn, r: nat)
    requires LogsSound(c) && OwnersStored(c) && !e.ReplayChunk? && Next(c, e, lim, c')
    requires Current(c', s, x, r) && 0 < r < c.nextReplay
    ensures Current(c, s, x, r) && (Structural(e) ==> c'.logs[s] == c.logs[s])
  {
    if s !in c.sess {
      NewIsUnflown(c, e, lim, c', s);
    } else if Structural(e) {
      StructuralLogs(c, e, lim, c', s);
    }
  }

  lemma QuietIsBenign(y: Sys, e: Event, lim: Limits, y': Sys, s: Sid)
    requires LogsSound(y.core) && y.owed.Keys == y.core.sess.Keys && ActStep(y, e, lim, y') && !Structural(e)
    requires s in y.core.sess && y.core.sess[s].conn.Some? && s in y'.owed && s in y'.core.logs
    ensures Benign(y.core.logs[s], y.owed[s], y'.core.logs[s], y'.owed[s])
  {
    assert LogSound(y.core.logs[s], y.core.sess[s], y.core.nextReplay);
    if e.Notify? {
      NotifyIsBenign(y, e, y', s);
    } else {
      OwedOnlyShrinks(y, e, y'.core, s);
      LogOnlyShrinks(y.core, e, lim, y'.core, s, y.owed[s], y'.owed[s]);
    }
  }

  lemma LogOnlyShrinks(c: Core, e: Event, lim: Limits, c': Core, s: Sid, owed: set<Msg>, owed': set<Msg>)
    requires (e.Housekeep? || e.CutReplay?) && Next(c, e, lim, c')
    requires s in c.sess && c.sess[s].conn.Some? && s in c.logs && s in c'.logs && WellFormed(c.logs[s])
    requires forall m :: m in owed' ==> m in owed && !GivesUp(c, e, s, m)
    ensures Benign(c.logs[s], owed, c'.logs[s], owed')
  {
    if e.Housekeep? {
      PrunedIsBenign(c.logs[s], owed, e.now, owed');
    } else if e.sid == s {
      RaisedIsBenign(c.logs[s], owed, e.starts, owed');
    } else {
      SameIsBenign(c.logs[s], owed, owed');
    }
  }

  lemma OwedOnlyShrinks(y: Sys, e: Event, c': Core, s: Sid)
    requires s in c'.sess && s in y.owed && y.owed.Keys == y.core.sess.Keys
    ensures !e.Notify? ==> forall m :: m in OwedAfter(y, e, c')[s] ==> m in y.owed[s] && !GivesUp(y.core, e, s, m)
  {
  }

  lemma NotifyIsBenign(y: Sys, e: Event, y': Sys, s: Sid)
    requires LogsSound(y.core) && e.Notify? && y.owed.Keys == y.core.sess.Keys && s in y.core.sess && y.core.sess[s].conn.Some?
    requires y'.core == y.core.(logs := NotifiedLogs(y.core, e.account, e.ns, e.id, e.now))
    requires y'.owed == OwedAfter(y, e, y'.core)
    ensures Benign(y.core.logs[s], y.owed[s], y'.core.logs[s], y'.owed[s])
  {
    var l := y.core.logs[s];
    assert LogSound(l, y.core.sess[s], y.core.nextReplay);
    var ms := MatchedFor(y.core, s, e.account, e.ns, e.now);
    var m := Msg(e.account, e.ns, e.id, WantsData(y.core.mons, ms));
    forall n | n in y'.owed[s] ensures n in y.owed[s] || (ms != {} && n == m) {
      OwedComesFrom(y, e, y'.core, s, n);
    }
    if ms == {} {
      SameIsBenign(l, y.owed[s], y'.owed[s]);
    } else {
      RememberedIsBenign(l, y.owed[s], e.now, m, y'.owed[s]);
    }
  }

  /** A session that a step adds starts with no replay. */
  lemma NewIsUnflown(c: Core, e: Event, lim: Limits, c': Core, s: Sid)
    requires OwnersStored(c) && Next(c, e, lim, c') && s in c'.sess && s !in c.sess
    ensures s in c'.logs && c'.logs[s].replayId == 0
  {
    NextKeepsKinds(c, e, lim, c');
  }

  lemma ActKeepsFlights(y: Sys, e: Event, lim: Limits, y': Sys)
    requires LogsSound(y.core) && OwnersStored(y.core) && y.owed.Keys == y.core.sess.Keys && FlightsSound(y)
    requires ActStep(y, e, lim, y')
    ensures FlightsSound(y')
  {
    forall r | r in y'.flights ensures 0 < r < y'.core.nextReplay {
      ReplaysOnlyGrow(y.core, e, lim, y'.core);
    }
    forall r | Flying(y', r) && y'.flights[r].sid in y'.owed
      ensures PhaseSound(y'.core.logs[y'.flights[r].sid], y'.owed[y'.flights[r].sid], y'.flights[r].phase)
    {
      var f := y'.flights[r];
      if f.phase != Idle {
        ActIsBenign(y, e, lim, y', f.sid, f.conn, r);
        BenignKeepsPhase(y.core.logs[f.sid], y.owed[f.sid], y'.core.logs[f.sid], y'.owed[f.sid], f.phase);
      }
    }
  }

  lemma ReplaysOnlyGrow(c: Core, e: Event, lim: Limits, c': Core)
    requires Next(c, e, lim, c')
    ensures c.nextReplay <= c'.nextReplay
    ensures e.OpenSession? && e.out.Resumed? ==> e.out.replay == c.nextReplay && c'.nextReplay == c.nextReplay + 1
  {
    if e.Subscribe? { SubscribeFrame(c, e.owner, e.subs, e.now, lim); }
  }

  /** The same logs and debts keep a flight sound. */
  lemma UnmovedKeepsFlights(y: Sys, y': Sys)
    requires FlightsSound(y) && y'.core == y.core && y'.owed == y.owed
    requires forall r :: r in y'.flights ==> r in y.flights && (y'.flights[r] == y.flights[r] || y'.flights[r].phase == Idle)
    ensures FlightsSound(y')
  {
    forall r | Flying(y', r) && y'.flights[r].sid in y'.owed
      ensures PhaseSound(y'.core.logs[y'.flights[r].sid], y'.owed[y'.flights[r].sid], y'.flights[r].phase)
    {
      if y'.flights[r].phase != Idle { assert Flying(y, r); }
    }
  }

  lemma TakeKeepsFlights(y: Sys, r: nat, k: (nat, Namespace), y': Sys)
    requires FlightsSound(y) && TakeStep(y, r, k, y')
    ensures FlightsSound(y')
  {
    forall q | Flying(y', q) && y'.flights[q].sid in y'.owed
      ensures PhaseSound(y'.core.logs[y'.flights[q].sid], y'.owed[y'.flights[q].sid], y'.flights[q].phase)
    {
      assert Flying(y, q);
    }
  }

  /** What a lookup leaves out of its chunk, the pair's start still covers once moved past the chunk. */
  lemma LookFindsAll(y: Sys, l: Log, owed: set<Msg>, p: Phase)
    requires Ascending(y.db) && WellFormed(l) && p.Taken? && TakenSound(l, p.account, p.key, p.from)
    requires SessionCovered(y.db, l, owed)
    ensures FoundAll(l, owed, p.account, p.key.1, Lookup(y.db, p.account, p.key.1, p.from.id, REPLAY_CHUNK))
  {
    forall m | m in owed && m.account == p.account && m.ns == p.key.1 && !InRecent(l, m)
      ensures var rows := Lookup(y.db, p.account, p.key.1, p.from.id, REPLAY_CHUNK);
        m.id in rows || (|rows| == REPLAY_CHUNK && rows[REPLAY_CHUNK - 1] < m.id)
    {
      assert InMissed(l, m) && p.key == (l.index[m.account], m.ns);
      LookupFinds(y.db, p.account, p.key.1, p.from.id, REPLAY_CHUNK, m.id);
    }
  }

  lemma LookKeepsFlights(y: Sys, r: nat, y': Sys)
    requires LogsSound(y.core) && Ascending(y.db) && AllCovered(y) && FlightsSound(y) && LookStep(y, r, y')
    ensures FlightsSound(y')
  {
    forall q | Flying(y', q) && y'.flights[q].sid in y'.owed
      ensures PhaseSound(y'.core.logs[y'.flights[q].sid], y'.owed[y'.flights[q].sid], y'.flights[q].phase)
    {
      assert Flying(y, q);
      if q == r {
        var s := y.flights[r].sid;
        assert LogSound(y.core.logs[s], y.core.sess[s], y.core.nextReplay);
        LookFindsAll(y, y.core.logs[s], y.owed[s], y.flights[r].phase);
      }
    }
  }

  lemma ReadIsSound(y: Sys, l: Log, owed: set<Msg>, starting: map<Pair, int>)
    requires IsSnapshot(l, starting) && SessionCovered(y.db, l, owed)
    ensures LimitSound(l, owed, starting, map[], map[])
  {
    forall m | m in owed && !InRecent(l, m) ensures CountsIt(m, starting, map[], map[]) {
      assert InMissed(l, m);
    }
  }

  lemma ReadKeepsFlights(y: Sys, r: nat, starting: map<Pair, int>, y': Sys)
    requires AllCovered(y) && FlightsSound(y) && ReadStep(y, r, starting, y')
    ensures FlightsSound(y')
  {
    forall q | Flying(y', q) && y'.flights[q].sid in y'.owed
      ensures PhaseSound(y'.core.logs[y'.flights[q].sid], y'.owed[y'.flights[q].sid], y'.flights[q].phase)
    {
      assert Flying(y, q);
      if q == r {
        var s := y.flights[r].sid;
        ReadIsSound(y, y.core.logs[s], y.owed[s], starting);
      }
    }
  }

  /** What is owed is stored, so that counting the rows below the cutoff counts it. */
  lemma CountIsSound(db: seq<Row>, l: Log, owed: set<Msg>, ph: Phase, p: Pair, cutoff: int)
    requires ph.Limiting? && p in ph.starting && PhaseSound(l, owed, ph) && SessionCovered(db, l, owed)
    ensures PhaseSound(l, owed, CountedPair(ph, db, p, cutoff))
  {
    var ph' := CountedPair(ph, db, p, cutoff);
    forall m | m in owed && !InRecent(l, m) ensures CountsIt(m, ph'.starting, ph'.starts, ph'.counted) {
      assert CountsIt(m, ph.starting, ph.starts, ph.counted);
      IdsFromMembers(db, m.account, m.ns, ph.starting[(m.account, m.ns)], m.id);
    }
  }

  lemma CountKeepsFlights(y: Sys, r: nat, p: Pair, cutoff: int, y': Sys)
    requires AllCovered(y) && FlightsSound(y) && CountStep(y, r, p, cutoff, y')
    ensures FlightsSound(y')
  {
    forall q | Flying(y', q) && y'.flights[q].sid in y'.owed
      ensures PhaseSound(y'.core.logs[y'.flights[q].sid], y'.owed[y'.flights[q].sid], y'.flights[q].phase)
    {
      assert Flying(y, q);
      if q == r {
        var s := y.flights[r].sid;
        CountIsSound(y.db, y.core.logs[s], y.owed[s], y.flights[r].phase, p, cutoff);
      }
    }
  }

  lemma RaiseIsAct(y: Sys, r: nat, lim: Limits)
    requires r in y.flights && y.flights[r].phase.Limiting?
    ensures ActStep(y, RaiseBy(y.flights[r]), lim, AfterRaise(y, r))
  {
  }

  lemma RaiseKeeps(y: Sys, r: nat, lim: Limits, y': Sys)
    requires LogsSound(y.core) && y'.core.logs.Keys == y'.core.sess.Keys && OwnersStored(y.core)
    requires ReplaysSound(y) && RaiseStep(y, r, y')
    ensures ReplaysSound(y')
  {
    RaiseIsAct(y, r, lim);
    ActKeepsReplays(y, RaiseBy(y.flights[r]), lim, AfterRaise(y, r));
    UnmovedKeepsFlights(AfterRaise(y, r), y');
  }

  lemma ActKeepsReplays(y: Sys, e: Event, lim: Limits, y': Sys)
    requires LogsSound(y.core) && y'.core.logs.Keys == y'.core.sess.Keys && OwnersStored(y.core)
    requires ReplaysSound(y) && ActStep(y, e, lim, y')
    ensures ReplaysSound(y')
  {
    ActKeepsCovered(y, e, lim, y');
    ActKeepsFlights(y, e, lim, y');
  }

  /** A chunk is applied only by the session's one current replay, so no other flight sees its log move. */
  lemma ApplyKeepsFlights(y: Sys, r: nat, now: Time, y': Sys)
    requires FlightsSound(y) && ApplyStep(y, r, now, y')
    ensures FlightsSound(y')
  {
    forall q | Flying(y', q) && y'.flights[q].sid in y'.owed
      ensures PhaseSound(y'.core.logs[y'.flights[q].sid], y'.owed[y'.flights[q].sid], y'.flights[q].phase)
    {
      if q != r {
        assert Flying(y, q);
        assert y'.core.logs[y'.flights[q].sid] == y.core.logs[y'.flights[q].sid];
      }
    }
  }

  lemma DeleteKeeps(y: Sys, id: int, y': Sys)
    requires AllCovered(y) && FlightsSound(y) && y' == AfterDelete(y, id)
    ensures AllCovered(y') && FlightsSound(y')
  {
    forall r | Flying(y', r) && y'.flights[r].sid in y'.owed
      ensures PhaseSound(y'.core.logs[y'.flights[r].sid], y'.owed[y'.flights[r].sid], y'.flights[r].phase)
    {
      assert Flying(y, r);
    }
  }

  lemma StoreKeeps(y: Sys, row: Row, y': Sys)
    requires Ascending(y.db) && AllCovered(y) && StoreStep(y, row, y')
    ensures Ascending(y'.db) && AllCovered(y')
  {
    forall s | s in y.core.sess ensures SessionCovered(y'.db, y.core.logs[s], y.owed[s]) {
      assert SessionCovered(y.db, y.core.logs[s], y.owed[s]);
    }
  }

  // ---- Every step, and every run

  /** The invariants of the tables are kept by replays too. */
  lemma SysNextKeepsCore(y: Sys, a: SysEvent, lim: Limits, y': Sys)
    requires Inv(y.core, lim) && SysNext(y, a, lim, y') && lim.perIp >= 1
    ensures Inv(y'.core, lim)
  {
    if a.Act? {
      NextKeeps(y.core, a.e, lim, y'.core);
    } else if a.RaiseStarts? {
      NextKeeps(y.core, RaiseBy(y.flights[a.replay]), lim, y'.core);
    } else if a.ApplyChunk? {
      var f := y.flights[a.replay];
      NextKeeps(y.core, ReplayChunk(f.sid, f.conn, a.replay, f.phase.key, f.phase.from, f.phase.rows, a.now), lim, y'.core);
    }
  }

  ghost predicate ReplaysSound(y: Sys) {
    Ascending(y.db) && AllCovered(y) && FlightsSound(y)
  }

  /** The steps of a replay and of a resume's limit that leave the tables alone. */
  lemma FlightKeepsReplays(y: Sys, a: SysEvent, lim: Limits, y': Sys)
    requires LogsSound(y.core) && ReplaysSound(y) && SysNext(y, a, lim, y')
    requires a.TakePair? || a.LookUp? || a.ReadStarts? || a.CountPair? || a.Abandon?
    ensures ReplaysSound(y')
  {
    match a
    case TakePair(r, k) => TakeKeepsFlights(y, r, k, y');
    case LookUp(r) => LookKeepsFlights(y, r, y');
    case ReadStarts(r, starting) => ReadKeepsFlights(y, r, starting, y');
    case CountPair(r, p, cutoff) => CountKeepsFlights(y, r, p, cutoff, y');
    case Abandon(r) => UnmovedKeepsFlights(y, y');
  }

  /** The steps of the message table. */
  lemma TableKeepsReplays(y: Sys, a: SysEvent, lim: Limits, y': Sys)
    requires ReplaysSound(y) && SysNext(y, a, lim, y') && (a.StoreRow? || a.DeleteRow?)
    ensures ReplaysSound(y')
  {
    match a
    case StoreRow(row) => StoreKeeps(y, row, y'); UnmovedKeepsFlights(y, y');
    case DeleteRow(id) => DeleteKeeps(y, id, y'); WithoutKeepsAscending(y.db, id);
  }

  lemma ApplyKeepsReplays(y: Sys, r: nat, now: Time, y': Sys)
    requires LogsSound(y.core) && ReplaysSound(y) && ApplyStep(y, r, now, y')
    ensures ReplaysSound(y')
  {
    ApplyKeepsCovered(y, r, now, y');
    ApplyKeepsFlights(y, r, now, y');
  }

  lemma SysNextKeepsReplays(y: Sys, a: SysEvent, lim: Limits, y': Sys)
    requires LogsSound(y.core) && OwnersStored(y.core) && ReplaysSound(y) && SysNext(y, a, lim, y')
    requires y'.core.logs.Keys == y'.core.sess.Keys
    ensures ReplaysSound(y')
  {
    match a
    case Act(e) => ActKeepsReplays(y, e, lim, y');
    case ApplyChunk(r, now) => ApplyKeepsReplays(y, r, now, y');
    case RaiseStarts(r) => RaiseKeeps(y, r, lim, y');
    case StoreRow(row) => TableKeepsReplays(y, a, lim, y');
    case DeleteRow(id) => TableKeepsReplays(y, a, lim, y');
    case _ => FlightKeepsReplays(y, a, lim, y');
  }

  lemma SysNextKeeps(y: Sys, a: SysEvent, lim: Limits, y': Sys)
    requires SysInv(y, lim) && SysNext(y, a, lim, y') && lim.perIp >= 1
    ensures SysInv(y', lim)
  {
    SysNextKeepsCore(y, a, lim, y');
    SysNextKeepsReplays(y, a, lim, y');
  }

  ghost predicate SysRun(ys: seq<Sys>, as_: seq<SysEvent>, lim: Limits) {
    && |ys| == |as_| + 1 && ys[0] == Sys(Initial, [], map[], map[])
    && forall i :: 0 <= i < |as_| ==> SysSteps(ys, as_, lim, i)
  }

  ghost predicate SysSteps(ys: seq<Sys>, as_: seq<SysEvent>, lim: Limits, i: nat)
    requires i < |as_| && |ys| == |as_| + 1
  {
    SysNext(ys[i], as_[i], lim, ys[i + 1])
  }

  lemma {:induction false} SysRunKeeps(ys: seq<Sys>, as_: seq<SysEvent>, lim: Limits, n: nat)
    requires SysRun(ys, as_, lim) && lim.perIp >= 1 && n < |ys|
    ensures SysInv(ys[n], lim)
  {
    if n == 0 {
      SysInitialHolds(lim);
    } else {
      SysRunKeeps(ys, as_, lim, n - 1);
      SysStepKeeps(ys, as_, lim, n);
    }
  }

  lemma SysInitialHolds(lim: Limits)
    ensures SysInv(Sys(Initial, [], map[], map[]), lim)
  {
    InitialHolds(lim);
  }

  lemma SysStepKeeps(ys: seq<Sys>, as_: seq<SysEvent>, lim: Limits, n: nat)
    requires SysRun(ys, as_, lim) && lim.perIp >= 1 && 0 < n < |ys| && SysInv(ys[n - 1], lim)
    ensures SysInv(ys[n], lim)
  {
    assert SysSteps(ys, as_, lim, n - 1);
    SysNextKeeps(ys[n - 1], as_[n - 1], lim, ys[n]);
  }

  // ---- Nothing is lost

  /** What the step gives up, for session `s`. */
  ghost predicate SysGivesUp(y: Sys, a: SysEvent, s: Sid, m: Msg) {
    match a
    case Act(e) => GivesUp(y.core, e, s, m)
    case RaiseStarts(r) => r in y.flights && y.flights[r].phase.Limiting? && GivesUp(y.core, RaiseBy(y.flights[r]), s, m)
    case _ => false
  }

  /** One step of a run keeps an owed notification owed, unless it gives it up. */
  lemma StaysOwed(y: Sys, a: SysEvent, lim: Limits, y': Sys, s: Sid, m: Msg)
    requires SysNext(y, a, lim, y') && s in y.owed && m in y.owed[s]
    requires s in y'.core.sess && StoredIn(y'.db, m) && !SysGivesUp(y, a, s, m)
    ensures s in y'.owed && m in y'.owed[s]
  {
  }

  lemma MatchedIsOwed(y: Sys, a: SysEvent, lim: Limits, y': Sys, s: Sid, m: Msg)
    requires SysNext(y, a, lim, y') && a.Act? && MatchedBy(y.core, a.e, s, m) && StoredIn(y.db, m) && s in y'.core.sess
    ensures s in y'.owed && m in y'.owed[s]
  {
  }

  lemma RunStaysOwed(ys: seq<Sys>, as_: seq<SysEvent>, lim: Limits, k: nat, s: Sid, m: Msg)
    requires SysRun(ys, as_, lim) && k < |as_| && s in ys[k].owed && m in ys[k].owed[s]
    requires s in ys[k + 1].core.sess && StoredIn(ys[k + 1].db, m) && !SysGivesUp(ys[k], as_[k], s, m)
    ensures s in ys[k + 1].owed && m in ys[k + 1].owed[s]
  {
    assert SysSteps(ys, as_, lim, k);
    StaysOwed(ys[k], as_[k], lim, ys[k + 1], s, m);
  }

  lemma RunIsOwed(ys: seq<Sys>, as_: seq<SysEvent>, lim: Limits, k: nat, s: Sid, m: Msg)
    requires SysRun(ys, as_, lim) && k < |as_| && as_[k].Act? && MatchedBy(ys[k].core, as_[k].e, s, m) && StoredIn(ys[k].db, m)
    requires s in ys[k + 1].core.sess
    ensures s in ys[k + 1].owed && m in ys[k + 1].owed[s]
  {
    assert SysSteps(ys, as_, lim, k);
    MatchedIsOwed(ys[k], as_[k], lim, ys[k + 1], s, m);
  }

  /** The session and the message are stored from after step `i` up to `n`. */
  ghost predicate StoredFrom(ys: seq<Sys>, i: nat, n: nat, s: Sid, m: Msg)
    requires n < |ys|
  {
    forall j :: i < j <= n ==> s in ys[j].core.sess && StoredIn(ys[j].db, m)
  }

  /** Pruned after the window, on a connection still bound. */
  ghost predicate PrunedAt(y: Sys, a: SysEvent, s: Sid, m: Msg) {
    a.Act? && a.e.Housekeep? && GivesUp(y.core, a.e, s, m)
  }

  /** Among the rows that a resume's limit counted for its report, and then raised a start past. */
  predicate ReportedAt(y: Sys, a: SysEvent, s: Sid, m: Msg) {
    && a.RaiseStarts? && a.replay in y.flights && y.flights[a.replay].phase.Limiting? && y.flights[a.replay].sid == s
    && var p := (m.account, m.ns); var c := y.flights[a.replay].phase.counted; p in c && m.id in c[p]
  }

  /** By now the pair's start is at or below the message, which is below the start that the limit read. */
  predicate StartLowered(y: Sys, r: nat, s: Sid, m: Msg) {
    && r in y.flights && y.flights[r].phase.Limiting? && s in y.core.logs && InMissed(y.core.logs[s], m)
    && var p := (m.account, m.ns); p in y.flights[r].phase.starting && m.id < y.flights[r].phase.starting[p]
  }

  /** Below a start raised by a limit whose resume was over by then, and not there for the limit to count: below
      the start that it read, or stored since it counted. */
  ghost predicate PassedOverAt(ys: seq<Sys>, as_: seq<SysEvent>, n: nat, s: Sid, m: Msg)
    requires |ys| == |as_| + 1 && n < |as_|
  {
    && as_[n].RaiseStarts? && SysGivesUp(ys[n], as_[n], s, m) && !Flying(ys[n], as_[n].replay)
    && (StartLowered(ys[n], as_[n].replay, s, m) || StoredSince(as_, as_[n].replay, Row(m.id, m.account, m.ns), n))
  }

  ghost predicate AccountedAt(ys: seq<Sys>, as_: seq<SysEvent>, n: nat, s: Sid, m: Msg)
    requires |ys| == |as_| + 1 && n < |as_|
  {
    PrunedAt(ys[n], as_[n], s, m) || ReportedAt(ys[n], as_[n], s, m) || PassedOverAt(ys, as_, n, s, m)
  }

  /** What the limit of a resume gives up while the resume lasts, it reports: though the starts were read, the
      rows counted and the starts raised at three different times, with anything happening in between. */
  lemma CutIsReported(y: Sys, r: nat, lim: Limits, s: Sid, m: Msg)
    requires SysInv(y, lim) && SysGivesUp(y, RaiseStarts(r), s, m) && s in y.owed && m in y.owed[s] && Flying(y, r)
    ensures ReportedAt(y, RaiseStarts(r), s, m)
  {
    assert PhaseSound(y.core.logs[s], y.owed[s], y.flights[r].phase);
    var ph := y.flights[r].phase;
    assert CountsIt(m, ph.starting, ph.starts, ph.counted);
  }

  lemma GivenUpIsAccounted(ys: seq<Sys>, as_: seq<SysEvent>, lim: Limits, k: nat, s: Sid, m: Msg)
    requires SysRun(ys, as_, lim) && lim.perIp >= 1 && k < |as_| && s in ys[k].owed && m in ys[k].owed[s]
    requires SysGivesUp(ys[k], as_[k], s, m)
    ensures AccountedAt(ys, as_, k, s, m)
  {
    if as_[k].RaiseStarts? {
      RaiseIsAccounted(ys, as_, lim, k, s, m);
    } else {
      assert SysSteps(ys, as_, lim, k);
    }
  }

  lemma RaiseIsAccounted(ys: seq<Sys>, as_: seq<SysEvent>, lim: Limits, k: nat, s: Sid, m: Msg)
    requires SysRun(ys, as_, lim) && lim.perIp >= 1 && k < |as_| && s in ys[k].owed && m in ys[k].owed[s]
    requires as_[k].RaiseStarts? && SysGivesUp(ys[k], as_[k], s, m)
    ensures ReportedAt(ys[k], as_[k], s, m) || PassedOverAt(ys, as_, k, s, m)
  {
    LateRaiseIsExact(ys, as_, lim, k, s, m);
    if Flying(ys[k], as_[k].replay) {
      SysRunKeeps(ys, as_, lim, k);
      CutIsReported(ys[k], as_[k].replay, lim, s, m);
    }
  }

  /** A matched notification is owed, or has been accounted for. */
  lemma {:induction false} OwedOrAccounted(ys: seq<Sys>, as_: seq<SysEvent>, lim: Limits, i: nat, n: nat, s: Sid, m: Msg)
    requires SysRun(ys, as_, lim) && lim.perIp >= 1 && i < n < |ys|
    requires as_[i].Act? && MatchedBy(ys[i].core, as_[i].e, s, m) && StoredIn(ys[i].db, m) && StoredFrom(ys, i, n, s, m)
    ensures (s in ys[n].owed && m in ys[n].owed[s]) || exists j :: i < j < n && AccountedAt(ys, as_, j, s, m)
  {
    if i + 1 == n {
      RunIsOwed(ys, as_, lim, i, s, m);
    } else {
      OwedOrAccounted(ys, as_, lim, i, n - 1, s, m);
      if j :| i < j < n - 1 && AccountedAt(ys, as_, j, s, m) {
        assert i < j < n;
      } else if SysGivesUp(ys[n - 1], as_[n - 1], s, m) {
        GivenUpIsAccounted(ys, as_, lim, n - 1, s, m);
      } else {
        RunStaysOwed(ys, as_, lim, n - 1, s, m);
      }
    }
  }

  /** No loss.  In every run, a notification matched for a session, as long as the session and the message are
      stored, is covered by an entry of the session's recent log or by a start at or below its id, and with
      data if a matching monitor wanted data; or it was pruned after the window on a connection still bound; or
      it is among the rows that a resume reported as cut; or a start was raised past it by a resume's limit
      that came too late, its resume being over, and either the start had been lowered to it since the limit read
      it, or its row had been stored since the limit counted. */
  lemma NothingIsLost(ys: seq<Sys>, as_: seq<SysEvent>, lim: Limits, i: nat, n: nat, s: Sid, m: Msg)
    requires SysRun(ys, as_, lim) && lim.perIp >= 1 && i < n < |ys|
    requires as_[i].Act? && MatchedBy(ys[i].core, as_[i].e, s, m) && StoredIn(ys[i].db, m) && StoredFrom(ys, i, n, s, m)
    ensures (s in ys[n].core.logs && Covered(ys[n].core.logs[s], m))
         || exists j :: i < j < n && AccountedAt(ys, as_, j, s, m)
  {
    SysRunKeeps(ys, as_, lim, n);
    OwedOrAccounted(ys, as_, lim, i, n, s, m);
    if s in ys[n].owed && m in ys[n].owed[s] {
      assert SessionCovered(ys[n].db, ys[n].core.logs[s], ys[n].owed[s]);
    }
  }

  // ---- A limit that comes too late

  /** Raising starts loses exactly what only a start covered that is raised past it. */
  lemma RaiseLoses(l: Log, starts: map<Pair, int>, m: Msg)
    requires WellFormed(l) && Covered(l, m)
    ensures Covered(Raised(l, starts), m) <==> !CutOff(l, m, starts)
  {
    if CutOff(l, m, starts) {
      assert !InMissed(Raised(l, starts), m);
      RaisedGainsNothing(l, starts, m);
    } else {
      RaisedCovers(l, starts, m);
    }
  }

  lemma RaisedGainsNothing(l: Log, starts: map<Pair, int>, m: Msg)
    requires !InRecent(l, m)
    ensures !InRecent(Raised(l, starts), m)
  {
    var l' := Raised(l, starts);
    forall i | 0 <= i < |l'.recent| ensures !Sends(l', l'.recent[i], m) {
      assert !Sends(l, l.recent[i], m);
    }
  }

  predicate IsCount(a: SysEvent, r: nat, p: Pair) {
    a.CountPair? && a.replay == r && a.pair == p
  }

  /** Step `j` is the last before `n` at which the resume's limit counted the pair. */
  ghost predicate LastCount(as_: seq<SysEvent>, r: nat, p: Pair, j: nat, n: nat)
    requires n <= |as_|
  {
    j < n && IsCount(as_[j], r, p) && forall k :: j < k < n ==> !IsCount(as_[k], r, p)
  }

  /** The row was stored after the last count of its pair. */
  ghost predicate StoredSince(as_: seq<SysEvent>, r: nat, row: Row, n: nat)
    requires n <= |as_|
  {
    exists j: nat, k: nat :: j < k < n && LastCount(as_, r, (row.account, row.ns), j, n) && as_[k] == StoreRow(row)
  }

  /** What the limit has counted of a pair are the rows from the start it read up to the cutoff, in the table as
      it was at the count. */
  ghost predicate CountedThen(ys: seq<Sys>, as_: seq<SysEvent>, r: nat, p: Pair, j: nat, n: nat)
    requires |ys| == |as_| + 1 && n < |ys| && r in ys[n].flights && ys[n].flights[r].phase.Limiting?
  {
    var ph := ys[n].flights[r].phase;
    && LastCount(as_, r, p, j, n) && p in ph.starting && p in ph.starts && p in ph.counted
    && ph.counted[p] == RowsBetween(ys[j].db, p, ph.starting[p], ph.starts[p])
  }

  /** How a step can leave a resume's limit under way: as it was, having just read, or with one more pair counted. */
  lemma LimitSteps(y: Sys, a: SysEvent, lim: Limits, y': Sys, r: nat)
    requires SysNext(y, a, lim, y') && r in y'.flights && y'.flights[r].phase.Limiting?
    ensures var ph' := y'.flights[r].phase;
      || (a.ReadStarts? && a.replay == r && ph'.starts == map[])
      || (&& r in y.flights && y.flights[r].phase.Limiting?
          && if a.CountPair? && a.replay == r
             then a.pair in y.flights[r].phase.starting && ph' == CountedPair(y.flights[r].phase, y.db, a.pair, a.cutoff)
             else ph' == y.flights[r].phase)
  {
  }

  lemma CountGoesOn(ys: seq<Sys>, as_: seq<SysEvent>, r: nat, p: Pair, j: nat, n: nat)
    requires |ys| == |as_| + 1 && 0 < n < |ys| && r in ys[n - 1].flights && ys[n - 1].flights[r].phase.Limiting?
    requires CountedThen(ys, as_, r, p, j, n - 1) && !IsCount(as_[n - 1], r, p)
    requires r in ys[n].flights && ys[n].flights[r].phase.Limiting?
    requires var ph, ph' := ys[n - 1].flights[r].phase, ys[n].flights[r].phase;
      && ph'.starting == ph.starting && p in ph'.starts && ph'.starts[p] == ph.starts[p]
      && p in ph'.counted && ph'.counted[p] == ph.counted[p]
    ensures CountedThen(ys, as_, r, p, j, n)
  {
  }

  /** In every run, a pair whose start is to be raised was counted, and what was counted of it is what was stored
      then. */
  lemma {:induction false} CountHistory(ys: seq<Sys>, as_: seq<SysEvent>, lim: Limits, r: nat, p: Pair, n: nat) returns (j: nat)
    requires SysRun(ys, as_, lim) && n < |ys| && r in ys[n].flights && ys[n].flights[r].phase.Limiting?
    requires p in ys[n].flights[r].phase.starts
    ensures CountedThen(ys, as_, r, p, j, n)
  {
    assert n > 0;
    assert SysSteps(ys, as_, lim, n - 1);
    LimitSteps(ys[n - 1], as_[n - 1], lim, ys[n], r);
    if IsCount(as_[n - 1], r, p) {
      j := n - 1;
    } else {
      j := CountHistory(ys, as_, lim, r, p, n - 1);
      CountGoesOn(ys, as_, r, p, j, n);
    }
  }

  lemma RowComes(y: Sys, a: SysEvent, lim: Limits, y': Sys, row: Row)
    requires SysNext(y, a, lim, y') && row !in y.db && row in y'.db
    ensures a == StoreRow(row)
  {
  }

  /** A row that is there, and was not, was stored in between. */
  lemma {:induction false} RowCame(ys: seq<Sys>, as_: seq<SysEvent>, lim: Limits, row: Row, j: nat, n: nat) returns (k: nat)
    requires SysRun(ys, as_, lim) && j <= n < |ys| && row !in ys[j].db && row in ys[n].db
    ensures j <= k < n && as_[k] == StoreRow(row)
  {
    if row in ys[n - 1].db {
      k := RowCame(ys, as_, lim, row, j, n - 1);
    } else {
      k := n - 1;
      assert SysSteps(ys, as_, lim, k);
      RowComes(ys[k], as_[k], lim, ys[n], row);
    }
  }

  /** What a raise gives up is only covered by the pair's start, which is at or below it, and is stored. */
  lemma GivenUpIsMissed(y: Sys, r: nat, lim: Limits, s: Sid, m: Msg)
    requires SysInv(y, lim) && SysGivesUp(y, RaiseStarts(r), s, m) && s in y.owed && m in y.owed[s]
    ensures s in y.core.logs && InMissed(y.core.logs[s], m) && StoredIn(y.db, m) && y.flights[r].sid == s
    ensures var p := (m.account, m.ns); p in y.flights[r].phase.starts && m.id < y.flights[r].phase.starts[p]
  {
    assert SessionCovered(y.db, y.core.logs[s], y.owed[s]);
  }

  /** Whether the raise reports a message that it gives up: exactly if that was not below the start that the limit
      read, and its row was stored when the limit last counted the pair.  So, of what was not stored since, exactly
      if it is not below the start read; and what is not reported is something that the pair's start was lowered to
      since it was read, or that was stored since the count. */
  ghost predicate ReportedExactly(ys: seq<Sys>, as_: seq<SysEvent>, r: nat, n: nat, s: Sid, m: Msg)
    requires |ys| == |as_| + 1 && n < |as_| && r in ys[n].flights && ys[n].flights[r].phase.Limiting?
  {
    var p, row, starting := (m.account, m.ns), Row(m.id, m.account, m.ns), ys[n].flights[r].phase.starting;
    var reported := ReportedAt(ys[n], RaiseStarts(r), s, m);
    && p in starting
    && (exists j: nat :: LastCount(as_, r, p, j, n) && (reported <==> starting[p] <= m.id && row in ys[j].db))
    && (!StoredSince(as_, r, row, n) ==> (reported <==> starting[p] <= m.id))
    && (!reported ==> StartLowered(ys[n], r, s, m) || StoredSince(as_, r, row, n))
  }

  lemma CountedIsExact(ys: seq<Sys>, as_: seq<SysEvent>, r: nat, n: nat, s: Sid, m: Msg, j: nat)
    requires |ys| == |as_| + 1 && n < |as_| && r in ys[n].flights && ys[n].flights[r].phase.Limiting? && ys[n].flights[r].sid == s
    requires var p := (m.account, m.ns); CountedThen(ys, as_, r, p, j, n) && m.id < ys[n].flights[r].phase.starts[p]
    requires s in ys[n].core.logs && InMissed(ys[n].core.logs[s], m)
    requires var row := Row(m.id, m.account, m.ns); row in ys[j].db || StoredSince(as_, r, row, n)
    ensures ReportedExactly(ys, as_, r, n, s, m)
  {
    var p, ph := (m.account, m.ns), ys[n].flights[r].phase;
    IsBetween(ys[j].db, p, ph.starting[p], ph.starts[p], m.id);
  }

  /** In every run, and whether or not the resume lasts, that is when a raise reports what it gives up. */
  lemma LateRaiseIsExact(ys: seq<Sys>, as_: seq<SysEvent>, lim: Limits, n: nat, s: Sid, m: Msg)
    requires SysRun(ys, as_, lim) && lim.perIp >= 1 && n < |as_| && s in ys[n].owed && m in ys[n].owed[s]
    requires as_[n].RaiseStarts? && SysGivesUp(ys[n], as_[n], s, m)
    ensures ReportedExactly(ys, as_, as_[n].replay, n, s, m)
  {
    var r, row := as_[n].replay, Row(m.id, m.account, m.ns);
    SysRunKeeps(ys, as_, lim, n);
    GivenUpIsMissed(ys[n], r, lim, s, m);
    var j := CountHistory(ys, as_, lim, r, (m.account, m.ns), n);
    if row !in ys[j].db {
      var k := RowCame(ys, as_, lim, row, j, n);
      assert k != j;
      assert StoredSince(as_, r, row, n);
    }
    CountedIsExact(ys, as_, r, n, s, m, j);
  }

  /** The pair's start in the session's log is not below the start that the limit read, for every pair that it
      raises. */
  ghost predicate NoneLowered(l: Log, ph: Phase)
    requires ph.Limiting?
  {
    forall p: Pair :: p in ph.starts && p in ph.starting && p.0 in l.index && (l.index[p.0], p.1) in l.missed ==>
      ph.starting[p] <= l.missed[(l.index[p.0], p.1)].id
  }

  /** Raising only after testing, under the lock, that no start was lowered, would give up nothing unreported but
      what was stored since the count. */
  lemma GuardedRaiseReports(ys: seq<Sys>, as_: seq<SysEvent>, lim: Limits, n: nat, s: Sid, m: Msg)
    requires SysRun(ys, as_, lim) && lim.perIp >= 1 && n < |as_| && s in ys[n].owed && m in ys[n].owed[s]
    requires as_[n].RaiseStarts? && SysGivesUp(ys[n], as_[n], s, m)
    requires NoneLowered(ys[n].core.logs[s], ys[n].flights[as_[n].replay].phase)
    ensures ReportedAt(ys[n], as_[n], s, m) || StoredSince(as_, as_[n].replay, Row(m.id, m.account, m.ns), n)
  {
    LateRaiseIsExact(ys, as_, lim, n, s, m);
    SysRunKeeps(ys, as_, lim, n);
    GivenUpIsMissed(ys[n], as_[n].replay, lim, s, m);
  }

  lemma IsBetween(db: seq<Row>, p: Pair, from: int, cutoff: int, id: int)
    ensures id in RowsBetween(db, p, from, cutoff) <==> Row(id, p.0, p.1) in db && from <= id < cutoff
  {
    IdsFromMembers(db, p.0, p.1, from, id);
  }
}

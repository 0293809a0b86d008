/** A run in which the limit of a resume comes too late: the session is resumed, its starts are read and its rows
    counted, it is told of an older row, and then it loses the connection before its starts are raised.  The
    older row is lost, though it was neither pruned nor counted. */
module LateLimit {
  import opened MonitorTypes
  import opened SessionLog
  import opened MonitorCore
  import opened CoreInvariants
  import opened MessageTable
  import opened NoLoss
  import LimitedReplay

  const LIM: Limits := Limits(64, 1_000_000, 8)
  const FIRST: Conn := Conn(0, 1)
  const SECOND: Conn := Conn(0, 2)
  const PAIR: Pair := ("a", 0)
  const DB: seq<Row> := [Row(5, "a", 0), Row(6, "a", 0), Row(7, "a", 0)]
  const LOST: Msg := Msg("a", 0, 5, false)

  const SUB: Subscription := Subscription("a", [0], false)
  const MON: Monitor := Monitor("a", MONITOR_EXPIRY_TIME, [0], OfSession(0), false)

  const START: SessionRequest := SessionRequest(FIRST, None, None, false, "", "one")
  const RESUME: SessionRequest := SessionRequest(SECOND, Some("one"), None, false, "", "two")

  function Held(token: Token, conn: Option<Conn>, since: Option<Time>): Session {
    Session(token, false, "", conn, since, None, {})
  }

  function LogOf(recent: seq<Recent>, start: int, replay: nat): Log {
    Log(["a"], map["a" := 0], recent, map[(0, 0) := MissedFrom(start, false)], replay)
  }

  // ---- The cutoff that the limit computes

  lemma IdsAre()
    ensures IdsFrom(DB, "a", 0, 6) == [6, 7] && IdsFrom(DB, "a", 0, 7) == [7]
  {
    assert DB[1..] == [Row(6, "a", 0), Row(7, "a", 0)];
    assert DB[1..][1..] == [Row(7, "a", 0)];
    assert DB[1..][1..][1..] == [];
    IdsAreFrom(6);
    IdsAreFrom(7);
  }

  lemma IdsAreFrom(from: int)
    ensures IdsFrom([Row(7, "a", 0)], "a", 0, from) == if from <= 7 then [7] else []
    ensures IdsFrom([Row(6, "a", 0), Row(7, "a", 0)], "a", 0, from) == if from <= 6 then [6, 7] else if from <= 7 then [7] else []
  {
    assert [Row(7, "a", 0)][1..] == [];
    assert [Row(6, "a", 0), Row(7, "a", 0)][1..] == [Row(7, "a", 0)];
  }

  /** For a limit of one, the newest two rows from 6 on are looked up, the first of them sorted is the cutoff, and
      one row is below it. */
  lemma CutoffIsSeven()
    ensures var newest := LimitedReplay.Newest(DB, "a", 0, 6, 2);
      newest == [7, 6] && LimitedReplay.SortDown(newest)[0] == 7 && LimitedReplay.CountBetween(DB, "a", 0, 6, 7) == 1
  {
    IdsAre();
    assert [7, 6][1..] == [6] && [6][1..] == [];
    assert LimitedReplay.SortDown([6]) == [6];
    assert (set id | id in [6, 7] && id < 7) == {6};
  }

  lemma LimitLeavesSeven()
    ensures LimitedReplay.Limited(DB, "a", map[0 := 6], 1, map[0 := 1], map[0 := 7])
  {
    IdsAre();
    assert LimitedReplay.RaisedTo(map[0 := 6], map[0 := 7]) == map[0 := 7];
    RowsAre();
    assert LimitedReplay.DroppedIn(DB, "a", map[0 := 6], map[0 := 7], 0) == {6};
  }

  lemma RowsOfOne(from: int)
    ensures LimitedReplay.RowsOf(DB, "a", map[0 := from]) == set id | id in IdsFrom(DB, "a", 0, from)
  {
    var starts: map<Namespace, int> := map[0 := from];
    forall id | id in IdsFrom(DB, "a", 0, from) ensures id in LimitedReplay.RowsOf(DB, "a", starts) {
      assert 0 in starts && id in IdsFrom(DB, "a", 0, starts[0]);
    }
  }

  lemma RowsAre()
    ensures LimitedReplay.RowsOf(DB, "a", map[0 := 6]) == {6, 7} && LimitedReplay.RowsOf(DB, "a", map[0 := 7]) == {7}
  {
    IdsAre();
    RowsOfOne(6);
    RowsOfOne(7);
  }

  // ---- The tables, one step after another

  const BEGUN: Core := Core(map[], 0, map[0 := Held("one", Some(FIRST), None)], 1, map[0 := EmptyLog], {FIRST}, map[], 1)
  const WATCHING: Core := BEGUN.(mons := map[0 := MON], nextMon := 1)
  const AWAY: Core := WATCHING.(sess := map[0 := Held("one", None, Some(0))], started := {}, closed := map[FIRST := 0])
  const MISSING: Core := AWAY.(logs := map[0 := LogOf([], 6, 0)])
  const BACK: Core := MISSING.(sess := map[0 := Held("two", Some(SECOND), None)], logs := map[0 := LogOf([], 6, 1)], nextReplay := 2)
  const TOLD: Core := BACK.(logs := map[0 := LogOf([Recent(0, 5, 0, 0, false)], 6, 1)])
  const AWAY_AGAIN: Core :=
    TOLD.(sess := map[0 := Held("two", None, Some(0))], logs := map[0 := LogOf([], 5, 1)], closed := map[FIRST := 0, SECOND := 0])
  const TOO_LATE: Core := AWAY_AGAIN.(logs := map[0 := LogOf([], 7, 1)])

  lemma NobodyEvicted(c: Core)
    requires c.mons.Keys <= {0}
    ensures RemoveSessions(c, {}) == c && EvictsOldest(c, {}, LIM)
  {
    assert c.sess - {} == c.sess && c.logs - {} == c.logs && c.mons - MonsOf(c.mons, {}) == c.mons;
    SubsetCardinality(DetachedMons(c.mons, c.sess), {0});
  }

  lemma Starts()
    ensures StartStep(Initial, START, Started(0, {}, None, {}), 0, LIM, BEGUN)
  {
    NobodyEvicted(Initial);
    assert NewSession(Initial, START) == BEGUN;
  }

  lemma Subscribes()
    ensures FIRST !in BEGUN.closed && OwnerFor(BEGUN.sess, FIRST, OfSession(0)) && SubscribeAll(BEGUN, OfSession(0), [SUB], 0, LIM) == WATCHING
  {
    assert [SUB][..0] == [];
    assert SubscribeAll(BEGUN, OfSession(0), [], 0, LIM) == BEGUN;
    assert OwnedBy(BEGUN.mons, OfSession(0)) == {};
    assert SubscribeOne(BEGUN, OfSession(0), SUB, 0, LIM) == WATCHING;
  }

  /** A connection closes that only the session is bound to. */
  lemma CloseIs(c: Core, x: Conn, c': Core)
    requires 0 in c.sess && c.sess[0].conn == Some(x) && 0 in c.logs && c' == DetachOne(MarkClosed(c, x, 0), 0, 0)
    requires c.mons.Keys <= {0} && forall m :: m in c.mons ==> c.mons[m].owner != OfConn(x)
    ensures CloseStep(c, x, Some(0), {}, 0, LIM, c')
  {
    NobodyEvicted(c');
    assert OwnedBy(c'.mons, OfConn(x)) == {};
    assert c'.mons - {} == c'.mons;
  }

  lemma Leaves()
    ensures CloseStep(WATCHING, FIRST, Some(0), {}, 0, LIM, AWAY)
  {
    var c1 := MarkClosed(WATCHING, FIRST, 0);
    assert c1.started == {};
    assert DetachOne(c1, 0, 0) == AWAY;
    CloseIs(WATCHING, FIRST, AWAY);
  }

  lemma Misses()
    ensures AWAY.logs.Keys == AWAY.sess.Keys && MISSING == AWAY.(logs := NotifiedLogs(AWAY, "a", 0, 6, 0))
  {
    assert MatchedFor(AWAY, 0, "a", 0, 0) == {0};
    assert Remembered(EmptyLog, false, 0, Msg("a", 0, 6, false)) == LogOf([], 6, 0);
    assert NotifiedLogs(AWAY, "a", 0, 6, 0) == MISSING.logs;
  }

  lemma Resumes()
    ensures ResumeStep(MISSING, RESUME, Resumed(0, None, {}, 1, {}), 0, LIM, BACK)
  {
    var c1 := Reported(BindOne(MISSING, 0, SECOND), 0);
    NobodyEvicted(c1);
    assert Rotated(c1, 0, RESUME) == BACK;
  }

  lemma IsTold()
    ensures BACK.logs.Keys == BACK.sess.Keys && TOLD == BACK.(logs := NotifiedLogs(BACK, "a", 0, 5, 0))
  {
    assert MatchedFor(BACK, 0, "a", 0, 0) == {0};
    assert Remembered(LogOf([], 6, 1), true, 0, LOST) == LogOf([Recent(0, 5, 0, 0, false)], 6, 1);
    assert NotifiedLogs(BACK, "a", 0, 5, 0) == TOLD.logs;
  }

  lemma IsMatched()
    ensures MatchedBy(BACK, Notify("a", 0, 5, 0), 0, LOST)
  {
    assert MatchedFor(BACK, 0, "a", 0, 0) == {0};
  }

  lemma FoldsToFive()
    ensures Folded(LogOf([Recent(0, 5, 0, 0, false)], 6, 1)) == LogOf([], 5, 1)
  {
    var l := LogOf([Recent(0, 5, 0, 0, false)], 6, 1);
    var noted := NoteMissed(l, 0, 0, 5, false).(recent := []);
    assert l.recent[1..] == [];
    assert Folded(noted) == noted == Folded(l);
    assert noted.missed == map[(0, 0) := MissedFrom(5, false)];
  }

  lemma RaisesToSeven()
    ensures Raised(LogOf([], 5, 1), map[PAIR := 7]) == LogOf([], 7, 1)
  {
    assert Raised(LogOf([], 5, 1), map[PAIR := 7]).missed == map[(0, 0) := MissedFrom(7, false)];
  }

  lemma Replaces(l: Log, l': Log)
    ensures map[0 := l][0 := l'] == map[0 := l'] && map[0 := l][0] == l
  {
  }

  lemma ReplacesSession(s: Session, s': Session)
    ensures map[0 := s][0 := s'] == map[0 := s'] && map[0 := s][0] == s
  {
  }

  lemma LeavesAgain()
    ensures CloseStep(TOLD, SECOND, Some(0), {}, 0, LIM, AWAY_AGAIN)
  {
    DetachesAgain();
    CloseIs(TOLD, SECOND, AWAY_AGAIN);
  }

  lemma DetachesAgain()
    ensures 0 in TOLD.sess && 0 in TOLD.logs && AWAY_AGAIN == DetachOne(MarkClosed(TOLD, SECOND, 0), 0, 0)
  {
    FoldsToFive();
    Replaces(LogOf([Recent(0, 5, 0, 0, false)], 6, 1), LogOf([], 5, 1));
    ReplacesSession(Held("two", Some(SECOND), None), Held("two", None, Some(0)));
    ClosesSecond();
    assert DetachOne(MarkClosed(TOLD, SECOND, 0), 0, 0).mons == AWAY_AGAIN.mons;
  }

  lemma ClosesSecond()
    ensures MarkClosed(TOLD, SECOND, 0) == TOLD.(closed := AWAY_AGAIN.closed)
  {
    assert TOLD.started - {SECOND} == {} == TOLD.started;
    assert map[FIRST := 0][SECOND := 0] == map[FIRST := 0, SECOND := 0];
  }

  lemma IsRaised()
    ensures TOO_LATE == AfterCut(AWAY_AGAIN, 0, map[PAIR := 7])
  {
    RaisesToSeven();
    Replaces(LogOf([], 5, 1), LogOf([], 7, 1));
  }

  // ---- The run

  /** A run that has come to these tables, rows and flights. */
  ghost predicate Reached(ys: seq<Sys>, as_: seq<SysEvent>, c: Core, db: seq<Row>, flights: map<nat, Flight>) {
    SysRun(ys, as_, LIM) && IsAt(ys[|as_|], c, db, flights)
  }

  predicate IsAt(y: Sys, c: Core, db: seq<Row>, flights: map<nat, Flight>) {
    y.core == c && y.db == db && y.flights == flights
  }

  lemma Extends(ys: seq<Sys>, as_: seq<SysEvent>, a: SysEvent, y: Sys)
    requires SysRun(ys, as_, LIM) && SysNext(ys[|as_|], a, LIM, y)
    ensures SysRun(ys + [y], as_ + [a], LIM)
  {
    forall i | 0 <= i < |as_ + [a]| ensures SysSteps(ys + [y], as_ + [a], LIM, i) {
      if i < |as_| { assert SysSteps(ys, as_, LIM, i); }
    }
  }

  lemma Acts(ys: seq<Sys>, as_: seq<SysEvent>, c: Core, db: seq<Row>, fl: map<nat, Flight>, e: Event, c': Core) returns (y': Sys)
    requires Reached(ys, as_, c, db, fl) && Next(c, e, LIM, c') && !e.ReplayChunk? && !e.CutReplay?
    ensures Reached(ys + [y'], as_ + [Act(e)], c', db, FlightsAfter(fl, e))
  {
    var y := ys[|as_|];
    y' := Sys(c', db, FlightsAfter(fl, e), OwedAfter(y, e, c'));
    Extends(ys, as_, Act(e), y');
  }

  lemma Closes(ys: seq<Sys>, as_: seq<SysEvent>, c: Core, db: seq<Row>, fl: map<nat, Flight>, x: Conn, c': Core) returns (y': Sys)
    requires Reached(ys, as_, c, db, fl) && CloseStep(c, x, Some(0), {}, 0, LIM, c')
    ensures Reached(ys + [y'], as_ + [Act(Close(x, Some(0), {}, 0))], c', db, fl)
  {
    y' := Acts(ys, as_, c, db, fl, Close(x, Some(0), {}, 0), c');
  }

  lemma Notifies(ys: seq<Sys>, as_: seq<SysEvent>, c: Core, db: seq<Row>, fl: map<nat, Flight>, id: int, c': Core) returns (y': Sys)
    requires Reached(ys, as_, c, db, fl) && c.logs.Keys == c.sess.Keys && c' == c.(logs := NotifiedLogs(c, "a", 0, id, 0))
    ensures Reached(ys + [y'], as_ + [Act(Notify("a", 0, id, 0))], c', db, fl)
  {
    y' := Acts(ys, as_, c, db, fl, Notify("a", 0, id, 0), c');
  }

  lemma Begins(ys: seq<Sys>, as_: seq<SysEvent>, c: Core, out: Outcome, c': Core) returns (y': Sys)
    requires Reached(ys, as_, c, [], map[]) && out.Started? && StartStep(c, START, out, 0, LIM, c')
    ensures Reached(ys + [y'], as_ + [Act(OpenSession(START, out, 0))], c', [], map[])
  {
    y' := Acts(ys, as_, c, [], map[], OpenSession(START, out, 0), c');
  }

  lemma Watches(ys: seq<Sys>, as_: seq<SysEvent>, c: Core, c': Core) returns (y': Sys)
    requires Reached(ys, as_, c, [], map[]) && FIRST !in c.closed && OwnerFor(c.sess, FIRST, OfSession(0))
    requires c' == SubscribeAll(c, OfSession(0), [SUB], 0, LIM)
    ensures Reached(ys + [y'], as_ + [Act(Subscribe(FIRST, [SUB], OfSession(0), 0))], c', [], map[])
  {
    y' := Acts(ys, as_, c, [], map[], Subscribe(FIRST, [SUB], OfSession(0), 0), c');
  }

  lemma Continues(ys: seq<Sys>, as_: seq<SysEvent>, c: Core, out: Outcome, c': Core) returns (y': Sys)
    requires Reached(ys, as_, c, DB, map[]) && out.Resumed? && out.replay == 1 && ResumeStep(c, RESUME, out, 0, LIM, c')
    ensures Reached(ys + [y'], as_ + [Act(OpenSession(RESUME, out, 0))], c', DB, map[1 := Flight(out.sid, SECOND, Idle)])
  {
    y' := Acts(ys, as_, c, DB, map[], OpenSession(RESUME, out, 0), c');
  }

  lemma Stores(ys: seq<Sys>, as_: seq<SysEvent>, c: Core, db: seq<Row>, fl: map<nat, Flight>, row: Row) returns (y': Sys)
    requires Reached(ys, as_, c, db, fl) && forall i :: 0 <= i < |db| ==> db[i].id < row.id
    ensures Reached(ys + [y'], as_ + [StoreRow(row)], c, db + [row], fl)
  {
    y' := ys[|as_|].(db := db + [row]);
    Extends(ys, as_, StoreRow(row), y');
  }

  lemma Reads(ys: seq<Sys>, as_: seq<SysEvent>, c: Core, db: seq<Row>, f: Flight, starting: map<Pair, int>) returns (y': Sys)
    requires Reached(ys, as_, c, db, map[1 := f]) && f.phase == Idle && f.sid in c.logs && IsSnapshot(c.logs[f.sid], starting)
    ensures Reached(ys + [y'], as_ + [ReadStarts(1, starting)], c, db, map[1 := f.(phase := Limiting(starting, map[], map[]))])
  {
    y' := WithPhase(ys[|as_|], 1, Limiting(starting, map[], map[]));
    Extends(ys, as_, ReadStarts(1, starting), y');
  }

  lemma Counts(ys: seq<Sys>, as_: seq<SysEvent>, c: Core, db: seq<Row>, f: Flight, p: Pair, cutoff: int) returns (y': Sys)
    requires Reached(ys, as_, c, db, map[1 := f]) && f.phase.Limiting? && p in f.phase.starting && f.phase.starting[p] < cutoff
    ensures Reached(ys + [y'], as_ + [CountPair(1, p, cutoff)], c, db, map[1 := f.(phase := CountedPair(f.phase, db, p, cutoff))])
  {
    y' := WithPhase(ys[|as_|], 1, CountedPair(f.phase, db, p, cutoff));
    Extends(ys, as_, CountPair(1, p, cutoff), y');
  }

  lemma Raises(ys: seq<Sys>, as_: seq<SysEvent>, c: Core, db: seq<Row>, f: Flight) returns (y': Sys)
    requires Reached(ys, as_, c, db, map[1 := f]) && f.phase.Limiting?
    ensures Reached(ys + [y'], as_ + [RaiseStarts(1)], AfterCut(c, f.sid, f.phase.starts), db, map[1 := f.(phase := Idle)])
  {
    y' := WithPhase(AfterRaise(ys[|as_|], 1), 1, Idle);
    Extends(ys, as_, RaiseStarts(1), y');
  }

  /** The session is started, subscribes and goes away. */
  lemma GoesAway() returns (ys: seq<Sys>, as_: seq<SysEvent>)
    ensures Reached(ys, as_, AWAY, [], map[])
  {
    ys, as_ := [Sys(Initial, [], map[], map[])], [];
    Starts();
    var y1 := Begins(ys, as_, Initial, Started(0, {}, None, {}), BEGUN);
    ys, as_ := ys + [y1], as_ + [Act(OpenSession(START, Started(0, {}, None, {}), 0))];
    Subscribes();
    var y2 := Watches(ys, as_, BEGUN, WATCHING);
    ys, as_ := ys + [y2], as_ + [Act(Subscribe(FIRST, [SUB], OfSession(0), 0))];
    Leaves();
    var y3 := Closes(ys, as_, WATCHING, [], map[], FIRST, AWAY);
    ys, as_ := ys + [y3], as_ + [Act(Close(FIRST, Some(0), {}, 0))];
  }

  /** Three rows are stored. */
  lemma RowsCome(before: seq<Sys>, events: seq<SysEvent>) returns (ys: seq<Sys>, as_: seq<SysEvent>)
    requires Reached(before, events, AWAY, [], map[])
    ensures Reached(ys, as_, AWAY, DB, map[])
  {
    ys, as_ := before, events;
    var y1 := Stores(ys, as_, AWAY, [], map[], DB[0]);
    ys, as_ := ys + [y1], as_ + [StoreRow(DB[0])];
    var y2 := Stores(ys, as_, AWAY, [] + [DB[0]], map[], DB[1]);
    ys, as_ := ys + [y2], as_ + [StoreRow(DB[1])];
    var y3 := Stores(ys, as_, AWAY, [] + [DB[0]] + [DB[1]], map[], DB[2]);
    ys, as_ := ys + [y3], as_ + [StoreRow(DB[2])];
    assert [] + [DB[0]] + [DB[1]] + [DB[2]] == DB;
  }

  /** It misses the second row, and is resumed. */
  lemma ComesBack(before: seq<Sys>, events: seq<SysEvent>) returns (ys: seq<Sys>, as_: seq<SysEvent>)
    requires Reached(before, events, AWAY, DB, map[])
    ensures Reached(ys, as_, BACK, DB, map[1 := Flight(0, SECOND, Idle)])
  {
    Misses();
    var y1 := Notifies(before, events, AWAY, DB, map[], 6, MISSING);
    ys, as_ := before + [y1], events + [Act(Notify("a", 0, 6, 0))];
    Resumes();
    var y2 := Continues(ys, as_, MISSING, Resumed(0, None, {}, 1, {}), BACK);
    ys, as_ := ys + [y2], as_ + [Act(OpenSession(RESUME, Resumed(0, None, {}, 1, {}), 0))];
  }

  const COUNTED: Phase := CountedPair(Limiting(map[PAIR := 6], map[], map[]), DB, PAIR, 7)

  lemma BackStarts()
    ensures IsSnapshot(BACK.logs[0], map[PAIR := 6])
  {
  }

  /** Its limit reads its starts, and counts. */
  lemma IsLimited(before: seq<Sys>, events: seq<SysEvent>) returns (ys: seq<Sys>, as_: seq<SysEvent>)
    requires Reached(before, events, BACK, DB, map[1 := Flight(0, SECOND, Idle)])
    ensures Reached(ys, as_, BACK, DB, map[1 := Flight(0, SECOND, COUNTED)])
  {
    BackStarts();
    var y1 := Reads(before, events, BACK, DB, Flight(0, SECOND, Idle), map[PAIR := 6]);
    ys, as_ := before + [y1], events + [ReadStarts(1, map[PAIR := 6])];
    var y2 := Counts(ys, as_, BACK, DB, Flight(0, SECOND, Limiting(map[PAIR := 6], map[], map[])), PAIR, 7);
    ys, as_ := ys + [y2], as_ + [CountPair(1, PAIR, 7)];
  }

  const TELL: SysEvent := Act(Notify("a", 0, 5, 0))
  const LEAVE: SysEvent := Act(Close(SECOND, Some(0), {}, 0))

  lemma TellsLate(ys: seq<Sys>, as_: seq<SysEvent>) returns (y': Sys)
    requires Reached(ys, as_, BACK, DB, map[1 := Flight(0, SECOND, COUNTED)])
    ensures Reached(ys + [y'], as_ + [TELL], TOLD, DB, map[1 := Flight(0, SECOND, COUNTED)])
  {
    IsTold();
    y' := Notifies(ys, as_, BACK, DB, map[1 := Flight(0, SECOND, COUNTED)], 5, TOLD);
  }

  lemma LosesConnection(ys: seq<Sys>, as_: seq<SysEvent>) returns (y': Sys)
    requires Reached(ys, as_, TOLD, DB, map[1 := Flight(0, SECOND, COUNTED)])
    ensures Reached(ys + [y'], as_ + [LEAVE], AWAY_AGAIN, DB, map[1 := Flight(0, SECOND, COUNTED)])
  {
    LeavesAgain();
    y' := Closes(ys, as_, TOLD, DB, map[1 := Flight(0, SECOND, COUNTED)], SECOND, AWAY_AGAIN);
  }

  lemma RaisesLate(ys: seq<Sys>, as_: seq<SysEvent>) returns (y': Sys)
    requires Reached(ys, as_, AWAY_AGAIN, DB, map[1 := Flight(0, SECOND, COUNTED)])
    ensures Reached(ys + [y'], as_ + [RaiseStarts(1)], TOO_LATE, DB, map[1 := Flight(0, SECOND, Idle)])
  {
    IsRaised();
    y' := Raises(ys, as_, AWAY_AGAIN, DB, Flight(0, SECOND, COUNTED));
  }

  /** TOLD of the first row late, it loses the connection, and only then are its starts raised. */
  ghost predicate EndsBadly(ys: seq<Sys>, as_: seq<SysEvent>, i: nat) {
    && |as_| == i + 3 && |ys| == i + 4
    && as_[i] == TELL && as_[i + 1] == LEAVE && as_[i + 2] == RaiseStarts(1)
    && var fl := map[1 := Flight(0, SECOND, COUNTED)];
    && IsAt(ys[i], BACK, DB, fl) && IsAt(ys[i + 1], TOLD, DB, fl) && IsAt(ys[i + 2], AWAY_AGAIN, DB, fl)
    && IsAt(ys[i + 3], TOO_LATE, DB, map[1 := Flight(0, SECOND, Idle)])
  }

  lemma TheRun() returns (ys: seq<Sys>, as_: seq<SysEvent>, i: nat)
    ensures SysRun(ys, as_, LIM) && EndsBadly(ys, as_, i)
  {
    ys, as_ := GoesAway();
    ys, as_ := RowsCome(ys, as_);
    ys, as_ := ComesBack(ys, as_);
    ys, as_ := IsLimited(ys, as_);
    i := |as_|;
    var y1 := TellsLate(ys, as_);
    var y2 := LosesConnection(ys + [y1], as_ + [TELL]);
    var y3 := RaisesLate(ys + [y1] + [y2], as_ + [TELL] + [LEAVE]);
    ys, as_ := ys + [y1] + [y2] + [y3], as_ + [TELL] + [LEAVE] + [RaiseStarts(1)];
  }

  lemma EndsUncovered()
    ensures StoredIn(DB, LOST) && !Covered(TOO_LATE.logs[0], LOST) && LOST.id !in COUNTED.counted[PAIR]
  {
    assert Row(5, "a", 0) == DB[0];
    IsBetween(DB, PAIR, 6, 7, 5);
  }

  lemma SessionStays()
    ensures 0 in TOLD.sess && 0 in AWAY_AGAIN.sess && 0 in TOO_LATE.sess && 0 in TOO_LATE.logs
  {
  }

  lemma StaysStored(ys: seq<Sys>, as_: seq<SysEvent>, i: nat)
    requires EndsBadly(ys, as_, i)
    ensures StoredIn(ys[i].db, LOST) && StoredFrom(ys, i, i + 3, 0, LOST)
    ensures 0 in ys[i + 3].core.logs && !Covered(ys[i + 3].core.logs[0], LOST)
  {
    EndsUncovered();
    SessionStays();
    forall j | i < j <= i + 3 ensures 0 in ys[j].core.sess && StoredIn(ys[j].db, LOST) {
      assert j == i + 1 || j == i + 2 || j == i + 3;
    }
  }

  lemma NotAccounted(ys: seq<Sys>, as_: seq<SysEvent>, i: nat, j: nat)
    requires EndsBadly(ys, as_, i) && i < j < i + 3
    ensures !PrunedAt(ys[j], as_[j], 0, LOST) && !ReportedAt(ys[j], as_[j], 0, LOST)
  {
    EndsUncovered();
    assert j == i + 1 || j == i + 2;
  }

  /** The limit, of one, is what it computes: it read the session's start, cuts the one row below the cutoff, and
      raises the start to that. */
  ghost predicate LimitsToOne(y: Sys) {
    && 1 in y.flights && y.flights[1].sid == 0 && y.flights[1].phase.Limiting?
    && y.flights[1].phase.starting == map[PAIR := 6] && y.flights[1].phase.starts == map[PAIR := 7]
    && LimitedReplay.Limited(y.db, "a", map[0 := 6], 1, map[0 := 1], map[0 := 7])
  }

  lemma LimitIsComputed(ys: seq<Sys>, as_: seq<SysEvent>, i: nat)
    requires EndsBadly(ys, as_, i)
    ensures LimitsToOne(ys[i]) && as_[i + 2] == RaiseStarts(1) && StartLowered(ys[i + 2], 1, 0, LOST)
  {
    LimitLeavesSeven();
  }

  /** Without the last of its four cases, `NoLoss.NothingIsLost` is false of the server: here is a run in which a
      notification, of a session and a message that stay stored, ends up not covered, though it was not pruned
      and no limit counted it.  A resume's limit of one has looked up, counted and found its cutoff at step `i`. */
  lemma LateRaisePassesOver() returns (ys: seq<Sys>, as_: seq<SysEvent>, i: nat, n: nat)
    ensures SysRun(ys, as_, LIM) && i < n < |ys| && as_[i].Act? && MatchedBy(ys[i].core, as_[i].e, 0, LOST)
    ensures StoredIn(ys[i].db, LOST) && StoredFrom(ys, i, n, 0, LOST)
    ensures 0 in ys[n].core.logs && !Covered(ys[n].core.logs[0], LOST)
    ensures forall j :: i < j < n ==> !PrunedAt(ys[j], as_[j], 0, LOST) && !ReportedAt(ys[j], as_[j], 0, LOST)
    ensures LimitsToOne(ys[i]) && as_[n - 1] == RaiseStarts(1) && StartLowered(ys[n - 1], 1, 0, LOST)
    ensures var newest := LimitedReplay.Newest(ys[i].db, "a", 0, 6, 2);
      |newest| == 2 && LimitedReplay.SortDown(newest)[0] == 7 && LimitedReplay.CountBetween(ys[i].db, "a", 0, 6, 7) == 1
  {
    ys, as_, i := TheRun();
    n := i + 3;
    IsMatched();
    StaysStored(ys, as_, i);
    LimitIsComputed(ys, as_, i);
    CutoffIsSeven();
    forall j | i < j < n ensures !PrunedAt(ys[j], as_[j], 0, LOST) && !ReportedAt(ys[j], as_[j], 0, LOST) {
      NotAccounted(ys, as_, i, j);
    }
  }
}

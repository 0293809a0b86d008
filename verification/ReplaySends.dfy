/** What a replay sends, over whole runs: chunk by chunk, with notifications, limits, prunes and changes to the message
    table between the lookup of a chunk and its being applied, and between one chunk and the next. */
module ReplaySends {
  import opened MonitorTypes
  import opened SessionLog
  import opened MonitorCore
  import opened CoreInvariants
  import opened MessageTable
  import opened NoLoss

  type Key = (nat, Namespace)

  /** The log of the session that the replay is for. */
  ghost function LogFor(y: Sys, r: nat): Log
    requires Flying(y, r)
  {
    y.core.logs[y.flights[r].sid]
  }

  /** The rows of the pair that the replay sends in a step. */
  ghost function SentAt(y: Sys, a: SysEvent, r: nat, k: Key): seq<int> {
    if a.ApplyChunk? && a.replay == r && Flying(y, r) && y.flights[r].phase.Looked? && y.flights[r].phase.key == k && k in LogFor(y, r).missed
    then SentOf(y.flights[r].phase.rows, LogFor(y, r).missed[k].id)
    else []
  }

  // ---- How a step moves a replay and its session's log

  ghost predicate LogMoves(y: Sys, a: SysEvent, y': Sys, r: nat) {
    && Flying(y, r) && Flying(y', r) && y'.flights[r].sid == y.flights[r].sid
    && var l, l', ph := LogFor(y, r), LogFor(y', r), y.flights[r].phase;
    && l.keys <= l'.keys
    && match a
       case ApplyChunk(q, now) =>
         if q == r && ph.Looked? && ph.key in l.missed then l' == Advanced(l, ph.key, ph.from, ph.rows, now) else l'.missed == l.missed
       case RaiseStarts(q) =>
         && q in y.flights && y.flights[q].phase.Limiting?
         && l' == if y.flights[q].sid == y.flights[r].sid then Raised(l, y.flights[q].phase.starts) else l
       case _ => l'.missed == l.missed
  }

  ghost predicate PhaseMoves(y: Sys, a: SysEvent, y': Sys, r: nat)
    requires Flying(y, r) && Flying(y', r)
  {
    var l, ph, ph' := LogFor(y, r), y.flights[r].phase, y'.flights[r].phase;
    match ph'
    case Taken(b, k, from) => ph' == ph || (k in l.missed && k.0 < |l.keys| && from == l.missed[k] && b == l.keys[k.0])
    case Looked(b, k, from, rows) =>
      || (ph' == ph && !(a.ApplyChunk? && a.replay == r))
      || (ph == Taken(b, k, from) && rows == Lookup(y.db, b, k.1, from.id, REPLAY_CHUNK))
    case _ => true
  }

  lemma QuietKeepsMissed(c: Core, e: Event, lim: Limits, c': Core, s: Sid)
    requires Next(c, e, lim, c') && (e.Notify? || e.Housekeep?) && s in c.sess && s in c.logs && c.sess[s].conn.Some? && s in c'.logs
    ensures c'.logs[s].missed == c.logs[s].missed && c.logs[s].keys <= c'.logs[s].keys
  {
  }

  lemma ActMoves(y: Sys, e: Event, lim: Limits, y': Sys, r: nat)
    requires SysInv(y, lim) && SysNext(y, Act(e), lim, y') && r in y.flights && Flying(y', r)
    ensures LogMoves(y, Act(e), y', r) && y'.flights[r] == y.flights[r]
    ensures PhaseMoves(y, Act(e), y', r)
  {
    ActKeepsFlight(y, e, lim, y', r);
    var f := y.flights[r];
    WasCurrent(y.core, e, lim, y'.core, f.sid, f.conn, r);
    if !Structural(e) { QuietKeepsMissed(y.core, e, lim, y'.core, f.sid); }
  }

  lemma ActKeepsFlight(y: Sys, e: Event, lim: Limits, y': Sys, r: nat)
    requires FlightsSound(y) && SysNext(y, Act(e), lim, y') && r in y.flights
    ensures r in y'.flights && y'.flights[r] == y.flights[r] && 0 < r < y.core.nextReplay
  {
    ReplaysOnlyGrow(y.core, e, lim, y'.core);
  }

  /** Only the session's current replay is flying, so no other one's chunk moves its log. */
  lemma ApplyMoves(y: Sys, q: nat, now: Time, y': Sys, r: nat)
    requires ApplyStep(y, q, now, y') && r in y.flights && Flying(y', r)
    ensures LogMoves(y, ApplyChunk(q, now), y', r)
    ensures PhaseMoves(y, ApplyChunk(q, now), y', r)
  {
  }

  lemma RaiseMoves(y: Sys, q: nat, y': Sys, r: nat)
    requires RaiseStep(y, q, y') && r in y.flights && Flying(y', r)
    ensures LogMoves(y, RaiseStarts(q), y', r) && PhaseMoves(y, RaiseStarts(q), y', r)
  {
  }

  lemma TakeMoves(y: Sys, q: nat, k: Key, y': Sys, r: nat)
    requires TakeStep(y, q, k, y') && r in y.flights && Flying(y', r)
    ensures LogMoves(y, TakePair(q, k), y', r) && PhaseMoves(y, TakePair(q, k), y', r)
  {
  }

  lemma LookMoves(y: Sys, q: nat, y': Sys, r: nat)
    requires LookStep(y, q, y') && r in y.flights && Flying(y', r)
    ensures LogMoves(y, LookUp(q), y', r) && PhaseMoves(y, LookUp(q), y', r)
  {
  }

  /** The tables as they were, and the replay too, unless it is not with a chunk. */
  lemma UnmovedMoves(y: Sys, a: SysEvent, y': Sys, r: nat)
    requires y'.core == y.core && r in y.flights && Flying(y', r) && !a.ApplyChunk? && !a.RaiseStarts?
    requires y'.flights[r] == y.flights[r].(phase := y'.flights[r].phase)
    requires y'.flights[r].phase == y.flights[r].phase || y'.flights[r].phase.Limiting?
    ensures LogMoves(y, a, y', r) && PhaseMoves(y, a, y', r)
  {
  }

  lemma StepMoves(y: Sys, a: SysEvent, lim: Limits, y': Sys, r: nat)
    requires SysInv(y, lim) && SysNext(y, a, lim, y') && r in y.flights && Flying(y', r)
    ensures LogMoves(y, a, y', r)
    ensures PhaseMoves(y, a, y', r)
  {
    if a.Act? {
      ActMoves(y, a.e, lim, y', r);
    } else {
      OtherMoves(y, a, lim, y', r);
    }
  }

  lemma OtherMoves(y: Sys, a: SysEvent, lim: Limits, y': Sys, r: nat)
    requires SysNext(y, a, lim, y') && !a.Act? && r in y.flights && Flying(y', r)
    ensures LogMoves(y, a, y', r)
    ensures PhaseMoves(y, a, y', r)
  {
    match a
    case TakePair(q, k) => TakeMoves(y, q, k, y', r);
    case LookUp(q) => LookMoves(y, q, y', r);
    case ApplyChunk(q, now) => ApplyMoves(y, q, now, y', r);
    case RaiseStarts(q) => RaiseMoves(y, q, y', r);
    case _ => UnmovedMoves(y, a, y', r);
  }

  lemma StepAt(ys: seq<Sys>, as_: seq<SysEvent>, lim: Limits, r: nat, i: nat)
    requires SysRun(ys, as_, lim) && lim.perIp >= 1 && i < |as_| && r in ys[i].flights && Flying(ys[i + 1], r)
    ensures LogMoves(ys[i], as_[i], ys[i + 1], r)
    ensures PhaseMoves(ys[i], as_[i], ys[i + 1], r)
  {
    SysRunKeeps(ys, as_, lim, i);
    assert SysSteps(ys, as_, lim, i);
    StepMoves(ys[i], as_[i], lim, ys[i + 1], r);
  }

  /** A replay's number is new when it is started. */
  lemma NumbersAreNew(y: Sys, a: SysEvent, lim: Limits, y': Sys, r: nat)
    requires SysNext(y, a, lim, y')
    ensures y.core.nextReplay <= y'.core.nextReplay
    ensures r in y'.flights && r < y.core.nextReplay ==> r in y.flights
  {
    if a.Act? { ReplaysOnlyGrow(y.core, a.e, lim, y'.core); }
  }

  lemma NumbersAt(ys: seq<Sys>, as_: seq<SysEvent>, lim: Limits, i: nat, r: nat)
    requires SysRun(ys, as_, lim) && i < |as_|
    ensures ys[i].core.nextReplay <= ys[i + 1].core.nextReplay
    ensures r in ys[i + 1].flights && r < ys[i].core.nextReplay ==> r in ys[i].flights
  {
    assert SysSteps(ys, as_, lim, i);
    NumbersAreNew(ys[i], as_[i], lim, ys[i + 1], r);
  }

  lemma NumberIsUsed(ys: seq<Sys>, as_: seq<SysEvent>, lim: Limits, i: nat, r: nat)
    requires SysRun(ys, as_, lim) && lim.perIp >= 1 && i < |ys| && r in ys[i].flights
    ensures r < ys[i].core.nextReplay
  {
    SysRunKeeps(ys, as_, lim, i);
  }

  lemma {:induction false} NumbersGrow(ys: seq<Sys>, as_: seq<SysEvent>, lim: Limits, i: nat, n: nat)
    requires SysRun(ys, as_, lim) && i <= n < |ys|
    ensures ys[i].core.nextReplay <= ys[n].core.nextReplay
  {
    if i < n {
      NumbersGrow(ys, as_, lim, i, n - 1);
      NumbersAt(ys, as_, lim, n - 1, 0);
    }
  }

  lemma WasThere(ys: seq<Sys>, as_: seq<SysEvent>, lim: Limits, r: nat, i: nat, n: nat)
    requires SysRun(ys, as_, lim) && lim.perIp >= 1 && i < n < |ys| && r in ys[i].flights && r in ys[n].flights
    ensures r in ys[n - 1].flights
  {
    NumberIsUsed(ys, as_, lim, i, r);
    NumbersGrow(ys, as_, lim, i, n - 1);
    NumbersAt(ys, as_, lim, n - 1, r);
  }

  /** A replay that is flying has been, ever since it was started. */
  lemma {:induction false} WasFlying(ys: seq<Sys>, as_: seq<SysEvent>, lim: Limits, r: nat, i: nat, j: nat, n: nat)
    requires SysRun(ys, as_, lim) && lim.perIp >= 1 && i <= j <= n < |ys| && r in ys[i].flights && Flying(ys[n], r)
    ensures Flying(ys[j], r)
    decreases n
  {
    if j < n {
      FlewBefore(ys, as_, lim, r, i, n);
      WasFlying(ys, as_, lim, r, i, j, n - 1);
    }
  }

  lemma FlewBefore(ys: seq<Sys>, as_: seq<SysEvent>, lim: Limits, r: nat, i: nat, n: nat)
    requires SysRun(ys, as_, lim) && lim.perIp >= 1 && i < n < |ys| && r in ys[i].flights && Flying(ys[n], r)
    ensures Flying(ys[n - 1], r)
  {
    WasThere(ys, as_, lim, r, i, n);
    StepAt(ys, as_, lim, r, n - 1);
  }

  // ---- In order, and so each row at most once

  /** The pair's start is past the row, and so is any chunk of it that the replay has in hand. */
  ghost predicate Beyond(y: Sys, r: nat, k: Key, id: int)
    requires Flying(y, r)
  {
    var l, ph := LogFor(y, r), y.flights[r].phase;
    && (k in l.missed ==> id < l.missed[k].id)
    && (ph.Taken? && ph.key == k ==> id < ph.from.id)
    && (ph.Looked? && ph.key == k ==> forall x :: x in ph.rows ==> id < x)
  }

  ghost predicate Ascends(ids: seq<int>) {
    forall i, j :: 0 <= i < j < |ids| ==> ids[i] < ids[j]
  }

  ghost predicate AllStored(ids: seq<int>, a: Account, ns: Namespace, db: seq<Row>) {
    forall x :: x in ids ==> Row(x, a, ns) in db
  }

  lemma LookedFrom(db: seq<Row>, a: Account, ns: Namespace, from: int, limit: nat)
    requires Ascending(db)
    ensures var rows := Lookup(db, a, ns, from, limit);
      Ascends(rows) && AllStored(rows, a, ns, db) && forall x :: x in rows ==> from <= x
  {
    IdsFromAscending(db, a, ns, from);
    forall x | x in Lookup(db, a, ns, from, limit) ensures from <= x && Row(x, a, ns) in db {
      IdsFromMembers(db, a, ns, from, x);
    }
  }

  lemma BeyondStays(y: Sys, a: SysEvent, y': Sys, r: nat, k: Key, id: int)
    requires Ascending(y.db) && LogMoves(y, a, y', r) && PhaseMoves(y, a, y', r) && Beyond(y, r, k, id)
    ensures Beyond(y', r, k, id)
  {
    var ph, ph' := y.flights[r].phase, y'.flights[r].phase;
    if ph'.Looked? && ph' != ph {
      LookedFrom(y.db, ph'.account, ph'.key.1, ph'.from.id, REPLAY_CHUNK);
    }
    StartStaysBeyond(y, a, y', r, k, id);
  }

  lemma StartStaysBeyond(y: Sys, a: SysEvent, y': Sys, r: nat, k: Key, id: int)
    requires LogMoves(y, a, y', r) && Beyond(y, r, k, id)
    ensures k in LogFor(y', r).missed ==> id < LogFor(y', r).missed[k].id
  {
    var l, ph := LogFor(y, r), y.flights[r].phase;
    if a.ApplyChunk? && a.replay == r && ph.Looked? && ph.key == k && k in l.missed && |ph.rows| >= REPLAY_CHUNK {
      assert ph.rows[|ph.rows| - 1] in ph.rows;
    }
  }

  /** What is sent of a pair, the replay is then past. */
  lemma SentIsBeyond(y: Sys, a: SysEvent, y': Sys, r: nat, k: Key, id: int)
    requires LogMoves(y, a, y', r) && PhaseMoves(y, a, y', r) && id in SentAt(y, a, r, k)
    requires Ascends(y.flights[r].phase.rows) && y'.flights[r].phase.Idle?
    ensures Beyond(y', r, k, id)
  {
    var rows := y.flights[r].phase.rows;
    assert id in rows;
    var i :| 0 <= i < |rows| && rows[i] == id;
  }

  /** A chunk in hand was looked up by this replay: some step found it, in the table as it was then. */
  ghost predicate LookedUpAt(ys: seq<Sys>, as_: seq<SysEvent>, r: nat, q: nat, n: nat)
    requires |ys| == |as_| + 1 && q < n < |ys| && r in ys[n].flights && ys[n].flights[r].phase.Looked?
  {
    var ph := ys[n].flights[r].phase;
    as_[q] == LookUp(r) && ph.rows == Lookup(ys[q].db, ph.account, ph.key.1, ph.from.id, REPLAY_CHUNK)
  }

  lemma LookedSteps(y: Sys, a: SysEvent, lim: Limits, y': Sys, r: nat)
    requires SysNext(y, a, lim, y') && r in y'.flights && y'.flights[r].phase.Looked?
    ensures var ph' := y'.flights[r].phase;
      if a == LookUp(r) then ph'.rows == Lookup(y.db, ph'.account, ph'.key.1, ph'.from.id, REPLAY_CHUNK)
      else r in y.flights && y.flights[r].phase == ph'
  {
  }

  lemma {:induction false} LookHistory(ys: seq<Sys>, as_: seq<SysEvent>, lim: Limits, r: nat, n: nat) returns (q: nat)
    requires SysRun(ys, as_, lim) && n < |ys| && r in ys[n].flights && ys[n].flights[r].phase.Looked?
    ensures q < n && LookedUpAt(ys, as_, r, q, n)
  {
    assert n > 0;
    assert SysSteps(ys, as_, lim, n - 1);
    LookedSteps(ys[n - 1], as_[n - 1], lim, ys[n], r);
    if as_[n - 1] == LookUp(r) {
      q := n - 1;
    } else {
      q := LookHistory(ys, as_, lim, r, n - 1);
    }
  }

  lemma {:induction false} SentOfAscends(rows: seq<int>, start: int)
    requires Ascends(rows)
    ensures Ascends(SentOf(rows, start))
  {
    if rows != [] {
      var k := |rows| - 1;
      var before := SentOf(rows[..k], start);
      SentOfAscends(rows[..k], start);
      forall i | 0 <= i < |before| ensures before[i] < rows[k] {
        assert before[i] in rows[..k];
      }
      assert SentOf(rows, start) == before || SentOf(rows, start) == before + [rows[k]];
    }
  }

  lemma LookedIsSound(ys: seq<Sys>, as_: seq<SysEvent>, lim: Limits, r: nat, n: nat) returns (q: nat)
    requires SysRun(ys, as_, lim) && lim.perIp >= 1 && n < |ys| && r in ys[n].flights && ys[n].flights[r].phase.Looked?
    ensures var ph := ys[n].flights[r].phase;
      q < n && as_[q] == LookUp(r) && Ascends(ph.rows) && AllStored(ph.rows, ph.account, ph.key.1, ys[q].db)
  {
    q := LookHistory(ys, as_, lim, r, n);
    var ph := ys[n].flights[r].phase;
    TableAscends(ys, as_, lim, q);
    LookedFrom(ys[q].db, ph.account, ph.key.1, ph.from.id, REPLAY_CHUNK);
  }

  /** Each chunk that a replay sends is in ascending order, of rows of the pair that were stored when it looked. */
  lemma SentWasStored(ys: seq<Sys>, as_: seq<SysEvent>, lim: Limits, r: nat, k: Key, n: nat) returns (q: nat)
    requires SysRun(ys, as_, lim) && lim.perIp >= 1 && n < |as_| && SentAt(ys[n], as_[n], r, k) != []
    ensures q < n && as_[q] == LookUp(r) && k.0 < |LogFor(ys[n], r).keys|
    ensures AllStored(SentAt(ys[n], as_[n], r, k), LogFor(ys[n], r).keys[k.0], k.1, ys[q].db)
    ensures Ascends(SentAt(ys[n], as_[n], r, k)) && Ascends(ys[n].flights[r].phase.rows)
  {
    q := LookedIsSound(ys, as_, lim, r, n);
    TakenIsSound(ys, as_, lim, r, n);
    SentIsSound(ys[n], as_[n], r, k, ys[q].db);
  }

  lemma SentIsSound(y: Sys, a: SysEvent, r: nat, k: Key, db: seq<Row>)
    requires SentAt(y, a, r, k) != []
    requires var ph := y.flights[r].phase; Ascends(ph.rows) && AllStored(ph.rows, ph.account, ph.key.1, db)
    ensures AllStored(SentAt(y, a, r, k), y.flights[r].phase.account, k.1, db) && Ascends(SentAt(y, a, r, k))
  {
    SentOfAscends(y.flights[r].phase.rows, LogFor(y, r).missed[k].id);
    SentWasLooked(y, a, r, k);
  }

  lemma SentWasLooked(y: Sys, a: SysEvent, r: nat, k: Key)
    ensures SentAt(y, a, r, k) != [] ==> forall x :: x in SentAt(y, a, r, k) ==> x in y.flights[r].phase.rows
  {
  }

  lemma TableAscends(ys: seq<Sys>, as_: seq<SysEvent>, lim: Limits, n: nat)
    requires SysRun(ys, as_, lim) && lim.perIp >= 1 && n < |ys|
    ensures Ascending(ys[n].db)
  {
    SysRunKeeps(ys, as_, lim, n);
  }

  lemma TakenIsSound(ys: seq<Sys>, as_: seq<SysEvent>, lim: Limits, r: nat, n: nat)
    requires SysRun(ys, as_, lim) && lim.perIp >= 1 && n < |ys| && Flying(ys[n], r)
    ensures var ph := ys[n].flights[r].phase; ph.Taken? || ph.Looked? ==> TakenSound(LogFor(ys[n], r), ph.account, ph.key, ph.from)
  {
    SysRunKeeps(ys, as_, lim, n);
    FlyingIsSound(ys[n], lim, r);
  }

  lemma FlyingIsSound(y: Sys, lim: Limits, r: nat)
    requires SysInv(y, lim) && Flying(y, r)
    ensures var ph := y.flights[r].phase; ph.Taken? || ph.Looked? ==> TakenSound(LogFor(y, r), ph.account, ph.key, ph.from)
  {
    assert PhaseSound(LogFor(y, r), y.owed[y.flights[r].sid], y.flights[r].phase);
  }

  lemma {:induction false} RunStaysBeyond(ys: seq<Sys>, as_: seq<SysEvent>, lim: Limits, r: nat, k: Key, id: int, i: nat,
                                          n: nat)
    requires SysRun(ys, as_, lim) && lim.perIp >= 1 && i <= n < |ys|
    requires Flying(ys[i], r) && Flying(ys[n], r) && Beyond(ys[i], r, k, id)
    ensures Beyond(ys[n], r, k, id)
  {
    if i < n {
      FlewBefore(ys, as_, lim, r, i, n);
      RunStaysBeyond(ys, as_, lim, r, k, id, i, n - 1);
      StepStaysBeyond(ys, as_, lim, r, k, id, n - 1);
    }
  }

  lemma StepStaysBeyond(ys: seq<Sys>, as_: seq<SysEvent>, lim: Limits, r: nat, k: Key, id: int, n: nat)
    requires SysRun(ys, as_, lim) && lim.perIp >= 1 && n < |as_|
    requires Flying(ys[n], r) && Flying(ys[n + 1], r) && Beyond(ys[n], r, k, id)
    ensures Beyond(ys[n + 1], r, k, id)
  {
    StepAt(ys, as_, lim, r, n);
    TableAscends(ys, as_, lim, n);
    BeyondStays(ys[n], as_[n], ys[n + 1], r, k, id);
  }

  lemma SentAtStep(ys: seq<Sys>, as_: seq<SysEvent>, lim: Limits, r: nat, k: Key, id: int, i: nat)
    requires SysRun(ys, as_, lim) && lim.perIp >= 1 && i < |as_| && Flying(ys[i + 1], r) && id in SentAt(ys[i], as_[i], r, k)
    ensures Beyond(ys[i + 1], r, k, id)
  {
    var _ := SentWasStored(ys, as_, lim, r, k, i);
    StepAt(ys, as_, lim, r, i);
    AppliedIsIdle(ys, as_, lim, r, i);
    SentIsBeyond(ys[i], as_[i], ys[i + 1], r, k, id);
  }

  lemma AppliedIsIdle(ys: seq<Sys>, as_: seq<SysEvent>, lim: Limits, r: nat, i: nat)
    requires SysRun(ys, as_, lim) && i < |as_| && as_[i].ApplyChunk? && as_[i].replay == r
    ensures r in ys[i + 1].flights && ys[i + 1].flights[r].phase.Idle?
  {
    assert SysSteps(ys, as_, lim, i);
  }

  /** Whatever changes between its chunks, what a replay sends of a pair strictly ascends, from each chunk to any
      later one: so it sends no row twice. */
  lemma ReplayAscends(ys: seq<Sys>, as_: seq<SysEvent>, lim: Limits, r: nat, k: Key, i: nat, n: nat, x: int, z: int)
    requires SysRun(ys, as_, lim) && lim.perIp >= 1 && i < n < |as_|
    requires x in SentAt(ys[i], as_[i], r, k) && z in SentAt(ys[n], as_[n], r, k)
    ensures x < z
  {
    SentIsFlying(ys[n], as_[n], r, k);
    SentStaysBeyond(ys, as_, lim, r, k, i, n, x);
    SentAbove(ys[n], as_[n], r, k, x, z);
  }

  lemma SentStaysBeyond(ys: seq<Sys>, as_: seq<SysEvent>, lim: Limits, r: nat, k: Key, i: nat, n: nat, id: int)
    requires SysRun(ys, as_, lim) && lim.perIp >= 1 && i < n < |ys| && Flying(ys[n], r) && id in SentAt(ys[i], as_[i], r, k)
    ensures Beyond(ys[n], r, k, id)
  {
    WasFlying(ys, as_, lim, r, i, i + 1, n);
    SentAtStep(ys, as_, lim, r, k, id, i);
    RunStaysBeyond(ys, as_, lim, r, k, id, i + 1, n);
  }

  lemma SentAbove(y: Sys, a: SysEvent, r: nat, k: Key, x: int, z: int)
    requires Flying(y, r) && Beyond(y, r, k, x) && z in SentAt(y, a, r, k)
    ensures x < z
  {
  }

  lemma SentIsFlying(y: Sys, a: SysEvent, r: nat, k: Key)
    requires SentAt(y, a, r, k) != []
    ensures Flying(y, r)
  {
  }

  /** A replay sends no more than 64 rows of a pair in a step; and it is done with the pair by a step exactly if it
      found fewer than 64 of its rows. */
  lemma ChunksOf64(ys: seq<Sys>, as_: seq<SysEvent>, lim: Limits, r: nat, k: Key, n: nat)
    requires SysRun(ys, as_, lim) && n < |as_| && as_[n].ApplyChunk? && as_[n].replay == r && Flying(ys[n], r) && Flying(ys[n + 1], r)
    requires ys[n].flights[r].phase.Looked? && ys[n].flights[r].phase.key == k && k in LogFor(ys[n], r).missed
    ensures |SentAt(ys[n], as_[n], r, k)| <= |ys[n].flights[r].phase.rows| <= 64
    ensures k !in LogFor(ys[n + 1], r).missed <==> |ys[n].flights[r].phase.rows| < 64
  {
    var _ := LookHistory(ys, as_, lim, r, n);
    assert SysSteps(ys, as_, lim, n);
    ApplyMoves(ys[n], r, as_[n].now, ys[n + 1], r);
    SentNoMore(ys[n].flights[r].phase.rows, LogFor(ys[n], r).missed[k].id);
  }

  lemma {:induction false} SentNoMore(rows: seq<int>, start: int)
    ensures |SentOf(rows, start)| <= |rows|
  {
    if rows != [] { SentNoMore(rows[..|rows| - 1], start); }
  }

  // ---- Every row

  /** The row is still to be sent: it is from the pair's start on, and a chunk of the pair in hand has it, or is full
      and ends before it. */
  ghost predicate Ahead(y: Sys, r: nat, k: Key, a: Account, id: int)
    requires Flying(y, r)
  {
    var l, ph := LogFor(y, r), y.flights[r].phase;
    && k.0 < |l.keys| && l.keys[k.0] == a && k in l.missed && l.missed[k].id <= id
    && (ph.Looked? && ph.key == k ==> id in ph.rows || (|ph.rows| == REPLAY_CHUNK && ph.rows[REPLAY_CHUNK - 1] < id))
  }

  /** A resume's limit raised the pair's start past the row. */
  ghost predicate RaisedPast(y: Sys, e: SysEvent, r: nat, p: Pair, id: int) {
    && e.RaiseStarts? && Flying(y, r) && e.replay in y.flights && y.flights[e.replay].phase.Limiting?
    && y.flights[e.replay].sid == y.flights[r].sid
    && p in y.flights[e.replay].phase.starts && id < y.flights[e.replay].phase.starts[p]
  }

  lemma ChunkHasIt(y: Sys, e: SysEvent, y': Sys, r: nat, k: Key, a: Account, id: int)
    requires Ascending(y.db) && LogMoves(y, e, y', r) && PhaseMoves(y, e, y', r) && Ahead(y, r, k, a, id) && Row(id, a, k.1) in y.db
    requires var ph := y.flights[r].phase; ph.Taken? ==> TakenSound(LogFor(y, r), ph.account, ph.key, ph.from)
    ensures var ph' := y'.flights[r].phase;
      ph'.Looked? && ph'.key == k ==> id in ph'.rows || (|ph'.rows| == REPLAY_CHUNK && ph'.rows[REPLAY_CHUNK - 1] < id)
  {
    var ph, ph' := y.flights[r].phase, y'.flights[r].phase;
    if ph'.Looked? && ph'.key == k && ph' != ph {
      LookupFinds(y.db, a, k.1, ph'.from.id, REPLAY_CHUNK, id);
    }
  }

  lemma StartStaysAhead(y: Sys, e: SysEvent, y': Sys, r: nat, k: Key, a: Account, id: int)
    requires LogMoves(y, e, y', r) && Ahead(y, r, k, a, id) && id !in SentAt(y, e, r, k) && !RaisedPast(y, e, r, (a, k.1), id)
    ensures var l' := LogFor(y', r); k.0 < |l'.keys| && l'.keys[k.0] == a && k in l'.missed && l'.missed[k].id <= id
  {
    var l, ph := LogFor(y, r), y.flights[r].phase;
    assert LogFor(y', r).keys[..|l.keys|] == l.keys;
  }

  lemma RunStaysAhead(ys: seq<Sys>, as_: seq<SysEvent>, lim: Limits, r: nat, k: Key, a: Account, id: int, n: nat)
    requires SysRun(ys, as_, lim) && lim.perIp >= 1 && n < |as_| && Flying(ys[n], r) && Flying(ys[n + 1], r)
    requires Ahead(ys[n], r, k, a, id) && Row(id, a, k.1) in ys[n].db
    requires !SendsOrPasses(ys[n], as_[n], r, k, a, id)
    ensures Ahead(ys[n + 1], r, k, a, id)
  {
    StepAt(ys, as_, lim, r, n);
    TableAscends(ys, as_, lim, n);
    TakenIsSound(ys, as_, lim, r, n);
    ChunkHasIt(ys[n], as_[n], ys[n + 1], r, k, a, id);
    StartStaysAhead(ys[n], as_[n], ys[n + 1], r, k, a, id);
  }

  ghost predicate SendsOrPasses(y: Sys, e: SysEvent, r: nat, k: Key, a: Account, id: int) {
    id in SentAt(y, e, r, k) || RaisedPast(y, e, r, (a, k.1), id)
  }

  /** Between `i` and `n` the replay sends the row, or a limit passes over it. */
  ghost predicate SentOrPassed(ys: seq<Sys>, as_: seq<SysEvent>, r: nat, k: Key, a: Account, id: int, i: nat, n: nat)
    requires |ys| == |as_| + 1 && n <= |as_|
  {
    exists j :: i <= j < n && SendsOrPasses(ys[j], as_[j], r, k, a, id)
  }

  ghost predicate StaysStored(ys: seq<Sys>, row: Row, i: nat, n: nat)
    requires n < |ys|
  {
    forall j :: i <= j <= n ==> row in ys[j].db
  }

  lemma {:induction false} SentOrAhead(ys: seq<Sys>, as_: seq<SysEvent>, lim: Limits, r: nat, k: Key, a: Account, id: int,
                                       i: nat, n: nat)
    requires SysRun(ys, as_, lim) && lim.perIp >= 1 && i <= n < |ys| && Flying(ys[i], r) && Flying(ys[n], r)
    requires Ahead(ys[i], r, k, a, id) && StaysStored(ys, Row(id, a, k.1), i, n)
    ensures SentOrPassed(ys, as_, r, k, a, id, i, n) || Ahead(ys[n], r, k, a, id)
  {
    if i < n {
      FlewBefore(ys, as_, lim, r, i, n);
      SentOrAhead(ys, as_, lim, r, k, a, id, i, n - 1);
      if SentOrPassed(ys, as_, r, k, a, id, i, n - 1) {
        var j :| i <= j < n - 1 && SendsOrPasses(ys[j], as_[j], r, k, a, id);
        assert i <= j < n;
      } else if !SendsOrPasses(ys[n - 1], as_[n - 1], r, k, a, id) {
        RunStaysAhead(ys, as_, lim, r, k, a, id, n - 1);
      }
    }
  }

  /** Whatever changes between its chunks, a row of a pair from its start on that stays stored from before the replay
      takes the pair until it is past the row, or done with the pair, is sent by it: unless a resume's limit raised
      the pair's start past the row meanwhile. */
  lemma ReplaySendsEach(ys: seq<Sys>, as_: seq<SysEvent>, lim: Limits, r: nat, k: Key, id: int, i: nat, n: nat)
    requires SysRun(ys, as_, lim) && lim.perIp >= 1 && i <= n < |ys| && Flying(ys[i], r) && Flying(ys[n], r)
    requires ys[i].flights[r].phase.Idle? && k in LogFor(ys[i], r).missed && k.0 < |LogFor(ys[i], r).keys|
    requires LogFor(ys[i], r).missed[k].id <= id
    requires StaysStored(ys, Row(id, LogFor(ys[i], r).keys[k.0], k.1), i, n)
    requires k !in LogFor(ys[n], r).missed || id < LogFor(ys[n], r).missed[k].id
    ensures SentOrPassed(ys, as_, r, k, LogFor(ys[i], r).keys[k.0], id, i, n)
  {
    SentOrAhead(ys, as_, lim, r, k, LogFor(ys[i], r).keys[k.0], id, i, n);
  }
}

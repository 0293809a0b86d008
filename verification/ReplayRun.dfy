/** A replay left to finish. */
module ReplayRun {
  import opened MonitorTypes
  import opened SessionLog
  import opened MonitorCore
  import opened MessageTable
  import opened Sweeping

  // ---- Chunks of a pair's rows

  lemma {:induction false} IdsFromLow(db: seq<Row>, a: Account, ns: Namespace, from: int, from': int)
    requires forall i :: 0 <= i < |db| ==> from <= db[i].id && from' <= db[i].id
    ensures IdsFrom(db, a, ns, from) == IdsFrom(db, a, ns, from')
  {
    if db != [] { IdsFromLow(db[1..], a, ns, from, from'); }
  }

  /** Looking up again from after the `n`-th row finds the rest. */
  lemma {:induction false} IdsFromAfter(db: seq<Row>, a: Account, ns: Namespace, from: int, n: nat)
    requires Ascending(db) && 1 <= n <= |IdsFrom(db, a, ns, from)|
    ensures var ids := IdsFrom(db, a, ns, from); IdsFrom(db, a, ns, ids[n - 1] + 1) == ids[n..]
  {
    var ids := IdsFrom(db, a, ns, from);
    var rest := IdsFrom(db[1..], a, ns, from);
    IdsFromLast(db, a, ns, from, n);
    if Ours(db[0], a, ns, from) {
      assert ids == [db[0].id] + rest;
      assert ids[n..] == rest[n - 1..];
      if n == 1 {
        IdsFromLow(db[1..], a, ns, from, ids[0] + 1);
      } else {
        IdsFromAfter(db[1..], a, ns, from, n - 1);
      }
    } else {
      assert ids == rest;
      IdsFromAfter(db[1..], a, ns, from, n);
    }
  }

  predicate Ours(r: Row, a: Account, ns: Namespace, from: int) {
    r.account == a && r.ns == ns && from <= r.id
  }

  /** The table's first row is not after any that a lookup finds. */
  lemma IdsFromLast(db: seq<Row>, a: Account, ns: Namespace, from: int, n: nat)
    requires Ascending(db) && 1 <= n <= |IdsFrom(db, a, ns, from)|
    ensures db[0].id <= IdsFrom(db, a, ns, from)[n - 1] && from <= IdsFrom(db, a, ns, from)[n - 1]
  {
    var id := IdsFrom(db, a, ns, from)[n - 1];
    IdsFromMembers(db, a, ns, from, id);
    var i :| 0 <= i < |db| && db[i] == Row(id, a, ns);
  }

  /** A chunk and what is then left of the pair are what was left of it before. */
  lemma {:induction false} ChunkThenRest(db: seq<Row>, a: Account, ns: Namespace, from: int)
    requires Ascending(db)
    ensures var rows := Lookup(db, a, ns, from, REPLAY_CHUNK); var ids := IdsFrom(db, a, ns, from);
      && |rows| <= REPLAY_CHUNK
      && (|rows| < REPLAY_CHUNK ==> ids == rows)
      && (|rows| == REPLAY_CHUNK ==> ids == rows + IdsFrom(db, a, ns, rows[REPLAY_CHUNK - 1] + 1))
  {
    var ids := IdsFrom(db, a, ns, from);
    TakeThenRest(ids, REPLAY_CHUNK);
    if REPLAY_CHUNK <= |ids| { IdsFromAfter(db, a, ns, from, REPLAY_CHUNK); }
  }

  lemma TakeThenRest(ids: seq<int>, n: nat)
    ensures |Take(ids, n)| <= n && (|Take(ids, n)| < n ==> ids == Take(ids, n))
    ensures |Take(ids, n)| == n ==> n <= |ids| && ids == Take(ids, n) + ids[n..] && (n > 0 ==> Take(ids, n)[n - 1] == ids[n - 1])
  {
  }

  lemma {:induction false} SentAll(rows: seq<int>, start: int)
    requires forall i :: 0 <= i < |rows| ==> start <= rows[i]
    ensures SentOf(rows, start) == rows
  {
    if rows != [] {
      var k := |rows| - 1;
      assert rows == rows[..k] + [rows[k]];
      SentAll(rows[..k], start);
    }
  }

  // ---- What has been sent of a pair

  function IdsSent(out: seq<Recent>, k: (nat, Namespace)): seq<int> {
    if out == [] then []
    else
      var last := out[|out| - 1];
      var before := IdsSent(out[..|out| - 1], k);
      if (last.account, last.ns) == k then before + [last.id] else before
  }

  lemma IdsSentOneMore(out: seq<Recent>, r: Recent, q: (nat, Namespace))
    ensures IdsSent(out + [r], q) == if (r.account, r.ns) == q then IdsSent(out, q) + [r.id] else IdsSent(out, q)
  {
    var all := out + [r];
    assert all[..|all| - 1] == out && all[|all| - 1] == r;
  }

  lemma AsRecentOneMore(out: seq<Recent>, ids: seq<int>, k: (nat, Namespace), wantData: bool, now: Time)
    requires ids != []
    ensures var n := |ids| - 1;
      out + AsRecent(ids, k, wantData, now) == out + AsRecent(ids[..n], k, wantData, now) + [Recent(now, ids[n], k.0, k.1, wantData)]
  {
  }

  lemma {:induction false} IdsSentOfChunk(out: seq<Recent>, ids: seq<int>, k: (nat, Namespace), wantData: bool,
                                          now: Time, q: (nat, Namespace))
    ensures IdsSent(out + AsRecent(ids, k, wantData, now), q) == if q == k then IdsSent(out, q) + ids else IdsSent(out, q)
    decreases |ids|
  {
    if ids == [] {
      assert out + AsRecent(ids, k, wantData, now) == out;
    } else {
      var n := |ids| - 1;
      IdsSentOfChunk(out, ids[..n], k, wantData, now, q);
      AsRecentOneMore(out, ids, k, wantData, now);
      IdsSentOneMore(out + AsRecent(ids[..n], k, wantData, now), Recent(now, ids[n], k.0, k.1, wantData), q);
      assert ids == ids[..n] + [ids[n]];
    }
  }

  /** What is still to be sent of a pair. */
  function LeftOf(l: Log, db: seq<Row>, k: (nat, Namespace)): seq<int> {
    if k in l.missed && k.0 < |l.keys| then IdsFrom(db, l.keys[k.0], k.1, l.missed[k].id) else []
  }

  /** So far, what was sent of each pair and what is left of it are the pair's rows from its start on; and
      everything sent has the data flag of its pair. */
  ghost predicate Progress(was: Log, l: Log, db: seq<Row>, out: seq<Recent>) {
    && l == was.(recent := was.recent + out, missed := l.missed) && l.missed.Keys <= was.missed.Keys
    && (forall k :: PairProgress(was, l, db, out, k))
    && (forall k :: k in l.missed ==> l.missed[k].wantData == was.missed[k].wantData)
  }

  ghost predicate PairProgress(was: Log, l: Log, db: seq<Row>, out: seq<Recent>, k: (nat, Namespace)) {
    IdsSent(out, k) + LeftOf(l, db, k) == LeftOf(was, db, k)
  }

  ghost predicate Flagged(was: Log, out: seq<Recent>) {
    forall i :: 0 <= i < |out| ==>
      (out[i].account, out[i].ns) in was.missed && out[i].wantData == was.missed[(out[i].account, out[i].ns)].wantData
  }

  /** What a chunk of pair `k` leaves. */
  function AfterChunk(l: Log, db: seq<Row>, k: (nat, Namespace), now: Time): Log
    requires k in l.missed && k.0 < |l.keys|
  {
    Advanced(l, k, l.missed[k], Lookup(db, l.keys[k.0], k.1, l.missed[k].id, REPLAY_CHUNK), now)
  }

  lemma RowsAreFrom(db: seq<Row>, a: Account, ns: Namespace, from: int, limit: nat)
    ensures var rows := Lookup(db, a, ns, from, limit); forall i :: 0 <= i < |rows| ==> from <= rows[i]
  {
    var rows := Lookup(db, a, ns, from, limit);
    forall i | 0 <= i < |rows| ensures from <= rows[i] {
      IdsFromMembers(db, a, ns, from, rows[i]);
    }
  }

  lemma ChunkSends(l: Log, db: seq<Row>, k: (nat, Namespace), now: Time)
    requires k in l.missed && k.0 < |l.keys|
    ensures var rows := Lookup(db, l.keys[k.0], k.1, l.missed[k].id, REPLAY_CHUNK);
      && SentOf(rows, l.missed[k].id) == rows
      && AfterChunk(l, db, k, now).recent == l.recent + AsRecent(rows, k, l.missed[k].wantData, now)
  {
    var rows := Lookup(db, l.keys[k.0], k.1, l.missed[k].id, REPLAY_CHUNK);
    RowsAreFrom(db, l.keys[k.0], k.1, l.missed[k].id, REPLAY_CHUNK);
    SentAll(rows, l.missed[k].id);
  }

  lemma ChunkLeaves(l: Log, db: seq<Row>, k: (nat, Namespace), now: Time, q: (nat, Namespace))
    requires Ascending(db) && k in l.missed && k.0 < |l.keys|
    ensures var rows := Lookup(db, l.keys[k.0], k.1, l.missed[k].id, REPLAY_CHUNK);
      LeftOf(l, db, q) == if q == k then rows + LeftOf(AfterChunk(l, db, k, now), db, q) else LeftOf(AfterChunk(l, db, k, now), db, q)
  {
    if q == k { ChunkThenRest(db, l.keys[k.0], k.1, l.missed[k].id); }
  }

  lemma ChunkProgresses(was: Log, l: Log, db: seq<Row>, out: seq<Recent>, k: (nat, Namespace), now: Time)
    requires Ascending(db) && Progress(was, l, db, out) && k in l.missed && k.0 < |l.keys|
    ensures var rows := Lookup(db, l.keys[k.0], k.1, l.missed[k].id, REPLAY_CHUNK);
      Progress(was, AfterChunk(l, db, k, now), db, out + AsRecent(rows, k, l.missed[k].wantData, now))
  {
    ChunkAdds(was, l, db, out, k, now);
    AllProgress(was, l, db, out, k, now);
  }

  lemma ChunkAdds(was: Log, l: Log, db: seq<Row>, out: seq<Recent>, k: (nat, Namespace), now: Time)
    requires l == was.(recent := was.recent + out, missed := l.missed) && k in l.missed && k.0 < |l.keys|
    ensures var rows := Lookup(db, l.keys[k.0], k.1, l.missed[k].id, REPLAY_CHUNK); var r := AfterChunk(l, db, k, now);
      r == was.(recent := was.recent + (out + AsRecent(rows, k, l.missed[k].wantData, now)), missed := r.missed)
  {
    var rows := Lookup(db, l.keys[k.0], k.1, l.missed[k].id, REPLAY_CHUNK);
    ChunkSends(l, db, k, now);
    RegroupSent(was.recent, out, AsRecent(rows, k, l.missed[k].wantData, now));
    assert AfterChunk(l, db, k, now) == l.(recent := AfterChunk(l, db, k, now).recent, missed := AfterChunk(l, db, k, now).missed);
  }

  lemma RegroupSent(a: seq<Recent>, b: seq<Recent>, c: seq<Recent>)
    ensures a + (b + c) == a + b + c
  {
  }

  lemma AllProgress(was: Log, l: Log, db: seq<Row>, out: seq<Recent>, k: (nat, Namespace), now: Time)
    requires Ascending(db) && (forall q :: PairProgress(was, l, db, out, q)) && k in l.missed && k.0 < |l.keys|
    ensures var rows := Lookup(db, l.keys[k.0], k.1, l.missed[k].id, REPLAY_CHUNK);
      forall q :: PairProgress(was, AfterChunk(l, db, k, now), db, out + AsRecent(rows, k, l.missed[k].wantData, now), q)
  {
    var rows := Lookup(db, l.keys[k.0], k.1, l.missed[k].id, REPLAY_CHUNK);
    forall q
      ensures PairProgress(was, AfterChunk(l, db, k, now), db, out + AsRecent(rows, k, l.missed[k].wantData, now), q)
    {
      PairProgresses(was, l, db, out, k, now, q);
    }
  }

  lemma PairProgresses(was: Log, l: Log, db: seq<Row>, out: seq<Recent>, k: (nat, Namespace), now: Time, q: (nat,
                       Namespace))
    requires Ascending(db) && PairProgress(was, l, db, out, q) && k in l.missed && k.0 < |l.keys|
    ensures var rows := Lookup(db, l.keys[k.0], k.1, l.missed[k].id, REPLAY_CHUNK);
      PairProgress(was, AfterChunk(l, db, k, now), db, out + AsRecent(rows, k, l.missed[k].wantData, now), q)
  {
    var rows := Lookup(db, l.keys[k.0], k.1, l.missed[k].id, REPLAY_CHUNK);
    ChunkLeaves(l, db, k, now, q);
    IdsSentOfChunk(out, rows, k, l.missed[k].wantData, now, q);
    Regroup(IdsSent(out, q), rows, LeftOf(AfterChunk(l, db, k, now), db, q));
  }

  lemma Regroup(a: seq<int>, b: seq<int>, c: seq<int>)
    ensures a + (b + c) == a + b + c
  {
  }

  // ---- To the end

  ghost function TheFirst(keys: set<(nat, Namespace)>): (nat, Namespace) {
    if keys == {} then (0, 0) else FirstExists(keys); var k :| FirstOf(keys, k); k
  }

  lemma FirstIsUnique(keys: set<(nat, Namespace)>, k: (nat, Namespace))
    requires FirstOf(keys, k)
    ensures TheFirst(keys) == k
  {
    var t := TheFirst(keys);
    assert FirstOf(keys, t);
    assert Before(t, k) && Before(k, t);
  }

  lemma ChunkShrinks(l: Log, db: seq<Row>, k: (nat, Namespace), now: Time)
    requires Ascending(db) && k in l.missed && k.0 < |l.keys|
    ensures var r := AfterChunk(l, db, k, now);
      r.missed.Keys == l.missed.Keys - {k} || (r.missed.Keys == l.missed.Keys && |LeftOf(r, db, k)| < |LeftOf(l, db, k)|)
  {
    ChunkLeaves(l, db, k, now, k);
  }

  /** A replay that nothing interrupts: one pair after another, chunk by chunk, until nothing is left.  It
      ends, having sent of each pair exactly the stored rows from its start on, in ascending order, and
      everything that it sent is in the recent log. */
  method Replay(was: Log, db: seq<Row>, now: Time) returns (l: Log, chunks: seq<seq<int>>, ghost out: seq<Recent>)
    requires WellFormed(was) && Ascending(db)
    ensures l.missed == map[] && l == was.(recent := was.recent + out, missed := map[])
    ensures forall k :: IdsSent(out, k) == LeftOf(was, db, k)
    ensures Flagged(was, out)
    ensures Flattened(chunks) == SentIds(out) && Chunked(chunks)
  {
    l, chunks, out := was, [], [];
    BeginReplay(was, db);
    while l.missed.Keys != {}
      invariant Going(was, l, db, out, chunks)
      decreases l.missed.Keys, |LeftOf(l, db, TheFirst(l.missed.Keys))|
    {
      FirstExists(l.missed.Keys);
      var k :| k in l.missed.Keys && FirstOf(l.missed.Keys, k);
      KeysWithin(was, l, k);
      var from := l.missed[k];
      var rows := Lookup(db, l.keys[k.0], k.1, from.id, REPLAY_CHUNK);
      GoOn(was, l, db, out, chunks, k, now);
      var sent;
      l, sent := Advance(l, k, from, rows, now);
      out := out + AsRecent(rows, k, from.wantData, now);
      if sent != [] {
        chunks := chunks + [sent];
      }
    }
    EndReplay(was, l, db, out, chunks);
  }

  /** A replay under way. */
  ghost predicate Going(was: Log, l: Log, db: seq<Row>, out: seq<Recent>, chunks: seq<seq<int>>) {
    && Progress(was, l, db, out) && Flagged(was, out) && Flattened(chunks) == SentIds(out) && Chunked(chunks)
  }

  ghost predicate Chunked(chunks: seq<seq<int>>) {
    forall i :: 0 <= i < |chunks| ==> 1 <= |chunks[i]| <= 64
  }

  lemma BeginReplay(was: Log, db: seq<Row>)
    ensures Going(was, was, db, [], [])
  {
    assert was.recent + [] == was.recent;
    forall k ensures PairProgress(was, was, db, [], k) {
      assert [] + LeftOf(was, db, k) == LeftOf(was, db, k);
    }
  }

  lemma GoOn(was: Log, l: Log, db: seq<Row>, out: seq<Recent>, chunks: seq<seq<int>>, k: (nat, Namespace), now: Time)
    requires Ascending(db) && Going(was, l, db, out, chunks) && FirstOf(l.missed.Keys, k) && k.0 < |l.keys|
    ensures var rows := Lookup(db, l.keys[k.0], k.1, l.missed[k].id, REPLAY_CHUNK); var r := AfterChunk(l, db, k, now);
      && SentOf(rows, l.missed[k].id) == rows
      && Going(was, r, db, out + AsRecent(rows, k, l.missed[k].wantData, now), if rows == [] then chunks else chunks + [rows])
      && (r.missed.Keys < l.missed.Keys
          || (r.missed.Keys == l.missed.Keys && |LeftOf(r, db, TheFirst(r.missed.Keys))| < |LeftOf(l, db, TheFirst(l.missed.Keys))|))
  {
    var rows := Lookup(db, l.keys[k.0], k.1, l.missed[k].id, REPLAY_CHUNK);
    FirstIsUnique(l.missed.Keys, k);
    ChunkProgresses(was, l, db, out, k, now);
    ChunkShrinks(l, db, k, now);
    ChunkSends(l, db, k, now);
    ChunkIsSent(out, k, l.missed[k].wantData, chunks, rows, now);
    ChunkIsFlagged(was, out, k, rows, now);
  }

  lemma EndReplay(was: Log, l: Log, db: seq<Row>, out: seq<Recent>, chunks: seq<seq<int>>)
    requires Going(was, l, db, out, chunks) && l.missed.Keys == {}
    ensures l.missed == map[] && l == was.(recent := was.recent + out, missed := map[])
    ensures forall k :: IdsSent(out, k) == LeftOf(was, db, k)
  {
    forall k ensures IdsSent(out, k) == LeftOf(was, db, k) {
      assert PairProgress(was, l, db, out, k);
    }
  }

  lemma KeysWithin(was: Log, l: Log, k: (nat, Namespace))
    requires WellFormed(was) && l == was.(recent := l.recent, missed := l.missed) && l.missed.Keys <= was.missed.Keys && k in l.missed
    ensures k.0 < |l.keys|
  {
  }

  function Flattened(chunks: seq<seq<int>>): seq<int> {
    if chunks == [] then [] else Flattened(chunks[..|chunks| - 1]) + chunks[|chunks| - 1]
  }

  function SentIds(out: seq<Recent>): seq<int> {
    seq(|out|, i requires 0 <= i < |out| => out[i].id)
  }

  lemma ChunkIsSent(out: seq<Recent>, k: (nat, Namespace), wantData: bool, chunks: seq<seq<int>>, rows: seq<int>,
                    now: Time)
    requires Flattened(chunks) == SentIds(out)
    ensures SentIds(out + AsRecent(rows, k, wantData, now)) == Flattened(if rows == [] then chunks else chunks + [rows])
  {
    assert SentIds(out + AsRecent(rows, k, wantData, now)) == SentIds(out) + rows;
    assert (chunks + [rows])[..|chunks|] == chunks;
  }

  lemma ChunkIsFlagged(was: Log, out: seq<Recent>, k: (nat, Namespace), rows: seq<int>, now: Time)
    requires Flagged(was, out) && k in was.missed
    ensures Flagged(was, out + AsRecent(rows, k, was.missed[k].wantData, now))
  {
  }

  // ---- An interrupted replay

  lemma {:induction false} SentHas(out: seq<Recent>, k: (nat, Namespace), id: int)
    requires id in IdsSent(out, k)
    ensures exists i :: 0 <= i < |out| && (out[i].account, out[i].ns) == k && out[i].id == id
  {
    var n := |out| - 1;
    if id in IdsSent(out[..n], k) {
      SentHas(out[..n], k, id);
      var i :| 0 <= i < n && (out[..n][i].account, out[..n][i].ns) == k && out[..n][i].id == id;
      assert out[i] == out[..n][i];
    } else {
      assert (out[n].account, out[n].ns) == k && out[n].id == id;
    }
  }

  lemma ProgressKeepsForm(was: Log, l: Log, db: seq<Row>, out: seq<Recent>)
    requires WellFormed(was) && Progress(was, l, db, out) && Flagged(was, out)
    ensures WellFormed(l)
  {
    forall i | 0 <= i < |l.recent| ensures l.recent[i].account < |l.keys| {
      if i >= |was.recent| { assert l.recent[i] == out[i - |was.recent|]; }
    }
  }

  /** Part of the way through, every row of a pair is in the recent log, or from its start on. */
  lemma ProgressCovers(was: Log, l: Log, db: seq<Row>, out: seq<Recent>, k: (nat, Namespace), id: int)
    requires WellFormed(was) && Progress(was, l, db, out) && Flagged(was, out) && id in LeftOf(was, db, k)
    ensures Covered(l, Msg(was.keys[k.0], k.1, id, was.missed[k].wantData))
  {
    var m := Msg(was.keys[k.0], k.1, id, was.missed[k].wantData);
    assert PairProgress(was, l, db, out, k);
    if id in IdsSent(out, k) {
      SentHas(out, k, id);
      var i :| 0 <= i < |out| && (out[i].account, out[i].ns) == k && out[i].id == id;
      assert l.recent[|was.recent| + i] == out[i] && Sends(l, out[i], m);
    } else {
      IdsFromMembers(db, l.keys[k.0], k.1, l.missed[k].id, id);
    }
  }

  /** A replay that is interrupted leaves nothing out: wherever it had got to, each row that it was to send is
      from the pair's start on once its log is folded, so that the next resume's replay has it to send, with data
      if it was wanted, for as long as it is stored. */
  lemma InterruptedIsCovered(was: Log, l: Log, db: seq<Row>, out: seq<Recent>, k: (nat, Namespace), id: int, db': seq<Row>)
    requires WellFormed(was) && Progress(was, l, db, out) && Flagged(was, out) && id in LeftOf(was, db, k)
    ensures InMissed(Folded(l), Msg(was.keys[k.0], k.1, id, was.missed[k].wantData))
    ensures Row(id, was.keys[k.0], k.1) in db' ==> id in LeftOf(Folded(l), db', k)
  {
    ProgressKeepsForm(was, l, db, out);
    ProgressCovers(was, l, db, out, k, id);
    FoldedKeeps(l);
    var f := Folded(l);
    IdsFromMembers(db', was.keys[k.0], k.1, f.missed[k].id, id);
  }
}

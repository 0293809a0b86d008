/** The per-session part of the replay protocol: what `recent` and `missed` say, and what each change to
    them keeps. */
module SessionLog {
  import opened MonitorTypes

  const EmptyLog: Log := Log([], map[], [], map[], 0)

  /** The account table is a bijection, and everything refers into it. */
  ghost predicate WellFormed(l: Log) {
    && (forall i :: 0 <= i < |l.keys| ==> l.keys[i] in l.index && l.index[l.keys[i]] == i)
    && (forall a :: a in l.index ==> l.index[a] < |l.keys| && l.keys[l.index[a]] == a)
    && (forall i :: 0 <= i < |l.recent| ==> l.recent[i].account < |l.keys|)
    && (forall k :: k in l.missed ==> k.0 < |l.keys|)
  }

  /** The log with `a` in its account table. */
  function Interned(l: Log, a: Account): Log {
    if a in l.index then l else l.(keys := l.keys + [a], index := l.index[a := |l.keys|])
  }

  function Lower(m: MissedFrom, id: int, wantData: bool): MissedFrom {
    MissedFrom(if id < m.id then id else m.id, m.wantData || wantData)
  }

  function NoteMissed(l: Log, idx: nat, ns: Namespace, id: int, wantData: bool): Log {
    var k := (idx, ns);
    l.(missed := l.missed[k := if k in l.missed then Lower(l.missed[k], id, wantData)
                               else MissedFrom(id, wantData)])
  }

  /** Everything in the recent log noted as missed, oldest first, and the log emptied. */
  function Folded(l: Log): (r: Log)
    ensures r.keys == l.keys && r.index == l.index && r.replayId == l.replayId && r.recent == []
    decreases |l.recent|
  {
    if l.recent == [] then l
    else
      var r := l.recent[0];
      Folded(NoteMissed(l, r.account, r.ns, r.id, r.wantData).(recent := l.recent[1..]))
  }

  /** Where the kept part of a recent log starts: the first entry not older than the window. */
  function KeptFrom(recent: seq<Recent>, now: Time): (n: nat)
    ensures n <= |recent|
    ensures forall i :: 0 <= i < n ==> recent[i].sent + RECENT_WINDOW < now
    ensures n < |recent| ==> now <= recent[n].sent + RECENT_WINDOW
  {
    if recent == [] || now <= recent[0].sent + RECENT_WINDOW then 0
    else 1 + KeptFrom(recent[1..], now)
  }

  function Pruned(l: Log, now: Time): Log {
    l.(recent := l.recent[KeptFrom(l.recent, now)..])
  }

  /** What a session remembers of a notification matched for it: sent through its connection if it
      has one, missed if not. */
  function Remembered(l: Log, bound: bool, now: Time, m: Msg): Log {
    var l1 := Interned(l, m.account);
    var idx := l1.index[m.account];
    if bound then l1.(recent := l1.recent + [Recent(now, m.id, idx, m.ns, m.wantData)])
    else NoteMissed(l1, idx, m.ns, m.id, m.wantData)
  }

  // ---- Coverage

  predicate Sends(l: Log, r: Recent, m: Msg) {
    && r.account < |l.keys| && l.keys[r.account] == m.account
    && r.ns == m.ns && r.id == m.id && (m.wantData ==> r.wantData)
  }

  ghost predicate InRecent(l: Log, m: Msg) {
    exists i :: 0 <= i < |l.recent| && Sends(l, l.recent[i], m)
  }

  predicate InMissed(l: Log, m: Msg) {
    m.account in l.index &&
    var k := (l.index[m.account], m.ns);
    k in l.missed && l.missed[k].id <= m.id && (m.wantData ==> l.missed[k].wantData)
  }

  /** The next loss of the session's connection, or its replay, will send `m` (again). */
  ghost predicate Covered(l: Log, m: Msg) {
    InRecent(l, m) || InMissed(l, m)
  }

  /** Interning an account keeps the table a bijection, adds the account, and uncovers nothing. */
  lemma InternedKeeps(l: Log, a: Account)
    requires WellFormed(l)
    ensures WellFormed(Interned(l, a))
    ensures a in Interned(l, a).index
    ensures forall m :: InRecent(l, m) ==> InRecent(Interned(l, a), m)
    ensures forall m :: InMissed(l, m) ==> InMissed(Interned(l, a), m)
  {
    var l' := Interned(l, a);
    forall m | InRecent(l, m) ensures InRecent(l', m) {
      var i :| 0 <= i < |l.recent| && Sends(l, l.recent[i], m);
      assert Sends(l', l'.recent[i], m);
    }
  }

  lemma NoteMissedKeeps(l: Log, idx: nat, ns: Namespace, id: int, wantData: bool)
    requires WellFormed(l) && idx < |l.keys|
    ensures WellFormed(NoteMissed(l, idx, ns, id, wantData))
    ensures InMissed(NoteMissed(l, idx, ns, id, wantData), Msg(l.keys[idx], ns, id, wantData))
    ensures forall m :: InMissed(l, m) ==> InMissed(NoteMissed(l, idx, ns, id, wantData), m)
  {
  }

  /** Folding loses nothing: what the recent log or the missed starts covered, the starts now cover. */
  lemma {:induction false} FoldedKeeps(l: Log)
    requires WellFormed(l)
    ensures WellFormed(Folded(l))
    ensures forall m :: Covered(l, m) ==> InMissed(Folded(l), m)
    decreases |l.recent|
  {
    if l.recent != [] {
      var r := l.recent[0];
      var n := NoteMissed(l, r.account, r.ns, r.id, r.wantData);
      var l1 := n.(recent := l.recent[1..]);
      NoteMissedKeeps(l, r.account, r.ns, r.id, r.wantData);
      FoldedKeeps(l1);
      forall m | Covered(l, m) ensures InMissed(Folded(l), m) {
        if InMissed(l, m) {
          assert InMissed(n, m);
          assert InMissed(l1, m);
        } else {
          var i :| 0 <= i < |l.recent| && Sends(l, l.recent[i], m);
          if i == 0 {
            assert InMissed(n, Msg(l.keys[r.account], r.ns, r.id, r.wantData));
            assert InMissed(l1, m);
          } else {
            assert Sends(l1, l1.recent[i - 1], m);
          }
        }
        assert Covered(l1, m);
      }
    }
  }

  /** Folding adds nothing that was not there: a folded start is an old start or a recent entry's id,
      so a replay never begins before the first notification it must repeat. */
  lemma {:induction false} FoldedIsTight(l: Log, k: (nat, Namespace))
    requires k in Folded(l).missed
    ensures (k in l.missed && l.missed[k].id == Folded(l).missed[k].id)
         || exists i :: 0 <= i < |l.recent| && (l.recent[i].account, l.recent[i].ns) == k
                        && l.recent[i].id == Folded(l).missed[k].id
    decreases |l.recent|
  {
    if l.recent != [] {
      var r := l.recent[0];
      var l1 := NoteMissed(l, r.account, r.ns, r.id, r.wantData).(recent := l.recent[1..]);
      FoldedIsTight(l1, k);
      if k in l1.missed && l1.missed[k].id == Folded(l).missed[k].id {
        assert (l.recent[0].account, l.recent[0].ns) == k || l1.missed[k] == l.missed[k];
      } else {
        var i :| 0 <= i < |l1.recent| && (l1.recent[i].account, l1.recent[i].ns) == k
                 && l1.recent[i].id == Folded(l).missed[k].id;
        assert l.recent[i + 1] == l1.recent[i];
      }
    }
  }

  /** Pruning takes entries off the front of the recent log, each sent more than 90 seconds ago, up to the first that was
      not. */
  lemma PrunedExactly(l: Log, now: Time)
    ensures var l' := Pruned(l, now); var n := |l.recent| - |l'.recent|;
      && 0 <= n && l' == l.(recent := l.recent[n..])
      && (forall i :: 0 <= i < n ==> l.recent[i].sent + 90 * 1_000_000_000 < now)
      && (l'.recent != [] ==> now <= l'.recent[0].sent + 90 * 1_000_000_000)
  {
    var n := KeptFrom(l.recent, now);
    assert |Pruned(l, now).recent| == |l.recent| - n;
  }

  /** Pruning uncovers only notifications whose every recent entry is older than the window. */
  lemma PrunedKeeps(l: Log, now: Time, m: Msg)
    requires WellFormed(l) && Covered(l, m)
    ensures WellFormed(Pruned(l, now))
    ensures Covered(Pruned(l, now), m)
         || forall i :: 0 <= i < |l.recent| && Sends(l, l.recent[i], m) ==> l.recent[i].sent + RECENT_WINDOW < now
  {
    var n := KeptFrom(l.recent, now);
    var l' := Pruned(l, now);
    if i :| n <= i < |l.recent| && Sends(l, l.recent[i], m) {
      assert Sends(l', l'.recent[i - n], m);
    }
  }

  /** A matched notification is covered from then on, and nothing else is uncovered. */
  lemma RememberedKeeps(l: Log, bound: bool, now: Time, m: Msg)
    requires WellFormed(l)
    ensures WellFormed(Remembered(l, bound, now, m))
    ensures if bound then InRecent(Remembered(l, bound, now, m), m) else InMissed(Remembered(l, bound, now, m), m)
    ensures forall x :: InRecent(l, x) ==> InRecent(Remembered(l, bound, now, m), x)
    ensures forall x :: InMissed(l, x) ==> InMissed(Remembered(l, bound, now, m), x)
  {
    InternedKeeps(l, m.account);
    var l1 := Interned(l, m.account);
    var idx := l1.index[m.account];
    var l' := Remembered(l, bound, now, m);
    if bound {
      assert Sends(l', l'.recent[|l1.recent|], m);
      forall x | InRecent(l, x) ensures InRecent(l', x) {
        var i :| 0 <= i < |l1.recent| && Sends(l1, l1.recent[i], x);
        assert Sends(l', l'.recent[i], x);
      }
    } else {
      NoteMissedKeeps(l1, idx, m.ns, m.id, m.wantData);
      forall x | InRecent(l, x) ensures InRecent(l', x) {
        var i :| 0 <= i < |l1.recent| && Sends(l1, l1.recent[i], x);
        assert Sends(l', l'.recent[i], x);
      }
    }
  }

  /** The fold as a loop over the entries, oldest first. */
  method FoldLog(l: Log) returns (r: Log)
    ensures r == Folded(l)
  {
    r := l;
    var i := 0;
    while i < |l.recent|
      invariant i <= |l.recent| && r == l.(missed := r.missed)
      invariant Folded(l) == Folded(r.(recent := l.recent[i..]))
    {
      var e := l.recent[i];
      assert l.recent[i..][0] == e && l.recent[i..][1..] == l.recent[i + 1..];
      r := NoteMissed(r, e.account, e.ns, e.id, e.wantData);
      i := i + 1;
    }
    r := r.(recent := []);
  }
}

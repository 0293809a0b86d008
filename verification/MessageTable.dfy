/** The message table as the monitors look it up. */
module MessageTable {
  import opened MonitorTypes

  /** Rows in ascending order of id.  A new row's id is above every other's, though it may have been the
      id of a row since deleted. */
  ghost predicate Ascending(db: seq<Row>) {
    forall i, j :: 0 <= i < j < |db| ==> db[i].id < db[j].id
  }

  predicate StoredIn(db: seq<Row>, m: Msg) {
    Row(m.id, m.account, m.ns) in db
  }

  /** The ids of the pair's rows from `from` on, ascending. */
  function IdsFrom(db: seq<Row>, a: Account, ns: Namespace, from: int): seq<int> {
    if db == [] then []
    else (if db[0].account == a && db[0].ns == ns && from <= db[0].id then [db[0].id] else [])
         + IdsFrom(db[1..], a, ns, from)
  }

  function Take(s: seq<int>, n: nat): seq<int> {
    if |s| <= n then s else s[..n]
  }

  /** The first `limit` of the pair's rows from `from` on. */
  function Lookup(db: seq<Row>, a: Account, ns: Namespace, from: int, limit: nat): seq<int> {
    Take(IdsFrom(db, a, ns, from), limit)
  }

  lemma {:induction false} IdsFromMembers(db: seq<Row>, a: Account, ns: Namespace, from: int, id: int)
    ensures id in IdsFrom(db, a, ns, from) <==> Row(id, a, ns) in db && from <= id
  {
    if db != [] {
      IdsFromMembers(db[1..], a, ns, from, id);
      assert db == [db[0]] + db[1..];
    }
  }

  lemma {:induction false} IdsFromAscending(db: seq<Row>, a: Account, ns: Namespace, from: int)
    requires Ascending(db)
    ensures forall i, j :: 0 <= i < j < |IdsFrom(db, a, ns, from)| ==>
      IdsFrom(db, a, ns, from)[i] < IdsFrom(db, a, ns, from)[j]
  {
    if db != [] {
      var rest := IdsFrom(db[1..], a, ns, from);
      IdsFromAscending(db[1..], a, ns, from);
      forall k | 0 <= k < |rest| ensures db[0].id < rest[k] {
        IdsFromMembers(db[1..], a, ns, from, rest[k]);
        var i :| 0 <= i < |db[1..]| && db[1..][i] == Row(rest[k], a, ns);
        assert db[i + 1] == Row(rest[k], a, ns);
      }
    }
  }

  /** A lookup finds every row from its start on, or else is full and stops before it. */
  lemma LookupFinds(db: seq<Row>, a: Account, ns: Namespace, from: int, limit: nat, id: int)
    requires Ascending(db) && Row(id, a, ns) in db && from <= id && 0 < limit
    ensures var rows := Lookup(db, a, ns, from, limit);
      id in rows || (|rows| == limit && rows[limit - 1] < id)
  {
    var ids := IdsFrom(db, a, ns, from);
    IdsFromMembers(db, a, ns, from, id);
    IdsFromAscending(db, a, ns, from);
    var k :| 0 <= k < |ids| && ids[k] == id;
    if limit < |ids| && limit <= k {
      assert ids[limit - 1] < ids[k];
    }
  }
}

/** A resume's limit on how much of each account is replayed: only the newest rows of the account are left,
    over all of its namespaces together, though no more than one row over the limit is looked up in each. */
module LimitedReplay {
  import opened MonitorTypes
  import opened SessionLog
  import opened MonitorCore
  import opened MessageTable
  import CoreInvariants

  // ---- What there is to replay

  /** The rows that a replay of one account would send: those of each of its namespaces from its start on. */
  function RowsOf(db: seq<Row>, a: Account, from: map<Namespace, int>): set<int> {
    set ns, id | ns in from && id in IdsFrom(db, a, ns, from[ns]) :: id
  }

  /** The starts once those listed are raised. */
  function RaisedTo(from: map<Namespace, int>, starts: map<Namespace, int>): map<Namespace, int> {
    map ns | ns in from :: if ns in starts && from[ns] < starts[ns] then starts[ns] else from[ns]
  }

  /** The namespace's rows that raising the starts leaves out. */
  function DroppedIn(db: seq<Row>, a: Account, from: map<Namespace, int>, starts: map<Namespace, int>,
                     ns: Namespace): set<int>
    requires ns in from
  {
    set id | id in IdsFrom(db, a, ns, from[ns]) && id < RaisedTo(from, starts)[ns]
  }

  /** The limit is met exactly: what is left are the newest rows, as many as the limit allows or all of
      them, and what is reported cut from each namespace is how many rows were dropped there. */
  ghost predicate Limited(db: seq<Row>, a: Account, from: map<Namespace, int>, limit: nat, cut: map<Namespace, nat>, starts: map<Namespace, int>) {
    && KeepsNewest(RowsOf(db, a, from), RowsOf(db, a, RaisedTo(from, starts)), limit)
    && (forall ns :: ns in cut <==> ns in from && DroppedIn(db, a, from, starts, ns) != {})
    && (forall ns :: ns in cut ==> cut[ns] == |DroppedIn(db, a, from, starts, ns)|)
  }

  ghost predicate KeepsNewest(all: set<int>, left: set<int>, limit: nat) {
    && left <= all
    && |left| == (if |all| <= limit then |all| else limit)
    && (forall x, y :: x in left && y in all && y !in left ==> y < x)
  }

  // ---- Sorting

  ghost predicate Descending(s: seq<int>) {
    forall i, j :: 0 <= i < j < |s| ==> s[i] >= s[j]
  }

  function InsertDown(x: int, s: seq<int>): seq<int> {
    if s == [] || x >= s[0] then [x] + s else [s[0]] + InsertDown(x, s[1..])
  }

  function SortDown(s: seq<int>): seq<int> {
    if s == [] then [] else InsertDown(s[0], SortDown(s[1..]))
  }

  lemma {:induction false} InsertDownKeeps(x: int, s: seq<int>)
    ensures multiset(InsertDown(x, s)) == multiset(s) + multiset{x}
  {
    if s != [] && x < s[0] {
      InsertDownKeeps(x, s[1..]);
      assert s == [s[0]] + s[1..];
    }
  }

  lemma {:induction false} InsertDownSorts(x: int, s: seq<int>)
    requires Descending(s)
    ensures Descending(InsertDown(x, s))
  {
    if s != [] && x < s[0] {
      InsertDownSorts(x, s[1..]);
      InsertDownKeeps(x, s[1..]);
      forall y | y in multiset(InsertDown(x, s[1..])) ensures y <= s[0] {
        assert y == x || y in multiset(s[1..]);
      }
      PrependDown(s[0], InsertDown(x, s[1..]));
    }
  }

  lemma PrependDown(x: int, s: seq<int>)
    requires Descending(s) && forall y :: y in multiset(s) ==> y <= x
    ensures Descending([x] + s)
  {
    forall i | 0 <= i < |s| ensures s[i] <= x {
      assert s[i] in multiset(s);
    }
  }

  lemma {:induction false} SortDownSorts(s: seq<int>)
    ensures Descending(SortDown(s)) && multiset(SortDown(s)) == multiset(s)
  {
    if s != [] {
      SortDownSorts(s[1..]);
      InsertDownSorts(s[0], SortDown(s[1..]));
      InsertDownKeeps(s[0], SortDown(s[1..]));
      assert s == [s[0]] + s[1..];
    }
  }

  // ---- Without repeats

  function Elements(s: seq<int>): set<int> {
    set x | x in s
  }

  ghost predicate NoRepeats(s: seq<int>) {
    forall i, j :: 0 <= i < j < |s| ==> s[i] != s[j]
  }

  lemma {:induction false} CountElements(s: seq<int>)
    requires NoRepeats(s)
    ensures |Elements(s)| == |s|
  {
    if s != [] {
      var k := |s| - 1;
      CountElements(s[..k]);
      assert s == s[..k] + [s[k]];
      assert Elements(s) == Elements(s[..k]) + {s[k]};
      assert s[k] !in Elements(s[..k]);
    }
  }

  lemma NoRepeatsByCount(s: seq<int>)
    ensures NoRepeats(s) <==> forall x :: multiset(s)[x] <= 1
  {
    if NoRepeats(s) {
      forall x ensures multiset(s)[x] <= 1 {
        AtMostOnce(s, x);
      }
    } else {
      var i, j :| 0 <= i < j < |s| && s[i] == s[j];
      assert s == s[..j] + s[j..];
      assert s[..j][i] == s[i] && s[j..][0] == s[i];
      assert multiset(s) == multiset(s[..j]) + multiset(s[j..]);
      assert multiset(s)[s[i]] >= 2;
    }
  }

  lemma {:induction false} AtMostOnce(s: seq<int>, x: int)
    requires NoRepeats(s)
    ensures multiset(s)[x] <= 1
  {
    if s != [] {
      var k := |s| - 1;
      AtMostOnce(s[..k], x);
      assert s == s[..k] + [s[k]];
      if s[k] == x { assert x !in s[..k]; }
    }
  }

  /** The first `k` of a descending sequence without repeats are the elements not below the last of them. */
  lemma FirstAreTop(s: seq<int>, k: nat)
    requires Descending(s) && NoRepeats(s) && 1 <= k <= |s|
    ensures (set x | x in s && x >= s[k - 1]) == Elements(s[..k])
    ensures |Elements(s[..k])| == k
  {
    CountElements(s[..k]);
    forall x | x in s && x >= s[k - 1] ensures x in Elements(s[..k]) {
      var i :| 0 <= i < |s| && s[i] == x;
      assert s[..k][i] == x;
    }
    forall x | x in Elements(s[..k]) ensures x in s && x >= s[k - 1] {
      var i :| 0 <= i < k && s[..k][i] == x;
      assert s[i] == x;
    }
  }

  // ---- The newest rows

  /** The namespace's newest rows, newest first, at most `limit` of them. */
  function Newest(db: seq<Row>, a: Account, ns: Namespace, from: int, limit: nat): seq<int> {
    var ids := IdsFrom(db, a, ns, from);
    var n := if |ids| <= limit then |ids| else limit;
    seq(n, i requires 0 <= i < n => ids[|ids| - 1 - i])
  }

  /** What is looked up in a namespace is all of its rows, or else as many as were asked for, all of them
      above any that was not. */
  lemma NewestFinds(db: seq<Row>, a: Account, ns: Namespace, from: int, limit: nat)
    requires Ascending(db)
    ensures var r := Newest(db, a, ns, from, limit); var ids := IdsFrom(db, a, ns, from);
      && NoRepeats(r) && |r| <= limit
      && (forall x :: x in r ==> x in ids)
      && (forall id, x :: id in ids && id !in r && x in r ==> id < x)
      && (forall id :: id in ids && id !in r ==> |r| == limit)
  {
    IdsFromAscending(db, a, ns, from);
    TopOf(IdsFrom(db, a, ns, from), Newest(db, a, ns, from, limit), limit);
  }

  lemma TopOf(ids: seq<int>, r: seq<int>, limit: nat)
    requires forall i, j :: 0 <= i < j < |ids| ==> ids[i] < ids[j]
    requires |r| == (if |ids| <= limit then |ids| else limit) && forall i :: 0 <= i < |r| ==> r[i] == ids[|ids| - 1 - i]
    ensures NoRepeats(r) && (forall x :: x in r ==> x in ids)
    ensures forall id, x :: id in ids && id !in r && x in r ==> id < x
    ensures forall id :: id in ids && id !in r ==> |r| == limit
  {
    assert forall i :: |ids| - |r| <= i < |ids| ==> ids[i] == r[|ids| - 1 - i];
    forall id | id in ids && id !in r ensures |r| == limit && forall x :: x in r ==> id < x {
      var i :| 0 <= i < |ids| && ids[i] == id;
    }
  }

  /** What is looked up for the namespaces of `done`. */
  ghost predicate Gathered(db: seq<Row>, a: Account, from: map<Namespace, int>, done: set<Namespace>, limit: nat, newest: seq<int>) {
    && done <= from.Keys
    && NoRepeats(newest)
    && (forall x {:trigger LookedUp(db, a, from, done, limit, x)} :: x in newest <==> LookedUp(db, a, from, done, limit, x))
  }

  ghost predicate LookedUp(db: seq<Row>, a: Account, from: map<Namespace, int>, done: set<Namespace>, limit: nat, x: int) {
    exists ns :: ns in done && ns in from && x in Newest(db, a, ns, from[ns], limit)
  }

  /** A row is of one namespace only. */
  lemma OneNamespace(db: seq<Row>, a: Account, ns: Namespace, ns': Namespace, from: int, from': int, id: int)
    requires Ascending(db) && id in IdsFrom(db, a, ns, from) && id in IdsFrom(db, a, ns', from')
    ensures ns == ns'
  {
    IdsFromMembers(db, a, ns, from, id);
    IdsFromMembers(db, a, ns', from', id);
    var i :| 0 <= i < |db| && db[i] == Row(id, a, ns);
    var j :| 0 <= j < |db| && db[j] == Row(id, a, ns');
    assert db[i].id == db[j].id;
  }

  lemma GatherOneMore(db: seq<Row>, a: Account, from: map<Namespace, int>, done: set<Namespace>, limit: nat,
                      newest: seq<int>, ns: Namespace)
    requires Ascending(db) && Gathered(db, a, from, done, limit, newest) && ns in from && ns !in done
    ensures Gathered(db, a, from, done + {ns}, limit, newest + Newest(db, a, ns, from[ns], limit))
  {
    var more := Newest(db, a, ns, from[ns], limit);
    NewestFinds(db, a, ns, from[ns], limit);
    forall x | x in newest && x in more ensures false {
      assert LookedUp(db, a, from, done, limit, x);
      var other :| other in done && x in Newest(db, a, other, from[other], limit);
      NewestFinds(db, a, other, from[other], limit);
      OneNamespace(db, a, ns, other, from[ns], from[other], x);
    }
    var all := newest + more;
    forall i, j | 0 <= i < j < |all| ensures all[i] != all[j] {
      if i < |newest| <= j { assert all[i] in newest && all[j] in more; }
    }
    forall x ensures x in all <==> LookedUp(db, a, from, done + {ns}, limit, x) {
      assert x in newest <==> LookedUp(db, a, from, done, limit, x);
      if x in newest {
        var n :| n in done && x in Newest(db, a, n, from[n], limit);
        assert n in done + {ns};
      }
      if x in more { assert ns in done + {ns}; }
    }
  }

  lemma GatheredHas(db: seq<Row>, a: Account, from: map<Namespace, int>, limit: nat, newest: seq<int>, ns: Namespace)
    requires Gathered(db, a, from, from.Keys, limit, newest) && ns in from
    ensures AllIn(Newest(db, a, ns, from[ns], limit), newest)
  {
    forall x | x in Newest(db, a, ns, from[ns], limit) ensures x in newest {
      assert LookedUp(db, a, from, from.Keys, limit, x);
    }
  }

  lemma GatheredAreRows(db: seq<Row>, a: Account, from: map<Namespace, int>, limit: nat, newest: seq<int>, id: int)
    requires Ascending(db) && Gathered(db, a, from, from.Keys, limit, newest) && id in newest
    ensures id in RowsOf(db, a, from)
  {
    assert LookedUp(db, a, from, from.Keys, limit, id);
    var ns :| ns in from.Keys && id in Newest(db, a, ns, from[ns], limit);
    NewestFinds(db, a, ns, from[ns], limit);
  }

  /** If what was looked up fits, it is all there is. */
  lemma FitsIsAll(db: seq<Row>, a: Account, from: map<Namespace, int>, limit: nat, newest: seq<int>)
    requires Ascending(db) && Gathered(db, a, from, from.Keys, limit + 1, newest) && |newest| <= limit
    ensures RowsOf(db, a, from) == Elements(newest)
    ensures |RowsOf(db, a, from)| <= limit
  {
    CountElements(newest);
    AllLookedUp(db, a, from, limit, newest);
    OnlyLookedUp(db, a, from, limit + 1, newest);
  }

  lemma AllLookedUp(db: seq<Row>, a: Account, from: map<Namespace, int>, limit: nat, newest: seq<int>)
    requires Ascending(db) && Gathered(db, a, from, from.Keys, limit + 1, newest) && |newest| <= limit
    ensures RowsOf(db, a, from) <= Elements(newest)
  {
    forall id | id in RowsOf(db, a, from) ensures id in newest {
      FittingIsLookedUp(db, a, from, limit, newest, id);
    }
  }

  lemma OnlyLookedUp(db: seq<Row>, a: Account, from: map<Namespace, int>, limit: nat, newest: seq<int>)
    requires Ascending(db) && Gathered(db, a, from, from.Keys, limit, newest)
    ensures Elements(newest) <= RowsOf(db, a, from)
  {
    forall id | id in newest ensures id in RowsOf(db, a, from) {
      GatheredAreRows(db, a, from, limit, newest, id);
    }
  }

  /** A namespace that a row is of, all of whose newest are among those gathered. */
  lemma NamespaceOf(db: seq<Row>, a: Account, from: map<Namespace, int>, limit: nat, newest: seq<int>, id: int)
    returns (ns: Namespace)
    requires Gathered(db, a, from, from.Keys, limit, newest) && id in RowsOf(db, a, from)
    ensures ns in from && id in IdsFrom(db, a, ns, from[ns]) && AllIn(Newest(db, a, ns, from[ns], limit), newest)
  {
    ns :| ns in from && id in IdsFrom(db, a, ns, from[ns]);
    GatheredHas(db, a, from, limit, newest, ns);
  }

  ghost predicate AllIn(r: seq<int>, s: seq<int>) {
    forall x :: x in r ==> x in s
  }

  lemma FittingIsLookedUp(db: seq<Row>, a: Account, from: map<Namespace, int>, limit: nat, newest: seq<int>, id: int)
    requires Ascending(db) && Gathered(db, a, from, from.Keys, limit + 1, newest) && |newest| <= limit
    requires id in RowsOf(db, a, from)
    ensures id in newest
  {
    var ns := NamespaceOf(db, a, from, limit + 1, newest, id);
    FittingOfOne(db, a, ns, from[ns], limit, newest, id);
  }

  lemma {:induction false} FittingOfOne(db: seq<Row>, a: Account, ns: Namespace, from: int, limit: nat, newest: seq<int>, id: int)
    requires Ascending(db) && NoRepeats(newest) && |newest| <= limit && AllIn(Newest(db, a, ns, from, limit + 1), newest)
    requires id in IdsFrom(db, a, ns, from)
    ensures id in newest
  {
    NewestFinds(db, a, ns, from, limit + 1);
    TooFew(Newest(db, a, ns, from, limit + 1), Elements(newest));
    CountElements(newest);
  }

  /** No more than `limit` elements are above one that is not below the cutoff. */
  lemma FewAbove(r: seq<int>, sorted: seq<int>, limit: nat, id: int)
    requires Descending(sorted) && NoRepeats(sorted) && NoRepeats(r) && 1 <= limit <= |sorted| && id >= sorted[limit - 1]
    requires forall x :: x in r ==> x in Elements(sorted) && id < x
    ensures |r| <= limit
  {
    FirstAreTop(sorted, limit);
    TooFew(r, Elements(sorted[..limit]));
  }

  /** Every row not below the cutoff was looked up: one that was not would have more above it, in its own
      namespace, than the limit leaves. */
  lemma TopWasLookedUp(db: seq<Row>, a: Account, from: map<Namespace, int>, limit: nat, newest: seq<int>,
                       sorted: seq<int>, id: int)
    requires Ascending(db) && Gathered(db, a, from, from.Keys, limit + 1, newest)
    requires Descending(sorted) && NoRepeats(sorted) && Elements(sorted) == Elements(newest) && 1 <= limit <= |sorted|
    requires id in RowsOf(db, a, from) && id >= sorted[limit - 1]
    ensures id in newest
  {
    var ns := NamespaceOf(db, a, from, limit + 1, newest, id);
    TopOfOne(db, a, ns, from[ns], limit, newest, sorted, id);
  }

  lemma {:induction false} TopOfOne(db: seq<Row>, a: Account, ns: Namespace, from: int, limit: nat, newest: seq<int>,
                                    sorted: seq<int>, id: int)
    requires Ascending(db) && Descending(sorted) && NoRepeats(sorted) && 1 <= limit <= |sorted|
    requires Elements(sorted) == Elements(newest) && AllIn(Newest(db, a, ns, from, limit + 1), newest)
    requires id in IdsFrom(db, a, ns, from) && id >= sorted[limit - 1]
    ensures id in newest
  {
    var r := Newest(db, a, ns, from, limit + 1);
    NewestFinds(db, a, ns, from, limit + 1);
    if id !in r { FewAbove(r, sorted, limit, id); }
  }

  /** The rows not below the cutoff are the newest. */
  lemma CutoffKeepsNewest(db: seq<Row>, a: Account, from: map<Namespace, int>, limit: nat, newest: seq<int>,
                          sorted: seq<int>)
    requires Ascending(db) && Gathered(db, a, from, from.Keys, limit + 1, newest)
    requires Descending(sorted) && NoRepeats(sorted) && Elements(sorted) == Elements(newest) && 1 <= limit < |sorted|
    ensures var all := RowsOf(db, a, from); KeepsNewest(all, (set id | id in all && id >= sorted[limit - 1]), limit)
  {
    var all := RowsOf(db, a, from);
    forall id | id in all && id >= sorted[limit - 1] ensures id in Elements(sorted) {
      TopWasLookedUp(db, a, from, limit, newest, sorted, id);
    }
    OnlyLookedUp(db, a, from, limit + 1, newest);
    TopIsNewest(sorted, all, limit);
  }

  lemma TopIsNewest(sorted: seq<int>, all: set<int>, limit: nat)
    requires Descending(sorted) && NoRepeats(sorted) && 1 <= limit < |sorted| && Elements(sorted) <= all
    requires forall id :: id in all && id >= sorted[limit - 1] ==> id in Elements(sorted)
    ensures KeepsNewest(all, (set id | id in all && id >= sorted[limit - 1]), limit)
  {
    var left := set id | id in all && id >= sorted[limit - 1];
    FirstAreTop(sorted, limit);
    assert left == Elements(sorted[..limit]);
    TooFew(sorted, all);
  }

  lemma TooFew(s: seq<int>, all: set<int>)
    requires NoRepeats(s) && forall x :: x in s ==> x in all
    ensures |s| <= |all|
  {
    CountElements(s);
    CoreInvariants.SubsetCardinality(Elements(s), all);
  }

  /** Raising every lower start to the cutoff leaves the rows not below it. */
  lemma RaisedLeaves(db: seq<Row>, a: Account, from: map<Namespace, int>, cutoff: int, starts: map<Namespace, int>)
    requires forall ns :: ns in starts <==> ns in from && from[ns] < cutoff
    requires forall ns :: ns in starts ==> starts[ns] == cutoff
    ensures RowsOf(db, a, RaisedTo(from, starts)) == set id | id in RowsOf(db, a, from) && id >= cutoff
  {
    var to := RaisedTo(from, starts);
    forall id {:trigger id in RowsOf(db, a, to)}
      ensures id in RowsOf(db, a, to) <==> id in RowsOf(db, a, from) && id >= cutoff
    {
      if id in RowsOf(db, a, to) {
        var ns :| ns in to && id in IdsFrom(db, a, ns, to[ns]);
        IdsFromMembers(db, a, ns, to[ns], id);
        IdsFromMembers(db, a, ns, from[ns], id);
      }
      if id in RowsOf(db, a, from) && id >= cutoff {
        var ns :| ns in from && id in IdsFrom(db, a, ns, from[ns]);
        IdsFromMembers(db, a, ns, to[ns], id);
        IdsFromMembers(db, a, ns, from[ns], id);
        assert ns in to;
      }
    }
  }

  // ---- The limit worked out

  /** The rows of a namespace from `from` on and below `before`, counted. */
  function CountBetween(db: seq<Row>, a: Account, ns: Namespace, from: int, before: int): nat {
    |set id | id in IdsFrom(db, a, ns, from) && id < before|
  }

  /** The newest rows of all of the account's namespaces. */
  method Gather(db: seq<Row>, a: Account, from: map<Namespace, int>, limit: nat) returns (newest: seq<int>)
    requires Ascending(db)
    ensures Gathered(db, a, from, from.Keys, limit, newest)
  {
    newest := [];
    var todo := from.Keys;
    while todo != {}
      invariant todo <= from.Keys && Gathered(db, a, from, from.Keys - todo, limit, newest)
      decreases todo
    {
      var ns :| ns in todo;
      GatherOneMore(db, a, from, from.Keys - todo, limit, newest, ns);
      assert from.Keys - (todo - {ns}) == (from.Keys - todo) + {ns};
      newest := newest + Newest(db, a, ns, from[ns], limit);
      todo := todo - {ns};
    }
    assert from.Keys - todo == from.Keys;
  }

  /** The starts raised to the cutoff, and how many rows that drops from each. */
  method CutBelow(db: seq<Row>, a: Account, from: map<Namespace, int>, cutoff: int)
    returns (cut: map<Namespace, nat>, starts: map<Namespace, int>)
    ensures forall ns :: ns in starts <==> ns in from && from[ns] < cutoff
    ensures forall ns :: ns in starts ==> starts[ns] == cutoff
    ensures forall ns :: ns in cut <==> ns in from && from[ns] < cutoff && CountBetween(db, a, ns, from[ns], cutoff) > 0
    ensures forall ns :: ns in cut ==> cut[ns] == CountBetween(db, a, ns, from[ns], cutoff)
  {
    cut, starts := map[], map[];
    var todo := from.Keys;
    while todo != {}
      invariant todo <= from.Keys
      invariant forall ns :: ns in starts <==> ns in from && ns !in todo && from[ns] < cutoff
      invariant forall ns :: ns in starts ==> starts[ns] == cutoff
      invariant forall ns :: ns in cut <==> ns in from && ns !in todo && from[ns] < cutoff && CountBetween(db, a, ns, from[ns], cutoff) > 0
      invariant forall ns :: ns in cut ==> cut[ns] == CountBetween(db, a, ns, from[ns], cutoff)
      decreases todo
    {
      var ns :| ns in todo;
      if from[ns] < cutoff {
        var n := CountBetween(db, a, ns, from[ns], cutoff);
        if n > 0 {
          cut := cut[ns := n];
        }
        starts := starts[ns := cutoff];
      }
      todo := todo - {ns};
    }
  }

  /** The limit for one account: which starts to raise, and what that cuts. */
  method LimitAccount(db: seq<Row>, a: Account, from: map<Namespace, int>, limit: nat)
    returns (cut: map<Namespace, nat>, starts: map<Namespace, int>)
    requires Ascending(db) && limit >= 1
    ensures Limited(db, a, from, limit, cut, starts)
  {
    var newest := Gather(db, a, from, limit + 1);
    if |newest| <= limit {
      FitsIsAll(db, a, from, limit, newest);
      NothingCut(db, a, from, limit);
      return map[], map[];
    }
    var sorted := SortDown(newest);
    SortDownKeeps(newest);
    cut, starts := CutBelow(db, a, from, sorted[limit - 1]);
    CutoffKeepsNewest(db, a, from, limit, newest, sorted);
    RaisedLeaves(db, a, from, sorted[limit - 1], starts);
    CountsAreDropped(db, a, from, sorted[limit - 1], starts, cut);
  }

  lemma SortDownKeeps(s: seq<int>)
    requires NoRepeats(s)
    ensures var r := SortDown(s); Descending(r) && NoRepeats(r) && |r| == |s| && Elements(r) == Elements(s)
  {
    var r := SortDown(s);
    SortDownSorts(s);
    NoRepeatsByCount(s);
    NoRepeatsByCount(r);
    assert |multiset(r)| == |r| && |multiset(s)| == |s|;
    assert forall x :: (x in r <==> x in multiset(r)) && (x in s <==> x in multiset(s));
  }

  lemma NothingCut(db: seq<Row>, a: Account, from: map<Namespace, int>, limit: nat)
    requires |RowsOf(db, a, from)| <= limit
    ensures Limited(db, a, from, limit, map[], map[])
  {
    assert RaisedTo(from, map[]) == from;
    forall ns | ns in from ensures DroppedIn(db, a, from, map[], ns) == {} {
      forall id | id in DroppedIn(db, a, from, map[], ns) ensures false {
        IdsFromMembers(db, a, ns, from[ns], id);
      }
    }
  }

  lemma CountsAreDropped(db: seq<Row>, a: Account, from: map<Namespace, int>, cutoff: int, starts: map<Namespace,
                         int>, cut: map<Namespace, nat>)
    requires forall ns :: ns in starts <==> ns in from && from[ns] < cutoff
    requires forall ns :: ns in starts ==> starts[ns] == cutoff
    requires forall ns :: ns in cut <==> ns in from && from[ns] < cutoff && CountBetween(db, a, ns, from[ns], cutoff) > 0
    requires forall ns :: ns in cut ==> cut[ns] == CountBetween(db, a, ns, from[ns], cutoff)
    ensures forall ns :: ns in cut <==> ns in from && DroppedIn(db, a, from, starts, ns) != {}
    ensures forall ns :: ns in cut ==> cut[ns] == |DroppedIn(db, a, from, starts, ns)|
  {
    forall ns | ns in from
      ensures ns in cut <==> DroppedIn(db, a, from, starts, ns) != {}
      ensures ns in cut ==> cut[ns] == |DroppedIn(db, a, from, starts, ns)|
    {
      var dropped := DroppedIn(db, a, from, starts, ns);
      if from[ns] < cutoff {
        assert dropped == set id | id in IdsFrom(db, a, ns, from[ns]) && id < cutoff;
      } else {
        forall id | id in dropped ensures false {
          IdsFromMembers(db, a, ns, from[ns], id);
        }
      }
    }
  }

  // ---- All of a session's accounts

  function NamespacesAt(l: Log, i: nat): set<Namespace> {
    set k | k in l.missed && k.0 == i :: k.1
  }

  /** Where the session's replay of the account starts, in each of its namespaces. */
  function StartsOf(l: Log, a: Account): map<Namespace, int> {
    if a !in l.index then map[] else map ns | ns in NamespacesAt(l, l.index[a]) :: l.missed[(l.index[a], ns)].id
  }

  function OfAccount<T>(m: map<Account, map<Namespace, T>>, a: Account): map<Namespace, T> {
    if a in m then m[a] else map[]
  }

  /** The same starts, by account and namespace. */
  function Flat(starts: map<Account, map<Namespace, int>>): map<(Account, Namespace), int> {
    map a, ns | a in starts && ns in starts[a] :: (a, ns) := starts[a][ns]
  }

  lemma FlatAt(starts: map<Account, map<Namespace, int>>, a: Account, ns: Namespace)
    ensures (a, ns) in Flat(starts) <==> ns in OfAccount(starts, a)
    ensures (a, ns) in Flat(starts) ==> Flat(starts)[(a, ns)] == OfAccount(starts, a)[ns]
  {
  }

  function AccountsMissed(l: Log): set<Account>
    requires WellFormed(l)
  {
    set k | k in l.missed :: l.keys[k.0]
  }

  lemma NothingMissed(l: Log, a: Account)
    requires WellFormed(l) && a !in AccountsMissed(l)
    ensures StartsOf(l, a) == map[]
  {
    assert forall k :: k in l.missed ==> l.keys[k.0] in AccountsMissed(l);
    assert a in l.index ==> NamespacesAt(l, l.index[a]) == {};
  }

  /** What the limit does to one of the session's accounts. */
  ghost predicate LimitedAt(l: Log, db: seq<Row>, limit: nat, cut: map<Account, map<Namespace, nat>>, starts: map<Account, map<Namespace, int>>, a: Account) {
    Limited(db, a, StartsOf(l, a), limit, OfAccount(cut, a), OfAccount(starts, a))
  }

  type Test = (Account, map<Namespace, nat>, map<Namespace, int>) -> bool

  /** Whether the counts and starts are what the limit makes of an account. */
  ghost function LimitTest(l: Log, db: seq<Row>, limit: nat): Test {
    (a, c, st) => Limited(db, a, StartsOf(l, a), limit, c, st)
  }

  /** What is listed for each account that is done passes the test. */
  ghost predicate PassFor(test: Test, cut: map<Account, map<Namespace, nat>>, starts: map<Account, map<Namespace, int>>, done: set<Account>) {
    && cut.Keys <= done && starts.Keys == done
    && forall a :: a in done ==> test(a, OfAccount(cut, a), OfAccount(starts, a))
  }

  lemma PassOneMore(test: Test, cut: map<Account, map<Namespace, nat>>, starts: map<Account, map<Namespace, int>>,
                    done: set<Account>, a: Account, c: map<Namespace, nat>, st: map<Namespace, int>)
    requires PassFor(test, cut, starts, done) && a !in done && test(a, c, st)
    ensures PassFor(test, if c == map[] then cut else cut[a := c], starts[a := st], done + {a})
  {
  }

  method LimitOne(l: Log, db: seq<Row>, a: Account, limit: nat) returns (c: map<Namespace, nat>, st: map<Namespace, int>)
    requires Ascending(db) && limit >= 1
    ensures LimitTest(l, db, limit)(a, c, st)
  {
    c, st := LimitAccount(db, a, StartsOf(l, a), limit);
  }

  /** The limit for every account of the session: which starts to raise, and what that cuts. */
  method LimitAll(l: Log, db: seq<Row>, limit: nat)
    returns (cut: map<Account, map<Namespace, nat>>, starts: map<Account, map<Namespace, int>>)
    requires WellFormed(l) && Ascending(db) && limit >= 1
    ensures forall a :: LimitedAt(l, db, limit, cut, starts, a)
  {
    cut, starts := map[], map[];
    var todo := AccountsMissed(l);
    ghost var done := {};
    ghost var test := LimitTest(l, db, limit);
    while todo != {}
      invariant done !! todo && done + todo == AccountsMissed(l) && PassFor(test, cut, starts, done)
      decreases todo
    {
      var a :| a in todo;
      var c, st := LimitOne(l, db, a, limit);
      PassOneMore(test, cut, starts, done, a, c, st);
      if c != map[] {
        cut := cut[a := c];
      }
      starts := starts[a := st];
      todo := todo - {a};
      done := done + {a};
    }
    LimitedForAll(l, db, limit, cut, starts);
  }

  lemma LimitedForAll(l: Log, db: seq<Row>, limit: nat, cut: map<Account, map<Namespace, nat>>,
                      starts: map<Account, map<Namespace, int>>)
    requires WellFormed(l) && PassFor(LimitTest(l, db, limit), cut, starts, AccountsMissed(l))
    ensures forall a :: LimitedAt(l, db, limit, cut, starts, a)
  {
    var test := LimitTest(l, db, limit);
    forall a ensures LimitedAt(l, db, limit, cut, starts, a) {
      if a in AccountsMissed(l) {
        assert test(a, OfAccount(cut, a), OfAccount(starts, a));
      } else {
        LimitedElse(l, db, limit, cut, starts, a);
      }
    }
  }

  lemma LimitedElse(l: Log, db: seq<Row>, limit: nat, cut: map<Account, map<Namespace, nat>>, starts: map<Account,
                    map<Namespace, int>>, a: Account)
    requires WellFormed(l) && a !in AccountsMissed(l) && a !in cut && a !in starts
    ensures LimitedAt(l, db, limit, cut, starts, a)
  {
    NothingMissed(l, a);
    assert RowsOf(db, a, map[]) == {};
    NothingCut(db, a, map[], limit);
  }

  // ---- What is left to replay

  lemma StartAt(l: Log, a: Account, ns: Namespace)
    ensures ns in StartsOf(l, a) <==> a in l.index && (l.index[a], ns) in l.missed
    ensures ns in StartsOf(l, a) ==> StartsOf(l, a)[ns] == l.missed[(l.index[a], ns)].id
  {
    if a in l.index && (l.index[a], ns) in l.missed {
      assert (l.index[a], ns).1 in NamespacesAt(l, l.index[a]);
    }
  }

  predicate SameAt(x: map<Namespace, int>, y: map<Namespace, int>, ns: Namespace) {
    (ns in x <==> ns in y) && (ns in x ==> x[ns] == y[ns])
  }

  ghost predicate Same(x: map<Namespace, int>, y: map<Namespace, int>) {
    forall ns :: SameAt(x, y, ns)
  }

  lemma SameStarts(x: map<Namespace, int>, y: map<Namespace, int>)
    requires Same(x, y)
    ensures x == y
  {
    assert forall ns :: ns in x ==> SameAt(x, y, ns);
    assert forall ns :: ns in y ==> SameAt(x, y, ns);
  }

  lemma RaisedSame(l: Log, starts: map<Account, map<Namespace, int>>, a: Account)
    requires WellFormed(l)
    ensures Same(StartsOf(Raised(l, Flat(starts)), a), RaisedTo(StartsOf(l, a), OfAccount(starts, a)))
  {
    forall ns ensures SameAt(StartsOf(Raised(l, Flat(starts)), a), RaisedTo(StartsOf(l, a), OfAccount(starts, a)), ns) {
      RaisedStartAt(l, starts, a, ns);
    }
  }

  lemma RaisedStart(l: Log, starts: map<Account, map<Namespace, int>>, a: Account)
    requires WellFormed(l)
    ensures StartsOf(Raised(l, Flat(starts)), a) == RaisedTo(StartsOf(l, a), OfAccount(starts, a))
  {
    RaisedSame(l, starts, a);
    SameStarts(StartsOf(Raised(l, Flat(starts)), a), RaisedTo(StartsOf(l, a), OfAccount(starts, a)));
  }

  lemma RaisedStartAt(l: Log, starts: map<Account, map<Namespace, int>>, a: Account, ns: Namespace)
    requires WellFormed(l)
    ensures SameAt(StartsOf(Raised(l, Flat(starts)), a), RaisedTo(StartsOf(l, a), OfAccount(starts, a)), ns)
  {
    StartAt(l, a, ns);
    StartAt(Raised(l, Flat(starts)), a, ns);
    if a in l.index && (l.index[a], ns) in l.missed { RaisedAtPair(l, starts, a, ns); }
  }

  lemma RaisedAtPair(l: Log, starts: map<Account, map<Namespace, int>>, a: Account, ns: Namespace)
    requires WellFormed(l) && a in l.index && (l.index[a], ns) in l.missed
    ensures var from := l.missed[(l.index[a], ns)].id; var st := OfAccount(starts, a);
      (l.index[a], ns) in Raised(l, Flat(starts)).missed
      && Raised(l, Flat(starts)).missed[(l.index[a], ns)].id == if ns in st && from < st[ns] then st[ns] else from
  {
    FlatAt(starts, a, ns);
  }

  /** After the limit, what is left to replay of every account are its newest rows over all of its missed
      namespaces, as many as the limit or all there are; and what is reported as cut from a namespace is how
      many rows were dropped there. */
  lemma LimitLeavesNewest(l: Log, db: seq<Row>, limit: nat, cut: map<Account, map<Namespace, nat>>,
                          starts: map<Account, map<Namespace, int>>, a: Account)
    requires WellFormed(l) && LimitedAt(l, db, limit, cut, starts, a)
    ensures KeepsNewest(RowsOf(db, a, StartsOf(l, a)), RowsOf(db, a, StartsOf(Raised(l, Flat(starts)), a)), limit)
    ensures forall ns :: ns in StartsOf(l, a) ==>
      ReportedCut(cut, a, ns) == |DroppedIn(db, a, StartsOf(l, a), OfAccount(starts, a), ns)|
  {
    RaisedStart(l, starts, a);
  }

  function ReportedCut(cut: map<Account, map<Namespace, nat>>, a: Account, ns: Namespace): nat {
    if ns in OfAccount(cut, a) then OfAccount(cut, a)[ns] else 0
  }
}

/** Queues by key: of each key one run at a time, and what comes meanwhile kept for the next. */
module SerialRuns {
  import opened MonitorTypes

  /** How long a key's queue may grow. */
  const MAX_WAITING: nat := 64

  datatype Added = Run | Queued | Full

  /** What one key has waiting, if it is running. */
  function AddTo<T>(w: Option<seq<T>>, item: T): (Option<seq<T>>, Added) {
    if w.None? then (Some([]), Run)
    else if |w.value| >= MAX_WAITING then (w, Full)
    else (Some(w.value + [item]), Queued)
  }

  function NextOf<T>(w: Option<seq<T>>): (Option<seq<T>>, seq<T>) {
    if w.None? || w.value == [] then (None, []) else (Some([]), w.value)
  }

  function At<K, T>(waiting: map<K, seq<T>>, k: K): Option<seq<T>> {
    if k in waiting then Some(waiting[k]) else None
  }

  class SerialRuns<Key(==), T> {
    var waiting: map<Key, seq<T>>

    constructor ()
      ensures waiting == map[]
    {
      waiting := map[];
    }

    method Add(key: Key, item: T) returns (r: Added)
      modifies this
      ensures (At(waiting, key), r) == AddTo(At(old(waiting), key), item)
      ensures waiting - {key} == old(waiting) - {key}
    {
      if key !in waiting {
        waiting := waiting[key := []];
        return Run;
      }
      if |waiting[key]| >= MAX_WAITING {
        return Full;
      }
      waiting := waiting[key := waiting[key] + [item]];
      return Queued;
    }

    /** The items that have been waiting since the last ones were returned to run; none if the run is over. */
    method Next(key: Key) returns (items: seq<T>)
      modifies this
      ensures (At(waiting, key), items) == NextOf(At(old(waiting), key))
      ensures waiting - {key} == old(waiting) - {key}
    {
      if key !in waiting {
        return [];
      }
      if waiting[key] == [] {
        waiting := waiting - {key};
        return [];
      }
      items := waiting[key];
      waiting := waiting[key := []];
    }

    method Forget(key: Key)
      modifies this
      ensures waiting == old(waiting) - {key}
    {
      waiting := waiting - {key};
    }
  }

  // ---- The requests of one key

  /** One key among what its requests have led to: the items accepted, those handed out to run, and whether
      some of those are running now. */
  datatype Line<T> = Line(w: Option<seq<T>>, accepted: seq<T>, handed: seq<T>, busy: bool)

  datatype Event<T> = Arrives(item: T) | Finishes

  /** `next` is called when what was last handed out is done. */
  ghost predicate LineNext<T>(y: Line<T>, e: Event<T>, y': Line<T>) {
    match e
    case Arrives(item) =>
      var (w, r) := AddTo(y.w, item);
      y' == if r == Run then Line(w, y.accepted + [item], y.handed + [item], true)
            else if r == Queued then Line(w, y.accepted + [item], y.handed, y.busy)
            else y
    case Finishes =>
      && y.busy
      && var (w, items) := NextOf(y.w); y' == Line(w, y.accepted, y.handed + items, items != [])
  }

  ghost predicate LineRun<T(!new)>(ys: seq<Line<T>>, es: seq<Event<T>>) {
    && |ys| == |es| + 1 && ys[0] == Line(None, [], [], false)
    && forall i :: 0 <= i < |es| ==> LineNext(ys[i], es[i], ys[i + 1])
  }

  /** At every point, what was handed out and what waits are what was accepted, in the order it arrived; there
      is a run exactly while something handed out is not done, and then nothing else is handed out until it
      is; nothing waits while nothing runs; and no more than the limit waits. */
  ghost predicate InOrder<T>(y: Line<T>) {
    && y.handed + (if y.w.Some? then y.w.value else []) == y.accepted
    && (y.w.Some? <==> y.busy)
    && (!y.busy ==> y.handed == y.accepted)
    && (y.w.Some? ==> |y.w.value| <= MAX_WAITING)
  }

  lemma LineKeeps<T>(y: Line<T>, e: Event<T>, y': Line<T>)
    requires InOrder(y) && LineNext(y, e, y')
    ensures InOrder(y')
    ensures e.Arrives? && y.busy ==> y'.handed == y.handed
  {
    match e
    case Arrives(item) =>
      if y.w.None? {
        assert y.handed + [] == y.handed;
      } else if |y.w.value| < MAX_WAITING {
        assert y.handed + (y.w.value + [item]) == y.handed + y.w.value + [item];
      }
    case Finishes =>
      assert y'.handed + [] == y'.handed;
  }

  lemma {:induction false} RunsInOrder<T(!new)>(ys: seq<Line<T>>, es: seq<Event<T>>, n: nat)
    requires LineRun(ys, es) && n < |ys|
    ensures InOrder(ys[n])
  {
    if n > 0 {
      RunsInOrder(ys, es, n - 1);
      LineKeeps(ys[n - 1], es[n - 1], ys[n]);
    }
  }

  /** What an arrival comes to, in every run: handed out at once if nothing runs, refused exactly if 64 are waiting, and
      otherwise accepted to wait; and what the end of a run comes to: everything waiting is handed out, and nothing runs if
      there is none. */
  lemma EventsExactly<T(!new)>(ys: seq<Line<T>>, es: seq<Event<T>>, n: nat)
    requires LineRun(ys, es) && n < |es|
    ensures var y, y' := ys[n], ys[n + 1];
      && |y.handed| <= |y.accepted|
      && match es[n]
         case Arrives(item) =>
           if !y.busy then y'.accepted == y.accepted + [item] && y'.handed == y.handed + [item] && y'.busy
           else if |y.accepted| - |y.handed| >= 64 then y' == y
           else y'.accepted == y.accepted + [item] && y'.handed == y.handed && y'.busy
         case Finishes => y'.accepted == y.accepted && y'.handed == y.accepted && (y'.busy <==> |y.accepted| > |y.handed|)
  {
    RunsInOrder(ys, es, n);
    RunsInOrder(ys, es, n + 1);
    assert LineNext(ys[n], es[n], ys[n + 1]);
  }
}

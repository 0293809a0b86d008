/** Requests made of requests: batches, sequences and conditionals, whose parts complete in any order, on any
    thread, while others are still being started. */
module Composition {
  import opened MonitorTypes

  /** A condition stands for whatever it turns out to be when the request comes to it. */
  datatype Req =
    | Leaf(id: nat)
    | Batch(subs: seq<Req>)
    | Sequence(subs: seq<Req>)
    | IfElse(cond: bool, yes: Option<Req>, no: Option<Req>)

  const OK: int := 200

  datatype Resp = Resp(code: int, body: Body)
  datatype Body =
    | Raw(text: string)
    | Results(items: seq<Option<Resp>>)
    | Chosen(cond: bool, result: Option<Resp>)

  predicate Success(r: Resp) {
    200 <= r.code <= 299
  }

  function Choice(q: Req): Option<Req>
    requires q.IfElse?
  {
    if q.cond then q.yes else q.no
  }

  /** Batches and sequences have something in them. */
  ghost predicate NonEmpty(q: Req) {
    match q
    case Leaf(_) => true
    case Batch(subs) => subs != [] && forall i :: 0 <= i < |subs| ==> NonEmpty(subs[i])
    case Sequence(subs) => subs != [] && forall i :: 0 <= i < |subs| ==> NonEmpty(subs[i])
    case IfElse(_, yes, no) => (yes.Some? ==> NonEmpty(yes.value)) && (no.Some? ==> NonEmpty(no.value))
  }

  // ---- What a request means, given what its leaves answer

  function Answer(q: Req, ans: nat -> Resp): Resp
    decreases q, 1
  {
    match q
    case Leaf(id) => ans(id)
    case Batch(subs) => Resp(OK, Results(seq(|subs|, i requires 0 <= i < |subs| => Some(Answer(subs[i], ans)))))
    case Sequence(subs) => Resp(OK, Results(AnswersFrom(q, 0, ans)))
    case IfElse(cond, yes, no) =>
      if cond then Resp(OK, Chosen(cond, if yes.Some? then Some(Answer(yes.value, ans)) else None))
      else Resp(OK, Chosen(cond, if no.Some? then Some(Answer(no.value, ans)) else None))
  }

  /** A sequence's answers from its `k`-th request on: up to and including the first that fails. */
  function AnswersFrom(q: Req, k: nat, ans: nat -> Resp): seq<Option<Resp>>
    requires q.Sequence? && k <= |q.subs|
    decreases q, 0, |q.subs| - k
  {
    if k == |q.subs| then []
    else
      var r := Answer(q.subs[k], ans);
      [Some(r)] + if Success(r) then AnswersFrom(q, k + 1, ans) else []
  }

  // ---- Requests under way

  /** A started request: a leaf and what it answered; a batch, the requests of it that have been started, its
      result slots, and how many are counted as missing; a sequence, the requests of it that have been started,
      its results, and whether it still waits; a conditional. */
  datatype Task =
    | LeafT(id: nat, reply: Option<Resp>)
    | BatchT(kids: seq<Task>, results: seq<Option<Resp>>, remaining: int)
    | SequenceT(kids: seq<Task>, done: seq<Resp>, live: bool)
    | IfT(cond: bool, kid: Option<Task>)

  function Wrapped(cond: bool, r: Option<Resp>): Option<Resp> {
    if r.None? then None else Some(Resp(OK, Chosen(cond, r)))
  }

  function Somes(rs: seq<Resp>): seq<Option<Resp>> {
    seq(|rs|, i requires 0 <= i < |rs| => Some(rs[i]))
  }

  /** A batch's handler for its `i`-th request: fills its slot, and replies when none is counted as missing. */
  function BatchHandle(b: Task, i: nat, r: Option<Resp>): (Task, Option<Resp>)
    requires b.BatchT? && i < |b.results|
  {
    if r.None? then (b, None)
    else
      var b' := b.(results := b.results[i := r], remaining := b.remaining - 1);
      (b', if b'.remaining == 0 then Some(Resp(OK, Results(b'.results))) else None)
  }

  /** A sequence's handler: replies on the first failure or the last result, and otherwise starts the next. */
  function SequenceHandle(q: Req, s: Task, r: Option<Resp>): (Task, Option<Resp>)
    requires q.Sequence? && s.SequenceT?
    decreases q, 0, |q.subs| - |s.done|
  {
    if r.None? then (s, None)
    else
      var results := s.done + [r.value];
      if !Success(r.value) || |results| >= |q.subs| then
        (s.(done := results, live := false), Some(Resp(OK, Results(Somes(results)))))
      else
        var (kid, out) := Start(q.subs[|results|]);
        SequenceHandle(q, s.(done := results, kids := s.kids + [kid]), out)
  }

  /** Starts a request: what is then under way, and the reply if there is one at once.  The requests of a
      batch are started one by one, by steps of their own. */
  function Start(q: Req): (Task, Option<Resp>)
    decreases q, 1
  {
    match q
    case Leaf(id) => (LeafT(id, None), None)
    case Batch(subs) => (BatchT([], seq(|subs|, _ => None), |subs|), None)
    case Sequence(subs) =>
      if subs == [] then (SequenceT([], [], true), None)
      else
        var (kid, out) := Start(subs[0]);
        SequenceHandle(q, SequenceT([kid], [], true), out)
    case IfElse(cond, yes, no) =>
      if cond then
        if yes.None? then (IfT(cond, None), Some(Resp(OK, Chosen(cond, None))))
        else var (kid, out) := Start(yes.value); (IfT(cond, Some(kid)), Wrapped(cond, out))
      else
        if no.None? then (IfT(cond, None), Some(Resp(OK, Chosen(cond, None))))
        else var (kid, out) := Start(no.value); (IfT(cond, Some(kid)), Wrapped(cond, out))
  }

  /** Something can happen at the end of the path: a leaf that has not answered, or a batch with requests
      still to be started. */
  predicate Enabled(t: Task, q: Req, path: seq<nat>)
    decreases t
  {
    match t
    case LeafT(_, reply) => path == [] && reply.None?
    case BatchT(kids, results, _) =>
      q.Batch? && |kids| <= |q.subs| && |results| == |q.subs| &&
      if path == [] then |kids| < |q.subs| else path[0] < |kids| && Enabled(kids[path[0]], q.subs[path[0]], path[1..])
    case SequenceT(kids, _, _) =>
      q.Sequence? && |kids| <= |q.subs| && path != [] && path[0] < |kids| && Enabled(kids[path[0]], q.subs[path[0]], path[1..])
    case IfT(_, kid) =>
      q.IfElse? && path != [] && path[0] == 0 && kid.Some? && Choice(q).Some? && Enabled(kid.value, Choice(q).value, path[1..])
  }

  /** What happens when it does, with the handlers above it run: and the reply that this leads to, if any. */
  function Act(t: Task, q: Req, path: seq<nat>, ans: nat -> Resp): (Task, Option<Resp>)
    requires Enabled(t, q, path)
    decreases t
  {
    match t
    case LeafT(id, _) => (LeafT(id, Some(ans(id))), Some(ans(id)))
    case BatchT(kids, results, remaining) =>
      if path == [] then
        var (kid, out) := Start(q.subs[|kids|]);
        BatchHandle(BatchT(kids + [kid], results, remaining), |kids|, out)
      else
        var i := path[0];
        var (kid, out) := Act(kids[i], q.subs[i], path[1..], ans);
        BatchHandle(BatchT(kids[i := kid], results, remaining), i, out)
    case SequenceT(kids, results, live) =>
      var i := path[0];
      var (kid, out) := Act(kids[i], q.subs[i], path[1..], ans);
      SequenceHandle(q, SequenceT(kids[i := kid], results, live), out)
    case IfT(cond, kid) =>
      var (kid', out) := Act(kid.value, Choice(q).value, path[1..], ans);
      (IfT(cond, Some(kid')), Wrapped(cond, out))
  }

  // ---- The invariant

  /** The reply that the request has made, going by its state. */
  function Replied(t: Task): Option<Resp> {
    match t
    case LeafT(_, reply) => reply
    case BatchT(_, results, remaining) => if remaining == 0 then Some(Resp(OK, Results(results))) else None
    case SequenceT(_, results, live) => if live then None else Some(Resp(OK, Results(Somes(results))))
    case IfT(cond, kid) => if kid.None? then Some(Resp(OK, Chosen(cond, None))) else Wrapped(cond, Replied(kid.value))
  }

  function CountNone(rs: seq<Option<Resp>>): nat {
    if rs == [] then 0 else (if rs[|rs| - 1].None? then 1 else 0) + CountNone(rs[..|rs| - 1])
  }

  /** `t` is `q` under way, its leaves answering as `ans`: a batch's slots hold the replies of its own requests,
      and it counts the empty ones; a sequence has started each request only after the one before it succeeded. */
  ghost predicate Inv(t: Task, q: Req, ans: nat -> Resp)
    decreases t
  {
    match t
    case LeafT(id, reply) => q == Leaf(id) && (reply.Some? ==> reply.value == ans(id))
    case BatchT(kids, results, remaining) =>
      && q.Batch? && |kids| <= |q.subs| && |results| == |q.subs| && remaining == CountNone(results)
      && (forall i :: 0 <= i < |kids| ==> Inv(kids[i], q.subs[i], ans))
      && (forall i :: 0 <= i < |kids| ==> results[i] == Replied(kids[i]))
      && (forall i :: |kids| <= i < |results| ==> results[i].None?)
    case SequenceT(kids, results, live) =>
      && q.Sequence? && 1 <= |kids| <= |q.subs| && |results| == (if live then |kids| - 1 else |kids|)
      && (forall i :: 0 <= i < |kids| ==> Inv(kids[i], q.subs[i], ans))
      && (forall i :: 0 <= i < |results| ==> Replied(kids[i]) == Some(results[i]))
      && (forall i :: 0 <= i < |kids| - 1 ==> Success(results[i]))
      && (if live then Replied(kids[|kids| - 1]).None? else !Success(results[|kids| - 1]) || |kids| == |q.subs|)
    case IfT(cond, kid) =>
      && q.IfElse? && cond == q.cond && (kid.Some? <==> Choice(q).Some?)
      && (kid.Some? ==> Inv(kid.value, Choice(q).value, ans))
  }

  // ---- Counting the empty slots

  lemma {:induction false} NoneLeft(rs: seq<Option<Resp>>)
    ensures CountNone(rs) == 0 <==> forall i :: 0 <= i < |rs| ==> rs[i].Some?
  {
    if rs != [] {
      var k := |rs| - 1;
      NoneLeft(rs[..k]);
      assert forall i :: 0 <= i < k ==> rs[i] == rs[..k][i];
    }
  }

  lemma {:induction false} FillOne(rs: seq<Option<Resp>>, i: nat, r: Resp)
    requires i < |rs| && rs[i].None?
    ensures CountNone(rs[i := Some(r)]) == CountNone(rs) - 1
  {
    var k := |rs| - 1;
    var rs' := rs[i := Some(r)];
    if i == k {
      assert rs'[..k] == rs[..k];
    } else {
      FillOne(rs[..k], i, r);
      assert rs'[..k] == rs[..k][i := Some(r)];
    }
  }

  lemma {:induction false} AllNone(n: nat)
    ensures CountNone(seq(n, _ => None)) == n
  {
    if n > 0 {
      AllNone(n - 1);
      var rs: seq<Option<Resp>> := seq(n, _ => None);
      assert rs[..n - 1] == seq(n - 1, _ => None);
    }
  }

  // ---- Starting keeps the invariant

  /** A sequence whose newest request has made the reply `r`, if any, not yet handled. */
  ghost predicate Handling(q: Req, s: Task, r: Option<Resp>, ans: nat -> Resp) {
    && q.Sequence? && s.SequenceT? && s.live && 1 <= |s.kids| <= |q.subs| && |s.done| == |s.kids| - 1
    && (forall i :: 0 <= i < |s.kids| ==> Inv(s.kids[i], q.subs[i], ans))
    && (forall i :: 0 <= i < |s.done| ==> Replied(s.kids[i]) == Some(s.done[i]) && Success(s.done[i]))
    && Replied(s.kids[|s.kids| - 1]) == r
  }

  lemma {:induction false} SequenceEnds(q: Req, s: Task, r: Resp, ans: nat -> Resp)
    requires Handling(q, s, Some(r), ans) && (!Success(r) || |s.done| + 1 >= |q.subs|)
    ensures Inv(s.(done := s.done + [r], live := false), q, ans)
  {
  }

  lemma {:induction false} SequenceGoesOn(q: Req, s: Task, r: Resp, kid: Task, ans: nat -> Resp)
    requires Handling(q, s, Some(r), ans) && Success(r) && |s.done| + 1 < |q.subs| && Inv(kid, q.subs[|s.done| + 1], ans)
    ensures Handling(q, s.(done := s.done + [r], kids := s.kids + [kid]), Replied(kid), ans)
  {
  }

  lemma {:induction false} SequenceHandleKeeps(q: Req, s: Task, r: Option<Resp>, ans: nat -> Resp)
    requires Handling(q, s, r, ans) && NonEmpty(q)
    ensures var (s', out) := SequenceHandle(q, s, r); Inv(s', q, ans) && out == Replied(s')
    decreases q, 0, |q.subs| - |s.done|
  {
    if r.Some? {
      var results := s.done + [r.value];
      if !Success(r.value) || |results| >= |q.subs| {
        SequenceEnds(q, s, r.value, ans);
      } else {
        var (kid, out) := Start(q.subs[|results|]);
        StartKeeps(q.subs[|results|], ans);
        SequenceGoesOn(q, s, r.value, kid, ans);
        SequenceHandleKeeps(q, s.(done := results, kids := s.kids + [kid]), out, ans);
      }
    }
  }

  lemma {:induction false} StartKeeps(q: Req, ans: nat -> Resp)
    requires NonEmpty(q)
    ensures Inv(Start(q).0, q, ans) && Start(q).1 == Replied(Start(q).0)
    decreases q, 1
  {
    match q
    case Leaf(_) =>
    case Batch(subs) => AllNone(|subs|);
    case Sequence(subs) =>
      StartKeeps(subs[0], ans);
      var (kid, out) := Start(subs[0]);
      SequenceHandleKeeps(q, SequenceT([kid], [], true), out, ans);
    case IfElse(cond, yes, no) =>
      if Choice(q).Some? { StartKeeps(Choice(q).value, ans); }
  }

  // ---- What can still happen, and what has been replied

  /** Nothing is left to happen in a request that has replied. */
  lemma {:induction false} EnabledNotReplied(t: Task, q: Req, path: seq<nat>, ans: nat -> Resp)
    requires Inv(t, q, ans) && Enabled(t, q, path)
    ensures Replied(t).None?
    decreases t
  {
    match t
    case LeafT(_, _) =>
    case BatchT(kids, results, _) =>
      NoneLeft(results);
      if path != [] { EnabledNotReplied(kids[path[0]], q.subs[path[0]], path[1..], ans); }
    case SequenceT(kids, _, _) => EnabledNotReplied(kids[path[0]], q.subs[path[0]], path[1..], ans);
    case IfT(_, kid) => EnabledNotReplied(kid.value, Choice(q).value, path[1..], ans);
  }

  /** Something is left to happen in a request that has not. */
  lemma {:induction false} UnrepliedIsEnabled(t: Task, q: Req, ans: nat -> Resp) returns (path: seq<nat>)
    requires Inv(t, q, ans) && Replied(t).None?
    ensures Enabled(t, q, path)
    decreases t
  {
    match t
    case LeafT(_, _) => path := [];
    case BatchT(kids, results, _) =>
      NoneLeft(results);
      var i :| 0 <= i < |results| && results[i].None?;
      if |kids| < |q.subs| {
        path := [];
      } else {
        var rest := UnrepliedIsEnabled(kids[i], q.subs[i], ans);
        path := [i] + rest;
      }
    case SequenceT(kids, _, _) =>
      var i := |kids| - 1;
      var rest := UnrepliedIsEnabled(kids[i], q.subs[i], ans);
      path := [i] + rest;
    case IfT(_, kid) =>
      var rest := UnrepliedIsEnabled(kid.value, Choice(q).value, ans);
      path := [0] + rest;
  }

  // ---- Every step keeps the invariant, and replies when the state says so

  function WithKid(kids: seq<Task>, i: nat, kid: Task): seq<Task>
    requires i <= |kids|
  {
    if i == |kids| then kids + [kid] else kids[i := kid]
  }

  /** The request's slot stays empty if it has not replied. */
  lemma {:induction false} UnfilledKeeps(t: Task, q: Req, i: nat, kid: Task, ans: nat -> Resp)
    requires Inv(t, q, ans) && t.BatchT? && i <= |t.kids| && i < |q.subs| && Inv(kid, q.subs[i], ans)
    requires Replied(kid).None? && t.results[i].None?
    ensures Inv(BatchT(WithKid(t.kids, i, kid), t.results, t.remaining), q, ans) && t.remaining > 0
  {
    NoneLeft(t.results);
  }

  lemma {:induction false} FilledKeeps(t: Task, q: Req, i: nat, kid: Task, ans: nat -> Resp)
    requires Inv(t, q, ans) && t.BatchT? && i <= |t.kids| && i < |q.subs| && Inv(kid, q.subs[i], ans)
    requires Replied(kid).Some? && t.results[i].None?
    ensures Inv(BatchT(WithKid(t.kids, i, kid), t.results[i := Replied(kid)], t.remaining - 1), q, ans)
  {
    FillOne(t.results, i, Replied(kid).value);
  }

  lemma BatchHandleKeeps(t: Task, q: Req, i: nat, kid: Task, out: Option<Resp>, ans: nat -> Resp)
    requires Inv(t, q, ans) && t.BatchT? && i <= |t.kids| && i < |q.subs| && Inv(kid, q.subs[i], ans)
    requires out == Replied(kid) && t.results[i].None?
    ensures var (t', o) := BatchHandle(BatchT(WithKid(t.kids, i, kid), t.results, t.remaining), i, out);
      Inv(t', q, ans) && o == Replied(t')
  {
    if out.None? {
      UnfilledKeeps(t, q, i, kid, ans);
    } else {
      FilledKeeps(t, q, i, kid, ans);
    }
  }

  lemma {:induction false} ActKeeps(t: Task, q: Req, path: seq<nat>, ans: nat -> Resp)
    requires Inv(t, q, ans) && Enabled(t, q, path) && NonEmpty(q)
    ensures var (t', out) := Act(t, q, path, ans); Inv(t', q, ans) && out == Replied(t')
    decreases t
  {
    match t
    case LeafT(_, _) =>
    case BatchT(kids, results, remaining) =>
      if path == [] {
        StartKeeps(q.subs[|kids|], ans);
        var (kid, out) := Start(q.subs[|kids|]);
        BatchHandleKeeps(t, q, |kids|, kid, out, ans);
      } else {
        var i := path[0];
        ActKeeps(kids[i], q.subs[i], path[1..], ans);
        EnabledNotReplied(kids[i], q.subs[i], path[1..], ans);
        var (kid, out) := Act(kids[i], q.subs[i], path[1..], ans);
        BatchHandleKeeps(t, q, i, kid, out, ans);
      }
    case SequenceT(kids, done, live) =>
      var i := path[0];
      ActKeeps(kids[i], q.subs[i], path[1..], ans);
      EnabledNotReplied(kids[i], q.subs[i], path[1..], ans);
      var (kid, out) := Act(kids[i], q.subs[i], path[1..], ans);
      SequenceHandleKeeps(q, SequenceT(kids[i := kid], done, live), out, ans);
    case IfT(cond, kid) =>
      ActKeeps(kid.value, Choice(q).value, path[1..], ans);
  }

  // ---- The reply is the request's meaning

  /** Results that stop at the first failure, or else at the last request. */
  ghost predicate Stopped(done: seq<Resp>, n: nat) {
    && 1 <= |done| <= n && (forall i :: 0 <= i < |done| - 1 ==> Success(done[i]))
    && (!Success(done[|done| - 1]) || |done| == n)
  }

  lemma {:induction false} SequenceAnswers(done: seq<Resp>, q: Req, k: nat, ans: nat -> Resp)
    requires q.Sequence? && Stopped(done, |q.subs|) && k <= |done| && (k == 0 || Success(done[k - 1]))
    requires forall i :: 0 <= i < |done| ==> done[i] == Answer(q.subs[i], ans)
    ensures Somes(done)[k..] == AnswersFrom(q, k, ans)
    decreases |done| - k
  {
    if k < |done| {
      assert Somes(done)[k..] == [Some(done[k])] + Somes(done)[k + 1..];
      if Success(done[k]) {
        SequenceAnswers(done, q, k + 1, ans);
      } else {
        assert Somes(done)[k + 1..] == [];
      }
    }
  }

  lemma {:induction false} RepliedIsAnswer(t: Task, q: Req, ans: nat -> Resp)
    requires Inv(t, q, ans) && Replied(t).Some?
    ensures Replied(t).value == Answer(q, ans)
    decreases t
  {
    match t
    case LeafT(_, _) =>
    case BatchT(kids, results, _) =>
      NoneLeft(results);
      forall i | 0 <= i < |results| ensures results[i] == Some(Answer(q.subs[i], ans)) {
        RepliedIsAnswer(kids[i], q.subs[i], ans);
      }
      assert results == Answer(q, ans).body.items;
    case SequenceT(kids, done, _) =>
      forall i | 0 <= i < |done| ensures done[i] == Answer(q.subs[i], ans) {
        RepliedIsAnswer(kids[i], q.subs[i], ans);
      }
      SequenceAnswers(done, q, 0, ans);
      assert Somes(done)[0..] == Somes(done);
    case IfT(cond, kid) =>
      if kid.Some? { RepliedIsAnswer(kid.value, Choice(q).value, ans); }
  }

  // ---- Every run

  /** A request started and then acted on at each of the paths, in order: its states, and the replies made. */
  ghost predicate Run(q: Req, ts: seq<Task>, outs: seq<Option<Resp>>, paths: seq<seq<nat>>, ans: nat -> Resp) {
    && |ts| == |outs| == |paths| + 1 && (ts[0], outs[0]) == Start(q)
    && forall i :: 0 <= i < |paths| ==> Acts(q, ts, outs, paths, ans, i)
  }

  ghost predicate Acts(q: Req, ts: seq<Task>, outs: seq<Option<Resp>>, paths: seq<seq<nat>>, ans: nat -> Resp, i: nat)
    requires |ts| == |outs| == |paths| + 1 && i < |paths|
  {
    Enabled(ts[i], q, paths[i]) && (ts[i + 1], outs[i + 1]) == Act(ts[i], q, paths[i], ans)
  }

  function Replies(outs: seq<Option<Resp>>): seq<Resp> {
    if outs == [] then []
    else
      var k := |outs| - 1;
      Replies(outs[..k]) + if outs[k].Some? then [outs[k].value] else []
  }

  function AsSeq(r: Option<Resp>): seq<Resp> {
    if r.None? then [] else [r.value]
  }

  lemma {:induction false} RunKeeps(q: Req, ts: seq<Task>, outs: seq<Option<Resp>>, paths: seq<seq<nat>>,
                                    ans: nat -> Resp, n: nat)
    requires Run(q, ts, outs, paths, ans) && NonEmpty(q) && n < |ts|
    ensures Inv(ts[n], q, ans) && Replies(outs[..n + 1]) == AsSeq(Replied(ts[n]))
  {
    assert outs[..n + 1][..n] == outs[..n];
    if n == 0 {
      StartKeeps(q, ans);
    } else {
      RunKeeps(q, ts, outs, paths, ans, n - 1);
      assert Acts(q, ts, outs, paths, ans, n - 1);
      ActKeeps(ts[n - 1], q, paths[n - 1], ans);
      EnabledNotReplied(ts[n - 1], q, paths[n - 1], ans);
    }
  }

  /** However its parts are nested and in whatever order they complete, a request makes no more than one
      reply; it has made it exactly when nothing is left to happen; and the reply is the one that the
      request means: each of a batch's results the reply of its own request, and a sequence's results
      those up to and including the first failure. */
  lemma RepliesOnce(q: Req, ts: seq<Task>, outs: seq<Option<Resp>>, paths: seq<seq<nat>>, ans: nat -> Resp)
    requires Run(q, ts, outs, paths, ans) && NonEmpty(q)
    ensures var t := ts[|paths|];
      if exists path :: Enabled(t, q, path) then Replies(outs) == [] else Replies(outs) == [Answer(q, ans)]
  {
    var t := ts[|paths|];
    RunKeeps(q, ts, outs, paths, ans, |paths|);
    assert outs[..|paths| + 1] == outs;
    if path :| Enabled(t, q, path) {
      EnabledNotReplied(t, q, path, ans);
    } else if Replied(t).None? {
      var path := UnrepliedIsEnabled(t, q, ans);
      assert false;
    } else {
      RepliedIsAnswer(t, q, ans);
    }
  }

  // ---- What a conditional means

  /** A conditional is answered with code 200 and how the condition turned out, with the answer of its first request if
      that is true and of its second if not, and none where it has none. */
  lemma ConditionalMeans(q: Req, ans: nat -> Resp)
    requires q.IfElse?
    ensures Answer(q, ans).code == 200 && Answer(q, ans).body.Chosen? && Answer(q, ans).body.cond == q.cond
    ensures var r := Answer(q, ans).body.result;
      && (q.cond && q.yes.Some? ==> r == Some(Answer(q.yes.value, ans))) && (q.cond && q.yes.None? ==> r == None)
      && (!q.cond && q.no.Some? ==> r == Some(Answer(q.no.value, ans))) && (!q.cond && q.no.None? ==> r == None)
  {
  }

  /** A batch is answered with code 200 and, in their order, the answers of all its requests. */
  lemma BatchMeans(q: Req, ans: nat -> Resp)
    requires q.Batch?
    ensures Answer(q, ans).code == 200 && Answer(q, ans).body.Results? && |Answer(q, ans).body.items| == |q.subs|
    ensures forall i :: 0 <= i < |q.subs| ==> Answer(q, ans).body.items[i] == Some(Answer(q.subs[i], ans))
  {
  }

  // ---- When a sequence goes on, by the codes

  /** Every sequence in the request, at whatever depth, has started its next request exactly if the one before it was
      answered with a code from 200 to 299; and when it replies, all its results but the last have such codes, and the
      last has not, or it is of the last request. */
  ghost predicate StopsAtCodes(t: Task, q: Req)
    decreases t
  {
    match t
    case LeafT(_, _) => true
    case BatchT(kids, _, _) =>
      q.Batch? && |kids| <= |q.subs| && forall i :: 0 <= i < |kids| ==> StopsAtCodes(kids[i], q.subs[i])
    case SequenceT(kids, done, live) =>
      && q.Sequence? && |kids| <= |q.subs| && |done| <= |kids| && (forall i :: 0 <= i < |kids| ==> StopsAtCodes(kids[i], q.subs[i]))
      && (forall i :: 0 <= i && i + 1 < |q.subs| ==> (i + 1 < |kids| <==> i < |done| && 200 <= done[i].code <= 299))
      && (!live ==> RepliesAtCodes(done, |q.subs|))
    case IfT(_, kid) => q.IfElse? && (kid.Some? ==> Choice(q).Some? && StopsAtCodes(kid.value, Choice(q).value))
  }

  ghost predicate RepliesAtCodes(done: seq<Resp>, n: nat) {
    && 1 <= |done| <= n && (forall i :: 0 <= i < |done| - 1 ==> 200 <= done[i].code <= 299)
    && (done[|done| - 1].code < 200 || done[|done| - 1].code > 299 || |done| == n)
  }

  lemma {:induction false} SoundStopsAtCodes(t: Task, q: Req, ans: nat -> Resp)
    requires Inv(t, q, ans)
    ensures StopsAtCodes(t, q)
    decreases t
  {
    match t
    case LeafT(_, _) =>
    case BatchT(kids, _, _) =>
      forall i | 0 <= i < |kids| ensures StopsAtCodes(kids[i], q.subs[i]) {
        SoundStopsAtCodes(kids[i], q.subs[i], ans);
      }
    case SequenceT(kids, done, live) =>
      forall i | 0 <= i < |kids| ensures StopsAtCodes(kids[i], q.subs[i]) {
        SoundStopsAtCodes(kids[i], q.subs[i], ans);
      }
      SequenceGoesOnCodes(t, q, ans);
    case IfT(_, kid) =>
      if kid.Some? { SoundStopsAtCodes(kid.value, Choice(q).value, ans); }
  }

  lemma {:induction false} SequenceGoesOnCodes(t: Task, q: Req, ans: nat -> Resp)
    requires Inv(t, q, ans) && t.SequenceT?
    ensures forall i :: 0 <= i && i + 1 < |q.subs| ==> (i + 1 < |t.kids| <==> i < |t.done| && 200 <= t.done[i].code <= 299)
    ensures !t.live ==> RepliesAtCodes(t.done, |q.subs|)
  {
  }

  /** In every run, at every point, every sequence in the request goes on and stops by its results' codes. */
  lemma SequencesStop(q: Req, ts: seq<Task>, outs: seq<Option<Resp>>, paths: seq<seq<nat>>, ans: nat -> Resp, n: nat)
    requires Run(q, ts, outs, paths, ans) && NonEmpty(q) && n < |ts|
    ensures StopsAtCodes(ts[n], q)
  {
    RunKeeps(q, ts, outs, paths, ans, n);
    SoundStopsAtCodes(ts[n], q, ans);
  }

  /** `done` are the answers of the requests from the `k`-th on, as far as they go. */
  ghost predicate AreAnswers(q: Req, k: nat, done: seq<Resp>, ans: nat -> Resp)
    requires q.Sequence?
  {
    k + |done| <= |q.subs| && forall i :: 0 <= i < |done| ==> done[i] == Answer(q.subs[k + i], ans)
  }

  /** What a sequence is to be answered: code 200, and the answers of its first requests, all of them with codes from 200
      to 299 but the last, which has another code or is that of the last request. */
  lemma {:induction false} SequenceMeans(q: Req, ans: nat -> Resp) returns (done: seq<Resp>)
    requires q.Sequence? && q.subs != []
    ensures Answer(q, ans) == Resp(200, Results(Somes(done))) && RepliesAtCodes(done, |q.subs|) && AreAnswers(q, 0, done, ans)
  {
    done := AnswersAre(q, 0, ans);
  }

  lemma {:induction false} AnswersAre(q: Req, k: nat, ans: nat -> Resp) returns (done: seq<Resp>)
    requires q.Sequence? && k < |q.subs|
    ensures AnswersFrom(q, k, ans) == Somes(done) && RepliesAtCodes(done, |q.subs| - k) && AreAnswers(q, k, done, ans)
    decreases |q.subs| - k
  {
    var r := Answer(q.subs[k], ans);
    if 200 <= r.code <= 299 && k + 1 < |q.subs| {
      var rest := AnswersAre(q, k + 1, ans);
      done := [r] + rest;
      OneMoreReplies(r, rest, |q.subs| - k);
      OneMoreAnswer(q, k, rest, ans);
    } else {
      done := [r];
      assert Somes(done) == [Some(r)];
    }
  }

  lemma OneMoreReplies(r: Resp, rest: seq<Resp>, n: nat)
    requires n > 0 && 200 <= r.code <= 299 && RepliesAtCodes(rest, n - 1)
    ensures RepliesAtCodes([r] + rest, n) && Somes([r] + rest) == [Some(r)] + Somes(rest)
  {
    var done := [r] + rest;
    forall i | 0 <= i < |done| - 1 ensures 200 <= done[i].code <= 299 {
      if i > 0 { assert done[i] == rest[i - 1]; }
    }
  }

  lemma {:induction false} OneMoreAnswer(q: Req, k: nat, rest: seq<Resp>, ans: nat -> Resp)
    requires q.Sequence? && k < |q.subs| && AreAnswers(q, k + 1, rest, ans)
    ensures AreAnswers(q, k, [Answer(q.subs[k], ans)] + rest, ans)
  {
    var done := [Answer(q.subs[k], ans)] + rest;
    forall i | 0 <= i < |done| ensures done[i] == Answer(q.subs[k + i], ans) {
      if i > 0 { assert done[i] == rest[i - 1] == Answer(q.subs[k + 1 + (i - 1)], ans); }
    }
  }

  // ---- The shared states, as the handlers update them

  /** What the handlers of a batch share. */
  class BatchState {
    var results: seq<Option<Resp>>
    var remaining: int

    constructor (n: nat)
      ensures results == seq(n, _ => None) && remaining == n
    {
      results := seq(n, _ => None);
      remaining := n;
    }

    /** The handler of the `i`-th request. */
    method Handle(i: nat, r: Resp, ghost kids: seq<Task>) returns (reply: Option<Resp>)
      requires i < |results|
      modifies this
      ensures (BatchT(kids, results, remaining), reply) == BatchHandle(BatchT(kids, old(results), old(remaining)), i, Some(r))
    {
      results := results[i := Some(r)];
      remaining := remaining - 1;
      if remaining == 0 {
        return Some(Resp(OK, Results(results)));
      }
      return None;
    }
  }

  /** Handling `r` comes down to starting the `next` request with the results so far. */
  predicate GoesOn(subreqs: seq<Req>, s: Task, r: Resp, next: nat, results: seq<Resp>, live: bool)
    requires s.SequenceT? && next < |subreqs|
  {
    var q := Sequence(subreqs);
    var (kid, out) := Start(subreqs[next]);
    SequenceHandle(q, s, Some(r)) == SequenceHandle(q, SequenceT(s.kids + [kid], results, live), out)
  }

  /** What the runs of a sequence's handler share. */
  class SequenceManager {
    const subreqs: seq<Req>
    var subresults: seq<Resp>
    var live: bool

    constructor (subreqs: seq<Req>)
      ensures this.subreqs == subreqs && subresults == [] && live
    {
      this.subreqs, subresults, live := subreqs, [], true;
    }

    /** The handler: the reply, or else which request to start next. */
    method Handle(r: Resp, ghost kids: seq<Task>) returns (reply: Option<Resp>, next: nat)
      modifies this
      ensures reply.Some? ==>
        (SequenceT(kids, subresults, live), reply) == SequenceHandle(Sequence(subreqs), SequenceT(kids, old(subresults), old(live)), Some(r))
      ensures reply.None? ==> next < |subreqs| && GoesOn(subreqs, SequenceT(kids, old(subresults), old(live)), r, next, subresults, live)
      ensures subresults == old(subresults) + [r]
      ensures reply.None? <==> 200 <= r.code <= 299 && |subresults| < |subreqs|
      ensures if reply.Some? then reply == Some(Resp(200, Results(Somes(subresults)))) else next == |subresults|
    {
      next := 0;
      subresults := subresults + [r];
      if !Success(r) || |subresults| >= |subreqs| {
        live := false;
        return Some(Resp(OK, Results(Somes(subresults)))), next;
      }
      return None, |subresults|;
    }
  }
}

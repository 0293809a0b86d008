/** A recursive request: forwarded to every peer of the swarm and carried out locally, the peers' replies
    racing with each other and with the local work; one reply to the client when all of it is in. */
module SwarmFanOut {
  import opened MonitorTypes

  type Peer = string

  /** What became of a forward: a good reply is a dict, in which the peer may itself say that it failed. */
  datatype PeerStatus = Good(saysFailed: bool) | Timeout | StreamFull | ErrorCodeReason | BadPeerResponse

  /** A forward that nothing was heard back from, as opposed to one that was refused. */
  predicate Retryable(s: PeerStatus) {
    s == Timeout || s == StreamFull
  }

  const STREAM_FULL: string := "STREAMFULL"

  /** What became of a forward, by what the transport hands back: whether there was a reply, and the parts of it, or of
      why there was none.  `says` is what a reply's dict says of having failed, if it is one. */
  function Interpreted(success: bool, parts: seq<string>, says: string -> Option<bool>): PeerStatus {
    if success && |parts| == 1 then
      if says(parts[0]).None? then BadPeerResponse else Good(says(parts[0]).value)
    else if !success then
      if |parts| == 1 && parts[0] == STREAM_FULL then StreamFull else Timeout
    else if |parts| == 2 then ErrorCodeReason
    else BadPeerResponse
  }

  /** Exactly the forwards without a reply are worth sending again; and exactly a reply of one part, a dict that does not
      say that it failed, counts as a success. */
  lemma InterpretedExactly(success: bool, parts: seq<string>, says: string -> Option<bool>)
    ensures var s := Interpreted(success, parts, says);
      && (Retryable(s) <==> !success) && (Retryable(s) <==> s == Timeout || s == StreamFull)
      && (s == StreamFull <==> !success && parts == ["STREAMFULL"])
      && (!HasFailed(s) <==> success && |parts| == 1 && says(parts[0]) == Some(false))
  {
    if |parts| == 1 { assert parts == [parts[0]]; }
  }

  /** Whether the peer's part of the reply has "failed" in it. */
  predicate HasFailed(s: PeerStatus) {
    s.Good? ==> s.saysFailed
  }

  datatype Node = Own | Other(peer: Peer)

  /** What is in the reply for a node: whether it failed. */
  type Results = map<Node, bool>

  datatype Reply = Reply(ok: bool, results: Results)

  /** The shared state of a request, with what it has caused so far: the replies to the client, the
      deliveries queued over sn.data, and the requests queued for retrying. */
  datatype Shared = Shared(
    pending: int,
    isStore: bool,
    result: Results,
    stored: bool,
    undelivered: seq<Peer>,
    replies: seq<Reply>,
    queued: seq<Peer>,
    retried: seq<Peer>)

  function ForwardFailed(r: Shared, p: Peer): Shared {
    if !r.isStore then r.(retried := r.retried + [p])
    else if !r.stored then r.(undelivered := r.undelivered + [p])
    else r.(queued := r.queued + [p])
  }

  predicate AnyGood(result: Results) {
    exists n :: n in result && !result[n]
  }

  function Answered(r: Shared): Shared {
    r.(replies := r.replies + [Reply(AnyGood(r.result), r.result)])
  }

  /** A peer that there is no way to contact. */
  function Skipped(r: Shared, p: Peer): Shared {
    ForwardFailed(r.(pending := r.pending - 1), p)
  }

  /** A peer's reply, or the lack of one. */
  function PeerReplied(r: Shared, p: Peer, s: PeerStatus): Shared {
    var r1 := r.(pending := r.pending - 1);
    var r2 := if Retryable(s) then ForwardFailed(r1, p) else r1;
    var r3 := r2.(result := r2.result[Other(p) := HasFailed(s)]);
    if r1.pending == 0 then Answered(r3) else r3
  }

  /** The local part: for a store that succeeds, the peers whose forward had already failed have their
      deliveries queued. */
  function DoneLocally(r: Shared, success: bool): Shared {
    var r1 := if r.isStore && success then r.(stored := true, queued := r.queued + r.undelivered, undelivered := []) else r;
    var r2 := r1.(result := r1.result[Own := !success], pending := r1.pending - 1);
    if r2.pending == 0 then Answered(r2) else r2
  }

  /** The request's shared state as it is updated in place, each method under its lock. */
  class SwarmResponse {
    var r: Shared

    constructor (isStore: bool)
      ensures r == Shared(1, isStore, map[], false, [], [], [], [])
    {
      r := Shared(1, isStore, map[], false, [], [], [], []);
    }

    method ForwardFailedTo(p: Peer)
      modifies this
      ensures r == ForwardFailed(old(r), p)
    {
      if r.isStore {
        if !r.stored {
          r := r.(undelivered := r.undelivered + [p]);
        } else {
          r := r.(queued := r.queued + [p]);
        }
      } else {
        r := r.(retried := r.retried + [p]);
      }
    }

    /** Replies to the client: successfully, unless every node failed. */
    method ReplyOrFail()
      modifies this
      ensures r == Answered(old(r))
    {
      var ok := false;
      var todo := r.result.Keys;
      while todo != {}
        invariant todo <= r.result.Keys && r == old(r)
        invariant !ok && forall n :: n in r.result && n !in todo ==> r.result[n]
        decreases todo
      {
        var n :| n in todo;
        if !r.result[n] {
          ok := true;
          break;
        }
        todo := todo - {n};
      }
      assert ok == AnyGood(r.result);
      r := r.(replies := r.replies + [Reply(ok, r.result)]);
    }

    /** The forwarding loop at a peer that cannot be contacted. */
    method Skip(p: Peer)
      modifies this
      ensures r == Skipped(old(r), p)
    {
      r := r.(pending := r.pending - 1);
      ForwardFailedTo(p);
    }

    method OnPeerReply(p: Peer, status: PeerStatus)
      modifies this
      ensures r == PeerReplied(old(r), p, status)
    {
      r := r.(pending := r.pending - 1);
      var sendReply := r.pending == 0;
      var hasFailed;
      if !status.Good? {
        hasFailed := true;
        if Retryable(status) {
          ForwardFailedTo(p);
        }
      } else {
        hasFailed := status.saysFailed;
      }
      r := r.(result := r.result[Other(p) := hasFailed]);
      if sendReply {
        ReplyOrFail();
      }
    }

    method FinishLocally(success: bool)
      modifies this
      ensures r == DoneLocally(old(r), success)
    {
      if r.isStore && success {
        r := r.(stored := true);
        ghost var was := r;
        var i := 0;
        while i < |r.undelivered|
          invariant i <= |was.undelivered| && r == was.(queued := was.queued + was.undelivered[..i])
        {
          r := r.(queued := r.queued + [r.undelivered[i]]);
          i := i + 1;
        }
        assert was.undelivered[..i] == was.undelivered;
        r := r.(undelivered := []);
      }
      r := r.(result := r.result[Own := !success]);
      r := r.(pending := r.pending - 1);
      if r.pending == 0 {
        ReplyOrFail();
      }
    }
  }

  // ---- Every interleaving

  /** The request among its peers: those the forwarding loop has still to come to, those sent to, what each
      has answered, which forwards failed retryably, and how the local part went. */
  datatype Fan = Fan(
    r: Shared,
    todo: seq<Peer>,
    waiting: set<Peer>,
    statuses: map<Peer, PeerStatus>,
    failed: seq<Peer>,
    local: seq<bool>)

  datatype Event =
    | Skip
    | Send
    | Replied(peer: Peer, status: PeerStatus)
    | Local(success: bool)

  /** The peers counted before any is sent to. */
  function Begun(isStore: bool, peers: seq<Peer>): Fan {
    Fan(Shared(1 + |peers|, isStore, map[], false, [], [], [], []), peers, {}, map[], [], [])
  }

  /** The local part comes after the forwarding loop; replies may come at any time after their forward. */
  ghost predicate FanNext(f: Fan, e: Event, f': Fan) {
    match e
    case Skip => f.todo != [] && f' == f.(r := Skipped(f.r, f.todo[0]), todo := f.todo[1..], failed := f.failed + [f.todo[0]])
    case Send => f.todo != [] && f' == f.(todo := f.todo[1..], waiting := f.waiting + {f.todo[0]})
    case Replied(p, s) =>
      && p in f.waiting
      && f' == f.(r := PeerReplied(f.r, p, s), waiting := f.waiting - {p}, statuses := f.statuses[p := s],
                  failed := if Retryable(s) then f.failed + [p] else f.failed)
    case Local(success) =>
      f.todo == [] && f.local == [] && f' == f.(r := DoneLocally(f.r, success), local := [success])
  }

  ghost predicate FanRun(isStore: bool, peers: seq<Peer>, fs: seq<Fan>, es: seq<Event>) {
    && |fs| == |es| + 1 && fs[0] == Begun(isStore, peers)
    && forall i :: 0 <= i < |es| ==> Steps(fs, es, i)
  }

  ghost predicate Steps(fs: seq<Fan>, es: seq<Event>, i: nat)
    requires i < |es| && |fs| == |es| + 1
  {
    FanNext(fs[i], es[i], fs[i + 1])
  }

  // ---- The invariant

  ghost predicate NoRepeats(ps: seq<Peer>) {
    forall i, j :: 0 <= i < j < |ps| ==> ps[i] != ps[j]
  }

  /** No peer is in two places. */
  ghost predicate Apart(f: Fan) {
    && NoRepeats(f.todo) && NoRepeats(f.failed)
    && (forall p :: p in f.todo ==> p !in f.waiting && p !in f.statuses && p !in f.failed)
    && (forall p :: p in f.waiting ==> p !in f.statuses && p !in f.failed)
    && (forall p :: p in f.statuses ==> (p in f.failed <==> Retryable(f.statuses[p])))
  }

  /** What is left to wait for is what is counted, and the reply is sent when that is nothing. */
  ghost predicate Counted(f: Fan) {
    && |f.local| <= 1 && (f.local != [] ==> f.todo == [])
    && f.r.pending == |f.todo| + |f.waiting| + 1 - |f.local|
    && (if f.r.pending > 0 then f.r.replies == [] else f.r.replies == [Reply(AnyGood(f.r.result), f.r.result)])
  }

  /** The results are those of the peers that have answered, and of the local part once it is done. */
  ghost predicate IsRecord(result: Results, statuses: map<Peer, PeerStatus>, local: seq<bool>) {
    && (Own in result <==> local != [])
    && (local != [] ==> result[Own] == !local[0])
    && (forall p :: Other(p) in result <==> p in statuses)
    && (forall p :: p in statuses ==> result[Other(p)] == HasFailed(statuses[p]))
  }

  ghost predicate Recorded(f: Fan) {
    IsRecord(f.r.result, f.statuses, f.local)
  }

  /** A failed forward of a store waits for the message to be stored, and is then queued for delivery. */
  ghost predicate Delivering(f: Fan) {
    if !f.r.isStore then f.r.retried == f.failed && f.r.queued == [] && f.r.undelivered == []
    else
      && f.r.retried == []
      && f.r.stored == (f.local == [true])
      && (if f.r.stored then f.r.queued == f.failed && f.r.undelivered == [] else f.r.queued == [] && f.r.undelivered == f.failed)
  }

  ghost predicate FanInv(f: Fan) {
    Apart(f) && Counted(f) && Recorded(f) && Delivering(f)
  }

  lemma AddedOnce(ps: seq<Peer>, p: Peer)
    requires NoRepeats(ps) && p !in ps
    ensures NoRepeats(ps + [p])
  {
    forall i, j | 0 <= i < j < |ps| + 1 ensures (ps + [p])[i] != (ps + [p])[j] {
      assert ps[i] in ps;
    }
  }

  lemma NextKeepsApart(f: Fan, e: Event, f': Fan)
    requires Apart(f) && FanNext(f, e, f')
    ensures Apart(f')
  {
    if e.Skip? || e.Send? {
      assert f.todo == [f.todo[0]] + f.todo[1..];
      assert f.todo[0] !in f.todo[1..];
      AddedOnce(f.failed, f.todo[0]);
    }
    if e.Replied? { AddedOnce(f.failed, e.peer); }
  }

  lemma NextKeepsCounted(f: Fan, e: Event, f': Fan)
    requires Apart(f) && Counted(f) && FanNext(f, e, f')
    ensures Counted(f')
  {
  }

  lemma RecordsReply(result: Results, statuses: map<Peer, PeerStatus>, local: seq<bool>, p: Peer, s: PeerStatus)
    requires IsRecord(result, statuses, local)
    ensures IsRecord(result[Other(p) := HasFailed(s)], statuses[p := s], local)
  {
    assert Own != Other(p);
  }

  lemma RecordsLocal(result: Results, statuses: map<Peer, PeerStatus>, success: bool)
    requires IsRecord(result, statuses, [])
    ensures IsRecord(result[Own := !success], statuses, [success])
  {
    forall p ensures Other(p) in result[Own := !success] <==> p in statuses {
      assert Other(p) != Own;
    }
  }

  lemma NextKeepsRecorded(f: Fan, e: Event, f': Fan)
    requires Recorded(f) && FanNext(f, e, f')
    ensures Recorded(f')
  {
    match e
    case Skip =>
      assert f'.r.result == f.r.result;
    case Send =>
      assert f'.r == f.r;
    case Replied(p, s) =>
      RecordsReply(f.r.result, f.statuses, f.local, p, s);
    case Local(success) =>
      RecordsLocal(f.r.result, f.statuses, success);
  }

  lemma NextKeepsDelivering(f: Fan, e: Event, f': Fan)
    requires Delivering(f) && Counted(f) && FanNext(f, e, f')
    ensures Delivering(f')
  {
  }

  lemma BeginHolds(isStore: bool, peers: seq<Peer>)
    requires NoRepeats(peers)
    ensures FanInv(Begun(isStore, peers))
  {
  }

  /** In every interleaving, at every point, the invariant holds. */
  lemma {:induction false} FanRunKeeps(isStore: bool, peers: seq<Peer>, fs: seq<Fan>, es: seq<Event>, n: nat)
    requires FanRun(isStore, peers, fs, es) && NoRepeats(peers) && n < |fs|
    ensures FanInv(fs[n]) && fs[n].r.isStore == isStore
  {
    if n == 0 {
      BeginHolds(isStore, peers);
    } else {
      FanRunKeeps(isStore, peers, fs, es, n - 1);
      assert Steps(fs, es, n - 1);
      FanNextKeeps(fs[n - 1], es[n - 1], fs[n]);
    }
  }

  lemma FanNextKeeps(f: Fan, e: Event, f': Fan)
    requires FanInv(f) && FanNext(f, e, f')
    ensures FanInv(f') && f'.r.isStore == f.r.isStore
  {
    NextKeepsApart(f, e, f');
    NextKeepsCounted(f, e, f');
    NextKeepsRecorded(f, e, f');
    NextKeepsDelivering(f, e, f');
  }

  /** Nothing is outstanding: every peer passed over or answered, and the local part done. */
  predicate Complete(f: Fan) {
    f.todo == [] && f.waiting == {} && f.local != []
  }

  /** Whatever the order, there is one reply, and it is sent when everything is in and not before: it has
      the local result and that of every peer that was contacted, and is a success exactly if the local part
      is, or one of those peers replied and does not say that it failed. */
  lemma RepliesOnce(isStore: bool, peers: seq<Peer>, fs: seq<Fan>, es: seq<Event>, n: nat)
    requires FanRun(isStore, peers, fs, es) && NoRepeats(peers) && n < |fs|
    ensures var f := fs[n];
      if !Complete(f) then f.r.replies == []
      else && |f.r.replies| == 1
           && IsRecord(f.r.replies[0].results, f.statuses, f.local)
           && (f.r.replies[0].ok <==> f.local == [true] || exists p :: p in f.statuses && f.statuses[p] == Good(false))
  {
    FanRunKeeps(isStore, peers, fs, es, n);
    var f := fs[n];
    if Complete(f) { SuccessMeans(f); }
  }

  lemma SuccessMeans(f: Fan)
    requires f.local != [] && |f.local| <= 1 && Recorded(f)
    ensures AnyGood(f.r.result) <==> f.local == [true] || exists p :: p in f.statuses && f.statuses[p] == Good(false)
  {
    var x := f.r.result;
    if f.local == [true] { assert Own in x && !x[Own]; }
    if p :| p in f.statuses && f.statuses[p] == Good(false) {
      assert Other(p) in x && !x[Other(p)];
    }
    if AnyGood(x) {
      var n :| n in x && !x[n];
      if n.Other? { assert n.peer in f.statuses && f.statuses[n.peer] == Good(false); }
    }
  }

  function Count(ps: seq<Peer>, p: Peer): nat {
    multiset(ps)[p]
  }

  lemma {:induction false} CountedOnce(ps: seq<Peer>, p: Peer)
    requires NoRepeats(ps)
    ensures Count(ps, p) == if p in ps then 1 else 0
  {
    if ps != [] {
      var k := |ps| - 1;
      CountedOnce(ps[..k], p);
      assert ps == ps[..k] + [ps[k]];
    }
  }

  /** The forwarding loop found no way to contact the peer, at some step before `n`. */
  ghost predicate PassedOver(fs: seq<Fan>, es: seq<Event>, n: nat, p: Peer)
    requires |fs| == |es| + 1 && n <= |es|
  {
    exists i :: 0 <= i < n && SkipsAt(fs, es, i, p)
  }

  predicate SkipsAt(fs: seq<Fan>, es: seq<Event>, i: nat, p: Peer)
    requires |fs| == |es| + 1 && i < |es|
  {
    es[i] == Skip && fs[i].todo != [] && fs[i].todo[0] == p
  }

  /** Nothing came back from the peer: it could not be contacted, its reply timed out, or too much was already queued
      for it. */
  ghost predicate Unheard(fs: seq<Fan>, es: seq<Event>, n: nat, p: Peer)
    requires |fs| == |es| + 1 && n <= |es|
  {
    || PassedOver(fs, es, n, p)
    || (p in fs[n].statuses && (fs[n].statuses[p] == Timeout || fs[n].statuses[p] == StreamFull))
  }

  lemma FailedStep(f: Fan, e: Event, f': Fan, p: Peer)
    requires FanNext(f, e, f')
    ensures p in f'.failed <==>
      || p in f.failed || (e == Skip && f.todo != [] && f.todo[0] == p)
      || e == Replied(p, Timeout) || e == Replied(p, StreamFull)
    ensures p in f.statuses && p !in f.waiting ==> p in f'.statuses && f'.statuses[p] == f.statuses[p]
    ensures p in f'.statuses && p !in f.statuses ==> e == Replied(p, f'.statuses[p])
  {
  }

  /** In every interleaving, the forwards taken as failed are exactly those that nothing came back from. */
  lemma {:induction false} FailedExactly(isStore: bool, peers: seq<Peer>, fs: seq<Fan>, es: seq<Event>, n: nat, p: Peer)
    requires FanRun(isStore, peers, fs, es) && NoRepeats(peers) && n < |fs|
    ensures p in fs[n].failed <==> Unheard(fs, es, n, p)
  {
    if n > 0 {
      FailedExactly(isStore, peers, fs, es, n - 1, p);
      FanRunKeeps(isStore, peers, fs, es, n - 1);
      assert Steps(fs, es, n - 1);
      FailedStep(fs[n - 1], es[n - 1], fs[n], p);
      PassedOverStep(fs, es, n, p);
    }
  }

  lemma PassedOverStep(fs: seq<Fan>, es: seq<Event>, n: nat, p: Peer)
    requires |fs| == |es| + 1 && 0 < n <= |es|
    ensures PassedOver(fs, es, n, p) <==> PassedOver(fs, es, n - 1, p) || SkipsAt(fs, es, n - 1, p)
  {
    if PassedOver(fs, es, n - 1, p) {
      var i :| 0 <= i < n - 1 && SkipsAt(fs, es, i, p);
      assert 0 <= i < n;
    }
  }

  /** A store's message is queued exactly once for each peer that nothing came back from, if the store succeeded here,
      and never for any other or otherwise; any other request is retried, exactly once for each such peer. */
  lemma DeliversOnce(isStore: bool, peers: seq<Peer>, fs: seq<Fan>, es: seq<Event>, n: nat, p: Peer)
    requires FanRun(isStore, peers, fs, es) && NoRepeats(peers) && n < |fs|
    ensures var f := fs[n];
      && Count(f.r.queued, p) == (if isStore && f.local == [true] && Unheard(fs, es, n, p) then 1 else 0)
      && Count(f.r.retried, p) == (if !isStore && Unheard(fs, es, n, p) then 1 else 0)
  {
    FanRunKeeps(isStore, peers, fs, es, n);
    FailedExactly(isStore, peers, fs, es, n, p);
    CountedOnce(fs[n].failed, p);
  }

  /** Every peer is accounted for: still to come, waited for, answered, or passed over as uncontactable. */
  lemma {:induction false} EveryPeerAccounted(isStore: bool, peers: seq<Peer>, fs: seq<Fan>, es: seq<Event>,
                                              n: nat, p: Peer)
    requires FanRun(isStore, peers, fs, es) && n < |fs| && p in peers
    ensures var f := fs[n]; p in f.todo || p in f.waiting || p in f.statuses || p in f.failed
  {
    if n > 0 {
      EveryPeerAccounted(isStore, peers, fs, es, n - 1, p);
      assert Steps(fs, es, n - 1);
      var f := fs[n - 1];
      if f.todo != [] { assert f.todo == [f.todo[0]] + f.todo[1..]; }
    }
  }
}

/** What a `monitor` request is answered, and what the answers mean. */
module Subscriptions {
  import opened MonitorTypes
  import opened SessionLog
  import opened MonitorCore
  import opened CoreInvariants
  import opened SessionIndex

  /** What the subscription is answered: how many seconds it lasts, or none if it would be new and the session is
      at its cap. */
  function Answer(c: Core, o: Owner, sub: Subscription, lim: Limits): Option<nat> {
    if !AlreadyHas(c.mons, o, sub) && AtCap(c, o, lim) then None else Some(MONITOR_EXPIRY_TIME / SECOND)
  }

  /** The answers to a whole request, each in the state that the ones before it left. */
  function Answers(c: Core, o: Owner, subs: seq<Subscription>, now: Time, lim: Limits): (r: seq<Option<nat>>)
    ensures |r| == |subs|
    decreases |subs|
  {
    if subs == [] then []
    else
      var k := |subs| - 1;
      Answers(c, o, subs[..k], now, lim) + [Answer(SubscribeAll(c, o, subs[..k], now, lim), o, subs[k], lim)]
  }

  /** What a connection that has since closed is answered. */
  function NoAnswers(n: nat): seq<Option<nat>> {
    seq(n, _ => Some(0))
  }

  /** Without duplicates, renewing the one monitor found is renewing every such monitor. */
  lemma RenewsTheOne(c: Core, o: Owner, sub: Subscription, it: nat, now: Time)
    requires NoDuplicates(c) && it in c.mons && Subscribed(c.mons[it], o, sub)
    ensures c.mons[it := c.mons[it].(expiry := now + MONITOR_EXPIRY_TIME)] == Renewed(c.mons, o, sub, now)
    ensures AlreadyHas(c.mons, o, sub)
  {
    forall m | m in c.mons && Subscribed(c.mons[m], o, sub) ensures m == it {
      assert SameSubscription(c.mons[m], c.mons[it]);
    }
  }

  /** The index names the owner of what is subscribed on a connection. */
  lemma OwnerFound(c: Core, x: Conn, lim: Limits)
    requires Inv(c, lim)
    ensures var b := BoundIndex(c.sess); var o := if x in b then OfSession(b[x]) else OfConn(x);
      OwnerFor(c.sess, x, o) && Subscribing(c, o)
  {
    BoundIndexHolds(c.sess);
  }

  /** The owner is one that a request can have. */
  ghost predicate Subscribing(c: Core, o: Owner) {
    && OwnersStored(c) && NoDuplicates(c)
    && (o.OfSession? ==> o.sid in c.sess && c.sess[o.sid].since.None?)
  }

  lemma SubscribedSoFar(c: Core, o: Owner, subs: seq<Subscription>, now: Time, lim: Limits)
    requires Subscribing(c, o)
    ensures Subscribing(SubscribeAll(c, o, subs, now, lim), o)
  {
    SubscribeFrame(c, o, subs, now, lim);
    SubscribeAllKeepsOwners(c, o, subs, now, lim);
    SubscribeAllKeepsUnique(c, o, subs, now, lim);
  }

  /** The tables and the answers once the first `i` subscriptions are added or renewed. */
  ghost predicate SubscribedTo(c: Core, o: Owner, subs: seq<Subscription>, i: nat, now: Time, lim: Limits, r: Core, answers: seq<Option<nat>>)
    requires i <= |subs|
  {
    && r == SubscribeAll(c, o, subs[..i], now, lim) && answers == Answers(c, o, subs[..i], now, lim)
    && Subscribing(r, o)
  }

  lemma NoSubscription(c: Core, o: Owner, subs: seq<Subscription>, now: Time, lim: Limits)
    requires Subscribing(c, o)
    ensures SubscribedTo(c, o, subs, 0, now, lim, c, [])
  {
  }

  lemma NextSubscription(c: Core, o: Owner, subs: seq<Subscription>, i: nat, now: Time, lim: Limits, r: Core,
                         answers: seq<Option<nat>>)
    requires Subscribing(c, o) && i < |subs| && SubscribedTo(c, o, subs, i, now, lim, r, answers)
    ensures SubscribedTo(c, o, subs, i + 1, now, lim, SubscribeOne(r, o, subs[i], now, lim), answers + [Answer(r, o, subs[i], lim)])
  {
    assert subs[..i + 1][..i] == subs[..i];
    SubscribedSoFar(c, o, subs[..i + 1], now, lim);
  }

  lemma AllSubscriptions(c: Core, o: Owner, subs: seq<Subscription>, now: Time, lim: Limits, r: Core,
                         answers: seq<Option<nat>>)
    requires SubscribedTo(c, o, subs, |subs|, now, lim, r, answers)
    ensures r == SubscribeAll(c, o, subs, now, lim) && answers == Answers(c, o, subs, now, lim)
  {
    assert subs[..|subs|] == subs;
  }

  // ---- What the answers mean

  /** The owner's monitor of the subscription, good until `until`. */
  predicate HeldUntil(mons: map<nat, Monitor>, o: Owner, sub: Subscription, until: Time) {
    && AlreadyHas(mons, o, sub)
    && forall m :: m in mons && Subscribed(mons[m], o, sub) ==> mons[m].expiry == until
  }

  /** The answer is what the subscription then comes to. */
  predicate Comes(c: Core, o: Owner, sub: Subscription, a: Option<nat>, now: Time, lim: Limits) {
    if a.Some? then a.value * SECOND == MONITOR_EXPIRY_TIME && HeldUntil(c.mons, o, sub, now + MONITOR_EXPIRY_TIME)
    else AtCap(c, o, lim) && !AlreadyHas(c.mons, o, sub)
  }

  /** One more subscription undoes no other: a monitor that was good until then still is, and a session
      that had no room has none. */
  lemma OneMore(c: Core, o: Owner, sub: Subscription, other: Subscription, a: Option<nat>, now: Time, lim: Limits)
    requires OwnersStored(c) && Comes(c, o, other, a, now, lim)
    ensures Comes(SubscribeOne(c, o, sub, now, lim), o, other, a, now, lim)
  {
    var r := SubscribeOne(c, o, sub, now, lim);
    if AlreadyHas(c.mons, o, sub) {
      RenewOneMore(c.mons, o, sub, other, now);
      assert OwnedBy(r.mons, o) == OwnedBy(c.mons, o);
    } else if !AtCap(c, o, lim) {
      var m :| m in c.mons && Subscribed(c.mons[m], o, other);
      assert m in r.mons && Subscribed(r.mons[m], o, other);
    }
  }

  lemma OneComes(c: Core, o: Owner, sub: Subscription, now: Time, lim: Limits)
    requires OwnersStored(c)
    ensures Comes(SubscribeOne(c, o, sub, now, lim), o, sub, Answer(c, o, sub, lim), now, lim)
  {
    var r := SubscribeOne(c, o, sub, now, lim);
    if AlreadyHas(c.mons, o, sub) {
      RenewOneMore(c.mons, o, sub, sub, now);
    } else if !AtCap(c, o, lim) {
      assert Subscribed(r.mons[c.nextMon], o, sub);
    }
  }

  lemma RenewOneMore(mons: map<nat, Monitor>, o: Owner, sub: Subscription, other: Subscription, now: Time)
    ensures var r := Renewed(mons, o, sub, now); var until := now + MONITOR_EXPIRY_TIME;
      && (AlreadyHas(r, o, other) <==> AlreadyHas(mons, o, other))
      && (HeldUntil(mons, o, other, until) ==> HeldUntil(r, o, other, until))
      && (AlreadyHas(mons, o, sub) ==> HeldUntil(r, o, sub, until))
  {
    var r := Renewed(mons, o, sub, now);
    assert forall m, s :: m in mons ==> (Subscribed(r[m], o, s) <==> Subscribed(mons[m], o, s));
    if AlreadyHas(mons, o, other) {
      var m :| m in mons && Subscribed(mons[m], o, other);
      assert m in r && Subscribed(r[m], o, other);
    }
    if AlreadyHas(mons, o, sub) {
      var m :| m in mons && Subscribed(mons[m], o, sub);
      assert m in r && Subscribed(r[m], o, sub);
    }
  }

  lemma {:induction false} LastAnswer(c: Core, o: Owner, subs: seq<Subscription>, now: Time, lim: Limits, k: nat)
    requires |subs| == k + 1
    ensures Answers(c, o, subs, now, lim)[k] == Answer(SubscribeAll(c, o, subs[..k], now, lim), o, subs[k], lim)
  {
  }

  lemma {:induction false} EarlierAnswer(c: Core, o: Owner, subs: seq<Subscription>, now: Time, lim: Limits, k: nat, i: nat)
    requires |subs| == k + 1 && i < k
    ensures Answers(c, o, subs, now, lim)[i] == Answers(c, o, subs[..k], now, lim)[i]
    ensures subs[..k][i] == subs[i] && subs[..k][..i] == subs[..i]
  {
  }

  /** An answer is what the request as a whole leaves: a subscription answered with a time is held for all
      of it, and one that was refused is not held, whatever else the request asked for and in
      whatever order. */
  lemma {:induction false} AnswersHold(c: Core, o: Owner, subs: seq<Subscription>, now: Time, lim: Limits, i: nat)
    requires i < |subs| && OwnersStored(c) && (o.OfSession? ==> o.sid in c.sess)
    ensures Comes(SubscribeAll(c, o, subs, now, lim), o, subs[i], Answers(c, o, subs, now, lim)[i], now, lim)
    decreases |subs|
  {
    var k := |subs| - 1;
    var before := SubscribeAll(c, o, subs[..k], now, lim);
    SubscribeFrame(c, o, subs[..k], now, lim);
    SubscribeAllKeepsOwners(c, o, subs[..k], now, lim);
    if i < k {
      EarlierAnswer(c, o, subs, now, lim, k, i);
      AnswersHold(c, o, subs[..k], now, lim, i);
      OneMore(before, o, subs[k], subs[i], Answers(c, o, subs[..k], now, lim)[i], now, lim);
    } else {
      LastAnswer(c, o, subs, now, lim, k);
      OneComes(before, o, subs[k], now, lim);
    }
  }

  // ---- Who is refused, by the fields of the session and its monitors

  /** The owner has a monitor for exactly this. */
  ghost predicate Holds(c: Core, o: Owner, sub: Subscription) {
    exists m :: m in c.mons && c.mons[m] == Monitor(sub.account, c.mons[m].expiry, sub.namespaces, o, sub.wantData)
  }

  /** An unprivileged session that does not hold the subscription, and has as many monitors as the limit. */
  ghost predicate NoRoomFor(c: Core, o: Owner, sub: Subscription, lim: Limits) {
    && o.OfSession? && o.sid in c.sess && c.sess[o.sid].privileged == false && !Holds(c, o, sub)
    && lim.monitors <= |set m | m in c.mons && c.mons[m].owner == OfSession(o.sid)|
  }

  lemma AnswerIsExact(c: Core, o: Owner, sub: Subscription, lim: Limits)
    ensures Answer(c, o, sub, lim).None? <==> NoRoomFor(c, o, sub, lim)
    ensures Answer(c, o, sub, lim).Some? ==> Answer(c, o, sub, lim).value == 3900
  {
    assert Holds(c, o, sub) <==> AlreadyHas(c.mons, o, sub) by {
      if AlreadyHas(c.mons, o, sub) {
        var m :| m in c.mons && Subscribed(c.mons[m], o, sub);
        assert c.mons[m] == Monitor(sub.account, c.mons[m].expiry, sub.namespaces, o, sub.wantData);
      }
      if m :| m in c.mons && c.mons[m] == Monitor(sub.account, c.mons[m].expiry, sub.namespaces, o, sub.wantData) {
        assert Subscribed(c.mons[m], o, sub);
      }
    }
    if o.OfSession? { assert OwnedBy(c.mons, o) == set m | m in c.mons && c.mons[m].owner == OfSession(o.sid); }
  }

  lemma {:induction false} AnswerAt(c: Core, o: Owner, subs: seq<Subscription>, now: Time, lim: Limits, i: nat)
    requires i < |subs|
    ensures Answers(c, o, subs, now, lim)[i] == Answer(SubscribeAll(c, o, subs[..i], now, lim), o, subs[i], lim)
    decreases |subs|
  {
    var k := |subs| - 1;
    if i < k {
      EarlierAnswer(c, o, subs, now, lim, k, i);
      AnswerAt(c, o, subs[..k], now, lim, i);
    } else {
      LastAnswer(c, o, subs, now, lim, k);
    }
  }

  /** Of a request, exactly those subscriptions are refused that are new to an unprivileged session which by then has as
      many monitors as the limit; every other is answered with 65 minutes. */
  lemma RefusedExactly(c: Core, o: Owner, subs: seq<Subscription>, now: Time, lim: Limits, i: nat)
    requires i < |subs|
    ensures var a := Answers(c, o, subs, now, lim)[i];
      && (a.None? <==> NoRoomFor(SubscribeAll(c, o, subs[..i], now, lim), o, subs[i], lim))
      && (a.Some? ==> a.value == 65 * 60)
  {
    AnswerAt(c, o, subs, now, lim, i);
    AnswerIsExact(SubscribeAll(c, o, subs[..i], now, lim), o, subs[i], lim);
  }

  /** The owner is a connection or a privileged session, which no cap is for. */
  predicate Uncapped(c: Core, o: Owner) {
    match o
    case OfConn(_) => true
    case OfSession(s) => s in c.sess && c.sess[s].privileged == true
  }

  /** There is a monitor of the owner's for the subscription, good until then. */
  ghost predicate HeldAs(mons: map<nat, Monitor>, o: Owner, sub: Subscription, until: Time) {
    exists m :: m in mons && mons[m] == Monitor(sub.account, until, sub.namespaces, o, sub.wantData)
  }

  lemma HeldIsHeldAs(mons: map<nat, Monitor>, o: Owner, sub: Subscription, until: Time)
    requires HeldUntil(mons, o, sub, until)
    ensures HeldAs(mons, o, sub, until)
  {
    var m :| m in mons && Subscribed(mons[m], o, sub);
    assert mons[m].expiry == until;
  }

  lemma UncappedIsAnswered(c: Core, o: Owner, subs: seq<Subscription>, now: Time, lim: Limits, i: nat)
    requires i < |subs| && Uncapped(c, o)
    ensures Answers(c, o, subs, now, lim)[i] == Some(3900)
  {
    RefusedExactly(c, o, subs, now, lim, i);
    SubscribeFrame(c, o, subs[..i], now, lim);
  }

  /** Every subscription of a connection's own, or of a privileged session, is answered with a time, and held for all of
      it when the request is done. */
  lemma UncappedIsHeld(c: Core, o: Owner, subs: seq<Subscription>, now: Time, lim: Limits, i: nat)
    requires i < |subs| && OwnersStored(c) && Uncapped(c, o)
    ensures Answers(c, o, subs, now, lim)[i] == Some(3900)
    ensures HeldAs(SubscribeAll(c, o, subs, now, lim).mons, o, subs[i], now + 3900 * 1_000_000_000)
  {
    UncappedIsAnswered(c, o, subs, now, lim, i);
    AnswersHold(c, o, subs, now, lim, i);
    HeldIsHeldAs(SubscribeAll(c, o, subs, now, lim).mons, o, subs[i], now + MONITOR_EXPIRY_TIME);
  }
}

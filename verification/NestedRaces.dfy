/** Batches of batches, their handlers racing at every level: what a nested batch's last handler sends is what the handler
    of its place in the batch around it is called with. */
module NestedRaces {
  import opened MonitorTypes
  import opened Composition
  import opened BatchRace

  /** A request, with what its leaves answer. */
  datatype Shape = Single(r: Resp) | Group(subs: seq<Shape>)

  /** What a request is to be answered: a batch, the results of its requests in their order. */
  function Meaning(s: Shape): Resp {
    match s
    case Single(r) => r
    case Group(subs) => Resp(OK, Results(seq(|subs|, i requires 0 <= i < |subs| => Some(Meaning(subs[i])))))
  }

  function Answers(s: Shape): seq<Resp>
    requires s.Group?
  {
    seq(|s.subs|, i requires 0 <= i < |s.subs| => Meaning(s.subs[i]))
  }

  /** The reply to a batch as the response that it is. */
  function AsResp(slots: seq<Slot>): Resp
    requires forall i :: 0 <= i < |slots| ==> slots[i].code.Some? && slots[i].body.Some?
  {
    Resp(OK, Results(seq(|slots|, i requires 0 <= i < |slots| => Some(Resp(slots[i].code.value, slots[i].body.value)))))
  }

  ghost predicate NoEmptyGroup(s: Shape) {
    s.Group? ==> s.subs != [] && forall i :: 0 <= i < |s.subs| ==> NoEmptyGroup(s.subs[i])
  }

  /** A batch under way, with the batches in it. */
  datatype Tree = Lone | Tree(race: Race, kids: seq<Tree>)

  function Start(s: Shape): Tree {
    match s
    case Single(_) => Lone
    case Group(subs) => Tree(Begun(|subs|), seq(|subs|, i requires 0 <= i < |subs| => Start(subs[i])))
  }

  predicate HasSent(t: Tree) {
    t.Tree? && Sent in t.race.handlers
  }

  /** One step, anywhere in the tree; `sends` if it is the batch's own reply. */
  ghost predicate TreeNext(s: Shape, t: Tree, t': Tree, sends: bool)
    decreases s
  {
    && s.Group? && t.Tree? && t'.Tree? && |t.kids| == |s.subs|
    && (OwnStep(s, t, t', sends) || (!sends && (LeafStep(s, t, t')
        || exists i: nat, kid', sent: bool :: i < |s.subs| && KidStep(s, t, t', i, kid', sent) && TreeNext(s.subs[i], t.kids[i], kid', sent))))
  }

  /** A handler of the batch writes, decrements or sends. */
  ghost predicate OwnStep(s: Shape, t: Tree, t': Tree, sends: bool)
    requires s.Group? && t.Tree? && t'.Tree?
  {
    t'.kids == t.kids && exists e: Event :: !e.Call? && RaceNext(Answers(s), t.race, e, t'.race) && sends == e.Send?
  }

  /** A leaf calls its handler. */
  ghost predicate LeafStep(s: Shape, t: Tree, t': Tree)
    requires s.Group? && t.Tree? && t'.Tree?
  {
    t'.kids == t.kids && exists i: nat :: i < |s.subs| && s.subs[i].Single? && RaceNext(Answers(s), t.race, Call(i), t'.race)
  }

  /** The `i`-th request of the batch, itself a batch, comes to `kid`: calling its handler if it thereby sends. */
  ghost predicate KidStep(s: Shape, t: Tree, t': Tree, i: nat, kid: Tree, sent: bool)
    requires s.Group? && t.Tree? && t'.Tree? && |t.kids| == |s.subs| && i < |s.subs|
  {
    t'.kids == t.kids[i := kid] && if sent then RaceNext(Answers(s), t.race, Call(i), t'.race) else t'.race == t.race
  }

  // ---- The invariant

  /** At every level the race is sound, and a nested batch's handler has been called exactly if the batch has sent. */
  ghost predicate TreeInv(s: Shape, t: Tree)
    decreases s
  {
    match s
    case Single(_) => t.Lone?
    case Group(subs) =>
      && t.Tree? && |t.kids| == |subs| && RaceInv(Answers(s), t.race)
      && forall i :: 0 <= i < |subs| ==> TreeInv(subs[i], t.kids[i]) && CalledIfSent(subs[i], t, i)
  }

  predicate CalledIfSent(sub: Shape, t: Tree, i: nat)
    requires t.Tree? && i < |t.kids|
  {
    i < |t.race.handlers| && (sub.Group? ==> (t.race.handlers[i] != Uncalled <==> HasSent(t.kids[i])))
  }

  lemma {:induction false} StartHolds(s: Shape)
    requires NoEmptyGroup(s)
    ensures TreeInv(s, Start(s)) && !HasSent(Start(s))
    decreases s
  {
    if s.Group? {
      BegunHolds(Answers(s));
      forall i | 0 <= i < |s.subs| ensures TreeInv(s.subs[i], Start(s).kids[i]) && CalledIfSent(s.subs[i], Start(s), i) {
        StartHolds(s.subs[i]);
      }
    }
  }

  /** A handler's own steps leave it called. */
  lemma OwnKeepsCalled(answers: seq<Resp>, y: Race, e: Event, y': Race, i: nat)
    requires RaceNext(answers, y, e, y') && i < |y.handlers| && !(e.Call? && e.i == i)
    ensures |y'.handlers| == |y.handlers| && (y'.handlers[i] != Uncalled <==> y.handlers[i] != Uncalled)
  {
  }

  lemma SendsExactly(answers: seq<Resp>, y: Race, e: Event, y': Race)
    requires RaceInv(answers, y) && RaceNext(answers, y, e, y')
    ensures Sent in y'.handlers <==> Sent in y.handlers || e.Send?
  {
    if e.Send? {
      assert y'.handlers[e.i] == Sent;
    } else if Sent in y.handlers {
      var i :| 0 <= i < |y.handlers| && y.handlers[i] == Sent;
      assert y'.handlers[i] == Sent;
    }
  }

  /** A step of the batch's race that is not the call of a nested batch. */
  lemma RaceKeepsTree(s: Shape, t: Tree, t': Tree, e: Event)
    requires s.Group? && TreeInv(s, t) && t'.Tree? && t'.kids == t.kids && RaceNext(Answers(s), t.race, e, t'.race)
    requires e.Call? && e.i < |s.subs| ==> s.subs[e.i].Single?
    ensures TreeInv(s, t') && (HasSent(t') <==> HasSent(t) || e.Send?)
  {
    StepKeeps(Answers(s), t.race, e, t'.race);
    SendsExactly(Answers(s), t.race, e, t'.race);
    forall i | 0 <= i < |s.subs| ensures TreeInv(s.subs[i], t'.kids[i]) && CalledIfSent(s.subs[i], t', i) {
      assert CalledIfSent(s.subs[i], t, i);
      if s.subs[i].Group? { OwnKeepsCalled(Answers(s), t.race, e, t'.race, i); }
    }
  }

  /** A nested batch's step, which calls its handler exactly if it sends. */
  lemma KidKeepsTree(s: Shape, t: Tree, t': Tree, i: nat, kid: Tree, sent: bool)
    requires s.Group? && TreeInv(s, t) && t'.Tree? && i < |s.subs| && s.subs[i].Group? && KidStep(s, t, t', i, kid, sent)
    requires TreeInv(s.subs[i], kid) && (HasSent(kid) <==> HasSent(t.kids[i]) || sent)
    ensures TreeInv(s, t') && (HasSent(t') <==> HasSent(t))
  {
    if sent {
      StepKeeps(Answers(s), t.race, Call(i), t'.race);
      SendsExactly(Answers(s), t.race, Call(i), t'.race);
    }
    forall j | 0 <= j < |s.subs| ensures TreeInv(s.subs[j], t'.kids[j]) && CalledIfSent(s.subs[j], t', j) {
      assert CalledIfSent(s.subs[j], t, j);
      if sent && j != i && s.subs[j].Group? { OwnKeepsCalled(Answers(s), t.race, Call(i), t'.race, j); }
    }
  }

  lemma {:induction false} TreeNextKeeps(s: Shape, t: Tree, t': Tree, sends: bool)
    requires TreeInv(s, t) && TreeNext(s, t, t', sends)
    ensures TreeInv(s, t') && (HasSent(t') <==> HasSent(t) || sends)
    decreases s
  {
    if OwnStep(s, t, t', sends) {
      var e: Event :| !e.Call? && RaceNext(Answers(s), t.race, e, t'.race) && sends == e.Send?;
      RaceKeepsTree(s, t, t', e);
    } else if LeafStep(s, t, t') {
      var i: nat :| i < |s.subs| && s.subs[i].Single? && RaceNext(Answers(s), t.race, Call(i), t'.race);
      RaceKeepsTree(s, t, t', Call(i));
    } else {
      var i: nat, kid, sent: bool :| i < |s.subs| && KidStep(s, t, t', i, kid, sent) && TreeNext(s.subs[i], t.kids[i], kid, sent);
      TreeNextKeeps(s.subs[i], t.kids[i], kid, sent);
      KidKeepsTree(s, t, t', i, kid, sent);
    }
  }

  // ---- Every run

  ghost predicate TreeRun(s: Shape, ts: seq<Tree>, sends: seq<bool>) {
    && |ts| == |sends| + 1 && ts[0] == Start(s)
    && forall i :: 0 <= i < |sends| ==> TreeSteps(s, ts, sends, i)
  }

  ghost predicate TreeSteps(s: Shape, ts: seq<Tree>, sends: seq<bool>, i: nat)
    requires i < |sends| && |ts| == |sends| + 1
  {
    TreeNext(s, ts[i], ts[i + 1], sends[i])
  }

  lemma {:induction false} TreeRunKeeps(s: Shape, ts: seq<Tree>, sends: seq<bool>, n: nat)
    requires TreeRun(s, ts, sends) && NoEmptyGroup(s) && n < |ts|
    ensures TreeInv(s, ts[n])
  {
    if n == 0 {
      StartHolds(s);
    } else {
      TreeRunKeeps(s, ts, sends, n - 1);
      assert TreeSteps(s, ts, sends, n - 1);
      TreeNextKeeps(s, ts[n - 1], ts[n], sends[n - 1]);
    }
  }

  /** Every batch in the tree has made one reply, and it is what the batch means. */
  ghost predicate AllReplied(s: Shape, t: Tree)
    decreases s
  {
    s.Group? ==>
      && t.Tree? && |t.kids| == |s.subs| && t.race.replies == [AllWritten(Answers(s))] && AsResp(AllWritten(Answers(s))) == Meaning(s)
      && forall i :: 0 <= i < |s.subs| ==> AllReplied(s.subs[i], t.kids[i])
  }

  /** At no level was an element written after the results were taken. */
  ghost predicate FaultFree(s: Shape, t: Tree)
    decreases s
  {
    s.Group? ==> t.Tree? && |t.kids| == |s.subs| && !t.race.fault && forall i :: 0 <= i < |s.subs| ==> FaultFree(s.subs[i], t.kids[i])
  }

  lemma {:induction false} SoundIsFaultFree(s: Shape, t: Tree)
    requires TreeInv(s, t)
    ensures FaultFree(s, t)
    decreases s
  {
    if s.Group? {
      forall i | 0 <= i < |s.subs| ensures FaultFree(s.subs[i], t.kids[i]) {
        SoundIsFaultFree(s.subs[i], t.kids[i]);
      }
    }
  }

  lemma WrittenIsMeaning(s: Shape)
    requires s.Group?
    ensures AsResp(AllWritten(Answers(s))) == Meaning(s)
  {
    assert AsResp(AllWritten(Answers(s))).body.items == Meaning(s).body.items;
  }

  lemma {:induction false} SentIsAllReplied(s: Shape, t: Tree)
    requires TreeInv(s, t) && (s.Group? ==> HasSent(t))
    ensures AllReplied(s, t)
    decreases s
  {
    if s.Group? {
      WrittenIsMeaning(s);
      SentIsAllCalled(Answers(s), t.race);
      forall i | 0 <= i < |s.subs| ensures AllReplied(s.subs[i], t.kids[i]) {
        assert CalledIfSent(s.subs[i], t, i);
        SentIsAllReplied(s.subs[i], t.kids[i]);
      }
    }
  }

  lemma SentIsAllCalled(answers: seq<Resp>, y: Race)
    requires RaceInv(answers, y) && Sent in y.handlers
    ensures forall i :: 0 <= i < |y.handlers| ==> y.handlers[i] != Uncalled
  {
    var j :| 0 <= j < |y.handlers| && y.handlers[j] == Sent;
    assert IsLast(y.handlers[j]);
    AllOver(answers, y);
  }

  // ---- Something is left to happen until the reply

  /** Unless its reply is made, some handler has a step to take, or has yet to be called. */
  lemma RaceGoesOn(answers: seq<Resp>, y: Race) returns (e: Event, y': Race)
    requires RaceInv(answers, y) && answers != [] && Sent !in y.handlers
    ensures RaceNext(answers, y, e, y')
  {
    if i :| 0 <= i < |y.handlers| && y.handlers[i] == Counted(true) {
      e := Send(i);
      y' := Advance(y, i, Sent).(replies := y.replies + [y.slots], slots := []);
    } else {
      NotAllOver(answers, y);
      var i :| 0 <= i < |y.handlers| && !Over(y.handlers[i]);
      match y.handlers[i]
      case Uncalled => e, y' := Call(i), Advance(y, i, Called);
      case Called => e, y' := WriteCode(i), PutCode(Advance(y, i, Coded), i, answers[i].code);
      case Coded => e, y' := WriteBody(i), PutBody(Advance(y, i, Written), i, answers[i].body);
      case Written => e, y' := Decrement(i), Advance(y, i, Counted(y.remaining - 1 == 0)).(remaining := y.remaining - 1);
    }
  }

  lemma NotAllOver(answers: seq<Resp>, y: Race)
    requires RaceInv(answers, y) && !exists i :: 0 <= i < |y.handlers| && IsLast(y.handlers[i])
    ensures exists i :: 0 <= i < |y.handlers| && !Over(y.handlers[i])
  {
    var seen := SeenResults(answers, y);
    NoneLeft(seen);
    var i :| 0 <= i < |seen| && seen[i].None?;
    assert !Over(y.handlers[i]);
  }

  lemma {:induction false} UnsentGoesOn(s: Shape, t: Tree) returns (t': Tree, sends: bool)
    requires TreeInv(s, t) && NoEmptyGroup(s) && s.Group? && !HasSent(t)
    ensures TreeNext(s, t, t', sends)
    decreases s
  {
    var e, y' := RaceGoesOn(Answers(s), t.race);
    if e.Call? && s.subs[e.i].Group? {
      assert CalledIfSent(s.subs[e.i], t, e.i);
      var kid, sent := UnsentGoesOn(s.subs[e.i], t.kids[e.i]);
      t', sends := Tree(if sent then y' else t.race, t.kids[e.i := kid]), false;
      assert KidStep(s, t, t', e.i, kid, sent);
    } else {
      t', sends := Tree(y', t.kids), e.Send?;
      assert if e.Call? then LeafStep(s, t, t') else OwnStep(s, t, t', sends);
    }
  }

  /** However deep batches are nested and however the handlers of all of them race, no write comes after a reply, the
      whole makes at most one reply, which is what it means, and by then every batch in it has made its one reply,
      which is what that means; and until then something is left to happen. */
  lemma NestedRepliesOnce(s: Shape, ts: seq<Tree>, sends: seq<bool>, n: nat)
    requires TreeRun(s, ts, sends) && NoEmptyGroup(s) && s.Group? && n < |ts|
    ensures ts[n].Tree? && FaultFree(s, ts[n])
    ensures if HasSent(ts[n]) then AllReplied(s, ts[n])
            else ts[n].race.replies == [] && exists t', b :: TreeNext(s, ts[n], t', b)
  {
    TreeRunKeeps(s, ts, sends, n);
    SoundIsFaultFree(s, ts[n]);
    if HasSent(ts[n]) {
      SentIsAllReplied(s, ts[n]);
    } else {
      var t', b := UnsentGoesOn(s, ts[n]);
    }
  }
}

/** The handlers of a batch as they race: each writes its own element of the results in two parts, then decrements
    the count, and the one that brings it to zero moves the results into the reply, all of these as separate
    steps, on any threads. */
module BatchRace {
  import opened MonitorTypes
  import opened Composition

  /** An element of the results array: an object that gets its code, and then its body. */
  datatype Slot = Slot(code: Option<int>, body: Option<Body>)

  /** How far the handler of one request has got; `last` once it has brought the count to zero. */
  datatype Handler = Uncalled | Called | Coded | Written | Counted(last: bool) | Sent

  /** A batch under way; `slots` is emptied by the reply that takes it, and `fault` records a write to an element
      that is no longer there. */
  datatype Race = Race(handlers: seq<Handler>, slots: seq<Slot>, remaining: int, replies: seq<seq<Slot>>, fault: bool)

  datatype Event =
    | Call(i: nat)
    | WriteCode(i: nat)
    | WriteBody(i: nat)
    | Decrement(i: nat)
    | Send(i: nat)

  function Begun(n: nat): Race {
    Race(seq(n, _ => Uncalled), seq(n, _ => Slot(None, None)), n, [], false)
  }

  function PutCode(y: Race, i: nat, code: int): Race {
    if i < |y.slots| then y.(slots := y.slots[i := y.slots[i].(code := Some(code))]) else y.(fault := true)
  }

  function PutBody(y: Race, i: nat, body: Body): Race {
    if i < |y.slots| then y.(slots := y.slots[i := y.slots[i].(body := Some(body))]) else y.(fault := true)
  }

  function Advance(y: Race, i: nat, h: Handler): Race
    requires i < |y.handlers|
  {
    y.(handlers := y.handlers[i := h])
  }

  /** The handler of the `i`-th request is called once, with its response, `answers[i]`. */
  ghost predicate RaceNext(answers: seq<Resp>, y: Race, e: Event, y': Race) {
    e.i < |y.handlers| && |y.handlers| == |answers| &&
    match e
    case Call(i) => y.handlers[i].Uncalled? && y' == Advance(y, i, Called)
    case WriteCode(i) => y.handlers[i].Called? && y' == PutCode(Advance(y, i, Coded), i, answers[i].code)
    case WriteBody(i) => y.handlers[i].Coded? && y' == PutBody(Advance(y, i, Written), i, answers[i].body)
    case Decrement(i) =>
      && y.handlers[i].Written?
      && y' == Advance(y, i, Counted(y.remaining - 1 == 0)).(remaining := y.remaining - 1)
    case Send(i) =>
      && y.handlers[i] == Counted(true)
      && y' == Advance(y, i, Sent).(replies := y.replies + [y.slots], slots := [])
  }

  ghost predicate RaceRun(answers: seq<Resp>, ys: seq<Race>, es: seq<Event>) {
    && |ys| == |es| + 1 && ys[0] == Begun(|answers|)
    && forall i :: 0 <= i < |es| ==> RaceSteps(answers, ys, es, i)
  }

  ghost predicate RaceSteps(answers: seq<Resp>, ys: seq<Race>, es: seq<Event>, i: nat)
    requires i < |es| && |ys| == |es| + 1
  {
    RaceNext(answers, ys[i], es[i], ys[i + 1])
  }

  // ---- The batch as its count sees it

  predicate Over(h: Handler) {
    h.Counted? || h.Sent?
  }

  /** The results of the handlers that have decremented the count. */
  function SeenResults(answers: seq<Resp>, y: Race): seq<Option<Resp>>
    requires |y.handlers| == |answers|
  {
    seq(|answers|, i requires 0 <= i < |answers| => if Over(y.handlers[i]) then Some(answers[i]) else None)
  }

  function Seen(answers: seq<Resp>, y: Race, kids: seq<Task>): Task
    requires |y.handlers| == |answers|
  {
    BatchT(kids, SeenResults(answers, y), y.remaining)
  }

  function SlotAt(h: Handler, r: Resp): Slot {
    match h
    case Uncalled => Slot(None, None)
    case Called => Slot(None, None)
    case Coded => Slot(Some(r.code), None)
    case _ => Slot(Some(r.code), Some(r.body))
  }

  /** Every response written out, in the order of the requests. */
  function AllWritten(answers: seq<Resp>): seq<Slot> {
    seq(|answers|, i requires 0 <= i < |answers| => Slot(Some(answers[i].code), Some(answers[i].body)))
  }

  predicate IsLast(h: Handler) {
    h == Counted(true) || h == Sent
  }

  ghost predicate SomeLast(handlers: seq<Handler>) {
    exists i :: 0 <= i < |handlers| && IsLast(handlers[i])
  }

  ghost predicate OneLast(handlers: seq<Handler>) {
    forall i, j :: 0 <= i < |handlers| && 0 <= j < |handlers| && IsLast(handlers[i]) && IsLast(handlers[j]) ==> i == j
  }

  /** While nothing is sent, each element is as far as its handler; then there is the one reply, and no elements. */
  ghost predicate SlotsMatch(answers: seq<Resp>, y: Race)
    requires |y.handlers| == |answers|
  {
    if Sent in y.handlers then y.slots == [] && y.replies == [AllWritten(answers)]
    else
      && y.replies == [] && |y.slots| == |answers|
      && forall i :: 0 <= i < |answers| ==> y.slots[i] == SlotAt(y.handlers[i], answers[i])
  }

  ghost predicate RaceInv(answers: seq<Resp>, y: Race) {
    && |y.handlers| == |answers| && !y.fault
    && y.remaining == CountNone(SeenResults(answers, y)) && (y.remaining > 0 <==> !SomeLast(y.handlers))
    && OneLast(y.handlers) && SlotsMatch(answers, y)
  }

  lemma BegunHolds(answers: seq<Resp>)
    requires answers != []
    ensures RaceInv(answers, Begun(|answers|))
  {
    AllNone(|answers|);
    assert SeenResults(answers, Begun(|answers|)) == seq(|answers|, _ => None);
  }

  /** Counted down to zero, every handler has written its element and decremented. */
  lemma AllOver(answers: seq<Resp>, y: Race)
    requires RaceInv(answers, y) && y.remaining == 0
    ensures forall i :: 0 <= i < |y.handlers| ==> Over(y.handlers[i])
  {
    NoneLeft(SeenResults(answers, y));
    forall i | 0 <= i < |y.handlers| ensures Over(y.handlers[i]) {
      assert SeenResults(answers, y)[i].Some?;
    }
  }

  lemma StillCounting(answers: seq<Resp>, y: Race, i: nat)
    requires RaceInv(answers, y) && i < |y.handlers| && !Over(y.handlers[i])
    ensures y.remaining > 0
  {
    if y.remaining == 0 { AllOver(answers, y); }
  }

  /** A handler that is not the last to decrement goes on to something else than that. */
  lemma NoLastAdded(hs: seq<Handler>, i: nat, h: Handler)
    requires i < |hs| && !IsLast(hs[i]) && !IsLast(h)
    ensures OneLast(hs) ==> OneLast(hs[i := h])
    ensures (SomeLast(hs[i := h]) <==> SomeLast(hs)) && (Sent in hs[i := h] <==> Sent in hs)
  {
    var hs' := hs[i := h];
    if j :| 0 <= j < |hs| && IsLast(hs[j]) { assert IsLast(hs'[j]); }
    if j :| 0 <= j < |hs| && hs[j] == Sent { assert hs'[j] == Sent; }
  }

  lemma LastAdded(hs: seq<Handler>, i: nat)
    requires i < |hs| && !SomeLast(hs)
    ensures OneLast(hs[i := Counted(true)]) && SomeLast(hs[i := Counted(true)]) && Sent !in hs && Sent !in hs[i := Counted(true)]
  {
    assert IsLast(hs[i := Counted(true)][i]);
  }

  lemma WriteKeeps(answers: seq<Resp>, y: Race, e: Event, y': Race)
    requires RaceInv(answers, y) && RaceNext(answers, y, e, y') && (e.Call? || e.WriteCode? || e.WriteBody?)
    ensures RaceInv(answers, y') && SeenResults(answers, y') == SeenResults(answers, y) && y'.remaining == y.remaining
  {
    var i := e.i;
    assert SeenResults(answers, y') == SeenResults(answers, y);
    StillCounting(answers, y, i);
    NoLastAdded(y.handlers, i, y'.handlers[i]);
  }

  lemma DecrementKeeps(answers: seq<Resp>, y: Race, i: nat, y': Race, kids: seq<Task>)
    requires RaceInv(answers, y) && RaceNext(answers, y, Decrement(i), y')
    ensures RaceInv(answers, y')
    ensures var (b, out) := BatchHandle(Seen(answers, y, kids), i, Some(answers[i]));
      Seen(answers, y', kids) == b && (y'.handlers[i] == Counted(true) <==> out.Some?)
  {
    var was := SeenResults(answers, y);
    assert was[i].None?;
    FillOne(was, i, answers[i]);
    assert SeenResults(answers, y') == was[i := Some(answers[i])];
    if y'.remaining == 0 {
      LastAdded(y.handlers, i);
    } else {
      NoLastAdded(y.handlers, i, y'.handlers[i]);
    }
  }

  /** The reply is made of every response, and is the one that the batch would have made at its last decrement. */
  lemma SendKeeps(answers: seq<Resp>, y: Race, i: nat, y': Race)
    requires RaceInv(answers, y) && RaceNext(answers, y, Send(i), y')
    ensures RaceInv(answers, y') && SeenResults(answers, y') == SeenResults(answers, y) && y'.remaining == y.remaining == 0
  {
    assert IsLast(y.handlers[i]);
    AllOver(answers, y);
    assert SeenResults(answers, y') == SeenResults(answers, y);
    assert Sent !in y.handlers;
    assert y.slots == AllWritten(answers);
    assert y'.handlers[i] == Sent;
    assert forall k :: 0 <= k < |y.handlers| && k != i ==> y'.handlers[k] == y.handlers[k];
  }

  lemma {:induction false} RaceKeeps(answers: seq<Resp>, ys: seq<Race>, es: seq<Event>, n: nat)
    requires RaceRun(answers, ys, es) && answers != [] && n < |ys|
    ensures RaceInv(answers, ys[n])
  {
    if n == 0 {
      BegunHolds(answers);
    } else {
      RaceKeeps(answers, ys, es, n - 1);
      assert RaceSteps(answers, ys, es, n - 1);
      StepKeeps(answers, ys[n - 1], es[n - 1], ys[n]);
    }
  }

  lemma StepKeeps(answers: seq<Resp>, y: Race, e: Event, y': Race)
    requires RaceInv(answers, y) && RaceNext(answers, y, e, y')
    ensures RaceInv(answers, y')
  {
    match e
    case Decrement(i) => DecrementKeeps(answers, y, i, y', []);
    case Send(i) => SendKeeps(answers, y, i, y');
    case _ => WriteKeeps(answers, y, e, y');
  }

  /** A handler in three steps is the handler in one: its writes and the sending change nothing that the batch
      counts, its decrement is the batch's whole step, and it is the one to send exactly if that step replies. */
  lemma RaceRefines(answers: seq<Resp>, ys: seq<Race>, es: seq<Event>, n: nat, kids: seq<Task>)
    requires RaceRun(answers, ys, es) && answers != [] && n < |es|
    ensures |ys[n].handlers| == |ys[n + 1].handlers| == |answers| && es[n].i < |answers|
    ensures var b, b' := Seen(answers, ys[n], kids), Seen(answers, ys[n + 1], kids); var i := es[n].i;
      if es[n].Decrement?
      then b' == BatchHandle(b, i, Some(answers[i])).0
           && (ys[n + 1].handlers[i] == Counted(true) <==> BatchHandle(b, i, Some(answers[i])).1.Some?)
      else b' == b
  {
    RaceKeeps(answers, ys, es, n);
    RaceKeeps(answers, ys, es, n + 1);
    assert RaceSteps(answers, ys, es, n);
    match es[n]
    case Decrement(i) => DecrementKeeps(answers, ys[n], i, ys[n + 1], kids);
    case Send(i) => SendKeeps(answers, ys[n], i, ys[n + 1]);
    case _ => WriteKeeps(answers, ys[n], es[n], ys[n + 1]);
  }

  /** However the handlers race, no write comes after the results are taken, no more than one reply is made, and it
      has every response complete, each where its request was; and there is one when no handler has anything left
      to do. */
  lemma RaceRepliesOnce(answers: seq<Resp>, ys: seq<Race>, es: seq<Event>, n: nat)
    requires RaceRun(answers, ys, es) && answers != [] && n < |ys|
    ensures !ys[n].fault && (ys[n].replies == [] || ys[n].replies == [AllWritten(answers)])
    ensures (forall i :: 0 <= i < |ys[n].handlers| ==> ys[n].handlers[i] == Counted(false) || ys[n].handlers[i] == Sent) ==>
      ys[n].replies == [AllWritten(answers)]
  {
    RaceKeeps(answers, ys, es, n);
    var y := ys[n];
    if forall i :: 0 <= i < |y.handlers| ==> y.handlers[i] == Counted(false) || y.handlers[i] == Sent {
      NoneLeft(SeenResults(answers, y));
      var i :| 0 <= i < |y.handlers| && IsLast(y.handlers[i]);
      assert y.handlers[i] == Sent;
    }
  }
}

/** The hand-over of a response between the thread that serves a connection, which parks it while a request is
    worked on, and whichever thread comes to answer it: up to the start of a shutdown. */
module ParkedRequests {
  import opened MonitorTypes

  /** What a client can be sent: what it was answered, that its request was dropped unprocessed, that it was
      too large, or that its connection was woken with nothing to send. */
  datatype Response = Said(text: string) | Busy | TooLarge | NothingPending

  /** The connection's half of a request. */
  datatype Half = Half(suspended: bool, completed: bool, pending: Option<Response>)

  /** The half after a response comes for it, and whether that takes it out of suspension: neither, if it is over
      or already has one. */
  function Delivered(c: Half, r: Response): (Half, bool) {
    if c.completed || c.pending.Some? then (c, false)
    else (c.(pending := Some(r), suspended := false), c.suspended)
  }

  /** Takes the response that is waiting, if any. */
  function Taken(c: Half): (Half, Option<Response>) {
    (c.(pending := None), c.pending)
  }

  class MhdConn {
    var c: Half

    constructor ()
      ensures c == Half(false, false, None)
    {
      c := Half(false, false, None);
    }

    method Deliver(r: Response) returns (resume: bool)
      modifies this
      ensures (c, resume) == Delivered(old(c), r)
    {
      if c.completed || c.pending.Some? {
        return false;
      }
      c := c.(pending := Some(r));
      if c.suspended {
        c := c.(suspended := false);
        return true;
      }
      return false;
    }

    method TakePending() returns (r: Option<Response>)
      modifies this
      ensures (c, r) == Taken(old(c))
    {
      r := c.pending;
      c := c.(pending := None);
    }
  }

  /** Where the serving thread has the request: reading its body, out of its loop, back in its loop with the
      request still open, answered, or done with. */
  datatype Phase = Reading | Parked | Woken | Answered | Gone

  /** Who has the request's call object. */
  datatype Holder = Nobody | Server | Worker

  /** A request; `resumed` counts how often its connection was woken, `queued` are the responses queued. */
  datatype Request = Request(
    phase: Phase,
    conn: Half,
    call: Holder,
    tooLarge: bool,
    replied: bool,
    queued: seq<Response>,
    resumed: nat)

  datatype Event =
    | Chunk(over: bool)
    | BodyDone
    | Reply(text: string)
    | Drop
    | Handle
    | Complete

  /** A request whose headers are in: answered by them already, or to be handed to a worker. */
  function Begun(immediate: Option<string>): Request {
    Request(Reading, Half(false, false, if immediate.Some? then Some(Said(immediate.value)) else None), if immediate.Some? then Nobody else Server, false, false, [], 0)
  }

  /** The response delivered, and the connection woken if that was called for. */
  function Deliver(q: Request, r: Response): Request {
    var (c, resume) := Delivered(q.conn, r);
    if resume then q.(conn := c, phase := Woken, resumed := q.resumed + 1) else q.(conn := c)
  }

  /** What the serving thread does with a request that has been answered: queues the response. */
  function Queue(q: Request): Request {
    var (c, r) := Taken(q.conn);
    q.(conn := c, phase := Answered, queued := q.queued + [if r.Some? then r.value else NothingPending])
  }

  /** A call replies only once. */
  function ReplyTo(q: Request, r: Response): Request {
    if q.replied then q else Deliver(q.(replied := true), r)
  }

  ghost predicate Next(q: Request, e: Event, q': Request) {
    match e
    case Chunk(over) => q.phase == Reading && q' == q.(tooLarge := q.tooLarge || (over && q.call == Server))
    case BodyDone =>
      && q.phase == Reading
      && q' == if q.call != Server then Queue(q)
               else if q.tooLarge then Queue(ReplyTo(q.(call := Nobody), TooLarge))
               else q.(phase := Parked, call := Worker, conn := q.conn.(suspended := true))
    case Reply(text) => q.call == Worker && q' == ReplyTo(q, Said(text))
    case Drop =>
      && q.call == Worker
      && q' == (if q.replied then q else Deliver(q, Busy)).(call := Nobody)
    case Handle => q.phase == Woken && q' == Queue(q)
    case Complete =>
      // A parked connection is out of the loop, so that nothing can end its request.
      && q.phase != Parked && q.phase != Gone
      && q' == q.(phase := Gone, conn := q.conn.(completed := true), call := if q.call == Server then Nobody else q.call)
  }

  ghost predicate Run(immediate: Option<string>, qs: seq<Request>, es: seq<Event>) {
    && |qs| == |es| + 1 && qs[0] == Begun(immediate)
    && forall i :: 0 <= i < |es| ==> Next(qs[i], es[i], qs[i + 1])
  }

  /** A parked request has a worker that has yet to reply and no response pending, and an open one that is
      not parked and has been read has its response. */
  ghost predicate Inv(q: Request) {
    && (q.conn.suspended <==> q.phase == Parked)
    && (q.conn.completed <==> q.phase == Gone)
    && |q.queued| <= 1 && (q.phase == Answered ==> |q.queued| == 1) && (q.phase in {Reading, Parked, Woken} ==> q.queued == [])
    && NothingPending !in q.queued
    && q.resumed <= 1 && (q.phase in {Reading, Parked} ==> q.resumed == 0)
    && match q.phase
       case Reading => (q.call == Server <==> q.conn.pending.None?) && q.call != Worker && !q.replied && q.conn.pending != Some(NothingPending)
       case Parked => q.call == Worker && !q.replied && q.conn.pending.None?
       case Woken => q.conn.pending.Some? && q.conn.pending != Some(NothingPending) && (q.call == Worker ==> q.replied) && q.call != Server
       case Answered => q.call != Server && (q.call == Worker ==> q.replied)
       case Gone => q.call != Server
  }

  lemma NextKeeps(q: Request, e: Event, q': Request)
    requires Inv(q) && Next(q, e, q')
    ensures Inv(q')
  {
  }

  lemma {:induction false} RunKeeps(immediate: Option<string>, qs: seq<Request>, es: seq<Event>, n: nat)
    requires Run(immediate, qs, es) && n < |qs|
    ensures Inv(qs[n])
  {
    if n > 0 {
      RunKeeps(immediate, qs, es, n - 1);
      NextKeeps(qs[n - 1], es[n - 1], qs[n]);
    }
  }

  /** Before a shutdown, a request is answered once: it is never woken without its response, never answered
      twice, never woken twice, and not after it is over; and the first reply to a parked request, or the
      loss of its call, wakes it with the response that is then queued. */
  lemma AnsweredOnce(immediate: Option<string>, qs: seq<Request>, es: seq<Event>, n: nat)
    requires Run(immediate, qs, es) && n < |es|
    ensures |qs[n].queued| <= 1 && NothingPending !in qs[n].queued && qs[n].resumed <= 1
    ensures qs[n + 1].resumed > qs[n].resumed ==> qs[n].phase == Parked && !qs[n].conn.completed
    ensures qs[n].phase == Parked ==> qs[n].conn.pending.None? && qs[n].call == Worker
    ensures qs[n].phase == Parked && (es[n].Reply? || es[n].Drop?) ==>
      qs[n + 1].phase == Woken && qs[n + 1].conn.pending == Some(if es[n].Reply? then Said(es[n].text) else Busy)
    ensures qs[n].phase == Woken && es[n].Handle? ==>
      qs[n].conn.pending.Some? && qs[n + 1].phase == Answered && qs[n + 1].queued == [qs[n].conn.pending.value]
  {
    RunKeeps(immediate, qs, es, n);
    assert Next(qs[n], es[n], qs[n + 1]);
  }

  /** A request whose body is complete has had its response, is about to, or waits for a worker that is still
      to reply: unless the client has gone. */
  lemma NeverStranded(immediate: Option<string>, qs: seq<Request>, es: seq<Event>, n: nat)
    requires Run(immediate, qs, es) && n < |qs|
    ensures match qs[n].phase
      case Reading => true
      case Parked => qs[n].call == Worker && !qs[n].replied
      case Woken => qs[n].conn.pending.Some?
      case Answered => |qs[n].queued| == 1
      case Gone => qs[n].conn.completed
  {
    RunKeeps(immediate, qs, es, n);
  }

  // ---- The first response, and no other

  /** The half after responses come one after another, and how often it was woken. */
  function DeliveredAll(c: Half, rs: seq<Response>): (Half, nat) {
    if rs == [] then (c, 0)
    else
      var (before, woken) := DeliveredAll(c, rs[..|rs| - 1]);
      var (c', resume) := Delivered(before, rs[|rs| - 1]);
      (c', woken + if resume then 1 else 0)
  }

  /** Whatever comes for a request, however often, it has the first response and no other, and is woken exactly once if it
      was suspended; and nothing comes of any once it is over. */
  lemma {:induction false} FirstIsDelivered(c: Half, rs: seq<Response>)
    requires c.pending.None? && rs != []
    ensures var (c', woken) := DeliveredAll(c, rs);
      if c.completed then c' == c && woken == 0
      else c' == Half(false, false, Some(rs[0])) && woken == if c.suspended then 1 else 0
    decreases |rs|
  {
    if |rs| > 1 {
      FirstIsDelivered(c, rs[..|rs| - 1]);
    } else {
      assert rs[..0] == [];
    }
  }

  // ---- What the end of a body leads to

  ghost predicate WentOver(es: seq<Event>, n: nat)
    requires n <= |es|
  {
    exists i :: 0 <= i < n && es[i] == Chunk(true)
  }

  /** Until its body is in, a request is as its headers left it, but for being marked if its body went over. */
  lemma {:induction false} ReadingSoFar(immediate: Option<string>, qs: seq<Request>, es: seq<Event>, n: nat)
    requires Run(immediate, qs, es) && n < |qs| && qs[n].phase == Reading
    ensures qs[n] == Begun(immediate).(tooLarge := immediate.None? && WentOver(es, n))
  {
    if n > 0 {
      assert Next(qs[n - 1], es[n - 1], qs[n]);
      RunKeeps(immediate, qs, es, n - 1);
      ReadingSoFar(immediate, qs, es, n - 1);
      if WentOver(es, n - 1) {
        var i :| 0 <= i < n - 1 && es[i] == Chunk(true);
        assert 0 <= i < n;
      }
    }
  }

  /** When a request's body is in, in every run: what its headers were answered is queued; if its body went over the limit,
      that it is too large, without its coming to a worker; and otherwise it is parked, for a worker to answer. */
  lemma BodyDoneExactly(immediate: Option<string>, qs: seq<Request>, es: seq<Event>, n: nat)
    requires Run(immediate, qs, es) && n < |es| && es[n] == BodyDone
    ensures var q := qs[n + 1];
      if immediate.Some? then q.phase == Answered && q.queued == [Said(immediate.value)] && q.call == Nobody
      else if WentOver(es, n) then q.phase == Answered && q.queued == [TooLarge] && q.call == Nobody
      else q.phase == Parked && q.queued == [] && q.call == Worker && q.conn == Half(true, false, None)
  {
    assert Next(qs[n], es[n], qs[n + 1]);
    ReadingSoFar(immediate, qs, es, n);
  }
}

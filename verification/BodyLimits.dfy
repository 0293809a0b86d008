/** Limits on bodies, the order between them, and the notifications they make. */
module BodyLimits {
  import opened MonitorTypes

  /** With `data`, a prefix of up to `max` characters, or everything; without, nothing. */
  datatype BodyLimit = BodyLimit(data: bool, max: Option<nat>)

  /** `max` is given only where data is wanted. */
  predicate Normal(b: BodyLimit) {
    b.max.Some? ==> b.data
  }

  const NoBody: BodyLimit := BodyLimit(false, None)

  function Merge(a: BodyLimit, b: BodyLimit): BodyLimit {
    if !b.data then a
    else if !a.data then b
    else if a.max.None? || b.max.None? then a.(max := None)
    else a.(max := Some(if a.max.value < b.max.value then b.max.value else a.max.value))
  }

  function Applied(b: BodyLimit, size: nat): BodyLimit {
    if !b.data then NoBody
    else if b.max.None? || (b.max.value > 0 && size <= b.max.value) then BodyLimit(true, None)
    else b
  }

  /** The parts of a notification that the limit decides: the full size, if given, and the data, if any. */
  datatype Body = Body(fullSize: Option<nat>, data: Option<string>)

  function NotifyBody(data: string, limit: BodyLimit): Body {
    var b := Applied(limit, |data|);
    var shown := if b.max.Some? && b.max.value <= |data| then data[..b.max.value] else data;
    Body(if b.max.Some? then Some(|data|) else None,
         if b.data && b.max != Some(0) then Some(shown) else None)
  }

  // ---- The order that merging is the join of

  /** `b` asks for at least as much as `a`. */
  predicate Within(a: BodyLimit, b: BodyLimit) {
    !a.data || (b.data && (b.max.None? || (a.max.Some? && a.max.value <= b.max.value)))
  }

  /** `b` is the least that asks for as much as each of `s` does. */
  ghost predicate IsJoin(s: set<BodyLimit>, b: BodyLimit) {
    && Normal(b)
    && (forall a :: a in s ==> Within(a, b))
    && (forall u :: Normal(u) && (forall a :: a in s ==> Within(a, u)) ==> Within(b, u))
  }

  lemma NothingToJoin()
    ensures IsJoin({}, NoBody)
  {
  }

  /** Merging one limit after another is joining them. */
  lemma MergeJoins(s: set<BodyLimit>, b: BodyLimit, l: BodyLimit)
    requires IsJoin(s, b) && Normal(l)
    ensures IsJoin(s + {l}, Merge(b, l))
  {
    forall u | Normal(u) && (forall a :: a in s + {l} ==> Within(a, u)) ensures Within(Merge(b, l), u) {
      assert forall a :: a in s ==> a in s + {l};
      assert Within(l, u) && Within(b, u);
    }
  }

  /** A set has only one join, so that the order of merging does not matter. */
  lemma JoinIsUnique(s: set<BodyLimit>, b: BodyLimit, b': BodyLimit)
    requires IsJoin(s, b) && IsJoin(s, b')
    ensures b == b'
  {
    assert Within(b, b') && Within(b', b);
  }

  // ---- What is shown

  /** How many bytes of the data are shown, if it is there at all. */
  function Shown(b: Body): int {
    if b.data.Some? then |b.data.value| else -1
  }

  /** The data is a prefix of the message's; all of it unless the full size is given, and the full size is
      given exactly when data is wanted and the limit cut it or left it out. */
  lemma BodyIsPrefix(data: string, limit: BodyLimit)
    ensures var b := NotifyBody(data, limit);
      && (b.data.Some? ==> limit.data && b.data.value <= data)
      && (b.fullSize.Some? <==> limit.data && b.data != Some(data))
      && (b.fullSize.Some? ==> b.fullSize.value == |data|)
      && (b.data.Some? && limit.max.Some? ==> |b.data.value| <= limit.max.value)
  {
  }

  /** Asking for more shows more. */
  lemma ShownGrows(data: string, a: BodyLimit, b: BodyLimit)
    requires Normal(a) && Normal(b) && Within(a, b)
    ensures Shown(NotifyBody(data, a)) <= Shown(NotifyBody(data, b))
  {
  }

  /** The join of some limits shows the longest that any of them alone would, and gives a full size exactly
      when some of them want data and none of them would get all of it. */
  lemma {:induction false} JoinShowsLongest(data: string, s: set<BodyLimit>, b: BodyLimit)
    requires s != {} && IsJoin(s, b) && forall a :: a in s ==> Normal(a)
    ensures exists a :: a in s && NotifyBody(data, a) == NotifyBody(data, b)
    ensures forall a :: a in s ==> Shown(NotifyBody(data, a)) <= Shown(NotifyBody(data, b))
    ensures NotifyBody(data, b).fullSize.Some? <==>
      (exists a :: a in s && a.data) && forall a :: a in s && a.data ==> NotifyBody(data, a).data != Some(data)
  {
    JoinIsAttained(s, b);
    forall a | a in s ensures Shown(NotifyBody(data, a)) <= Shown(NotifyBody(data, b)) {
      ShownGrows(data, a, b);
    }
    BodyIsPrefix(data, b);
    forall a | a in s ensures a.data && NotifyBody(data, a).data == Some(data) ==> NotifyBody(data, b).data == Some(data) {
      BodyIsPrefix(data, a);
      ShownGrows(data, a, b);
    }
    if b.data {
      assert b in s;
    }
  }

  /** The limits are in a line, so that their join is one of them. */
  lemma {:induction false} JoinIsAttained(s: set<BodyLimit>, b: BodyLimit)
    requires s != {} && IsJoin(s, b) && forall a :: a in s ==> Normal(a)
    ensures b in s
    decreases s
  {
    var l :| l in s;
    var rest := s - {l};
    assert s == rest + {l};
    if rest == {} {
      NothingToJoin();
      MergeJoins({}, NoBody, l);
      JoinIsUnique(s, b, l);
    } else {
      var j := JoinOf(rest);
      JoinIsAttained(rest, j);
      MergeJoins(rest, j, l);
      JoinIsUnique(s, b, Merge(j, l));
    }
  }

  lemma {:induction false} JoinOf(s: set<BodyLimit>) returns (b: BodyLimit)
    requires forall a :: a in s ==> Normal(a)
    ensures IsJoin(s, b)
    decreases s
  {
    b := NoBody;
    if s != {} {
      var l :| l in s;
      b := JoinOf(s - {l});
      MergeJoins(s - {l}, b, l);
      b := Merge(b, l);
      assert (s - {l}) + {l} == s;
    }
  }

  /** Applying the limit a second time changes nothing, and notifications grouped by what applies to them
      are the notifications that each would have had on its own. */
  lemma AppliedIsEnough(data: string, limit: BodyLimit)
    ensures Applied(Applied(limit, |data|), |data|) == Applied(limit, |data|)
    ensures NotifyBody(data, Applied(limit, |data|)) == NotifyBody(data, limit)
  {
  }

  /** Two limits make the same notification exactly when the same applies to both. */
  lemma SameBodySameGroup(data: string, a: BodyLimit, b: BodyLimit)
    requires Normal(a) && Normal(b)
    ensures NotifyBody(data, a) == NotifyBody(data, b) <==> Applied(a, |data|) == Applied(b, |data|)
  {
    var x, y := Applied(a, |data|), Applied(b, |data|);
    if NotifyBody(data, a) == NotifyBody(data, b) && x.max.Some? && x.max.value > 0 {
      assert |NotifyBody(data, a).data.value| == x.max.value;
      assert |NotifyBody(data, b).data.value| == y.max.value;
    }
  }
}

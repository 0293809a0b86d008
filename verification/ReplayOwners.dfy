/** The replays that contend for a connection: only the highest number seen there can pace it. */
module ReplayOwners {
  import opened MonitorTypes

  datatype Owner = Owner(latest: nat, pacing: bool)

  function ClaimOf(o: Option<Owner>, id: nat): (Option<Owner>, bool) {
    var now := if o.Some? then o.value else Owner(0, false);
    if id < now.latest then (Some(now), false) else (Some(Owner(id, true)), true)
  }

  function ReleaseOf(o: Option<Owner>, id: nat): (Option<Owner>, bool) {
    if o.None? || o.value.latest != id || !o.value.pacing then (o, false)
    else (Some(o.value.(pacing := false)), true)
  }

  function At<K>(owners: map<K, Owner>, k: K): Option<Owner> {
    if k in owners then Some(owners[k]) else None
  }

  class ReplayOwners<Key(==)> {
    var owners: map<Key, Owner>

    constructor ()
      ensures owners == map[]
    {
      owners := map[];
    }

    /** Makes `id` the replay that paces the key, unless one with a higher number has been there. */
    method Claim(key: Key, id: nat) returns (ok: bool)
      modifies this
      ensures (At(owners, key), ok) == ClaimOf(At(old(owners), key), id)
      ensures owners - {key} == old(owners) - {key}
    {
      if key !in owners {
        owners := owners[key := Owner(0, false)];
      }
      if id < owners[key].latest {
        return false;
      }
      owners := owners[key := owners[key].(latest := id)];
      owners := owners[key := owners[key].(pacing := true)];
      return true;
    }

    /** Ends the pacing of the key, if `id` has it. */
    method Release(key: Key, id: nat) returns (ok: bool)
      modifies this
      ensures (At(owners, key), ok) == ReleaseOf(At(old(owners), key), id)
      ensures owners - {key} == old(owners) - {key}
    {
      if key !in owners || owners[key].latest != id || !owners[key].pacing {
        return false;
      }
      owners := owners[key := owners[key].(pacing := false)];
      return true;
    }

    method Forget(key: Key)
      modifies this
      ensures owners == old(owners) - {key}
    {
      owners := owners - {key};
    }
  }

  // ---- The replays of one key, until it is forgotten

  datatype Event = Claims(id: nat, ok: bool) | Releases(id: nat, ok: bool)

  ghost predicate Next(o: Option<Owner>, e: Event, o': Option<Owner>) {
    match e
    case Claims(id, ok) => (o', ok) == ClaimOf(o, id)
    case Releases(id, ok) => (o', ok) == ReleaseOf(o, id)
  }

  ghost predicate Run(os: seq<Option<Owner>>, es: seq<Event>) {
    && |os| == |es| + 1 && os[0] == None
    && forall i :: 0 <= i < |es| ==> Next(os[i], es[i], os[i + 1])
  }

  /** The key is paced by `id`. */
  predicate Paces(o: Option<Owner>, id: nat) {
    o.Some? && o.value.latest == id && o.value.pacing
  }

  ghost predicate Beyond(o: Option<Owner>, id: nat) {
    o.Some? && id <= o.value.latest
  }

  lemma {:induction false} LatestGrows(os: seq<Option<Owner>>, es: seq<Event>, i: nat, n: nat)
    requires Run(os, es) && i < n <= |es| && es[i].Claims?
    ensures Beyond(os[n], if es[i].ok then es[i].id else es[i].id + 1)
  {
    if i + 1 < n {
      LatestGrows(os, es, i, n - 1);
      assert Next(os[n - 1], es[n - 1], os[n - 1 + 1]);
    } else {
      assert Next(os[i], es[i], os[i + 1]);
    }
  }

  /** Once a newer replay has come to the key, an older one never claims or releases there again. */
  lemma SupersededStops(os: seq<Option<Owner>>, es: seq<Event>, i: nat, n: nat)
    requires Run(os, es) && i < n < |es| && es[i].Claims? && es[i].ok && es[n].id < es[i].id
    ensures !es[n].ok && !Paces(os[n], es[n].id)
  {
    LatestGrows(os, es, i, n);
    assert Next(os[n], es[n], os[n + 1]);
  }

  /** A step between `i` and `n` at which `id` claimed the key. */
  ghost predicate ClaimedBetween(es: seq<Event>, i: nat, n: nat, id: nat)
    requires n <= |es|
  {
    exists k :: i <= k < n && es[k] == Claims(id, true)
  }

  /** A key that `id` paces was claimed by it since. */
  lemma {:induction false} PacingWasClaimed(os: seq<Option<Owner>>, es: seq<Event>, i: nat, n: nat, id: nat)
    requires Run(os, es) && i <= n <= |es| && !Paces(os[i], id) && Paces(os[n], id)
    ensures ClaimedBetween(es, i, n, id)
    decreases n
  {
    assert Next(os[n - 1], es[n - 1], os[n - 1 + 1]);
    if i <= n - 1 && Paces(os[n - 1], id) {
      PacingWasClaimed(os, es, i, n - 1, id);
      var k :| i <= k < n - 1 && es[k] == Claims(id, true);
      assert i <= k < n;
    } else {
      assert es[n - 1] == Claims(id, true);
    }
  }

  /** Each claimed pacing is released at most once: a replay that has released it can release again only
      what it has claimed again; and what it releases it had claimed. */
  lemma ReleasedOnce(os: seq<Option<Owner>>, es: seq<Event>, i: nat, n: nat, id: nat)
    requires Run(os, es) && n < |es| && es[n] == Releases(id, true)
    ensures ClaimedBetween(es, 0, n, id)
    ensures i < n && es[i] == Releases(id, true) ==> ClaimedBetween(es, i + 1, n, id)
  {
    assert Next(os[n], es[n], os[n + 1]);
    PacingWasClaimed(os, es, 0, n, id);
    if i < n && es[i] == Releases(id, true) {
      assert Next(os[i], es[i], os[i + 1]);
      PacingWasClaimed(os, es, i + 1, n, id);
    }
  }

  // ---- Exactly when a claim or a release succeeds

  /** A replay with a higher number has claimed the key. */
  ghost predicate NewerClaimed(es: seq<Event>, n: nat, id: nat)
    requires n <= |es|
  {
    exists i :: 0 <= i < n && es[i].Claims? && es[i].ok && es[i].id > id
  }

  lemma {:induction false} LatestWasClaimed(os: seq<Option<Owner>>, es: seq<Event>, n: nat, id: nat)
    requires Run(os, es) && n <= |es|
    ensures os[n].Some? && id < os[n].value.latest <==> NewerClaimed(es, n, id)
  {
    if n > 0 {
      LatestWasClaimed(os, es, n - 1, id);
      assert Next(os[n - 1], es[n - 1], os[n - 1 + 1]);
      if NewerClaimed(es, n - 1, id) {
        var i :| 0 <= i < n - 1 && es[i].Claims? && es[i].ok && es[i].id > id;
        assert 0 <= i < n;
      }
      if es[n - 1].Claims? && es[n - 1].ok && es[n - 1].id > id { assert 0 <= n - 1 < n; }
    }
  }

  /** In every run, a claim is refused exactly if a replay with a higher number has claimed the key. */
  lemma ClaimedExactly(os: seq<Option<Owner>>, es: seq<Event>, n: nat)
    requires Run(os, es) && n < |es| && es[n].Claims?
    ensures !es[n].ok <==> NewerClaimed(es, n, es[n].id)
  {
    LatestWasClaimed(os, es, n, es[n].id);
    assert Next(os[n], es[n], os[n + 1]);
  }

  /** The replay claimed the key at `k`, and up to `n` neither another claimed it nor the replay released it. */
  ghost predicate HasHeldSince(es: seq<Event>, k: nat, n: nat, id: nat)
    requires n <= |es|
  {
    && k < n && es[k] == Claims(id, true)
    && forall j :: k < j < n ==> es[j] != Releases(id, true) && (es[j].Claims? && es[j].ok ==> es[j].id == id)
  }

  lemma {:induction false} PacesExactly(os: seq<Option<Owner>>, es: seq<Event>, n: nat, id: nat)
    requires Run(os, es) && n <= |es|
    ensures Paces(os[n], id) <==> exists k: nat :: HasHeldSince(es, k, n, id)
  {
    if n > 0 {
      PacesExactly(os, es, n - 1, id);
      assert Next(os[n - 1], es[n - 1], os[n - 1 + 1]);
      if es[n - 1] == Claims(id, true) { assert HasHeldSince(es, n - 1, n, id); }
      if Paces(os[n - 1], id) && Paces(os[n], id) {
        var k: nat :| HasHeldSince(es, k, n - 1, id);
        assert HasHeldSince(es, k, n, id);
      }
      if k: nat :| HasHeldSince(es, k, n, id) {
        if k < n - 1 { assert HasHeldSince(es, k, n - 1, id); }
      }
    }
  }

  /** In every run, a release succeeds exactly if the replay has claimed the key, and has since then neither released it
      nor lost it to another. */
  lemma ReleasedExactly(os: seq<Option<Owner>>, es: seq<Event>, n: nat)
    requires Run(os, es) && n < |es| && es[n].Releases?
    ensures es[n].ok <==> exists k: nat :: HasHeldSince(es, k, n, es[n].id)
  {
    PacesExactly(os, es, n, es[n].id);
    assert Next(os[n], es[n], os[n + 1]);
  }
}

/** What a swarm change does to the monitors of accounts that are no longer ours, and whom it tells. */
module SwarmChange {
  import opened MonitorTypes
  import opened MonitorCore
  import opened MonitorIndex
  import opened SessionIndex
  import opened SessionSteps
  import opened Notifying

  /** The accounts that the session hears of when next resumed, once the monitors `gone` are erased. */
  function EndedFor(mons: map<nat, Monitor>, s: Sid, gone: set<nat>): set<Account> {
    set m | m in gone && m in mons && mons[m].owner == OfSession(s) :: mons[m].account
  }

  /** The session, having noted them unless it has a connection to be told on. */
  function Noting(o: Session, ended: set<Account>): Session {
    if o.conn.Some? then o else o.(ended := o.ended + ended)
  }

  /** The monitors `gone` erased, each noted by its session if that has no connection. */
  function EndMons(c: Core, gone: set<nat>): Core {
    c.(mons := c.mons - gone, sess := map s | s in c.sess :: Noting(c.sess[s], EndedFor(c.mons, s, gone)))
  }

  /** The connections that the account's monitors resolve to. */
  function DestinationsOf(c: Core, mons: set<nat>): set<Conn> {
    set m | m in mons && m in c.mons && Destination(c.sess, c.mons[m].owner).Some? :: Destination(c.sess, c.mons[m].owner).value
  }

  function MonsFor(c: Core, accounts: seq<Account>): set<nat> {
    set m | m in c.mons && c.mons[m].account in accounts
  }

  lemma EndNone(c: Core)
    ensures EndMons(c, {}) == c
  {
    assert c.mons - {} == c.mons;
    forall s | s in c.sess ensures EndedFor(c.mons, s, {}) == {} && Noting(c.sess[s], {}) == c.sess[s] {
      assert c.sess[s].ended + {} == c.sess[s].ended;
    }
    assert EndMons(c, {}).sess == c.sess;
  }

  lemma EndedOneMore(mons: map<nat, Monitor>, gone: set<nat>, m: nat, s: Sid)
    requires m in mons && m !in gone
    ensures EndedFor(mons, s, gone + {m}) == EndedFor(mons, s, gone) + EndedFor(mons - gone, s, {m})
  {
    forall a | a in EndedFor(mons, s, gone + {m}) ensures a in EndedFor(mons, s, gone) + EndedFor(mons - gone, s, {m}) {
      var n :| n in gone + {m} && n in mons && mons[n].owner == OfSession(s) && mons[n].account == a;
      assert n in gone || n in mons - gone;
    }
  }

  lemma NotingBoth(o: Session, a: set<Account>, b: set<Account>)
    ensures Noting(Noting(o, a), b) == Noting(o, a + b)
  {
    assert o.ended + a + b == o.ended + (a + b);
  }

  lemma EndOneMore(c: Core, gone: set<nat>, m: nat)
    requires m in c.mons && m !in gone
    ensures EndMons(EndMons(c, gone), {m}) == EndMons(c, gone + {m})
  {
    var c1 := EndMons(c, gone);
    assert c1.mons - {m} == c.mons - (gone + {m});
    forall s | s in c.sess
      ensures Noting(c1.sess[s], EndedFor(c1.mons, s, {m})) == Noting(c.sess[s], EndedFor(c.mons, s, gone + {m}))
    {
      EndedOneMore(c.mons, gone, m, s);
      NotingBoth(c.sess[s], EndedFor(c.mons, s, gone), EndedFor(c1.mons, s, {m}));
    }
    assert EndMons(c1, {m}).sess == EndMons(c, gone + {m}).sess;
  }

  /** Taken one by one, the erasures are what a swarm change does at once. */
  lemma EndAll(c: Core, accounts: seq<Account>)
    ensures EndMons(c, MonsFor(c, accounts)) == EndAccounts(c, set a | a in accounts)
  {
    var gone := MonsFor(c, accounts);
    var foreign := set a | a in accounts;
    var x, y := EndMons(c, gone), EndAccounts(c, foreign);
    assert x.mons == y.mons;
    forall s | s in c.sess
      ensures Noting(c.sess[s], EndedFor(c.mons, s, gone)) == c.sess[s].(ended := c.sess[s].ended + Unreported(c, s, foreign))
    {
      EndedForAll(c, accounts, s);
      assert c.sess[s].ended + {} == c.sess[s].ended;
    }
    assert x.sess == y.sess;
  }

  lemma EndedForAll(c: Core, accounts: seq<Account>, s: Sid)
    ensures EndedFor(c.mons, s, MonsFor(c, accounts)) == AccountsOf(c.mons, OfSession(s)) * set a | a in accounts
  {
    forall a | a in AccountsOf(c.mons, OfSession(s)) && a in accounts
      ensures a in EndedFor(c.mons, s, MonsFor(c, accounts))
    {
      var m :| m in c.mons && c.mons[m].owner == OfSession(s) && c.mons[m].account == a;
      assert m in MonsFor(c, accounts);
    }
  }

  /** Noting an ended account changes no index. */
  lemma NotingKeepsIndices(c: Core, s: Sid, ended: set<Account>)
    requires s in c.sess && TokensDistinct(c.sess) && ConnsDistinct(c.sess)
    ensures var sess' := c.sess[s := c.sess[s].(ended := ended)];
      Recount(c.mons, sess') == Recount(c.mons, c.sess) && Relist(sess') == Relist(c.sess)
  {
    var n := c.sess[s].(ended := ended);
    ChangeRecounts(c.mons, c.sess, s, n);
    SameListing(c.sess, c.sess[s := n]);
  }

  lemma SameListing(sess: map<Sid, Session>, sess': map<Sid, Session>)
    requires TokensDistinct(sess) && ConnsDistinct(sess) && sess'.Keys == sess.Keys
    requires forall s :: s in sess ==> sess'[s] == sess[s].(ended := sess'[s].ended)
    ensures Relist(sess') == Relist(sess)
  {
    TokenIndexHolds(sess);
    TokenIndexIs(sess', TokenIndex(sess));
    BoundIndexHolds(sess);
    BoundIndexIs(sess', BoundIndex(sess));
    forall p {:trigger DetachedList(sess', p)} ensures DetachedList(sess', p) == DetachedList(sess, p) {
      SameDetached(sess, sess', p);
    }
    SameIps(sess, sess');
  }

  lemma SameDetached(sess: map<Sid, Session>, sess': map<Sid, Session>, p: bool)
    requires sess'.Keys == sess.Keys
    requires forall s :: s in sess ==> sess'[s] == sess[s].(ended := sess'[s].ended)
    ensures DetachedList(sess', p) == DetachedList(sess, p)
  {
    forall x {:trigger x in DetachedList(sess', p)} ensures x in DetachedList(sess', p) <==> x in DetachedList(sess, p) {
      DetachedHas(sess, p, x);
      DetachedHas(sess', p, x);
    }
  }

  lemma SameIps(sess: map<Sid, Session>, sess': map<Sid, Session>)
    requires sess'.Keys == sess.Keys
    requires forall s :: s in sess ==> sess'[s] == sess[s].(ended := sess'[s].ended)
    ensures IpIndex(sess') == IpIndex(sess)
  {
    forall ip {:trigger SessionsOf(sess', ip)} ensures SessionsOf(sess', ip) == SessionsOf(sess, ip) {
    }
    assert IpsOf(sess') == IpsOf(sess) by {
      forall ip | ip in IpsOf(sess) ensures ip in IpsOf(sess') {
        var s :| s in sess && sess[s].ip != "" && sess[s].ip == ip;
        assert sess'[s].ip == ip;
      }
      forall ip | ip in IpsOf(sess') ensures ip in IpsOf(sess) {
        var s :| s in sess' && sess'[s].ip != "" && sess'[s].ip == ip;
        assert sess[s].ip == ip;
      }
    }
  }

  lemma EndedOne(c: Core, m: nat)
    requires m in c.mons && (c.mons[m].owner.OfSession? ==> c.mons[m].owner.sid in c.sess)
    ensures var o := c.mons[m].owner;
      EndMons(c, {m}) == c.(mons := c.mons - {m},
        sess := if Destination(c.sess, o).Some? then c.sess
                else c.sess[o.sid := c.sess[o.sid].(ended := c.sess[o.sid].ended + {c.mons[m].account})])
  {
    var o := c.mons[m].owner;
    var sess := EndMons(c, {m}).sess;
    forall s | s in c.sess
      ensures sess[s] == if o == OfSession(s) && c.sess[s].conn.None? then c.sess[s].(ended := c.sess[s].ended + {c.mons[m].account}) else c.sess[s]
    {
      assert EndedFor(c.mons, s, {m}) == if o == OfSession(s) then {c.mons[m].account} else {};
      assert c.sess[s].ended + {} == c.sess[s].ended;
    }
    if Destination(c.sess, o).Some? {
      assert sess == c.sess;
    } else {
      assert sess == c.sess[o.sid := c.sess[o.sid].(ended := c.sess[o.sid].ended + {c.mons[m].account})];
    }
  }

  lemma DestinationsOneMore(c: Core, gone: set<nat>, m: nat)
    requires m in c.mons
    ensures var d := Destination(c.sess, c.mons[m].owner);
      DestinationsOf(c, gone + {m}) == if d.Some? then DestinationsOf(c, gone) + {d.value} else DestinationsOf(c, gone)
  {
  }

  /** Which connection a monitor resolves to does not change while others end. */
  lemma EndKeepsDestination(c: Core, gone: set<nat>, o: Owner)
    ensures Destination(EndMons(c, gone).sess, o) == Destination(c.sess, o)
  {
  }

  lemma OwnersNamed(c: Core, m: nat)
    requires Named(c) && m in c.mons
    ensures c.mons[m].owner.OfSession? ==> c.mons[m].owner.sid in c.sess
  {
    if c.mons[m].owner.OfSession? { assert c.mons[m].owner.sid in OwningSessions(c.mons); }
  }

  lemma EndKeepsNamed(c: Core, gone: set<nat>)
    requires Named(c)
    ensures Named(EndMons(c, gone))
  {
  }

  /** One more of the monitors ended. */
  lemma EndStep(c: Core, gone: set<nat>, m: nat)
    requires Named(c) && m in c.mons && m !in gone
    ensures var c1 := EndMons(c, gone);
      && Named(c1) && m in c1.mons
      && EndMons(c1, {m}) == EndMons(c, gone + {m})
      && var d := Destination(c1.sess, c1.mons[m].owner);
      DestinationsOf(c, gone + {m}) == if d.Some? then DestinationsOf(c, gone) + {d.value} else DestinationsOf(c, gone)
  {
    EndOneMore(c, gone, m);
    DestinationsOneMore(c, gone, m);
    EndKeepsDestination(c, gone, c.mons[m].owner);
    EndKeepsNamed(c, gone);
  }

  lemma MoveOne(gone: set<nat>, left: set<nat>, m: nat)
    requires m in left && gone !! left
    ensures gone + {m} !! left - {m} && (gone + {m}) + (left - {m}) == gone + left
  {
  }

  // ---- Whom a batch tells

  /** The connections to tell of each account. */
  function ToldOf(c: Core, accounts: seq<Account>): map<Account, set<Conn>> {
    map a | a in accounts && DestinationsOf(c, MonsFor(c, [a])) != {} :: DestinationsOf(c, MonsFor(c, [a]))
  }

  lemma EndNoAccounts(c: Core, accounts: seq<Account>)
    ensures EndMons(c, MonsFor(c, accounts[..0])) == c && ToldOf(c, accounts[..0]) == map[]
  {
    assert MonsFor(c, accounts[..0]) == {};
    EndNone(c);
  }

  /** Ending one more account's monitors, the others' having ended, ends and tells as it would have alone. */
  lemma EndOneAccount(c: Core, batch: seq<Account>, i: nat)
    requires i < |batch| && forall j, k :: 0 <= j < k < |batch| ==> batch[j] != batch[k]
    ensures var before := MonsFor(c, batch[..i]); var c1 := EndMons(c, before); var own := MonsFor(c1, [batch[i]]);
      && EndMons(c1, own) == EndMons(c, MonsFor(c, batch[..i + 1]))
      && var told := DestinationsOf(c1, own); var was := ToldOf(c, batch[..i]);
      ToldOf(c, batch[..i + 1]) == if told == {} then was else was[batch[i] := told]
  {
    var before := MonsFor(c, batch[..i]);
    var c1 := EndMons(c, before);
    var own := MonsFor(c1, [batch[i]]);
    assert batch[..i + 1] == batch[..i] + [batch[i]];
    assert own == MonsFor(c, [batch[i]]);
    assert before + own == MonsFor(c, batch[..i + 1]) && before !! own;
    EndTogether(c, before, own);
    SameDestinations(c, before, own);
  }

  lemma SameDestinations(c: Core, gone: set<nat>, own: set<nat>)
    requires gone !! own
    ensures DestinationsOf(EndMons(c, gone), own) == DestinationsOf(c, own)
  {
    var c1 := EndMons(c, gone);
    forall m | m in own && m in c.mons
      ensures m in c1.mons && Destination(c1.sess, c1.mons[m].owner) == Destination(c.sess, c.mons[m].owner)
    {
    }
  }

  /** Ending monitors in two parts is ending them together. */
  lemma {:induction false} EndTogether(c: Core, gone: set<nat>, own: set<nat>)
    requires gone !! own && own <= c.mons.Keys
    ensures EndMons(EndMons(c, gone), own) == EndMons(c, gone + own)
    decreases own
  {
    if own == {} {
      EndNone(EndMons(c, gone));
      assert gone + own == gone;
    } else {
      var m :| m in own;
      var rest := own - {m};
      EndTogether(c, gone, rest);
      EndOneMore(c, gone + rest, m);
      EndOneMore(EndMons(c, gone), rest, m);
      assert (gone + rest) + {m} == gone + own && rest + {m} == own;
    }
  }

  /** Some monitor of the account is the connection's own, or of the session on it. */
  ghost predicate Watched(c: Core, a: Account, x: Conn) {
    exists m :: m in c.mons && c.mons[m].account == a && GoesTo(c.sess, c.mons[m], x)
  }

  /** Of the end of an account, exactly the connections are told that watch it, themselves or by their session. */
  lemma EndIsToldTo(c: Core, batch: seq<Account>, a: Account, x: Conn)
    ensures var told := ToldOf(c, batch); a in told && x in told[a] <==> a in batch && Watched(c, a, x)
  {
    if a in batch && Watched(c, a, x) {
      var m :| m in c.mons && c.mons[m].account == a && GoesTo(c.sess, c.mons[m], x);
      assert m in MonsFor(c, [a]) && Destination(c.sess, c.mons[m].owner) == Some(x);
      assert x in DestinationsOf(c, MonsFor(c, [a]));
    }
    if a in ToldOf(c, batch) && x in ToldOf(c, batch)[a] {
      var m :| m in MonsFor(c, [a]) && m in c.mons && Destination(c.sess, c.mons[m].owner) == Some(x);
      assert GoesTo(c.sess, c.mons[m], x);
    }
  }
}

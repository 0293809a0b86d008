/** A swarm change's pass over the monitor table: the accounts in it are sampled some buckets at a time, tested,
    and those that are no longer ours dropped some at a time, with everything else going on in between. */
module ForeignRun {
  import opened MonitorTypes
  import opened MonitorCore
  import opened SweepRun

  /** How far the pass has got: sampling buckets, having found the accounts in those before, about to test the
      accounts found, or dropping those that failed. */
  datatype Phase =
    | Sampling(at: Position, found: set<Account>)
    | Testing(found: set<Account>)
    | Dropping(todo: seq<Account>)

  /** The tables, how many buckets the table of monitors has, and how far the pass has got. */
  datatype Pass = Pass(core: Core, n: nat, phase: Phase)

  datatype PassStep =
    | Meanwhile(e: Event)
    | Sample(accounts: seq<Account>, to: Position)
    | Test(foreign: seq<Account>)
    | Drop

  function FirstBatch(todo: seq<Account>): seq<Account> {
    if |todo| < PASS_BATCH then todo else todo[..PASS_BATCH]
  }

  function AfterBatch(todo: seq<Account>): seq<Account> {
    todo[|FirstBatch(todo)|..]
  }

  function SampledTo(found: set<Account>, to: Position, n: nat): Phase {
    if to.bucket < n then Sampling(to, found) else Testing(found)
  }

  /** `ours` is what the test answers of each account; the table may be rehashed, into more buckets, by what goes
      on in between. */
  ghost predicate PassNext(hash: (Account, nat) -> nat, ours: Account -> bool, y: Pass, s: PassStep, lim: Limits, y': Pass) {
    y.n > 0 &&
    match s
    case Meanwhile(e) => Next(y.core, e, lim, y'.core) && y.n <= y'.n && y'.phase == y.phase
    case Sample(accounts, to) =>
      && y.phase.Sampling? && IsBatch(hash, y.core.mons, y.n, y.phase.at, accounts, to)
      && y' == y.(phase := SampledTo(y.phase.found + (set a | a in accounts), to, y.n))
    case Test(foreign) =>
      && y.phase.Testing? && Distinct(foreign) && (forall a :: a in foreign <==> a in y.phase.found && !ours(a))
      && y' == y.(phase := Dropping(foreign))
    case Drop =>
      && y.phase.Dropping? && y.phase.todo != []
      && Next(y.core, DropEvent(y.phase.todo), lim, y'.core)
      && y'.n == y.n && y'.phase == Dropping(AfterBatch(y.phase.todo))
  }

  function DropEvent(todo: seq<Account>): Event {
    Foreign(set a | a in FirstBatch(todo))
  }

  ghost predicate PassRun(hash: (Account, nat) -> nat, ours: Account -> bool, ys: seq<Pass>, steps: seq<PassStep>, lim: Limits) {
    && |ys| == |steps| + 1 && ys[0].phase == Sampling(Position(0, 0), {}) && OwnersStored(ys[0].core)
    && forall i :: 0 <= i < |steps| ==> PassSteps(hash, ours, ys, steps, lim, i)
  }

  ghost predicate PassSteps(hash: (Account, nat) -> nat, ours: Account -> bool, ys: seq<Pass>, steps: seq<PassStep>, lim: Limits,
                            i: nat)
    requires i < |steps| && |ys| == |steps| + 1
  {
    PassNext(hash, ours, ys[i], steps[i], lim, ys[i + 1])
  }

  // ---- Every lost account is found and dropped

  /** The account's bucket is still to be sampled. */
  predicate Unsampled(hash: (Account, nat) -> nat, a: Account, at: Position) {
    at.bucket == 0 || (at.count > 0 && at.bucket <= Slot(hash, a, at.count))
  }

  /** The monitor is gone, or its account found or still to be found, and then still to be dropped. */
  ghost predicate Sought(hash: (Account, nat) -> nat, y: Pass, m: nat, a: Account) {
    && Tracked(y.core, m, a)
    && match y.phase
       case Sampling(at, found) => at.count <= y.n && (m in y.core.mons ==> a in found || Unsampled(hash, a, at))
       case Testing(found) => m in y.core.mons ==> a in found
       case Dropping(todo) => m in y.core.mons ==> a in todo
  }

  lemma SampleFinds(hash: (Account, nat) -> nat, mons: map<nat, Monitor>, n: nat, at: Position, accounts: seq<Account>,
                    to: Position, m: nat)
    requires n > 0 && m in mons && IsBatch(hash, mons, n, at, accounts, to) && Unsampled(hash, mons[m].account, at)
    ensures mons[m].account in accounts || (to.bucket < n && Unsampled(hash, mons[m].account, to))
  {
    var a := mons[m].account;
    if a !in accounts {
      assert !Listed(hash, mons, n, From(at, n), Until(at, n), a);
      assert Slot(hash, a, n) < n;
    }
  }

  lemma DropFinds(todo: seq<Account>, a: Account)
    requires a in todo
    ensures a in FirstBatch(todo) || a in AfterBatch(todo)
  {
    assert todo == FirstBatch(todo) + AfterBatch(todo);
  }

  lemma StepKeepsSought(hash: (Account, nat) -> nat, ours: Account -> bool, y: Pass, s: PassStep, lim: Limits, y': Pass,
                        m: nat, a: Account)
    requires PassNext(hash, ours, y, s, lim, y') && Sought(hash, y, m, a) && !ours(a)
    ensures Sought(hash, y', m, a)
  {
    match s
    case Meanwhile(e) =>
      NextTracks(y.core, e, lim, y'.core, m, a);
    case Sample(accounts, to) =>
      if m in y.core.mons && a !in y.phase.found {
        SampleFinds(hash, y.core.mons, y.n, y.phase.at, accounts, to, m);
      }
    case Test(foreign) =>
    case Drop =>
      NextTracks(y.core, DropEvent(y.phase.todo), lim, y'.core, m, a);
      if m in y'.core.mons { DropFinds(y.phase.todo, a); }
  }

  lemma {:induction false} PassKeepsSought(hash: (Account, nat) -> nat, ours: Account -> bool, ys: seq<Pass>,
                                           steps: seq<PassStep>, lim: Limits, m: nat, k: nat)
    requires PassRun(hash, ours, ys, steps, lim) && m in ys[0].core.mons && !ours(ys[0].core.mons[m].account) && k < |ys|
    ensures Sought(hash, ys[k], m, ys[0].core.mons[m].account)
  {
    if k > 0 {
      PassKeepsSought(hash, ours, ys, steps, lim, m, k - 1);
      assert PassSteps(hash, ours, ys, steps, lim, k - 1);
      StepKeepsSought(hash, ours, ys[k - 1], steps[k - 1], lim, ys[k], m, ys[0].core.mons[m].account);
    }
  }

  /** Whatever goes on in between, and however often the table grows, no monitor that was there when a pass
      began, of an account that is no longer ours, is there when it ends. */
  lemma ForeignIsDropped(hash: (Account, nat) -> nat, ours: Account -> bool, ys: seq<Pass>, steps: seq<PassStep>, lim: Limits,
                         m: nat, k: nat)
    requires PassRun(hash, ours, ys, steps, lim) && m in ys[0].core.mons && !ours(ys[0].core.mons[m].account)
    requires k < |ys| && ys[k].phase == Dropping([])
    ensures m !in ys[k].core.mons
  {
    PassKeepsSought(hash, ours, ys, steps, lim, m, k);
  }

  // ---- Nothing else is dropped

  ghost predicate Spared(y: Pass, a: Account) {
    y.phase.Dropping? ==> a !in y.phase.todo
  }

  lemma StepSpares(hash: (Account, nat) -> nat, ours: Account -> bool, y: Pass, s: PassStep, lim: Limits, y': Pass,
                   m: nat, a: Account)
    requires PassNext(hash, ours, y, s, lim, y') && Tracked(y.core, m, a) && Spared(y, a) && ours(a)
    ensures Tracked(y'.core, m, a) && Spared(y', a)
    ensures m in y.core.mons && !(s.Meanwhile? && Takes(y.core, s.e, m)) ==> m in y'.core.mons
  {
    match s
    case Meanwhile(e) =>
      NextTracks(y.core, e, lim, y'.core, m, a);
      if m in y.core.mons && !Takes(y.core, e, m) { NextLeaves(y.core, e, lim, y'.core, m); }
    case Sample(accounts, to) =>
    case Test(foreign) =>
    case Drop =>
      NextTracks(y.core, DropEvent(y.phase.todo), lim, y'.core, m, a);
  }

  /** Something other than the pass took the monitor away at step `i`. */
  predicate LostAt(ys: seq<Pass>, steps: seq<PassStep>, m: nat, i: nat)
    requires |ys| == |steps| + 1 && i < |steps|
  {
    m in ys[i].core.mons && steps[i].Meanwhile? && Takes(ys[i].core, steps[i].e, m)
  }

  /** A pass drops no monitor of an account that is ours. */
  lemma {:induction false} OursIsSpared(hash: (Account, nat) -> nat, ours: Account -> bool, ys: seq<Pass>, steps: seq<PassStep>,
                                        lim: Limits, m: nat, k: nat)
    requires PassRun(hash, ours, ys, steps, lim) && m in ys[0].core.mons && ours(ys[0].core.mons[m].account) && k < |ys|
    ensures Tracked(ys[k].core, m, ys[0].core.mons[m].account) && Spared(ys[k], ys[0].core.mons[m].account)
    ensures m in ys[k].core.mons || exists i :: 0 <= i < k && LostAt(ys, steps, m, i)
  {
    if k > 0 {
      OursIsSpared(hash, ours, ys, steps, lim, m, k - 1);
      PassStepSpares(hash, ours, ys, steps, lim, m, k - 1, ys[0].core.mons[m].account);
      if i :| 0 <= i < k - 1 && LostAt(ys, steps, m, i) {
        assert 0 <= i < k;
      }
    }
  }

  lemma PassStepSpares(hash: (Account, nat) -> nat, ours: Account -> bool, ys: seq<Pass>, steps: seq<PassStep>, lim: Limits,
                       m: nat, i: nat, a: Account)
    requires PassRun(hash, ours, ys, steps, lim) && i < |steps|
    requires Tracked(ys[i].core, m, a) && Spared(ys[i], a) && ours(a)
    ensures Tracked(ys[i + 1].core, m, a) && Spared(ys[i + 1], a)
    ensures m in ys[i].core.mons ==> m in ys[i + 1].core.mons || LostAt(ys, steps, m, i)
  {
    assert PassSteps(hash, ours, ys, steps, lim, i);
    StepSpares(hash, ours, ys[i], steps[i], lim, ys[i + 1], m, a);
  }
}

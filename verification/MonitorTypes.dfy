/** The values the monitor tables are made of, and the constants of the protocol. */
module MonitorTypes {

  datatype Option<+T> = None | Some(value: T)

  /** A point of the steady clock, in nanoseconds. */
  type Time = nat

  const SECOND: nat := 1_000_000_000
  const MONITOR_EXPIRY_TIME: nat := 65 * 60 * SECOND
  const RECENT_WINDOW: nat := 90 * SECOND
  const SESSION_DETACHED_LIFETIME: nat := 10 * 60 * SECOND
  const CLOSED_CONN_MEMORY: nat := 60 * SECOND
  const REPLAY_CHUNK: nat := 64
  const PASS_BATCH: nat := 4096

  type Account = string
  /** Namespaces are 16-bit signed integers. */
  type Namespace = ns: int | -0x8000 <= ns < 0x8000
  type Token = string
  type Ip = string

  /** A connection: its endpoint's index and its reference id there. */
  datatype Conn = Conn(endpoint: nat, ref: nat)

  /** Which session object: stands for its address. */
  type Sid = nat

  /** What a monitor belongs to, and goes with. */
  datatype Owner = OfConn(conn: Conn) | OfSession(sid: Sid)

  datatype Monitor = Monitor(
    account: Account,
    expiry: Time,
    namespaces: seq<Namespace>,
    owner: Owner,
    wantData: bool)

  /** One validated subscription of a `monitor` request. */
  datatype Subscription = Subscription(account: Account, namespaces: seq<Namespace>, wantData: bool)

  /** A session, without the redundant parts (its accounts and monitor count) and without its log. */
  datatype Session = Session(
    token: Token,
    privileged: bool,
    ip: Ip,
    conn: Option<Conn>,
    since: Option<Time>,
    bodyMax: Option<nat>,
    ended: set<Account>)

  /** The limits on unprivileged sessions. */
  datatype Limits = Limits(monitors: nat, detached: nat, perIp: nat)

  /** A notification sent lately through a session's connection. */
  datatype Recent = Recent(sent: Time, id: int, account: nat, ns: Namespace, wantData: bool)

  /** Where the replay of one (account, namespace) pair starts. */
  datatype MissedFrom = MissedFrom(id: int, wantData: bool)

  /** A session's account table, recent log and missed starts, and the replay that may advance them. */
  datatype Log = Log(
    keys: seq<Account>,
    index: map<Account, nat>,
    recent: seq<Recent>,
    missed: map<(nat, Namespace), MissedFrom>,
    replayId: nat)

  /** A matched notification: the message's pair and row id, and whether a matching monitor wanted its data. */
  datatype Msg = Msg(account: Account, ns: Namespace, id: int, wantData: bool)

  /** A row of the message table, with the part of the message that the lookups test. */
  datatype Row = Row(id: int, account: Account, ns: Namespace)
}

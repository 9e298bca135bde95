/**
 * The Session record (the `auth_sessions` collection): its host and agent
 * entries, its defaults (a 256-character random token, expiry 30 days after
 * creation, no revocation) and the `revokedReason` enumeration.
 */
module Sessions {
  import opened Wrappers
  import opened Documents
  import Primitives

  /** Length of the random token `uid(256)` gives a new session. */
  const TokenLength: nat := 256
  /** Days between a session's creation and its default expiry. */
  const RefreshLifetimeDays: nat := 30

  /** The only values the `revokedReason` enum admits. */
  datatype RevokedReason = Logout | Expired

  /** The stored string of a revocation reason. */
  function ReasonName(r: RevokedReason): string {
    match r
    case Logout => "logout"
    case Expired => "expired"
  }

  /** The enum validator: a string is accepted as a reason iff it is one of the two names. */
  function ParseReason(s: string): (r: Option<RevokedReason>)
    ensures r.Some? ==> ReasonName(r.value) == s
    ensures r.None? ==> s != "logout" && s != "expired"
  {
    if s == "logout" then Some(Logout)
    else if s == "expired" then Some(Expired)
    else None
  }

  /** Every reason survives being stored as its name and read back. */
  lemma ReasonRoundTrip(r: RevokedReason)
    ensures ParseReason(ReasonName(r)) == Some(r)
  {
  }

  /** One observed user-agent string. */
  datatype UserAgent = UserAgent(raw: string, createdAt: Time, updatedAt: Time)

  /** One observed network address. */
  datatype IPAddress = IPAddress(address: string, createdAt: Time, updatedAt: Time)

  /** A refresh-token session bound to one user and one device. */
  datatype Session = Session(
    id: ObjectId,
    user: ObjectId,
    device: ObjectId,
    agents: seq<UserAgent>,
    hosts: seq<IPAddress>,
    token: string,
    expiresAt: Time,
    revokedAt: Option<Time>,
    revokedReason: Option<RevokedReason>,
    createdAt: Time,
    updatedAt: Time)

  /**
   * The schema's validation on save: every agent entry has a non-empty `raw`
   * and every host entry a non-empty `address` (a required string rejects "").
   */
  predicate DocumentValid(s: Session) {
    (forall i :: 0 <= i < |s.agents| ==> s.agents[i].raw != "")
    && (forall i :: 0 <= i < |s.hosts| ==> s.hosts[i].address != "")
  }

  /** The default expiry of a session created at `now`: 30 days later. */
  function DefaultExpiry(now: Time): (t: Time)
    ensures t > now
  {
    now + RefreshLifetimeDays * DayMs
  }

  /**
   * `new Session({user, device, agents: [{raw: agent}], hosts: [{address: host}]})`
   * at time `now`, with `token` the string `uid(256)` produced.
   */
  function NewSession(id: ObjectId, user: ObjectId, device: ObjectId, agent: string, host: string,
                      token: string, now: Time): (s: Session)
    requires Primitives.IsUid(token, TokenLength)
    ensures s.id == id && s.user == user && s.device == device
    ensures |s.agents| == 1 && s.agents[0].raw == agent
    ensures |s.hosts| == 1 && s.hosts[0].address == host
    ensures s.token == token && |s.token| == TokenLength
    ensures s.revokedAt.None? && s.revokedReason.None?
    ensures s.createdAt == s.updatedAt == now
    ensures s.expiresAt == DefaultExpiry(now) && s.expiresAt - s.createdAt == 30 * DayMs
    ensures DocumentValid(s) <==> agent != "" && host != ""
  {
    Session(id, user, device, [UserAgent(agent, now, now)], [IPAddress(host, now, now)],
            token, DefaultExpiry(now), None, None, now, now)
  }
}

/**
 * The expiry rules of app/Models/LogoGenerationSession.php: a session's default
 * status, the `isExpired` check, and the `active` and `expired` query scopes,
 * over an integer clock. A query scope is modelled as a filter over a list of
 * sessions that keeps their order.
 */
module LogoSession {
  import opened Options

  /** The `status` column's allowed values (database/migrations/2025_07_25_213946_create_logo_generation_sessions_table.php:23-24). */
  datatype SessionStatus = Pending | Generating | Ready | Completed | Expired

  function StatusName(s: SessionStatus): (r: string)
    ensures |r| > 0
  {
    match s
    case Pending => "pending"
    case Generating => "generating"
    case Ready => "ready"
    case Completed => "completed"
    case Expired => "expired"
  }

  /** Reading the column: one of the five names, or nothing. */
  function ParseStatus(name: string): (r: Option<SessionStatus>)
    ensures r.Some? ==> StatusName(r.value) == name
  {
    if name == "pending" then Some(Pending)
    else if name == "generating" then Some(Generating)
    else if name == "ready" then Some(Ready)
    else if name == "completed" then Some(Completed)
    else if name == "expired" then Some(Expired)
    else None
  }

  /** Every status survives being written to the column and read back. */
  lemma StatusRoundTrip(s: SessionStatus)
    ensures ParseStatus(StatusName(s)) == Some(s)
  {
  }

  /** The fields the expiry rules look at. */
  datatype LogoGenerationSession = LogoGenerationSession(appName: string, status: SessionStatus, expiresAt: int)

  /**
   * Creating a session (lines 55-72): the attributes given are used, and a status
   * left out takes the default "pending".
   */
  function NewSession(appName: string, status: Option<SessionStatus>, expiresAt: int): (r: LogoGenerationSession)
    ensures status.None? ==> r.status == Pending
    ensures status.Some? ==> r.status == status.value
    ensures r.appName == appName && r.expiresAt == expiresAt
  {
    LogoGenerationSession(appName, status.GetOr(Pending), expiresAt)
  }

  /** `isExpired` (lines 99-102): the expiry time is strictly in the past. */
  predicate IsExpired(s: LogoGenerationSession, now: int) {
    s.expiresAt < now
  }

  /** The `active` scope's condition (lines 110-113): expiry strictly in the future. */
  predicate InActiveScope(s: LogoGenerationSession, now: int) {
    s.expiresAt > now
  }

  /** The `expired` scope's condition (lines 121-124): expiry now or earlier. */
  predicate InExpiredScope(s: LogoGenerationSession, now: int) {
    s.expiresAt <= now
  }

  /** `LogoGenerationSession::active()`: the sessions still running, in their original order. */
  function ActiveSessions(xs: seq<LogoGenerationSession>, now: int): (r: seq<LogoGenerationSession>)
    ensures |r| <= |xs|
    ensures forall s :: s in r <==> s in xs && s.expiresAt > now
  {
    if |xs| == 0 then []
    else
      var rest := ActiveSessions(xs[1..], now);
      assert forall s :: s in xs <==> s == xs[0] || s in xs[1..];
      if InActiveScope(xs[0], now) then [xs[0]] + rest else rest
  }

  /** `LogoGenerationSession::expired()`: the sessions that have run out, in their original order. */
  function ExpiredSessions(xs: seq<LogoGenerationSession>, now: int): (r: seq<LogoGenerationSession>)
    ensures |r| <= |xs|
    ensures forall s :: s in r <==> s in xs && s.expiresAt <= now
  {
    if |xs| == 0 then []
    else
      var rest := ExpiredSessions(xs[1..], now);
      assert forall s :: s in xs <==> s == xs[0] || s in xs[1..];
      if InExpiredScope(xs[0], now) then [xs[0]] + rest else rest
  }

  /**
   * The two scopes split any list of sessions: every session lands in exactly one
   * of them, with its multiplicity, and together they hold the whole list.
   */
  lemma {:induction false} ScopesPartition(xs: seq<LogoGenerationSession>, now: int)
    ensures multiset(ActiveSessions(xs, now)) + multiset(ExpiredSessions(xs, now)) == multiset(xs)
    ensures |ActiveSessions(xs, now)| + |ExpiredSessions(xs, now)| == |xs|
    decreases |xs|
  {
    if |xs| > 0 {
      ScopesPartition(xs[1..], now);
      assert xs == [xs[0]] + xs[1..];
    }
  }

  /** No session is in both scopes. */
  lemma ScopesDisjoint(xs: seq<LogoGenerationSession>, now: int, s: LogoGenerationSession)
    ensures !(s in ActiveSessions(xs, now) && s in ExpiredSessions(xs, now))
  {
  }

  /**
   * `isExpired` and the `expired` scope agree except at the boundary: an expired
   * session is in the scope, and a session in the scope that `isExpired` rejects is
   * one expiring exactly now.
   */
  lemma ExpiredBoundary(s: LogoGenerationSession, now: int)
    ensures IsExpired(s, now) ==> InExpiredScope(s, now)
    ensures InExpiredScope(s, now) && !IsExpired(s, now) <==> s.expiresAt == now
    ensures !IsExpired(s, now) <==> InActiveScope(s, now) || s.expiresAt == now
  {
  }

  /** A session expiring exactly now is in neither the active scope nor `isExpired`, yet is in the expired scope. */
  lemma BoundaryExample(now: int)
    ensures var s := NewSession("App", None, now);
      && s.status == Pending && !IsExpired(s, now) && !InActiveScope(s, now)
      && ExpiredSessions([s], now) == [s] && ActiveSessions([s], now) == []
  {
  }

  /**
   * A newly created session lands in the scope its expiry time says: one expiring
   * later is active and not expired, one that expired earlier is expired in both
   * senses, whatever its status.
   */
  lemma NewSessionScopes(appName: string, status: Option<SessionStatus>, expiresAt: int, now: int)
    ensures var s := NewSession(appName, status, expiresAt);
      && (expiresAt > now ==>
            !IsExpired(s, now) && ActiveSessions([s], now) == [s] && ExpiredSessions([s], now) == [])
      && (expiresAt < now ==>
            IsExpired(s, now) && ActiveSessions([s], now) == [] && ExpiredSessions([s], now) == [s])
  {
  }
}

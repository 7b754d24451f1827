/**
 * The inactivity sweep: every entry of a session table whose last activity is
 * more than a limit behind the current time is deleted; nothing else changes.
 */
module Cleanup {
  import opened Wire

  const FIVE_MINUTES: real := 300.0

  predicate Expired(e: Session, now: real, limit: real)
  {
    now - e.lastActivity > limit
  }

  /** The keys the sweep collects before deleting. */
  function InactiveKeys(sessions: map<Key, Session>, now: real, limit: real): (ks: set<Key>)
    ensures ks <= sessions.Keys
    ensures forall k :: k in sessions ==> (k in ks <==> Expired(sessions[k], now, limit))
  {
    set k | k in sessions && Expired(sessions[k], now, limit)
  }

  /** The table after a sweep, as a reference definition: the expired entries are
      gone and every other entry is kept unchanged. */
  function Swept(sessions: map<Key, Session>, now: real, limit: real): (r: map<Key, Session>)
    ensures r.Keys <= sessions.Keys
    ensures forall k :: k in r ==> r[k] == sessions[k] && !Expired(r[k], now, limit)
    ensures forall k :: k in sessions && !Expired(sessions[k], now, limit) ==> k in r
  {
    map k | k in sessions && !Expired(sessions[k], now, limit) :: sessions[k]
  }

  /** One pass of `cleanup_inactive_sessions`: collect the expired keys, then
      delete them one by one. */
  method SweepOnce(sessions: map<Key, Session>, now: real) returns (remaining: map<Key, Session>)
    ensures remaining == Swept(sessions, now, FIVE_MINUTES)
  {
    var inactive := InactiveKeys(sessions, now, FIVE_MINUTES);
    var todo := inactive;
    remaining := sessions;
    while todo != {}
      invariant todo <= inactive
      invariant remaining.Keys == sessions.Keys - (inactive - todo)
      invariant forall k :: k in remaining ==> remaining[k] == sessions[k]
      decreases todo
    {
      var k :| k in todo;
      if k in remaining {
        remaining := remaining - {k};
      }
      todo := todo - {k};
    }
    assert remaining.Keys == Swept(sessions, now, FIVE_MINUTES).Keys;
  }

  /** A second sweep at the same instant finds nothing more to delete. */
  lemma SweepIdempotent(sessions: map<Key, Session>, now: real, limit: real)
    ensures Swept(Swept(sessions, now, limit), now, limit) == Swept(sessions, now, limit)
  {
    var once := Swept(sessions, now, limit);
    assert Swept(once, now, limit).Keys == once.Keys;
  }

  /** An entry exactly at the limit is kept. */
  lemma BoundaryKept(sessions: map<Key, Session>, k: Key, now: real)
    requires k in sessions && now - sessions[k].lastActivity == FIVE_MINUTES
    ensures k in Swept(sessions, now, FIVE_MINUTES)
  {
  }
}

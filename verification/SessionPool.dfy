/** The pool of server sessions (driver/src/client/session/pool.rs). Whether a session is about to
    expire is decided by a clock, so it comes in as the set of ids for which it is true now.
 */
module SessionPool {
  import opened Sessions

  predicate Expiring(expiring: set<Lsid>, s: ServerSession) { s.id in expiring }

  /** How many sessions at the front of the pool are about to expire. */
  function Skipped(pool: seq<ServerSession>, expiring: set<Lsid>): (n: nat)
    ensures n <= |pool|
    ensures forall i | 0 <= i < n :: Expiring(expiring, pool[i])
    ensures n < |pool| ==> !Expiring(expiring, pool[n])
  {
    if pool == [] || !Expiring(expiring, pool[0]) then 0 else 1 + Skipped(pool[1..], expiring)
  }

  function NewServerSession(uuid: Lsid): ServerSession { ServerSession(uuid, false, 0) }

  function CheckedOut(pool: seq<ServerSession>, expiring: set<Lsid>, uuid: Lsid): ServerSession {
    var n := Skipped(pool, expiring);
    if n < |pool| then pool[n] else NewServerSession(uuid)
  }

  function PoolAfterCheckOut(pool: seq<ServerSession>, expiring: set<Lsid>): seq<ServerSession> {
    var n := Skipped(pool, expiring);
    if n < |pool| then pool[n+1..] else []
  }

  function PoolAfterCheckIn(pool: seq<ServerSession>, expiring: set<Lsid>, s: ServerSession): seq<ServerSession> {
    if Expiring(expiring, s) then [] else if s.dirty then pool else [s] + pool
  }

  predicate Clear(pool: seq<ServerSession>, expiring: set<Lsid>) {
    forall i | 0 <= i < |pool| :: !Expiring(expiring, pool[i])
  }

  /** Check-in is documented to clear expired sessions out of the pool. It looks at the session being
      returned instead of the pooled ones, so it does so only when the pool had none, or by
      throwing the whole pool away, usable sessions included. */
  lemma CheckInClearsExactlyWhen(pool: seq<ServerSession>, expiring: set<Lsid>, s: ServerSession)
    ensures Clear(PoolAfterCheckIn(pool, expiring, s), expiring) <==> Expiring(expiring, s) || Clear(pool, expiring)
    ensures Expiring(expiring, s) ==> PoolAfterCheckIn(pool, expiring, s) == []
  {
    var after := PoolAfterCheckIn(pool, expiring, s);
    if !Expiring(expiring, s) && !s.dirty {
      assert after[0] == s;
      forall i | 0 <= i < |pool| ensures pool[i] == after[i+1] { }
    }
  }

  lemma CheckInKeepsExpired()
    ensures var older, newer := ServerSession(1, false, 5), ServerSession(2, false, 7);
            var after := PoolAfterCheckIn([older], {1}, newer);
            after == [newer, older] && !Clear(after, {1})
  {
    var older, newer := ServerSession(1, false, 5), ServerSession(2, false, 7);
    assert Expiring({1}, [newer, older][1]);
  }

  /** All pooled sessions are about to expire. */
  predicate NoneUsable(pool: seq<ServerSession>, expiring: set<Lsid>) {
    forall i | 0 <= i < |pool| :: pool[i].id in expiring
  }

  predicate FirstUsableAt(pool: seq<ServerSession>, expiring: set<Lsid>, s: ServerSession, rest: seq<ServerSession>,
                          n: nat)
  {
    && n < |pool| && pool[n] == s && s.id !in expiring && rest == pool[n + 1..]
    && NoneUsable(pool[..n], expiring)
  }

  /** `s` is the first that is not about to expire, and `rest` is what was behind it. */
  ghost predicate FirstUsable(pool: seq<ServerSession>, expiring: set<Lsid>, s: ServerSession,
                              rest: seq<ServerSession>)
  {
    exists n: nat :: FirstUsableAt(pool, expiring, s, rest, n)
  }

  /** A check-out takes the first session that will last, and a new one only if there is none. */
  lemma CheckOutTakesTheFirst(pool: seq<ServerSession>, expiring: set<Lsid>, uuid: Lsid)
    ensures var s, rest := CheckedOut(pool, expiring, uuid), PoolAfterCheckOut(pool, expiring);
            if NoneUsable(pool, expiring) then s == ServerSession(uuid, false, 0) && rest == []
            else FirstUsable(pool, expiring, s, rest)
  {
    var n := Skipped(pool, expiring);
    if n < |pool| {
      assert FirstUsableAt(pool, expiring, pool[n], pool[n + 1..], n);
    }
  }

  class ServerSessionPool {
    var pool: seq<ServerSession>

    constructor ()
      ensures pool == []
    {
      pool := [];
    }

    method CheckOut(expiring: set<Lsid>, uuid: Lsid) returns (s: ServerSession)
      modifies this
      ensures s == CheckedOut(old(pool), expiring, uuid)
      ensures pool == PoolAfterCheckOut(old(pool), expiring)
      ensures FirstUsable(old(pool), expiring, s, pool) || (NoneUsable(old(pool), expiring) && pool == [])
      ensures NoneUsable(old(pool), expiring) ==> s == ServerSession(uuid, false, 0)
    {
      CheckOutTakesTheFirst(pool, expiring, uuid);
      while pool != []
        invariant CheckedOut(pool, expiring, uuid) == CheckedOut(old(pool), expiring, uuid)
        invariant PoolAfterCheckOut(pool, expiring) == PoolAfterCheckOut(old(pool), expiring)
        decreases |pool|
      {
        s := pool[0];
        if !Expiring(expiring, s) {
          pool := pool[1..];
          return;
        }
        SkipOne(pool, expiring, uuid);
        pool := pool[1..];
      }
      s := NewServerSession(uuid);
    }

    method CheckIn(expiring: set<Lsid>, s: ServerSession)
      modifies this
      ensures pool == PoolAfterCheckIn(old(pool), expiring, s)
      ensures s.id in expiring ==> pool == []
      ensures s.id !in expiring && s.dirty ==> pool == old(pool)
      ensures s.id !in expiring && !s.dirty ==> pool == [s] + old(pool)
    {
      while pool != []
        invariant !Expiring(expiring, s) ==> pool == old(pool)
        decreases |pool|
      {
        var pooled := pool[|pool|-1];
        pool := pool[..|pool|-1];
        if Expiring(expiring, s) { continue; }
        pool := pool + [pooled];
        break;
      }
      if !s.dirty && !Expiring(expiring, s) {
        pool := [s] + pool;
      }
    }
  }

  lemma SkipOne(pool: seq<ServerSession>, expiring: set<Lsid>, uuid: Lsid)
    requires pool != [] && Expiring(expiring, pool[0])
    ensures CheckedOut(pool[1..], expiring, uuid) == CheckedOut(pool, expiring, uuid)
    ensures PoolAfterCheckOut(pool[1..], expiring) == PoolAfterCheckOut(pool, expiring)
  {
    var n := Skipped(pool, expiring);
    assert Skipped(pool[1..], expiring) == n - 1;
    if n < |pool| { assert pool[1..][n..] == pool[n+1..]; }
  }
}

// The session and throttle stores, the throttle table, and the authentication use cases,
// as objects that change in place. A store call that fails has no effect, so the use
// cases are told which of theirs do.
module Authentication {
  import opened Prelude
  import opened LoginThrottle
  import opened Sessions

  class MemorySessionStore {
    var sessions: map<Digest, WebSession>
    var next: nat  // the next random token or UUID

    constructor ()
      ensures sessions == FRESH.sessions && next == FRESH.next
    {
      sessions, next := FRESH.sessions, FRESH.next;
    }

    method CreateSession(token: nat, state: SessionState) returns (session: WebSession)
      modifies this
      ensures session == WebSession(old(next), state) && next == old(next) + 1
      ensures sessions == old(sessions)[Digest(token) := session]
    {
      session := WebSession(next, state);
      next := next + 1;
      sessions := sessions[Digest(token) := session];
    }

    method FindActiveSession(token: nat) returns (session: Option<WebSession>)
      ensures session == FindActive(sessions, token)
    {
      if Digest(token) !in sessions || sessions[Digest(token)].state == Revoked { return None; }
      return Some(sessions[Digest(token)]);
    }

    // Scans the map in no particular order and stops at the session with the id.
    method RevokeSession(id: nat) returns (ok: bool)
      requires UniqueIds(sessions)
      modifies this`sessions
      ensures ok <==> exists d :: d in old(sessions) && old(sessions)[d].id == id
      ensures sessions == RevokeById(old(sessions), id)
    {
      var pending := sessions.Keys;
      while pending != {}
        invariant sessions == old(sessions) && pending <= sessions.Keys
        invariant forall d :: d in sessions && d !in pending ==> sessions[d].id != id
      {
        var key :| key in pending;
        if sessions[key].id == id {
          sessions := sessions[key := sessions[key].(state := Revoked)];
          return true;
        }
        pending := pending - {key};
      }
      return false;
    }

    method RandomToken() returns (token: nat)
      modifies this`next
      ensures token == old(next) && next == old(next) + 1
    {
      token := next;
      next := next + 1;
    }
  }

  class MemoryThrottleStore {
    var values: map<string, Entry>

    constructor ()
      ensures values == FRESH.throttles
    {
      values := FRESH.throttles;
    }

    method IsBlocked(pair: Pair, now: nat) returns (blocked: bool)
      ensures blocked <==> Blocks(Find(values, Joined(pair)), now)
    {
      var key := Joined(pair);
      blocked := key in values && values[key].blockedUntil.Some? && values[key].blockedUntil.value > now;
    }

    method RecordFailure(pair: Pair, now: nat)
      modifies this
      ensures values == old(values)[Joined(pair) := MemoryFailure(Find(old(values), Joined(pair)), now)]
    {
      var key := Joined(pair);
      var value := Entry(0, 0, None, 0);
      if key in values { value := values[key]; }
      if value.started == 0 || now - value.started >= WINDOW {
        value := Entry(now, 0, None, 0);
      }
      value := value.(failures := value.failures + 1);
      value := value.(updated := now);
      if value.failures >= LIMIT {
        value := value.(blockedUntil := Some(now + BLOCK));
      }
      values := values[key := value];
    }

    method ClearFailures(pair: Pair)
      modifies this
      ensures values == old(values) - {Joined(pair)}
    {
      values := values - {Joined(pair)};
    }
  }

  // login_throttle_pairs; each method is one statement.
  class ThrottleTable {
    var rows: map<Pair, Entry>

    constructor ()
      ensures rows == map[]
    {
      rows := map[];
    }

    method IsBlocked(pair: Pair, now: nat) returns (blocked: bool)
      ensures blocked <==> Blocks(Find(rows, pair), now)
    {
      if pair !in rows { return false; }
      var until := rows[pair].blockedUntil;
      blocked := until.Some? && until.value > now;
    }

    method RecordFailure(pair: Pair, now: nat)
      modifies this
      ensures rows == old(rows)[pair := TableFailure(Find(old(rows), pair), now)]
    {
      if pair !in rows {
        rows := rows[pair := Entry(now, 1, None, now)];
        return;
      }
      var row := rows[pair];
      var over := row.started <= now - WINDOW;
      rows := rows[pair := Entry(
        if over then now else row.started,
        if over then 1 else row.failures + 1,
        if (if over then 1 else row.failures + 1) >= LIMIT then Some(now + BLOCK) else row.blockedUntil,
        now)];
    }

    method ClearFailures(pair: Pair)
      modifies this
      ensures rows == old(rows) - {pair}
    {
      rows := rows - {pair};
    }

    // Rows that another transaction has locked are skipped, so any set of old rows may go.
    method DeleteExpiredThrottlePairs(unlocked: set<Pair>, now: nat, age: nat)
      modifies this
      ensures Table(rows, now) == NextTable(Table(old(rows), now), Sweep(unlocked, age))
    {
      rows := map p | p in rows && !(p in unlocked && rows[p].updated + age <= now) :: rows[p];
    }
  }

  class Authenticator {
    const sessions: MemorySessionStore
    const throttles: MemoryThrottleStore
    const administrator: string

    constructor (sessions: MemorySessionStore, throttles: MemoryThrottleStore, administrator: string)
      ensures this.sessions == sessions && this.throttles == throttles && this.administrator == administrator
    {
      this.sessions, this.throttles, this.administrator := sessions, throttles, administrator;
    }

    ghost function At(now: nat): Auth
      reads sessions, throttles
    {
      Auth(sessions.sessions, throttles.values, sessions.next, now)
    }

    // valid is what the password verifier answers; it is asked only if the pair is not blocked.
    method SignIn(prior: Option<nat>, pair: Pair, valid: bool, now: nat, faults: Faults) returns (token: Option<nat>)
      requires Valid(At(now))
      modifies sessions, throttles
      ensures var e := Sessions.Event.SignIn(prior, pair, valid && pair.username == administrator, faults);
              At(now) == Next(old(At(now)), e) && token == Issued(old(At(now)), e)
      ensures Valid(At(now))
    {
      NextValid(At(now), Sessions.Event.SignIn(prior, pair, valid && pair.username == administrator, faults));
      if faults.check { return None; }
      var blocked := throttles.IsBlocked(pair, now);
      if blocked { return None; }
      if pair.username != administrator || !valid {
        if !faults.record { throttles.RecordFailure(pair, now); }
        return None;
      }
      Revoke(prior, faults);
      if faults.clear { return None; }
      throttles.ClearFailures(pair);
      token := CreateSession(Authenticated, faults.create);
    }

    // The session that the caller had before: failures to find or revoke it are ignored.
    method Revoke(prior: Option<nat>, faults: Faults)
      requires UniqueIds(sessions.sessions)
      modifies sessions
      ensures sessions.next == old(sessions.next)
      ensures sessions.sessions == if prior.Some? && !faults.find && !faults.revoke
                                   then RevokeToken(old(sessions.sessions), prior.value) else old(sessions.sessions)
    {
      if prior.Some? && !faults.find {
        var found := sessions.FindActiveSession(prior.value);
        if found.Some? && !faults.revoke { var revoked := sessions.RevokeSession(found.value.id); }
      }
    }

    method CreateSession(state: SessionState, fails: bool) returns (token: Option<nat>)
      modifies sessions
      ensures token == if fails then None else Some(old(sessions.next))
      ensures sessions.next == old(sessions.next) + if fails then 1 else 2
      ensures var next := old(sessions.next);
              sessions.sessions == if fails then old(sessions.sessions)
                                   else old(sessions.sessions)[Digest(next) := WebSession(next + 1, state)]
    {
      var minted := sessions.RandomToken();
      if fails { return None; }
      var record := sessions.CreateSession(minted, state);
      return Some(minted);
    }

    method NewAnonymousSession(now: nat) returns (token: Option<nat>)
      requires Valid(At(now))
      modifies sessions
      ensures At(now) == Next(old(At(now)), Visit) && Valid(At(now)) && token == Some(old(sessions.next))
    {
      NextValid(At(now), Visit);
      token := CreateSession(Anonymous, false);
    }

    method SignOut(token: nat, now: nat, fails: bool) returns (ok: bool)
      requires Valid(At(now))
      modifies sessions
      ensures At(now) == Next(old(At(now)), Sessions.Event.SignOut(token, fails)) && Valid(At(now))
      ensures ok <==> !fails && FindActive(old(sessions.sessions), token).Some?
    {
      NextValid(At(now), Sessions.Event.SignOut(token, fails));
      if fails { return false; }
      var found := sessions.FindActiveSession(token);
      if found.None? { return false; }
      ok := sessions.RevokeSession(found.value.id);
    }

    method Authorize(token: nat, fails: bool) returns (principal: Option<nat>)
      ensures principal.Some? <==> !fails && Authorized(At(0), token)
      ensures principal.Some? ==> principal.value == sessions.sessions[Digest(token)].id
    {
      if fails { return None; }
      var found := sessions.FindActiveSession(token);
      if found.None? || found.value.state != Authenticated { return None; }
      return Some(found.value.id);
    }
  }
}

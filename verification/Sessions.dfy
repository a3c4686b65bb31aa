// Sign-in, sign-out and authorization over session and throttle stores whose calls may
// fail: a token authorizes exactly while the history of the run says it should.
module Sessions {
  import opened Prelude
  import opened LoginThrottle

  // A digest determines what it was taken of; tokens are numbers never handed out twice.
  datatype Digest = Digest(of: nat)

  datatype SessionState = Anonymous | Authenticated | Revoked

  datatype WebSession = WebSession(id: nat, state: SessionState)

  datatype Auth = Auth(sessions: map<Digest, WebSession>, throttles: map<string, Entry>, next: nat, now: nat)

  const FRESH := Auth(map[], map[], 0, 1)

  // Which store calls of a sign-in fail, each without effect: IsBlocked, RecordFailure,
  // FindActiveSession, RevokeSession, ClearFailures and CreateSession. The in-memory
  // stores never do.
  datatype Faults = Faults(check: bool, record: bool, find: bool, revoke: bool, clear: bool, create: bool)

  const NONE := Faults(false, false, false, false, false, false)

  datatype Event =
    | SignIn(prior: Option<nat>, pair: Pair, good: bool, faults: Faults)
    | SignOut(token: nat, fails: bool)
    | Visit                    // an anonymous session
    | Forget(gone: set<nat>)   // the retention pass deletes the sessions of these tokens
    | Wait(elapsed: nat)

  function FindActive(sessions: map<Digest, WebSession>, token: nat): Option<WebSession> {
    var d := Digest(token);
    if d in sessions && sessions[d].state != Revoked then Some(sessions[d]) else None
  }

  function RevokeById(sessions: map<Digest, WebSession>, id: nat): map<Digest, WebSession> {
    map d | d in sessions :: if sessions[d].id == id then sessions[d].(state := Revoked) else sessions[d]
  }

  function RevokeToken(sessions: map<Digest, WebSession>, token: nat): map<Digest, WebSession> {
    match FindActive(sessions, token)
    case None => sessions
    case Some(session) => RevokeById(sessions, session.id)
  }

  // A new session: its token is next, its id the number after.
  function AddSession(a: Auth, state: SessionState): Auth {
    a.(sessions := a.sessions[Digest(a.next) := WebSession(a.next + 1, state)], next := a.next + 2)
  }

  predicate Refused(a: Auth, pair: Pair) {
    Blocks(Find(a.throttles, Joined(pair)), a.now)
  }

  // The sign-in gets as far as accepting the password.
  predicate Accepts(a: Auth, e: Event) {
    e.SignIn? && !e.faults.check && !Refused(a, e.pair) && e.good
  }

  // Then it revokes the session of the token presented to it, before anything else can fail.
  predicate Revokes(a: Auth, e: Event, token: nat) {
    Accepts(a, e) && e.prior == Some(token) && !e.faults.find && !e.faults.revoke
  }

  // The token that a sign-in returns.
  function Issued(a: Auth, e: Event): Option<nat> {
    if Accepts(a, e) && !e.faults.clear && !e.faults.create then Some(a.next) else None
  }

  function SignInNext(a: Auth, e: Event): Auth
    requires e.SignIn?
  {
    var key := Joined(e.pair);
    if e.faults.check || Refused(a, e.pair) then a
    else if !e.good then
      if e.faults.record then a else a.(throttles := a.throttles[key := MemoryFailure(Find(a.throttles, key), a.now)])
    else
      var revokes := e.prior.Some? && !e.faults.find && !e.faults.revoke;
      var b := if revokes then a.(sessions := RevokeToken(a.sessions, e.prior.value)) else a;
      if e.faults.clear then b
      else
        var c := b.(throttles := b.throttles - {key});
        if e.faults.create then c.(next := c.next + 1) else AddSession(c, Authenticated)
  }

  function Next(a: Auth, e: Event): Auth {
    match e
    case SignIn(_, _, _, _) => SignInNext(a, e)
    case SignOut(token, fails) => if fails then a else a.(sessions := RevokeToken(a.sessions, token))
    case Visit => AddSession(a, Anonymous)
    case Forget(gone) => a.(sessions := map d | d in a.sessions && d.of !in gone :: a.sessions[d])
    case Wait(elapsed) => a.(now := a.now + elapsed)
  }

  function Run(events: seq<Event>): Auth
    decreases |events|
  {
    if |events| == 0 then FRESH else Next(Run(events[..|events| - 1]), events[|events| - 1])
  }

  predicate Authorized(a: Auth, token: nat) {
    var found := FindActive(a.sessions, token);
    found.Some? && found.value.state == Authenticated
  }

  // ---- Session ids and tokens are unique ----

  ghost predicate UniqueIds(sessions: map<Digest, WebSession>) {
    forall d, e :: d in sessions && e in sessions && sessions[d].id == sessions[e].id ==> d == e
  }

  ghost predicate Valid(a: Auth) {
    UniqueIds(a.sessions) && forall d :: d in a.sessions ==> d.of < a.next && a.sessions[d].id < a.next
  }

  lemma AddingIsValid(a: Auth, state: SessionState)
    requires Valid(a)
    ensures Valid(AddSession(a, state))
  {
  }

  lemma RevokingIsValid(a: Auth, token: nat)
    requires Valid(a)
    ensures Valid(a.(sessions := RevokeToken(a.sessions, token)))
  {
  }

  lemma NextValid(a: Auth, e: Event)
    requires Valid(a)
    ensures Valid(Next(a, e))
  {
    match e
    case SignIn(prior, pair, _, faults) =>
      var revokes := prior.Some? && !faults.find && !faults.revoke;
      var b := if revokes then a.(sessions := RevokeToken(a.sessions, prior.value)) else a;
      if prior.Some? { RevokingIsValid(a, prior.value); }
      AddingIsValid(b.(throttles := b.throttles - {Joined(pair)}), Authenticated);
    case SignOut(token, _) => RevokingIsValid(a, token);
    case Visit => AddingIsValid(a, Anonymous);
    case _ =>
  }

  lemma {:induction false} RunValid(events: seq<Event>)
    ensures Valid(Run(events))
    decreases |events|
  {
    if |events| > 0 {
      RunValid(events[..|events| - 1]);
      NextValid(Run(events[..|events| - 1]), events[|events| - 1]);
    }
  }

  // ---- What the history says ----

  // The token is given up: signed out, presented to a sign-in that revoked it, or its
  // session deleted.
  predicate Ends(a: Auth, e: Event, token: nat) {
    e == SignOut(token, false) || Revokes(a, e, token) || (e.Forget? && token in e.gone)
  }

  ghost predicate IssuedAt(events: seq<Event>, i: nat, token: nat) {
    i < |events| && Issued(Run(events[..i]), events[i]) == Some(token)
  }

  ghost predicate KeptSince(events: seq<Event>, i: nat, token: nat) {
    forall j :: i < j < |events| ==> !Ends(Run(events[..j]), events[j], token)
  }

  ghost predicate Entitled(events: seq<Event>, token: nat) {
    exists i :: IssuedAt(events, i, token) && KeptSince(events, i, token)
  }

  // One more event changes neither what was issued before nor what ended then.
  lemma SameBefore(events: seq<Event>, e: Event, i: nat, token: nat)
    requires i < |events|
    ensures IssuedAt(events + [e], i, token) <==> IssuedAt(events, i, token)
    ensures KeptSince(events + [e], i, token) <==> KeptSince(events, i, token) && !Ends(Run(events), e, token)
  {
    var more := events + [e];
    assert forall j :: 0 <= j <= |events| ==> more[..j] == events[..j];
    assert events[..|events|] == events;
    if KeptSince(more, i, token) {
      forall j | i < j < |events| ensures !Ends(Run(events[..j]), events[j], token) {
        assert !Ends(Run(more[..j]), more[j], token);
      }
      assert !Ends(Run(more[..|events|]), more[|events|], token);
    }
  }

  lemma EntitledStep(events: seq<Event>, e: Event, token: nat)
    ensures Entitled(events + [e], token) <==>
            Issued(Run(events), e) == Some(token) || (Entitled(events, token) && !Ends(Run(events), e, token))
  {
    var more := events + [e];
    if Issued(Run(events), e) == Some(token) {
      assert more[..|events|] == events;
      assert IssuedAt(more, |events|, token) && KeptSince(more, |events|, token);
    } else if Entitled(more, token) {
      var i :| IssuedAt(more, i, token) && KeptSince(more, i, token);
      assert more[..|events|] == events;
      SameBefore(events, e, i, token);
    } else if Entitled(events, token) {
      var i :| IssuedAt(events, i, token) && KeptSince(events, i, token);
      SameBefore(events, e, i, token);
    }
  }

  lemma AuthorizedStep(a: Auth, e: Event, token: nat)
    requires Valid(a)
    ensures Authorized(Next(a, e), token)
            <==> Issued(a, e) == Some(token) || (Authorized(a, token) && !Ends(a, e, token))
  {
  }

  // A token authorizes exactly if a successful sign-in returned it and it has since been
  // neither signed out, nor revoked by a sign-in it was presented to, nor deleted.
  lemma {:induction false} AuthorizedExactly(events: seq<Event>, token: nat)
    ensures Authorized(Run(events), token) <==> Entitled(events, token)
    decreases |events|
  {
    if |events| > 0 {
      var init, last := events[..|events| - 1], events[|events| - 1];
      AuthorizedExactly(init, token);
      RunValid(init);
      assert init + [last] == events;
      EntitledStep(init, last, token);
      AuthorizedStep(Run(init), last, token);
    }
  }

  // A sign-in that fails keeps the session presented to it exactly if it fails before the
  // revocation takes effect: because it is refused, because of its credentials, or because
  // the store does not find or revoke that session. It is lost if only what follows fails.
  lemma FailedSignInKeepsExactly(events: seq<Event>, e: Event, token: nat)
    requires e.SignIn? && e.prior == Some(token) && Issued(Run(events), e).None? && Authorized(Run(events), token)
    ensures Authorized(Run(events + [e]), token)
            <==> e.faults.check || Refused(Run(events), e.pair) || !e.good || e.faults.find || e.faults.revoke
  {
    assert (events + [e])[..|events|] == events;
    RunValid(events);
    AuthorizedStep(Run(events), e, token);
  }

  // A token that was issued and has no active session.
  predicate IsDead(a: Auth, token: nat) {
    token < a.next && FindActive(a.sessions, token).None?
  }

  lemma DeadStep(a: Auth, e: Event, token: nat)
    requires Valid(a) && IsDead(a, token)
    ensures IsDead(Next(a, e), token)
  {
  }

  // A token whose session was revoked or deleted never authorizes again.
  lemma {:induction false} RevocationIsPermanent(events: seq<Event>, more: seq<Event>, token: nat)
    requires IsDead(Run(events), token)
    ensures IsDead(Run(events + more), token) && !Authorized(Run(events + more), token)
    decreases |more|
  {
    if |more| == 0 {
      assert events + more == events;
    } else {
      var init, last := more[..|more| - 1], more[|more| - 1];
      RevocationIsPermanent(events, init, token);
      assert (events + more)[..|events + more| - 1] == events + init;
      RunValid(events + init);
      DeadStep(Run(events + init), last, token);
    }
  }

  // The scan by id touches one session: the one the token belongs to.
  lemma RevocationHitsOne(events: seq<Event>, token: nat, other: nat)
    requires Digest(token) in Run(events).sessions && Digest(other) in Run(events).sessions && token != other
    ensures var before := Run(events).sessions;
            var after := RevokeById(before, before[Digest(token)].id);
            && after[Digest(other)] == before[Digest(other)]
            && after[Digest(token)] == before[Digest(token)].(state := Revoked)
  {
    RunValid(events);
  }

  // ---- The throttle under these runs ----

  // What the throttle store sees of an event: a sign-in whose record or clearance fails
  // leaves no trace there.
  function TryOf(e: Event): Option<LoginThrottle.Event> {
    match e
    case SignIn(_, pair, good, faults) =>
      if faults.check || (if good then faults.clear else faults.record) then None else Some(Try(pair, good))
    case Wait(elapsed) => Some(LoginThrottle.Event.Wait(elapsed))
    case _ => None
  }

  // The same run as the throttle sees it.
  function Tries(events: seq<Event>): seq<LoginThrottle.Event> {
    if |events| == 0 then []
    else
      var init, seen := Tries(events[..|events| - 1]), TryOf(events[|events| - 1]);
      if seen.Some? then init + [seen.value] else init
  }

  lemma {:induction false} ThrottlesFollow(events: seq<Event>)
    ensures var a, m := Run(events), MemoryRun(Tries(events)); a.throttles == m.values && a.now == m.now
    decreases |events|
  {
    if |events| > 0 {
      var init, last := events[..|events| - 1], events[|events| - 1];
      ThrottlesFollow(init);
      ThrottleStep(Run(init), last, MemoryRun(Tries(init)));
      if TryOf(last).Some? {
        assert (Tries(init) + [TryOf(last).value])[..|Tries(init)|] == Tries(init);
      }
    }
  }

  lemma ThrottleStep(a: Auth, e: Event, m: Memory)
    requires a.throttles == m.values && a.now == m.now
    ensures var b := Next(a, e);
            var n := if TryOf(e).Some? then NextMemory(m, TryOf(e).value) else m;
            b.throttles == n.values && b.now == n.now
  {
  }

  lemma {:induction false} TriesAreAllowed(events: seq<Event>)
    requires forall i :: 0 <= i < |events| && events[i].SignIn? ==> Plain(events[i].pair)
    ensures forall e :: e in Tries(events) ==> AllowedEvent(e)
    decreases |events|
  {
    if |events| > 0 { TriesAreAllowed(events[..|events| - 1]); }
  }

  // A sign-in returns a token exactly if its credentials are right, its pair has not been
  // blocked by the sign-ins before it, and none of the store calls that matter fails.
  lemma SignInSucceedsExactly(events: seq<Event>, e: Event)
    requires e.SignIn? && Plain(e.pair)
    requires forall i :: 0 <= i < |events| && events[i].SignIn? ==> Plain(events[i].pair)
    ensures Issued(Run(events), e).Some?
            <==> (e.good && !StandingRun(Tries(events), e.pair).Blocked?
                  && !e.faults.check && !e.faults.clear && !e.faults.create)
  {
    ThrottlesFollow(events);
    TriesAreAllowed(events);
    StoresAreIndistinguishable(Tries(events), e.pair);
  }
}

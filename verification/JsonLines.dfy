// The JSON Lines stream: one response per request, and the session that the stream
// carries from line to line.
module JsonLines {
  import opened Prelude
  import opened LoginThrottle
  import opened Sessions
  import opened Authentication
  import opened Framing

  // ---- Requests and responses ----

  datatype Request =
    | Unreadable(code: string)  // not JSON, or with an unknown field
    | Trailing(id: string)      // more than one value on the line
    | Envelope(id: string, version: string, operation: string, payload: Option<Payload>)

  // credentials is None when the payload does not decode as such.
  datatype Payload = Payload(credentials: Option<(string, string)>)

  datatype Outcome = SignedIn(yes: bool) | Performed | Fail(code: string)

  datatype Response = Response(id: string, outcome: Outcome)

  // What this model leaves open: JSON, white space, passwords, and for each line its time
  // and the store calls that fail while it is handled.
  datatype Program = Program(parse: string -> Request, blank: string -> bool, verify: string -> bool,
                             administrator: string, arrival: nat -> nat, faults: nat -> Faults)

  datatype Kind = ToSignIn | ToSignOut | Public | Protected | Unknown

  // The dispatch on the operation's name.
  function KindOf(operation: string): Kind {
    if operation == "auth.sign_in" then ToSignIn
    else if operation == "auth.sign_out" then ToSignOut
    else if operation == "bookmark.list" || operation == "bookmark.search" then Public
    else if operation == "capture.start" || operation == "capture.status" || operation == "capture.retry"
         || operation == "capture.discard"
         || operation == "bookmark.create" || operation == "bookmark.update" || operation == "bookmark.delete"
         || operation == "configuration.get" || operation == "configuration.validate"
         || operation == "configuration.update" then Protected
    else Unknown
  }

  const LOCAL := "cli-local"

  // The stores and the token that the stream holds.
  datatype State = State(auth: Auth, token: Option<nat>)

  predicate WellFormed(request: Request) {
    request.Envelope? && request.version == "v1" && request.id != "" && request.operation != "" && request.payload.Some?
  }

  function Rejection(request: Request): Response {
    match request
    case Unreadable(code) => Response("", Fail(code))
    case Trailing(id) => Response(id, Fail("invalid_json"))
    case Envelope(id, version, _, _) =>
      Response(id, Fail(if version != "v1" then "unsupported_version" else "validation_failed"))
  }

  function SignInEvent(p: Program, s: State, credentials: (string, string), faults: Faults): Sessions.Event {
    var good := p.verify(credentials.1) && credentials.0 == p.administrator;
    Sessions.Event.SignIn(s.token, Pair(credentials.0, LOCAL), good, faults)
  }

  function SignOutEvent(token: nat, faults: Faults): Sessions.Event {
    Sessions.Event.SignOut(token, faults.find || faults.revoke)
  }

  function Handled(p: Program, s: State, request: Request, faults: Faults): (State, Outcome)
    requires WellFormed(request)
  {
    match KindOf(request.operation)
    case ToSignIn =>
      if request.payload.value.credentials.None? then (s, Fail("validation_failed"))
      else
        var e := SignInEvent(p, s, request.payload.value.credentials.value, faults);
        var issued := Issued(s.auth, e);
        (State(Sessions.Next(s.auth, e), if issued.Some? then issued else s.token),
         if issued.Some? then SignedIn(true) else Fail("authentication_failed"))
    case ToSignOut =>
      var auth := if s.token.Some? then Sessions.Next(s.auth, SignOutEvent(s.token.value, faults)) else s.auth;
      (State(auth, None), SignedIn(false))
    case Public => (s, Performed)
    case Protected =>
      var allowed := s.token.Some? && !faults.find && Authorized(s.auth, s.token.value);
      (s, if allowed then Performed else Fail("authentication_required"))
    case Unknown => (s, Fail("unknown_operation"))
  }

  // The answer to line k.
  function Handle(p: Program, s: State, k: nat, line: string): (State, Response) {
    var request := p.parse(line);
    var t := s.(auth := s.auth.(now := p.arrival(k)));
    if !WellFormed(request) then (t, Rejection(request))
    else
      var (u, outcome) := Handled(p, t, request, p.faults(k));
      (u, Response(request.id, outcome))
  }

  // The state after these lines; blank ones are skipped.
  function After(p: Program, s: State, lines: seq<string>): State {
    if |lines| == 0 then s
    else
      var before, line := After(p, s, lines[..|lines| - 1]), lines[|lines| - 1];
      if p.blank(line) then before else Handle(p, before, |lines| - 1, line).0
  }

  function Responses(p: Program, s: State, lines: seq<string>): seq<Response> {
    if |lines| == 0 then []
    else
      var init, line := lines[..|lines| - 1], lines[|lines| - 1];
      Responses(p, s, init)
      + if p.blank(line) then [] else [Handle(p, After(p, s, init), |lines| - 1, line).1]
  }

  lemma OneMore(p: Program, s: State, lines: seq<string>, line: string)
    ensures var (t, response) := Handle(p, After(p, s, lines), |lines|, line);
            && After(p, s, lines + [line]) == (if p.blank(line) then After(p, s, lines) else t)
            && Responses(p, s, lines + [line]) == Responses(p, s, lines) + if p.blank(line) then [] else [response]
  {
    assert (lines + [line])[..|lines|] == lines;
  }

  // The number of lines that are not blank.
  function Requests(p: Program, lines: seq<string>): nat {
    if |lines| == 0 then 0
    else Requests(p, lines[..|lines| - 1]) + if p.blank(lines[|lines| - 1]) then 0 else 1
  }

  // ---- One response for each line that is not blank, in order ----

  lemma {:induction false} PrefixResponses(p: Program, s: State, lines: seq<string>, k: nat)
    requires k <= |lines|
    ensures Responses(p, s, lines[..k]) <= Responses(p, s, lines)
    ensures |Responses(p, s, lines)| == Requests(p, lines)
    decreases |lines|
  {
    if |lines| > 0 {
      var init := lines[..|lines| - 1];
      PrefixResponses(p, s, init, if k <= |init| then k else |init|);
      if k <= |init| { assert init[..k] == lines[..k]; } else { assert lines[..k] == lines; }
    } else {
      assert lines[..k] == lines;
    }
  }

  // The response to line k stands where the requests before it put it, and is the
  // answer to that line in the state the lines before it left.
  lemma OneResponsePerLine(p: Program, s: State, lines: seq<string>, k: nat)
    requires k < |lines| && !p.blank(lines[k])
    ensures |Responses(p, s, lines)| == Requests(p, lines) && Requests(p, lines[..k]) < Requests(p, lines)
    ensures Responses(p, s, lines)[Requests(p, lines[..k])]
            == Handle(p, After(p, s, lines[..k]), k, lines[k]).1
  {
    PrefixResponses(p, s, lines, k + 1);
    PrefixResponses(p, s, lines[..k + 1], k);
    assert lines[..k + 1][..k] == lines[..k];
  }

  // ---- The session of the stream ----

  // Line k signs in successfully.
  predicate SignsIn(p: Program, s: State, k: nat, line: string) {
    !p.blank(line) && Handle(p, s, k, line).1.outcome == SignedIn(true)
  }

  predicate SignsOut(p: Program, line: string) {
    var request := p.parse(line);
    !p.blank(line) && WellFormed(request) && KindOf(request.operation) == ToSignOut
  }

  // Line k is a sign-in that accepts the password, revokes the session that the stream
  // holds, and fails after that.
  predicate Forfeits(p: Program, s: State, k: nat, line: string) {
    var request := p.parse(line);
    && !p.blank(line) && WellFormed(request) && KindOf(request.operation) == ToSignIn
    && request.payload.value.credentials.Some? && s.token.Some?
    && var a := s.auth.(now := p.arrival(k));
       var e := SignInEvent(p, s, request.payload.value.credentials.value, p.faults(k));
       Revokes(a, e, s.token.value) && Issued(a, e).None?
  }

  // Line i signed in, and no later line signed out or, if that counts too, forfeited the session.
  ghost predicate LastsFrom(p: Program, s: State, lines: seq<string>, i: nat, strict: bool) {
    && i < |lines| && SignsIn(p, After(p, s, lines[..i]), i, lines[i])
    && forall j :: i < j < |lines| ==>
         !SignsOut(p, lines[j]) && !(strict && Forfeits(p, After(p, s, lines[..j]), j, lines[j]))
  }

  ghost predicate InSession(p: Program, s: State, lines: seq<string>, strict: bool) {
    exists i :: LastsFrom(p, s, lines, i, strict)
  }

  ghost predicate Live(s: State) {
    s.token.Some? && Authorized(s.auth, s.token.value)
  }

  lemma HandleLasts(p: Program, s: State, k: nat, line: string)
    requires Valid(s.auth) && !p.blank(line)
    ensures var t := Handle(p, s, k, line).0;
            && Valid(t.auth)
            && (t.token.Some? <==> SignsIn(p, s, k, line) || (s.token.Some? && !SignsOut(p, line)))
            && (Live(t) <==> SignsIn(p, s, k, line) || (Live(s) && !SignsOut(p, line) && !Forfeits(p, s, k, line)))
  {
    var request := p.parse(line);
    var a := s.auth.(now := p.arrival(k));
    if WellFormed(request) {
      if KindOf(request.operation) == ToSignIn && request.payload.value.credentials.Some? {
        var e := SignInEvent(p, s.(auth := a), request.payload.value.credentials.value, p.faults(k));
        NextValid(a, e);
        if Issued(a, e).Some? { AuthorizedStep(a, e, Issued(a, e).value); }
        if s.token.Some? { AuthorizedStep(a, e, s.token.value); }
      } else if KindOf(request.operation) == ToSignOut && s.token.Some? {
        NextValid(a, SignOutEvent(s.token.value, p.faults(k)));
      }
    }
  }

  lemma SameBefore(p: Program, s: State, lines: seq<string>, line: string, i: nat, strict: bool)
    requires i < |lines|
    ensures LastsFrom(p, s, lines + [line], i, strict)
            <==> LastsFrom(p, s, lines, i, strict) && !SignsOut(p, line)
                 && !(strict && Forfeits(p, After(p, s, lines), |lines|, line))
  {
    var more := lines + [line];
    assert forall j :: 0 <= j <= |lines| ==> more[..j] == lines[..j];
    assert lines[..|lines|] == lines;
    if LastsFrom(p, s, more, i, strict) {
      assert !SignsOut(p, more[|lines|]);
      forall j | i < j < |lines|
        ensures !SignsOut(p, lines[j]) && !(strict && Forfeits(p, After(p, s, lines[..j]), j, lines[j]))
      {
        assert !SignsOut(p, more[j]);
      }
    }
  }

  lemma SignedInStep(p: Program, s: State, lines: seq<string>, line: string, strict: bool)
    ensures InSession(p, s, lines + [line], strict)
            <==> SignsIn(p, After(p, s, lines), |lines|, line)
                 || (InSession(p, s, lines, strict) && !SignsOut(p, line)
                     && !(strict && Forfeits(p, After(p, s, lines), |lines|, line)))
  {
    var more := lines + [line];
    assert more[..|lines|] == lines;
    if SignsIn(p, After(p, s, lines), |lines|, line) {
      assert LastsFrom(p, s, more, |lines|, strict);
    } else if InSession(p, s, more, strict) {
      var i :| LastsFrom(p, s, more, i, strict);
      SameBefore(p, s, lines, line, i, strict);
    } else if InSession(p, s, lines, strict) {
      var i :| LastsFrom(p, s, lines, i, strict);
      SameBefore(p, s, lines, line, i, strict);
    }
  }

  // The stream holds a token exactly if an earlier line signed in and none since signed
  // out; that token is authorized exactly if besides none since forfeited its session.
  lemma {:induction false} TokenExactly(p: Program, a: Auth, lines: seq<string>)
    requires Valid(a)
    ensures var t := After(p, State(a, None), lines);
            && Valid(t.auth)
            && (t.token.Some? <==> InSession(p, State(a, None), lines, false))
            && (Live(t) <==> InSession(p, State(a, None), lines, true))
    decreases |lines|
  {
    if |lines| > 0 {
      var init, line := lines[..|lines| - 1], lines[|lines| - 1];
      TokenExactly(p, a, init);
      assert init + [line] == lines;
      SignedInStep(p, State(a, None), init, line, false);
      SignedInStep(p, State(a, None), init, line, true);
      if !p.blank(line) { HandleLasts(p, After(p, State(a, None), init), |init|, line); }
    }
  }

  // ---- What each line is told ----

  predicate IsWellFormed(request: Request, id: string, operation: string, payload: Payload) {
    request == Envelope(id, "v1", operation, Some(payload)) && id != "" && operation != ""
  }

  lemma CapturesAreProtected(operation: string)
    requires operation == "capture.start" || operation == "capture.status" || operation == "capture.retry"
          || operation == "capture.discard"
    ensures KindOf(operation) == Protected
  {
    assert operation[0] == 'c';
  }

  lemma ChangesAreProtected(operation: string)
    requires operation == "bookmark.create" || operation == "bookmark.update" || operation == "bookmark.delete"
    ensures KindOf(operation) == Protected
  {
    assert operation[0] == 'b' && operation[9] != 'l' && operation[9] != 's';
  }

  lemma SettingsAreProtected(operation: string)
    requires operation == "configuration.get" || operation == "configuration.validate"
          || operation == "configuration.update"
    ensures KindOf(operation) == Protected
  {
    assert operation[0] == 'c';
  }

  lemma NamesAreProtected(operation: string)
    requires operation == "capture.start" || operation == "capture.status" || operation == "capture.retry"
          || operation == "capture.discard" || operation == "bookmark.create" || operation == "bookmark.update"
          || operation == "bookmark.delete" || operation == "configuration.get"
          || operation == "configuration.validate" || operation == "configuration.update"
    ensures KindOf(operation) == Protected
  {
    if operation == "bookmark.create" || operation == "bookmark.update" || operation == "bookmark.delete" {
      ChangesAreProtected(operation);
    } else if operation == "configuration.get" || operation == "configuration.validate"
           || operation == "configuration.update" {
      SettingsAreProtected(operation);
    } else {
      CapturesAreProtected(operation);
    }
  }

  lemma KindDecides(p: Program, a: Auth, lines: seq<string>, line: string)
    requires Valid(a) && WellFormed(p.parse(line)) && KindOf(p.parse(line).operation) == Protected
    ensures Handle(p, After(p, State(a, None), lines), |lines|, line).1
            == Response(p.parse(line).id,
                        if InSession(p, State(a, None), lines, true) && !p.faults(|lines|).find
                        then Performed else Fail("authentication_required"))
  {
    TokenExactly(p, a, lines);
  }

  // Naming an operation that needs a session is performed exactly if an earlier sign-in on
  // the stream succeeded, no later line signed out or forfeited its session, and the
  // session can be looked up; otherwise authentication is required.
  lemma ProtectedExactly(p: Program, a: Auth, lines: seq<string>, line: string, id: string, operation: string,
                         payload: Payload)
    requires Valid(a) && IsWellFormed(p.parse(line), id, operation, payload)
    requires operation == "capture.start" || operation == "capture.status" || operation == "capture.retry"
          || operation == "capture.discard" || operation == "bookmark.create" || operation == "bookmark.update"
          || operation == "bookmark.delete" || operation == "configuration.get"
          || operation == "configuration.validate" || operation == "configuration.update"
    ensures Handle(p, After(p, State(a, None), lines), |lines|, line).1
            == Response(id, if InSession(p, State(a, None), lines, true) && !p.faults(|lines|).find
                            then Performed else Fail("authentication_required"))
  {
    NamesAreProtected(operation);
    KindDecides(p, a, lines, line);
  }

  // Listing and searching need no session.
  lemma PublicExactly(p: Program, s: State, k: nat, line: string, id: string, operation: string, payload: Payload)
    requires IsWellFormed(p.parse(line), id, operation, payload)
    requires operation == "bookmark.list" || operation == "bookmark.search"
    ensures Handle(p, s, k, line) == (s.(auth := s.auth.(now := p.arrival(k))), Response(id, Performed))
  {
    assert operation[0] == 'b';
  }

  // Any other name is unknown, and changes nothing.
  lemma UnknownExactly(p: Program, s: State, k: nat, line: string, id: string, operation: string, payload: Payload)
    requires IsWellFormed(p.parse(line), id, operation, payload)
    requires operation !in {"auth.sign_in", "auth.sign_out", "bookmark.list", "bookmark.search", "capture.start",
                            "capture.status", "capture.retry", "capture.discard", "bookmark.create",
                            "bookmark.update", "bookmark.delete", "configuration.get", "configuration.validate",
                            "configuration.update"}
    ensures Handle(p, s, k, line)
            == (s.(auth := s.auth.(now := p.arrival(k))), Response(id, Fail("unknown_operation")))
  {
  }

  // A sign-in is answered by whether the password and the name are right, the name is not
  // blocked and the calls that matter work; the stream then holds the new token.
  lemma SignInExactly(p: Program, s: State, k: nat, line: string, id: string, name: string, password: string)
    requires IsWellFormed(p.parse(line), id, "auth.sign_in", Payload(Some((name, password))))
    ensures var (t, response) := Handle(p, s, k, line);
            var faults := p.faults(k);
            var right := p.verify(password) && name == p.administrator;
            var blocked := Blocks(Find(s.auth.throttles, Joined(Pair(name, "cli-local"))), p.arrival(k));
            var yes := right && !blocked && !faults.check && !faults.clear && !faults.create;
            && response == Response(id, if yes then SignedIn(true) else Fail("authentication_failed"))
            && t.token == (if yes then Some(s.auth.next) else s.token)
  {
  }

  // Signing out always succeeds for the stream, which lets go of its token.
  lemma SignOutExactly(p: Program, s: State, k: nat, line: string, id: string, payload: Payload)
    requires Valid(s.auth) && IsWellFormed(p.parse(line), id, "auth.sign_out", payload)
    ensures var (t, response) := Handle(p, s, k, line);
            && response == Response(id, SignedIn(false)) && t.token == None
            && (s.token.Some? && !p.faults(k).find && !p.faults(k).revoke ==> !Authorized(t.auth, s.token.value))
  {
    if s.token.Some? {
      AuthorizedStep(s.auth.(now := p.arrival(k)), SignOutEvent(s.token.value, p.faults(k)), s.token.value);
    }
  }

  // A line that is not a well-formed request changes nothing and is told what is wrong
  // with it; the answer bears its id if that could be read.
  lemma RejectedExactly(p: Program, s: State, k: nat, line: string)
    ensures var request, (t, response) := p.parse(line), Handle(p, s, k, line);
            var same := s.(auth := s.auth.(now := p.arrival(k)));
            match request
            case Unreadable(code) => (t, response) == (same, Response("", Fail(code)))
            case Trailing(id) => (t, response) == (same, Response(id, Fail("invalid_json")))
            case Envelope(id, version, operation, payload) =>
              && response.id == id
              && (version != "v1" ==> (t, response.outcome) == (same, Fail("unsupported_version")))
              && (version == "v1" && (id == "" || operation == "" || payload == None) ==>
                    (t, response.outcome) == (same, Fail("validation_failed")))
  {
  }

  // With stores that do not fail, no line forfeits a session: a failed second sign-in
  // changes nothing.
  lemma FaultlessStoresForfeitNothing(p: Program, s: State, k: nat, line: string)
    requires p.faults(k) == NONE
    ensures !Forfeits(p, s, k, line)
  {
  }

  // ---- The server ----

  class Server {
    const authenticator: Authenticator
    const program: Program
    var output: seq<Response>

    constructor (authenticator: Authenticator, program: Program)
      requires authenticator.administrator == program.administrator
      ensures this.authenticator == authenticator && this.program == program && output == []
    {
      this.authenticator, this.program, output := authenticator, program, [];
    }

    ghost predicate Ready()
      reads this, authenticator.sessions, authenticator.throttles
    {
      authenticator.administrator == program.administrator && Valid(authenticator.At(0))
    }

    ghost function Here(token: Option<nat>, now: nat): State
      reads this, authenticator.sessions, authenticator.throttles
    {
      State(authenticator.At(now), token)
    }

    method Serve(input: string)
      requires Ready()
      modifies this`output, authenticator.sessions, authenticator.throttles
      ensures var frames := Framed(input);
              output == old(output) + Responses(program, old(Here(None, 0)), frames.lines)
                        + if frames.tooLong then [Response("", Fail("line_too_large"))] else []
    {
      var rest, k, token := input, 0, None;
      ghost var start, lines, now, was := Here(None, 0), [], 0, output;
      var scanned := Scan(rest);
      assert was + [] == was;
      while scanned.Line?
        invariant scanned == Scan(rest) && k == |lines|
        invariant Framed(input).lines == lines + Framed(rest).lines && Framed(input).tooLong == Framed(rest).tooLong
        invariant Served(was, start, lines, token, now)
        decreases |rest|
      {
        token, now := Answer(scanned.text, k, token, was, start, lines, now);
        FramedUnfolds(rest);
        Joins(lines, [scanned.text], Framed(scanned.rest).lines);
        lines := lines + [scanned.text];
        k := k + 1;
        rest := scanned.rest;
        scanned := Scan(rest);
      }
      assert lines + [] == lines;
      if scanned.TooLong? { output := output + [Response("", Fail("line_too_large"))]; }
    }

    // These lines have been answered.
    ghost predicate Served(was: seq<Response>, start: State, lines: seq<string>, token: Option<nat>, now: nat)
      reads this, authenticator.sessions, authenticator.throttles
    {
      Ready() && Here(token, now) == After(program, start, lines) && output == was + Responses(program, start, lines)
    }

    method Answer(line: string, k: nat, token: Option<nat>,
                  ghost was: seq<Response>, ghost start: State, ghost lines: seq<string>, ghost now: nat)
      returns (held: Option<nat>, ghost later: nat)
      requires k == |lines| && Served(was, start, lines, token, now)
      modifies this`output, authenticator.sessions, authenticator.throttles
      ensures Served(was, start, lines + [line], held, later)
    {
      OneMore(program, start, lines, line);
      if program.blank(line) { return token, now; }
      var response;
      held, response := HandleLine(line, k, token);
      later := program.arrival(k);
      output := output + [response];
    }

    method HandleLine(line: string, k: nat, token: Option<nat>) returns (held: Option<nat>, response: Response)
      requires Ready()
      modifies authenticator.sessions, authenticator.throttles
      ensures Ready()
      ensures forall before ::
                (Here(held, program.arrival(k)), response) == Handle(program, old(Here(token, before)), k, line)
    {
      var request, faults := program.parse(line), program.faults(k);
      held := token;
      if !WellFormed(request) { return held, Rejection(request); }
      match KindOf(request.operation)
      case ToSignIn =>
        held, response := HandleSignIn(request, token, program.arrival(k), faults);
      case ToSignOut =>
        if token.Some? {
          var done := authenticator.SignOut(token.value, program.arrival(k), faults.find || faults.revoke);
        }
        held, response := None, Response(request.id, SignedIn(false));
      case Public =>
        response := Response(request.id, Performed);
      case Protected =>
        var allowed := RequirePrincipal(token, faults.find);
        response := Response(request.id, if allowed then Performed else Fail("authentication_required"));
      case Unknown =>
        response := Response(request.id, Fail("unknown_operation"));
    }

    method HandleSignIn(request: Request, token: Option<nat>, now: nat, faults: Faults)
      returns (held: Option<nat>, response: Response)
      requires Ready() && WellFormed(request) && KindOf(request.operation) == ToSignIn
      modifies authenticator.sessions, authenticator.throttles
      ensures Ready()
      ensures var (s, outcome) := Handled(program, old(Here(token, now)), request, faults);
              Here(held, now) == s && response == Response(request.id, outcome)
    {
      held := token;
      if request.payload.value.credentials.None? { return held, Response(request.id, Fail("validation_failed")); }
      var (username, password) := request.payload.value.credentials.value;
      var issued := authenticator.SignIn(token, Pair(username, LOCAL), program.verify(password), now, faults);
      if issued.None? { return held, Response(request.id, Fail("authentication_failed")); }
      return issued, Response(request.id, SignedIn(true));
    }

    method RequirePrincipal(token: Option<nat>, fails: bool) returns (ok: bool)
      ensures ok <==> token.Some? && !fails && Authorized(authenticator.At(0), token.value)
    {
      if token.None? { return false; }
      var principal := authenticator.Authorize(token.value, fails);
      return principal.Some?;
    }
  }
}

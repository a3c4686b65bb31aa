// Captures sharing a bounded number of slots: every interleaving of their browser
// commands keeps the bound, and every admitted capture closes its browser session.
module CaptureSlots {
  import opened Prelude

  datatype Command = Open | WaitIdle | Screenshot | Close

  // A capture stopped at a point of its run. Running means that the command has been
  // issued and has not returned; shot tells whether the capture succeeded.
  datatype Stage =
    | Arriving
    | Running(command: Command, shot: bool)
    | Cancelling(shot: bool)
    | Releasing(shot: bool)
    | Returned(shot: bool)
    | Rejected

  datatype Issue = Issue(capture: nat, command: Command)

  // held is the number of tokens in the semaphore channel.
  datatype Slots = Slots(held: nat, captures: seq<Stage>, log: seq<Issue>)

  datatype Event = Arrive | Advance(capture: nat, ok: bool)

  const IDLE := Slots(0, [], [])

  // What follows a command that returned; deferred calls run in reverse order of their
  // registration: close, cancel, release.
  function Following(command: Command, ok: bool, shot: bool): Stage {
    match command
    case Open => if ok then Running(WaitIdle, false) else Running(Close, false)
    case WaitIdle => if ok then Running(Screenshot, false) else Running(Close, false)
    case Screenshot => Running(Close, ok)
    case Close => Cancelling(shot)
  }

  function Issued(stage: Stage, capture: nat): seq<Issue> {
    if stage.Running? then [Issue(capture, stage.command)] else []
  }

  function Next(s: Slots, e: Event, maximum: nat): Slots {
    match e
    case Arrive => s.(captures := s.captures + [Arriving])
    case Advance(c, ok) =>
      if c >= |s.captures| then s
      else
        match s.captures[c]
        case Arriving =>
          if s.held < maximum
          then Slots(s.held + 1, s.captures[c := Running(Open, false)], s.log + [Issue(c, Open)])
          else s.(captures := s.captures[c := Rejected])
        case Running(command, shot) =>
          var next := Following(command, ok, shot);
          s.(captures := s.captures[c := next], log := s.log + Issued(next, c))
        case Cancelling(shot) => s.(captures := s.captures[c := Releasing(shot)])
        case Releasing(shot) => Slots(if s.held > 0 then s.held - 1 else 0, s.captures[c := Returned(shot)], s.log)
        case _ => s
  }

  function Run(events: seq<Event>, maximum: nat): Slots
    decreases |events|
  {
    if |events| == 0 then IDLE else Next(Run(events[..|events| - 1], maximum), events[|events| - 1], maximum)
  }

  // ---- Slots ----

  predicate HoldsSlot(stage: Stage) {
    stage.Running? || stage.Cancelling? || stage.Releasing?
  }

  // The browser session may be there: open has been issued and close has not returned.
  predicate SessionOpen(stage: Stage) {
    stage.Running?
  }

  function Count(captures: seq<Stage>, which: Stage -> bool): nat {
    if |captures| == 0 then 0
    else Count(captures[..|captures| - 1], which) + if which(captures[|captures| - 1]) then 1 else 0
  }

  lemma {:induction false} CountOfUpdate(captures: seq<Stage>, c: nat, stage: Stage, which: Stage -> bool)
    requires c < |captures|
    ensures Count(captures[c := stage], which) + (if which(captures[c]) then 1 else 0)
            == Count(captures, which) + (if which(stage) then 1 else 0)
    decreases |captures|
  {
    var last := |captures| - 1;
    if c == last {
      assert captures[c := stage][..last] == captures[..last];
    } else {
      assert captures[c := stage][..last] == captures[..last][c := stage];
      CountOfUpdate(captures[..last], c, stage, which);
    }
  }

  lemma {:induction false} CountOfMore(captures: seq<Stage>, which: Stage -> bool, more: Stage -> bool)
    requires forall stage :: which(stage) ==> more(stage)
    ensures Count(captures, which) <= Count(captures, more)
    decreases |captures|
  {
    if |captures| > 0 { CountOfMore(captures[..|captures| - 1], which, more); }
  }

  lemma HeldStep(s: Slots, e: Event, maximum: nat)
    requires s.held == Count(s.captures, HoldsSlot) <= maximum
    ensures var t := Next(s, e, maximum); t.held == Count(t.captures, HoldsSlot) <= maximum
  {
    match e
    case Arrive => assert (s.captures + [Arriving])[..|s.captures|] == s.captures;
    case Advance(c, ok) =>
      if c < |s.captures| { CountOfUpdate(s.captures, c, Next(s, e, maximum).captures[c], HoldsSlot); }
  }

  // The channel holds one token for each capture between its admission and its release,
  // and never more than the maximum; so there are never more browser sessions open.
  lemma {:induction false} SlotsAreBounded(events: seq<Event>, maximum: nat)
    ensures var s := Run(events, maximum);
            s.held == Count(s.captures, HoldsSlot) <= maximum && Count(s.captures, SessionOpen) <= s.held
    decreases |events|
  {
    if |events| > 0 {
      SlotsAreBounded(events[..|events| - 1], maximum);
      HeldStep(Run(events[..|events| - 1], maximum), events[|events| - 1], maximum);
    }
    CountOfMore(Run(events, maximum).captures, SessionOpen, HoldsSlot);
  }

  // A capture is turned away exactly if that many others hold a slot when it asks.
  lemma AdmittedExactly(events: seq<Event>, maximum: nat, c: nat, ok: bool)
    requires c < |Run(events, maximum).captures| && Run(events, maximum).captures[c].Arriving?
    ensures var s := Run(events, maximum);
            Next(s, Advance(c, ok), maximum).captures[c]
            == if Count(s.captures, HoldsSlot) < maximum then Running(Open, false) else Rejected
  {
    SlotsAreBounded(events, maximum);
  }

  // ---- Commands ----

  function Commands(log: seq<Issue>, c: nat): seq<Command> {
    if |log| == 0 then []
    else Commands(log[..|log| - 1], c) + if log[|log| - 1].capture == c then [log[|log| - 1].command] else []
  }

  lemma {:induction false} CommandsOfAppend(log: seq<Issue>, more: seq<Issue>, c: nat)
    ensures Commands(log + more, c) == Commands(log, c) + Commands(more, c)
    decreases |more|
  {
    if |more| == 0 {
      assert log + more == log;
    } else {
      assert (log + more)[..|log + more| - 1] == log + more[..|more| - 1];
      CommandsOfAppend(log, more[..|more| - 1], c);
    }
  }

  // What a capture has issued when it stands at this stage.
  predicate Issuing(stage: Stage, commands: seq<Command>) {
    match stage
    case Arriving => commands == []
    case Rejected => commands == []
    case Running(command, shot) =>
      (match command
       case Open => !shot && commands == [Open]
       case WaitIdle => !shot && commands == [Open, WaitIdle]
       case Screenshot => !shot && commands == [Open, WaitIdle, Screenshot]
       case Close => Closed(shot, commands))
    case Cancelling(shot) => Closed(shot, commands)
    case Releasing(shot) => Closed(shot, commands)
    case Returned(shot) => Closed(shot, commands)
  }

  // One close, last, after an open and as many further commands as succeeded.
  predicate Closed(shot: bool, commands: seq<Command>) {
    if shot then commands == [Open, WaitIdle, Screenshot, Close]
    else
      || commands == [Open, Close]
      || commands == [Open, WaitIdle, Close]
      || commands == [Open, WaitIdle, Screenshot, Close]
  }

  ghost predicate Orderly(s: Slots) {
    && (forall i :: 0 <= i < |s.log| ==> s.log[i].capture < |s.captures|)
    && (forall c :: 0 <= c < |s.captures| ==> Issuing(s.captures[c], Commands(s.log, c)))
  }

  lemma {:induction false} NoCommandsYet(log: seq<Issue>, c: nat)
    requires forall i :: 0 <= i < |log| ==> log[i].capture != c
    ensures Commands(log, c) == []
    decreases |log|
  {
    if |log| > 0 { NoCommandsYet(log[..|log| - 1], c); }
  }

  // A capture moves on, issuing at most one command.
  lemma MoveIsOrderly(s: Slots, t: Slots, c: nat, more: seq<Issue>)
    requires Orderly(s) && c < |s.captures| && |more| <= 1 && (forall i :: 0 <= i < |more| ==> more[i].capture == c)
    requires |t.captures| == |s.captures| && t.captures == s.captures[c := t.captures[c]] && t.log == s.log + more
    requires Issuing(t.captures[c], Commands(s.log, c) + if more == [] then [] else [more[0].command])
    ensures Orderly(t)
  {
    forall d | 0 <= d < |t.captures| ensures Issuing(t.captures[d], Commands(t.log, d)) {
      CommandsOfAppend(s.log, more, d);
      assert more != [] ==> more[..0] == [];
      assert Commands(more, d) == if d == c && more != [] then [more[0].command] else [];
      assert Commands(s.log, d) + [] == Commands(s.log, d);
    }
  }

  lemma AdvanceIsOrderly(s: Slots, c: nat, ok: bool, maximum: nat)
    requires Orderly(s) && c < |s.captures|
    ensures Orderly(Next(s, Advance(c, ok), maximum))
  {
    var t := Next(s, Advance(c, ok), maximum);
    match s.captures[c]
    case Arriving => MoveIsOrderly(s, t, c, if s.held < maximum then [Issue(c, Open)] else []);
    case Running(command, shot) => MoveIsOrderly(s, t, c, Issued(t.captures[c], c));
    case _ => MoveIsOrderly(s, t, c, []);
  }

  lemma OrderlyStep(s: Slots, e: Event, maximum: nat)
    requires Orderly(s)
    ensures Orderly(Next(s, e, maximum))
  {
    match e
    case Arrive => NoCommandsYet(s.log, |s.captures|);
    case Advance(c, ok) => if c < |s.captures| { AdvanceIsOrderly(s, c, ok, maximum); }
  }

  // In every interleaving a rejected capture issues nothing, and one that has given its
  // slot back has issued exactly one close, after all its other commands.
  lemma {:induction false} EverySessionIsClosed(events: seq<Event>, maximum: nat)
    ensures Orderly(Run(events, maximum))
    decreases |events|
  {
    if |events| > 0 {
      EverySessionIsClosed(events[..|events| - 1], maximum);
      OrderlyStep(Run(events[..|events| - 1], maximum), events[|events| - 1], maximum);
    }
  }

  // A capture gives its slot back only after its close was issued and returned.
  lemma ReleasedAfterClose(events: seq<Event>, maximum: nat, c: nat)
    requires c < |Run(events, maximum).captures|
    ensures var s := Run(events, maximum);
            var commands := Commands(s.log, c);
            && (s.captures[c].Rejected? ==> commands == [])
            && (!HoldsSlot(s.captures[c]) && !s.captures[c].Arriving? && !s.captures[c].Rejected? ==>
                  && |commands| >= 2
                  && forall i :: 0 <= i < |commands| ==> (commands[i] == Close <==> i == |commands| - 1))
  {
    EverySessionIsClosed(events, maximum);
  }

  // ---- The adapter, when the captures come one after the other ----

  // How the browser answers the first three commands.
  datatype Answers = Answers(open: bool, idle: bool, shot: bool) {
    function To(command: Command): bool {
      match command
      case Open => open
      case WaitIdle => idle
      case Screenshot => shot
      case Close => true
    }
  }

  function Left(stage: Stage): nat {
    if !stage.Running? then 0
    else match stage.command { case Open => 4 case WaitIdle => 3 case Screenshot => 2 case Close => 1 }
  }

  // What a process issues from this stage on, and whether its capture succeeds.
  function Rest(stage: Stage, answers: Answers): (seq<Command>, bool)
    decreases Left(stage)
  {
    match stage
    case Running(command, shot) =>
      var (more, result) := Rest(Following(command, answers.To(command), shot), answers);
      ([command] + more, result)
    case Cancelling(shot) => ([], shot)
    case _ => ([], false)
  }

  class Capturer {
    const maximum: nat
    var held: nat
    var issued: seq<Command>

    constructor (maximum: nat)
      ensures this.maximum == (if maximum == 0 then 4 else maximum) && held == 0 && issued == []
    {
      this.maximum, held, issued := if maximum == 0 then 4 else maximum, 0, [];
    }

    // reached is the address that the first command reports, if it reports one.
    method Capture(target: string, answers: Answers, reached: Option<string>)
      returns (admitted: bool, final: Option<string>)
      modifies this
      ensures admitted <==> old(held) < maximum
      ensures held == old(held)
      ensures issued == old(issued) + if !admitted then []
                                      else if !answers.open then [Open, Close]
                                      else if !answers.idle then [Open, WaitIdle, Close]
                                      else [Open, WaitIdle, Screenshot, Close]
      ensures final == if !admitted || !answers.open || !answers.idle || !answers.shot then None
                       else Some(if reached.None? || reached.value == "" then target else reached.value)
      ensures admitted ==> Rest(Running(Open, false), answers) == (issued[|old(issued)|..], final.Some?)
    {
      RestExactly(answers);
      if held >= maximum { return false, None; }
      held := held + 1;
      final := Photograph(target, answers, reached);
      issued := issued + [Close];
      held := held - 1;
      return true, final;
    }

    // The part before the deferred calls.
    method Photograph(target: string, answers: Answers, reached: Option<string>) returns (final: Option<string>)
      modifies this`issued
      ensures issued == old(issued) + if !answers.open then [Open]
                                      else if !answers.idle then [Open, WaitIdle]
                                      else [Open, WaitIdle, Screenshot]
      ensures final == if !answers.open || !answers.idle || !answers.shot then None
                       else Some(if reached.None? || reached.value == "" then target else reached.value)
    {
      issued := issued + [Open];
      if !answers.open { return None; }
      issued := issued + [WaitIdle];
      if !answers.idle { return None; }
      issued := issued + [Screenshot];
      if !answers.shot { return None; }
      return Some(if reached.Some? && reached.value != "" then reached.value else target);
    }
  }

  // The run of an admitted capture's process, told by the browser's answers.
  lemma RestExactly(answers: Answers)
    ensures Rest(Running(Open, false), answers)
            == (if !answers.open then [Open, Close]
                else if !answers.idle then [Open, WaitIdle, Close]
                else [Open, WaitIdle, Screenshot, Close],
                answers.open && answers.idle && answers.shot)
  {
    var shot := answers.open && answers.idle && answers.shot;
    RestStep(Running(Close, shot), answers, [], [Close], shot);
    if !answers.open {
      RestStep(Running(Open, false), answers, [Close], [Open, Close], shot);
    } else if !answers.idle {
      RestStep(Running(WaitIdle, false), answers, [Close], [WaitIdle, Close], shot);
      RestStep(Running(Open, false), answers, [WaitIdle, Close], [Open, WaitIdle, Close], shot);
    } else {
      var closing := [Screenshot, Close];
      RestStep(Running(Screenshot, false), answers, [Close], closing, shot);
      RestStep(Running(WaitIdle, false), answers, closing, [WaitIdle] + closing, shot);
      RestStep(Running(Open, false), answers, [WaitIdle] + closing, [Open, WaitIdle, Screenshot, Close], shot);
    }
  }

  lemma RestStep(stage: Stage, answers: Answers, more: seq<Command>, all: seq<Command>, shot: bool)
    requires stage.Running? && all == [stage.command] + more
    requires Rest(Following(stage.command, answers.To(stage.command), stage.shot), answers) == (more, shot)
    ensures Rest(stage, answers) == (all, shot)
  {
  }
}

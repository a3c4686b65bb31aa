// The retention pass: expiring drafts, deleting old sessions and throttle rows, and then
// one cleanup pass, stopping at the first failure.
module Retention {
  import opened Prelude
  import opened ScreenshotModel
  import opened SagaSystem
  import opened SagaSerial
  import opened ScreenshotUseCases
  import CleanupEffects
  import LoginThrottle
  import Authentication

  // The rows that the three statements find unlocked and within their limit.
  datatype Batch = Batch(drafts: set<nat>, sessions: set<nat>, pairs: set<LoginThrottle.Pair>)

  datatype Settings = Settings(sessionAge: nat, throttleAge: nat, limit: nat, maximum: int)

  // The tables that the pass works on; sessions maps each session to its creation time.
  datatype World = World(st: Stores, sessions: map<nat, nat>, pairs: map<LoginThrottle.Pair, LoginThrottle.Entry>)

  function Old(sessions: map<nat, nat>, batch: set<nat>, now: nat, age: nat): set<nat> {
    set id | id in sessions && id in batch && sessions[id] + age <= now
  }

  // Drafts are deleted with the session that owns them.
  function OwnedBy(drafts: map<nat, Draft>, owners: set<nat>): set<nat> {
    set d | d in drafts && drafts[d].owner in owners
  }

  function WithoutSessions(w: World, gone: set<nat>): World {
    w.(sessions := w.sessions - gone, st := w.st.(drafts := w.st.drafts - OwnedBy(w.st.drafts, gone)))
  }

  function WithoutPairs(w: World, batch: set<LoginThrottle.Pair>, age: nat): World {
    w.(pairs := LoginThrottle.NextTable(LoginThrottle.Table(w.pairs, w.st.now), LoginThrottle.Sweep(batch, age)).rows)
  }

  // How many statements go through before one fails.
  function Passed(script: seq<Choice>): (n: nat)
    ensures n <= 3
  {
    if Head(script).fail then 0
    else if Head(Tail(script)).fail then 1
    else if Head(Tail(Tail(script))).fail then 2 else 3
  }

  function Swept(w: World, n: nat, batch: Batch, settings: Settings): World {
    var a := if n < 1 then w else w.(st := ExpireSome(w.st, batch.drafts));
    var b := if n < 2 then a else WithoutSessions(a, Old(a.sessions, batch.sessions, w.st.now, settings.sessionAge));
    if n < 3 then b else WithoutPairs(b, batch.pairs, settings.throttleAge)
  }

  // ---- What a pass leaves ----

  // Sessions go if their statement took effect, found them and they were old enough.
  ghost predicate SessionsAfter(before: map<nat, nat>, took: bool, batch: set<nat>, age: nat, now: nat,
      after: map<nat, nat>) {
    && (forall id :: id in after <==> id in before && !(took && id in batch && before[id] + age <= now))
    && forall id :: id in after ==> after[id] == before[id]
  }

  // Drafts go with their session; of the others those found past their time and not yet
  // consumed, discarded or expired are expired now.
  ghost predicate DraftsAfter(before: World, expired: bool, batch: set<nat>, after: World) {
    && (forall d :: d in after.st.drafts <==>
          d in before.st.drafts
              && (before.st.drafts[d].owner in before.sessions ==> before.st.drafts[d].owner in after.sessions))
    && forall d :: d in after.st.drafts ==>
         var draft := before.st.drafts[d];
         var due := expired && d in batch && draft.expires <= before.st.now
                    && draft.state != Consumed && draft.state != Discarded && draft.state != DraftState.Expired;
         after.st.drafts[d] == if due then draft.(state := DraftState.Expired) else draft
  }

  ghost predicate PairsAfter(before: map<LoginThrottle.Pair, LoginThrottle.Entry>, took: bool,
      batch: set<LoginThrottle.Pair>,
                       age: nat, now: nat, after: map<LoginThrottle.Pair, LoginThrottle.Entry>) {
    && (forall pair :: pair in after
         <==> pair in before && !(took && pair in batch && before[pair].updated + age <= now))
    && forall pair :: pair in after ==> after[pair] == before[pair]
  }

  lemma SweptExactly(w: World, n: nat, batch: Batch, settings: Settings)
    ensures var t := Swept(w, n, batch, settings);
            && SessionsAfter(w.sessions, n >= 2, batch.sessions, settings.sessionAge, w.st.now, t.sessions)
            && DraftsAfter(w, n >= 1, batch.drafts, t)
            && PairsAfter(w.pairs, n >= 3, batch.pairs, settings.throttleAge, w.st.now, t.pairs)
            && t.st == w.st.(drafts := t.st.drafts)
  {
  }

  class SessionTable {
    var created: map<nat, nat>

    constructor ()
      ensures created == map[]
    {
      created := map[];
    }
  }

  class RetentionProcessor {
    const deps: Dependencies
    const sessions: SessionTable
    const throttles: Authentication.ThrottleTable
    const cleaner: CleanupProcessor
    const settings: Settings

    // Ages of zero stand for a day, no limit for a hundred, no maximum for three.
    constructor (deps: Dependencies, sessions: SessionTable,
                 throttles: Authentication.ThrottleTable, settings: Settings)
      requires deps.Wired()
      ensures this.deps == deps && this.sessions == sessions && this.throttles == throttles && cleaner.deps == deps
      ensures this.settings.sessionAge == (if settings.sessionAge == 0 then 24 * 60 * MINUTE else settings.sessionAge)
      ensures this.settings.throttleAge
              == (if settings.throttleAge == 0 then 24 * 60 * MINUTE else settings.throttleAge)
      ensures this.settings.limit == (if settings.limit == 0 then 100 else settings.limit)
      ensures this.settings.maximum == (if settings.maximum == 0 then 3 else settings.maximum)
    {
      this.deps, this.sessions, this.throttles := deps, sessions, throttles;
      this.cleaner := new CleanupProcessor(deps);
      this.settings := Settings(
        if settings.sessionAge == 0 then 24 * 60 * MINUTE else settings.sessionAge,
        if settings.throttleAge == 0 then 24 * 60 * MINUTE else settings.throttleAge,
        if settings.limit == 0 then 100 else settings.limit,
        if settings.maximum == 0 then 3 else settings.maximum);
    }

    ghost predicate Wired() { deps.Wired() && cleaner.deps == deps }

    ghost function Now(): World
      reads deps.files, deps.db, deps.env, sessions, throttles
    {
      World(deps.Now(), sessions.created, throttles.rows)
    }

    method Process(batch: Batch) returns (ok: bool)
      requires Wired()
      modifies deps.files, deps.db, deps.env, sessions, throttles
      ensures var n := Passed(old(deps.env.script));
              var w := Swept(old(Now()), n, batch, settings);
              if n < 3 then !ok && Now() == w
              else var script := Tail(Tail(Tail(old(deps.env.script))));
                   && (Now().st, Done(ok)) == Solo(w.st, Begin(Op.Cleanup(settings.limit, settings.maximum)), script)
                   && Now() == w.(st := Now().st)
      ensures var script := old(deps.env.script);
              var first := !Head(script).fail;
              var second := first && !Head(Tail(script)).fail;
              var third := second && !Head(Tail(Tail(script))).fail;
              && SessionsAfter(old(sessions.created), second, batch.sessions, settings.sessionAge, deps.env.now,
                               sessions.created)
              && DraftsAfter(old(Now()), first, batch.drafts, Now())
              && PairsAfter(old(throttles.rows), third, batch.pairs, settings.throttleAge, deps.env.now, throttles.rows)
              && deps.db.rows == old(deps.db.rows) && (ok ==> third)
    {
      ghost var before, s := Now(), deps.env.script;
      SweptExactly(before, Passed(s), batch, settings);
      ok := Expire(batch.drafts);
      if !ok { return; }
      ok := DeleteSessions(batch.sessions);
      if !ok { return; }
      var c := deps.env.Decide();
      if c.fail { return false; }
      throttles.DeleteExpiredThrottlePairs(batch.pairs, deps.env.now, settings.throttleAge);
      ghost var cleaning, left := Begin(Op.Cleanup(settings.limit, settings.maximum)), deps.env.script;
      CleanupEffects.CleaningKeeps(deps.Now(), cleaning, left);
      ok := cleaner.Process(settings.limit, settings.maximum);
    }

    method Expire(batch: set<nat>) returns (ok: bool)
      requires Wired()
      modifies deps.db`drafts, deps.env`script
      ensures ok <==> !Head(old(deps.env.script)).fail
      ensures deps.env.script == Tail(old(deps.env.script))
      ensures deps.db.drafts == if ok then ExpireSome(old(deps.Now()), batch).drafts else old(deps.db.drafts)
    {
      var c := deps.env.Decide();
      if c.fail { return false; }
      var now := deps.env.now;
      deps.db.drafts := map d | d in deps.db.drafts ::
        if d in batch && deps.db.drafts[d].expires <= now && !IsTerminal(deps.db.drafts[d])
        then deps.db.drafts[d].(state := DraftState.Expired) else deps.db.drafts[d];
      return true;
    }

    method DeleteSessions(batch: set<nat>) returns (ok: bool)
      requires Wired()
      modifies deps.db`drafts, deps.env`script, sessions
      ensures ok <==> !Head(old(deps.env.script)).fail
      ensures deps.env.script == Tail(old(deps.env.script))
      ensures var gone := Old(old(sessions.created), batch, deps.env.now, settings.sessionAge);
              Now() == if ok then WithoutSessions(old(Now()), gone) else old(Now()).(st := deps.Now())
      ensures !ok ==> deps.db.drafts == old(deps.db.drafts) && sessions.created == old(sessions.created)
    {
      var c := deps.env.Decide();
      if c.fail { return false; }
      var gone := Old(sessions.created, batch, deps.env.now, settings.sessionAge);
      sessions.created := sessions.created - gone;
      deps.db.drafts := deps.db.drafts - OwnedBy(deps.db.drafts, gone);
      return true;
    }
  }

  // For the stores of the screenshot model a pass is some of these jobs, in this order.
  function Jobs(w: World, n: nat, batch: Batch, settings: Settings, script: seq<Choice>): seq<Job> {
    (if n < 1 then [] else [Expire(batch.drafts)])
    + (if n < 2 then []
       else [Drop(OwnedBy(ExpireSome(w.st, batch.drafts).drafts,
                          Old(w.sessions, batch.sessions, w.st.now, settings.sessionAge)))])
    + (if n < 3 then [] else [Perform(Op.Cleanup(settings.limit, settings.maximum), script)])
  }

  lemma OneMoreJob(jobs: seq<Job>, job: Job)
    ensures DoAll(START, jobs + [job]) == Do(DoAll(START, jobs), job)
  {
    assert (jobs + [job])[..|jobs|] == jobs;
  }

  // So what holds of operations performed one after the other holds with retention
  // passes between them, however far each of them gets.
  lemma PassIsJobs(jobs: seq<Job>, w: World, n: nat, batch: Batch, settings: Settings, script: seq<Choice>)
    requires w.st == DoAll(START, jobs).st && n <= 3
    ensures var swept := Swept(w, n, batch, settings).st;
            DoAll(START, jobs + Jobs(w, n, batch, settings, script)).st
            == if n < 3 then swept else Solo(swept, Begin(Op.Cleanup(settings.limit, settings.maximum)), script).0
  {
    var all := Jobs(w, n, batch, settings, script);
    if n == 0 {
      assert jobs + all == jobs;
    } else {
      OneMoreJob(jobs, Expire(batch.drafts));
      if n == 1 {
        assert jobs + all == jobs + [Expire(batch.drafts)];
      } else {
        var gone := Old(w.sessions, batch.sessions, w.st.now, settings.sessionAge);
        var drop := Drop(OwnedBy(ExpireSome(w.st, batch.drafts).drafts, gone));
        OneMoreJob(jobs + [Expire(batch.drafts)], drop);
        if n == 2 {
          assert jobs + all == jobs + [Expire(batch.drafts)] + [drop];
        } else {
          var cleanup := Op.Cleanup(settings.limit, settings.maximum);
          assert jobs + all == jobs + [Expire(batch.drafts)] + [drop] + [Perform(cleanup, script)];
          SoloIsPerform(jobs + [Expire(batch.drafts)] + [drop], cleanup, script);
        }
      }
    }
  }
}

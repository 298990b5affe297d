/** When a check can be recorded as newer than a capture: exactly when a query has overtaken the capture. */
module LateCapture {
  import opened GameTypes
  import opened DaemonSteps
  import opened Ledger
  import opened Sequences
  import opened CheckTimes
  import opened AtMostOnce
  import opened UnderWay

  /** A check on record is newer than a capture of the same flag. */
  ghost predicate CheckAfterCapture(s: State, id: string) {
    id in s.db && exists i, j :: 0 <= i < |s.db[id].checks| && 0 <= j < |s.db[id].captures| &&
                                 s.db[id].captures[j].time < s.db[id].checks[i].time
  }

  /** A capture has been issued and waits for the database under ticket `p`. */
  ghost predicate Waiting(s: State, id: string, team: string, at: int, p: int) {
    && id in s.db && s.db[id].captures == [] && p in s.tasks && s.tasks[p] == PushCapture(team, id, at)
    && forall k :: k in s.tasks ==> k < s.next
  }

  lemma CaptureIssued(c: Config, s: State, conn: nat, id: string, team: string) returns (s': State)
    requires Once(s) && Capturable(s, id, team) && s.db[id].captures == []
    requires conn in s.connections && s.connections[conn] == Some(team)
    ensures Reaches(c, Free, s, s') && Waiting(s', id, team, s.now, s.next + 1)
    ensures s'.db == s.db && s'.now == s.now && s'.latest == s.latest
  {
    assert forall k :: k in s.tasks ==> k < s.next;
    var line := FlagLine(conn, id);
    var s1 := Enqueue(s, FindFlag(team, id));
    assert Step(c, s, line) == s1;
    LookupAnswered(c, s1, s.next);
    var s2 := Step(c, s1, Apply(s.next, []));
    CaptureAccepted(c, s2, s.next);
    s' := Step(c, s2, LookupDone(s.next));
    hide Once, Reaches, Step, Enabled;
    ReachesTwoSteps(c, Free, s, line, Apply(s.next, []));
    ReachesStep(c, Free, s2, LookupDone(s.next));
    ReachesTrans(c, Free, s, s2, s');
  }

  lemma LookupAnswered(c: Config, s: State, k: int)
    requires k in s.tasks && s.tasks[k].FindFlag?
    ensures var t := s.tasks[k];
            && Enabled(c, s, Apply(k, []))
            && Step(c, s, Apply(k, []))
               == s.(tasks := s.tasks[k := Found(t.team, t.id, if t.id in s.db then Some(s.db[t.id]) else None)])
  {
  }

  lemma CaptureAccepted(c: Config, s: State, k: int)
    requires k in s.tasks && s.tasks[k].Found? && Accepts(s, s.tasks[k].team, s.tasks[k].snapshot)
    ensures Enabled(c, s, LookupDone(k))
    ensures Step(c, s, LookupDone(k)) == Enqueue(Finish(s, k), PushCapture(s.tasks[k].team, s.tasks[k].id, s.now))
  {
  }

  /** The checks of a query's answer: one for each flag, and everything else stays under way. */
  lemma {:induction false} ChecksStarted(s: State, ids: seq<string>, at: int, i: nat)
    requires i < |ids| && forall k :: k in s.tasks ==> k < s.next
    ensures var s' := EnqueueChecks(s, ids, at);
            && s'.db == s.db && (forall k :: k in s'.tasks ==> k < s'.next)
            && (forall k :: k in s.tasks ==> k in s'.tasks && s'.tasks[k] == s.tasks[k])
            && s.next + i in s'.tasks && s'.tasks[s.next + i] == Checking(ids[i], at)
    decreases |ids|
  {
    var s1 := Enqueue(s, Checking(ids[0], at));
    if |ids| > 1 {
      ChecksStarted(s1, ids[1..], at, if i > 0 then i - 1 else 0);
    } else {
      assert EnqueueChecks(s1, ids[1..], at) == s1;
    }
  }

  lemma BothLand(c: Config, d: Discipline, s: State, id: string, team: string, at: int, p: int, k: int, now: int)
    returns (s': State)
    requires d.Free? || d.NoOvertaking?
    requires Waiting(s, id, team, at, p) && k in s.tasks && s.tasks[k] == Checking(id, now) && at < now
    ensures Reaches(c, d, s, s') && CheckAfterCapture(s', id)
  {
    var done := CheckDone(k, Exit(0));
    var s1 := Enqueue(Finish(s, k), PushCheck(id, Check(now, true)));
    assert Step(c, s, done) == s1;
    var s2 := Step(c, s1, Apply(s.next, []));
    PushCheckApplied(c, s1, s.next);
    s' := Step(c, s2, Apply(p, []));
    PushCaptureApplied(c, s2, p);
    hide Reaches, Step, Enabled;
    ReachesTwoSteps(c, d, s, done, Apply(s.next, []));
    ReachesStep(c, d, s2, Apply(p, []));
    ReachesTrans(c, d, s, s2, s');
    var doc := s'.db[id];
    assert doc.captures == [Capture(team, at)] && doc.checks == s.db[id].checks + [Check(now, true)];
    assert doc.captures[0].time < doc.checks[|doc.checks| - 1].time;
  }

  lemma PushCheckApplied(c: Config, s: State, k: int)
    requires k in s.tasks && s.tasks[k].PushCheck?
    ensures Enabled(c, s, Apply(k, []))
    ensures var s' := Step(c, s, Apply(k, []));
            s'.tasks == s.tasks - {k} && s'.db == Change(s, s.tasks[k].id, AddCheck(s.tasks[k].check)).db
  {
  }

  lemma PushCaptureApplied(c: Config, s: State, k: int)
    requires k in s.tasks && s.tasks[k].PushCapture?
    ensures Enabled(c, s, Apply(k, []))
    ensures var s', t := Step(c, s, Apply(k, [])), s.tasks[k];
            s'.tasks == s.tasks - {k} && s'.db == Change(s, t.id, AddCapture(Capture(t.team, t.at))).db
  {
  }

  /** A query that overtakes an older capture of a flag it finds can leave a check newer than that capture. */
  lemma OvertakingBreaks(c: Config, d: Discipline, s: State, k: int, cursor: seq<string>) returns (id: string, s': State)
    requires d.Free? || d.NoOvertaking?
    requires Once(s) && Enabled(c, s, Apply(k, cursor)) && s.tasks[k].FindUncaptured? && !InTime(s, k, cursor)
    ensures Reaches(c, d, Step(c, s, Apply(k, cursor)), s') && CheckAfterCapture(s', id)
  {
    assert forall j :: j in s.tasks ==> j < s.next;
    hide Once, Reaches, CheckAfterCapture;
    var at := s.tasks[k].at;
    var p :| p in s.tasks && s.tasks[p].PushCapture? && s.tasks[p].id in cursor && s.tasks[p].at < at;
    id := s.tasks[p].id;
    assert id in Uncaptured(s, s.tasks[k].planted);
    var i :| 0 <= i < |cursor| && cursor[i] == id;
    ChecksStarted(Finish(s, k), cursor, at, i);
    s' := BothLand(c, d, Step(c, s, Apply(k, cursor)), id, s.tasks[p].team, s.tasks[p].at, p, s.next + i, at);
  }

  lemma InPlaceMeansNone(c: Config, s: State, id: string)
    requires AllInPlace(c, s)
    ensures !CheckAfterCapture(s, id)
  {
    if id in s.db { assert DocInPlace(c, s, id); }
  }

  /**
   Up to now no query has overtaken a capture, and a query is about to be carried out. If no older capture
   of a flag that it finds is waiting, no check will be newer than a capture unless a later query
   overtakes one; otherwise that can happen without any further overtaking.
   */
  lemma ExactlyWhen(c: Config, es: seq<Event>, k: int, cursor: seq<string>)
    requires Run(c, NoOvertaking, INITIAL, es)
    requires var s := After(c, NoOvertaking, INITIAL, es);
             Enabled(c, s, Apply(k, cursor)) && s.tasks[k].FindUncaptured?
    ensures var s := After(c, NoOvertaking, INITIAL, es);
            InTime(s, k, cursor) <==>
            forall s', id :: Reaches(c, NoOvertaking, Step(c, s, Apply(k, cursor)), s') ==> !CheckAfterCapture(s', id)
  {
    hide Once, AllInPlace, CheckAfterCapture, Step, InTime;
    var s, query := After(c, NoOvertaking, INITIAL, es), Apply(k, cursor);
    InPlaceAtStart();
    RunInPlace(c, INITIAL, es);
    if InTime(s, k, cursor) {
      Careful(s, k, cursor);
      StepKeepsOnce(c, s, query);
      StepInPlace(c, s, query);
      forall s', id | Reaches(c, NoOvertaking, Step(c, s, query), s')
        ensures !CheckAfterCapture(s', id)
      {
        var es' :| Run(c, NoOvertaking, Step(c, s, query), es') && After(c, NoOvertaking, Step(c, s, query), es') == s';
        RunInPlace(c, Step(c, s, query), es');
        InPlaceMeansNone(c, s', id);
      }
    } else {
      var id, s' := OvertakingBreaks(c, NoOvertaking, s, k, cursor);
    }
  }

  lemma InPlaceAtStart()
    ensures Once(INITIAL) && forall c :: AllInPlace(c, INITIAL)
  {
  }

  lemma Careful(s: State, k: int, cursor: seq<string>)
    requires k in s.tasks && s.tasks[k].FindUncaptured? && InTime(s, k, cursor)
    ensures Allowed(NoOvertaking, s, Apply(k, cursor))
  {
  }

  // ----- over whole runs

  /** A capture with time `x` is recorded or waits for the database. */
  ghost predicate CaptureDue(s: State, id: string, x: int) {
    id in s.db && (|| (exists i :: 0 <= i < |s.db[id].captures| && s.db[id].captures[i].time == x)
                   || (exists k :: k in s.tasks && IsCaptureAt(s.tasks[k], id, x)))
  }

  predicate IsCaptureAt(t: Task, id: string, x: int) {
    t.PushCapture? && t.id == id && t.at == x
  }

  /** A check with time `y` is recorded or under way. */
  ghost predicate CheckDue(s: State, id: string, y: int) {
    id in s.db && (|| (exists i :: 0 <= i < |s.db[id].checks| && s.db[id].checks[i].time == y)
                   || (exists k :: k in s.tasks && IsCheckAt(s.tasks[k], id, y)))
  }

  predicate IsCheckAt(t: Task, id: string, y: int) {
    (t.Checking? && t.id == id && t.at == y) || (t.PushCheck? && t.id == id && t.check.time == y)
  }

  /** A check newer than a capture is on record, or will be once what is under way has been carried out. */
  ghost predicate LateDue(s: State, id: string) {
    exists x, y :: x < y && CaptureDue(s, id, x) && CheckDue(s, id, y)
  }

  lemma CaptureLands(s: State, k: int, id: string, x: int)
    requires id in s.db && k in s.tasks && IsCaptureAt(s.tasks[k], id, x)
    ensures CaptureDue(ApplyTask(s, k, []), id, x)
  {
    var captures := ApplyTask(s, k, []).db[id].captures;
    assert captures[|captures| - 1].time == x;
  }

  lemma CheckLands(s: State, k: int, id: string, y: int)
    requires id in s.db && k in s.tasks && s.tasks[k].PushCheck? && IsCheckAt(s.tasks[k], id, y)
    ensures CheckDue(ApplyTask(s, k, []), id, y)
  {
    var checks := ApplyTask(s, k, []).db[id].checks;
    assert checks[|checks| - 1].time == y;
  }

  lemma CheckEnds(s: State, k: int, status: Status, id: string, y: int)
    requires id in s.db && k in s.tasks && s.tasks[k].Checking? && IsCheckAt(s.tasks[k], id, y)
    ensures CheckDue(OnChecked(s, k, status), id, y)
  {
    assert IsCheckAt(OnChecked(s, k, status).tasks[s.next], id, y);
  }

  lemma CaptureOn(s: State, s': State, done: int, id: string, x: int)
    requires Carries(s, s', done) && CaptureDue(s, id, x)
    requires done in s.tasks ==> !IsCaptureAt(s.tasks[done], id, x)
    ensures CaptureDue(s', id, x)
  {
    if i :| 0 <= i < |s.db[id].captures| && s.db[id].captures[i].time == x {
      assert s'.db[id].captures[i].time == x;
    } else {
      var k :| k in s.tasks && IsCaptureAt(s.tasks[k], id, x);
      assert s'.tasks[k] == s.tasks[k];
    }
  }

  lemma CheckOn(s: State, s': State, done: int, id: string, y: int)
    requires Carries(s, s', done) && CheckDue(s, id, y)
    requires done in s.tasks ==> !IsCheckAt(s.tasks[done], id, y)
    ensures CheckDue(s', id, y)
  {
    if i :| 0 <= i < |s.db[id].checks| && s.db[id].checks[i].time == y {
      assert s'.db[id].checks[i].time == y;
    } else {
      var k :| k in s.tasks && IsCheckAt(s.tasks[k], id, y);
      assert s'.tasks[k] == s.tasks[k];
    }
  }

  lemma StepKeepsCaptureDue(c: Config, s: State, e: Event, id: string, x: int)
    requires Once(s) && Enabled(c, s, e) && CaptureDue(s, id, x)
    ensures CaptureDue(Step(c, s, e), id, x)
  {
    var k := Completed(s, e);
    assert id in s.db && s.next !in s.tasks;
    StepCarries(c, s, e);
    hide Once, Carries, CaptureDue;
    if k in s.tasks && IsCaptureAt(s.tasks[k], id, x) {
      CaptureLands(s, k, id, x);
      match e
      case Apply(_, cursor) => assert ApplyTask(s, k, cursor) == ApplyTask(s, k, []);
      case _ =>
    } else {
      CaptureOn(s, Step(c, s, e), k, id, x);
    }
  }

  lemma StepKeepsCheckDue(c: Config, s: State, e: Event, id: string, y: int)
    requires Once(s) && Enabled(c, s, e) && CheckDue(s, id, y)
    ensures CheckDue(Step(c, s, e), id, y)
  {
    var k := Completed(s, e);
    assert id in s.db && s.next !in s.tasks;
    StepCarries(c, s, e);
    hide Once, Carries, CheckDue;
    if k in s.tasks && IsCheckAt(s.tasks[k], id, y) {
      match e
      case CheckDone(_, status) => CheckEnds(s, k, status, id, y);
      case Apply(_, cursor) =>
        CheckLands(s, k, id, y);
        assert ApplyTask(s, k, cursor) == ApplyTask(s, k, []);
      case _ =>
    } else {
      CheckOn(s, Step(c, s, e), k, id, y);
    }
  }

  /** Nothing that happens can avert it. */
  lemma {:induction false} RunKeepsLateDue(c: Config, s: State, es: seq<Event>, id: string)
    requires Once(s) && Run(c, Free, s, es) && LateDue(s, id)
    ensures LateDue(After(c, Free, s, es), id)
    decreases |es|
  {
    if es != [] {
      hide Once, CaptureDue, CheckDue;
      var x, y :| x < y && CaptureDue(s, id, x) && CheckDue(s, id, y);
      StepKeepsOnce(c, s, es[0]);
      StepKeepsCaptureDue(c, s, es[0], id, x);
      StepKeepsCheckDue(c, s, es[0], id, y);
      RunKeepsLateDue(c, Step(c, s, es[0]), es[1..], id);
    }
  }

  lemma OvertakingDue(c: Config, s: State, k: int, cursor: seq<string>) returns (id: string)
    requires Once(s) && Enabled(c, s, Apply(k, cursor)) && s.tasks[k].FindUncaptured? && !InTime(s, k, cursor)
    ensures LateDue(Step(c, s, Apply(k, cursor)), id)
  {
    assert forall j :: j in s.tasks ==> j < s.next;
    hide Once, LateDue, CaptureDue, CheckDue;
    var s', at := Step(c, s, Apply(k, cursor)), s.tasks[k].at;
    var p :| p in s.tasks && s.tasks[p].PushCapture? && s.tasks[p].id in cursor && s.tasks[p].at < at;
    id := s.tasks[p].id;
    assert id in Uncaptured(s, s.tasks[k].planted);
    var i :| 0 <= i < |cursor| && cursor[i] == id;
    ChecksStarted(Finish(s, k), cursor, at, i);
    BothDue(s', id, p, s.next + i);
  }

  lemma BothDue(s: State, id: string, p: int, k: int)
    requires id in s.db && p in s.tasks && s.tasks[p].PushCapture? && s.tasks[p].id == id
    requires k in s.tasks && s.tasks[k].Checking? && s.tasks[k].id == id && s.tasks[p].at < s.tasks[k].at
    ensures LateDue(s, id)
  {
    assert IsCaptureAt(s.tasks[p], id, s.tasks[p].at) && IsCheckAt(s.tasks[k], id, s.tasks[k].at);
    assert CaptureDue(s, id, s.tasks[p].at) && CheckDue(s, id, s.tasks[k].at);
  }

  /** A run with an overtaking query ends with a check newer than a capture on record or under way. */
  lemma {:induction false} OvertakingRunDue(c: Config, s: State, es: seq<Event>) returns (id: string)
    requires Once(s) && Run(c, Free, s, es) && !Run(c, NoOvertaking, s, es)
    ensures LateDue(After(c, Free, s, es), id)
    decreases |es|
  {
    hide Once, LateDue;
    StepKeepsOnce(c, s, es[0]);
    if Allowed(NoOvertaking, s, es[0]) {
      id := OvertakingRunDue(c, Step(c, s, es[0]), es[1..]);
    } else {
      id := OvertakingDue(c, s, es[0].k, es[0].cursor);
      RunKeepsLateDue(c, Step(c, s, es[0]), es[1..], id);
    }
  }

  lemma InPlaceMeansNoneDue(c: Config, s: State, id: string)
    requires AllInPlace(c, s)
    ensures !LateDue(s, id)
  {
    forall x, y | CaptureDue(s, id, x) && CheckDue(s, id, y) ensures y <= x {
      if i :| 0 <= i < |s.db[id].checks| && s.db[id].checks[i].time == y {
        assert DocInPlace(c, s, id);
      } else {
        var k :| k in s.tasks && IsCheckAt(s.tasks[k], id, y);
        assert TaskInPlace(c, s, k);
      }
      assert InPlace(c, s, id, y);
    }
  }

  /**
   After every run a check newer than a capture of its flag is on record, or will be once what is under way has
   been carried out, exactly if some query of the run has overtaken an older capture of a flag it found.
   */
  lemma LateIffOvertaken(c: Config, es: seq<Event>)
    requires Run(c, Free, INITIAL, es)
    ensures (exists id :: LateDue(After(c, Free, INITIAL, es), id)) <==> !Run(c, NoOvertaking, INITIAL, es)
  {
    hide Once, AllInPlace, LateDue;
    InPlaceAtStart();
    if Run(c, NoOvertaking, INITIAL, es) {
      FreeRun(c, NoOvertaking, INITIAL, es);
      RunInPlace(c, INITIAL, es);
      forall id ensures !LateDue(After(c, Free, INITIAL, es), id) {
        InPlaceMeansNoneDue(c, After(c, Free, INITIAL, es), id);
      }
    } else {
      var id := OvertakingRunDue(c, INITIAL, es);
    }
  }

  /** No check and no capture is under way. */
  ghost predicate Settled(s: State) {
    forall k :: k in s.tasks ==> !s.tasks[k].Checking? && !s.tasks[k].PushCheck? && !s.tasks[k].PushCapture?
  }

  lemma SettledDue(s: State, id: string)
    requires Settled(s)
    ensures LateDue(s, id) <==> CheckAfterCapture(s, id)
  {
    if CheckAfterCapture(s, id) {
      var i, j :| 0 <= i < |s.db[id].checks| && 0 <= j < |s.db[id].captures| &&
                  s.db[id].captures[j].time < s.db[id].checks[i].time;
      assert CaptureDue(s, id, s.db[id].captures[j].time) && CheckDue(s, id, s.db[id].checks[i].time);
    }
  }

  /** When nothing is under way any more, a check is newer than a capture exactly if some query overtook one. */
  lemma CheckAfterCaptureIffOvertaken(c: Config, es: seq<Event>)
    requires Run(c, Free, INITIAL, es) && Settled(After(c, Free, INITIAL, es))
    ensures (exists id :: CheckAfterCapture(After(c, Free, INITIAL, es), id)) <==> !Run(c, NoOvertaking, INITIAL, es)
  {
    hide LateDue, CheckAfterCapture;
    forall id ensures LateDue(After(c, Free, INITIAL, es), id) <==> CheckAfterCapture(After(c, Free, INITIAL, es), id) {
      SettledDue(After(c, Free, INITIAL, es), id);
    }
    LateIffOvertaken(c, es);
  }

  // ----- it does happen

  /** A find cursor over a collection. */
  lemma {:induction false} Listing(ids: set<string>) returns (cursor: seq<string>)
    ensures Distinct(cursor) && forall id :: id in cursor <==> id in ids
  {
    if ids == {} {
      cursor := [];
    } else {
      var id :| id in ids;
      var rest := Listing(ids - {id});
      cursor := [id] + rest;
    }
  }

  /** Whenever a capture waits, the next check round's query can be carried out before it. */
  lemma QueryOvertakes(c: Config, s: State, id: string, team: string, at: int, p: int, now: int) returns (s': State)
    requires Waiting(s, id, team, at, p) && s.latest == Some(s.db[id].time)
    requires s.now <= now && s.db[id].time + c.maxTime < now && at < now
    ensures Reaches(c, Free, s, s') && CheckAfterCapture(s', id)
  {
    hide Reaches, CheckAfterCapture;
    var s1 := Step(c, s, Tick(now));
    var s2 := Step(c, s1, CheckRound);
    var cursor := Listing(Uncaptured(s2, s.db[id].time));
    assert id in cursor;
    var i :| 0 <= i < |cursor| && cursor[i] == id;
    var query := Apply(s.next, cursor);
    var s3 := Step(c, s2, query);
    ChecksStarted(Finish(s2, s.next), cursor, now, i);
    ReachesTwoSteps(c, Free, s, Tick(now), CheckRound);
    ReachesStep(c, Free, s2, query);
    ReachesTrans(c, Free, s, s2, s3);
    s' := BothLand(c, Free, s3, id, team, at, p, s2.next + i, now);
    ReachesTrans(c, Free, s, s3, s');
  }

  /** From the start, a check can be recorded that is newer than a capture of its flag. */
  lemma LateCaptureHappens()
    ensures exists s :: Reaches(TWO_TEAMS, Free, INITIAL, s) && CheckAfterCapture(s, "A0")
  {
    hide Reaches, Once, CheckAfterCapture;
    var c := TWO_TEAMS;
    var s0 := FirstFlagIsCapturable();
    IsLatest(s0);
    var s1 := CaptureIssued(c, s0, 0, "A0", "Pwnies");
    var s2 := QueryOvertakes(c, s1, "A0", "Pwnies", 0, s0.next + 1, c.maxTime + 1);
    ReachesTrans(c, Free, INITIAL, s0, s1);
    ReachesTrans(c, Free, INITIAL, s1, s2);
  }

  lemma IsLatest(s: State)
    requires Capturable(s, "A0", "Pwnies")
    ensures s.latest == Some(s.db["A0"].time)
  {
  }
}

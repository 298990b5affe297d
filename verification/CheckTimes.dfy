/**
 As long as no check round's query overtakes an older capture, a recorded check lies after the plant
 commands' time limit and before every capture of its flag. Carrying operations out in the order of
 issue is one way to keep to that.
 */
module CheckTimes {
  import opened GameTypes
  import opened DaemonSteps
  import opened Ledger

  /** A check of flag `id` taken at time `at` is, and will stay, in the right place. */
  ghost predicate InPlace(c: Config, s: State, id: string, at: int) {
    && id in s.db && s.db[id].time + c.maxTime < at <= s.now
    && (forall i :: 0 <= i < |s.db[id].captures| ==> at <= s.db[id].captures[i].time)
    && (forall k :: k in s.tasks && s.tasks[k].PushCapture? && s.tasks[k].id == id ==> at <= s.tasks[k].at)
  }

  ghost predicate TaskInPlace(c: Config, s: State, k: int)
    requires k in s.tasks
  {
    match s.tasks[k]
    case FindUncaptured(planted, at) => planted + c.maxTime < at <= s.now
    case Checking(id, at) => InPlace(c, s, id, at)
    case PushCheck(id, check) => InPlace(c, s, id, check.time)
    case _ => true
  }

  ghost predicate DocInPlace(c: Config, s: State, id: string)
    requires id in s.db
  {
    forall i :: 0 <= i < |s.db[id].checks| ==> InPlace(c, s, id, s.db[id].checks[i].time)
  }

  ghost predicate AllInPlace(c: Config, s: State) {
    && (forall k :: k in s.tasks ==> TaskInPlace(c, s, k))
    && (forall id :: id in s.db ==> DocInPlace(c, s, id))
  }

  /** A step that adds no check, and captures only with the present time. */
  ghost predicate Later(s: State, s': State) {
    && s.now <= s'.now
    && (forall k :: k in s'.tasks && k in s.tasks ==> s'.tasks[k] == s.tasks[k])
    && (forall k :: k in s'.tasks && k !in s.tasks ==>
          var t := s'.tasks[k]; !t.FindUncaptured? && !t.Checking? && !t.PushCheck? && (t.PushCapture? ==> s.now <= t.at))
    && s.db.Keys <= s'.db.Keys
    && (forall id :: id in s.db ==> s'.db[id].time == s.db[id].time)
    && (forall id :: id in s.db ==> s'.db[id].checks == s.db[id].checks && s'.db[id].captures == s.db[id].captures)
    && (forall id :: id in s'.db && id !in s.db ==> s'.db[id].checks == [])
  }

  lemma StaysInPlace(c: Config, s: State, s': State, id: string, at: int)
    requires Later(s, s') && InPlace(c, s, id, at)
    ensures InPlace(c, s', id, at)
  {
  }

  lemma LaterKeepsPlaces(c: Config, s: State, s': State)
    requires AllInPlace(c, s) && Later(s, s')
    ensures AllInPlace(c, s')
  {
    forall k | k in s'.tasks ensures TaskInPlace(c, s', k) {
      if k in s.tasks {
        assert TaskInPlace(c, s, k);
        match s.tasks[k]
        case Checking(id, at) => StaysInPlace(c, s, s', id, at);
        case PushCheck(id, check) => StaysInPlace(c, s, s', id, check.time);
        case _ =>
      }
    }
    forall id | id in s'.db ensures DocInPlace(c, s', id) {
      if id in s.db {
        assert DocInPlace(c, s, id);
        forall i | 0 <= i < |s.db[id].checks| ensures InPlace(c, s', id, s'.db[id].checks[i].time) {
          StaysInPlace(c, s, s', id, s.db[id].checks[i].time);
        }
      }
    }
  }

  lemma {:induction false} LaterPlanting(s: State, pairs: seq<(string, string)>, choices: seq<(string, string)>)
    requires |pairs| == |choices| && forall k :: k in s.tasks ==> k < s.next
    ensures Later(s, PlantAll(s, pairs, choices))
    decreases |pairs|
  {
    if pairs != [] {
      LaterPlanting(PlantOne(s, pairs[0], choices[0]), pairs[1..], choices[1..]);
    }
  }

  lemma AddInPlace(c: Config, s: State, t: Task)
    requires AllInPlace(c, s) && !t.PushCapture?
    requires forall k :: k in s.tasks ==> k < s.next
    requires match t
             case FindUncaptured(planted, at) => planted + c.maxTime < at == s.now
             case Checking(id, at) => InPlace(c, s, id, at)
             case PushCheck(id, check) => InPlace(c, s, id, check.time)
             case _ => true
    ensures AllInPlace(c, Enqueue(s, t))
  {
    var s' := Enqueue(s, t);
    forall k | k in s'.tasks ensures TaskInPlace(c, s', k) {
      assert k in s.tasks ==> TaskInPlace(c, s, k);
    }
    forall id | id in s'.db ensures DocInPlace(c, s', id) {
      assert DocInPlace(c, s, id);
    }
  }

  lemma FinishInPlace(c: Config, s: State, k: int)
    requires AllInPlace(c, s)
    ensures AllInPlace(c, Finish(s, k))
  {
    LaterKeepsPlaces(c, s, Finish(s, k));
  }

  lemma {:induction false} ChecksInPlace(c: Config, s: State, ids: seq<string>, at: int)
    requires AllInPlace(c, s) && forall k :: k in s.tasks ==> k < s.next
    requires forall i :: 0 <= i < |ids| ==> InPlace(c, s, ids[i], at)
    ensures AllInPlace(c, EnqueueChecks(s, ids, at))
    decreases |ids|
  {
    if ids != [] {
      AddInPlace(c, s, Checking(ids[0], at));
      var s' := Enqueue(s, Checking(ids[0], at));
      forall i | 0 <= i < |ids[1..]| ensures InPlace(c, s', ids[1..][i], at) {
        assert InPlace(c, s, ids[i + 1], at);
      }
      ChecksInPlace(c, s', ids[1..], at);
    }
  }

  lemma CheckDoneInPlace(c: Config, s: State, k: int, status: Status)
    requires Once(s) && AllInPlace(c, s) && k in s.tasks && s.tasks[k].Checking?
    ensures AllInPlace(c, OnChecked(s, k, status))
  {
    var t := s.tasks[k];
    assert TaskInPlace(c, s, k);
    FinishInPlace(c, s, k);
    StaysInPlace(c, s, Finish(s, k), t.id, t.at);
    AddInPlace(c, Finish(s, k), PushCheck(t.id, Check(t.at, status == Exit(0))));
  }

  lemma PushCheckInPlace(c: Config, s: State, id: string, check: Check)
    requires AllInPlace(c, s) && InPlace(c, s, id, check.time)
    ensures AllInPlace(c, Change(s, id, AddCheck(check)))
  {
    var s' := Change(s, id, AddCheck(check));
    forall i, at | InPlace(c, s, i, at) ensures InPlace(c, s', i, at) {
    }
    forall k | k in s'.tasks ensures TaskInPlace(c, s', k) {
      assert TaskInPlace(c, s, k);
    }
    forall i | i in s'.db ensures DocInPlace(c, s', i) {
      assert DocInPlace(c, s, i);
    }
  }

  lemma PushCaptureInPlace(c: Config, s: State, k: int)
    requires AllInPlace(c, s) && k in s.tasks && s.tasks[k].PushCapture?
    ensures AllInPlace(c, ApplyTask(s, k, []))
  {
    var t := s.tasks[k];
    var s' := ApplyTask(s, k, []);
    forall i, at | InPlace(c, s, i, at) ensures InPlace(c, s', i, at) {
    }
    forall j | j in s'.tasks ensures TaskInPlace(c, s', j) {
      assert TaskInPlace(c, s, j);
    }
    forall i | i in s'.db ensures DocInPlace(c, s', i) {
      assert DocInPlace(c, s, i);
    }
  }

  lemma RecordCheckInPlace(c: Config, s: State, k: int)
    requires AllInPlace(c, s) && k in s.tasks && s.tasks[k].PushCheck?
    ensures AllInPlace(c, ApplyTask(s, k, []))
  {
    var id, check, done := s.tasks[k].id, s.tasks[k].check, Finish(s, k);
    assert TaskInPlace(c, s, k);
    FinishInPlace(c, s, k);
    StaysInPlace(c, s, done, id, check.time);
    PushCheckInPlace(c, done, id, check);
    LaterKeepsPlaces(c, Change(done, id, AddCheck(check)), ApplyTask(s, k, []));
  }

  /** A query that overtakes no older capture starts checks that all captures to come are newer than. */
  lemma QueryInPlace(c: Config, s: State, k: int, cursor: seq<string>)
    requires Once(s) && AllInPlace(c, s) && k in s.tasks && s.tasks[k].FindUncaptured?
    requires IsCursor(s, s.tasks[k].planted, cursor)
    requires InTime(s, k, cursor)
    ensures AllInPlace(c, ApplyTask(s, k, cursor))
  {
    var done := Finish(s, k);
    assert TaskInPlace(c, s, k);
    FinishInPlace(c, s, k);
    forall i | 0 <= i < |cursor| ensures InPlace(c, done, cursor[i], s.tasks[k].at) {
      assert cursor[i] in Uncaptured(s, s.tasks[k].planted);
    }
    ChecksInPlace(c, done, cursor, s.tasks[k].at);
  }

  lemma ApplyInPlace(c: Config, s: State, k: int, cursor: seq<string>)
    requires Once(s) && AllInPlace(c, s)
    requires Enabled(c, s, Apply(k, cursor)) && Allowed(NoOvertaking, s, Apply(k, cursor))
    ensures AllInPlace(c, ApplyTask(s, k, cursor))
  {
    match s.tasks[k]
    case PushCheck(id, check) => RecordCheckInPlace(c, s, k);
    case PushCapture(_, _, _) => PushCaptureInPlace(c, s, k);
    case FindUncaptured(_, _) => QueryInPlace(c, s, k, cursor);
    case FindFlag(_, _) => AnswerInPlace(c, s, k);
    case Save(_) => LaterKeepsPlaces(c, s, ApplyTask(s, k, cursor));
    case SetDelivered(_, _) => LaterKeepsPlaces(c, s, ApplyTask(s, k, cursor));
    case _ =>
  }

  lemma AnswerInPlace(c: Config, s: State, k: int)
    requires AllInPlace(c, s) && k in s.tasks && s.tasks[k].FindFlag?
    ensures AllInPlace(c, ApplyTask(s, k, []))
  {
    var s' := ApplyTask(s, k, []);
    forall i, at | InPlace(c, s, i, at) ensures InPlace(c, s', i, at) {
    }
    forall j | j in s'.tasks ensures TaskInPlace(c, s', j) {
      assert TaskInPlace(c, s, j);
    }
    forall i | i in s'.db ensures DocInPlace(c, s', i) {
      assert DocInPlace(c, s, i);
    }
  }

  lemma LookupInPlace(c: Config, s: State, k: int)
    requires Once(s) && AllInPlace(c, s) && k in s.tasks && s.tasks[k].Found?
    ensures AllInPlace(c, OnFound(s, k))
  {
    LaterKeepsPlaces(c, s, OnFound(s, k));
  }

  lemma StepInPlace(c: Config, s: State, e: Event)
    requires Once(s) && AllInPlace(c, s) && Enabled(c, s, e) && Allowed(NoOvertaking, s, e)
    ensures AllInPlace(c, Step(c, s, e))
  {
    assert forall k :: k in s.tasks ==> k < s.next;
    hide Once, AllInPlace;
    match e
    case Plant(choices) =>
      LaterPlanting(s.(latest := Some(s.now), rounds := s.rounds + [s.now]), Grid(c.services, c.teams), choices);
      LaterKeepsPlaces(c, s, Step(c, s, e));
    case CheckRound =>
      if s.latest.Some? && s.latest.value < s.now - c.maxTime {
        AddInPlace(c, s, FindUncaptured(s.latest.value, s.now));
      }
    case CheckDone(k, status) => CheckDoneInPlace(c, s, k, status);
    case LookupDone(k) => LookupInPlace(c, s, k);
    case Apply(k, cursor) => ApplyInPlace(c, s, k, cursor);
    case _ => LaterKeepsPlaces(c, s, Step(c, s, e));
  }

  lemma {:induction false} RunInPlace(c: Config, s: State, es: seq<Event>)
    requires Once(s) && AllInPlace(c, s) && Run(c, NoOvertaking, s, es)
    ensures Once(After(c, NoOvertaking, s, es)) && AllInPlace(c, After(c, NoOvertaking, s, es))
    decreases |es|
  {
    if es != [] {
      StepKeepsOnce(c, s, es[0]);
      StepInPlace(c, s, es[0]);
      RunInPlace(c, Step(c, s, es[0]), es[1..]);
    }
  }

  /** Every recorded check of every flag, against every recorded capture of that flag. */
  lemma RecordedChecks(c: Config, es: seq<Event>, id: string, i: nat)
    requires Run(c, NoOvertaking, INITIAL, es)
    requires id in After(c, NoOvertaking, INITIAL, es).db && i < |After(c, NoOvertaking, INITIAL, es).db[id].checks|
    ensures var doc := After(c, NoOvertaking, INITIAL, es).db[id];
            && doc.time + c.maxTime < doc.checks[i].time
            && forall j :: 0 <= j < |doc.captures| ==> doc.checks[i].time <= doc.captures[j].time
  {
    RunInPlace(c, INITIAL, es);
    var s := After(c, NoOvertaking, INITIAL, es);
    assert DocInPlace(c, s, id);
    assert InPlace(c, s, id, s.db[id].checks[i].time);
  }

  // ----- the order of issue is enough

  /** Captures issued after a query are no older than it. */
  ghost predicate Ordered(s: State) {
    && (forall k :: k in s.tasks && s.tasks[k].FindUncaptured? ==> s.tasks[k].at <= s.now)
    && (forall j, k :: j in s.tasks && k in s.tasks && k < j && s.tasks[k].FindUncaptured? && s.tasks[j].PushCapture?
          ==> s.tasks[k].at <= s.tasks[j].at)
  }

  predicate IsQueryOrCapture(t: Task) {
    t.FindUncaptured? || t.PushCapture?
  }

  /** New queries and captures have the present time. */
  ghost predicate Grown(s: State, s': State) {
    && s.now <= s'.now
    && forall k :: k in s'.tasks && IsQueryOrCapture(s'.tasks[k]) ==>
         (k in s.tasks && s'.tasks[k] == s.tasks[k]) || (k >= s.next && s'.tasks[k].at == s'.now)
  }

  lemma GrownOrdered(s: State, s': State)
    requires Ordered(s) && Grown(s, s') && forall k :: k in s.tasks ==> k < s.next
    ensures Ordered(s')
  {
  }

  lemma {:induction false} ChecksGrown(s: State, s': State, ids: seq<string>, at: int)
    requires Grown(s, s') && s.next <= s'.next
    ensures Grown(s, EnqueueChecks(s', ids, at))
    decreases |ids|
  {
    if ids != [] { ChecksGrown(s, Enqueue(s', Checking(ids[0], at)), ids[1..], at); }
  }

  lemma {:induction false} PlantingGrown(s: State, s': State, pairs: seq<(string, string)>, choices: seq<(string, string)>)
    requires |pairs| == |choices| && Grown(s, s') && s.next <= s'.next
    ensures Grown(s, PlantAll(s', pairs, choices))
    decreases |pairs|
  {
    if pairs != [] { PlantingGrown(s, PlantOne(s', pairs[0], choices[0]), pairs[1..], choices[1..]); }
  }

  lemma ApplyGrown(s: State, k: int, cursor: seq<string>)
    requires k in s.tasks && IsDbOp(s.tasks[k])
    ensures Grown(s, ApplyTask(s, k, cursor))
  {
    if s.tasks[k].FindUncaptured? { ChecksGrown(s, Finish(s, k), cursor, s.tasks[k].at); }
  }

  lemma EnqueueGrown(s: State, s': State, t: Task)
    requires Grown(s, s') && s.next == s'.next && (IsQueryOrCapture(t) ==> t.at == s'.now)
    ensures Grown(s, Enqueue(s', t))
  {
  }

  lemma StepGrown(c: Config, s: State, e: Event)
    requires Enabled(c, s, e)
    ensures Grown(s, Step(c, s, e))
  {
    hide Grown;
    SameGrown(s, s);
    match e
    case Plant(choices) =>
      var s1 := s.(latest := Some(s.now), rounds := s.rounds + [s.now]);
      SameGrown(s, s1);
      PlantingGrown(s, s1, Grid(c.services, c.teams), choices);
    case PlantDone(id, status) =>
      SameGrown(s, s.(planting := s.planting - {id}));
      EnqueueGrown(s, s.(planting := s.planting - {id}), SetDelivered(id, status == Exit(0)));
    case CheckRound =>
      if s.latest.Some? { EnqueueGrown(s, s, FindUncaptured(s.latest.value, s.now)); }
    case CheckDone(k, status) =>
      SameGrown(s, Finish(s, k));
      EnqueueGrown(s, Finish(s, k), PushCheck(s.tasks[k].id, Check(s.tasks[k].at, status == Exit(0))));
    case FlagLine(conn, id) =>
      if s.connections[conn].Some? { EnqueueGrown(s, s, FindFlag(s.connections[conn].value, id)); }
    case LookupDone(k) =>
      SameGrown(s, Finish(s, k));
      EnqueueGrown(s, Finish(s, k), PushCapture(s.tasks[k].team, s.tasks[k].id, s.now));
    case Apply(k, cursor) => ApplyGrown(s, k, cursor);
    case _ => SameGrown(s, Step(c, s, e));
  }

  lemma SameGrown(s: State, s': State)
    requires s.now <= s'.now && forall k :: k in s'.tasks ==> k in s.tasks && s'.tasks[k] == s.tasks[k]
    ensures Grown(s, s')
  {
  }

  lemma StepOrdered(c: Config, s: State, e: Event)
    requires Once(s) && Ordered(s) && Enabled(c, s, e)
    ensures Ordered(Step(c, s, e))
  {
    StepGrown(c, s, e);
    GrownOrdered(s, Step(c, s, e));
  }

  lemma {:induction false} IssueOrderKeepsUp(c: Config, s: State, es: seq<Event>)
    requires Once(s) && Ordered(s) && Run(c, IssueOrder, s, es)
    ensures Run(c, NoOvertaking, s, es) && After(c, NoOvertaking, s, es) == After(c, IssueOrder, s, es)
    decreases |es|
  {
    if es != [] {
      StepKeepsOnce(c, s, es[0]);
      StepOrdered(c, s, es[0]);
      IssueOrderKeepsUp(c, Step(c, s, es[0]), es[1..]);
    }
  }

  /** In the order of issue no query overtakes, so recorded checks are in place. */
  lemma ChecksInIssueOrder(c: Config, es: seq<Event>, id: string, i: nat)
    requires Run(c, IssueOrder, INITIAL, es)
    requires id in After(c, IssueOrder, INITIAL, es).db && i < |After(c, IssueOrder, INITIAL, es).db[id].checks|
    ensures var doc := After(c, IssueOrder, INITIAL, es).db[id];
            && doc.time + c.maxTime < doc.checks[i].time
            && forall j :: 0 <= j < |doc.captures| ==> doc.checks[i].time <= doc.captures[j].time
  {
    IssueOrderKeepsUp(c, INITIAL, es);
    RecordedChecks(c, es, id, i);
  }
}

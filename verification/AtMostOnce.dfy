/**
 Looking a flag up and recording its capture are two database operations. A team is on a flag's list
 at most once as long as it never has two submissions of that flag under way, and only then.
 */
module AtMostOnce {
  import opened GameTypes
  import opened DaemonSteps
  import opened Ledger

  ghost predicate Listed(captures: seq<Capture>, team: string) {
    exists i :: 0 <= i < |captures| && captures[i].team == team
  }

  lemma {:induction false} ListedCounts(captures: seq<Capture>, team: string)
    ensures Listed(captures, team) <==> CapturesBy(captures, team) > 0
  {
    if captures != [] {
      var n := |captures| - 1;
      ListedCounts(captures[..n], team);
      if Listed(captures[..n], team) {
        var i :| 0 <= i < n && captures[..n][i].team == team;
        assert captures[i].team == team;
      }
      if Listed(captures, team) && captures[n].team != team {
        var i :| 0 <= i < |captures| && captures[i].team == team;
        assert captures[..n][i].team == team;
      }
    }
  }

  lemma CountAfterPush(captures: seq<Capture>, capture: Capture, team: string)
    ensures CapturesBy(captures + [capture], team)
         == CapturesBy(captures, team) + if capture.team == team then 1 else 0
  {
    assert (captures + [capture])[..|captures|] == captures;
  }

  /** What a pending submission knows about the list it was read from. */
  ghost predicate Current(s: State, t: Task) {
    match t
    case Found(team, id, Some(d)) =>
      id in s.db && Listed(s.db[id].captures, team) ==> Listed(d.captures, team)
    case PushCapture(team, id, _) => id in s.db ==> !Listed(s.db[id].captures, team)
    case _ => true
  }

  ghost predicate Solo(s: State) {
    && (forall j, k :: j in s.tasks && k in s.tasks && j != k && Submission(s.tasks[j]).Some?
          ==> Submission(s.tasks[j]) != Submission(s.tasks[k]))
    && (forall k :: k in s.tasks ==> Current(s, s.tasks[k]))
    && (forall id, team :: id in s.db ==> CapturesBy(s.db[id].captures, team) <= 1)
  }

  /** A step that starts no submission, moves none along and records no capture. */
  ghost predicate Quiet(s: State, s': State) {
    && (forall k :: k in s'.tasks && Submission(s'.tasks[k]).Some? ==> k in s.tasks && s'.tasks[k] == s.tasks[k])
    && s.db.Keys <= s'.db.Keys
    && (forall id :: id in s'.db ==> s'.db[id].captures == if id in s.db then s.db[id].captures else [])
  }

  lemma QuietKeepsSolo(s: State, s': State)
    requires Solo(s) && Quiet(s, s')
    ensures Solo(s')
  {
    forall k | k in s'.tasks ensures Current(s', s'.tasks[k]) {
      if Submission(s'.tasks[k]).Some? {
        assert Current(s, s.tasks[k]);
      }
    }
    forall id, team | id in s'.db ensures CapturesBy(s'.db[id].captures, team) <= 1 {
      if id in s.db {
        assert CapturesBy(s.db[id].captures, team) <= 1;
      }
    }
  }

  lemma {:induction false} QuietChecks(s: State, ids: seq<string>, at: int)
    requires forall k :: k in s.tasks ==> k < s.next
    ensures Quiet(s, EnqueueChecks(s, ids, at))
    decreases |ids|
  {
    if ids != [] {
      QuietChecks(Enqueue(s, Checking(ids[0], at)), ids[1..], at);
    }
  }

  lemma {:induction false} QuietPlanting(s: State, pairs: seq<(string, string)>, choices: seq<(string, string)>)
    requires |pairs| == |choices|
    requires forall k :: k in s.tasks ==> k < s.next
    ensures Quiet(s, PlantAll(s, pairs, choices))
    decreases |pairs|
  {
    if pairs != [] {
      QuietPlanting(PlantOne(s, pairs[0], choices[0]), pairs[1..], choices[1..]);
    }
  }

  lemma SubmitKeepsSolo(s: State, team: string, id: string)
    requires Once(s) && Solo(s)
    requires forall k :: k in s.tasks ==> Submission(s.tasks[k]) != Some((team, id))
    ensures Solo(Enqueue(s, FindFlag(team, id)))
  {
    var s' := Enqueue(s, FindFlag(team, id));
    forall k | k in s'.tasks ensures Current(s', s'.tasks[k]) {
      assert k in s.tasks ==> Current(s, s.tasks[k]);
    }
  }

  lemma LookupKeepsSolo(s: State, k: int)
    requires Once(s) && Solo(s) && k in s.tasks && s.tasks[k].Found?
    ensures Solo(OnFound(s, k))
  {
    var s' := OnFound(s, k);
    var t := s.tasks[k];
    if Accepts(s, t.team, t.snapshot) {
      assert Current(s, t);
      assert !Listed(t.snapshot.value.captures, t.team);
    }
    forall j | j in s'.tasks ensures Current(s', s'.tasks[j]) {
      assert j in s.tasks ==> Current(s, s.tasks[j]);
    }
  }

  lemma AnswerKeepsSolo(s: State, k: int)
    requires Solo(s) && k in s.tasks && s.tasks[k].FindFlag?
    ensures Solo(ApplyTask(s, k, []))
  {
    var s' := ApplyTask(s, k, []);
    forall j | j in s'.tasks ensures Current(s', s'.tasks[j]) {
      assert Current(s, s.tasks[j]);
    }
  }

  lemma RecordKeepsSolo(s: State, k: int)
    requires Solo(s) && k in s.tasks && s.tasks[k].PushCapture?
    ensures Solo(ApplyTask(s, k, []))
  {
    var s' := ApplyTask(s, k, []);
    var t := s.tasks[k];
    assert Current(s, t);
    if t.id in s.db {
      var was := s.db[t.id].captures;
      assert s'.db[t.id].captures == was + [Capture(t.team, t.at)];
      forall team ensures CapturesBy(s'.db[t.id].captures, team) <= 1 {
        CountAfterPush(was, Capture(t.team, t.at), team);
        ListedCounts(was, t.team);
        assert CapturesBy(was, team) <= 1;
      }
      forall j | j in s'.tasks ensures Current(s', s'.tasks[j]) {
        OtherStaysCurrent(s, k, j);
      }
    } else {
      QuietKeepsSolo(s, s');
    }
  }

  lemma OtherStaysCurrent(s: State, k: int, j: int)
    requires Solo(s) && k in s.tasks && s.tasks[k].PushCapture? && s.tasks[k].id in s.db
    requires j in s.tasks && j != k
    ensures Current(ApplyTask(s, k, []), s.tasks[j])
  {
    var t, other := s.tasks[k], s.tasks[j];
    assert Current(s, other);
    assert Submission(other) != Submission(t);
    var was := s.db[t.id].captures;
    forall team | team != t.team && Listed(was + [Capture(t.team, t.at)], team) ensures Listed(was, team) {
      var i :| 0 <= i <= |was| && (was + [Capture(t.team, t.at)])[i].team == team;
      assert was[i].team == team;
    }
  }

  lemma ApplyKeepsSolo(s: State, k: int, cursor: seq<string>)
    requires Once(s) && Solo(s) && k in s.tasks && IsDbOp(s.tasks[k])
    ensures Solo(ApplyTask(s, k, cursor))
  {
    var s' := ApplyTask(s, k, cursor);
    match s.tasks[k]
    case PushCapture(_, _, _) => RecordKeepsSolo(s, k);
    case FindFlag(_, _) => AnswerKeepsSolo(s, k);
    case FindUncaptured(_, at) =>
      QuietChecks(Finish(s, k), cursor, at);
      QuietKeepsSolo(s, s');
    case _ => QuietKeepsSolo(s, s');
  }

  lemma StepKeepsSolo(c: Config, s: State, e: Event)
    requires Once(s) && Solo(s) && Enabled(c, s, e) && Allowed(OneInFlight, s, e)
    ensures Solo(Step(c, s, e))
  {
    assert forall k :: k in s.tasks ==> k < s.next;
    hide Once, Solo;
    match e
    case Plant(choices) =>
      QuietPlanting(s.(latest := Some(s.now), rounds := s.rounds + [s.now]), Grid(c.services, c.teams), choices);
      QuietKeepsSolo(s, Step(c, s, e));
    case FlagLine(conn, id) =>
      if s.connections[conn].Some? { SubmitKeepsSolo(s, s.connections[conn].value, id); }
    case LookupDone(k) => LookupKeepsSolo(s, k);
    case Apply(k, cursor) => ApplyKeepsSolo(s, k, cursor);
    case _ => QuietKeepsSolo(s, Step(c, s, e));
  }

  lemma {:induction false} RunKeepsSolo(c: Config, s: State, es: seq<Event>)
    requires Once(s) && Solo(s) && Run(c, OneInFlight, s, es)
    ensures Solo(After(c, OneInFlight, s, es))
    decreases |es|
  {
    if es != [] {
      StepKeepsOnce(c, s, es[0]);
      StepKeepsSolo(c, s, es[0]);
      RunKeepsSolo(c, Step(c, s, es[0]), es[1..]);
    }
  }

  /** Without overlapping submissions every team is on every flag's list at most once. */
  lemma AtMostOneCapture(c: Config, es: seq<Event>, id: string, team: string)
    requires Run(c, OneInFlight, INITIAL, es)
    requires id in After(c, OneInFlight, INITIAL, es).db
    ensures CapturesBy(After(c, OneInFlight, INITIAL, es).db[id].captures, team) <= 1
  {
    RunKeepsSolo(c, INITIAL, es);
  }

  /** The flag can still be captured by the team. */
  ghost predicate Capturable(s: State, id: string, team: string) {
    id in s.db && Accepts(s, team, Some(s.db[id]))
  }

  lemma BothLookedUp(c: Config, s: State, id: string, team: string, j: int, k: int) returns (s': State)
    requires id in s.db && j in s.tasks && k in s.tasks && j != k
    requires s.tasks[j] == FindFlag(team, id) == s.tasks[k]
    ensures Reaches(c, Free, s, s')
    ensures s' == s.(tasks := s'.tasks) && s'.tasks.Keys == s.tasks.Keys
    ensures s'.tasks[j] == Found(team, id, Some(s.db[id])) == s'.tasks[k]
  {
    s' := Step(c, Step(c, s, Apply(j, [])), Apply(k, []));
    ReachesTwoSteps(c, Free, s, Apply(j, []), Apply(k, []));
  }

  lemma BothAccepted(c: Config, s: State, id: string, team: string, j: int, k: int) returns (s': State)
    requires (forall i :: i in s.tasks ==> i < s.next) && Capturable(s, id, team)
    requires j in s.tasks && k in s.tasks && j != k
    requires s.tasks[j] == Found(team, id, Some(s.db[id])) == s.tasks[k]
    ensures Reaches(c, Free, s, s')
    ensures s'.db == s.db && s.next in s'.tasks && s.next + 1 in s'.tasks
    ensures s'.tasks[s.next] == PushCapture(team, id, s.now) == s'.tasks[s.next + 1]
  {
    s' := Step(c, Step(c, s, LookupDone(j)), LookupDone(k));
    ReachesTwoSteps(c, Free, s, LookupDone(j), LookupDone(k));
  }

  lemma BothRecorded(c: Config, s: State, id: string, capture: Capture, j: int, k: int) returns (s': State)
    requires id in s.db && j in s.tasks && k in s.tasks && j != k
    requires s.tasks[j] == PushCapture(capture.team, id, capture.time) == s.tasks[k]
    ensures Reaches(c, Free, s, s')
    ensures id in s'.db && s'.db[id].captures == s.db[id].captures + [capture] + [capture]
  {
    s' := Step(c, Step(c, s, Apply(j, [])), Apply(k, []));
    ReachesTwoSteps(c, Free, s, Apply(j, []), Apply(k, []));
  }

  lemma OverlapCountsTwice(c: Config, s: State, id: string, team: string, j: int, k: int) returns (s': State)
    requires (forall i :: i in s.tasks ==> i < s.next) && Capturable(s, id, team)
    requires j in s.tasks && k in s.tasks && j != k
    requires s.tasks[j] == FindFlag(team, id) == s.tasks[k]
    ensures Reaches(c, Free, s, s') && id in s'.db && CapturesBy(s'.db[id].captures, team) == 2
  {
    var s2 := BothLookedUp(c, s, id, team, j, k);
    var s4 := BothAccepted(c, s2, id, team, j, k);
    var capture := Capture(team, s.now);
    s' := BothRecorded(c, s4, id, capture, s.next, s.next + 1);
    ReachesTrans(c, Free, s, s2, s4);
    ReachesTrans(c, Free, s, s4, s');
    var was := s.db[id].captures;
    CountAfterPush(was + [capture], capture, team);
    CountAfterPush(was, capture, team);
    ListedCounts(was, team);
  }

  /**
   Whenever a connected team may capture a flag, sending it twice without waiting lets some schedule
   of the daemon's own steps list the team twice. This is why AtMostOneCapture needs its condition.
   */
  lemma OverlapCanCountTwice(c: Config, s: State, conn: nat, id: string, team: string)
    requires Once(s) && Capturable(s, id, team)
    requires conn in s.connections && s.connections[conn] == Some(team)
    ensures exists s' :: Reaches(c, Free, s, s') && id in s'.db && CapturesBy(s'.db[id].captures, team) == 2
  {
    var line := FlagLine(conn, id);
    var twice := Step(c, Step(c, s, line), line);
    ReachesTwoSteps(c, Free, s, line, line);
    var s' := OverlapCountsTwice(c, twice, id, team, s.next, s.next + 1);
    ReachesTrans(c, Free, s, twice, s');
  }

  const TWO_TEAMS := Config(["Ring0", "Pwnies"], ["HighLow"], 10000)

  lemma PlantTwo(s: State, a: (string, string), b: (string, string), m: (string, string), n: (string, string))
    ensures PlantAll(s, [a, b], [m, n]) == PlantOne(PlantOne(s, a, m), b, n)
  {
    assert [a, b][1..] == [b] && [m, n][1..] == [n];
    assert PlantAll(PlantOne(s, a, m), [b], [n]) == PlantOne(PlantOne(s, a, m), b, n);
  }

  lemma TwoTeamsGrid()
    ensures Grid(TWO_TEAMS.services, TWO_TEAMS.teams) == [("HighLow", "Ring0"), ("HighLow", "Pwnies")]
  {
    assert Row("HighLow", TWO_TEAMS.teams) == [("HighLow", "Ring0"), ("HighLow", "Pwnies")];
    assert Grid(TWO_TEAMS.services[1..], TWO_TEAMS.teams) == [];
  }

  lemma PwniesConnect() returns (s: State)
    ensures Reaches(TWO_TEAMS, Free, INITIAL, s)
    ensures s == INITIAL.(connections := map[0 := Some("Pwnies")])
  {
    s := Step(TWO_TEAMS, Step(TWO_TEAMS, INITIAL, Connect(0)), TeamLine(0, "Pwnies"));
    ReachesTwoSteps(TWO_TEAMS, Free, INITIAL, Connect(0), TeamLine(0, "Pwnies"));
  }

  lemma FirstRound(s1: State) returns (s: State)
    requires s1 == INITIAL.(connections := map[0 := Some("Pwnies")])
    ensures Reaches(TWO_TEAMS, Free, s1, s) && Once(s)
    ensures Capturable(s, "A0", "Pwnies") && 0 in s.connections && s.connections[0] == Some("Pwnies")
    ensures s.now == 0 && s.db.Keys == {"A0"} && s.db["A0"].captures == [] && s.db["A0"].time == 0
  {
    var c, n, m := TWO_TEAMS, ("n", "A0"), ("m", "A1");
    TwoTeamsGrid();
    var s2 := Step(c, s1, Plant([n, m]));
    var started := s1.(latest := Some(0), rounds := [0]);
    PlantTwo(started, ("HighLow", "Ring0"), ("HighLow", "Pwnies"), n, m);
    assert started == s1.(latest := Some(s1.now), rounds := s1.rounds + [s1.now]);
    var doc := NewDoc(Planted("A0", "n", "Ring0", "HighLow", 0));
    assert 0 in s2.tasks && s2.tasks[0] == Save(doc);
    s := Step(c, s2, Apply(0, []));
    assert s.db["A0"] == doc;
    OnceTwoSteps(c, s1, Plant([n, m]), Apply(0, []));
  }

  lemma OnceTwoSteps(c: Config, s: State, e: Event, e': Event)
    requires s == INITIAL.(connections := s.connections)
    requires Enabled(c, s, e) && Allowed(Free, s, e)
    requires Enabled(c, Step(c, s, e), e') && Allowed(Free, Step(c, s, e), e')
    ensures Reaches(c, Free, s, Step(c, Step(c, s, e), e')) && Once(Step(c, Step(c, s, e), e'))
  {
    OnceAtFirst(s);
    hide Once, Reaches, Enabled, Step;
    ReachesTwoSteps(c, Free, s, e, e');
    StepKeepsOnce(c, s, e);
    StepKeepsOnce(c, Step(c, s, e), e');
  }

  lemma OnceAtFirst(s: State)
    requires s == INITIAL.(connections := s.connections)
    ensures Once(s)
  {
  }

  /** A capturable flag and a connected team do come about in four steps from the start. */
  lemma FirstFlagIsCapturable() returns (s: State)
    ensures Reaches(TWO_TEAMS, Free, INITIAL, s) && Once(s)
    ensures Capturable(s, "A0", "Pwnies") && 0 in s.connections && s.connections[0] == Some("Pwnies")
    ensures s.now == 0 && s.db.Keys == {"A0"} && s.db["A0"].captures == [] && s.db["A0"].time == 0
  {
    hide Reaches, Once;
    var s1 := PwniesConnect();
    s := FirstRound(s1);
    ReachesTrans(TWO_TEAMS, Free, INITIAL, s1, s);
  }

  /** The concrete failure: one flag, one team, two captures on record. */
  lemma DoubleCaptureHappens()
    ensures exists s' :: Reaches(TWO_TEAMS, Free, INITIAL, s') && "A0" in s'.db &&
                         CapturesBy(s'.db["A0"].captures, "Pwnies") == 2
  {
    var s := FirstFlagIsCapturable();
    OverlapCanCountTwice(TWO_TEAMS, s, 0, "A0", "Pwnies");
    var s' :| Reaches(TWO_TEAMS, Free, s, s') && "A0" in s'.db && CapturesBy(s'.db["A0"].captures, "Pwnies") == 2;
    ReachesTrans(TWO_TEAMS, Free, INITIAL, s, s');
  }
}

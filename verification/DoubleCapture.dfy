/** When a team is listed twice for a flag: exactly when a lookup is accepted too late. */
module DoubleCapture {
  import opened GameTypes
  import opened DaemonSteps
  import opened Ledger
  import opened CaptureSafety
  import opened AtMostOnce
  import opened UnderWay

  /** Waiting pushes are for teams not on the list, no two of them alike, and no team is on a list twice. */
  ghost predicate Sole(s: State) {
    && (forall j, k :: j in s.tasks && k in s.tasks && j != k && s.tasks[j].PushCapture? && s.tasks[k].PushCapture?
          ==> Submission(s.tasks[j]) != Submission(s.tasks[k]))
    && (forall k :: k in s.tasks && s.tasks[k].PushCapture? && s.tasks[k].id in s.db
          ==> !Listed(s.db[s.tasks[k].id].captures, s.tasks[k].team))
    && (forall id, team :: id in s.db ==> CapturesBy(s.db[id].captures, team) <= 1)
  }

  /** A step that issues no push and records no capture. */
  ghost predicate Calm(s: State, s': State) {
    && (forall k :: k in s'.tasks && s'.tasks[k].PushCapture? ==> k in s.tasks && s'.tasks[k] == s.tasks[k])
    && (forall id :: id in s'.db ==> s'.db[id].captures == if id in s.db then s.db[id].captures else [])
    && s.db.Keys <= s'.db.Keys
  }

  lemma CalmKeepsSole(s: State, s': State)
    requires Sole(s) && Calm(s, s')
    ensures Sole(s')
  {
    forall id, team | id in s'.db ensures CapturesBy(s'.db[id].captures, team) <= 1 {
      if id in s.db { assert CapturesBy(s.db[id].captures, team) <= 1; }
    }
  }

  lemma AcceptKeepsSole(s: State, k: int)
    requires Once(s) && Sole(s) && k in s.tasks && s.tasks[k].Found? && FirstAccept(s, k)
    ensures Sole(OnFound(s, k))
  {
    var t := s.tasks[k];
    if !Accepts(s, t.team, t.snapshot) { CalmKeepsSole(s, OnFound(s, k)); }
  }

  lemma RecordKeepsSole(s: State, k: int)
    requires Sole(s) && k in s.tasks && s.tasks[k].PushCapture?
    ensures Sole(ApplyTask(s, k, []))
  {
    var s', t := ApplyTask(s, k, []), s.tasks[k];
    if t.id in s.db {
      var was := s.db[t.id].captures;
      assert s'.db[t.id].captures == was + [Capture(t.team, t.at)];
      forall team ensures CapturesBy(s'.db[t.id].captures, team) <= 1 {
        CountAfterPush(was, Capture(t.team, t.at), team);
        ListedCounts(was, t.team);
        assert CapturesBy(was, team) <= 1;
      }
      forall j | j in s'.tasks && s'.tasks[j].PushCapture? && s'.tasks[j].id == t.id
        ensures !Listed(s'.db[t.id].captures, s'.tasks[j].team)
      {
        ListedAfterPush(was, Capture(t.team, t.at), s'.tasks[j].team);
      }
    } else {
      CalmKeepsSole(s, s');
    }
  }

  lemma ListedAfterPush(captures: seq<Capture>, capture: Capture, team: string)
    ensures Listed(captures + [capture], team) <==> Listed(captures, team) || capture.team == team
  {
    CountAfterPush(captures, capture, team);
    ListedCounts(captures, team);
    ListedCounts(captures + [capture], team);
  }

  lemma ApplyKeepsSole(s: State, k: int, cursor: seq<string>)
    requires Once(s) && Sole(s) && k in s.tasks && IsDbOp(s.tasks[k])
    ensures Sole(ApplyTask(s, k, cursor))
  {
    assert forall j :: j in s.tasks ==> j < s.next;
    OnceUses(s, k);
    hide Once, Sole, Reported;
    match s.tasks[k]
    case PushCapture(_, _, _) => RecordKeepsSole(s, k);
    case FindUncaptured(_, at) =>
      QuietChecks(Finish(s, k), cursor, at);
      CalmKeepsSole(s, ApplyTask(s, k, cursor));
    case Save(_) => CalmKeepsSole(s, ApplyTask(s, k, cursor));
    case SetDelivered(_, _) => CalmKeepsSole(s, ApplyTask(s, k, cursor));
    case PushCheck(_, _) => CalmKeepsSole(s, ApplyTask(s, k, cursor));
    case FindFlag(_, _) => CalmKeepsSole(s, ApplyTask(s, k, cursor));
    case _ =>
  }

  /** Starting work that is no push. */
  lemma EnqueueKeepsSole(s: State, s': State, t: Task)
    requires Sole(s) && s'.db == s.db && !t.PushCapture?
    requires forall k :: k in s'.tasks ==> k in s.tasks && s'.tasks[k] == s.tasks[k]
    ensures Sole(Enqueue(s', t))
  {
    CalmKeepsSole(s, Enqueue(s', t));
  }

  lemma StepKeepsSole(c: Config, s: State, e: Event)
    requires Once(s) && Sole(s) && Enabled(c, s, e) && Allowed(FirstAccepts, s, e)
    ensures Sole(Step(c, s, e))
  {
    assert forall k :: k in s.tasks ==> k < s.next;
    hide Once, Sole;
    match e
    case Plant(choices) =>
      QuietPlanting(s.(latest := Some(s.now), rounds := s.rounds + [s.now]), Grid(c.services, c.teams), choices);
      CalmKeepsSole(s, Step(c, s, e));
    case PlantDone(id, status) =>
      EnqueueKeepsSole(s, s.(planting := s.planting - {id}), SetDelivered(id, status == Exit(0)));
    case CheckRound =>
      if s.latest.Some? { EnqueueKeepsSole(s, s, FindUncaptured(s.latest.value, s.now)); }
    case CheckDone(k, status) =>
      EnqueueKeepsSole(s, Finish(s, k), PushCheck(s.tasks[k].id, Check(s.tasks[k].at, status == Exit(0))));
    case FlagLine(conn, id) =>
      if s.connections[conn].Some? { EnqueueKeepsSole(s, s, FindFlag(s.connections[conn].value, id)); }
    case LookupDone(k) => AcceptKeepsSole(s, k);
    case Apply(k, cursor) => ApplyKeepsSole(s, k, cursor);
    case _ => CalmKeepsSole(s, Step(c, s, e));
  }

  lemma {:induction false} RunKeepsSole(c: Config, s: State, es: seq<Event>)
    requires Once(s) && Sole(s) && Run(c, FirstAccepts, s, es)
    ensures Once(After(c, FirstAccepts, s, es)) && Sole(After(c, FirstAccepts, s, es))
    decreases |es|
  {
    if es != [] {
      StepKeepsOnce(c, s, es[0]);
      StepKeepsSole(c, s, es[0]);
      RunKeepsSole(c, Step(c, s, es[0]), es[1..]);
    }
  }

  /** A team is on a flag's list more than once. */
  ghost predicate ListedTwice(s: State, id: string, team: string) {
    id in s.db && CapturesBy(s.db[id].captures, team) > 1
  }

  // ----- the other direction

  /** A push for this team and flag waits under ticket `p`. */
  ghost predicate PushWaits(s: State, id: string, team: string, p: int) {
    id in s.db && p in s.tasks && s.tasks[p].PushCapture? && s.tasks[p].id == id && s.tasks[p].team == team
  }

  lemma PushRecorded(c: Config, s: State, id: string, team: string, p: int) returns (s': State)
    requires PushWaits(s, id, team, p)
    ensures Reaches(c, FirstAccepts, s, s') && id in s'.db && s'.tasks == s.tasks - {p}
    ensures CapturesBy(s'.db[id].captures, team) == CapturesBy(s.db[id].captures, team) + 1
  {
    hide Reaches;
    s' := Step(c, s, Apply(p, []));
    ReachesStep(c, FirstAccepts, s, Apply(p, []));
    CountAfterPush(s.db[id].captures, Capture(team, s.tasks[p].at), team);
  }

  lemma PushBreaks(c: Config, s: State, id: string, team: string, p: int) returns (s': State)
    requires PushWaits(s, id, team, p) && Listed(s.db[id].captures, team)
    ensures Reaches(c, FirstAccepts, s, s') && ListedTwice(s', id, team)
  {
    hide Reaches;
    s' := PushRecorded(c, s, id, team, p);
    ListedCounts(s.db[id].captures, team);
  }

  lemma TwoPushesBreak(c: Config, s: State, id: string, team: string, p: int, q: int) returns (s': State)
    requires PushWaits(s, id, team, p) && PushWaits(s, id, team, q) && p != q
    ensures Reaches(c, FirstAccepts, s, s') && ListedTwice(s', id, team)
  {
    hide Reaches;
    var s1 := PushRecorded(c, s, id, team, p);
    s' := PushRecorded(c, s1, id, team, q);
    ReachesTrans(c, FirstAccepts, s, s1, s');
  }

  /** An acceptance that comes too late leaves the team on the list twice once the pushes are carried out. */
  lemma LateAcceptBreaks(c: Config, s: State, k: int) returns (s': State)
    requires Good(c, s) && k in s.tasks && s.tasks[k].Found? && !FirstAccept(s, k)
    ensures Reaches(c, FirstAccepts, OnFound(s, k), s')
    ensures ListedTwice(s', s.tasks[k].id, s.tasks[k].team)
    ensures Step(c, s, LookupDone(k)) == OnFound(s, k)
  {
    var t := s.tasks[k];
    assert TaskGood(c, s, t) && forall j :: j in s.tasks ==> j < s.next;
    hide Once, Good, Reaches, ListedTwice;
    if Listed(s.db[t.id].captures, t.team) {
      s' := PushBreaks(c, OnFound(s, k), t.id, t.team, s.next);
    } else {
      var p :| p in s.tasks && s.tasks[p].PushCapture? && Submission(s.tasks[p]) == Some((t.team, t.id));
      s' := TwoPushesBreak(c, OnFound(s, k), t.id, t.team, p, s.next);
    }
  }

  lemma AtStart(c: Config)
    ensures Good(c, INITIAL) && Once(INITIAL) && Sole(INITIAL)
  {
  }

  /**
   Up to now every acceptance was in time, and a lookup has come back. If it is in time too, no team will
   be on a list twice unless a later one is not; otherwise that can happen without any further one.
   */
  lemma ExactlyWhen(c: Config, es: seq<Event>, k: int)
    requires Run(c, FirstAccepts, INITIAL, es)
    requires k in After(c, FirstAccepts, INITIAL, es).tasks && After(c, FirstAccepts, INITIAL, es).tasks[k].Found?
    ensures var s := After(c, FirstAccepts, INITIAL, es);
            FirstAccept(s, k) <==>
            forall s', id, team :: Reaches(c, FirstAccepts, Step(c, s, LookupDone(k)), s') ==> !ListedTwice(s', id, team)
  {
    hide Once, Good, Sole, Step, FirstAccept, ListedTwice;
    var s, lookup := After(c, FirstAccepts, INITIAL, es), LookupDone(k);
    AtStart(c);
    RunGood(c, FirstAccepts, INITIAL, es);
    RunKeepsSole(c, INITIAL, es);
    if FirstAccept(s, k) {
      StepKeepsOnce(c, s, lookup);
      StepKeepsSole(c, s, lookup);
      forall s', id, team | Reaches(c, FirstAccepts, Step(c, s, lookup), s') ensures !ListedTwice(s', id, team) {
        var es' :| Run(c, FirstAccepts, Step(c, s, lookup), es') && After(c, FirstAccepts, Step(c, s, lookup), es') == s';
        RunKeepsSole(c, Step(c, s, lookup), es');
        SoleMeansNone(s', id, team);
      }
    } else {
      var s' := LateAcceptBreaks(c, s, k);
    }
  }

  lemma SoleMeansNone(s: State, id: string, team: string)
    requires Sole(s)
    ensures !ListedTwice(s, id, team)
  {
  }

  // ----- over whole runs

  /** The team is on the list twice once the pushes that wait are carried out. */
  ghost predicate TwiceDue(s: State, id: string, team: string) {
    || ListedTwice(s, id, team)
    || (exists p :: PushWaits(s, id, team, p) && Listed(s.db[id].captures, team))
    || (exists p, q :: PushWaits(s, id, team, p) && PushWaits(s, id, team, q) && p != q)
  }

  lemma {:induction false} CountGrows(before: seq<Capture>, after: seq<Capture>, team: string)
    requires before <= after
    ensures CapturesBy(before, team) <= CapturesBy(after, team)
    decreases |after|
  {
    if before != after {
      CountGrows(before, after[..|after| - 1], team);
    }
  }

  lemma PushWaitsOn(s: State, s': State, k: int, id: string, team: string, p: int)
    requires Carries(s, s', k) && PushWaits(s, id, team, p) && p != k
    ensures PushWaits(s', id, team, p)
  {
  }

  /** A push that is carried out puts its team on the list, once more if it was there. */
  lemma PushLands(s: State, id: string, team: string, p: int)
    requires PushWaits(s, id, team, p)
    ensures var s' := ApplyTask(s, p, []);
            && id in s'.db && Listed(s'.db[id].captures, team)
            && (Listed(s.db[id].captures, team) ==> ListedTwice(s', id, team))
  {
    CountAfterPush(s.db[id].captures, Capture(team, s.tasks[p].at), team);
    ListedCounts(s.db[id].captures, team);
    ListedCounts(s.db[id].captures + [Capture(team, s.tasks[p].at)], team);
  }

  /** A step that leaves a waiting push waiting, or carries it out. */
  lemma WaitsOrLands(c: Config, s: State, e: Event, id: string, team: string, p: int)
    requires Once(s) && Enabled(c, s, e) && PushWaits(s, id, team, p)
    ensures PushWaits(Step(c, s, e), id, team, p)
         || (Step(c, s, e) == ApplyTask(s, p, []) && Completed(s, e) == p)
  {
    assert forall j :: j in s.tasks ==> j < s.next;
    StepCarries(c, s, e);
    hide Once, Carries;
    if Completed(s, e) == p {
      match e
      case Apply(k, cursor) => assert ApplyTask(s, k, cursor) == ApplyTask(s, k, []);
      case _ =>
    } else {
      PushWaitsOn(s, Step(c, s, e), Completed(s, e), id, team, p);
    }
  }

  lemma ListedOn(s: State, s': State, k: int, id: string, team: string)
    requires Carries(s, s', k) && id in s.db
    ensures id in s'.db
    ensures Listed(s.db[id].captures, team) ==> Listed(s'.db[id].captures, team)
    ensures ListedTwice(s, id, team) ==> ListedTwice(s', id, team)
  {
    CountGrows(s.db[id].captures, s'.db[id].captures, team);
    ListedCounts(s.db[id].captures, team);
    ListedCounts(s'.db[id].captures, team);
  }

  lemma DueKnown(s: State, id: string, team: string)
    requires TwiceDue(s, id, team)
    ensures id in s.db
  {
  }

  /** Nothing that happens can avert it. */
  lemma StepKeepsDue(c: Config, s: State, e: Event, id: string, team: string)
    requires Once(s) && Enabled(c, s, e) && TwiceDue(s, id, team)
    ensures TwiceDue(Step(c, s, e), id, team)
  {
    var s', k := Step(c, s, e), Completed(s, e);
    StepCarries(c, s, e);
    DueKnown(s, id, team);
    hide Once, Carries, ListedTwice, Listed, PushWaits, Step, ApplyTask;
    ListedOn(s, s', k, id, team);
    if p :| PushWaits(s, id, team, p) && Listed(s.db[id].captures, team) {
      WaitsOrLands(c, s, e, id, team, p);
      if !PushWaits(s', id, team, p) { PushLands(s, id, team, p); }
    } else if p, q :| PushWaits(s, id, team, p) && PushWaits(s, id, team, q) && p != q {
      WaitsOrLands(c, s, e, id, team, p);
      WaitsOrLands(c, s, e, id, team, q);
      if !PushWaits(s', id, team, p) {
        PushLands(s, id, team, p);
      } else if !PushWaits(s', id, team, q) {
        PushLands(s, id, team, q);
      }
    }
  }

  lemma {:induction false} RunKeepsDue(c: Config, s: State, es: seq<Event>, id: string, team: string)
    requires Once(s) && Run(c, Free, s, es) && TwiceDue(s, id, team)
    ensures TwiceDue(After(c, Free, s, es), id, team)
    decreases |es|
  {
    if es != [] {
      StepKeepsOnce(c, s, es[0]);
      StepKeepsDue(c, s, es[0], id, team);
      RunKeepsDue(c, Step(c, s, es[0]), es[1..], id, team);
    }
  }

  lemma LateAcceptDue(c: Config, s: State, k: int)
    requires Once(s) && Good(c, s) && k in s.tasks && s.tasks[k].Found? && !FirstAccept(s, k)
    ensures TwiceDue(OnFound(s, k), s.tasks[k].id, s.tasks[k].team)
  {
    var t, s' := s.tasks[k], OnFound(s, k);
    assert TaskGood(c, s, t) && forall j :: j in s.tasks ==> j < s.next;
    hide Once, Good;
    assert PushWaits(s', t.id, t.team, s.next);
    if !Listed(s.db[t.id].captures, t.team) {
      var p :| p in s.tasks && s.tasks[p].PushCapture? && Submission(s.tasks[p]) == Some((t.team, t.id));
      assert PushWaits(s', t.id, t.team, p);
    }
  }

  /** A run with a late acceptance ends with some team listed twice or about to be. */
  lemma {:induction false} LateRunDue(c: Config, s: State, es: seq<Event>) returns (id: string, team: string)
    requires Once(s) && Good(c, s) && Run(c, Free, s, es) && !Run(c, FirstAccepts, s, es)
    ensures TwiceDue(After(c, Free, s, es), id, team)
    decreases |es|
  {
    hide Once, Good, TwiceDue;
    var s' := Step(c, s, es[0]);
    StepKeepsOnce(c, s, es[0]);
    StepGood(c, s, es[0]);
    if Allowed(FirstAccepts, s, es[0]) {
      id, team := LateRunDue(c, s', es[1..]);
    } else {
      id, team := s.tasks[es[0].k].id, s.tasks[es[0].k].team;
      LateAcceptDue(c, s, es[0].k);
      RunKeepsDue(c, s', es[1..], id, team);
    }
  }

  lemma SoleMeansNoneDue(s: State, id: string, team: string)
    requires Sole(s)
    ensures !TwiceDue(s, id, team)
  {
  }

  /**
   After every run some team is listed twice, or will be once the waiting pushes are carried out, exactly if
   some lookup of the run was accepted too late.
   */
  lemma TwiceIffLate(c: Config, es: seq<Event>)
    requires Run(c, Free, INITIAL, es)
    ensures (exists id, team :: TwiceDue(After(c, Free, INITIAL, es), id, team)) <==> !Run(c, FirstAccepts, INITIAL, es)
  {
    hide Once, Good, Sole, TwiceDue;
    AtStart(c);
    if Run(c, FirstAccepts, INITIAL, es) {
      FreeRun(c, FirstAccepts, INITIAL, es);
      RunKeepsSole(c, INITIAL, es);
      forall id, team ensures !TwiceDue(After(c, Free, INITIAL, es), id, team) {
        SoleMeansNoneDue(After(c, Free, INITIAL, es), id, team);
      }
    } else {
      var id, team := LateRunDue(c, INITIAL, es);
    }
  }

  /** When no push waits any more, some team is listed twice exactly if some lookup was accepted too late. */
  lemma ListedTwiceIffLate(c: Config, es: seq<Event>)
    requires Run(c, Free, INITIAL, es)
    requires forall k :: k in After(c, Free, INITIAL, es).tasks ==> !After(c, Free, INITIAL, es).tasks[k].PushCapture?
    ensures (exists id, team :: ListedTwice(After(c, Free, INITIAL, es), id, team)) <==> !Run(c, FirstAccepts, INITIAL, es)
  {
    var s := After(c, Free, INITIAL, es);
    assert forall id, team :: TwiceDue(s, id, team) <==> ListedTwice(s, id, team);
    hide TwiceDue, ListedTwice;
    TwiceIffLate(c, es);
  }

  // ----- one submission in flight is enough

  lemma SoloAccepts(s: State, k: int)
    requires Solo(s) && k in s.tasks && s.tasks[k].Found?
    ensures FirstAccept(s, k)
  {
    var t := s.tasks[k];
    assert Current(s, t);
    if Accepts(s, t.team, t.snapshot) {
      assert !Listed(t.snapshot.value.captures, t.team);
      assert Submission(t) == Some((t.team, t.id));
    }
  }

  /** A team that never has two submissions of one flag under way is never accepted too late. */
  lemma {:induction false} OneInFlightIsInTime(c: Config, s: State, es: seq<Event>)
    requires Once(s) && Solo(s) && Run(c, OneInFlight, s, es)
    ensures Run(c, FirstAccepts, s, es) && After(c, FirstAccepts, s, es) == After(c, OneInFlight, s, es)
    decreases |es|
  {
    if es != [] {
      StepKeepsOnce(c, s, es[0]);
      StepKeepsSolo(c, s, es[0]);
      if es[0].LookupDone? { SoloAccepts(s, es[0].k); }
      OneInFlightIsInTime(c, Step(c, s, es[0]), es[1..]);
    }
  }
}

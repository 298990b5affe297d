/**
 What a step can and cannot do: work under way is carried on, recorded captures and checks stay, and every
 new task and every change of a document has its event.
 */
module UnderWay {
  import opened GameTypes
  import opened DaemonSteps
  import opened Ledger

  /** All tasks but the one under ticket `k` are still there, and the recorded lists have only grown. */
  ghost predicate Carries(s: State, s': State, k: int) {
    && (forall j :: j in s.tasks && j != k ==> j in s'.tasks && s'.tasks[j] == s.tasks[j])
    && s.db.Keys <= s'.db.Keys
    && (forall id :: id in s.db ==> s.db[id].captures <= s'.db[id].captures && s.db[id].checks <= s'.db[id].checks)
  }

  /** The ticket of the task that the event completes, or the next ticket when it completes none. */
  function Completed(s: State, e: Event): int {
    match e
    case CheckDone(k, _) => k
    case LookupDone(k) => k
    case Apply(k, _) => k
    case _ => s.next
  }

  lemma CarriesTrans(s: State, s': State, s'': State, k: int, k': int)
    requires Carries(s, s', k) && Carries(s', s'', k') && (k' == k || k' !in s.tasks)
    ensures Carries(s, s'', k)
  {
  }

  lemma {:induction false} PlantingCarries(s: State, pairs: seq<(string, string)>, choices: seq<(string, string)>)
    requires |pairs| == |choices| && forall j :: j in s.tasks ==> j < s.next
    ensures Carries(s, PlantAll(s, pairs, choices), s.next)
    decreases |pairs|
  {
    if pairs != [] {
      var s' := PlantOne(s, pairs[0], choices[0]);
      PlantingCarries(s', pairs[1..], choices[1..]);
      CarriesTrans(s, s', PlantAll(s', pairs[1..], choices[1..]), s.next, s'.next);
    }
  }

  lemma {:induction false} ChecksCarry(s: State, ids: seq<string>, at: int)
    requires forall j :: j in s.tasks ==> j < s.next
    ensures Carries(s, EnqueueChecks(s, ids, at), s.next)
    decreases |ids|
  {
    if ids != [] {
      var s' := Enqueue(s, Checking(ids[0], at));
      ChecksCarry(s', ids[1..], at);
      CarriesTrans(s, s', EnqueueChecks(s', ids[1..], at), s.next, s'.next);
    }
  }

  /** A change of one document that leaves its lists alone or adds to them. */
  lemma ChangeCarries(s: State, k: int, id: string, f: Doc -> Doc, w: Write)
    requires id in s.db ==> s.db[id].captures <= f(s.db[id]).captures && s.db[id].checks <= f(s.db[id]).checks
    ensures Carries(s, Log(Change(Finish(s, k), id, f), w), k)
  {
  }

  lemma SaveCarries(s: State, k: int, doc: Doc, w: Write)
    requires doc.id !in s.db
    ensures Carries(s, Log(Finish(s, k).(db := s.db[doc.id := doc]), w), k)
  {
  }

  lemma AnswerCarries(s: State, k: int, t: Task)
    requires k in s.tasks
    ensures Carries(s, s.(tasks := s.tasks[k := t]), k)
  {
  }

  lemma ApplyCarries(s: State, k: int, cursor: seq<string>)
    requires Once(s) && k in s.tasks && IsDbOp(s.tasks[k])
    ensures Carries(s, ApplyTask(s, k, cursor), k)
  {
    OnceUses(s, k);
    assert forall j :: j in s.tasks ==> j < s.next;
    hide Once, Reported, Carries;
    match s.tasks[k]
    case Save(doc) => SaveCarries(s, k, doc, Created(doc.id, doc.team));
    case SetDelivered(id, ok) => ChangeCarries(s, k, id, Deliver(ok), PlantResult(id, ok));
    case PushCheck(id, check) => ChangeCarries(s, k, id, AddCheck(check), CheckResult(id, check.result));
    case PushCapture(team, id, at) => ChangeCarries(s, k, id, AddCapture(Capture(team, at)), Captured(id, team));
    case FindUncaptured(_, at) =>
      SameCarries(s, Finish(s, k), k);
      ChecksCarry(Finish(s, k), cursor, at);
      CarriesTrans(s, Finish(s, k), ApplyTask(s, k, cursor), k, s.next);
    case FindFlag(team, id) => AnswerCarries(s, k, Found(team, id, if id in s.db then Some(s.db[id]) else None));
  }

  lemma EnqueueCarries(s: State, s': State, t: Task, k: int)
    requires Carries(s, s', k) && s'.next !in s.tasks
    ensures Carries(s, Enqueue(s', t), k)
  {
  }

  lemma SameCarries(s: State, s': State, k: int)
    requires s'.db == s.db && (s'.tasks == s.tasks || s'.tasks == s.tasks - {k})
    ensures Carries(s, s', k)
  {
  }

  lemma StepCarries(c: Config, s: State, e: Event)
    requires Once(s) && Enabled(c, s, e)
    ensures Carries(s, Step(c, s, e), Completed(s, e))
  {
    assert forall j :: j in s.tasks ==> j < s.next;
    hide Once, Carries;
    SameCarries(s, s, s.next);
    match e
    case Plant(choices) =>
      var s1 := s.(latest := Some(s.now), rounds := s.rounds + [s.now]);
      SameCarries(s, s1, s.next);
      PlantingCarries(s1, Grid(c.services, c.teams), choices);
      CarriesTrans(s, s1, Step(c, s, e), s.next, s.next);
    case PlantDone(id, status) =>
      SameCarries(s, s.(planting := s.planting - {id}), s.next);
      EnqueueCarries(s, s.(planting := s.planting - {id}), SetDelivered(id, status == Exit(0)), s.next);
    case CheckRound =>
      if s.latest.Some? { EnqueueCarries(s, s, FindUncaptured(s.latest.value, s.now), s.next); }
    case CheckDone(k, status) =>
      SameCarries(s, Finish(s, k), k);
      EnqueueCarries(s, Finish(s, k), PushCheck(s.tasks[k].id, Check(s.tasks[k].at, status == Exit(0))), k);
    case FlagLine(conn, id) =>
      if s.connections[conn].Some? { EnqueueCarries(s, s, FindFlag(s.connections[conn].value, id), s.next); }
    case LookupDone(k) =>
      SameCarries(s, Finish(s, k), k);
      EnqueueCarries(s, Finish(s, k), PushCapture(s.tasks[k].team, s.tasks[k].id, s.now), k);
    case Apply(k, cursor) => ApplyCarries(s, k, cursor);
    case _ => SameCarries(s, Step(c, s, e), s.next);
  }

  // ----- where new work comes from

  /** Event `e` can start task `t`. */
  ghost predicate StartedBy(s: State, e: Event, t: Task) {
    match t
    case Save(_) => e.Plant?
    case SetDelivered(id, ok) => e.PlantDone? && e.id == id && (ok <==> e.status == Exit(0))
    case FindUncaptured(_, at) => e.CheckRound? && at == s.now
    case Checking(id, at) =>
      e.Apply? && e.k in s.tasks && s.tasks[e.k].FindUncaptured? && s.tasks[e.k].at == at && id in e.cursor
    case PushCheck(id, check) =>
      e.CheckDone? && e.k in s.tasks && s.tasks[e.k] == Checking(id, check.time) && (check.result <==> e.status == Exit(0))
    case FindFlag(team, id) =>
      e.FlagLine? && e.id == id && e.conn in s.connections && s.connections[e.conn] == Some(team)
    case Found(team, id, _) => e.Apply? && e.k in s.tasks && s.tasks[e.k] == FindFlag(team, id)
    case PushCapture(team, id, at) =>
      e.LookupDone? && e.k in s.tasks && s.tasks[e.k].Found? && s.tasks[e.k].team == team && s.tasks[e.k].id == id
      && at == s.now
  }

  /** Every task after the step was there before or is one that the event starts. */
  ghost predicate Starts(s: State, e: Event, s': State) {
    forall j :: j in s'.tasks ==> (j in s.tasks && s'.tasks[j] == s.tasks[j]) || StartedBy(s, e, s'.tasks[j])
  }

  lemma {:induction false} PlantingStarts(s: State, e: Event, s': State, pairs: seq<(string, string)>,
                                          choices: seq<(string, string)>)
    requires |pairs| == |choices| && Starts(s, e, s') && e.Plant?
    ensures Starts(s, e, PlantAll(s', pairs, choices))
    decreases |pairs|
  {
    if pairs != [] { PlantingStarts(s, e, PlantOne(s', pairs[0], choices[0]), pairs[1..], choices[1..]); }
  }

  lemma {:induction false} ChecksStart(s: State, e: Event, s': State, ids: seq<string>, at: int)
    requires Starts(s, e, s') && forall i :: 0 <= i < |ids| ==> StartedBy(s, e, Checking(ids[i], at))
    ensures Starts(s, e, EnqueueChecks(s', ids, at))
    decreases |ids|
  {
    if ids != [] {
      assert StartedBy(s, e, Checking(ids[0], at));
      ChecksStart(s, e, Enqueue(s', Checking(ids[0], at)), ids[1..], at);
    }
  }

  lemma EnqueueStarts(s: State, e: Event, s': State, t: Task)
    requires Starts(s, e, s') && StartedBy(s, e, t)
    ensures Starts(s, e, Enqueue(s', t))
  {
  }

  lemma SameStarts(s: State, e: Event, s': State)
    requires forall j :: j in s'.tasks ==> j in s.tasks && s'.tasks[j] == s.tasks[j]
    ensures Starts(s, e, s')
  {
  }

  lemma ApplyStarts(c: Config, s: State, k: int, cursor: seq<string>)
    requires Enabled(c, s, Apply(k, cursor))
    ensures Starts(s, Apply(k, cursor), ApplyTask(s, k, cursor))
  {
    if s.tasks[k].FindUncaptured? {
      SameStarts(s, Apply(k, cursor), Finish(s, k));
      ChecksStart(s, Apply(k, cursor), Finish(s, k), cursor, s.tasks[k].at);
    }
  }

  /** No task turns up but by the event that starts it. */
  lemma StepStarts(c: Config, s: State, e: Event)
    requires Enabled(c, s, e)
    ensures Starts(s, e, Step(c, s, e))
  {
    hide Starts;
    SameStarts(s, e, s);
    match e
    case Plant(choices) =>
      var s1 := s.(latest := Some(s.now), rounds := s.rounds + [s.now]);
      SameStarts(s, e, s1);
      PlantingStarts(s, e, s1, Grid(c.services, c.teams), choices);
    case PlantDone(id, status) =>
      SameStarts(s, e, s.(planting := s.planting - {id}));
      EnqueueStarts(s, e, s.(planting := s.planting - {id}), SetDelivered(id, status == Exit(0)));
    case CheckRound =>
      if s.latest.Some? { EnqueueStarts(s, e, s, FindUncaptured(s.latest.value, s.now)); }
    case CheckDone(k, status) =>
      SameStarts(s, e, Finish(s, k));
      EnqueueStarts(s, e, Finish(s, k), PushCheck(s.tasks[k].id, Check(s.tasks[k].at, status == Exit(0))));
    case FlagLine(conn, id) =>
      if s.connections[conn].Some? { EnqueueStarts(s, e, s, FindFlag(s.connections[conn].value, id)); }
    case LookupDone(k) =>
      SameStarts(s, e, Finish(s, k));
      EnqueueStarts(s, e, Finish(s, k), PushCapture(s.tasks[k].team, s.tasks[k].id, s.now));
    case Apply(k, cursor) => ApplyStarts(c, s, k, cursor);
    case _ => SameStarts(s, e, Step(c, s, e));
  }

  // ----- what becomes of a document

  /** The document under `id` after the step, as the event makes it. */
  ghost predicate Keeps(s: State, e: Event, s': State, id: string) {
    if id !in s'.db then id !in s.db
    else if e.Apply? && e.k in s.tasks && IsWriteTo(s.tasks[e.k], id) then
      match s.tasks[e.k]
      case Save(doc) => s'.db[id] == doc
      case SetDelivered(_, ok) => id in s.db && s'.db[id] == s.db[id].(delivered := ok)
      case PushCheck(_, check) => id in s.db && s'.db[id] == s.db[id].(checks := s.db[id].checks + [check])
      case PushCapture(team, _, at) =>
        id in s.db && s'.db[id] == s.db[id].(captures := s.db[id].captures + [Capture(team, at)])
      case _ => false
    else id in s.db && s'.db[id] == s.db[id]
  }

  /** The task changes or creates the document under `id`. */
  predicate IsWriteTo(t: Task, id: string) {
    match t
    case Save(doc) => doc.id == id
    case SetDelivered(i, _) => i == id
    case PushCheck(i, _) => i == id
    case PushCapture(_, i, _) => i == id
    case _ => false
  }

  /** A document changes by the writes to it and by nothing else. */
  lemma StepKeepsDoc(c: Config, s: State, e: Event, id: string)
    requires Enabled(c, s, e)
    ensures Keeps(s, e, Step(c, s, e), id)
  {
    match e
    case Plant(choices) =>
      PlantingDb(s.(latest := Some(s.now), rounds := s.rounds + [s.now]), Grid(c.services, c.teams), choices);
    case Apply(k, cursor) =>
      if s.tasks[k].FindUncaptured? { EnqueueChecksFrame(Finish(s, k), cursor, s.tasks[k].at); }
    case _ =>
  }

  lemma {:induction false} PlantingDb(s: State, pairs: seq<(string, string)>, choices: seq<(string, string)>)
    requires |pairs| == |choices|
    ensures PlantAll(s, pairs, choices).db == s.db
    decreases |pairs|
  {
    if pairs != [] { PlantingDb(PlantOne(s, pairs[0], choices[0]), pairs[1..], choices[1..]); }
  }

  /** A run under some discipline is a run. */
  lemma {:induction false} FreeRun(c: Config, d: Discipline, s: State, es: seq<Event>)
    requires Run(c, d, s, es)
    ensures Run(c, Free, s, es) && After(c, Free, s, es) == After(c, d, s, es)
    decreases |es|
  {
    if es != [] { FreeRun(c, d, Step(c, s, es[0]), es[1..]); }
  }
}

/** What the records owe to the events of a run: plant results, checks and captures. */
module Origins {
  import opened GameTypes
  import opened DaemonSteps
  import opened Ledger
  import opened UnderWay

  // ----- every flag's plant command runs until it reports

  /** How often the plant command of a flag has reported. */
  function Reports(es: seq<Event>, id: string): nat {
    if es == [] then 0 else (if es[0].PlantDone? && es[0].id == id then 1 else 0) + Reports(es[1..], id)
  }

  /** The data of the flags chosen for a round. */
  function DatasOf(choices: seq<(string, string)>): set<string> {
    set i | 0 <= i < |choices| :: choices[i].1
  }

  /** A plant command is started for every flag of a round and for no other. */
  lemma {:induction false} PlantingRuns(s: State, pairs: seq<(string, string)>, choices: seq<(string, string)>)
    requires |pairs| == |choices|
    ensures PlantAll(s, pairs, choices).planting == s.planting + DatasOf(choices)
    ensures PlantAll(s, pairs, choices).datas == s.datas + DatasOf(choices)
    decreases |pairs|
  {
    if pairs == [] {
      assert DatasOf(choices) == {};
    } else {
      var rest := choices[1..];
      PlantingRuns(PlantOne(s, pairs[0], choices[0]), pairs[1..], rest);
      assert forall i :: 0 < i < |choices| ==> choices[i] == rest[i - 1];
      assert forall i :: 0 <= i < |rest| ==> rest[i] == choices[i + 1];
      assert DatasOf(choices) == {choices[0].1} + DatasOf(rest);
    }
  }

  lemma {:induction false} ChecksPlanting(s: State, ids: seq<string>, at: int)
    ensures EnqueueChecks(s, ids, at).planting == s.planting && EnqueueChecks(s, ids, at).datas == s.datas
    decreases |ids|
  {
    if ids != [] { ChecksPlanting(Enqueue(s, Checking(ids[0], at)), ids[1..], at); }
  }

  /** Flags begin to be planted when they are created, and cease to be when their command reports. */
  lemma StepPlanting(c: Config, s: State, e: Event)
    requires Enabled(c, s, e)
    ensures var s' := Step(c, s, e);
            match e
            case Plant(choices) => s'.planting == s.planting + DatasOf(choices) && s'.datas == s.datas + DatasOf(choices)
            case PlantDone(id, _) => id in s.planting && s'.planting == s.planting - {id} && s'.datas == s.datas
            case _ => s'.planting == s.planting && s'.datas == s.datas
  {
    match e
    case Plant(choices) =>
      PlantingRuns(s.(latest := Some(s.now), rounds := s.rounds + [s.now]), Grid(c.services, c.teams), choices);
    case Apply(k, cursor) =>
      if s.tasks[k].FindUncaptured? { ChecksPlanting(Finish(s, k), cursor, s.tasks[k].at); }
    case _ =>
  }

  predicate HasReported(s: State, id: string) {
    id in s.datas && id !in s.planting
  }

  lemma {:induction false} ReportsCounted(c: Config, d: Discipline, s: State, es: seq<Event>, id: string)
    requires Once(s) && Run(c, d, s, es)
    ensures Reports(es, id) + (if HasReported(s, id) then 1 else 0) == if HasReported(After(c, d, s, es), id) then 1 else 0
    decreases |es|
  {
    if es != [] {
      var s' := Step(c, s, es[0]);
      StepKeepsOnce(c, s, es[0]);
      StepPlanting(c, s, es[0]);
      ReportsCounted(c, d, s', es[1..], id);
    }
  }

  /** After every run a flag's plant command is still running or has reported exactly once. */
  lemma EachReportsOnce(c: Config, d: Discipline, es: seq<Event>, id: string)
    requires Run(c, d, INITIAL, es)
    ensures var s := After(c, d, INITIAL, es);
            Reports(es, id) == if id in s.datas && id !in s.planting then 1 else 0
  {
    ReportsCounted(c, d, INITIAL, es, id);
  }

  // ----- a flag is delivered because its plant command exited with 0

  /** The flag is marked as delivered, or about to be. */
  ghost predicate SuccessDue(s: State, id: string) {
    || (id in s.db && s.db[id].delivered)
    || exists k :: k in s.tasks && s.tasks[k] == SetDelivered(id, true)
  }

  lemma SuccessHasCause(c: Config, s: State, e: Event, id: string)
    requires Once(s) && Enabled(c, s, e) && SuccessDue(Step(c, s, e), id)
    ensures SuccessDue(s, id) || e == PlantDone(id, Exit(0))
  {
    var s' := Step(c, s, e);
    StepStarts(c, s, e);
    StepKeepsDoc(c, s, e, id);
    if e.Apply? { OnceUses(s, e.k); }
    hide Once, Step, Enabled;
    if k :| k in s'.tasks && s'.tasks[k] == SetDelivered(id, true) {
      assert StartedBy(s, e, s'.tasks[k]) || s.tasks[k] == s'.tasks[k];
    } else {
      assert Keeps(s, e, s', id);
    }
  }

  lemma {:induction false} RunSuccessHasCause(c: Config, d: Discipline, s: State, es: seq<Event>, id: string)
    requires Once(s) && Run(c, d, s, es) && SuccessDue(After(c, d, s, es), id)
    ensures SuccessDue(s, id) || PlantDone(id, Exit(0)) in es
    decreases |es|
  {
    if es != [] {
      hide Once, SuccessDue;
      StepKeepsOnce(c, s, es[0]);
      RunSuccessHasCause(c, d, Step(c, s, es[0]), es[1..], id);
      if SuccessDue(Step(c, s, es[0]), id) { SuccessHasCause(c, s, es[0], id); }
    }
  }

  /** After every run a delivered flag is one whose plant command exited with 0. */
  lemma DeliveredMeansPlanted(c: Config, d: Discipline, es: seq<Event>, id: string)
    requires Run(c, d, INITIAL, es)
    requires id in After(c, d, INITIAL, es).db && After(c, d, INITIAL, es).db[id].delivered
    ensures PlantDone(id, Exit(0)) in es
  {
    RunSuccessHasCause(c, d, INITIAL, es, id);
  }

  // ----- and the other way round, unless the result overtakes the flag's document

  lemma DeliveredStays(c: Config, s: State, e: Event, id: string)
    requires Once(s) && Enabled(c, s, e) && id in s.db && s.db[id].delivered
    ensures id in Step(c, s, e).db && Step(c, s, e).db[id].delivered
  {
    StepKeepsDoc(c, s, e, id);
    if e.Apply? { OnceUses(s, e.k); }
    hide Once, Step, Enabled;
  }

  lemma SuccessStays(c: Config, s: State, e: Event, id: string)
    requires Once(s) && Enabled(c, s, e) && Allowed(SavedFirst, s, e)
    requires SuccessDue(s, id) || e == PlantDone(id, Exit(0))
    ensures SuccessDue(Step(c, s, e), id)
  {
    var s' := Step(c, s, e);
    assert s.next !in s.tasks;
    if id in s.db && s.db[id].delivered {
      DeliveredStays(c, s, e, id);
    } else if e == PlantDone(id, Exit(0)) {
      assert s'.tasks[s.next] == SetDelivered(id, true);
    } else {
      var k :| k in s.tasks && s.tasks[k] == SetDelivered(id, true);
      StepCarries(c, s, e);
      StepKeepsDoc(c, s, e, id);
      hide Once, Step;
      if Completed(s, e) != k { assert s'.tasks[k] == s.tasks[k]; }
    }
  }

  lemma {:induction false} RunSuccessStays(c: Config, s: State, es: seq<Event>, id: string)
    requires Once(s) && Run(c, SavedFirst, s, es) && (SuccessDue(s, id) || PlantDone(id, Exit(0)) in es)
    ensures SuccessDue(After(c, SavedFirst, s, es), id)
    decreases |es|
  {
    if es != [] {
      hide Once, SuccessDue;
      StepKeepsOnce(c, s, es[0]);
      if SuccessDue(s, id) || es[0] == PlantDone(id, Exit(0)) { SuccessStays(c, s, es[0], id); }
      RunSuccessStays(c, Step(c, s, es[0]), es[1..], id);
    }
  }

  /** The flag's result has been dealt with, and the flag is not marked as delivered. */
  ghost predicate Lost(s: State, id: string) {
    && HasReported(s, id) && (id in s.db ==> !s.db[id].delivered)
    && forall k :: k in s.tasks && s.tasks[k].SetDelivered? ==> s.tasks[k].id != id
  }

  lemma LostStays(c: Config, s: State, e: Event, id: string)
    requires Once(s) && Enabled(c, s, e) && Lost(s, id)
    ensures Lost(Step(c, s, e), id)
  {
    var s' := Step(c, s, e);
    StepStarts(c, s, e);
    StepPlanting(c, s, e);
    StepKeepsDoc(c, s, e, id);
    if e.Apply? { OnceUses(s, e.k); }
    if e.Plant? { assert id !in DatasOf(e.choices); }
    hide Once, Step;
    forall k | k in s'.tasks && s'.tasks[k].SetDelivered? ensures s'.tasks[k].id != id {
      assert StartedBy(s, e, s'.tasks[k]) || s.tasks[k] == s'.tasks[k];
    }
  }

  lemma {:induction false} RunLostStays(c: Config, s: State, es: seq<Event>, id: string)
    requires Once(s) && Run(c, Free, s, es) && Lost(s, id)
    ensures Lost(After(c, Free, s, es), id)
    decreases |es|
  {
    if es != [] {
      StepKeepsOnce(c, s, es[0]);
      LostStays(c, s, es[0], id);
      RunLostStays(c, Step(c, s, es[0]), es[1..], id);
    }
  }

  /** A success that is recorded before the document exists is lost. */
  lemma TooEarly(c: Config, s: State, e: Event) returns (id: string)
    requires Once(s) && Enabled(c, s, e) && !Allowed(SavedFirst, s, e)
    ensures SuccessDue(s, id) && Lost(Step(c, s, e), id)
  {
    id := s.tasks[e.k].id;
    assert s.tasks[e.k] == SetDelivered(id, true);
  }

  lemma {:induction false} EarlyRunLoses(c: Config, s: State, es: seq<Event>) returns (id: string)
    requires Once(s) && Run(c, Free, s, es) && !Run(c, SavedFirst, s, es)
    ensures Lost(After(c, Free, s, es), id) && (SuccessDue(s, id) || PlantDone(id, Exit(0)) in es)
    decreases |es|
  {
    hide Once, Lost, SuccessDue;
    var s' := Step(c, s, es[0]);
    StepKeepsOnce(c, s, es[0]);
    if Allowed(SavedFirst, s, es[0]) {
      id := EarlyRunLoses(c, s', es[1..]);
      if SuccessDue(s', id) { SuccessHasCause(c, s, es[0], id); }
    } else {
      id := TooEarly(c, s, es[0]);
      RunLostStays(c, s', es[1..], id);
    }
  }

  /** No plant result is waiting for the database. */
  ghost predicate NoResultWaits(s: State) {
    forall k :: k in s.tasks ==> !s.tasks[k].SetDelivered?
  }

  /**
   Every run that ends with no plant result waiting: the delivered flags are those whose plant command
   exited with 0, exactly if no success was recorded before its flag's document.
   */
  lemma DeliveredIffSavedFirst(c: Config, es: seq<Event>)
    requires Run(c, Free, INITIAL, es) && NoResultWaits(After(c, Free, INITIAL, es))
    ensures var s := After(c, Free, INITIAL, es);
            (forall id :: (id in s.db && s.db[id].delivered) <==> PlantDone(id, Exit(0)) in es)
            <==> Run(c, SavedFirst, INITIAL, es)
  {
    var s := After(c, Free, INITIAL, es);
    if Run(c, SavedFirst, INITIAL, es) {
      FreeRun(c, SavedFirst, INITIAL, es);
      forall id ensures (id in s.db && s.db[id].delivered) <==> PlantDone(id, Exit(0)) in es {
        if PlantDone(id, Exit(0)) in es {
          RunSuccessStays(c, INITIAL, es, id);
        } else if id in s.db && s.db[id].delivered {
          DeliveredMeansPlanted(c, Free, es, id);
        }
      }
    } else {
      var id := EarlyRunLoses(c, INITIAL, es);
    }
  }

  lemma OneFlagRound(c: Config, name: string, data: string)
    requires |c.teams| == |c.services| == 1
    ensures Enabled(c, INITIAL, Plant([(name, data)]))
    ensures var s := Step(c, INITIAL, Plant([(name, data)]));
            && s.tasks == map[0 := Save(Doc(data, name, c.teams[0], c.services[0], [], [], false, 0))]
            && s.next == 1 && s.planting == {data} && s.db == map[]
  {
    var choices, pair := [(name, data)], (c.services[0], c.teams[0]);
    assert c.services[1..] == [] && Row(c.services[0], c.teams) == [pair];
    assert Grid(c.services, c.teams) == [pair] + Grid([], c.teams) == [pair];
    var started := INITIAL.(latest := Some(0), rounds := [] + [0]);
    assert choices[1..] == [] && [pair][1..] == [];
    assert PlantAll(started, [pair], choices) == PlantAll(PlantOne(started, pair, choices[0]), [], []);
  }

  /** It does happen: a success that overtakes its flag's document leaves the flag undelivered. */
  lemma SuccessCanBeLost(c: Config, name: string, data: string)
    requires |c.teams| == |c.services| == 1
    ensures exists es :: Run(c, Free, INITIAL, es) && PlantDone(data, Exit(0)) in es
                      && data in After(c, Free, INITIAL, es).db && !After(c, Free, INITIAL, es).db[data].delivered
  {
    var plant, done, early, save := Plant([(name, data)]), PlantDone(data, Exit(0)), Apply(1, []), Apply(0, []);
    OneFlagRound(c, name, data);
    var s1 := Step(c, INITIAL, plant);
    assert Enabled(c, s1, done);
    var s2 := Step(c, s1, done);
    assert Enabled(c, s2, early);
    var s3 := Step(c, s2, early);
    assert Enabled(c, s3, save) && s3.tasks == s1.tasks && s3.db == map[];
    var s4 := Step(c, s3, save);
    assert data in s4.db && !s4.db[data].delivered;
    hide Step, Enabled;
    assert Run(c, Free, s4, []) && After(c, Free, s4, []) == s4;
    RunCons(c, Free, s3, save, []);
    RunCons(c, Free, s2, early, [save] + []);
    RunCons(c, Free, s1, done, [early] + ([save] + []));
    RunCons(c, Free, INITIAL, plant, [done] + ([early] + ([save] + [])));
    var es := [plant] + ([done] + ([early] + ([save] + [])));
    assert es[1] == done;
  }

  // ----- in the order of issue no result comes too early

  /** The document of `id` is stored, or will be by an operation older than `k`. */
  ghost predicate SavedBefore(s: State, id: string, k: int) {
    id in s.db || exists j :: j in s.tasks && j < k && s.tasks[j].Save? && s.tasks[j].doc.id == id
  }

  ghost predicate SavesAhead(s: State) {
    && (forall k :: k in s.tasks && s.tasks[k].SetDelivered? ==> SavedBefore(s, s.tasks[k].id, k))
    && (forall id :: id in s.planting ==> SavedBefore(s, id, s.next))
  }

  lemma SavedBeforeStays(c: Config, s: State, e: Event, id: string, k: int, k': int)
    requires Once(s) && Enabled(c, s, e) && SavedBefore(s, id, k) && k <= k'
    ensures SavedBefore(Step(c, s, e), id, k')
  {
    var s' := Step(c, s, e);
    StepCarries(c, s, e);
    StepKeepsDoc(c, s, e, id);
    if id !in s.db {
      var j :| j in s.tasks && j < k && s.tasks[j].Save? && s.tasks[j].doc.id == id;
      assert s.next !in s.tasks;
      hide Once, Step;
      if Completed(s, e) != j { assert s'.tasks[j] == s.tasks[j]; }
    }
  }

  lemma {:induction false} PlantingSaves(s: State, pairs: seq<(string, string)>, choices: seq<(string, string)>)
    requires |pairs| == |choices| && SavesAhead(s) && forall k :: k in s.tasks ==> k < s.next
    ensures SavesAhead(PlantAll(s, pairs, choices))
    decreases |pairs|
  {
    if pairs != [] {
      PlantOneSaves(s, pairs[0], choices[0]);
      PlantingSaves(PlantOne(s, pairs[0], choices[0]), pairs[1..], choices[1..]);
    }
  }

  lemma PlantOneSaves(s: State, pair: (string, string), choice: (string, string))
    requires SavesAhead(s) && forall k :: k in s.tasks ==> k < s.next
    ensures SavesAhead(PlantOne(s, pair, choice))
  {
    var s' := PlantOne(s, pair, choice);
    assert s'.tasks[s.next].Save? && s'.tasks[s.next].doc.id == choice.1;
    forall id, k, k' | SavedBefore(s, id, k) && k <= k' ensures SavedBefore(s', id, k') {
      if id !in s.db {
        var j :| j in s.tasks && j < k && s.tasks[j].Save? && s.tasks[j].doc.id == id;
        assert s'.tasks[j] == s.tasks[j];
      }
    }
  }

  lemma {:induction false} ChecksNext(s: State, ids: seq<string>, at: int)
    ensures EnqueueChecks(s, ids, at).next >= s.next
    decreases |ids|
  {
    if ids != [] { ChecksNext(Enqueue(s, Checking(ids[0], at)), ids[1..], at); }
  }

  lemma NextGrows(c: Config, s: State, e: Event)
    requires Enabled(c, s, e) && !e.Plant?
    ensures s.next <= Step(c, s, e).next
    ensures e.PlantDone? ==> Step(c, s, e).tasks.Keys == s.tasks.Keys + {s.next}
  {
    if e.Apply? && s.tasks[e.k].FindUncaptured? { ChecksNext(Finish(s, e.k), e.cursor, s.tasks[e.k].at); }
  }

  lemma StepSavesAhead(c: Config, s: State, e: Event)
    requires Once(s) && SavesAhead(s) && Enabled(c, s, e)
    ensures SavesAhead(Step(c, s, e))
  {
    if e.Plant? {
      PlantingSaves(s.(latest := Some(s.now), rounds := s.rounds + [s.now]), Grid(c.services, c.teams), e.choices);
    } else {
      var s' := Step(c, s, e);
      StepStarts(c, s, e);
      StepPlanting(c, s, e);
      NextGrows(c, s, e);
      forall k | k in s'.tasks && s'.tasks[k].SetDelivered? ensures SavedBefore(s', s'.tasks[k].id, k) {
        if k in s.tasks && s.tasks[k] == s'.tasks[k] {
          SavedBeforeStays(c, s, e, s'.tasks[k].id, k, k);
        } else {
          assert StartedBy(s, e, s'.tasks[k]);
          SavedBeforeStays(c, s, e, s'.tasks[k].id, s.next, k);
        }
      }
      forall id | id in s'.planting ensures SavedBefore(s', id, s'.next) {
        SavedBeforeStays(c, s, e, id, s.next, s'.next);
      }
    }
  }

  lemma {:induction false} IssueOrderSavesFirst(c: Config, s: State, es: seq<Event>)
    requires Once(s) && SavesAhead(s) && Run(c, IssueOrder, s, es)
    ensures Run(c, SavedFirst, s, es)
    decreases |es|
  {
    if es != [] {
      StepKeepsOnce(c, s, es[0]);
      StepSavesAhead(c, s, es[0]);
      IssueOrderSavesFirst(c, Step(c, s, es[0]), es[1..]);
    }
  }

  /** So in the order of issue the delivered flags are exactly those whose plant command exited with 0. */
  lemma DeliveredInIssueOrder(c: Config, es: seq<Event>, id: string)
    requires Run(c, IssueOrder, INITIAL, es) && NoResultWaits(After(c, IssueOrder, INITIAL, es))
    ensures var s := After(c, IssueOrder, INITIAL, es);
            (id in s.db && s.db[id].delivered) <==> PlantDone(id, Exit(0)) in es
  {
    FreeRun(c, IssueOrder, INITIAL, es);
    IssueOrderSavesFirst(c, INITIAL, es);
    DeliveredIffSavedFirst(c, es);
  }

  // ----- good checks

  /** How many check commands for the flag have exited with 0. */
  ghost function GoodEnds(c: Config, d: Discipline, s: State, es: seq<Event>, id: string): nat
    requires Run(c, d, s, es)
    decreases |es|
  {
    if es == [] then 0
    else (if EndsWell(s, es[0], id) then 1 else 0) + GoodEnds(c, d, Step(c, s, es[0]), es[1..], id)
  }

  ghost predicate EndsWell(s: State, e: Event, id: string) {
    e.CheckDone? && e.status == Exit(0) && e.k in s.tasks && s.tasks[e.k].Checking? && s.tasks[e.k].id == id
  }

  /** The good results for the flag that wait for the database. */
  ghost function GoodWaiting(s: State, id: string): set<int> {
    set k | k in s.tasks && s.tasks[k].PushCheck? && s.tasks[k].id == id && s.tasks[k].check.result
  }

  ghost function GoodOnRecord(s: State, id: string): nat {
    if id in s.db then GoodChecks(s.db[id].checks) else 0
  }

  /** Flags that are being checked are stored. */
  ghost predicate CheckedStored(s: State) {
    forall k :: k in s.tasks ==>
      (s.tasks[k].Checking? ==> s.tasks[k].id in s.db) && (s.tasks[k].PushCheck? ==> s.tasks[k].id in s.db)
  }

  lemma StepCheckedStored(c: Config, s: State, e: Event)
    requires Once(s) && CheckedStored(s) && Enabled(c, s, e)
    ensures CheckedStored(Step(c, s, e))
  {
    var s' := Step(c, s, e);
    StepStarts(c, s, e);
    StepCarries(c, s, e);
    forall k | k in s'.tasks
      ensures (s'.tasks[k].Checking? ==> s'.tasks[k].id in s'.db) && (s'.tasks[k].PushCheck? ==> s'.tasks[k].id in s'.db)
    {
      assert StartedBy(s, e, s'.tasks[k]) || s.tasks[k] == s'.tasks[k];
      if e.Apply? && s.tasks[e.k].FindUncaptured? {
        assert forall id :: id in e.cursor ==> id in Uncaptured(s, s.tasks[e.k].planted);
      }
    }
  }

  /** A good result begins to wait when its command exits with 0, and ceases to when it is carried out. */
  lemma StepWaiting(c: Config, s: State, e: Event, id: string)
    requires Once(s) && Enabled(c, s, e)
    ensures var s', was := Step(c, s, e), GoodWaiting(s, id);
            && s.next !in was
            && GoodWaiting(s', id) == if EndsWell(s, e, id) then was + {s.next}
                                      else if e.Apply? then was - {e.k} else was
  {
    var s', was := Step(c, s, e), GoodWaiting(s, id);
    assert s.next !in s.tasks;
    StepStarts(c, s, e);
    StepCarries(c, s, e);
    if !e.CheckDone? {
      assert e.Apply? && s.tasks[e.k].PushCheck? ==> s'.tasks == s.tasks - {e.k};
      hide Once, Step;
      forall k | k in GoodWaiting(s', id) ensures k in was {
        assert StartedBy(s, e, s'.tasks[k]) || s.tasks[k] == s'.tasks[k];
      }
      forall k | k in was && !(e.Apply? && k == e.k) ensures k in GoodWaiting(s', id) {
        assert s'.tasks[k] == s.tasks[k];
      }
    }
  }

  /** A good result is on record once it is carried out. */
  lemma StepRecords(c: Config, s: State, e: Event, id: string)
    requires Once(s) && CheckedStored(s) && Enabled(c, s, e)
    ensures GoodOnRecord(Step(c, s, e), id)
         == GoodOnRecord(s, id) + if e.Apply? && e.k in GoodWaiting(s, id) then 1 else 0
  {
    var s' := Step(c, s, e);
    StepKeepsDoc(c, s, e, id);
    if e.Apply? { OnceUses(s, e.k); }
    hide Once, Step;
    if e.Apply? && s.tasks[e.k].PushCheck? && s.tasks[e.k].id == id {
      var checks := s'.db[id].checks;
      assert checks[..|checks| - 1] == s.db[id].checks;
    }
  }

  lemma StepCounts(c: Config, s: State, e: Event, id: string)
    requires Once(s) && CheckedStored(s) && Enabled(c, s, e)
    ensures var s' := Step(c, s, e);
            GoodOnRecord(s', id) + |GoodWaiting(s', id)|
            == GoodOnRecord(s, id) + |GoodWaiting(s, id)| + if EndsWell(s, e, id) then 1 else 0
  {
    hide Once, Step, GoodOnRecord, GoodWaiting, CheckedStored;
    StepWaiting(c, s, e, id);
    StepRecords(c, s, e, id);
  }

  lemma {:induction false} GoodCounted(c: Config, d: Discipline, s: State, es: seq<Event>, id: string)
    requires Once(s) && CheckedStored(s) && Run(c, d, s, es)
    ensures var s' := After(c, d, s, es);
            GoodOnRecord(s', id) + |GoodWaiting(s', id)|
            == GoodOnRecord(s, id) + |GoodWaiting(s, id)| + GoodEnds(c, d, s, es, id)
    decreases |es|
  {
    if es != [] {
      hide Once, CheckedStored, GoodOnRecord, GoodWaiting, EndsWell;
      StepKeepsOnce(c, s, es[0]);
      StepCheckedStored(c, s, es[0]);
      StepCounts(c, s, es[0], id);
      GoodCounted(c, d, Step(c, s, es[0]), es[1..], id);
    }
  }

  /** After every run each check command of a flag that exited with 0 is a good check on record, or waits to be. */
  lemma GoodChecksAreEnds(c: Config, d: Discipline, es: seq<Event>, id: string)
    requires Run(c, d, INITIAL, es)
    ensures var s := After(c, d, INITIAL, es);
            GoodOnRecord(s, id) + |GoodWaiting(s, id)| == GoodEnds(c, d, INITIAL, es, id)
  {
    assert GoodWaiting(INITIAL, id) == {};
    GoodCounted(c, d, INITIAL, es, id);
  }

  // ----- captures

  /** A line with the flag's data has come in on a connection that had named the team before. */
  ghost predicate SentBy(es: seq<Event>, team: string, id: string) {
    exists conn, i, j :: 0 <= i < j < |es| && es[i] == TeamLine(conn, team) && es[j] == FlagLine(conn, id)
  }

  /** A submission of the flag by the team is recorded or under way. */
  ghost predicate CaptureDue(s: State, team: string, id: string) {
    || (id in s.db && exists i :: 0 <= i < |s.db[id].captures| && s.db[id].captures[i].team == team)
    || exists k :: k in s.tasks && Submission(s.tasks[k]) == Some((team, id))
  }

  ghost predicate OnConnection(s: State, conn: nat, team: string) {
    conn in s.connections && s.connections[conn] == Some(team)
  }

  lemma SubmissionHasCause(c: Config, s: State, e: Event, team: string, id: string, k: int)
    requires Enabled(c, s, e) && k in Step(c, s, e).tasks && Submission(Step(c, s, e).tasks[k]) == Some((team, id))
    ensures CaptureDue(s, team, id) || (e.FlagLine? && e.id == id && OnConnection(s, e.conn, team))
  {
    StepStarts(c, s, e);
    hide Step, Enabled;
    assert StartedBy(s, e, Step(c, s, e).tasks[k]) || s.tasks[k] == Step(c, s, e).tasks[k];
  }

  lemma CaptureHasCause(c: Config, s: State, e: Event, team: string, id: string)
    requires Once(s) && Enabled(c, s, e) && CaptureDue(Step(c, s, e), team, id)
    ensures CaptureDue(s, team, id) || (e.FlagLine? && e.id == id && OnConnection(s, e.conn, team))
  {
    var s' := Step(c, s, e);
    StepKeepsDoc(c, s, e, id);
    if e.Apply? { OnceUses(s, e.k); }
    hide Once, Step, Enabled, OnConnection;
    if k :| k in s'.tasks && Submission(s'.tasks[k]) == Some((team, id)) {
      SubmissionHasCause(c, s, e, team, id, k);
    } else {
      var i :| 0 <= i < |s'.db[id].captures| && s'.db[id].captures[i].team == team;
      if id in s.db && i < |s.db[id].captures| {
        assert s.db[id].captures[i].team == team;
      } else {
        assert Submission(s.tasks[e.k]) == Some((team, id));
      }
    }
  }

  lemma {:induction false} ChecksConnections(s: State, ids: seq<string>, at: int)
    ensures EnqueueChecks(s, ids, at).connections == s.connections
    decreases |ids|
  {
    if ids != [] { ChecksConnections(Enqueue(s, Checking(ids[0], at)), ids[1..], at); }
  }

  lemma {:induction false} PlantingConnections(s: State, pairs: seq<(string, string)>, choices: seq<(string, string)>)
    requires |pairs| == |choices|
    ensures PlantAll(s, pairs, choices).connections == s.connections
    decreases |pairs|
  {
    if pairs != [] { PlantingConnections(PlantOne(s, pairs[0], choices[0]), pairs[1..], choices[1..]); }
  }

  lemma TeamHasCause(c: Config, s: State, e: Event, conn: nat, team: string)
    requires Enabled(c, s, e) && OnConnection(Step(c, s, e), conn, team)
    ensures OnConnection(s, conn, team) || e == TeamLine(conn, team)
  {
    match e
    case Plant(choices) =>
      PlantingConnections(s.(latest := Some(s.now), rounds := s.rounds + [s.now]), Grid(c.services, c.teams), choices);
    case Apply(k, cursor) =>
      if s.tasks[k].FindUncaptured? { ChecksConnections(Finish(s, k), cursor, s.tasks[k].at); }
    case _ =>
  }

  /** What a run adds has a line that asked for it. */
  lemma {:induction false} RunCaptureHasCause(c: Config, d: Discipline, s: State, es: seq<Event>, team: string, id: string)
    requires Once(s) && Run(c, d, s, es) && CaptureDue(After(c, d, s, es), team, id)
    ensures CaptureDue(s, team, id) || SentBy(es, team, id)
         || exists conn :: FlagLine(conn, id) in es && OnConnection(s, conn, team)
    decreases |es|
  {
    if es != [] {
      var e, rest, s' := es[0], es[1..], Step(c, s, es[0]);
      StepKeepsOnce(c, s, e);
      hide Once, CaptureDue, OnConnection, Step, Enabled;
      RunCaptureHasCause(c, d, s', rest, team, id);
      if CaptureDue(s', team, id) {
        CaptureHasCause(c, s, e, team, id);
        if e.FlagLine? { assert e in es; }
      } else if SentBy(rest, team, id) {
        SentEarlier(es, team, id);
      } else {
        var conn :| FlagLine(conn, id) in rest && OnConnection(s', conn, team);
        TeamHasCause(c, s, e, conn, team);
        if e == TeamLine(conn, team) {
          var j :| 0 <= j < |rest| && rest[j] == FlagLine(conn, id);
          assert es[0] == TeamLine(conn, team) && es[j + 1] == FlagLine(conn, id);
        } else {
          assert FlagLine(conn, id) in es;
        }
      }
    }
  }

  lemma SentEarlier(es: seq<Event>, team: string, id: string)
    requires es != [] && SentBy(es[1..], team, id)
    ensures SentBy(es, team, id)
  {
    var conn, i, j :| 0 <= i < j < |es[1..]| && es[1..][i] == TeamLine(conn, team) && es[1..][j] == FlagLine(conn, id);
    assert es[i + 1] == TeamLine(conn, team) && es[j + 1] == FlagLine(conn, id);
  }

  /** After every run each capture on record was asked for by its team, on a connection that had named the team. */
  lemma CapturesWereSent(c: Config, d: Discipline, es: seq<Event>, id: string, i: nat)
    requires Run(c, d, INITIAL, es)
    requires id in After(c, d, INITIAL, es).db && i < |After(c, d, INITIAL, es).db[id].captures|
    ensures SentBy(es, After(c, d, INITIAL, es).db[id].captures[i].team, id)
  {
    RunCaptureHasCause(c, d, INITIAL, es, After(c, d, INITIAL, es).db[id].captures[i].team, id);
  }
}

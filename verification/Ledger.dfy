/**
 The scoreboard knows only the stored documents. The ledger knows only what happened: it replays the
 writes of a run and books points as they are earned. The main theorem is that both always agree.
 */
module Ledger {
  import opened GameTypes
  import opened DaemonSteps
  import opened Tallies

  datatype Book = Book(owner: map<string, string>, delivered: set<string>, captured: set<string>,
                       balance: map<string, int>)

  const EMPTY_BOOK := Book(map[], {}, {}, map[])

  function Balance(b: Book, team: string): int {
    if team in b.balance then b.balance[team] else 0
  }

  function Credit(b: Book, team: string, amount: int): Book {
    b.(balance := b.balance[team := Balance(b, team) + amount])
  }

  /**
   A planted flag pays deliver, and defend while nobody holds it. A good check pays check. A capture
   pays the capturer, and the first capture of a delivered flag takes the owner's defend back.
   */
  function Post(p: Points, b: Book, w: Write): Book {
    match w
    case Created(id, team) => b.(owner := b.owner[id := team])
    case PlantResult(id, ok) =>
      if ok && id in b.owner
      then Credit(b.(delivered := b.delivered + {id}), b.owner[id],
                  p.deliver + if id in b.captured then 0 else p.defend)
      else b
    case CheckResult(id, ok) =>
      if ok && id in b.owner then Credit(b, b.owner[id], p.check) else b
    case Captured(id, team) =>
      if id !in b.owner then b
      else
        var paid := Credit(b, team, p.capture);
        var settled := if id in b.delivered && id !in b.captured then Credit(paid, b.owner[id], -p.defend) else paid;
        settled.(captured := b.captured + {id})
    case Solved(rank) => Credit(b, rank.team, rank.points)
  }

  function Replay(p: Points, trace: seq<Write>): Book {
    if trace == [] then EMPTY_BOOK
    else Post(p, Replay(p, trace[..|trace| - 1]), trace[|trace| - 1])
  }

  // ----- the documents, summed over a map

  /** What every stored document is worth to a team. */
  function PointsOf(p: Points, db: map<string, Doc>, team: string): Tally {
    map id | id in db :: DocPoints(p, db[id], team)
  }

  ghost function DbPoints(p: Points, db: map<string, Doc>, team: string): int {
    SumOf(PointsOf(p, db, team))
  }

  lemma DbPointsSplit(p: Points, db: map<string, Doc>, id: string, team: string)
    requires id in db
    ensures DbPoints(p, db, team) == DocPoints(p, db[id], team) + DbPoints(p, db - {id}, team)
  {
    hide DocPoints, SumOf;
    SumSplit(PointsOf(p, db, team), id);
    assert PointsOf(p, db - {id}, team) == PointsOf(p, db, team) - {id};
  }

  lemma DbPointsChange(p: Points, db: map<string, Doc>, id: string, doc: Doc, team: string)
    ensures DbPoints(p, db[id := doc], team) ==
            DbPoints(p, db, team) - (if id in db then DocPoints(p, db[id], team) else 0) + DocPoints(p, doc, team)
  {
    hide DocPoints, DbPoints;
    DbPointsSplit(p, db[id := doc], id, team);
    if id in db {
      DbPointsSplit(p, db, id, team);
      assert db[id := doc] - {id} == db - {id};
    } else {
      assert db[id := doc] - {id} == db;
    }
  }

  /** A find over the whole collection: every document once, in some order. */
  ghost predicate Lists(docs: seq<Doc>, db: map<string, Doc>) {
    && (forall i, j :: 0 <= i < j < |docs| ==> docs[i].id != docs[j].id)
    && (forall i :: 0 <= i < |docs| ==> docs[i].id in db && db[docs[i].id] == docs[i])
    && |docs| == |db|
  }

  lemma {:induction false} ListedPoints(p: Points, docs: seq<Doc>, db: map<string, Doc>, team: string)
    requires Lists(docs, db)
    ensures DocsPoints(p, docs, team) == DbPoints(p, db, team)
    decreases |docs|
  {
    if docs != [] {
      var n := |docs| - 1;
      var last, rest := docs[n], docs[..n];
      var smaller := db - {last.id};
      assert smaller.Keys == db.Keys - {last.id};
      ListedPoints(p, rest, smaller, team);
      DbPointsSplit(p, db, last.id, team);
    }
  }

  // ----- the challenges, in the same way

  ghost function AllRanks(challenges: map<string, Challenge>, team: string): int {
    SumOf(map id | id in challenges :: RankPoints(challenges[id].rank, team))
  }

  lemma AllRanksSplit(challenges: map<string, Challenge>, id: string, team: string)
    requires id in challenges
    ensures AllRanks(challenges, team) == RankPoints(challenges[id].rank, team) + AllRanks(challenges - {id}, team)
  {
    hide RankPoints, SumOf;
    var m := map i | i in challenges :: RankPoints(challenges[i].rank, team);
    SumSplit(m, id);
    assert (map i | i in challenges - {id} :: RankPoints((challenges - {id})[i].rank, team)) == m - {id};
  }

  /** A pushed rank counts for its team, whether the document was there before or not. */
  lemma AllRanksPush(challenges: map<string, Challenge>, name: string, rank: Rank, team: string)
    ensures AllRanks(PushRank(challenges, name, rank), team) ==
            AllRanks(challenges, team) + if rank.team == team then rank.points else 0
  {
    hide AllRanks;
    var was := if name in challenges then challenges[name].rank else [];
    assert (was + [rank])[..|was|] == was;
    AllRanksSplit(PushRank(challenges, name, rank), name, team);
    if name in challenges {
      AllRanksSplit(challenges, name, team);
      assert PushRank(challenges, name, rank) - {name} == challenges - {name};
    } else {
      assert PushRank(challenges, name, rank) - {name} == challenges;
    }
  }

  ghost predicate ListsChallenges(docs: seq<Challenge>, challenges: map<string, Challenge>) {
    && (forall i, j :: 0 <= i < j < |docs| ==> docs[i].id != docs[j].id)
    && (forall i :: 0 <= i < |docs| ==> docs[i].id in challenges && challenges[docs[i].id] == docs[i])
    && |docs| == |challenges|
  }

  lemma {:induction false} ListedRanks(docs: seq<Challenge>, challenges: map<string, Challenge>, team: string)
    requires ListsChallenges(docs, challenges)
    ensures ChallengesPoints(docs, team) == AllRanks(challenges, team)
    decreases |docs|
  {
    if docs != [] {
      var n := |docs| - 1;
      var last, rest := docs[n], docs[..n];
      var smaller := challenges - {last.id};
      assert smaller.Keys == challenges.Keys - {last.id};
      ListedRanks(rest, smaller, team);
      AllRanksSplit(challenges, last.id, team);
    }
  }

  // ----- the invariant

  /** Every flag's plant command reports at most once, and a save never replaces a document. */
  ghost predicate Once(s: State) {
    && s.db.Keys <= s.datas && s.planting <= s.datas
    && (forall id :: id in s.db ==> s.db[id].id == id)
    && (forall id :: id in s.planting && id in s.db ==> !s.db[id].delivered)
    && (forall k :: k in s.tasks ==> k < s.next)
    && (forall k :: k in s.tasks && s.tasks[k].Save? ==>
          var doc := s.tasks[k].doc;
          doc.id in s.datas && doc.id !in s.db && !doc.delivered && doc.captures == [] && doc.checks == [])
    && (forall k :: k in s.tasks && s.tasks[k].SetDelivered? ==>
          var id := s.tasks[k].id;
          id in s.datas && id !in s.planting && (id in s.db ==> !s.db[id].delivered))
    && (forall j, k :: j in s.tasks && k in s.tasks && j != k && s.tasks[j].SetDelivered? && s.tasks[k].SetDelivered?
          ==> s.tasks[j].id != s.tasks[k].id)
    && (forall j, k :: j in s.tasks && k in s.tasks && j != k && s.tasks[j].Save? && s.tasks[k].Save?
          ==> s.tasks[j].doc.id != s.tasks[k].doc.id)
  }

  /** The ledger's own notes about a flag are those of the stored document. */
  ghost predicate Agrees(b: Book, db: map<string, Doc>) {
    && b.owner.Keys == db.Keys
    && (forall id :: id in db ==> b.owner[id] == db[id].team)
    && (forall id :: id in b.delivered <==> id in db && db[id].delivered)
    && (forall id :: id in b.captured <==> id in db && db[id].captures != [])
  }

  ghost predicate Balanced(p: Points, b: Book, db: map<string, Doc>, challenges: map<string, Challenge>) {
    forall team :: Balance(b, team) == DbPoints(p, db, team) + AllRanks(challenges, team)
  }

  ghost predicate Booked(p: Points, s: State) {
    Agrees(Replay(p, s.trace), s.db) && Balanced(p, Replay(p, s.trace), s.db, s.challenges)
  }

  lemma EnqueueKeepsOnce(s: State, t: Task)
    requires Once(s)
    requires !t.Save? && !t.SetDelivered?
    ensures Once(Enqueue(s, t))
  {
  }

  lemma {:induction false} EnqueueChecksKeepsOnce(s: State, ids: seq<string>, at: int)
    requires Once(s)
    ensures Once(EnqueueChecks(s, ids, at))
    decreases |ids|
  {
    if ids != [] {
      EnqueueKeepsOnce(s, Checking(ids[0], at));
      EnqueueChecksKeepsOnce(Enqueue(s, Checking(ids[0], at)), ids[1..], at);
    }
  }

  lemma FinishKeepsOnce(s: State, k: int)
    requires Once(s)
    ensures Once(Finish(s, k))
  {
  }

  ghost predicate Reported(s: State, id: string) {
    id !in s.planting && forall k :: k in s.tasks && s.tasks[k].SetDelivered? ==> s.tasks[k].id != id
  }

  /** A document may change as long as its delivery flag stays, or its plant command has reported. */
  lemma ChangeKeepsOnce(s: State, id: string, f: Doc -> Doc)
    requires Once(s)
    requires id in s.db ==> f(s.db[id]).id == id
    requires (id in s.db ==> f(s.db[id]).delivered == s.db[id].delivered) || Reported(s, id)
    ensures Once(Change(s, id, f))
  {
  }

  lemma SaveKeepsOnce(s: State, k: int)
    requires Once(s) && k in s.tasks && s.tasks[k].Save?
    ensures Once(Finish(s, k).(db := s.db[s.tasks[k].doc.id := s.tasks[k].doc]))
  {
  }

  lemma PlantOneKeepsOnce(s: State, pair: (string, string), choice: (string, string))
    requires Once(s) && choice.1 !in s.datas
    ensures Once(PlantOne(s, pair, choice))
  {
  }

  lemma {:induction false} PlantAllKeepsOnce(s: State, pairs: seq<(string, string)>, choices: seq<(string, string)>)
    requires |pairs| == |choices| && Once(s) && Fresh(s, choices)
    ensures var s' := PlantAll(s, pairs, choices);
            Once(s') && s'.trace == s.trace && s'.db == s.db && s'.challenges == s.challenges
    decreases |pairs|
  {
    if pairs != [] {
      PlantOneKeepsOnce(s, pairs[0], choices[0]);
      PlantAllKeepsOnce(PlantOne(s, pairs[0], choices[0]), pairs[1..], choices[1..]);
    }
  }

  lemma PlantedKeepsOnce(s: State, id: string, status: Status)
    requires Once(s) && id in s.planting
    ensures Once(OnPlanted(s, id, status))
  {
  }

  lemma AnswerKeepsOnce(s: State, k: int, snapshot: Option<Doc>)
    requires Once(s) && k in s.tasks && s.tasks[k].FindFlag?
    ensures Once(s.(tasks := s.tasks[k := Found(s.tasks[k].team, s.tasks[k].id, snapshot)]))
  {
  }

  lemma OnceUses(s: State, k: int)
    requires Once(s) && k in s.tasks
    ensures s.tasks[k].Save? ==>
      var doc := s.tasks[k].doc; doc.id !in s.db && !doc.delivered && doc.captures == [] && doc.checks == []
    ensures s.tasks[k].SetDelivered? && s.tasks[k].id in s.db ==> !s.db[s.tasks[k].id].delivered
    ensures s.tasks[k].SetDelivered? ==> Reported(Finish(s, k), s.tasks[k].id)
  {
  }

  lemma LogKeepsOnce(s: State, w: Write)
    requires Once(s)
    ensures Once(Log(s, w))
  {
  }

  lemma ApplyKeepsOnce(s: State, k: int, cursor: seq<string>)
    requires Once(s) && k in s.tasks && IsDbOp(s.tasks[k])
    ensures Once(ApplyTask(s, k, cursor))
  {
    OnceUses(s, k);
    var done := Finish(s, k);
    FinishKeepsOnce(s, k);
    assert forall id :: id in done.db ==> done.db[id].id == id;
    hide Once, Reported;
    match s.tasks[k]
    case Save(doc) =>
      SaveKeepsOnce(s, k);
      LogKeepsOnce(done.(db := s.db[doc.id := doc]), Created(doc.id, doc.team));
    case SetDelivered(id, ok) =>
      ChangeKeepsOnce(done, id, Deliver(ok));
      LogKeepsOnce(Change(done, id, Deliver(ok)), PlantResult(id, ok));
    case PushCheck(id, check) =>
      ChangeKeepsOnce(done, id, AddCheck(check));
      LogKeepsOnce(Change(done, id, AddCheck(check)), CheckResult(id, check.result));
    case PushCapture(team, id, at) =>
      ChangeKeepsOnce(done, id, AddCapture(Capture(team, at)));
      LogKeepsOnce(Change(done, id, AddCapture(Capture(team, at))), Captured(id, team));
    case FindUncaptured(_, at) => EnqueueChecksKeepsOnce(done, cursor, at);
    case FindFlag(team, id) => AnswerKeepsOnce(s, k, if id in s.db then Some(s.db[id]) else None);
  }

  /** The invariant does not look at the other variables. */
  lemma OnceFrame(s: State, s': State)
    requires Once(s)
    requires s'.db == s.db && s'.datas == s.datas && s'.planting == s.planting && s'.tasks == s.tasks && s'.next == s.next
    ensures Once(s')
  {
  }

  lemma StepKeepsOnce(c: Config, s: State, e: Event)
    requires Once(s) && Enabled(c, s, e)
    ensures Once(Step(c, s, e))
  {
    hide Once;
    match e
    case Plant(choices) =>
      var s1 := s.(latest := Some(s.now), rounds := s.rounds + [s.now]);
      OnceFrame(s, s1);
      PlantAllKeepsOnce(s1, Grid(c.services, c.teams), choices);
    case PlantDone(id, status) => PlantedKeepsOnce(s, id, status);
    case CheckRound =>
      if s.latest.Some? { EnqueueKeepsOnce(s, FindUncaptured(s.latest.value, s.now)); }
    case CheckDone(k, status) =>
      FinishKeepsOnce(s, k);
      EnqueueKeepsOnce(Finish(s, k), PushCheck(s.tasks[k].id, Check(s.tasks[k].at, status == Exit(0))));
    case FlagLine(conn, id) =>
      if s.connections[conn].Some? { EnqueueKeepsOnce(s, FindFlag(s.connections[conn].value, id)); }
    case LookupDone(k) =>
      FinishKeepsOnce(s, k);
      EnqueueKeepsOnce(Finish(s, k), PushCapture(s.tasks[k].team, s.tasks[k].id, s.now));
    case Apply(k, cursor) => ApplyKeepsOnce(s, k, cursor);
    case _ => OnceFrame(s, Step(c, s, e));
  }

  // ----- every write moves the ledger and the documents by the same amount

  lemma BookedAfterLog(p: Points, s: State, w: Write)
    ensures Replay(p, Log(s, w).trace) == Post(p, Replay(p, s.trace), w)
  {
    assert (s.trace + [w])[..|s.trace|] == s.trace;
  }

  ghost function Gain(p: Points, db: map<string, Doc>, id: string, doc: Doc, team: string): int {
    DocPoints(p, doc, team) - if id in db then DocPoints(p, db[id], team) else 0
  }

  lemma BalancedAfterChange(p: Points, b: Book, b': Book, db: map<string, Doc>, challenges: map<string, Challenge>,
                            id: string, doc: Doc)
    requires Balanced(p, b, db, challenges)
    requires forall team :: Balance(b', team) == Balance(b, team) + Gain(p, db, id, doc, team)
    ensures Balanced(p, b', db[id := doc], challenges)
  {
    forall team ensures Balance(b', team) == DbPoints(p, db[id := doc], team) + AllRanks(challenges, team) {
      DbPointsChange(p, db, id, doc, team);
      assert Balance(b', team) == Balance(b, team) + Gain(p, db, id, doc, team);
    }
  }

  /** A write whose posting matches the change of one document keeps the books. */
  lemma BookedAfterWrite(p: Points, s: State, w: Write, id: string, doc: Doc)
    requires Booked(p, s)
    requires Agrees(Post(p, Replay(p, s.trace), w), s.db[id := doc])
    requires forall team ::
      Balance(Post(p, Replay(p, s.trace), w), team) == Balance(Replay(p, s.trace), team) + Gain(p, s.db, id, doc, team)
    ensures Booked(p, Log(s.(db := s.db[id := doc]), w))
  {
    hide Agrees, Balanced, Post, Gain, Balance;
    var b := Replay(p, s.trace);
    BookedAfterLog(p, s, w);
    BalancedAfterChange(p, b, Post(p, b, w), s.db, s.challenges, id, doc);
  }

  /** A write about a flag without a document changes nothing. */
  lemma BookedWithout(p: Points, s: State, w: Write)
    requires Booked(p, s) && Post(p, Replay(p, s.trace), w) == Replay(p, s.trace)
    ensures Booked(p, Log(s, w))
  {
    hide Agrees, Balanced, Post;
    BookedAfterLog(p, s, w);
  }

  lemma SaveAgrees(p: Points, b: Book, db: map<string, Doc>, doc: Doc)
    requires Agrees(b, db) && doc.id !in db && !doc.delivered && doc.captures == []
    ensures Agrees(Post(p, b, Created(doc.id, doc.team)), db[doc.id := doc])
  {
  }

  lemma NewGain(p: Points, doc: Doc, team: string)
    requires !doc.delivered && doc.captures == [] && doc.checks == []
    ensures DocPoints(p, doc, team) == 0
  {
  }

  lemma BookedAfterSave(p: Points, s: State, doc: Doc)
    requires Booked(p, s)
    requires doc.id !in s.db && !doc.delivered && doc.captures == [] && doc.checks == []
    ensures Booked(p, Log(s.(db := s.db[doc.id := doc]), Created(doc.id, doc.team)))
  {
    hide Agrees, Balanced, Replay, DocPoints;
    var b, w := Replay(p, s.trace), Created(doc.id, doc.team);
    SaveAgrees(p, b, s.db, doc);
    forall team ensures Balance(Post(p, b, w), team) == Balance(b, team) + Gain(p, s.db, doc.id, doc, team) {
      NewGain(p, doc, team);
    }
    BookedAfterWrite(p, s, w, doc.id, doc);
  }

  lemma DeliverGain(p: Points, was: Doc, ok: bool, team: string)
    requires !was.delivered
    ensures DocPoints(p, Deliver(ok)(was), team) - DocPoints(p, was, team)
         == if ok && team == was.team then p.deliver + (if was.captures == [] then p.defend else 0) else 0
  {
  }

  lemma DeliverPosted(p: Points, b: Book, id: string, ok: bool, t: string)
    requires id in b.owner
    ensures Balance(Post(p, b, PlantResult(id, ok)), t) == Balance(b, t) +
            if ok && t == b.owner[id] then p.deliver + (if id in b.captured then 0 else p.defend) else 0
  {
  }

  lemma DeliverAgrees(p: Points, b: Book, db: map<string, Doc>, id: string, ok: bool)
    requires Agrees(b, db) && id in db && !db[id].delivered
    ensures Agrees(Post(p, b, PlantResult(id, ok)), db[id := Deliver(ok)(db[id])])
  {
    var b' := Post(p, b, PlantResult(id, ok));
    assert b'.owner == b.owner && b'.captured == b.captured && b'.delivered == b.delivered + if ok then {id} else {};
  }

  /** What the ledger knows about a flag, read off the stored documents. */
  lemma OwnerKnown(b: Book, db: map<string, Doc>, id: string)
    requires Agrees(b, db)
    ensures id in b.owner <==> id in db
    ensures id in db ==> b.owner[id] == db[id].team && (id in b.delivered <==> db[id].delivered)
    ensures id in db ==> (id in b.captured <==> db[id].captures != [])
  {
  }

  lemma BookedAfterDeliver(p: Points, s: State, id: string, ok: bool)
    requires Booked(p, s)
    requires id in s.db ==> !s.db[id].delivered
    ensures Booked(p, Log(Change(s, id, Deliver(ok)), PlantResult(id, ok)))
  {
    hide Agrees, Balanced, Replay, Balance, DocPoints;
    var b, w := Replay(p, s.trace), PlantResult(id, ok);
    OwnerKnown(b, s.db, id);
    if id in s.db {
      var doc := Deliver(ok)(s.db[id]);
      forall t ensures Balance(Post(p, b, w), t) == Balance(b, t) + Gain(p, s.db, id, doc, t) {
        DeliverPosted(p, b, id, ok, t);
        DeliverGain(p, s.db[id], ok, t);
      }
      DeliverAgrees(p, b, s.db, id, ok);
      BookedAfterWrite(p, s, w, id, doc);
    } else {
      BookedWithout(p, s, w);
    }
  }

  lemma CheckGain(p: Points, was: Doc, check: Check, team: string)
    ensures DocPoints(p, AddCheck(check)(was), team) - DocPoints(p, was, team)
         == if check.result && team == was.team then p.check else 0
  {
    var doc := AddCheck(check)(was);
    assert doc.checks[..|doc.checks| - 1] == was.checks;
    var n := GoodChecks(was.checks);
    assert (n + 1) * p.check == n * p.check + p.check;
  }

  lemma CheckPosted(p: Points, b: Book, id: string, ok: bool, t: string)
    requires id in b.owner
    ensures Balance(Post(p, b, CheckResult(id, ok)), t) == Balance(b, t) + if ok && t == b.owner[id] then p.check else 0
  {
  }

  lemma CheckAgrees(p: Points, b: Book, db: map<string, Doc>, id: string, check: Check)
    requires Agrees(b, db) && id in db
    ensures Agrees(Post(p, b, CheckResult(id, check.result)), db[id := AddCheck(check)(db[id])])
  {
  }

  lemma BookedAfterCheck(p: Points, s: State, id: string, check: Check)
    requires Booked(p, s)
    ensures Booked(p, Log(Change(s, id, AddCheck(check)), CheckResult(id, check.result)))
  {
    hide Agrees, Balanced, Replay, Balance, DocPoints;
    var b, w := Replay(p, s.trace), CheckResult(id, check.result);
    OwnerKnown(b, s.db, id);
    if id in s.db {
      var doc := AddCheck(check)(s.db[id]);
      forall t ensures Balance(Post(p, b, w), t) == Balance(b, t) + Gain(p, s.db, id, doc, t) {
        CheckPosted(p, b, id, check.result, t);
        CheckGain(p, s.db[id], check, t);
      }
      CheckAgrees(p, b, s.db, id, check);
      BookedAfterWrite(p, s, w, id, doc);
    } else {
      BookedWithout(p, s, w);
    }
  }

  lemma CaptureGain(p: Points, was: Doc, capture: Capture, team: string)
    ensures DocPoints(p, AddCapture(capture)(was), team) - DocPoints(p, was, team)
         == (if team == capture.team then p.capture else 0)
            - (if team == was.team && was.delivered && was.captures == [] then p.defend else 0)
  {
    var doc := AddCapture(capture)(was);
    assert doc.captures[..|doc.captures| - 1] == was.captures;
    var n := CapturesBy(was.captures, team);
    assert (n + 1) * p.capture == n * p.capture + p.capture;
  }

  lemma CapturePosted(p: Points, b: Book, id: string, team: string, t: string)
    requires id in b.owner
    ensures Balance(Post(p, b, Captured(id, team)), t)
         == Balance(b, t) + (if t == team then p.capture else 0)
            - (if t == b.owner[id] && id in b.delivered && id !in b.captured then p.defend else 0)
  {
  }

  lemma CaptureAgrees(p: Points, b: Book, db: map<string, Doc>, id: string, capture: Capture)
    requires Agrees(b, db) && id in db
    ensures Agrees(Post(p, b, Captured(id, capture.team)), db[id := AddCapture(capture)(db[id])])
  {
    var b' := Post(p, b, Captured(id, capture.team));
    assert b'.owner == b.owner && b'.delivered == b.delivered && b'.captured == b.captured + {id};
  }

  lemma BookedAfterCapture(p: Points, s: State, team: string, id: string, at: int)
    requires Booked(p, s)
    ensures Booked(p, Log(Change(s, id, AddCapture(Capture(team, at))), Captured(id, team)))
  {
    hide Agrees, Balanced, Replay, Balance, DocPoints;
    var b, w := Replay(p, s.trace), Captured(id, team);
    OwnerKnown(b, s.db, id);
    if id in s.db {
      var doc := AddCapture(Capture(team, at))(s.db[id]);
      forall t ensures Balance(Post(p, b, w), t) == Balance(b, t) + Gain(p, s.db, id, doc, t) {
        CapturePosted(p, b, id, team, t);
        CaptureGain(p, s.db[id], Capture(team, at), t);
      }
      CaptureAgrees(p, b, s.db, id, Capture(team, at));
      BookedAfterWrite(p, s, w, id, doc);
    } else {
      BookedWithout(p, s, w);
    }
  }

  lemma RankAgrees(b: Book, rank: Rank, db: map<string, Doc>)
    requires Agrees(b, db)
    ensures Agrees(Credit(b, rank.team, rank.points), db)
  {
  }

  lemma BookedAfterSolve(p: Points, s: State, name: string, rank: Rank)
    requires Booked(p, s)
    ensures Booked(p, Log(s.(challenges := PushRank(s.challenges, name, rank)), Solved(rank)))
  {
    hide Agrees, Replay, AllRanks;
    var b := Replay(p, s.trace);
    BookedAfterLog(p, s, Solved(rank));
    RankAgrees(b, rank, s.db);
    forall team ensures Balance(Credit(b, rank.team, rank.points), team) ==
                        DbPoints(p, s.db, team) + AllRanks(PushRank(s.challenges, name, rank), team) {
      AllRanksPush(s.challenges, name, rank, team);
    }
  }

  lemma {:induction false} EnqueueChecksFrame(s: State, ids: seq<string>, at: int)
    ensures var s' := EnqueueChecks(s, ids, at);
            s'.db == s.db && s'.trace == s.trace && s'.challenges == s.challenges
    decreases |ids|
  {
    if ids != [] {
      EnqueueChecksFrame(Enqueue(s, Checking(ids[0], at)), ids[1..], at);
    }
  }

  lemma BookedFrame(p: Points, s: State, s': State)
    requires Booked(p, s) && s'.db == s.db && s'.trace == s.trace && s'.challenges == s.challenges
    ensures Booked(p, s')
  {
  }

  lemma ApplyKeepsBooked(p: Points, s: State, k: int, cursor: seq<string>)
    requires Once(s) && Booked(p, s) && k in s.tasks && IsDbOp(s.tasks[k])
    ensures Booked(p, ApplyTask(s, k, cursor))
  {
    hide Once, Booked;
    OnceUses(s, k);
    var done := Finish(s, k);
    BookedFrame(p, s, done);
    match s.tasks[k]
    case Save(doc) => BookedAfterSave(p, done, doc);
    case SetDelivered(id, ok) => BookedAfterDeliver(p, done, id, ok);
    case PushCheck(id, check) => BookedAfterCheck(p, done, id, check);
    case PushCapture(team, id, at) => BookedAfterCapture(p, done, team, id, at);
    case FindUncaptured(_, at) =>
      EnqueueChecksFrame(done, cursor, at);
      BookedFrame(p, done, EnqueueChecks(done, cursor, at));
    case FindFlag(team, id) => BookedFrame(p, s, ApplyTask(s, k, cursor));
  }

  lemma StepKeepsBooked(c: Config, p: Points, s: State, e: Event)
    requires Once(s) && Booked(p, s) && Enabled(c, s, e)
    ensures Booked(p, Step(c, s, e))
  {
    hide Once, Booked;
    match e
    case Plant(choices) =>
      var s1 := s.(latest := Some(s.now), rounds := s.rounds + [s.now]);
      OnceFrame(s, s1);
      PlantAllKeepsOnce(s1, Grid(c.services, c.teams), choices);
      BookedFrame(p, s, Step(c, s, e));
    case Apply(k, cursor) => ApplyKeepsBooked(p, s, k, cursor);
    case Solve(name, rank) => BookedAfterSolve(p, s, name, rank);
    case _ => BookedFrame(p, s, Step(c, s, e));
  }

  lemma {:induction false} RunKeepsBooks(c: Config, d: Discipline, p: Points, s: State, es: seq<Event>)
    requires Once(s) && Booked(p, s) && Run(c, d, s, es)
    ensures Once(After(c, d, s, es)) && Booked(p, After(c, d, s, es))
    decreases |es|
  {
    if es != [] {
      StepKeepsOnce(c, s, es[0]);
      StepKeepsBooked(c, p, s, es[0]);
      RunKeepsBooks(c, d, p, Step(c, s, es[0]), es[1..]);
    }
  }

  /**
   After every run, in whatever order the cursors hand out the stored documents, what the documents
   are worth to a team is what the ledger has booked for it.
   */
  lemma WorthIsLedger(c: Config, d: Discipline, p: Points, es: seq<Event>,
                      docs: seq<Doc>, challenges: seq<Challenge>, team: string)
    requires Run(c, d, INITIAL, es)
    requires Lists(docs, After(c, d, INITIAL, es).db)
    requires ListsChallenges(challenges, After(c, d, INITIAL, es).challenges)
    ensures Worth(p, docs, challenges, team) == Balance(Replay(p, After(c, d, INITIAL, es).trace), team)
  {
    assert Booked(p, INITIAL);
    RunKeepsBooks(c, d, p, INITIAL, es);
    ListedPoints(p, docs, After(c, d, INITIAL, es).db, team);
    ListedRanks(challenges, After(c, d, INITIAL, es).challenges, team);
  }
}

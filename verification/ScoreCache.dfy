/** The cache in front of the score report, and the callers that wait for it. */
module ScoreCache {
  import opened GameTypes

  /** What can happen: a request arrives, the running generation ends, an expiry timer fires. */
  datatype Event<V> = Request | Done(result: V) | Expiry

  /** A one-shot listener. Each is a closure of its own, told apart by the event that registered it. */
  datatype Listener = Caller(id: nat) | Settle(id: nat)

  /** The variables of the cache, the generations and timers under way, and the answers given so far
      as pairs of request and result. */
  datatype Cache<V> = Cache(generating: bool, cached: Option<V>, listeners: seq<Listener>, running: nat, timers: nat,
                            answers: seq<(nat, V)>, clock: nat)

  // ----- one event

  function Without(listeners: seq<Listener>, l: Listener): seq<Listener> {
    if listeners == [] then []
    else if listeners[0] == l then listeners[1..]
    else [listeners[0]] + Without(listeners[1..], l)
  }

  /** A one-shot listener takes itself off the list and is called. */
  function Fire<V>(s: Cache<V>, l: Listener, v: V): Cache<V> {
    var s' := s.(listeners := Without(s.listeners, l));
    match l
    case Caller(id) => s'.(answers := s'.answers + [(id, v)])
    case Settle(_) => s'.(cached := Some(v), generating := false, timers := s'.timers + 1)
  }

  function FireAll<V>(s: Cache<V>, ls: seq<Listener>, v: V): Cache<V>
    decreases |ls|
  {
    if ls == [] then s else FireAll(Fire(s, ls[0], v), ls[1..], v)
  }

  /** The event goes to the listeners registered when it was emitted. */
  function Emit<V>(s: Cache<V>, v: V): Cache<V> {
    FireAll(s, s.listeners, v)
  }

  function Ask<V>(s: Cache<V>): Cache<V> {
    var s' := s.(listeners := s.listeners + [Caller(s.clock)], clock := s.clock + 1);
    if !s.generating && s.cached.None? then
      s'.(generating := true, running := s.running + 1, listeners := s'.listeners + [Settle(s.clock)])
    else if s.cached.Some? then Emit(s', s.cached.value)
    else s'
  }

  function Finish<V>(s: Cache<V>, v: V): Cache<V>
    requires s.running > 0
  {
    Emit(s.(running := s.running - 1, clock := s.clock + 1), v)
  }

  function Expire<V>(s: Cache<V>): Cache<V>
    requires s.timers > 0
  {
    s.(cached := None, timers := s.timers - 1, clock := s.clock + 1)
  }

  /** A generation can only end while one runs, and a timer can only fire while one is pending. */
  predicate Possible<V>(s: Cache<V>, e: Event<V>) {
    match e
    case Request => true
    case Done(_) => s.running > 0
    case Expiry => s.timers > 0
  }

  function Step<V>(s: Cache<V>, e: Event<V>): Cache<V>
    requires Possible(s, e)
  {
    match e
    case Request => Ask(s)
    case Done(v) => Finish(s, v)
    case Expiry => Expire(s)
  }

  function Start<V>(): Cache<V> {
    Cache(false, None, [], 0, 0, [], 0)
  }

  /** The cache after these events, if each of them was possible when it happened. */
  function Run<V>(events: seq<Event<V>>): Option<Cache<V>> {
    if events == [] then Some(Start())
    else
      var s, e := Run(events[..|events| - 1]), events[|events| - 1];
      if s.Some? && Possible(s.value, e) then Some(Step(s.value, e)) else None
  }

  // ----- what a caller should get, read off the history alone

  /** The result on offer: the last one made, unless a timer has fired since. */
  function Fresh<V>(events: seq<Event<V>>): Option<V> {
    if events == [] then None
    else
      match events[|events| - 1]
      case Done(v) => Some(v)
      case Expiry => None
      case Request => Fresh(events[..|events| - 1])
  }

  /** The first result made at or after position `i`. */
  function NextDone<V>(events: seq<Event<V>>, i: nat): Option<V>
    requires i <= |events|
    decreases |events| - i
  {
    if i == |events| then None
    else if events[i].Done? then Some(events[i].result)
    else NextDone(events, i + 1)
  }

  /** A request gets the result on offer when it arrives, or else the next one made. */
  function Answer<V>(events: seq<Event<V>>, i: nat): Option<V>
    requires i < |events|
  {
    if Fresh(events[..i]).Some? then Fresh(events[..i]) else NextDone(events, i + 1)
  }

  /** The requests, in order of arrival. */
  function Requests<V>(events: seq<Event<V>>): (ids: seq<nat>)
    ensures forall i :: i in ids ==> i < |events|
    ensures forall i, j :: 0 <= i < j < |ids| ==> ids[i] < ids[j]
  {
    if events == [] then []
    else
      var earlier := Requests(events[..|events| - 1]);
      assert forall k :: 0 <= k < |earlier| ==> earlier[k] in earlier;
      earlier + if events[|events| - 1].Request? then [|events| - 1] else []
  }

  lemma {:induction false} NextDoneLater<V>(events: seq<Event<V>>, e: Event<V>, i: nat)
    requires i <= |events|
    ensures NextDone(events + [e], i) ==
            if NextDone(events, i).Some? then NextDone(events, i) else if e.Done? then Some(e.result) else None
    decreases |events| - i
  {
    if i == |events| {
      assert NextDone(events + [e], i + 1) == None;
    } else {
      NextDoneLater(events, e, i + 1);
    }
  }

  /** An answer once due never changes; a waiting request is answered by the next result. */
  lemma AnswerLater<V>(events: seq<Event<V>>, e: Event<V>, i: nat)
    requires i < |events|
    ensures Answer(events + [e], i) ==
            if Answer(events, i).Some? then Answer(events, i) else if e.Done? then Some(e.result) else None
  {
    assert (events + [e])[..i] == events[..i];
    NextDoneLater(events, e, i + 1);
  }

  lemma NextDoneNone<V>(events: seq<Event<V>>)
    ensures NextDone(events, |events|) == None
  {
  }

  /** The request that has just arrived. */
  lemma AnswerNow<V>(events: seq<Event<V>>)
    ensures Answer(events + [Request], |events|) == Fresh(events)
  {
    assert (events + [Request])[..|events|] == events;
  }

  // ----- the invariant

  function Callers(ls: seq<Listener>): seq<nat> {
    if ls == [] then []
    else (if ls[0].Caller? then [ls[0].id] else []) + Callers(ls[1..])
  }

  function Ids<V>(answers: seq<(nat, V)>): seq<nat> {
    seq(|answers|, k requires 0 <= k < |answers| => answers[k].0)
  }

  function Give<V>(ids: seq<nat>, v: V): seq<(nat, V)> {
    seq(|ids|, k requires 0 <= k < |ids| => (ids[k], v))
  }

  lemma {:induction false} CallersAppend(ls: seq<Listener>, l: Listener)
    ensures Callers(ls + [l]) == Callers(ls) + if l.Caller? then [l.id] else []
  {
    if ls == [] {
      assert ls + [l] == [l];
    } else {
      CallersAppend(ls[1..], l);
      assert (ls + [l])[1..] == ls[1..] + [l];
    }
  }

  /** Exactly one listener settles the cache. */
  function Settles(ls: seq<Listener>): nat {
    if ls == [] then 0 else (if ls[0].Settle? then 1 else 0) + Settles(ls[1..])
  }

  /** Emitting empties the list, answers every caller in order and settles once per settling listener. */
  lemma {:induction false} EmitAll<V>(s: Cache<V>, v: V)
    ensures var s' := Emit(s, v);
            && s'.listeners == [] && s'.answers == s.answers + Give(Callers(s.listeners), v)
            && s'.timers == s.timers + Settles(s.listeners) && s'.clock == s.clock && s'.running == s.running
            && (if Settles(s.listeners) == 0 then s'.cached == s.cached && s'.generating == s.generating
                else s'.cached == Some(v) && !s'.generating)
    decreases |s.listeners|
  {
    if s.listeners == [] {
      assert Give(Callers(s.listeners), v) == [];
    } else {
      var s1 := Fire(s, s.listeners[0], v);
      assert s1.listeners == s.listeners[1..];
      EmitAll(s1, v);
      assert Emit(s, v) == Emit(s1, v);
      assert Give(Callers(s.listeners), v) ==
             (if s.listeners[0].Caller? then [(s.listeners[0].id, v)] else []) + Give(Callers(s1.listeners), v);
    }
  }

  lemma {:induction false} SettlesAppend(ls: seq<Listener>, l: Listener)
    ensures Settles(ls + [l]) == Settles(ls) + if l.Settle? then 1 else 0
  {
    if ls == [] {
      assert ls + [l] == [l];
    } else {
      SettlesAppend(ls[1..], l);
      assert (ls + [l])[1..] == ls[1..] + [l];
    }
  }

  /** What the variables mean, in terms of the history. */
  ghost predicate Inv<V>(events: seq<Event<V>>, s: Cache<V>) {
    && s.clock == |events| && s.running == (if s.generating then 1 else 0)
    && s.cached == Fresh(events) && s.timers == (if s.cached.Some? then 1 else 0)
    && (if s.generating then s.cached.None? && Callers(s.listeners) != [] else s.listeners == [])
    && Settles(s.listeners) == (if s.generating then 1 else 0)
    && Ids(s.answers) + Callers(s.listeners) == Requests(events)
    && RightAnswers(events, s.answers) && AllWait(events, Callers(s.listeners))
  }

  ghost predicate RightAnswers<V>(events: seq<Event<V>>, answers: seq<(nat, V)>) {
    forall k :: 0 <= k < |answers| ==> answers[k].0 < |events| && Answer(events, answers[k].0) == Some(answers[k].1)
  }

  ghost predicate AllWait<V>(events: seq<Event<V>>, ids: seq<nat>) {
    forall k :: 0 <= k < |ids| ==> ids[k] < |events| && Answer(events, ids[k]) == None
  }

  lemma RightLater<V>(events: seq<Event<V>>, e: Event<V>, answers: seq<(nat, V)>)
    requires RightAnswers(events, answers)
    ensures RightAnswers(events + [e], answers)
  {
    forall k | 0 <= k < |answers| ensures Answer(events + [e], answers[k].0) == Some(answers[k].1) {
      AnswerLater(events, e, answers[k].0);
    }
  }

  lemma WaitLater<V>(events: seq<Event<V>>, e: Event<V>, ids: seq<nat>)
    requires AllWait(events, ids)
    ensures if e.Done? then RightAnswers(events + [e], Give(ids, e.result)) else AllWait(events + [e], ids)
  {
    forall k | 0 <= k < |ids|
      ensures Answer(events + [e], ids[k]) == if e.Done? then Some(e.result) else None
    {
      AnswerLater(events, e, ids[k]);
    }
  }

  lemma GiveIds<V>(answers: seq<(nat, V)>, ids: seq<nat>, v: V)
    ensures Ids(answers + Give(ids, v)) == Ids(answers) + ids
  {
  }

  /** A request arrives: it starts a generation, joins the one that runs, or is answered at once. */
  lemma RequestKeeps<V>(events: seq<Event<V>>, s: Cache<V>)
    requires Inv(events, s)
    ensures Inv(events + [Request], Ask(s))
  {
    var id, events' := s.clock, events + [Request];
    assert events'[..|events|] == events && Requests(events') == Requests(events) + [id];
    RightLater(events, Request, s.answers);
    WaitLater(events, Request, Callers(s.listeners));
    AnswerNow(events);
    var joined := s.listeners + [Caller(id)];
    CallersAppend(s.listeners, Caller(id));
    SettlesAppend(s.listeners, Caller(id));
    CallersAppend(joined, Settle(id));
    SettlesAppend(joined, Settle(id));
    if s.cached.Some? {
      EmitAll(s.(listeners := joined, clock := id + 1), s.cached.value);
      GiveIds(s.answers, [id], s.cached.value);
    } else {
      NextDoneNone(events');
    }
  }

  /** A generation ends: every waiting caller is answered, and the result is cached under one timer. */
  lemma DoneKeeps<V>(events: seq<Event<V>>, s: Cache<V>, v: V)
    requires Inv(events, s) && s.running > 0
    ensures Inv(events + [Done(v)], Finish(s, v)) && Finish(s, v).listeners == []
  {
    var events' := events + [Done(v)];
    assert events'[..|events|] == events;
    RightLater(events, Done(v), s.answers);
    WaitLater(events, Done(v), Callers(s.listeners));
    EmitAll(s.(running := s.running - 1, clock := s.clock + 1), v);
    GiveIds(s.answers, Callers(s.listeners), v);
  }

  /** The timer fires: the result is no longer on offer. */
  lemma ExpireKeeps<V>(events: seq<Event<V>>, s: Cache<V>)
    requires Inv(events, s) && s.timers > 0
    ensures Inv(events + [Expiry], Expire(s))
  {
    var events' := events + [Expiry];
    assert events'[..|events|] == events;
    RightLater(events, Expiry, s.answers);
    WaitLater(events, Expiry, Callers(s.listeners));
  }

  lemma {:induction false} Always<V>(events: seq<Event<V>>)
    requires Run(events).Some?
    ensures Inv(events, Run(events).value)
    decreases |events|
  {
    if events != [] {
      var before, e := events[..|events| - 1], events[|events| - 1];
      Always(before);
      assert before + [e] == events;
      match e
      case Request => RequestKeeps(before, Run(before).value);
      case Done(v) => DoneKeeps(before, Run(before).value, v);
      case Expiry => ExpireKeeps(before, Run(before).value);
    }
  }

  /** Every run answers its requests in order of arrival, each once and with what was due to it;
      those without an answer wait for a generation, and never more than one runs. */
  lemma EveryRequestOnce<V>(events: seq<Event<V>>)
    requires Run(events).Some?
    ensures var s := Run(events).value;
            && Ids(s.answers) <= Requests(events) && RightAnswers(events, s.answers)
            && s.running == (if Ids(s.answers) != Requests(events) then 1 else 0)
            && (forall id :: id in Requests(events) && id !in Ids(s.answers) ==> Answer(events, id) == None)
  {
    Always(events);
    var s := Run(events).value;
    forall id | id in Requests(events) && id !in Ids(s.answers) ensures Answer(events, id) == None {
      assert id in Callers(s.listeners);
    }
  }

  /** A result is cached exactly while one timer is pending, and never while a generation runs. */
  lemma CachedIffTimer<V>(events: seq<Event<V>>)
    requires Run(events).Some?
    ensures var s := Run(events).value;
            && s.timers == (if s.cached.Some? then 1 else 0)
            && s.cached == Fresh(events) && (s.running > 0 ==> s.cached.None?)
  {
    Always(events);
  }

  lemma {:induction false} RequestsAre<V>(events: seq<Event<V>>, k: nat)
    requires k < |events|
    ensures k in Requests(events) <==> events[k].Request?
    decreases |events|
  {
    var n := |events| - 1;
    var earlier := Requests(events[..n]);
    assert Requests(events) == earlier + if events[n].Request? then [n] else [];
    if k < n {
      RequestsAre(events[..n], k);
    } else {
      assert k !in earlier;
    }
  }

  lemma {:induction false} FreshAfter<V>(events: seq<Event<V>>, v: V, later: seq<Event<V>>)
    requires forall i :: 0 <= i < |later| ==> later[i].Request?
    ensures Fresh(events + [Done(v)] + later) == Some(v)
    decreases |later|
  {
    var all := events + [Done(v)] + later;
    if later == [] {
      assert all[|all| - 1] == Done(v);
    } else {
      FreshAfter(events, v, later[..|later| - 1]);
      assert all[..|all| - 1] == events + [Done(v)] + later[..|later| - 1];
    }
  }

  /** While a result is on offer nothing runs and every request has its answer. */
  lemma AllAnswered<V>(events: seq<Event<V>>, id: nat)
    requires Run(events).Some? && Fresh(events).Some? && id < |events| && events[id].Request?
    ensures Run(events).value.running == 0
    ensures Answer(events, id).Some? && (id, Answer(events, id).value) in Run(events).value.answers
  {
    var s := Run(events).value;
    EveryRequestOnce(events);
    CachedIffTimer(events);
    RequestsAre(events, id);
    hide Run, Fresh, Requests;
    assert id in Ids(s.answers);
    var n :| 0 <= n < |s.answers| && Ids(s.answers)[n] == id;
    assert s.answers[n] == (id, Answer(events, id).value);
  }

  /** Until the timer fires, every request after a result is answered with it at once and starts nothing. */
  lemma CacheServes<V>(events: seq<Event<V>>, v: V, later: seq<Event<V>>, k: nat)
    requires Run(events + [Done(v)] + later).Some? && forall i :: 0 <= i < |later| ==> later[i].Request?
    requires k < |later|
    ensures var s := Run(events + [Done(v)] + later).value;
            s.running == 0 && (|events| + 1 + k, v) in s.answers
  {
    hide Run, Requests;
    var all, id := events + [Done(v)] + later, |events| + 1 + k;
    FreshAfter(events, v, later);
    FreshAfter(events, v, later[..k]);
    assert all[id] == later[k] && all[..id] == events + [Done(v)] + later[..k];
    AllAnswered(all, id);
  }

  /** Once the timer has fired, the next request starts a generation and waits for it. */
  lemma ExpiryRestarts<V>(events: seq<Event<V>>)
    requires Run(events + [Expiry, Request]).Some?
    ensures var s := Run(events + [Expiry, Request]).value;
            s.running == 1 && |events| + 1 !in Ids(s.answers)
  {
    var before, id := events + [Expiry], |events| + 1;
    var all := events + [Expiry, Request];
    assert all == before + [Request] && all[..id] == before && before[..|events|] == events;
    EveryRequestOnce(all);
    RequestsAre(all, id);
    var s := Run(all).value;
    AnswerNow(before);
    assert Fresh(before) == None;
  }

  // ----- the cache itself

  /** The variables of the module and its emitter. */
  class Scores<V> {
    var generating: bool
    var cached: Option<V>
    var listeners: seq<Listener>
    var running: nat
    var timers: nat
    var answers: seq<(nat, V)>
    var clock: nat

    function View(): Cache<V>
      reads this
    {
      Cache(generating, cached, listeners, running, timers, answers, clock)
    }

    constructor ()
      ensures View() == Start()
    {
      generating, cached, listeners, running, timers, answers, clock := false, None, [], 0, 0, [], 0;
    }

    method Generate()
      modifies this
      ensures View() == Ask(old(View()))
    {
      var id := clock;
      clock := clock + 1;
      listeners := listeners + [Caller(id)];
      if !generating && cached.None? {
        generating := true;
        listeners := listeners + [Settle(id)];
        running := running + 1;
      } else if cached.Some? {
        EmitResult(cached.value);
      }
    }

    /** The generation that was started has its result. */
    method Complete(result: V)
      requires running > 0
      modifies this
      ensures View() == Finish(old(View()), result)
    {
      running, clock := running - 1, clock + 1;
      EmitResult(result);
    }

    method Expired()
      requires timers > 0
      modifies this
      ensures View() == Expire(old(View()))
    {
      clock := clock + 1;
      timers := timers - 1;
      cached := None;
    }

    method EmitResult(result: V)
      modifies this
      ensures View() == Emit(old(View()), result)
    {
      var called, n := listeners, 0;
      while n < |called|
        invariant n <= |called|
        invariant FireAll(View(), called[n..], result) == Emit(old(View()), result)
      {
        assert called[n..][0] == called[n] && called[n..][1..] == called[n + 1..];
        listeners := Without(listeners, called[n]);
        match called[n] {
          case Caller(id) =>
            answers := answers + [(id, result)];
          case Settle(_) =>
            cached, generating := Some(result), false;
            timers := timers + 1;
        }
        n := n + 1;
      }
    }
  }
}

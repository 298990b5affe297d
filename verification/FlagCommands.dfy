/** Checking a flag: the genuine command and four decoys, run together. */
module FlagCommands {
  import opened GameTypes
  import opened Sequences

  const HEX := "0123456789ABCDEF"
  const FALSE_POSITIVE := "False positive detected : "

  // ----- decoys

  /** The text with the character at `idx` replaced; an empty text becomes that character. */
  function Modify(data: string, idx: nat, chr: char): string
    requires idx < |data| || (data == "" && idx == 0)
  {
    data[..idx] + [chr] + if idx < |data| then data[idx + 1..] else ""
  }

  /** One pair of random numbers: a position and a hexadecimal digit. */
  predicate IsDraw(data: string, draw: (nat, char)) {
    (draw.0 < |data| || (data == "" && draw.0 == 0)) && draw.1 in HEX
  }

  function Drawn(data: string, draw: (nat, char)): string {
    if IsDraw(data, draw) then Modify(data, draw.0, draw.1) else data
  }

  ghost predicate DiffersAt(a: string, b: string, i: nat) {
    && i < |a| == |b| && a[i] != b[i]
    && forall j :: 0 <= j < |a| && j != i ==> a[j] == b[j]
  }

  /** Like the flag's text except in exactly one position, which holds a hexadecimal digit. */
  ghost predicate OneOff(data: string, bad: string) {
    exists i: nat :: DiffersAt(data, bad, i) && bad[i] in "0123456789ABCDEF"
  }

  ghost predicate IsDecoy(data: string, bad: string) {
    if data == "" then |bad| == 1 && bad[0] in HEX else OneOff(data, bad)
  }

  /** Draws until the text changes; `draws` are the random numbers, one of which has to change it. */
  method BadData(data: string, draws: seq<(nat, char)>) returns (bad: string)
    requires forall n :: 0 <= n < |draws| ==> IsDraw(data, draws[n])
    requires exists n :: 0 <= n < |draws| && Drawn(data, draws[n]) != data
    ensures IsDecoy(data, bad)
  {
    hide Drawn, IsDraw;
    bad := data;
    var n := 0;
    while bad == data
      invariant n <= |draws| && (bad != data ==> n > 0 && bad == Drawn(data, draws[n - 1]))
      invariant bad == data ==> forall m :: 0 <= m < n ==> Drawn(data, draws[m]) == data
      decreases |draws| - n
    {
      bad := Drawn(data, draws[n]);
      n := n + 1;
    }
    DrawnOnce(data, draws[n - 1]);
  }

  lemma DrawnOnce(data: string, draw: (nat, char))
    requires IsDraw(data, draw) && Drawn(data, draw) != data
    ensures IsDecoy(data, Drawn(data, draw))
  {
    if data != "" { ModifiedOnce(data, draw.0, draw.1); }
  }

  lemma ModifiedOnce(data: string, idx: nat, chr: char)
    requires idx < |data|
    ensures Modify(data, idx, chr) == data || (DiffersAt(data, Modify(data, idx, chr), idx) && Modify(data, idx, chr)[idx] == chr)
  {
    var bad := Modify(data, idx, chr);
    if chr == data[idx] { assert bad == data; }
  }

  // ----- combining the results

  datatype Command = Command(genuine: bool, data: string)

  /** What one command contributes: a decoy has to fail. */
  function Outcome(cmd: Command, status: Status, line: string): (Status, Option<string>) {
    if cmd.genuine then (status, Some(line))
    else if status == Exit(0) then (Exit(1), Some(FALSE_POSITIVE + line))
    else (Exit(0), None)
  }

  /** The last failure, or else status 0 with the first line there is. */
  function Verdict(outcomes: seq<(Status, Option<string>)>): (Status, Option<string>) {
    if outcomes == [] then (Exit(0), None)
    else
      var before, last := Verdict(outcomes[..|outcomes| - 1]), outcomes[|outcomes| - 1];
      if last.0 != Exit(0) then last
      else (before.0, if before.1.None? then last.1 else before.1)
  }

  /** The verdict is success exactly when every outcome is. */
  lemma {:induction false} SuccessIsAll(outcomes: seq<(Status, Option<string>)>)
    ensures Verdict(outcomes).0 == Exit(0) <==> forall i :: 0 <= i < |outcomes| ==> outcomes[i].0 == Exit(0)
  {
    if outcomes != [] { SuccessIsAll(outcomes[..|outcomes| - 1]); }
  }

  /** The last failure decides, with its line. */
  lemma {:induction false} LastFailureDecides(outcomes: seq<(Status, Option<string>)>, i: nat)
    requires i < |outcomes| && outcomes[i].0 != Exit(0) && outcomes[i].1.Some?
    requires forall j :: i < j < |outcomes| ==> outcomes[j].0 == Exit(0)
    ensures Verdict(outcomes) == outcomes[i]
    decreases |outcomes|
  {
    if i < |outcomes| - 1 { LastFailureDecides(outcomes[..|outcomes| - 1], i); }
  }

  /** On success the line is the genuine check's, wherever it came in the order. */
  lemma {:induction false} LineOfSuccess(outcomes: seq<(Status, Option<string>)>, line: string)
    requires forall i :: 0 <= i < |outcomes| ==> outcomes[i].1 in {None, Some(line)} && outcomes[i].0 == Exit(0)
    requires exists i :: 0 <= i < |outcomes| && outcomes[i].1 == Some(line)
    ensures Verdict(outcomes) == (Exit(0), Some(line))
  {
    LineSoFar(outcomes, line);
  }

  lemma {:induction false} LineSoFar(outcomes: seq<(Status, Option<string>)>, line: string)
    requires forall i :: 0 <= i < |outcomes| ==> outcomes[i].1 in {None, Some(line)} && outcomes[i].0 == Exit(0)
    ensures Verdict(outcomes) ==
            (Exit(0), if exists i :: 0 <= i < |outcomes| && outcomes[i].1 == Some(line) then Some(line) else None)
  {
    if outcomes != [] { LineSoFar(outcomes[..|outcomes| - 1], line); }
  }

  /** The variables that the callbacks of one check share. */
  class FlagCheck {
    const cmds: seq<Command>
    var combinedStatus: Status
    var combinedLine: Option<string>
    var count: nat
    /** The calls of the callback so far. */
    var calls: seq<(Status, Option<string>)>
    ghost var outcomes: seq<(Status, Option<string>)>

    ghost predicate Valid()
      reads this
    {
      && count == |outcomes| <= |cmds|
      && (combinedStatus, combinedLine) == Verdict(outcomes)
      && calls == if count == |cmds| then [Verdict(outcomes)] else []
    }

    constructor (cmds: seq<Command>)
      requires cmds != []
      ensures Valid() && outcomes == [] && this.cmds == cmds
    {
      this.cmds, combinedStatus, combinedLine, count, calls, outcomes := cmds, Exit(0), None, 0, [], [];
    }

    /** A command has ended. */
    method Complete(k: nat, status: Status, line: string)
      requires Valid() && k < |cmds| && count < |cmds|
      modifies this
      ensures Valid() && outcomes == old(outcomes) + [Outcome(cmds[k], status, line)]
    {
      var modified := Outcome(cmds[k], status, line);
      if combinedLine == None {
        combinedLine := modified.1;
      }
      if modified.0 != Exit(0) {
        combinedStatus := modified.0;
        combinedLine := modified.1;
      }
      count := count + 1;
      assert (outcomes + [modified])[..|outcomes|] == outcomes;
      outcomes := outcomes + [modified];
      if count == |cmds| {
        calls := calls + [(combinedStatus, combinedLine)];
      }
    }
  }

  // ----- one check

  /** The genuine command ended with status 0 and every decoy with another. */
  ghost predicate Good(cmds: seq<Command>, results: seq<(Status, string)>)
    requires |results| == |cmds|
  {
    forall k :: 0 <= k < |cmds| ==> (results[k].0 == Exit(0) <==> cmds[k].genuine)
  }

  /** Exactly one command is the genuine one; the others are decoys. */
  ghost predicate OneGenuine(cmds: seq<Command>, data: string, g: nat) {
    && g < |cmds| && cmds[g] == Command(true, data)
    && forall k :: 0 <= k < |cmds| && k != g ==> !cmds[k].genuine && IsDecoy(data, cmds[k].data)
  }

  /** The five commands of a check, before they are shuffled. */
  method MakeCommands(data: string, draws: seq<seq<(nat, char)>>) returns (cmds: seq<Command>)
    requires |draws| == 4 && forall d :: d in draws ==> forall n :: 0 <= n < |d| ==> IsDraw(data, d[n])
    requires forall d :: d in draws ==> exists n :: 0 <= n < |d| && Drawn(data, d[n]) != data
    ensures |cmds| == 5 && OneGenuine(cmds, data, 0)
  {
    hide IsDraw, Drawn, IsDecoy;
    cmds := [Command(true, data)];
    while |cmds| < 5
      invariant 1 <= |cmds| <= 5 && OneGenuine(cmds, data, 0)
    {
      assert draws[|cmds| - 1] in draws;
      var bad := BadData(data, draws[|cmds| - 1]);
      cmds := cmds + [Command(false, bad)];
    }
  }

  /** Shuffling leaves one genuine command, wherever it goes. */
  lemma ShuffleKeeps(cmds: seq<Command>, data: string, g: nat, shuffled: seq<Command>) returns (g': nat)
    requires OneGenuine(cmds, data, g) && multiset(shuffled) == multiset(cmds)
    ensures |shuffled| == |cmds| && OneGenuine(shuffled, data, g')
  {
    hide IsDecoy;
    var c := Command(true, data);
    OnceCounted(cmds, c, g);
    assert |multiset(shuffled)| == |shuffled| && |multiset(cmds)| == |cmds|;
    assert multiset(shuffled)[c] == 1;
    g' :| 0 <= g' < |shuffled| && shuffled[g'] == c;
    forall k | 0 <= k < |shuffled| && k != g' ensures !shuffled[k].genuine && IsDecoy(data, shuffled[k].data) {
      if shuffled[k] == c { TwiceCounted(shuffled, if g' < k then g' else k, if g' < k then k else g'); }
      assert shuffled[k] in multiset(shuffled);
      assert shuffled[k] in multiset(cmds) && shuffled[k] in cmds;
    }
  }

  /** The outcomes in the order in which the commands end. */
  function Outcomes(cmds: seq<Command>, results: seq<(Status, string)>, order: seq<nat>): seq<(Status, Option<string>)>
    requires |results| == |cmds| && forall i :: 0 <= i < |order| ==> order[i] < |cmds|
  {
    seq(|order|, i requires 0 <= i < |order| => Outcome(cmds[order[i]], results[order[i]].0, results[order[i]].1))
  }

  /** Every command ends, and there are no more ends than commands. */
  predicate Completes(order: seq<nat>, n: nat) {
    |order| == n && (forall i :: 0 <= i < n ==> order[i] < n) && (forall k :: 0 <= k < n ==> k in order)
  }

  /** The verdict on a check is success exactly when the check is good, in whatever order the commands ended. */
  lemma VerdictIsGood(cmds: seq<Command>, results: seq<(Status, string)>, order: seq<nat>)
    requires |results| == |cmds| && Completes(order, |cmds|)
    ensures Verdict(Outcomes(cmds, results, order)).0 == Exit(0) <==> Good(cmds, results)
  {
    var outcomes := Outcomes(cmds, results, order);
    SuccessIsAll(outcomes);
    if forall i :: 0 <= i < |outcomes| ==> outcomes[i].0 == Exit(0) {
      forall k | 0 <= k < |cmds| ensures results[k].0 == Exit(0) <==> cmds[k].genuine {
        assert k in order;
        var i :| 0 <= i < |order| && order[i] == k;
        assert outcomes[i] == Outcome(cmds[k], results[k].0, results[k].1);
      }
    }
  }

  /** Then the line is the genuine command's. */
  lemma LineIsGenuine(cmds: seq<Command>, results: seq<(Status, string)>, order: seq<nat>, g: nat)
    requires |results| == |cmds| && Completes(order, |cmds|) && Good(cmds, results)
    requires g < |cmds| && forall k :: 0 <= k < |cmds| ==> (cmds[k].genuine <==> k == g)
    ensures Verdict(Outcomes(cmds, results, order)) == (Exit(0), Some(results[g].1))
  {
    var outcomes := Outcomes(cmds, results, order);
    assert g in order;
    var i :| 0 <= i < |order| && order[i] == g;
    assert outcomes[i].1 == Some(results[g].1);
    LineOfSuccess(outcomes, results[g].1);
  }

  /** The genuine command fails unless it exits with 0, a decoy if it does; this one was the last to fail. */
  ghost predicate FailsLast(cmds: seq<Command>, results: seq<(Status, string)>, order: seq<nat>, i: int)
    requires |results| == |cmds| && Completes(order, |cmds|)
  {
    && 0 <= i < |order| && (cmds[order[i]].genuine <==> results[order[i]].0 != Exit(0))
    && forall j :: i < j < |order| ==> (cmds[order[j]].genuine <==> results[order[j]].0 == Exit(0))
  }

  /** A failed check reports what the last command to fail reported; for a decoy that is a false positive. */
  lemma FailureReported(cmds: seq<Command>, results: seq<(Status, string)>, order: seq<nat>)
    requires |results| == |cmds| && Completes(order, |cmds|)
    ensures forall i :: FailsLast(cmds, results, order, i) ==>
      Verdict(Outcomes(cmds, results, order)) ==
        if cmds[order[i]].genuine then (results[order[i]].0, Some(results[order[i]].1))
        else (Exit(1), Some("False positive detected : " + results[order[i]].1))
  {
    hide Verdict;
    forall i | FailsLast(cmds, results, order, i)
      ensures Verdict(Outcomes(cmds, results, order)) == Outcomes(cmds, results, order)[i]
    {
      LastFailureDecides(Outcomes(cmds, results, order), i);
    }
  }

  /** The commands run in the order `cmds` and end, with `results`, in the order `order`. */
  method RunCommands(cmds: seq<Command>, results: seq<(Status, string)>, order: seq<nat>)
    returns (calls: seq<(Status, Option<string>)>)
    requires cmds != [] && |results| == |cmds| && Completes(order, |cmds|)
    ensures calls == [Verdict(Outcomes(cmds, results, order))]
    ensures calls[0].0 == Exit(0) <==> Good(cmds, results)
  {
    var check := new FlagCheck(cmds);
    var n := 0;
    while n < |order|
      invariant n <= |order| && check.Valid() && check.cmds == cmds
      invariant check.outcomes == Outcomes(cmds, results, order[..n])
      invariant n < |order| ==> check.calls == []
    {
      check.Complete(order[n], results[order[n]].0, results[order[n]].1);
      assert Outcomes(cmds, results, order[..n + 1]) ==
             Outcomes(cmds, results, order[..n]) + [Outcome(cmds[order[n]], results[order[n]].0, results[order[n]].1)];
      n := n + 1;
    }
    assert order[..n] == order;
    VerdictIsGood(cmds, results, order);
    calls := check.calls;
  }

  lemma InRange(cmds: seq<Command>, results: seq<(Status, string)>, order: seq<nat>, i: int)
    requires |results| == |cmds| && Completes(order, |cmds|) && FailsLast(cmds, results, order, i)
    ensures 0 <= i < |order|
  {
  }

  /** Sorting by a comparison that answers at random. */
  method Shuffle(cmds: seq<Command>) returns (shuffled: seq<Command>)
    ensures multiset(shuffled) == multiset(cmds)
  {
    shuffled :| multiset(shuffled) == multiset(cmds);
  }

  /**
   `checkFlag`: `draws` are the random numbers for the decoys. The five commands run in some order `cmds`
   and end, with `results`, in the order `order`; `g` is where the genuine one went. The callback is called
   once, with status 0 exactly if the genuine command and none of the decoys succeeded.
   */
  method CheckFlag(data: string, draws: seq<seq<(nat, char)>>, results: seq<(Status, string)>, order: seq<nat>)
    returns (cmds: seq<Command>, ghost g: nat, calls: seq<(Status, Option<string>)>)
    requires |draws| == 4 && forall d :: d in draws ==> forall n :: 0 <= n < |d| ==> IsDraw(data, d[n])
    requires forall d :: d in draws ==> exists n :: 0 <= n < |d| && Drawn(data, d[n]) != data
    requires |results| == 5 && Completes(order, 5)
    ensures |cmds| == 5 && OneGenuine(cmds, data, g) && calls == [Verdict(Outcomes(cmds, results, order))]
    ensures calls[0].0 == Exit(0) <==> forall k :: 0 <= k < 5 ==> (results[k].0 == Exit(0) <==> k == g)
    ensures calls[0].0 == Exit(0) ==> calls[0].1 == Some(results[g].1)
    ensures forall i :: FailsLast(cmds, results, order, i) ==>
      calls[0] == if order[i] == g then (results[g].0, Some(results[g].1))
                  else (Exit(1), Some("False positive detected : " + results[order[i]].1))
  {
    hide IsDraw, Drawn, IsDecoy, Verdict, FailsLast, Outcomes;
    var made := MakeCommands(data, draws);
    cmds := Shuffle(made);
    g := ShuffleKeeps(made, data, 0, cmds);
    calls := RunCommands(cmds, results, order);
    assert forall k :: 0 <= k < 5 ==> (cmds[k].genuine <==> k == g);
    if Good(cmds, results) { LineIsGenuine(cmds, results, order, g); }
    FailureReported(cmds, results, order);
    forall i | FailsLast(cmds, results, order, i) ensures 0 <= i < |order| && (cmds[order[i]].genuine <==> order[i] == g) {
      InRange(cmds, results, order, i);
    }
  }
}

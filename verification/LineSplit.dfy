/** The argument splitter of the WhereAmI service: two passes over a buffer, the second one cutting it up. */
module LineSplit {
  import opened ArgTokens

  const NUL := '\0'

  /** What `isspace` accepts in the C locale. */
  const SPACES := {' ', '\t', '\n', '\U{000B}', '\U{000C}', '\r'}

  // ----- the arguments of a line

  /** A quote that is never closed. */
  predicate Unclosed(s: string) {
    s != "" && s[0] == QUOTE && Until(s[1..], {QUOTE}) == |s| - 1
  }

  /** The arguments of a line; an unclosed quote ends it. */
  function Arguments(s: string): seq<string>
    decreases |s|
  {
    if s == "" || Unclosed(s) then []
    else if s[0] in SPACES then Arguments(s[1..])
    else [First(s, SPACES)] + Arguments(After(s, SPACES))
  }

  /** The rest of the line has an unclosed quote. */
  predicate OpenQuote(s: string)
    decreases |s|
  {
    if s == "" then false
    else if s[0] in SPACES then OpenQuote(s[1..])
    else Unclosed(s) || OpenQuote(After(s, SPACES))
  }

  /** Words end at white space, quoted pieces at the next quote, and an unclosed quote ends the line. */
  lemma ArgumentsOfLine(word: string, piece: string, b: char, rest: string)
    requires b in {' ', '\t', '\n', '\r', '\U{000B}', '\U{000C}'}
    requires word != "" && word[0] != '"'
    requires forall i :: 0 <= i < |word| ==> word[i] !in {' ', '\t', '\n', '\r', '\U{000B}', '\U{000C}'}
    requires '"' !in piece
    ensures Arguments("") == [] && Arguments([b] + rest) == Arguments(rest)
    ensures Arguments(word) == [word] && Arguments(word + [b] + rest) == [word] + Arguments(rest)
    ensures Arguments("\"" + piece) == []
    ensures Arguments("\"" + piece + "\"" + rest) == [piece] + Arguments(rest)
  {
    assert ([b] + rest)[1..] == rest;
    TakesWord(word, b, rest);
    TakesQuoted(piece, rest);
  }

  lemma TakesWord(word: string, b: char, rest: string)
    requires word != "" && word[0] != QUOTE && b in SPACES && forall i :: 0 <= i < |word| ==> word[i] !in SPACES
    ensures Arguments(word) == [word] && Arguments(word + [b] + rest) == [word] + Arguments(rest)
  {
    var line := word + [b] + rest;
    UntilIs(word, SPACES, |word|);
    UntilIs(line, SPACES, |word|);
    assert word[..|word|] == word && Arguments("") == [];
    assert line[0] == word[0] && line[..|word|] == word && line[|word| + 1..] == rest;
  }

  lemma TakesQuoted(piece: string, rest: string)
    requires QUOTE !in piece
    ensures Arguments("\"" + piece) == [] && Arguments("\"" + piece + "\"" + rest) == [piece] + Arguments(rest)
  {
    var open, line := "\"" + piece, "\"" + piece + "\"" + rest;
    assert open[1..] == piece && line[1..] == piece + ("\"" + rest);
    UntilIs(piece, {QUOTE}, |piece|);
    UntilIs(line[1..], {QUOTE}, |piece|);
    assert line[1..][..|piece|] == piece && line[1..][|piece| + 1..] == rest;
  }

  /** The Ruby service finds the same arguments, and the text after an unclosed quote as one more. */
  lemma {:induction false} LikeRuby(s: string)
    ensures OpenQuote(s) ==> |Ruby(s)| == |Arguments(s)| + 1 && Arguments(s) == Ruby(s)[..|Arguments(s)|]
    ensures !OpenQuote(s) ==> Arguments(s) == Ruby(s)
    decreases |s|
  {
    assert SPACES == RUBY_BLANKS;
    if s == "" {
    } else if s[0] in SPACES {
      LikeRuby(s[1..]);
    } else {
      LikeRuby(After(s, SPACES));
      assert Ruby(s) == [First(s, SPACES)] + Ruby(After(s, SPACES));
      if Unclosed(s) { assert After(s, SPACES) == ""; }
    }
  }

  // ----- strings in the buffer

  function UpToNul(s: string): string {
    s[..Until(s, {NUL})]
  }

  /** What C reads at `p`: the characters up to the first NUL. */
  function CString(buf: seq<char>, p: nat): string
    requires p <= |buf|
  {
    UpToNul(buf[p..])
  }

  /** `text` stands at `p` and is followed by a NUL. */
  predicate Stands(buf: seq<char>, p: nat, text: string) {
    p + |text| < |buf| && buf[p..p + |text|] == text && buf[p + |text|] == NUL
  }

  lemma StandsRead(buf: seq<char>, p: nat, text: string)
    requires Stands(buf, p, text)
    ensures CString(buf, p) == UpToNul(text)
  {
    var n, rest := Until(text, {NUL}), buf[p..];
    assert forall i :: 0 <= i < |text| ==> rest[i] == buf[p..p + |text|][i] == text[i];
    UntilIs(rest, {NUL}, n);
    assert rest[..n] == text[..n];
  }

  // ----- the scan

  /** The part of the line that begins at `i`. */
  function From(line: string, i: nat): string {
    if i <= |line| then line[i..] else ""
  }

  /** A piece that runs from `b` to its stop at `e` is the next argument. */
  lemma Word(line: string, b: nat, e: nat)
    requires b < e <= |line| && line[b] !in SPACES && line[b] != QUOTE
    requires (forall i :: b < i < e ==> line[i] !in SPACES) && (e < |line| ==> line[e] in SPACES)
    ensures Arguments(From(line, b)) == [line[b..e]] + Arguments(From(line, e + 1))
  {
    var s := line[b..];
    UntilIs(s, SPACES, e - b);
    assert s[..e - b] == line[b..e] && (e < |line| ==> s[e - b + 1..] == line[e + 1..]);
  }

  lemma InQuotes(line: string, b: nat, e: nat)
    requires b < e <= |line| && line[b] == QUOTE
    requires (forall i :: b < i < e ==> line[i] != QUOTE) && (e < |line| ==> line[e] == QUOTE)
    ensures Arguments(From(line, b)) == if e < |line| then [line[b + 1..e]] + Arguments(From(line, e + 1)) else []
  {
    var s, body, m := line[b..], line[b + 1..], e - b - 1;
    assert s[1..] == body;
    forall i | 0 <= i < m ensures body[i] !in {QUOTE} {
      assert body[i] == line[b + 1 + i];
    }
    UntilIs(body, {QUOTE}, m);
    if e < |line| {
      assert !Unclosed(s);
      assert First(s, SPACES) == body[..m] == line[b + 1..e];
      assert After(s, SPACES) == body[m + 1..] == line[e + 1..];
    }
  }

  lemma Space(line: string, b: nat)
    requires b < |line| && line[b] in SPACES
    ensures Arguments(From(line, b)) == Arguments(From(line, b + 1))
  {
    assert line[b..][1..] == line[b + 1..];
  }

  /** The next argument at or after `from`: its range, or none. */
  method NextRange(buffer: array<char>, count: nat, from: nat) returns (found: bool, begin: nat, end: nat)
    requires from <= count + 1 && count < buffer.Length && buffer[count] == NUL
    ensures found == (Arguments(From(buffer[..count], from)) != [])
    ensures found ==> from <= begin < end <= count
    ensures found ==>
      var start := if buffer[begin] == QUOTE then begin + 1 else begin;
      start <= end && Arguments(From(buffer[..count], from)) == [buffer[start..end]] + Arguments(From(buffer[..count], end + 1))
  {
    hide Arguments, From;
    begin := SkipSpaces(buffer, count, from);
    var first := Peek(buffer, begin);
    if first == QUOTE {
      end := MatchingQuote(buffer, count, begin);
      var last := Peek(buffer, end);
      if last != QUOTE {
        begin := count;
      }
    } else {
      end := EndOfWord(buffer, count, begin);
    }
    found := begin < count;
  }

  /** A character of the buffer. What lies behind a full buffer may be looked at too and can be anything. */
  method Peek(buffer: array<char>, i: nat) returns (c: char)
    ensures i < buffer.Length ==> c == buffer[i]
  {
    if i < buffer.Length {
      c := buffer[i];
    } else {
      c := *;
    }
  }

  method SkipSpaces(buffer: array<char>, count: nat, from: nat) returns (begin: nat)
    requires from <= count + 1 && count < buffer.Length
    ensures from <= begin <= count + 1 && (begin < count ==> buffer[begin] !in SPACES)
    ensures Arguments(From(buffer[..count], begin)) == Arguments(From(buffer[..count], from))
    ensures begin >= count ==> Arguments(From(buffer[..count], from)) == []
  {
    hide Arguments;
    ghost var line := buffer[..count];
    begin := from;
    while begin < count && buffer[begin] in SPACES
      invariant from <= begin <= count + 1
      invariant Arguments(From(line, begin)) == Arguments(From(line, from))
    {
      Space(line, begin);
      begin := begin + 1;
    }
    NoneLeft(line, begin);
  }

  method MatchingQuote(buffer: array<char>, count: nat, begin: nat) returns (end: nat)
    requires count < buffer.Length && buffer[count] == NUL && (begin < count ==> buffer[begin] == QUOTE)
    ensures begin < end && (begin < count ==> end <= count && (buffer[end] == QUOTE <==> end < count))
    ensures begin < count ==>
      Arguments(From(buffer[..count], begin)) ==
      if end < count then [buffer[begin + 1..end]] + Arguments(From(buffer[..count], end + 1)) else []
  {
    hide Arguments;
    ghost var line := buffer[..count];
    end := begin + 1;
    while end < count && buffer[end] != QUOTE
      invariant begin < end && (begin < count ==> end <= count)
      invariant forall i :: begin < i < end && i < count ==> line[i] != QUOTE
    {
      end := end + 1;
    }
    if begin < count {
      InQuotes(line, begin, end);
      assert end < count ==> line[begin + 1..end] == buffer[begin + 1..end];
    }
  }

  method EndOfWord(buffer: array<char>, count: nat, begin: nat) returns (end: nat)
    requires count < buffer.Length && (begin < count ==> buffer[begin] !in SPACES && buffer[begin] != QUOTE)
    ensures begin < end && (begin < count ==> end <= count)
    ensures begin < count ==>
      Arguments(From(buffer[..count], begin)) == [buffer[begin..end]] + Arguments(From(buffer[..count], end + 1))
  {
    hide Arguments;
    ghost var line := buffer[..count];
    end := begin + 1;
    while end < count && buffer[end] !in SPACES
      invariant begin < end && (begin < count ==> end <= count)
      invariant forall i :: begin < i < end && i < count ==> line[i] !in SPACES
    {
      end := end + 1;
    }
    if begin < count {
      Word(line, begin, end);
      assert line[begin..end] == buffer[begin..end];
    }
  }

  lemma NoneLeft(line: string, b: nat)
    ensures b >= |line| ==> Arguments(From(line, b)) == []
  {
  }

  datatype Pointer = Null | At(index: nat)

  /** An argument below `from` that the result points at. */
  predicate Placed(buf: seq<char>, from: nat, p: Pointer, text: string) {
    p.At? && p.index + |text| < from && Stands(buf, p.index, text)
  }

  /** A cut at or after `from` leaves the arguments below it alone. */
  lemma CutAbove(buf: seq<char>, from: nat, e: nat, p: Pointer, text: string)
    requires Placed(buf, from, p, text) && from <= e < |buf|
    ensures Placed(buf[e := NUL], e + 1, p, text)
  {
    var end := p.index + |text|;
    assert buf[e := NUL][p.index..end] == buf[p.index..end];
  }

  lemma CutHere(buf: seq<char>, start: nat, e: nat)
    requires start <= e < |buf|
    ensures Placed(buf[e := NUL], e + 1, At(start), buf[start..e])
  {
    assert buf[e := NUL][start..e] == buf[start..e];
  }

  /** Cuts the line up in place; the result points at its arguments and ends with a null pointer. */
  method Split(buffer: array<char>, count: nat) returns (argv: array<Pointer>)
    requires count < buffer.Length && buffer[count] == NUL
    modifies buffer
    ensures fresh(argv)
    ensures var args := Arguments(old(buffer[..count]));
            && argv.Length == |args| + 1 && argv[|args|] == Null
            && forall k | 0 <= k < |args| ::
                 argv[k].At? && argv[k].index <= count && CString(buffer[..], argv[k].index) == UpToNul(args[k])
  {
    hide Arguments;
    ghost var args := Arguments(buffer[..count]);
    assert From(buffer[..count], 0) == buffer[..count];
    var n := CountRanges(buffer, count);
    argv := new Pointer[n + 1];
    Fill(buffer, count, argv);
    forall k | 0 <= k < |args| ensures argv[k].At? && CString(buffer[..], argv[k].index) == UpToNul(args[k]) {
      assert Placed(buffer[..], count + 1, argv[..][k], args[k]);
      StandsRead(buffer[..], argv[k].index, args[k]);
    }
  }

  /** The first pass. */
  method CountRanges(buffer: array<char>, count: nat) returns (n: nat)
    requires count < buffer.Length && buffer[count] == NUL
    ensures n == |Arguments(From(buffer[..count], 0))|
  {
    hide Arguments;
    n := 0;
    var from := 0;
    while true
      invariant from <= count + 1
      invariant n + |Arguments(From(buffer[..count], from))| == |Arguments(From(buffer[..count], 0))|
      decreases count + 1 - from
    {
      var found, _, end := NextRange(buffer, count, from);
      if !found { break; }
      n := n + 1;
      from := end + 1;
    }
  }

  /** The first `k` arguments are placed below `from`. */
  ghost predicate Filled(buf: seq<char>, from: nat, ptrs: seq<Pointer>, k: nat, args: seq<string>) {
    && k <= |ptrs| && k <= |args|
    && forall j :: 0 <= j < k ==> Placed(buf, from, ptrs[j], args[j])
  }

  lemma FillNext(buf: seq<char>, from: nat, ptrs: seq<Pointer>, k: nat, args: seq<string>, start: nat, e: nat)
    requires Filled(buf, from, ptrs, k, args) && k < |ptrs| && k < |args|
    requires from <= e && start <= e < |buf| && args[k] == buf[start..e]
    ensures Filled(buf[e := NUL], e + 1, ptrs[k := At(start)], k + 1, args)
  {
    CutHere(buf, start, e);
    forall j | 0 <= j < k ensures Placed(buf[e := NUL], e + 1, ptrs[j], args[j]) {
      CutAbove(buf, from, e, ptrs[j], args[j]);
    }
  }

  lemma FilledAll(buf: seq<char>, from: nat, to: nat, ptrs: seq<Pointer>, k: nat, args: seq<string>, q: Pointer)
    requires Filled(buf, from, ptrs, k, args) && k < |ptrs| && from <= to
    ensures Filled(buf, to, ptrs[k := q], k, args)
  {
    forall j | 0 <= j < k ensures Placed(buf, to, ptrs[j], args[j]) {
      assert Placed(buf, from, ptrs[j], args[j]);
    }
  }

  /** The second pass, over the buffer that it changes. */
  method Fill(buffer: array<char>, count: nat, argv: array<Pointer>)
    requires count < buffer.Length && buffer[count] == NUL
    requires argv.Length == |Arguments(buffer[..count])| + 1
    modifies buffer, argv
    ensures argv[argv.Length - 1] == Null
    ensures Filled(buffer[..], count + 1, argv[..], argv.Length - 1, old(Arguments(buffer[..count])))
  {
    hide Arguments, Filled, From;
    ghost var line, args := buffer[..count], Arguments(buffer[..count]);
    var k, from := 0, 0;
    Whole(line, args);
    NoneFilled(buffer[..], argv[..], args);
    while true
      invariant from <= count + 1 && k <= |args| && buffer[count] == NUL
      invariant From(buffer[..count], from) == From(line, from)
      invariant args[k..] == Arguments(From(line, from))
      invariant Filled(buffer[..], from, argv[..], k, args)
      decreases count + 1 - from
    {
      ghost var buf, ptrs := buffer[..], argv[..];
      var found, begin, end := NextRange(buffer, count, from);
      if !found { break; }
      var start := if buffer[begin] == QUOTE then begin + 1 else begin;
      OneMore(args, k, buf[start..end], Arguments(From(buf[..count], end + 1)));
      Cut(buffer, argv, k, start, end);
      FillNext(buf, from, ptrs, k, args, start, end);
      Uncut(buf, line, count, from, end);
      k := k + 1;
      from := end + 1;
    }
    ghost var ptrs := argv[..];
    argv[k] := Null;
    assert argv[..] == ptrs[k := Null];
    FilledAll(buffer[..], from, count + 1, ptrs, k, args, Null);
  }

  method Cut(buffer: array<char>, argv: array<Pointer>, k: nat, start: nat, end: nat)
    requires k < argv.Length && end < buffer.Length
    modifies buffer, argv
    ensures buffer[..] == old(buffer[..])[end := NUL] && argv[..] == old(argv[..])[k := At(start)]
  {
    argv[k] := At(start);
    buffer[end] := NUL;
  }

  lemma Whole(line: string, args: seq<string>)
    ensures From(line, 0) == line && args[0..] == args
  {
  }

  lemma OneMore(args: seq<string>, k: nat, first: string, rest: seq<string>)
    requires k <= |args| && args[k..] == [first] + rest
    ensures k < |args| && args[k] == first && args[k + 1..] == rest
  {
    assert args[k] == args[k..][0] && args[k + 1..] == args[k..][1..];
  }

  /** A cut leaves the line after it as it was. */
  lemma Uncut(buf: seq<char>, line: string, count: nat, from: nat, e: nat)
    requires count == |line| && from <= e <= count < |buf| && From(buf[..count], from) == From(line, from)
    ensures From(buf[..count], e + 1) == From(buf[e := NUL][..count], e + 1) == From(line, e + 1)
  {
    if e < count {
      assert line[e + 1..] == line[from..][e + 1 - from..];
      assert buf[..count][e + 1..] == buf[..count][from..][e + 1 - from..];
    }
  }

  lemma NoneFilled(buf: seq<char>, ptrs: seq<Pointer>, args: seq<string>)
    ensures Filled(buf, 0, ptrs, 0, args)
  {
  }

  /** How many arguments there are before the null pointer. */
  method CountArgs(argv: array<Pointer>) returns (c: nat)
    requires exists k :: 0 <= k < argv.Length && argv[k] == Null
    ensures c < argv.Length && argv[c] == Null && forall k :: 0 <= k < c ==> argv[k] != Null
  {
    c := 0;
    while argv[c] != Null
      invariant c < argv.Length && forall k :: 0 <= k < c ==> argv[k] != Null
      invariant exists k :: c <= k < argv.Length && argv[k] == Null
      decreases argv.Length - c
    {
      c := c + 1;
    }
  }
}

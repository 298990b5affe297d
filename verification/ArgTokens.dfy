/** Two services split command lines into arguments; this is what each returns and when they differ. */
module ArgTokens {

  const QUOTE := '"'

  /** What separates words for the Java service ... */
  const JAVA_BLANKS := {' ', '\t'}
  /** ... and for the Ruby service: the characters its pattern for white space matches. */
  const RUBY_BLANKS := {' ', '\t', '\n', '\r', '\U{000B}', '\U{000C}'}

  // ----- the arguments of a line

  /** How many characters come before the first one in `stops`. */
  function Until(s: string, stops: set<char>): (n: nat)
    ensures n <= |s| && (n < |s| ==> s[n] in stops) && forall i :: 0 <= i < n ==> s[i] !in stops
  {
    if s == "" || s[0] in stops then 0 else 1 + Until(s[1..], stops)
  }

  /** What follows the separator at `n`. */
  function Past(s: string, n: nat): string
    requires n <= |s|
  {
    if n < |s| then s[n + 1..] else ""
  }

  /** The first argument: a word up to the next blank, or after a quote everything up to the next quote. */
  function First(s: string, blanks: set<char>): string
    requires s != ""
  {
    if s[0] == QUOTE then s[1..][..Until(s[1..], {QUOTE})] else s[..Until(s, blanks)]
  }

  function After(s: string, blanks: set<char>): (rest: string)
    requires s != "" && s[0] !in blanks
    ensures |rest| < |s|
  {
    if s[0] == QUOTE then Past(s[1..], Until(s[1..], {QUOTE})) else Past(s, Until(s, blanks))
  }

  function Tokens(s: string, blanks: set<char>): seq<string>
    decreases |s|
  {
    if s == "" then []
    else if s[0] in blanks then Tokens(s[1..], blanks)
    else [First(s, blanks)] + Tokens(After(s, blanks), blanks)
  }

  lemma UntilIs(s: string, stops: set<char>, n: nat)
    requires n <= |s| && (n < |s| ==> s[n] in stops) && forall i :: 0 <= i < n ==> s[i] !in stops
    ensures Until(s, stops) == n
  {
  }

  // ----- the two loops

  const LOOK_FOR_STR_BEGIN := 0
  const LOOK_FOR_STR_END := 1
  const LOOK_FOR_QUOTES := 2

  /** What is still to come when the scan is in this state at position `i`. */
  ghost function Rest(str: string, state: int, begin: nat, i: nat, blanks: set<char>): seq<string>
    requires begin <= |str| && i <= |str|
  {
    if state == LOOK_FOR_STR_BEGIN then Tokens(str[i..], blanks)
    else Piece(str[begin..], if state == LOOK_FOR_STR_END then blanks else {QUOTE}, blanks)
  }

  /** The argument that has begun, and those after it. */
  ghost function Piece(s: string, stops: set<char>, blanks: set<char>): seq<string> {
    [s[..Until(s, stops)]] + Tokens(Past(s, Until(s, stops)), blanks)
  }

  /** The piece being scanned has not ended before `i`. */
  ghost predicate Open(str: string, state: int, begin: nat, i: nat, blanks: set<char>) {
    && begin <= |str| && i <= |str|
    && state in {LOOK_FOR_STR_BEGIN, LOOK_FOR_STR_END, LOOK_FOR_QUOTES}
    && (state == LOOK_FOR_STR_END ==> begin <= i && forall j :: begin <= j < i ==> str[j] !in blanks)
    && (state == LOOK_FOR_QUOTES ==> begin <= i && forall j :: begin <= j < i ==> str[j] != QUOTE)
  }

  /** The state after the character at `i`, with the argument that it completes, if it does. */
  lemma Advance(str: string, state: int, begin: nat, i: nat, args: seq<string>, blanks: set<char>,
                state': int, begin': nat, args': seq<string>)
    requires i < |str| && begin' <= |str| && Open(str, state, begin, i, blanks) && QUOTE !in blanks
    requires
      var c := str[i];
      if state == LOOK_FOR_STR_BEGIN then
        args' == args && if c == QUOTE then state' == LOOK_FOR_QUOTES && begin' == i + 1
                         else if c in blanks then state' == state
                         else state' == LOOK_FOR_STR_END && begin' == i
      else if (if state == LOOK_FOR_STR_END then c in blanks else c == QUOTE) then
        begin <= i && args' == args + [str[begin..i]] && state' == LOOK_FOR_STR_BEGIN
      else args' == args && state' == state && begin' == begin
    ensures Open(str, state', begin', i + 1, blanks)
    ensures args + Rest(str, state, begin, i, blanks) == args' + Rest(str, state', begin', i + 1, blanks)
  {
    hide Tokens, Piece;
    if state == LOOK_FOR_STR_BEGIN {
      BeginPiece(str, i, blanks);
    } else {
      var stops := if state == LOOK_FOR_STR_END then blanks else {QUOTE};
      if str[i] in stops { EndPiece(str, begin, i, stops, blanks); }
    }
  }

  lemma BeginPiece(str: string, i: nat, blanks: set<char>)
    requires i < |str| && QUOTE !in blanks
    ensures Tokens(str[i..], blanks) ==
            if str[i] == QUOTE then Piece(str[i + 1..], {QUOTE}, blanks)
            else if str[i] in blanks then Tokens(str[i + 1..], blanks)
            else Piece(str[i..], blanks, blanks)
  {
    assert str[i..][1..] == str[i + 1..];
  }

  lemma EndPiece(str: string, begin: nat, i: nat, stops: set<char>, blanks: set<char>)
    requires begin <= i < |str| && str[i] in stops && forall j :: begin <= j < i ==> str[j] !in stops
    ensures Piece(str[begin..], stops, blanks) == [str[begin..i]] + Tokens(str[i + 1..], blanks)
  {
    var s := str[begin..];
    UntilIs(s, stops, i - begin);
    assert s[i - begin + 1..] == str[i + 1..] && s[..i - begin] == str[begin..i];
  }

  /** At the end of the line an open piece is an argument too. */
  lemma AtEnd(str: string, state: int, begin: nat, blanks: set<char>)
    requires Open(str, state, begin, |str|, blanks)
    ensures Rest(str, state, begin, |str|, blanks) == if state == LOOK_FOR_STR_BEGIN then [] else [str[begin..]]
  {
    if state != LOOK_FOR_STR_BEGIN {
      var s := str[begin..];
      UntilIs(s, if state == LOOK_FOR_STR_END then blanks else {QUOTE}, |s|);
      assert s[..|s|] == s;
    }
  }

  /** `Client.parseArgs` of the Java service. */
  method ParseArgsJava(str: string) returns (args: seq<string>)
    ensures args == Tokens(str, JAVA_BLANKS)
  {
    hide Rest, Open, Tokens;
    args := [];
    var i, begin, state := 0, 0, LOOK_FOR_STR_BEGIN;
    AtStart(str, JAVA_BLANKS);
    while i < |str|
      invariant i <= |str| && begin <= |str| && state in {LOOK_FOR_STR_BEGIN, LOOK_FOR_STR_END, LOOK_FOR_QUOTES}
      invariant state != LOOK_FOR_STR_BEGIN ==> begin <= i
      invariant Open(str, state, begin, i, JAVA_BLANKS)
      invariant Tokens(str, JAVA_BLANKS) == args + Rest(str, state, begin, i, JAVA_BLANKS)
    {
      var c := str[i];
      ghost var state0, begin0, args0 := state, begin, args;
      if state == LOOK_FOR_STR_BEGIN {
        if c == QUOTE {
          begin := i + 1;
          state := LOOK_FOR_QUOTES;
        } else if !(c == ' ' || c == '\t') {
          begin := i;
          state := LOOK_FOR_STR_END;
        }
      } else if state == LOOK_FOR_STR_END {
        if c == ' ' || c == '\t' {
          args := args + [str[begin..i]];
          state := LOOK_FOR_STR_BEGIN;
        }
      } else if state == LOOK_FOR_QUOTES {
        if c == QUOTE {
          args := args + [str[begin..i]];
          state := LOOK_FOR_STR_BEGIN;
        }
      }
      Advance(str, state0, begin0, i, args0, JAVA_BLANKS, state, begin, args);
      i := i + 1;
    }
    AtEnd(str, state, begin, JAVA_BLANKS);
    if state != LOOK_FOR_STR_BEGIN {
      args := args + [str[begin..]];
    }
  }

  lemma AtStart(str: string, blanks: set<char>)
    ensures Open(str, LOOK_FOR_STR_BEGIN, 0, 0, blanks)
    ensures Tokens(str, blanks) == Rest(str, LOOK_FOR_STR_BEGIN, 0, 0, blanks)
  {
    assert str[0..] == str;
  }

  /** `parse_args` of the Ruby service. */
  method ParseArgsRuby(str: string) returns (args: seq<string>)
    ensures args == Tokens(str, RUBY_BLANKS)
  {
    hide Rest, Open, Tokens;
    var outside, inStr, inQuoted := LOOK_FOR_STR_BEGIN, LOOK_FOR_STR_END, LOOK_FOR_QUOTES;
    args := [];
    var b, s, i := 0, outside, 0;
    AtStart(str, RUBY_BLANKS);
    while i < |str|
      invariant i <= |str| && b <= |str| && s in {outside, inStr, inQuoted} && (s != outside ==> b <= i)
      invariant Open(str, s, b, i, RUBY_BLANKS)
      invariant Tokens(str, RUBY_BLANKS) == args + Rest(str, s, b, i, RUBY_BLANKS)
    {
      ghost var s0, b0, args0 := s, b, args;
      if s == outside && str[i] !in RUBY_BLANKS {
        b := i;
        if str[i] == QUOTE {
          b := b + 1;
          s := inQuoted;
        } else {
          s := inStr;
        }
      } else if s == inStr && str[i] in RUBY_BLANKS {
        args := args + [str[b..i]];
        s := outside;
      } else if s == inQuoted && str[i] == QUOTE {
        args := args + [str[b..i]];
        s := outside;
      }
      Advance(str, s0, b0, i, args0, RUBY_BLANKS, s, b, args);
      i := i + 1;
    }
    AtEnd(str, s, b, RUBY_BLANKS);
    if s != outside {
      args := args + [str[b..]];
    }
  }

  // ----- quoting

  predicate NoQuote(s: string) {
    QUOTE !in s
  }

  predicate NoQuotes(args: seq<string>) {
    forall k :: 0 <= k < |args| ==> NoQuote(args[k])
  }

  /** The arguments in quotes, joined by single spaces. */
  function Quoted(args: seq<string>): string {
    if args == [] then ""
    else [QUOTE] + args[0] + [QUOTE] + if |args| == 1 then "" else " " + Quoted(args[1..])
  }

  /** A quoted argument is found up to its first inner quote. */
  lemma FirstQuoted(arg: string, rest: string, blanks: set<char>)
    requires QUOTE !in blanks
    ensures var line := [QUOTE] + arg + [QUOTE] + rest;
            && Tokens(line, blanks) != [] && Tokens(line, blanks)[0] == arg[..Until(arg, {QUOTE})]
            && (NoQuote(arg) ==> Tokens(line, blanks) == [arg] + Tokens(rest, blanks))
  {
    var line, n := [QUOTE] + arg + [QUOTE] + rest, Until(arg, {QUOTE});
    assert line[1..] == arg + [QUOTE] + rest;
    UntilIs(line[1..], {QUOTE}, n);
    assert line[1..][..n] == arg[..n];
    if NoQuote(arg) {
      assert n == |arg| && arg[..n] == arg && line[1..][n + 1..] == rest;
    }
  }

  lemma QuotedStep(args: seq<string>, blanks: set<char>)
    requires args != [] && ' ' in blanks && QUOTE !in blanks
    ensures var found := Tokens(Quoted(args), blanks);
            if NoQuote(args[0]) then found == [args[0]] + Tokens(Quoted(args[1..]), blanks)
            else found != [] && found[0] != args[0]
  {
    var tail := if |args| == 1 then "" else " " + Quoted(args[1..]);
    assert |args| > 1 ==> tail[1..] == Quoted(args[1..]);
    FirstQuoted(args[0], tail, blanks);
  }

  /** Tokenizing what has been quoted gives the arguments back exactly when none of them holds a quote. */
  lemma {:induction false} QuotedRoundTrip(args: seq<string>, blanks: set<char>)
    requires ' ' in blanks && QUOTE !in blanks
    ensures Tokens(Quoted(args), blanks) == args <==> NoQuotes(args)
    decreases |args|
  {
    if args == [] {
      assert Tokens("", blanks) == [];
    } else {
      hide Tokens, Quoted, NoQuote, NoQuotes;
      var rest := args[1..];
      QuotedStep(args, blanks);
      QuotedRoundTrip(rest, blanks);
      OnlyTail(args);
      SameTail(args[0], Tokens(Quoted(rest), blanks), rest);
      assert args == [args[0]] + rest;
    }
  }

  lemma OnlyTail(args: seq<string>)
    requires args != []
    ensures NoQuotes(args) <==> NoQuote(args[0]) && NoQuotes(args[1..])
  {
    if NoQuote(args[0]) && NoQuotes(args[1..]) {
      forall k | 0 <= k < |args| ensures NoQuote(args[k]) {
        if k > 0 { assert args[1..][k - 1] == args[k]; }
      }
    }
  }

  lemma SameTail(first: string, a: seq<string>, b: seq<string>)
    ensures [first] + a == [first] + b <==> a == b
  {
    assert ([first] + a)[1..] == a && ([first] + b)[1..] == b;
  }

  // ----- what a line means, piece by piece

  /** A separator is skipped. */
  lemma SkipsBlank(b: char, rest: string, blanks: set<char>)
    requires b in blanks
    ensures Tokens([b] + rest, blanks) == Tokens(rest, blanks)
  {
    assert ([b] + rest)[1..] == rest;
  }

  /** A word goes up to the next separator or to the end of the line. */
  lemma TakesWord(word: string, b: char, rest: string, blanks: set<char>)
    requires word != "" && word[0] != QUOTE && b in blanks && forall i :: 0 <= i < |word| ==> word[i] !in blanks
    ensures Tokens(word, blanks) == [word]
    ensures Tokens(word + [b] + rest, blanks) == [word] + Tokens(rest, blanks)
  {
    var line := word + [b] + rest;
    UntilIs(word, blanks, |word|);
    UntilIs(line, blanks, |word|);
    assert word[..|word|] == word && Tokens("", blanks) == [];
    assert line[0] == word[0] && line[..|word|] == word && line[|word| + 1..] == rest;
  }

  /** A quoted piece goes up to the next quote or to the end of the line. */
  lemma TakesQuoted(piece: string, rest: string, blanks: set<char>)
    requires QUOTE !in piece && QUOTE !in blanks
    ensures Tokens([QUOTE] + piece, blanks) == [piece]
    ensures Tokens([QUOTE] + piece + [QUOTE] + rest, blanks) == [piece] + Tokens(rest, blanks)
  {
    FirstQuoted(piece, rest, blanks);
    var line := [QUOTE] + piece;
    assert line[1..] == piece && Tokens("", blanks) == [];
    UntilIs(piece, {QUOTE}, |piece|);
    assert piece[..|piece|] == piece;
  }

  /** The Java service separates words by spaces and tabs and by nothing else. */
  lemma JavaLine(word: string, piece: string, b: char, rest: string)
    requires b == ' ' || b == '\t'
    requires word != "" && word[0] != '"' && forall i :: 0 <= i < |word| ==> word[i] != ' ' && word[i] != '\t'
    requires '"' !in piece
    ensures Java("") == [] && Java([b] + rest) == Java(rest)
    ensures Java(word) == [word] && Java(word + [b] + rest) == [word] + Java(rest)
    ensures Java("\"" + piece) == [piece] && Java("\"" + piece + "\"" + rest) == [piece] + Java(rest)
  {
    SkipsBlank(b, rest, JAVA_BLANKS);
    TakesWord(word, b, rest, JAVA_BLANKS);
    TakesQuoted(piece, rest, JAVA_BLANKS);
  }

  /** The Ruby service does by all white space. */
  lemma RubyLine(word: string, piece: string, b: char, rest: string)
    requires b in {' ', '\t', '\n', '\r', '\U{000B}', '\U{000C}'}
    requires word != "" && word[0] != '"'
    requires forall i :: 0 <= i < |word| ==> word[i] !in {' ', '\t', '\n', '\r', '\U{000B}', '\U{000C}'}
    requires '"' !in piece
    ensures Ruby("") == [] && Ruby([b] + rest) == Ruby(rest)
    ensures Ruby(word) == [word] && Ruby(word + [b] + rest) == [word] + Ruby(rest)
    ensures Ruby("\"" + piece) == [piece] && Ruby("\"" + piece + "\"" + rest) == [piece] + Ruby(rest)
  {
    SkipsBlank(b, rest, RUBY_BLANKS);
    TakesWord(word, b, rest, RUBY_BLANKS);
    TakesQuoted(piece, rest, RUBY_BLANKS);
  }

  // ----- when the two services agree

  /** Outside quotes the line has no white space but what separates words for both. */
  predicate Plain(s: string)
    decreases |s|
  {
    if s == "" then true
    else if s[0] in JAVA_BLANKS then Plain(s[1..])
    else (s[0] == QUOTE || Until(s, JAVA_BLANKS) == Until(s, RUBY_BLANKS)) && Plain(After(s, JAVA_BLANKS))
  }

  function Java(s: string): seq<string> {
    Tokens(s, JAVA_BLANKS)
  }

  function Ruby(s: string): seq<string> {
    Tokens(s, RUBY_BLANKS)
  }

  /** Starts with white space that only the Ruby service knows. */
  predicate Odd(s: string) {
    s != "" && s[0] in RUBY_BLANKS && s[0] !in JAVA_BLANKS
  }

  /** A Ruby argument that starts with white space was quoted, so it holds no quote. */
  lemma {:induction false} OddIsQuoted(s: string)
    ensures forall k :: 0 <= k < |Ruby(s)| && Odd(Ruby(s)[k]) ==> NoQuote(Ruby(s)[k])
    decreases |s|
  {
    if s == "" {
    } else if s[0] in RUBY_BLANKS {
      OddIsQuoted(s[1..]);
      assert Ruby(s) == Ruby(s[1..]);
    } else {
      var first, rest := First(s, RUBY_BLANKS), After(s, RUBY_BLANKS);
      OddIsQuoted(rest);
      assert Odd(first) ==> NoQuote(first);
      assert Ruby(s) == [first] + Ruby(rest);
    }
  }

  predicate AllBlank(s: string) {
    forall i :: 0 <= i < |s| ==> s[i] in RUBY_BLANKS
  }

  /** The Ruby service skips white space, and a word does not start with any. */
  lemma {:induction false} SkipBlanks(s: string, n: nat)
    requires n <= |s| && NoQuote(s[..n])
    ensures if AllBlank(s[..n]) then Ruby(s) == Ruby(s[n..]) else Ruby(s) != [] && !Odd(Ruby(s)[0])
    decreases n
  {
    if n == 0 {
      assert s[0..] == s;
    } else {
      assert s[..n][0] == s[0];
      if s[0] in RUBY_BLANKS {
        assert s[1..][..n - 1] == s[..n][1..] && s[1..][n - 1..] == s[n..];
        assert AllBlank(s[..n]) == AllBlank(s[..n][1..]);
        SkipBlanks(s[1..], n - 1);
      } else {
        assert Ruby(s)[0] == First(s, RUBY_BLANKS);
      }
    }
  }

  /** Arguments that start with white space only Ruby knows, and hold no quote. */
  ghost predicate AllOdd(t: seq<string>) {
    forall k :: 0 <= k < |t| ==> Odd(t[k]) && NoQuote(t[k])
  }

  /** Once the Java service is ahead by such arguments, the Ruby service never catches up. */
  lemma {:induction false} NeverCatchesUp(t: seq<string>, s: string)
    requires AllOdd(t) && (t != [] || Odd(s))
    ensures Ruby(s) != t + Java(s)
    decreases |s|
  {
    if s == "" {
    } else if s[0] in JAVA_BLANKS {
      NeverCatchesUp(t, s[1..]);
    } else if s[0] !in RUBY_BLANKS && s[0] != QUOTE {
      assert Ruby(s)[0] == First(s, RUBY_BLANKS) && First(s, RUBY_BLANKS)[0] == s[0];
      assert (t + Java(s))[0] == t[0];
    } else if Ruby(s) == t + Java(s) {
      if s[0] == QUOTE {
        AheadAtQuote(t, s);
        NeverCatchesUp(t[1..] + [First(s, JAVA_BLANKS)], After(s, JAVA_BLANKS));
      } else {
        AheadAtOdd(t, s);
        NeverCatchesUp(t + [First(s, JAVA_BLANKS)], After(s, JAVA_BLANKS));
      }
    }
  }

  lemma AheadAtQuote(t: seq<string>, s: string)
    requires AllOdd(t) && t != [] && s != "" && s[0] == QUOTE && Ruby(s) == t + Java(s)
    ensures AllOdd(t[1..] + [First(s, JAVA_BLANKS)])
    ensures Ruby(After(s, JAVA_BLANKS)) == t[1..] + [First(s, JAVA_BLANKS)] + Java(After(s, JAVA_BLANKS))
  {
    var first, rest := First(s, JAVA_BLANKS), After(s, JAVA_BLANKS);
    assert Ruby(s) == [first] + Ruby(rest) && Java(s) == [first] + Java(rest);
    assert first == Ruby(s)[0] == t[0];
    assert Ruby(rest) == Ruby(s)[1..] == t[1..] + [first] + Java(rest);
  }

  lemma AheadAtOdd(t: seq<string>, s: string)
    requires AllOdd(t) && Odd(s) && Ruby(s) == t + Java(s)
    ensures AllOdd(t + [First(s, JAVA_BLANKS)])
    ensures Ruby(After(s, JAVA_BLANKS)) == t + [First(s, JAVA_BLANKS)] + Java(After(s, JAVA_BLANKS))
  {
    var first, rest, n := First(s, JAVA_BLANKS), After(s, JAVA_BLANKS), Until(s, JAVA_BLANKS);
    assert Java(s) == [first] + Java(rest);
    assert Odd(first) && Ruby(s)[|t|] == first;
    OddIsQuoted(s);
    SkipBlanks(s, n);
    assert Odd(Ruby(s)[0]);
    SkipOne(s, n);
    assert Ruby(s) == Ruby(rest);
  }

  /** Past the separator, white space or not. */
  lemma SkipOne(s: string, n: nat)
    requires n <= |s| && (n < |s| ==> s[n] in RUBY_BLANKS)
    ensures Ruby(s[n..]) == Ruby(Past(s, n))
  {
    if n < |s| { assert s[n..][1..] == s[n + 1..]; }
  }

  /** The two services give the same arguments for exactly the plain lines. */
  lemma {:induction false} SameArguments(s: string)
    ensures Java(s) == Ruby(s) <==> Plain(s)
    decreases |s|
  {
    if s == "" {
    } else if s[0] in JAVA_BLANKS {
      SameArguments(s[1..]);
    } else if Odd(s) {
      NeverCatchesUp([], s);
      assert [] + Java(s) == Java(s);
    } else {
      SameFirst(s);
      SameArguments(After(s, JAVA_BLANKS));
    }
  }

  lemma SameFirst(s: string)
    requires s != "" && s[0] !in RUBY_BLANKS
    ensures Java(s) == Ruby(s) <==>
            (s[0] == QUOTE || Until(s, JAVA_BLANKS) == Until(s, RUBY_BLANKS))
            && Java(After(s, JAVA_BLANKS)) == Ruby(After(s, JAVA_BLANKS))
  {
    var a, b := First(s, JAVA_BLANKS), First(s, RUBY_BLANKS);
    assert Java(s) == [a] + Java(After(s, JAVA_BLANKS));
    assert Ruby(s) == [b] + Ruby(After(s, RUBY_BLANKS));
    assert Java(s)[0] == a && Java(s)[1..] == Java(After(s, JAVA_BLANKS));
    assert Ruby(s)[0] == b && Ruby(s)[1..] == Ruby(After(s, RUBY_BLANKS));
    if s[0] != QUOTE && Until(s, JAVA_BLANKS) != Until(s, RUBY_BLANKS) { assert |a| != |b|; }
  }

  /** In particular for every line whose only white space is spaces and tabs. */
  lemma SpacesAndTabs(s: string)
    requires forall i :: 0 <= i < |s| ==> s[i] !in {'\n', '\r', '\U{000B}', '\U{000C}'}
    ensures Java(s) == Ruby(s)
  {
    PlainIfSpaces(s);
    SameArguments(s);
  }

  lemma {:induction false} PlainIfSpaces(s: string)
    requires forall i :: 0 <= i < |s| && s[i] in RUBY_BLANKS ==> s[i] in JAVA_BLANKS
    ensures Plain(s)
    decreases |s|
  {
    if s == "" {
    } else if s[0] in JAVA_BLANKS {
      PlainIfSpaces(s[1..]);
    } else {
      UntilIs(s, RUBY_BLANKS, Until(s, JAVA_BLANKS));
      PlainIfSpaces(After(s, JAVA_BLANKS));
    }
  }
}

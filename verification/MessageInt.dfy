/** Reading an integer out of a message, in 32-bit arithmetic that wraps. */
module MessageInt {
  import opened Message

  datatype ParseResult = PARSE_OK | PARSE_MESSAGE_INCOMPLETE | PARSE_KEY_NOT_FOUND | PARSE_VALUE_MALFORMED

  const TWO_32 := 0x1_0000_0000
  const TWO_31 := 0x8000_0000

  /** The value a 32-bit `int` holds after the exact result `x` has wrapped. */
  function Wrap(x: int): (r: int)
    ensures -TWO_31 <= r < TWO_31
  {
    (x + TWO_31) % TWO_32 - TWO_31
  }

  predicate IsDigit(c: char) {
    '0' <= c <= '9'
  }

  function DigitValue(c: char): nat
    requires IsDigit(c)
  {
    (c as int) - ('0' as int)
  }

  /** The number a text's digits spell, skipping everything else. */
  function Magnitude(text: string): nat {
    if text == "" then 0
    else
      var c := text[|text| - 1];
      var rest := Magnitude(text[..|text| - 1]);
      if IsDigit(c) then rest * 10 + DigitValue(c) else rest
  }

  function Sign(text: string): int {
    if text != "" && text[0] == '-' then -1 else 1
  }

  predicate WellFormed(text: string) {
    forall i | 0 <= i < |text| :: IsDigit(text[i]) || (i == 0 && text[0] == '-')
  }

  /** What the text means as an exact integer. */
  function Meaning(text: string): int {
    Sign(text) * Magnitude(text)
  }

  /** The ten digits, each at the position that is its value. */
  lemma DigitsAre(c: char)
    ensures IsDigit(c) <==> c in "0123456789"
    ensures forall k :: 0 <= k < 10 && "0123456789"[k] == c ==> DigitValue(c) == k
  {
    assert c == '0' ==> "0123456789"[0] == c;
    assert c == '1' ==> "0123456789"[1] == c;
    assert c == '2' ==> "0123456789"[2] == c;
    assert c == '3' ==> "0123456789"[3] == c;
    assert c == '4' ==> "0123456789"[4] == c;
    assert c == '5' ==> "0123456789"[5] == c;
    assert c == '6' ==> "0123456789"[6] == c;
    assert c == '7' ==> "0123456789"[7] == c;
    assert c == '8' ==> "0123456789"[8] == c;
    assert c == '9' ==> "0123456789"[9] == c;
  }

  /** Text is well formed exactly if it consists of digits, but for a dash at the front. */
  lemma WellFormedMeans(text: string)
    ensures WellFormed(text) <==> forall n :: 0 <= n < |text| ==> text[n] in "0123456789" || (n == 0 && text[n] == '-')
  {
    forall n | 0 <= n < |text| ensures IsDigit(text[n]) <==> text[n] in "0123456789" { DigitsAre(text[n]); }
  }

  /** One more digit multiplies by ten and adds its position; any other character changes nothing. */
  lemma HornerStep(text: string, c: char)
    ensures Magnitude("") == 0
    ensures c !in "0123456789" ==> Magnitude(text + [c]) == Magnitude(text)
    ensures forall k :: 0 <= k < 10 && "0123456789"[k] == c ==> Magnitude(text + [c]) == 10 * Magnitude(text) + k
  {
    assert (text + [c])[..|text|] == text;
    DigitsAre(c);
    forall k | 0 <= k < 10 && "0123456789"[k] == c ensures c in "0123456789" {
    }
  }

  // ----- wrapping now or wrapping later

  lemma WrapIsCongruent(x: int) returns (k: int)
    ensures Wrap(x) == x + k * TWO_32
  {
    k := -((x + TWO_31) / TWO_32);
  }

  lemma WrapShift(x: int, k: int)
    ensures Wrap(x + k * TWO_32) == Wrap(x)
  {
    var q, q' := (x + TWO_31) / TWO_32, (x + k * TWO_32 + TWO_31) / TWO_32;
    var r, r' := (x + TWO_31) % TWO_32, (x + k * TWO_32 + TWO_31) % TWO_32;
    assert r - r' == (q' - q - k) * TWO_32;
  }

  lemma WrapLate(a: int, m: int, b: int)
    ensures Wrap(Wrap(Wrap(a) * m) + b) == Wrap(a * m + b)
    ensures Wrap(Wrap(a) * m) == Wrap(a * m)
  {
    var k := WrapIsCongruent(a);
    assert Wrap(a) * m == a * m + (k * m) * TWO_32 by {
      assert (a + k * TWO_32) * m == a * m + (k * TWO_32) * m;
      assert (k * TWO_32) * m == (k * m) * TWO_32;
    }
    WrapShift(a * m, k * m);
    var j := WrapIsCongruent(a * m);
    WrapShift(a * m + b, j);
    assert Wrap(a * m) + b == (a * m + b) + j * TWO_32;
  }

  // ----- the callback and msg_parse_int

  /** `strlen` and `strncmp` agree that the pair's key is the one looked for. */
  predicate KeyMatches(msg: string, kv: KeyValue, key: string) {
    kv.keyStart <= kv.keyEnd <= |msg| && |key| == kv.keyEnd - kv.keyStart && msg[kv.keyStart..kv.keyEnd] == key
  }

  predicate InMessage(msg: string, kv: KeyValue) {
    kv.keyStart <= kv.keyEnd <= |msg| && kv.valueStart <= kv.valueEnd <= |msg|
  }

  function ValueText(msg: string, kv: KeyValue): string
    requires InMessage(msg, kv)
  {
    msg[kv.valueStart..kv.valueEnd]
  }

  /**
   The value is accepted exactly if it consists of digits, but for a dash at the front. The dash makes
   negative what the digits spell.
   */
  predicate IsJudged(text: string, result: ParseResult, value: int) {
    && (if forall n :: 0 <= n < |text| ==> text[n] in "0123456789" || (n == 0 && text[n] == '-')
        then result == PARSE_OK else result == PARSE_VALUE_MALFORMED)
    && value == Wrap((if text != "" && text[0] == '-' then -1 else 1) * Magnitude(text))
  }

  lemma Judged(text: string, result: ParseResult, value: int)
    requires result == if WellFormed(text) then PARSE_OK else PARSE_VALUE_MALFORMED
    requires value == Wrap(Meaning(text))
    ensures IsJudged(text, result, value)
  {
    WellFormedMeans(text);
  }

  class IntParseCallbackData {
    const key: string
    var result: ParseResult
    var value: int

    constructor (key: string, value: int)
      requires Wrap(value) == value
      ensures this.key == key && this.value == value && result == PARSE_KEY_NOT_FOUND
    {
      this.key, this.value, result := key, value, PARSE_KEY_NOT_FOUND;
    }

    /** `msg_int_parse_callback` */
    method Callback(msg: string, kv: KeyValue)
      requires InMessage(msg, kv)
      modifies this
      ensures if !KeyMatches(msg, kv, key) then value == old(value) && result == old(result) else
                && value == Wrap(Meaning(ValueText(msg, kv)))
                && result == if WellFormed(ValueText(msg, kv)) then PARSE_OK else PARSE_VALUE_MALFORMED
      ensures KeyMatches(msg, kv, key) ==> IsJudged(msg[kv.valueStart..kv.valueEnd], result, value)
    {
      hide IsJudged;
      if |key| == kv.keyEnd - kv.keyStart && msg[kv.keyStart..kv.keyEnd] == key {
        ghost var text := ValueText(msg, kv);
        value := 0;
        result := PARSE_OK;
        var sign := 1;
        var ptr := kv.valueStart;
        while ptr < kv.valueEnd
          invariant kv.valueStart <= ptr <= kv.valueEnd
          invariant value == Wrap(Magnitude(text[..ptr - kv.valueStart]))
          invariant sign == Sign(text[..ptr - kv.valueStart])
          invariant result == if WellFormed(text[..ptr - kv.valueStart]) then PARSE_OK else PARSE_VALUE_MALFORMED
        {
          ghost var n := ptr - kv.valueStart;
          assert text[..n + 1][..n] == text[..n] && text[n] == msg[ptr] == text[..n + 1][n];
          Longer(text, n);
          if ptr == kv.valueStart && msg[ptr] == '-' {
            sign := -1;
          } else if IsDigit(msg[ptr]) {
            WrapLate(Magnitude(text[..n]), 10, DigitValue(msg[ptr]));
            value := Wrap(value * 10);
            value := Wrap(value + DigitValue(msg[ptr]));
          } else {
            result := PARSE_VALUE_MALFORMED;
          }
          ptr := ptr + 1;
        }
        assert text[..ptr - kv.valueStart] == text;
        WrapLate(Magnitude(text), sign, 0);
        value := Wrap(value * sign);
        assert Magnitude(text) * sign == Meaning(text);
        Judged(text, result, value);
      }
    }
  }

  lemma Longer(text: string, n: nat)
    requires n < |text|
    ensures WellFormed(text[..n + 1]) <==> WellFormed(text[..n]) && (IsDigit(text[n]) || (n == 0 && text[0] == '-'))
  {
    if WellFormed(text[..n + 1]) {
      assert forall i :: 0 <= i < n ==> text[..n][i] == text[..n + 1][i];
    }
    if WellFormed(text[..n]) {
      assert forall i :: 0 <= i < n ==> text[..n][i] == text[..n + 1][i];
    }
  }

  /** The last pair with the key, if any. */
  function LastMatch(msg: string, found: seq<KeyValue>, key: string): (i: int)
    ensures -1 <= i < |found|
    ensures i >= 0 ==> KeyMatches(msg, found[i], key)
    ensures forall j :: i < j < |found| ==> !KeyMatches(msg, found[j], key)
  {
    if found == [] then -1
    else if KeyMatches(msg, found[|found| - 1], key) then |found| - 1
    else LastMatch(msg, found[..|found| - 1], key)
  }

  predicate AllIn(msg: string, found: seq<KeyValue>) {
    forall i :: 0 <= i < |found| ==> InMessage(msg, found[i])
  }

  lemma {:induction false} ScanStaysIn(msg: string, i: nat, state: State)
    requires i <= |msg|
    requires match state
             case InKey(ks) => ks <= i
             case OutKey(ks, ke) => ks <= ke <= i
             case InValue(ks, ke, vs) => ks <= ke <= vs <= i
             case InValueEscape(ks, ke, vs) => ks <= ke <= vs <= i
             case _ => true
    ensures AllIn(msg, Scan(msg, i, state).found)
    decreases |msg| - i
  {
    if state != End && i < |msg| {
      ScanStaysIn(msg, i + 1, Next(msg, i, state));
    }
  }

  lemma ParseStaysIn(msg: string)
    ensures AllIn(msg, ParseMessage(msg).found)
  {
    if OPENING <= msg { ScanStaysIn(msg, 5, Out); }
  }

  /** The value after the callback has seen the pairs, when the caller's value was `value`. */
  predicate ValueIs(msg: string, found: seq<KeyValue>, key: string, value: int, value': int)
    requires AllIn(msg, found)
  {
    var last := LastMatch(msg, found, key);
    value' == if last < 0 then value else Wrap(Meaning(ValueText(msg, found[last])))
  }

  predicate ResultIs(msg: string, found: seq<KeyValue>, key: string, result: ParseResult)
    requires AllIn(msg, found)
  {
    var last := LastMatch(msg, found, key);
    result == if last < 0 then PARSE_KEY_NOT_FOUND
              else if WellFormed(ValueText(msg, found[last])) then PARSE_OK
              else PARSE_VALUE_MALFORMED
  }

  /** The callback's effect on the next pair takes the answer one pair further. */
  lemma NextPair(msg: string, found: seq<KeyValue>, n: nat, key: string, value: int,
                 result: ParseResult, value': int, result': ParseResult, value'': int)
    requires AllIn(msg, found) && n < |found|
    requires ValueIs(msg, found[..n], key, value, value') && ResultIs(msg, found[..n], key, result)
    requires var text := ValueText(msg, found[n]);
             if !KeyMatches(msg, found[n], key) then value'' == value' && result' == result
             else value'' == Wrap(Meaning(text)) && result' == if WellFormed(text) then PARSE_OK else PARSE_VALUE_MALFORMED
    ensures ValueIs(msg, found[..n + 1], key, value, value'') && ResultIs(msg, found[..n + 1], key, result')
  {
    assert found[..n + 1][..n] == found[..n];
  }

  method ReadPairs(msg: string, found: seq<KeyValue>, data: IntParseCallbackData)
    requires AllIn(msg, found) && data.result == PARSE_KEY_NOT_FOUND
    modifies data
    ensures ValueIs(msg, found, data.key, old(data.value), data.value) && ResultIs(msg, found, data.key, data.result)
  {
    var n := 0;
    while n < |found|
      invariant n <= |found|
      invariant ValueIs(msg, found[..n], data.key, old(data.value), data.value)
      invariant ResultIs(msg, found[..n], data.key, data.result)
    {
      ghost var result, value := data.result, data.value;
      data.Callback(msg, found[n]);
      NextPair(msg, found, n, data.key, old(data.value), result, value, data.result, data.value);
      n := n + 1;
    }
    assert found[..n] == found;
  }

  /** No later pair has the key. */
  ghost predicate IsLast(msg: string, found: seq<KeyValue>, key: string, i: int)
    requires AllIn(msg, found)
  {
    && 0 <= i < |found| && msg[found[i].keyStart..found[i].keyEnd] == key
    && forall j :: i < j < |found| ==> msg[found[j].keyStart..found[j].keyEnd] != key
  }

  lemma LastIsJudged(msg: string, found: seq<KeyValue>, key: string, value: int, result: ParseResult, value': int)
    requires AllIn(msg, found) && ResultIs(msg, found, key, result) && ValueIs(msg, found, key, value, value')
    ensures forall i :: IsLast(msg, found, key, i) ==>
              IsJudged(msg[found[i].valueStart..found[i].valueEnd], result, value')
  {
    forall i | IsLast(msg, found, key, i) ensures IsJudged(msg[found[i].valueStart..found[i].valueEnd], result, value') {
      assert KeyMatches(msg, found[i], key);
      var last := LastMatch(msg, found, key);
      assert InMessage(msg, found[last]);
      Judged(ValueText(msg, found[i]), result, value');
    }
  }

  /**
   `msg_parse_int`. The last pair with the key alone decides result and value; without such a pair the
   caller's value stays, and a message that is cut short is reported as such whatever was found.
   */
  method MsgParseInt(msg: string, key: string, value: int) returns (result: ParseResult, value': int)
    requires Wrap(value) == value
    ensures var p := ParseMessage(msg);
            && AllIn(msg, p.found)
            && ValueIs(msg, p.found, key, value, value')
            && if p.end < 0 then result == PARSE_MESSAGE_INCOMPLETE else ResultIs(msg, p.found, key, result)
    ensures var p := ParseMessage(msg);
            p.end >= 0 ==> forall i :: IsLast(msg, p.found, key, i) ==>
              IsJudged(msg[p.found[i].valueStart..p.found[i].valueEnd], result, value')
  {
    var data := new IntParseCallbackData(key, value);
    var end, found := MessageParser(msg);
    ParseStaysIn(msg);
    ReadPairs(msg, found, data);
    if end < 0 {
      data.result := PARSE_MESSAGE_INCOMPLETE;
    } else {
      LastIsJudged(msg, found, key, value, data.result, data.value);
    }
    return data.result, data.value;
  }

  // ----- every 32-bit integer comes back

  function Digits(n: nat): string {
    (if n < 10 then "" else Digits(n / 10)) + [(('0' as int) + n % 10) as char]
  }

  /** The usual decimal text. */
  function Decimal(n: int): string {
    if n < 0 then "-" + Digits(-n) else Digits(n)
  }

  lemma {:induction false} DigitsSpell(n: nat)
    ensures Magnitude(Digits(n)) == n && |Digits(n)| > 0
    ensures forall i :: 0 <= i < |Digits(n)| ==> IsDigit(Digits(n)[i])
    decreases n
  {
    var rest := if n < 10 then "" else Digits(n / 10);
    assert Digits(n)[..|Digits(n)| - 1] == rest;
    if n >= 10 { DigitsSpell(n / 10); }
  }

  lemma {:induction false} DashSkipped(text: string)
    ensures Magnitude("-" + text) == Magnitude(text)
    decreases |text|
  {
    var more := "-" + text;
    if text == "" {
      assert more[..0] == "";
      assert Magnitude("") == 0;
    } else {
      assert more[..|more| - 1] == "-" + text[..|text| - 1];
      DashSkipped(text[..|text| - 1]);
    }
  }

  lemma DecimalMeans(n: int)
    ensures WellFormed(Decimal(n)) && Meaning(Decimal(n)) == n
  {
    hide Magnitude;
    var digits := Digits(if n < 0 then -n else n);
    DigitsSpell(if n < 0 then -n else n);
    if n < 0 {
      DashSkipped(digits);
      Dashed(digits);
    } else {
      assert IsDigit(digits[0]);
    }
  }

  lemma Dashed(digits: string)
    requires forall i :: 0 <= i < |digits| ==> IsDigit(digits[i])
    ensures WellFormed("-" + digits) && Sign("-" + digits) == -1
  {
    var text := "-" + digits;
    forall i | 0 <= i < |text| ensures IsDigit(text[i]) || (i == 0 && text[0] == '-') {
      assert i > 0 ==> text[i] == digits[i - 1];
    }
  }

  lemma {:induction false} LastIs(msg: string, found: seq<KeyValue>, args: seq<Arg>, key: string, at: nat)
    requires Reads(msg, found, args) && at < |args| && args[at].key == key
    requires forall j :: at < j < |args| ==> args[j].key != key
    ensures LastMatch(msg, found, key) == at && ReadsPair(msg, found[at], args[at])
  {
    assert ReadsPair(msg, found[at], args[at]);
    forall j | at < j < |found| ensures !KeyMatches(msg, found[j], key) {
      assert ReadsPair(msg, found[j], args[j]);
    }
  }

  /**
   The printer writes a message whose last argument called `key` is the decimal text of `n`; reading
   the integer back gives `n` for every 32-bit integer, the smallest one included.
   */
  method IntRoundTrip(args: seq<Arg>, at: nat, key: string, n: int, rest: string, value: int)
    returns (result: ParseResult, value': int)
    requires LegalArgs(args) && at < |args| && -TWO_31 <= n < TWO_31 && Wrap(value) == value
    requires args[at] == Arg(key, Decimal(n)) && forall j :: at < j < |args| ==> args[j].key != key
    ensures result == PARSE_OK && value' == n
  {
    var msg := Print(args) + rest;
    result, value' := MsgParseInt(msg, key, value);
    ghost var p := ParseMessage(msg);
    assert p.end >= 0 && Reads(msg, p.found, args) by { LegalIsReadBack(args, rest); }
    ReadInt(msg, p.found, args, at, Arg(key, Decimal(n)), n, value, result, value');
  }

  lemma ReadText(msg: string, found: seq<KeyValue>, args: seq<Arg>, at: nat, arg: Arg,
                 value: int, result: ParseResult, value': int)
    requires at < |args| && args[at] == arg && forall j :: at < j < |args| ==> args[j].key != arg.key
    requires Reads(msg, found, args) && AllIn(msg, found)
    requires ValueIs(msg, found, arg.key, value, value') && ResultIs(msg, found, arg.key, result)
    ensures value' == Wrap(Meaning(arg.value))
    ensures result == if WellFormed(arg.value) then PARSE_OK else PARSE_VALUE_MALFORMED
  {
    LastIs(msg, found, args, arg.key, at);
    assert ValueText(msg, found[at]) == arg.value;
  }

  lemma ReadInt(msg: string, found: seq<KeyValue>, args: seq<Arg>, at: nat, arg: Arg, n: int,
                value: int, result: ParseResult, value': int)
    requires -TWO_31 <= n < TWO_31 && arg.value == Decimal(n)
    requires at < |args| && args[at] == arg && forall j :: at < j < |args| ==> args[j].key != arg.key
    requires Reads(msg, found, args) && AllIn(msg, found)
    requires ValueIs(msg, found, arg.key, value, value') && ResultIs(msg, found, arg.key, result)
    ensures result == PARSE_OK && value' == n
  {
    hide Decimal, Meaning, WellFormed, Reads, AllIn, ValueIs, ResultIs;
    ReadText(msg, found, args, at, arg, value, result, value');
    DecimalMeans(n);
    assert Wrap(n) == n;
  }
}

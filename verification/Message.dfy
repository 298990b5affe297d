/**
 The SecretService message format. A message is the text before the terminating NUL of the C string;
 positions are offsets into it.
 */
module Message {

  datatype KeyValue = KeyValue(keyStart: nat, keyEnd: nat, valueStart: nat, valueEnd: nat)

  datatype State =
    | Out
    | InKey(keyStart: nat)
    | OutKey(keyStart: nat, keyEnd: nat)
    | InValue(keyStart: nat, keyEnd: nat, valueStart: nat)
    | InValueEscape(keyStart: nat, keyEnd: nat, valueStart: nat)
    | End

  /** The parser's answer: the length of the message or -1, and the pairs it reported, in order. */
  datatype Parse = Parse(end: int, found: seq<KeyValue>)

  function Next(msg: string, i: nat, state: State): State
    requires i < |msg|
  {
    var c := msg[i];
    match state
    case Out =>
      if c != ' ' && c != '/' then InKey(i)
      else if c == '/' && i + 1 < |msg| && msg[i + 1] == '>' then End
      else Out
    case InKey(ks) => if c == '=' then OutKey(ks, i) else state
    case OutKey(ks, ke) => if c == '"' then InValue(ks, ke, i + 1) else state
    case InValue(ks, ke, vs) =>
      if c == '"' then Out else if c == '\\' then InValueEscape(ks, ke, vs) else state
    case InValueEscape(ks, ke, vs) => InValue(ks, ke, vs)
    case End => End
  }

  /** The pair reported while reading the character at `i`. */
  function Reported(msg: string, i: nat, state: State): seq<KeyValue>
    requires i < |msg|
  {
    if state.InValue? && msg[i] == '"' then [KeyValue(state.keyStart, state.keyEnd, state.valueStart, i)] else []
  }

  function Scan(msg: string, i: nat, state: State): Parse
    requires i <= |msg|
    decreases |msg| - i
  {
    if state == End then Parse(i + 1, [])
    else if i == |msg| then Parse(-1, [])
    else
      var rest := Scan(msg, i + 1, Next(msg, i, state));
      Parse(rest.end, Reported(msg, i, state) + rest.found)
  }

  lemma ScanStep(msg: string, i: nat, state: State, before: seq<KeyValue>)
    requires i < |msg| && state != End
    ensures var here, rest := Scan(msg, i, state), Scan(msg, i + 1, Next(msg, i, state));
            here.end == rest.end && before + here.found == (before + Reported(msg, i, state)) + rest.found
  {
  }

  const OPENING := "<msg "

  function ParseMessage(msg: string): Parse {
    if OPENING <= msg then Scan(msg, 5, Out) else Parse(-1, [])
  }

  /** `message_parser`; `found` lists the calls of the callback. */
  method MessageParser(msg: string) returns (end: int, found: seq<KeyValue>)
    ensures Parse(end, found) == ParseMessage(msg)
  {
    found := [];
    if !(OPENING <= msg) {
      return -1, [];
    }
    var state := Out;
    var ptr := 5;
    while state != End && ptr < |msg|
      invariant 5 <= ptr <= |msg|
      invariant var rest := Scan(msg, ptr, state); ParseMessage(msg) == Parse(rest.end, found + rest.found)
    {
      var c := msg[ptr];
      ghost var was, before := state, found;
      match state {
        case Out =>
          if c != ' ' && c != '/' {
            state := InKey(ptr);
          } else if c == '/' && ptr + 1 < |msg| && msg[ptr + 1] == '>' {
            state := End;
          }
        case InKey(ks) =>
          if c == '=' {
            state := OutKey(ks, ptr);
          }
        case OutKey(ks, ke) =>
          if c == '"' {
            state := InValue(ks, ke, ptr + 1);
          }
        case InValue(ks, ke, vs) =>
          if c == '"' {
            found := found + [KeyValue(ks, ke, vs, ptr)];
            state := Out;
          } else if c == '\\' {
            state := InValueEscape(ks, ke, vs);
          }
        case InValueEscape(ks, ke, vs) =>
          state := InValue(ks, ke, vs);
      }
      assert state == Next(msg, ptr, was) && found == before + Reported(msg, ptr, was);
      ScanStep(msg, ptr, was, before);
      ptr := ptr + 1;
    }
    end := if state == End then ptr + 1 else -1;
  }

  method MsgEndIndex(msg: string) returns (end: int)
    ensures end == ParseMessage(msg).end
  {
    var found;
    end, found := MessageParser(msg);
  }

  // ----- the format

  /** A key/value pair as written: what may stand before the key and before the opening quote. */
  datatype Item = Item(sep: string, key: string, junk: string, value: string)

  predicate IsSep(sep: string) {
    forall i | 0 <= i < |sep| :: sep[i] == ' ' || sep[i] == '/'
  }

  predicate LegalKey(key: string) {
    key != "" && key[0] != ' ' && key[0] != '/' && '=' !in key[1..]
  }

  /** Every quote in the value is escaped, and so is whatever follows the last backslash. */
  predicate Escaped(value: string) {
    if value == "" then true
    else if value[0] == '\\' then |value| >= 2 && Escaped(value[2..])
    else value[0] != '"' && Escaped(value[1..])
  }

  predicate LegalItem(item: Item) {
    && IsSep(item.sep) && LegalKey(item.key)
    && (item.sep != "" && item.sep[|item.sep| - 1] == '/' ==> item.key[0] != '>')
    && '"' !in item.junk && Escaped(item.value)
  }

  function ItemText(item: Item): string {
    item.sep + (item.key + ("=" + (item.junk + ("\"" + (item.value + "\"")))))
  }

  function ItemsText(items: seq<Item>): string {
    if items == [] then "" else ItemText(items[0]) + ItemsText(items[1..])
  }

  function MessageText(items: seq<Item>, tail: string): string {
    OPENING + (ItemsText(items) + (tail + "/>"))
  }

  function Slice(item: Item, at: nat): KeyValue {
    var ks := at + |item.sep|;
    var ke := ks + |item.key|;
    var vs := ke + 1 + |item.junk| + 1;
    KeyValue(ks, ke, vs, vs + |item.value|)
  }

  /** Where the pairs of a message lie when its items start at `at`. */
  function Slices(items: seq<Item>, at: nat): seq<KeyValue> {
    if items == [] then [] else [Slice(items[0], at)] + Slices(items[1..], at + |ItemText(items[0])|)
  }

  ghost predicate LegalItems(items: seq<Item>) {
    forall i :: 0 <= i < |items| ==> LegalItem(items[i])
  }

  // ----- reading one part after the other

  /** `part` stands at position `i` of the message. */
  predicate At(msg: string, i: nat, part: string) {
    i + |part| <= |msg| && msg[i..i + |part|] == part
  }

  lemma AtSplit(msg: string, i: nat, a: string, b: string)
    requires At(msg, i, a + b)
    ensures At(msg, i, a) && At(msg, i + |a|, b)
  {
    assert msg[i..i + |a + b|][..|a|] == a;
    assert msg[i..i + |a + b|][|a|..] == b;
  }

  lemma AtIndex(msg: string, i: nat, part: string, k: nat)
    requires At(msg, i, part) && k < |part|
    ensures msg[i + k] == part[k]
  {
    assert msg[i..i + |part|][k] == part[k];
  }

  lemma {:induction false} ScanSep(msg: string, i: nat, sep: string)
    requires At(msg, i, sep) && IsSep(sep)
    requires sep != "" && sep[|sep| - 1] == '/' ==> !(i + |sep| < |msg| && msg[i + |sep|] == '>')
    ensures Scan(msg, i, Out) == Scan(msg, i + |sep|, Out)
    decreases |sep|
  {
    if sep != "" {
      assert sep == [sep[0]] + sep[1..];
      AtSplit(msg, i, [sep[0]], sep[1..]);
      AtIndex(msg, i, sep, 0);
      if |sep| > 1 { AtIndex(msg, i, sep, 1); }
      ScanSep(msg, i + 1, sep[1..]);
    }
  }

  lemma {:induction false} ScanKey(msg: string, i: nat, ks: nat, key: string)
    requires At(msg, i, key + "=") && '=' !in key
    ensures Scan(msg, i, InKey(ks)) == Scan(msg, i + |key| + 1, OutKey(ks, i + |key|))
    decreases |key|
  {
    AtIndex(msg, i, key + "=", 0);
    if key != "" {
      assert key + "=" == [key[0]] + (key[1..] + "=");
      AtSplit(msg, i, [key[0]], key[1..] + "=");
      ScanKey(msg, i + 1, ks, key[1..]);
    }
  }

  lemma {:induction false} ScanJunk(msg: string, i: nat, ks: nat, ke: nat, junk: string)
    requires At(msg, i, junk + "\"") && '"' !in junk
    ensures Scan(msg, i, OutKey(ks, ke)) == Scan(msg, i + |junk| + 1, InValue(ks, ke, i + |junk| + 1))
    decreases |junk|
  {
    AtIndex(msg, i, junk + "\"", 0);
    if junk != "" {
      assert junk + "\"" == [junk[0]] + (junk[1..] + "\"");
      AtSplit(msg, i, [junk[0]], junk[1..] + "\"");
      ScanJunk(msg, i + 1, ks, ke, junk[1..]);
    }
  }

  lemma {:induction false} ScanValue(msg: string, i: nat, ks: nat, ke: nat, vs: nat, value: string)
    requires At(msg, i, value + "\"") && Escaped(value)
    ensures var rest := Scan(msg, i + |value| + 1, Out);
            Scan(msg, i, InValue(ks, ke, vs)) == Parse(rest.end, [KeyValue(ks, ke, vs, i + |value|)] + rest.found)
    decreases |value|
  {
    AtIndex(msg, i, value + "\"", 0);
    if value != "" {
      var n := if value[0] == '\\' then 2 else 1;
      assert value + "\"" == value[..n] + (value[n..] + "\"");
      AtSplit(msg, i, value[..n], value[n..] + "\"");
      ScanValue(msg, i + n, ks, ke, vs, value[n..]);
    }
  }

  lemma KeyPart(msg: string, i: nat, key: string, rest: string)
    requires key != "" && At(msg, i, key + ("=" + rest))
    ensures At(msg, i, key) && msg[i] == key[0] && At(msg, i + 1, key[1..] + "=") && At(msg, i + |key| + 1, rest)
  {
    AtSplit(msg, i, key, "=" + rest);
    AtSplit(msg, i + |key|, "=", rest);
    AtIndex(msg, i, key, 0);
    assert key + ("=" + rest) == [key[0]] + ((key[1..] + "=") + rest);
    AtSplit(msg, i, [key[0]], (key[1..] + "=") + rest);
    AtSplit(msg, i + 1, key[1..] + "=", rest);
  }

  lemma JunkPart(msg: string, i: nat, junk: string, rest: string)
    requires At(msg, i, junk + ("\"" + rest))
    ensures At(msg, i, junk + "\"") && At(msg, i + |junk| + 1, rest)
  {
    assert junk + ("\"" + rest) == (junk + "\"") + rest;
    AtSplit(msg, i, junk + "\"", rest);
  }

  /** Where the parts of an item stand. */
  lemma ItemParts(msg: string, i: nat, item: Item)
    requires LegalKey(item.key) && At(msg, i, ItemText(item))
    ensures var s := Slice(item, i);
            && At(msg, i, item.sep)
            && At(msg, s.keyStart, item.key)
            && msg[s.keyStart] == item.key[0]
            && At(msg, s.keyStart + 1, item.key[1..] + "=")
            && At(msg, s.keyEnd + 1, item.junk + "\"")
            && At(msg, s.valueStart, item.value + "\"")
  {
    hide At;
    var afterEq := item.junk + ("\"" + (item.value + "\""));
    AtSplit(msg, i, item.sep, item.key + ("=" + afterEq));
    KeyPart(msg, i + |item.sep|, item.key, afterEq);
    JunkPart(msg, i + |item.sep| + |item.key| + 1, item.junk, item.value + "\"");
  }

  lemma KeyBegins(msg: string, i: nat)
    requires i < |msg| && msg[i] != ' ' && msg[i] != '/'
    ensures Scan(msg, i, Out) == Scan(msg, i + 1, InKey(i))
  {
  }

  lemma ScanWholeKey(msg: string, ks: nat, ke: nat, key: string)
    requires LegalKey(key) && ke == ks + |key|
    requires ks < |msg| && msg[ks] == key[0] && At(msg, ks + 1, key[1..] + "=")
    ensures Scan(msg, ks, Out) == Scan(msg, ke + 1, OutKey(ks, ke))
  {
    hide Scan, At;
    KeyBegins(msg, ks);
    ScanKey(msg, ks + 1, ks, key[1..]);
    assert ks + 1 + |key[1..]| == ke;
  }

  lemma ScanWholeJunk(msg: string, ks: nat, ke: nat, vs: nat, junk: string)
    requires At(msg, ke + 1, junk + "\"") && '"' !in junk && vs == ke + 1 + |junk| + 1
    ensures Scan(msg, ke + 1, OutKey(ks, ke)) == Scan(msg, vs, InValue(ks, ke, vs))
  {
    ScanJunk(msg, ke + 1, ks, ke, junk);
  }

  lemma ScanWholeValue(msg: string, s: KeyValue, value: string)
    requires At(msg, s.valueStart, value + "\"") && Escaped(value) && s.valueEnd == s.valueStart + |value|
    ensures var rest := Scan(msg, s.valueEnd + 1, Out);
            Scan(msg, s.valueStart, InValue(s.keyStart, s.keyEnd, s.valueStart)) == Parse(rest.end, [s] + rest.found)
  {
    ScanValue(msg, s.valueStart, s.keyStart, s.keyEnd, s.valueStart, value);
    assert KeyValue(s.keyStart, s.keyEnd, s.valueStart, s.valueStart + |value|) == s;
  }

  lemma ScanToValue(msg: string, ks: nat, ke: nat, vs: nat, key: string, junk: string)
    requires LegalKey(key) && ke == ks + |key|
    requires ks < |msg| && msg[ks] == key[0] && At(msg, ks + 1, key[1..] + "=")
    requires At(msg, ke + 1, junk + "\"") && '"' !in junk && vs == ke + 1 + |junk| + 1
    ensures Scan(msg, ks, Out) == Scan(msg, vs, InValue(ks, ke, vs))
  {
    ScanWholeKey(msg, ks, ke, key);
    ScanWholeJunk(msg, ks, ke, vs, junk);
  }

  lemma ScanPair(msg: string, s: KeyValue, key: string, junk: string, value: string)
    requires LegalKey(key) && '"' !in junk && Escaped(value)
    requires s.keyEnd == s.keyStart + |key| && s.valueStart == s.keyEnd + 1 + |junk| + 1 && s.valueEnd == s.valueStart + |value|
    requires s.keyStart < |msg| && msg[s.keyStart] == key[0] && At(msg, s.keyStart + 1, key[1..] + "=")
    requires At(msg, s.keyEnd + 1, junk + "\"") && At(msg, s.valueStart, value + "\"")
    ensures var rest := Scan(msg, s.valueEnd + 1, Out); Scan(msg, s.keyStart, Out) == Parse(rest.end, [s] + rest.found)
  {
    ScanToValue(msg, s.keyStart, s.keyEnd, s.valueStart, key, junk);
    ScanWholeValue(msg, s, value);
  }

  lemma ScanSepTo(msg: string, i: nat, ks: nat, sep: string)
    requires At(msg, i, sep) && IsSep(sep) && ks == i + |sep|
    requires sep != "" && sep[|sep| - 1] == '/' ==> !(ks < |msg| && msg[ks] == '>')
    ensures Scan(msg, i, Out) == Scan(msg, ks, Out)
  {
    hide Scan, At, IsSep;
    ScanSep(msg, i, sep);
  }

  lemma ScanSepPair(msg: string, i: nat, s: KeyValue, item: Item)
    requires LegalItem(item) && At(msg, i, item.sep) && s.keyStart == i + |item.sep|
    requires s.keyEnd == s.keyStart + |item.key| && s.valueStart == s.keyEnd + 1 + |item.junk| + 1
    requires s.valueEnd == s.valueStart + |item.value|
    requires s.keyStart < |msg| && msg[s.keyStart] == item.key[0] && At(msg, s.keyStart + 1, item.key[1..] + "=")
    requires At(msg, s.keyEnd + 1, item.junk + "\"") && At(msg, s.valueStart, item.value + "\"")
    ensures var rest := Scan(msg, s.valueEnd + 1, Out); Scan(msg, i, Out) == Parse(rest.end, [s] + rest.found)
  {
    ScanSepTo(msg, i, s.keyStart, item.sep);
    ScanPair(msg, s, item.key, item.junk, item.value);
  }

  lemma ScanItem(msg: string, i: nat, item: Item)
    requires LegalItem(item) && At(msg, i, ItemText(item))
    ensures i + |ItemText(item)| == Slice(item, i).valueEnd + 1 <= |msg|
    ensures var rest := Scan(msg, Slice(item, i).valueEnd + 1, Out);
            Scan(msg, i, Out) == Parse(rest.end, [Slice(item, i)] + rest.found)
  {
    ItemParts(msg, i, item);
    ScanSepPair(msg, i, Slice(item, i), item);
  }

  lemma ScanEnd(msg: string, i: nat, tail: string)
    requires IsSep(tail) && At(msg, i, tail + "/>")
    ensures Scan(msg, i, Out) == Parse(i + |tail| + 2, [])
  {
    AtSplit(msg, i, tail, "/>");
    AtIndex(msg, i + |tail|, "/>", 0);
    AtIndex(msg, i + |tail|, "/>", 1);
    ScanSep(msg, i, tail);
  }

  lemma {:induction false} ScanItems(msg: string, i: nat, items: seq<Item>, tail: string)
    requires LegalItems(items) && IsSep(tail) && At(msg, i, ItemsText(items) + (tail + "/>"))
    ensures Scan(msg, i, Out) == Parse(i + |ItemsText(items)| + |tail| + 2, Slices(items, i))
    decreases |items|
  {
    hide Scan, At, IsSep, LegalItem;
    var text := ItemsText(items);
    if items == [] {
      assert text + (tail + "/>") == tail + "/>";
      ScanEnd(msg, i, tail);
    } else {
      var first, rest := ItemText(items[0]), ItemsText(items[1..]);
      var next := i + |first|;
      assert text + (tail + "/>") == first + (rest + (tail + "/>"));
      AtSplit(msg, i, first, rest + (tail + "/>"));
      ScanItem(msg, i, items[0]);
      ScanItems(msg, next, items[1..], tail);
      assert next == Slice(items[0], i).valueEnd + 1;
      assert Slices(items, i) == [Slice(items[0], i)] + Slices(items[1..], next);
    }
  }

  /** The parser reads every legal message back, whatever text follows it. */
  lemma ParsesMessage(items: seq<Item>, tail: string, rest: string)
    requires LegalItems(items) && IsSep(tail)
    ensures ParseMessage(MessageText(items, tail) + rest) == Parse(|MessageText(items, tail)|, Slices(items, 5))
  {
    var body := ItemsText(items) + (tail + "/>");
    var msg := MessageText(items, tail) + rest;
    assert msg == OPENING + (body + rest);
    assert msg[5..5 + |body|] == body;
    ScanItems(msg, 5, items, tail);
  }

  // ----- everything the parser accepts is a legal message

  lemma {:induction false} KeyFound(msg: string, i: nat, ks: nat) returns (e: nat)
    requires i <= |msg| && Scan(msg, i, InKey(ks)).end >= 0
    ensures i <= e < |msg| && msg[e] == '=' && '=' !in msg[i..e]
    ensures Scan(msg, i, InKey(ks)) == Scan(msg, e + 1, OutKey(ks, e))
    decreases |msg| - i
  {
    e := i;
    if msg[i] != '=' {
      e := KeyFound(msg, i + 1, ks);
      assert msg[i..e] == [msg[i]] + msg[i + 1..e];
    }
  }

  lemma {:induction false} QuoteFound(msg: string, i: nat, ks: nat, ke: nat) returns (q: nat)
    requires i <= |msg| && Scan(msg, i, OutKey(ks, ke)).end >= 0
    ensures i <= q < |msg| && msg[q] == '"' && '"' !in msg[i..q]
    ensures Scan(msg, i, OutKey(ks, ke)) == Scan(msg, q + 1, InValue(ks, ke, q + 1))
    decreases |msg| - i
  {
    q := i;
    if msg[i] != '"' {
      q := QuoteFound(msg, i + 1, ks, ke);
      assert msg[i..q] == [msg[i]] + msg[i + 1..q];
    }
  }

  lemma {:induction false} ValueFound(msg: string, i: nat, ks: nat, ke: nat, vs: nat) returns (q: nat)
    requires i <= |msg| && Scan(msg, i, InValue(ks, ke, vs)).end >= 0
    ensures i <= q < |msg| && msg[q] == '"' && Escaped(msg[i..q])
    ensures var rest := Scan(msg, q + 1, Out);
            Scan(msg, i, InValue(ks, ke, vs)) == Parse(rest.end, [KeyValue(ks, ke, vs, q)] + rest.found)
    decreases |msg| - i
  {
    q := i;
    if msg[i] == '\\' {
      q := ValueFound(msg, i + 2, ks, ke, vs);
      assert msg[i..q][2..] == msg[i + 2..q];
    } else if msg[i] != '"' {
      q := ValueFound(msg, i + 1, ks, ke, vs);
      assert msg[i..q][1..] == msg[i + 1..q];
    }
  }

  lemma {:induction false} SepFound(msg: string, i: nat) returns (k: nat)
    requires i <= |msg| && Scan(msg, i, Out).end >= 0
    ensures i <= k < |msg| && IsSep(msg[i..k]) && Scan(msg, i, Out) == Scan(msg, k, Out)
    ensures Next(msg, k, Out) != Out
    ensures k > i && msg[k - 1] == '/' ==> msg[k] != '>'
    decreases |msg| - i
  {
    k := i;
    if Next(msg, i, Out) == Out {
      k := SepFound(msg, i + 1);
      assert msg[i..k] == [msg[i]] + msg[i + 1..k];
    }
  }

  lemma ItemFound(msg: string, i: nat, k: nat) returns (item: Item, next: nat)
    requires i <= k < |msg| && IsSep(msg[i..k]) && Scan(msg, i, Out) == Scan(msg, k, Out)
    requires k > i && msg[k - 1] == '/' ==> msg[k] != '>'
    requires Next(msg, k, Out).InKey? && Scan(msg, i, Out).end >= 0
    ensures k < next <= |msg| && LegalItem(item) && msg[i..next] == ItemText(item)
    ensures var rest := Scan(msg, next, Out);
            Scan(msg, i, Out) == Parse(rest.end, [Slice(item, i)] + rest.found)
  {
    hide Scan;
    var e, q := PairFound(msg, k);
    var v := ValueFound(msg, q + 1, k, e, q + 1);
    item := Item(msg[i..k], msg[k..e], msg[e + 1..q], msg[q + 1..v]);
    next := v + 1;
    assert Slice(item, i) == KeyValue(k, e, q + 1, v);
    TextFound(msg, i, k, e, q, v);
  }

  lemma PairFound(msg: string, k: nat) returns (e: nat, q: nat)
    requires k < |msg| && Next(msg, k, Out).InKey? && Scan(msg, k, Out).end >= 0
    ensures k < e < q < |msg| && msg[e] == '=' && msg[q] == '"'
    ensures LegalKey(msg[k..e]) && '"' !in msg[e + 1..q]
    ensures Scan(msg, k, Out) == Scan(msg, q + 1, InValue(k, e, q + 1))
  {
    KeyBegins(msg, k);
    e := KeyFound(msg, k + 1, k);
    q := QuoteFound(msg, e + 1, k, e);
    assert msg[k..e][1..] == msg[k + 1..e];
  }

  lemma TextFound(msg: string, i: nat, k: nat, e: nat, q: nat, v: nat)
    requires i <= k < e < q < v + 1 <= |msg| && q + 1 <= v
    requires msg[e] == '=' && msg[q] == '"' && msg[v] == '"'
    ensures msg[i..v + 1] == ItemText(Item(msg[i..k], msg[k..e], msg[e + 1..q], msg[q + 1..v]))
  {
    var next := v + 1;
    assert msg[e..e + 1] == "=" && msg[q..q + 1] == "\"" && msg[v..next] == "\"";
    assert msg[q + 1..next] == msg[q + 1..v] + "\"";
    assert msg[q..next] == "\"" + msg[q + 1..next];
    assert msg[e + 1..next] == msg[e + 1..q] + msg[q..next];
    assert msg[e..next] == "=" + msg[e + 1..next];
    assert msg[k..next] == msg[k..e] + msg[e..next];
    assert msg[i..next] == msg[i..k] + msg[k..next];
  }

  /** Where no key begins, the message ends. */
  lemma TailFound(msg: string, i: nat, k: nat)
    requires i <= k < |msg| && IsSep(msg[i..k]) && Scan(msg, i, Out) == Scan(msg, k, Out) && Scan(msg, i, Out).end >= 0
    requires Next(msg, k, Out) == End
    ensures Scan(msg, i, Out) == Parse(k + 2, []) && k + 2 <= |msg| && msg[i..k + 2] == msg[i..k] + "/>"
  {
    hide Scan, IsSep;
    EndsHere(msg, k);
    assert msg[i..k + 2] == msg[i..k] + msg[k..k + 2];
  }

  lemma EndsHere(msg: string, k: nat)
    requires k < |msg| && Next(msg, k, Out) == End
    ensures Scan(msg, k, Out) == Parse(k + 2, []) && k + 2 <= |msg| && msg[k..k + 2] == "/>"
  {
    assert Scan(msg, k + 1, End) == Parse(k + 2, []);
  }

  lemma {:induction false} ItemsFound(msg: string, i: nat) returns (items: seq<Item>, tail: string)
    requires i <= |msg| && Scan(msg, i, Out).end >= 0
    ensures LegalItems(items) && IsSep(tail)
    ensures var p := Scan(msg, i, Out);
            i <= p.end <= |msg| && msg[i..p.end] == ItemsText(items) + (tail + "/>") && p.found == Slices(items, i)
    decreases |msg| - i
  {
    hide IsSep, LegalItem, ItemText, Slice, Scan;
    var end := Scan(msg, i, Out).end;
    var k := SepFound(msg, i);
    if Next(msg, k, Out) == End {
      items, tail := [], msg[i..k];
      TailFound(msg, i, k);
    } else {
      var item, next := ItemFound(msg, i, k);
      var items', tail' := ItemsFound(msg, next);
      items, tail := [item] + items', tail';
      assert items[1..] == items';
      assert next == i + |ItemText(item)|;
      assert msg[i..end] == msg[i..next] + msg[next..end];
      assert ItemsText(items) + (tail + "/>") == ItemText(item) + (ItemsText(items') + (tail' + "/>"));
    }
  }

  /** Whatever the parser accepts is a legal message, and the reported pairs are its pairs. */
  lemma AcceptsOnlyMessages(msg: string) returns (items: seq<Item>, tail: string)
    requires ParseMessage(msg).end >= 0
    ensures LegalItems(items) && IsSep(tail)
    ensures var p := ParseMessage(msg);
            p.end <= |msg| && msg[..p.end] == MessageText(items, tail) && p.found == Slices(items, 5)
  {
    items, tail := ItemsFound(msg, 5);
    var end := ParseMessage(msg).end;
    assert msg[..end] == msg[..5] + msg[5..end] && msg[..5] == OPENING;
  }

  /** A message can be cut off a stream: what follows it does not matter, and no shorter piece is one. */
  lemma Framing(msg: string, rest: string, k: nat)
    requires ParseMessage(msg).end >= 0
    ensures ParseMessage(msg).end <= |msg|
    ensures ParseMessage(msg[..ParseMessage(msg).end] + rest) == ParseMessage(msg)
    ensures k < ParseMessage(msg).end ==> ParseMessage(msg[..k]).end == -1
  {
    hide ParseMessage, MessageText, Slices, IsSep, LegalItems;
    var end := ParseMessage(msg).end;
    var items, tail := AcceptsOnlyMessages(msg);
    ParsesMessage(items, tail, rest);
    if k < end {
      NeverBelowMinusOne(msg[..k]);
      if ParseMessage(msg[..k]).end >= 0 {
        var items', tail' := AcceptsOnlyMessages(msg[..k]);
        var n := ParseMessage(msg[..k]).end;
        assert msg == msg[..k][..n] + msg[n..];
        ParsesMessage(items', tail', msg[n..]);
      }
    }
  }

  lemma NeverBelowMinusOne(msg: string)
    ensures ParseMessage(msg).end >= -1
  {
    if OPENING <= msg { ScanBounded(msg, 5, Out); }
  }

  lemma {:induction false} ScanBounded(msg: string, i: nat, state: State)
    requires i <= |msg|
    ensures Scan(msg, i, state).end >= -1
    decreases |msg| - i
  {
    if state != End && i < |msg| { ScanBounded(msg, i + 1, Next(msg, i, state)); }
  }

  // ----- the printer of the Ruby client

  datatype Arg = Arg(key: string, value: string)

  function ArgsText(args: seq<Arg>): string {
    if args == [] then "" else " " + args[0].key + "=\"" + args[0].value + "\"" + ArgsText(args[1..])
  }

  /** `Message#to_s` */
  function Print(args: seq<Arg>): string {
    "<msg" + ArgsText(args) + "/>"
  }

  function ToItem(arg: Arg, sep: string): Item {
    Item(sep, arg.key, "", arg.value)
  }

  function ToItems(args: seq<Arg>, sep: string): seq<Item> {
    if args == [] then [] else [ToItem(args[0], sep)] + ToItems(args[1..], " ")
  }

  ghost predicate LegalArgs(args: seq<Arg>) {
    forall i :: 0 <= i < |args| ==> LegalKey(args[i].key) && Escaped(args[i].value)
  }

  lemma ArgText(arg: Arg, rest: string, sep: string)
    ensures sep + (" " + arg.key + "=\"" + arg.value + "\"" + rest)[1..] == ItemText(ToItem(arg, sep)) + rest
  {
    var item := arg.key + ("=" + ("" + ("\"" + (arg.value + "\""))));
    assert (" " + arg.key + "=\"" + arg.value + "\"" + rest)[1..] == item + rest;
    assert sep + (item + rest) == (sep + item) + rest;
  }

  lemma {:induction false} PrintedItems(args: seq<Arg>, sep: string)
    requires LegalArgs(args) && (sep == "" || sep == " ")
    ensures LegalItems(ToItems(args, sep)) && |ToItems(args, sep)| == |args|
    ensures args != [] ==> |ArgsText(args)| > 0 && ArgsText(args)[0] == ' '
    ensures args != [] ==> sep + ArgsText(args)[1..] == ItemsText(ToItems(args, sep))
    decreases |args|
  {
    if args != [] {
      var items, more := ToItems(args, sep), ToItems(args[1..], " ");
      PrintedItems(args[1..], " ");
      assert items[1..] == more && LegalItem(items[0]);
      assert ArgsText(args[1..]) == ItemsText(more) by {
        if |args| > 1 {
          assert ArgsText(args[1..]) == " " + ArgsText(args[1..])[1..];
        }
      }
      ArgText(args[0], ArgsText(args[1..]), sep);
    }
  }

  /** The pairs of a printed message, read off the text. */
  ghost predicate Reads(msg: string, found: seq<KeyValue>, args: seq<Arg>) {
    && |found| == |args|
    && forall i :: 0 <= i < |found| ==> ReadsPair(msg, found[i], args[i])
  }

  predicate ReadsPair(msg: string, s: KeyValue, arg: Arg) {
    && s.keyStart <= s.keyEnd <= |msg| && s.valueStart <= s.valueEnd <= |msg|
    && msg[s.keyStart..s.keyEnd] == arg.key && msg[s.valueStart..s.valueEnd] == arg.value
  }

  lemma SliceReads(msg: string, i: nat, arg: Arg, sep: string)
    requires LegalKey(arg.key) && At(msg, i, ItemText(ToItem(arg, sep)))
    ensures ReadsPair(msg, Slice(ToItem(arg, sep), i), arg)
  {
    ItemParts(msg, i, ToItem(arg, sep));
    AtSplit(msg, Slice(ToItem(arg, sep), i).valueStart, arg.value, "\"");
  }

  lemma {:induction false} SlicesRead(msg: string, i: nat, args: seq<Arg>, sep: string)
    requires LegalArgs(args) && At(msg, i, ItemsText(ToItems(args, sep)))
    ensures Reads(msg, Slices(ToItems(args, sep), i), args)
    decreases |args|
  {
    hide At, ItemText, Slice, ReadsPair, LegalKey, Escaped;
    if args != [] {
      var items, more := ToItems(args, sep), ToItems(args[1..], " ");
      assert items[0] == ToItem(args[0], sep) && items[1..] == more;
      var first := ItemText(items[0]);
      assert ItemsText(items) == first + ItemsText(more);
      AtSplit(msg, i, first, ItemsText(more));
      SliceReads(msg, i, args[0], sep);
      SlicesRead(msg, i + |first|, args[1..], " ");
      assert Slices(items, i) == [Slice(items[0], i)] + Slices(more, i + |first|);
    }
  }

  lemma OpeningText(body: string)
    ensures "<msg" + (" " + body) + "/>" == OPENING + (body + ("" + "/>"))
  {
    assert "" + "/>" == "/>";
    assert OPENING == "<msg" + " ";
  }

  lemma PrintedMessage(args: seq<Arg>)
    requires args != [] && LegalArgs(args)
    ensures LegalItems(ToItems(args, "")) && Print(args) == MessageText(ToItems(args, ""), "")
  {
    PrintedItems(args, "");
    var body := ArgsText(args)[1..];
    assert "" + body == body;
    assert ArgsText(args) == " " + body;
    OpeningText(body);
  }

  lemma ItemsAt(items: seq<Item>, tail: string, rest: string)
    ensures At(MessageText(items, tail) + rest, 5, ItemsText(items))
  {
    var text := ItemsText(items);
    assert MessageText(items, tail) + rest == OPENING + (text + (tail + "/>" + rest));
    assert (OPENING + (text + (tail + "/>" + rest)))[5..5 + |text|] == text;
  }

  /** Parsing the printed arguments gives them back, whatever text follows. */
  ghost predicate ReadBack(args: seq<Arg>, rest: string) {
    var p := ParseMessage(Print(args) + rest);
    p.end == |Print(args)| && Reads(Print(args) + rest, p.found, args)
  }

  lemma LegalIsReadBack(args: seq<Arg>, rest: string)
    requires args != [] && LegalArgs(args)
    ensures ReadBack(args, rest)
  {
    var items := ToItems(args, "");
    PrintedMessage(args);
    ParsesMessage(items, "", rest);
    ItemsAt(items, "", rest);
    SlicesRead(MessageText(items, "") + rest, 5, args, "");
  }

  lemma SliceIsItem(msg: string, i: nat, item: Item, arg: Arg)
    requires LegalItem(item) && At(msg, i, ItemText(item)) && ReadsPair(msg, Slice(item, i), arg)
    ensures arg.key == item.key && arg.value == item.value
  {
    var s := Slice(item, i);
    ItemParts(msg, i, item);
    AtSplit(msg, s.valueStart, item.value, "\"");
    assert At(msg, s.keyStart, arg.key) && At(msg, s.valueStart, arg.value);
  }

  /** What is read from a legal message is legal. */
  lemma {:induction false} ReadIsLegal(msg: string, i: nat, items: seq<Item>, args: seq<Arg>)
    requires LegalItems(items) && At(msg, i, ItemsText(items)) && Reads(msg, Slices(items, i), args)
    ensures LegalArgs(args)
    decreases |items|
  {
    hide At, ItemText, Slice, ReadsPair, LegalKey, Escaped;
    if items != [] {
      var first := ItemText(items[0]);
      assert ItemsText(items) == first + ItemsText(items[1..]);
      AtSplit(msg, i, first, ItemsText(items[1..]));
      var found := Slices(items, i);
      assert found == [Slice(items[0], i)] + Slices(items[1..], i + |first|) && found[1..] == Slices(items[1..], i + |first|);
      assert ReadsPair(msg, found[0], args[0]);
      SliceIsItem(msg, i, items[0], args[0]);
      RestReads(msg, found, args);
      ReadIsLegal(msg, i + |first|, items[1..], args[1..]);
      LegalCons(args, items[0]);
    }
  }

  lemma RestReads(msg: string, found: seq<KeyValue>, args: seq<Arg>)
    requires Reads(msg, found, args) && found != []
    ensures Reads(msg, found[1..], args[1..])
  {
    hide ReadsPair;
  }

  lemma LegalCons(args: seq<Arg>, item: Item)
    requires args != [] && LegalArgs(args[1..]) && LegalItem(item) && args[0].key == item.key && args[0].value == item.value
    ensures LegalArgs(args)
  {
    hide LegalKey, Escaped;
    forall i | 0 <= i < |args| ensures LegalKey(args[i].key) && Escaped(args[i].value) {
      assert i > 0 ==> args[i] == args[1..][i - 1];
    }
  }

  /**
   Printing and parsing: every pair comes back in order and the message ends where it should, exactly
   when there is a pair, every key is legal and every value is escaped.
   */
  lemma RoundTrip(args: seq<Arg>, rest: string)
    ensures ReadBack(args, rest) <==> args != [] && LegalArgs(args)
  {
    hide Scan, Reads, LegalArgs;
    if args == [] {
      EmptyMessageRefused(rest);
    } else if LegalArgs(args) {
      LegalIsReadBack(args, rest);
    } else if ReadBack(args, rest) {
      var msg := Print(args) + rest;
      var items, tail := AcceptsOnlyMessages(msg);
      var end := ParseMessage(msg).end;
      ItemsAt(items, tail, msg[end..]);
      assert msg == MessageText(items, tail) + msg[end..];
      ReadIsLegal(msg, 5, items, args);
    }
  }

  /** Text with a backslash before every quote and every backslash. */
  function Escape(text: string): string {
    if text == "" then ""
    else (if text[0] == '"' || text[0] == '\\' then ['\\', text[0]] else [text[0]]) + Escape(text[1..])
  }

  lemma {:induction false} EscapeEscapes(text: string)
    ensures Escaped(Escape(text))
  {
    if text != "" {
      var rest := Escape(text[1..]);
      EscapeEscapes(text[1..]);
      assert ([text[0]] + rest)[1..] == rest && (['\\', text[0]] + rest)[2..] == rest;
    }
  }

  /**
   Any text can be sent as a value, under any key that has no '=' after its first character and starts
   with neither ' ' nor '/'.
   */
  lemma OneArgument(key: string, text: string, rest: string)
    requires key != "" && key[0] != ' ' && key[0] != '/' && forall i :: 1 <= i < |key| ==> key[i] != '='
    ensures var value := Escape(text);
            ParseMessage("<msg " + key + "=\"" + value + "\"/>" + rest)
            == Parse(|key| + |value| + 10, [KeyValue(5, 5 + |key|, 7 + |key|, 7 + |key| + |value|)])
  {
    var value := Escape(text);
    EscapeEscapes(text);
    var item := Item("", key, "", value);
    assert '=' !in key[1..];
    ParsesMessage([item], "", rest);
    assert ItemText(item) == key + "=\"" + value + "\"";
    assert ItemsText([item]) == ItemText(item) + ItemsText([item][1..]) == ItemText(item);
    assert MessageText([item], "") == "<msg " + key + "=\"" + value + "\"/>";
    assert Slices([item], 5) == [Slice(item, 5)] + Slices([item][1..], 5 + |ItemText(item)|) == [Slice(item, 5)];
  }

  /** A message without pairs lacks the space the parser insists on. */
  lemma EmptyMessageRefused(rest: string)
    ensures ParseMessage(Print([]) + rest).end == -1
  {
    assert (Print([]) + rest)[4] == '/';
  }
}

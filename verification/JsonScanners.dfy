/**
 * The two scanners of the strict decoder (internal/executor/validation.go): the stack machine that refuses
 * duplicate keys, and the byte scanner that refuses unpaired surrogate escapes.
 */
module JsonScanners {
  import opened Common
  import opened Envelope

  // ----- duplicate keys

  /** A token as json.Decoder gives it: both closing delimiters act alike. */
  datatype Token = OpenObject | OpenArray | Close | Text(text: string) | Scalar

  datatype Frame = Frame(isObject: bool, expectKey: bool, keys: set<string>)

  /** valueDone: a value that ends inside an object makes the object expect a key. */
  function ValueDone(stack: seq<Frame>): seq<Frame> {
    if stack != [] && stack[|stack| - 1].isObject then stack[|stack| - 1 := stack[|stack| - 1].(expectKey := true)]
    else stack
  }

  function Turn(stack: seq<Frame>, token: Token): Option<seq<Frame>> {
    match token
    case OpenObject => Some(ValueDone(stack) + [Frame(true, true, {})])
    case OpenArray => Some(ValueDone(stack) + [Frame(false, false, {})])
    case Close => if stack == [] then None else Some(ValueDone(stack[..|stack| - 1]))
    case _ =>
      if stack == [] || !stack[|stack| - 1].isObject then Some(stack)
      else
        var top := stack[|stack| - 1];
        var key := if token.Text? then token.text else "";
        if !top.expectKey then Some(stack[|stack| - 1 := top.(expectKey := true)])
        else if key in top.keys then None
        else Some(stack[|stack| - 1 := Frame(true, false, top.keys + {key})])
  }

  /** The stack after the tokens, or None when one of them is refused. */
  function Turns(stack: seq<Frame>, tokens: seq<Token>): Option<seq<Frame>>
    decreases tokens
  {
    if tokens == [] then Some(stack)
    else
      match Turn(stack, tokens[0])
      case None => None
      case Some(next) => Turns(next, tokens[1..])
  }

  /** checkDuplicateKeys on the tokens of a document. */
  method CheckDuplicateKeys(tokens: seq<Token>) returns (ok: bool)
    ensures ok <==> Turns([], tokens).Some?
  {
    var stack: seq<Frame> := [];
    for i := 0 to |tokens|
      invariant Turns([], tokens) == Turns(stack, tokens[i..])
    {
      var next := Turn(stack, tokens[i]);
      assert tokens[i..][1..] == tokens[i + 1..];
      if next.None? {
        return false;
      }
      stack := next.value;
    }
    return true;
  }

  datatype Json = Atom(token: Token) | Array(items: seq<Json>) | Object(members: seq<Member>)
  datatype Member = Member(key: string, value: Json)

  predicate WellFormed(v: Json) {
    match v
    case Atom(token) => token.Text? || token.Scalar?
    case Array(items) => forall x | x in items :: WellFormed(x)
    case Object(members) => forall m | m in members :: WellFormed(m.value)
  }

  function Tokens(v: Json): seq<Token>
    decreases v, 1
  {
    match v
    case Atom(token) => [token]
    case Array(items) => [OpenArray] + ItemTokens(items) + [Close]
    case Object(members) => [OpenObject] + MemberTokens(members) + [Close]
  }

  function ItemTokens(items: seq<Json>): seq<Token>
    decreases items, 0
  {
    if items == [] then [] else Tokens(items[0]) + ItemTokens(items[1..])
  }

  function MemberTokens(members: seq<Member>): seq<Token>
    decreases members, 0
  {
    if members == [] then [] else [Text(members[0].key)] + Tokens(members[0].value) + MemberTokens(members[1..])
  }

  /** Every object at every depth has distinct keys (the names of section 4 of RFC 8259). */
  ghost predicate DistinctNames(v: Json) {
    match v
    case Atom(_) => true
    case Array(items) => forall i | 0 <= i < |items| :: DistinctNames(items[i])
    case Object(members) =>
      && (forall i | 0 <= i < |members| :: DistinctNames(members[i].value))
      && (forall i, j | 0 <= i < j < |members| :: members[i].key != members[j].key)
  }

  /** A value may start: at the top, in an array, or after a key. */
  predicate ValueExpected(stack: seq<Frame>) {
    stack == [] || !stack[|stack| - 1].isObject || !stack[|stack| - 1].expectKey
  }

  lemma {:induction false} TurnsSplit(stack: seq<Frame>, a: seq<Token>, b: seq<Token>)
    ensures Turns(stack, a + b) == if Turns(stack, a).None? then None else Turns(Turns(stack, a).value, b)
    decreases a
  {
    if a == [] {
      assert a + b == b;
    } else {
      assert (a + b)[1..] == a[1..] + b;
      if Turn(stack, a[0]).Some? {
        TurnsSplit(Turn(stack, a[0]).value, a[1..], b);
      }
    }
  }

  lemma TurnsOne(stack: seq<Frame>, token: Token)
    ensures Turns(stack, [token]) == Turn(stack, token)
  {
    assert [token][1..] == [];
    if Turn(stack, token).Some? {
      assert Turns(Turn(stack, token).value, []) == Turn(stack, token);
    }
  }

  /**
   * The machine on the tokens of one value: it is refused exactly when some object in it repeats a name,
   * and otherwise leaves the stack as it was, with an enclosing object expecting its next key.
   */
  lemma {:induction false} ValueTurns(stack: seq<Frame>, v: Json)
    requires WellFormed(v) && ValueExpected(stack)
    ensures Turns(stack, Tokens(v)) == if DistinctNames(v) then Some(ValueDone(stack)) else None
    decreases v, 2
  {
    match v
    case Atom(token) =>
      TurnsOne(stack, token);
    case Array(items) =>
      var inner := ValueDone(stack) + [Frame(false, false, {})];
      TurnsOne(stack, OpenArray);
      TurnsSplit(stack, [OpenArray] + ItemTokens(items), [Close]);
      TurnsSplit(stack, [OpenArray], ItemTokens(items));
      ItemTurns(inner, items);
      TurnsOne(inner, Close);
      assert inner[..|inner| - 1] == ValueDone(stack) && ValueDone(ValueDone(stack)) == ValueDone(stack);
    case Object(members) =>
      MemberTurns(ValueDone(stack), {}, members);
      ObjectTurns(stack, members);
  }

  lemma ObjectTurns(stack: seq<Frame>, members: seq<Member>)
    requires var below := ValueDone(stack);
      Turns(below + [Frame(true, true, {})], MemberTokens(members)) ==
        if Fresh({}, members) then Some(below + [Frame(true, true, {} + Names(members))]) else None
    ensures Turns(stack, Tokens(Object(members))) == if Fresh({}, members) then Some(ValueDone(stack)) else None
  {
    var below := ValueDone(stack);
    TurnsOne(stack, OpenObject);
    TurnsSplit(stack, [OpenObject] + MemberTokens(members), [Close]);
    TurnsSplit(stack, [OpenObject], MemberTokens(members));
    if Fresh({}, members) {
      var last := below + [Frame(true, true, {} + Names(members))];
      TurnsOne(last, Close);
      assert last[..|last| - 1] == below && ValueDone(below) == below;
    }
  }

  lemma {:induction false} ItemTurns(stack: seq<Frame>, items: seq<Json>)
    requires stack != [] && !stack[|stack| - 1].isObject && forall x | x in items :: WellFormed(x)
    ensures Turns(stack, ItemTokens(items)) ==
            if forall i | 0 <= i < |items| :: DistinctNames(items[i]) then Some(stack) else None
    decreases items, 1
  {
    if items != [] {
      ValueTurns(stack, items[0]);
      TurnsSplit(stack, Tokens(items[0]), ItemTokens(items[1..]));
      ItemTurns(stack, items[1..]);
      assert items == [items[0]] + items[1..];
    }
  }

  /** The names of the members are new to `seen` and distinct, and the values are in order. */
  ghost predicate Fresh(seen: set<string>, members: seq<Member>) {
    && (forall i | 0 <= i < |members| :: members[i].key !in seen && DistinctNames(members[i].value))
    && (forall i, j | 0 <= i < j < |members| :: members[i].key != members[j].key)
  }

  ghost function Names(members: seq<Member>): set<string> { set m | m in members :: m.key }

  lemma FreshTail(seen: set<string>, members: seq<Member>)
    requires members != []
    ensures Fresh(seen, members) <==>
            members[0].key !in seen && DistinctNames(members[0].value) && Fresh(seen + {members[0].key}, members[1..])
    ensures seen + {members[0].key} + Names(members[1..]) == seen + Names(members)
  {
    assert members == [members[0]] + members[1..];
    if Fresh(seen + {members[0].key}, members[1..]) && members[0].key !in seen && DistinctNames(members[0].value) {
      forall i | 0 <= i < |members| ensures members[i].key !in seen && DistinctNames(members[i].value) {
        if i > 0 {
          assert members[1..][i - 1] == members[i];
        }
      }
      forall i, j | 0 <= i < j < |members| ensures members[i].key != members[j].key {
        assert members[1..][j - 1] == members[j];
        if i > 0 {
          assert members[1..][i - 1] == members[i];
        }
      }
    }
  }

  /** The key of a member, and then its value. */
  lemma KeyTurns(below: seq<Frame>, seen: set<string>, key: string)
    ensures Turns(below + [Frame(true, true, seen)], [Text(key)]) ==
            if key in seen then None else Some(below + [Frame(true, false, seen + {key})])
    ensures ValueDone(below + [Frame(true, false, seen + {key})]) == below + [Frame(true, true, seen + {key})]
  {
    var stack := below + [Frame(true, true, seen)];
    TurnsOne(stack, Text(key));
    assert stack[|stack| - 1 := Frame(true, false, seen + {key})] == below + [Frame(true, false, seen + {key})];
  }

  lemma FirstMemberTurns(below: seq<Frame>, seen: set<string>, m: Member, rest: seq<Token>)
    requires Turns(below + [Frame(true, false, seen + {m.key})], Tokens(m.value)) ==
             if DistinctNames(m.value) then Some(below + [Frame(true, true, seen + {m.key})]) else None
    ensures Turns(below + [Frame(true, true, seen)], [Text(m.key)] + Tokens(m.value) + rest) ==
            if m.key in seen || !DistinctNames(m.value) then None
            else Turns(below + [Frame(true, true, seen + {m.key})], rest)
  {
    var stack := below + [Frame(true, true, seen)];
    KeyTurns(below, seen, m.key);
    TurnsSplit(stack, [Text(m.key)] + Tokens(m.value), rest);
    TurnsSplit(stack, [Text(m.key)], Tokens(m.value));
  }

  lemma {:induction false} MemberTurns(below: seq<Frame>, seen: set<string>, members: seq<Member>)
    requires forall m | m in members :: WellFormed(m.value)
    ensures Turns(below + [Frame(true, true, seen)], MemberTokens(members)) ==
            if Fresh(seen, members) then Some(below + [Frame(true, true, seen + Names(members))]) else None
    decreases members, 1
  {
    if members == [] {
      assert seen + Names(members) == seen;
    } else {
      var m, rest := members[0], members[1..];
      ValueTurns(below + [Frame(true, false, seen + {m.key})], m.value);
      KeyTurns(below, seen, m.key);
      FirstMemberTurns(below, seen, m, MemberTokens(rest));
      MemberTurns(below, seen + {m.key}, rest);
      FreshTail(seen, members);
    }
  }

  /** checkDuplicateKeys accepts a document exactly when every object in it, at every depth, has distinct names. */
  lemma DuplicateKeysFound(v: Json)
    requires WellFormed(v)
    ensures Turns([], Tokens(v)) == if DistinctNames(v) then Some([]) else None
  {
    ValueTurns([], v);
  }

  // ----- surrogate escapes

  const QUOTE: Byte := 0x22
  const BACKSLASH: Byte := 0x5C
  const LETTER_U: Byte := 0x75

  predicate IsHexDigit(b: Byte) { 0x30 <= b <= 0x39 || 0x61 <= b <= 0x66 || 0x41 <= b <= 0x46 }

  function Digit(b: Byte): int
    requires IsHexDigit(b)
  {
    if b <= 0x39 then b as int - 0x30 else if b <= 0x46 then b as int - 0x41 + 10 else b as int - 0x61 + 10
  }

  /** hex4. */
  function Hex4(s: Bytes): Option<int>
    requires |s| == 4
  {
    if IsHexDigit(s[0]) && IsHexDigit(s[1]) && IsHexDigit(s[2]) && IsHexDigit(s[3])
    then Some(((Digit(s[0]) * 16 + Digit(s[1])) * 16 + Digit(s[2])) * 16 + Digit(s[3]))
    else None
  }


  /** checkJSONEscapes on what is left of the text, inside a string or outside. */
  predicate Scan(s: Bytes, inside: bool) {
    if s == [] then true
    else if !inside then Scan(s[1..], s[0] == QUOTE)
    else if s[0] == QUOTE then Scan(s[1..], false)
    else if s[0] != BACKSLASH then Scan(s[1..], true)
    else if |s| < 2 then true
    else if s[1] != LETTER_U then Scan(s[2..], true)
    else if |s| < 6 then true
    else
      var v := Hex4(s[2..6]);
      if v.None? then Scan(s[2..], true)
      else if High(v.value) then LowNext(s[6..]) && Scan(s[12..], true)
      else !Low(v.value) && Scan(s[6..], true)
  }

  /** The text goes on with the escape of a low surrogate. */
  predicate LowNext(s: Bytes)
    ensures LowNext(s) ==> |s| >= 6
  {
    |s| >= 6 && s[0] == BACKSLASH && s[1] == LETTER_U && Hex4(s[2..6]).Some? && Low(Hex4(s[2..6]).value)
  }

  lemma SuffixSlice(s: Bytes, i: nat, a: nat, b: nat)
    requires a <= b && i + b <= |s|
    ensures s[i..][a..b] == s[i + a..i + b] && s[i..][b..] == s[i + b..]
  {
  }

  method CheckJSONEscapes(raw: Bytes) returns (ok: bool)
    ensures ok <==> Scan(raw, false)
  {
    var inside := false;
    var i := 0;
    while i < |raw|
      invariant 0 <= i <= |raw|
      invariant Scan(raw, false) == Scan(raw[i..], inside)
      decreases |raw| - i
    {
      var c := raw[i];
      assert raw[i..][1..] == raw[i + 1..];
      if !inside {
        inside := c == QUOTE;
      } else if c == QUOTE {
        inside := false;
      } else if c == BACKSLASH {
        i := i + 1;
        if i >= |raw| {
          return true;
        }
        assert raw[i - 1..][2..] == raw[i + 1..];
        if raw[i] == LETTER_U {
          if i + 4 >= |raw| {
            return true;
          }
          var v := Hex4(raw[i + 1..i + 5]);
          SuffixSlice(raw, i - 1, 2, 6);
          if v.Some? {
            i := i + 4;
            if High(v.value) {
              if i + 6 < |raw| && raw[i + 1] == BACKSLASH && raw[i + 2] == LETTER_U {
                var lo := Hex4(raw[i + 3..i + 7]);
                SuffixSlice(raw, i + 1, 2, 6);
                if lo.Some? && Low(lo.value) {
                  assert raw[i - 5..][12..] == raw[i + 7..];
                  i := i + 6;
                } else {
                  return false;
                }
              } else {
                return false;
              }
            } else if Low(v.value) {
              return false;
            }
          }
        }
      }
      i := i + 1;
    }
    return true;
  }

  /** What a JSON string is made of (section 7 of RFC 8259): characters, short escapes and Unicode escapes. */
  datatype Item = Plain(b: Byte) | Short(b: Byte) | Unicode(hex: Bytes)

  predicate ItemOk(item: Item) {
    match item
    case Plain(b) => b != QUOTE && b != BACKSLASH
    case Short(b) => b != LETTER_U
    case Unicode(hex) => |hex| == 4 && forall i | 0 <= i < 4 :: IsHexDigit(hex[i])
  }

  /** A JSON text: strings, and the bytes between them, which hold no quotation mark. */
  datatype Chunk = Gap(b: Byte) | Str(items: seq<Item>)

  predicate ChunkOk(c: Chunk) {
    match c
    case Gap(b) => b != QUOTE
    case Str(items) => forall i | 0 <= i < |items| :: ItemOk(items[i])
  }

  function ItemBytes(item: Item): Bytes {
    match item
    case Plain(b) => [b]
    case Short(b) => [BACKSLASH, b]
    case Unicode(hex) => [BACKSLASH, LETTER_U] + hex
  }

  function ItemsBytes(items: seq<Item>): Bytes {
    if items == [] then [] else ItemBytes(items[0]) + ItemsBytes(items[1..])
  }

  function TextBytes(chunks: seq<Chunk>): Bytes {
    if chunks == [] then []
    else
      (match chunks[0]
       case Gap(b) => [b]
       case Str(items) => [QUOTE] + ItemsBytes(items) + [QUOTE])
      + TextBytes(chunks[1..])
  }

  predicate IsHigh(item: Item) { item.Unicode? && |item.hex| == 4 && Hex4(item.hex).Some? && High(Hex4(item.hex).value) }
  predicate IsLow(item: Item) { item.Unicode? && |item.hex| == 4 && Hex4(item.hex).Some? && Low(Hex4(item.hex).value) }

  /** Each surrogate escape belongs to a high-low pair (section 8.2 of RFC 8259). */
  ghost predicate Paired(items: seq<Item>) {
    && (forall i | 0 <= i < |items| && IsHigh(items[i]) :: i + 1 < |items| && IsLow(items[i + 1]))
    && (forall i | 0 <= i < |items| && IsLow(items[i]) :: i > 0 && IsHigh(items[i - 1]))
  }

  lemma PairedSkip(items: seq<Item>)
    requires items != [] && !IsHigh(items[0]) && !IsLow(items[0])
    ensures Paired(items) <==> Paired(items[1..])
  {
    var rest := items[1..];
    assert forall i | 0 <= i < |rest| :: rest[i] == items[i + 1];
    if Paired(rest) {
      forall i | 0 <= i < |items| && IsHigh(items[i]) ensures i + 1 < |items| && IsLow(items[i + 1]) {
        assert IsHigh(rest[i - 1]);
      }
      forall i | 0 <= i < |items| && IsLow(items[i]) ensures i > 0 && IsHigh(items[i - 1]) {
        assert IsLow(rest[i - 1]);
      }
    }
    if Paired(items) {
      forall i | 0 <= i < |rest| && IsHigh(rest[i]) ensures i + 1 < |rest| && IsLow(rest[i + 1]) {
        assert IsHigh(items[i + 1]);
      }
      forall i | 0 <= i < |rest| && IsLow(rest[i]) ensures i > 0 && IsHigh(rest[i - 1]) {
        assert IsLow(items[i + 1]);
      }
    }
  }

  lemma PairedSkipTwo(items: seq<Item>)
    requires |items| >= 2 && IsHigh(items[0]) && IsLow(items[1])
    ensures Paired(items) <==> Paired(items[2..])
  {
    var rest := items[2..];
    assert forall i | 0 <= i < |rest| :: rest[i] == items[i + 2];
    if Paired(rest) {
      forall i | 0 <= i < |items| && IsHigh(items[i]) ensures i + 1 < |items| && IsLow(items[i + 1]) {
        assert i > 1 ==> IsHigh(rest[i - 2]);
      }
      forall i | 0 <= i < |items| && IsLow(items[i]) ensures i > 0 && IsHigh(items[i - 1]) {
        assert i > 1 ==> IsLow(rest[i - 2]);
      }
    }
    if Paired(items) {
      forall i | 0 <= i < |rest| && IsHigh(rest[i]) ensures i + 1 < |rest| && IsLow(rest[i + 1]) {
        assert IsHigh(items[i + 2]);
      }
      forall i | 0 <= i < |rest| && IsLow(rest[i]) ensures i > 0 && IsHigh(rest[i - 1]) {
        assert IsLow(items[i + 2]);
      }
    }
  }

  ghost predicate ItemsOk(items: seq<Item>) { forall i | 0 <= i < |items| :: ItemOk(items[i]) }

  /** A low escape follows in the bytes exactly when the next item is one. */
  lemma LowNextIsNextItem(items: seq<Item>, rest: Bytes)
    requires ItemsOk(items)
    ensures LowNext(ItemsBytes(items) + [QUOTE] + rest) <==> items != [] && IsLow(items[0])
  {
    var s := ItemsBytes(items) + [QUOTE] + rest;
    if items != [] {
      assert s == ItemBytes(items[0]) + (ItemsBytes(items[1..]) + [QUOTE] + rest);
      if items[0].Unicode? {
        assert s[2..6] == items[0].hex;
      }
    }
  }

  /** How the scanner takes one item of a string that is not a surrogate. */
  lemma PlainScans(item: Item, tail: Bytes)
    requires ItemOk(item) && !IsHigh(item) && !IsLow(item)
    ensures Scan(ItemBytes(item) + tail, true) <==> Scan(tail, true)
  {
    var s := ItemBytes(item) + tail;
    match item
    case Plain(b) => assert s[1..] == tail;
    case Short(b) => assert s[2..] == tail;
    case Unicode(hex) => assert s[2..6] == hex && s[6..] == tail;
  }

  lemma SurrogateScans(item: Item, tail: Bytes)
    requires ItemOk(item)
    ensures IsLow(item) ==> !Scan(ItemBytes(item) + tail, true)
    ensures IsHigh(item) ==> (Scan(ItemBytes(item) + tail, true) <==> LowNext(tail) && Scan(tail[6..], true))
  {
    if item.Unicode? {
      var s := ItemBytes(item) + tail;
      assert s[2..6] == item.hex && s[6..] == tail;
      if |tail| >= 6 {
        assert s[12..] == tail[6..];
      }
    }
  }

  /** A high escape is taken together with the item after it. */
  lemma HighScans(items: seq<Item>, rest: Bytes)
    requires ItemsOk(items) && items != [] && IsHigh(items[0])
    ensures Scan(ItemsBytes(items) + [QUOTE] + rest, true) <==>
            |items| > 1 && IsLow(items[1]) && Scan(ItemsBytes(items[2..]) + [QUOTE] + rest, true)
  {
    var tail := ItemsBytes(items[1..]) + [QUOTE] + rest;
    assert ItemsBytes(items) + [QUOTE] + rest == ItemBytes(items[0]) + tail;
    SurrogateScans(items[0], tail);
    LowNextIsNextItem(items[1..], rest);
    if |items| > 1 && IsLow(items[1]) {
      FirstItemDropped(items[1..], rest);
      assert items[1..][1..] == items[2..];
    }
  }

  lemma FirstItemDropped(items: seq<Item>, rest: Bytes)
    requires items != [] && ItemOk(items[0]) && items[0].Unicode?
    ensures |ItemsBytes(items) + [QUOTE] + rest| >= 6
    ensures (ItemsBytes(items) + [QUOTE] + rest)[6..] == ItemsBytes(items[1..]) + [QUOTE] + rest
  {
    assert |ItemBytes(items[0])| == 6;
    assert ItemsBytes(items) + [QUOTE] + rest == ItemBytes(items[0]) + (ItemsBytes(items[1..]) + [QUOTE] + rest);
  }

  lemma OtherScans(items: seq<Item>, rest: Bytes)
    requires ItemsOk(items) && items != [] && !IsHigh(items[0])
    ensures Scan(ItemsBytes(items) + [QUOTE] + rest, true) <==>
            !IsLow(items[0]) && Scan(ItemsBytes(items[1..]) + [QUOTE] + rest, true)
  {
    var tail := ItemsBytes(items[1..]) + [QUOTE] + rest;
    assert ItemsBytes(items) + [QUOTE] + rest == ItemBytes(items[0]) + tail;
    SurrogateScans(items[0], tail);
    if !IsLow(items[0]) {
      PlainScans(items[0], tail);
    }
  }

  lemma {:induction false} StringScans(items: seq<Item>, rest: Bytes)
    requires ItemsOk(items)
    ensures Scan(ItemsBytes(items) + [QUOTE] + rest, true) <==> Paired(items) && Scan(rest, false)
    decreases |items|
  {
    if items == [] {
      assert (ItemsBytes(items) + [QUOTE] + rest)[1..] == rest;
    } else if IsHigh(items[0]) {
      HighScans(items, rest);
      if |items| > 1 && IsLow(items[1]) {
        StringScans(items[2..], rest);
        PairedSkipTwo(items);
      }
    } else {
      OtherScans(items, rest);
      if !IsLow(items[0]) {
        StringScans(items[1..], rest);
        PairedSkip(items);
      }
    }
  }

  /** checkJSONEscapes accepts a JSON text exactly when, in each of its strings, every surrogate escape is in a pair. */
  lemma {:induction false} SurrogatesChecked(chunks: seq<Chunk>)
    requires forall i | 0 <= i < |chunks| :: ChunkOk(chunks[i])
    ensures Scan(TextBytes(chunks), false) <==>
            forall i | 0 <= i < |chunks| && chunks[i].Str? :: Paired(chunks[i].items)
  {
    if chunks != [] {
      var rest := TextBytes(chunks[1..]);
      var s := TextBytes(chunks);
      SurrogatesChecked(chunks[1..]);
      assert forall i | 0 <= i < |chunks[1..]| :: chunks[1..][i] == chunks[i + 1];
      match chunks[0]
      case Gap(b) =>
        assert s[1..] == rest;
      case Str(items) =>
        assert s[1..] == ItemsBytes(items) + [QUOTE] + rest;
        StringScans(items, rest);
    }
  }
}

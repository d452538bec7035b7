/**
 The canonical JSON text of sections 3.2.2 and 3.2.3 of RFC 8785, for float-free values;
 a reader of JSON text after RFC 8259; and the proof that the reader gets back every
 value that was printed.

 The closing delimiter of a string, array or object is printed by the function that
 prints its tail, so that each function's text tells where it ends.
 */
module Jcs {
  import opened Lru
  import Utf16

  /** The integers a JSON number can hold without becoming a float: signed or unsigned 64 bits. */
  type Integer = n: int | -0x8000_0000_0000_0000 <= n < 0x1_0000_0000_0000_0000

  datatype Json =
    | Null
    | Bool(flag: bool)
    | Int(n: Integer)
    | Str(text: string)
    | Arr(items: seq<Json>)
    | Obj(fields: map<string, Json>)

  /** Dropping the character before two joined texts, with a third behind them. */
  lemma Tail(c: char, u: string, v: string, x: string)
    ensures ([c] + (u + v))[1..] + x == u + (v + x)
  {
    assert ([c] + (u + v))[1..] == u + v;
    assert (u + v) + x == u + (v + x);
  }

  // ---------- Numbers ----------

  function Digit(d: int): (c: char)
    requires 0 <= d < 10
  {
    ('0' as int + d) as char
  }

  predicate IsDigit(c: char) {
    '0' <= c <= '9'
  }

  function Decimal(n: nat): (r: string)
    ensures r != [] && forall i :: 0 <= i < |r| ==> IsDigit(r[i])
  {
    if n < 10 then [Digit(n)] else Decimal(n / 10) + [Digit(n % 10)]
  }

  function Number(n: int): (r: string) {
    if n < 0 then "-" + Decimal(-n) else Decimal(n)
  }

  // ---------- Strings ----------

  function Hex(d: int): (c: char)
    requires 0 <= d < 16
  {
    if d < 10 then ('0' as int + d) as char else ('a' as int + d - 10) as char
  }

  /** Section 3.2.2.2: two-character escapes, \u00xx for the other controls, everything else verbatim. */
  function Escape(c: char): (r: string) {
    var v := c as int;
    if c == '\"' then "\\\""
    else if c == '\\' then "\\\\"
    else if v == 8 then "\\b"
    else if v == 9 then "\\t"
    else if v == 10 then "\\n"
    else if v == 12 then "\\f"
    else if v == 13 then "\\r"
    else if v < 32 then "\\u00" + [Hex(v / 16), Hex(v % 16)]
    else [c]
  }

  /** The rest of a quoted string, closing quote included. */
  function Quoted(s: string): (r: string) {
    if s == [] then "\"" else Escape(s[0]) + Quoted(s[1..])
  }

  // ---------- Values ----------

  ghost function Print(j: Json): (r: string)
    decreases j
  {
    match j
    case Null => "null"
    case Bool(b) => if b then "true" else "false"
    case Int(n) => Number(n)
    case Str(s) => "\"" + Quoted(s)
    case Arr(items) => if items == [] then "[]" else "[" + (Print(items[0]) + Items(j, 1))
    case Obj(m) =>
      var keys := Utf16.Sorted(m.Keys);
      if keys == [] then "{}" else "{" + (Member(j, keys[0]) + Members(j, keys[1..]))
  }

  /** The items from index `i` on, each after its comma, and the closing bracket. */
  ghost function Items(j: Json, i: nat): (r: string)
    requires j.Arr? && i <= |j.items|
    decreases j, |j.items| - i
  {
    if i == |j.items| then "]" else "," + (Print(j.items[i]) + Items(j, i + 1))
  }

  ghost function Member(j: Json, k: string): (r: string)
    requires j.Obj? && k in j.fields
    decreases j, 0
  {
    "\"" + (Quoted(k) + (":" + Print(j.fields[k])))
  }

  ghost function Members(j: Json, keys: seq<string>): (r: string)
    requires j.Obj? && forall k :: k in keys ==> k in j.fields
    decreases j, |keys| + 1
  {
    if keys == [] then "}" else "," + (Member(j, keys[0]) + Members(j, keys[1..]))
  }

  // ---------- A reader of JSON text ----------

  datatype Parsed<+T> = Fail | Got(value: T, rest: string)

  /** How many digits a text starts with. */
  function DigitRun(s: string): (n: nat)
    ensures n <= |s| && forall i :: 0 <= i < n ==> IsDigit(s[i])
  {
    if s == [] || !IsDigit(s[0]) then 0 else 1 + DigitRun(s[1..])
  }

  function DigitValue(c: char): (d: nat)
    requires IsDigit(c)
  {
    c as int - '0' as int
  }

  /** Positional notation, most significant digit first, after a value already read. */
  function Value(digits: string, sofar: nat): (n: nat)
    requires forall i :: 0 <= i < |digits| ==> IsDigit(digits[i])
  {
    if digits == [] then sofar else Value(digits[1..], 10 * sofar + DigitValue(digits[0]))
  }

  /** An unsigned integer: at least one digit, and no superfluous leading zero. */
  function ReadNat(s: string): (r: Parsed<nat>)
    ensures r.Got? ==> |r.rest| < |s|
  {
    var n := DigitRun(s);
    if n == 0 || (n > 1 && s[0] == '0') then Fail else Got(Value(s[..n], 0), s[n..])
  }

  function Negated(r: Parsed<int>): (q: Parsed<int>) {
    match r
    case Fail => Fail
    case Got(n, rest) => Got(-n, rest)
  }

  function ReadNumber(s: string): (r: Parsed<int>)
    ensures r.Got? ==> |r.rest| < |s|
  {
    if s != [] && s[0] == '-' then Negated(ReadNat(s[1..])) else ReadNat(s)
  }

  predicate IsHex(c: char) {
    IsDigit(c) || 'a' <= c <= 'f' || 'A' <= c <= 'F'
  }

  function HexValue(c: char): (d: nat)
    requires IsHex(c)
  {
    if IsDigit(c) then c as int - '0' as int
    else if c <= 'F' then c as int - 'A' as int + 10
    else c as int - 'a' as int + 10
  }

  /** What a backslash and one more character stand for. */
  function Unescape(c: char): (r: Option<char>) {
    if c == '\"' || c == '\\' || c == '/' then Some(c)
    else if c == 'b' then Some(8 as char)
    else if c == 't' then Some(9 as char)
    else if c == 'n' then Some(10 as char)
    else if c == 'f' then Some(12 as char)
    else if c == 'r' then Some(13 as char)
    else None
  }

  /** One character of a string, escaped or not; a control character must be escaped. */
  function ReadChar(s: string): (r: Parsed<char>)
    ensures r.Got? ==> |r.rest| < |s|
  {
    if s == [] || s[0] as int < 32 || s[0] == '\"' then Fail
    else if s[0] != '\\' then Got(s[0], s[1..])
    else if |s| == 1 then Fail
    else if s[1] != 'u' then
      match Unescape(s[1])
      case None => Fail
      case Some(c) => Got(c, s[2..])
    else if |s| < 6 || !IsHex(s[2]) || !IsHex(s[3]) || !IsHex(s[4]) || !IsHex(s[5]) then Fail
    else
      var v := ((HexValue(s[2]) * 16 + HexValue(s[3])) * 16 + HexValue(s[4])) * 16 + HexValue(s[5]);
      if 0xD800 <= v < 0xE000 then Fail else Got(v as char, s[6..])
  }

  /** The characters up to the closing quote. */
  function ReadString(s: string): (r: Parsed<string>)
    ensures r.Got? ==> |r.rest| < |s|
    decreases |s|
  {
    if s != [] && s[0] == '\"' then Got("", s[1..])
    else
      match ReadChar(s)
      case Fail => Fail
      case Got(c, rest) =>
        match ReadString(rest)
        case Fail => Fail
        case Got(t, rest') => Got([c] + t, rest')
  }

  function ReadWord(s: string, word: string, j: Json): (r: Parsed<Json>)
    requires word != []
    ensures r.Got? ==> |r.rest| < |s|
  {
    if |word| <= |s| && s[..|word|] == word then Got(j, s[|word|..]) else Fail
  }

  function AsInt(r: Parsed<int>): (q: Parsed<Json>) {
    match r
    case Fail => Fail
    case Got(n, rest) => if -0x8000_0000_0000_0000 <= n < 0x1_0000_0000_0000_0000 then Got(Int(n), rest) else Fail
  }

  function AsArr(r: Parsed<seq<Json>>): (q: Parsed<Json>) {
    match r
    case Fail => Fail
    case Got(items, rest) => Got(Arr(items), rest)
  }

  /** The object with these members; of two with the same name the later one counts. */
  function FromMembers(members: seq<(string, Json)>): (m: map<string, Json>) {
    if members == [] then map[] else map[members[0].0 := members[0].1] + FromMembers(members[1..])
  }

  function AsObj(r: Parsed<seq<(string, Json)>>): (q: Parsed<Json>) {
    match r
    case Fail => Fail
    case Got(members, rest) => Got(Obj(FromMembers(members)), rest)
  }

  /** A value; its first character tells which kind. */
  function ReadValue(s: string): (r: Parsed<Json>)
    ensures r.Got? ==> |r.rest| < |s|
    ensures s != [] && (s[0] == '-' || IsDigit(s[0])) ==> r == AsInt(ReadNumber(s))
    ensures |s| > 1 && s[0] == '[' && s[1] != ']' ==> r == AsArr(ReadItems(s[1..]))
    ensures |s| > 1 && s[0] == '{' && s[1] != '}' ==> r == AsObj(ReadMembers(s[1..]))
    decreases |s|, 0
  {
    if s == [] then Fail
    else if s[0] == 'n' then ReadWord(s, "null", Null)
    else if s[0] == 't' then ReadWord(s, "true", Bool(true))
    else if s[0] == 'f' then ReadWord(s, "false", Bool(false))
    else if s[0] == '\"' then
      match ReadString(s[1..])
      case Fail => Fail
      case Got(t, rest) => Got(Str(t), rest)
    else if s[0] == '[' then
      if |s| > 1 && s[1] == ']' then Got(Arr([]), s[2..]) else AsArr(ReadItems(s[1..]))
    else if s[0] == '{' then
      if |s| > 1 && s[1] == '}' then Got(Obj(map[]), s[2..]) else AsObj(ReadMembers(s[1..]))
    else AsInt(ReadNumber(s))
  }

  /** Values separated by commas, up to the closing bracket. */
  function ReadItems(s: string): (r: Parsed<seq<Json>>)
    ensures r.Got? ==> |r.rest| < |s|
    decreases |s|, 1
  {
    match ReadValue(s)
    case Fail => Fail
    case Got(j, rest) =>
      if rest == [] then Fail
      else if rest[0] == ']' then Got([j], rest[1..])
      else if rest[0] != ',' then Fail
      else
        match ReadItems(rest[1..])
        case Fail => Fail
        case Got(items, rest') => Got([j] + items, rest')
  }

  /** A name, a colon and a value. */
  function ReadMember(s: string): (r: Parsed<(string, Json)>)
    ensures r.Got? ==> |r.rest| < |s|
    decreases |s|, 1
  {
    if s == [] || s[0] != '\"' then Fail
    else
      match ReadString(s[1..])
      case Fail => Fail
      case Got(k, rest) =>
        if rest == [] || rest[0] != ':' then Fail
        else
          match ReadValue(rest[1..])
          case Fail => Fail
          case Got(j, rest') => Got((k, j), rest')
  }

  /** Members separated by commas, in the order they are found, up to the closing brace. */
  function ReadMembers(s: string): (r: Parsed<seq<(string, Json)>>)
    ensures r.Got? ==> |r.rest| < |s|
    decreases |s|, 2
  {
    match ReadMember(s)
    case Fail => Fail
    case Got(m, rest) =>
      if rest == [] then Fail
      else if rest[0] == '}' then Got([m], rest[1..])
      else if rest[0] != ',' then Fail
      else
        match ReadMembers(rest[1..])
        case Fail => Fail
        case Got(members, rest') => Got([m] + members, rest')
  }

  // ---------- Numbers are read back ----------

  predicate NoDigitFirst(x: string) {
    x == [] || !IsDigit(x[0])
  }

  lemma {:induction false} DigitRunIs(s: string, x: string)
    requires NoDigitFirst(x) && forall i :: 0 <= i < |s| ==> IsDigit(s[i])
    ensures DigitRun(s + x) == |s|
  {
    if s == [] {
      assert s + x == x;
    } else {
      assert (s + x)[0] == s[0] && (s + x)[1..] == s[1..] + x;
      DigitRunIs(s[1..], x);
    }
  }

  lemma {:induction false} ValueSnoc(s: string, d: char, sofar: nat)
    requires IsDigit(d) && forall i :: 0 <= i < |s| ==> IsDigit(s[i])
    ensures Value(s + [d], sofar) == 10 * Value(s, sofar) + DigitValue(d)
  {
    if s == [] {
      assert s + [d] == [d] && [d][1..] == [];
    } else {
      assert (s + [d])[0] == s[0] && (s + [d])[1..] == s[1..] + [d];
      ValueSnoc(s[1..], d, 10 * sofar + DigitValue(s[0]));
    }
  }

  lemma {:induction false} DecimalValue(n: nat)
    ensures Value(Decimal(n), 0) == n
    ensures |Decimal(n)| > 1 ==> Decimal(n)[0] != '0'
  {
    if n < 10 {
      assert [Digit(n)][1..] == [];
    } else {
      DecimalValue(n / 10);
      ValueSnoc(Decimal(n / 10), Digit(n % 10), 0);
      assert Decimal(n)[0] == Decimal(n / 10)[0];
    }
  }

  lemma NatIsReadBack(n: nat, x: string)
    requires NoDigitFirst(x)
    ensures ReadNat(Decimal(n) + x) == Got(n, x)
  {
    var s := Decimal(n);
    DigitRunIs(s, x);
    DecimalValue(n);
    assert (s + x)[..|s|] == s && (s + x)[|s|..] == x && (s + x)[0] == s[0];
  }

  lemma NumberIsReadBack(n: int, x: string)
    requires NoDigitFirst(x)
    ensures ReadNumber(Number(n) + x) == Got(n, x)
    ensures Number(n) != [] && (Number(n)[0] == '-' || IsDigit(Number(n)[0]))
  {
    if n < 0 {
      assert Number(n) + x == "-" + (Decimal(-n) + x);
      assert ("-" + (Decimal(-n) + x))[1..] == Decimal(-n) + x;
      NatIsReadBack(-n, x);
    } else {
      NatIsReadBack(n, x);
      assert (Decimal(n) + x)[0] == Decimal(n)[0];
    }
  }

  // ---------- Strings are read back ----------

  lemma ShortEscapeIsReadBack(c: char, x: string)
    requires |Escape(c)| < 6
    ensures ReadChar(Escape(c) + x) == Got(c, x)
  {
    var s := Escape(c) + x;
    if |Escape(c)| == 1 {
      assert s[0] == c && s[1..] == x;
    } else {
      assert s[0] == Escape(c)[0] && s[1] == Escape(c)[1] && s[2..] == x;
    }
  }

  lemma HexIsReadBack(d: int)
    requires 0 <= d < 16
    ensures IsHex(Hex(d)) && HexValue(Hex(d)) == d
  {
  }

  lemma LongEscapeIsReadBack(c: char, x: string)
    requires |Escape(c)| == 6
    ensures ReadChar(Escape(c) + x) == Got(c, x)
  {
    var s, v := Escape(c) + x, c as int;
    assert Escape(c) == ['\\', 'u', '0', '0', Hex(v / 16), Hex(v % 16)];
    HexIsReadBack(v / 16);
    HexIsReadBack(v % 16);
    assert s[0] == '\\' && s[1] == 'u' && s[2] == '0' && s[3] == '0';
    assert s[4] == Hex(v / 16) && s[5] == Hex(v % 16) && s[6..] == x;
    assert v / 16 * 16 + v % 16 == v;
  }

  lemma EscapeIsReadBack(c: char, x: string)
    ensures ReadChar(Escape(c) + x) == Got(c, x) && (Escape(c) + x)[0] != '\"'
  {
    if |Escape(c)| < 6 {
      ShortEscapeIsReadBack(c, x);
    } else {
      LongEscapeIsReadBack(c, x);
    }
    assert (Escape(c) + x)[0] == Escape(c)[0];
  }

  /** Section 3.2.2.2 also demands the shortest form: only quotes, backslashes and controls are escaped. */
  lemma EscapeIsMinimal(c: char)
    ensures |Escape(c)| == 1 <==> c != '\"' && c != '\\' && 32 <= c as int
    ensures |Escape(c)| == 2 <==> exists d :: Unescape(d) == Some(c) && Escape(c) == ['\\', d] && d != '/'
    ensures |Escape(c)| == 6 ==> forall i :: 2 <= i < 6 ==> IsDigit(Escape(c)[i]) || 'a' <= Escape(c)[i] <= 'f'
    ensures |Escape(c)| == 6 ==> forall d :: Unescape(d) != Some(c)
    ensures |Escape(c)| == 1 || |Escape(c)| == 2 || |Escape(c)| == 6
  {
    if |Escape(c)| == 2 {
      var d := Escape(c)[1];
      assert Escape(c) == ['\\', d] && Unescape(d) == Some(c);
    }
  }

  lemma {:induction false} StringIsReadBack(s: string, x: string)
    ensures ReadString(Quoted(s) + x) == Got(s, x)
  {
    if s == [] {
      assert ("\"" + x)[1..] == x;
    } else {
      var rest := Quoted(s[1..]) + x;
      assert Quoted(s) + x == Escape(s[0]) + rest;
      EscapeIsReadBack(s[0], rest);
      StringIsReadBack(s[1..], x);
      assert s == [s[0]] + s[1..];
    }
  }

  // ---------- Values are read back ----------

  /** A value inside a text is followed by a comma or a closing bracket. */
  predicate Delimited(x: string) {
    x == [] || x[0] == ',' || x[0] == ']' || x[0] == '}'
  }

  /** The characters a value can start with. */
  predicate Opens(c: char) {
    c == 'n' || c == 't' || c == 'f' || c == '\"' || c == '[' || c == '{' || c == '-' || IsDigit(c)
  }

  lemma PrintOpens(j: Json)
    ensures Print(j) != [] && Opens(Print(j)[0])
  {
    match j
    case Null =>
    case Bool(_) =>
    case Int(n) => NumberIsReadBack(n, "");
    case Str(s) => assert Print(j)[0] == '\"';
    case Arr(_) => assert Print(j)[0] == '[';
    case Obj(_) => assert Print(j)[0] == '{';
  }

  /**
   The round trip: reading the canonical text of a value, with any delimited text behind
   it, gives back that value and that text.
   */
  lemma {:induction false} ReadsBack(j: Json, x: string)
    requires Delimited(x)
    ensures ReadValue(Print(j) + x) == Got(j, x)
    decreases j, 3
  {
    match j
    case Null => WordReadsBack("null", j, x);
    case Bool(b) => WordReadsBack(if b then "true" else "false", j, x);
    case Int(n) => IntReadsBack(n, x);
    case Str(s) => StrReadsBack(s, x);
    case Arr(_) => ArrReadsBack(j, x);
    case Obj(_) => ObjReadsBack(j, x);
  }

  lemma WordReadsBack(word: string, j: Json, x: string)
    requires (word == "null" && j == Null) || (word == "true" && j == Bool(true)) || (word == "false" && j == Bool(false))
    ensures ReadValue(word + x) == Got(j, x)
  {
    var s := word + x;
    assert s[0] == word[0] && s[..|word|] == word && s[|word|..] == x;
  }

  lemma IntReadsBack(n: Integer, x: string)
    requires Delimited(x)
    ensures ReadValue(Number(n) + x) == Got(Int(n), x)
  {
    NumberIsReadBack(n, x);
    assert (Number(n) + x)[0] == Number(n)[0];
  }

  lemma StrReadsBack(t: string, x: string)
    ensures ReadValue("\"" + Quoted(t) + x) == Got(Str(t), x)
  {
    var s := "\"" + Quoted(t) + x;
    assert s[0] == '\"' && s[1..] == Quoted(t) + x;
    StringIsReadBack(t, x);
  }

  lemma EmptyReads(x: string)
    ensures ReadValue("[]" + x) == Got(Arr([]), x) && ReadValue("{}" + x) == Got(Obj(map[]), x)
  {
    var s, t := "[]" + x, "{}" + x;
    assert s[0] == '[' && s[1] == ']' && s[2..] == x;
    assert t[0] == '{' && t[1] == '}' && t[2..] == x;
  }

  /** What follows the opening bracket of an array that has items. */
  lemma ListText(j: Json, x: string)
    requires j.Arr? && j.items != []
    ensures var s := Print(j) + x;
            && |s| > 1 && s[0] == '[' && s[1] != ']'
            && s[1..] == Print(j.items[0]) + (Items(j, 1) + x)
  {
    var first, rest := Print(j.items[0]), Items(j, 1);
    assert Print(j) == ['['] + (first + rest);
    Tail('[', first, rest, x);
    PrintOpens(j.items[0]);
    assert (Print(j) + x)[1] == first[0];
  }

  lemma {:induction false} ArrReadsBack(j: Json, x: string)
    requires j.Arr?
    ensures ReadValue(Print(j) + x) == Got(j, x)
    decreases j, 2
  {
    if j.items == [] {
      EmptyReads(x);
    } else {
      ListText(j, x);
      assert j.items[0..] == j.items;
      ItemsReadBack(j, 0, x, j.items);
    }
  }

  lemma ItemsStep(j: Json, i: nat, x: string)
    requires j.Arr? && i < |j.items|
    ensures Items(j, i) + x == "," + (Print(j.items[i]) + (Items(j, i + 1) + x))
  {
    var first, rest := Print(j.items[i]), Items(j, i + 1);
    assert (first + rest) + x == first + (rest + x);
  }

  lemma LastItemReads(s: string, j: Json, x: string)
    requires ReadValue(s) == Got(j, "]" + x)
    ensures ReadItems(s) == Got([j], x)
  {
    assert ("]" + x)[0] == ']' && ("]" + x)[1..] == x;
  }

  lemma NextItemReads(s: string, j: Json, t: string, items: seq<Json>, x: string)
    requires ReadValue(s) == Got(j, "," + t) && ReadItems(t) == Got(items, x)
    ensures ReadItems(s) == Got([j] + items, x)
  {
    assert ("," + t)[0] == ',' && ("," + t)[1..] == t;
  }

  lemma {:induction false} ItemsReadBack(j: Json, i: nat, x: string, items: seq<Json>)
    requires j.Arr? && i < |j.items| && items == j.items[i..]
    ensures ReadItems(Print(items[0]) + (Items(j, i + 1) + x)) == Got(items, x)
    decreases j, 1, |j.items| - i
  {
    var first, rest := Print(items[0]), Items(j, i + 1) + x;
    assert items[0] == j.items[i];
    ReadsBack(items[0], rest);
    if i + 1 == |j.items| {
      LastItemReads(first + rest, items[0], x);
      assert items == [items[0]];
    } else {
      var more := items[1..];
      ItemsStep(j, i + 1, x);
      ItemsReadBack(j, i + 1, x, more);
      NextItemReads(first + rest, items[0], Print(more[0]) + (Items(j, i + 2) + x), more, x);
      assert items == [items[0]] + more;
    }
  }

  lemma {:induction false} ObjReadsBack(j: Json, x: string)
    requires j.Obj?
    ensures ReadValue(Print(j) + x) == Got(j, x)
    decreases j, 2
  {
    var keys := Utf16.Sorted(j.fields.Keys);
    ListedAll(j);
    if keys == [] {
      EmptyReads(x);
    } else {
      TableText(j, x);
      MembersReadBack(j, keys, x);
    }
  }

  /** What follows the opening brace of an object that has members. */
  lemma TableText(j: Json, x: string)
    requires j.Obj? && Utf16.Sorted(j.fields.Keys) != []
    ensures var s, keys := Print(j) + x, Utf16.Sorted(j.fields.Keys);
            && |s| > 1 && s[0] == '{' && s[1] == '\"'
            && s[1..] == Member(j, keys[0]) + (Members(j, keys[1..]) + x)
  {
    var keys := Utf16.Sorted(j.fields.Keys);
    var first, rest := Member(j, keys[0]), Members(j, keys[1..]);
    assert Print(j) == ['{'] + (first + rest);
    Tail('{', first, rest, x);
    assert (Print(j) + x)[1] == first[0];
  }

  /** The members named by `keys`, in that order. */
  ghost function Listed(j: Json, keys: seq<string>): (m: seq<(string, Json)>)
    requires j.Obj? && forall k :: k in keys ==> k in j.fields
  {
    if keys == [] then [] else [(keys[0], j.fields[keys[0]])] + Listed(j, keys[1..])
  }

  lemma {:induction false} ListedAt(j: Json, keys: seq<string>)
    requires j.Obj? && forall k :: k in keys ==> k in j.fields
    ensures |Listed(j, keys)| == |keys|
    ensures forall i :: 0 <= i < |keys| ==> Listed(j, keys)[i] == (keys[i], j.fields[keys[i]])
  {
    if keys == [] {
    } else {
      ListedAt(j, keys[1..]);
    }
  }

  lemma {:induction false} ListedFields(j: Json, keys: seq<string>)
    requires j.Obj? && forall k :: k in keys ==> k in j.fields
    ensures FromMembers(Listed(j, keys)) == map k | k in keys :: j.fields[k]
  {
    if keys == [] {
    } else {
      var k, rest := keys[0], Listed(j, keys[1..]);
      ListedFields(j, keys[1..]);
      assert ([(k, j.fields[k])] + rest)[1..] == rest;
      assert keys == [k] + keys[1..];
    }
  }

  lemma ListedAll(j: Json)
    requires j.Obj?
    ensures FromMembers(Listed(j, Utf16.Sorted(j.fields.Keys))) == j.fields
    ensures Utf16.Sorted(j.fields.Keys) == [] ==> j.fields == map[]
  {
    ListedFields(j, Utf16.Sorted(j.fields.Keys));
    assert forall k :: k in j.fields <==> k in Utf16.Sorted(j.fields.Keys);
  }

  lemma MemberReads(s: string, u: string, k: string, v: string, j: Json, x: string)
    requires s == "\"" + u && ReadString(u) == Got(k, ":" + v) && ReadValue(v) == Got(j, x)
    ensures ReadMember(s) == Got((k, j), x)
  {
    assert s[0] == '\"' && s[1..] == u;
    assert (":" + v)[0] == ':' && (":" + v)[1..] == v;
  }

  lemma MemberText(j: Json, k: string, x: string)
    requires j.Obj? && k in j.fields
    ensures Member(j, k) + x == "\"" + (Quoted(k) + (":" + (Print(j.fields[k]) + x)))
  {
    var q, v := Quoted(k), Print(j.fields[k]);
    assert (q + (":" + v)) + x == q + (":" + (v + x));
  }

  lemma {:induction false} MemberReadsBack(j: Json, k: string, x: string)
    requires j.Obj? && k in j.fields && Delimited(x)
    ensures ReadMember(Member(j, k) + x) == Got((k, j.fields[k]), x)
    decreases j, 0
  {
    var v := Print(j.fields[k]) + x;
    MemberText(j, k, x);
    StringIsReadBack(k, ":" + v);
    ReadsBack(j.fields[k], x);
    MemberReads(Member(j, k) + x, Quoted(k) + (":" + v), k, v, j.fields[k], x);
  }

  lemma MembersStep(j: Json, keys: seq<string>, x: string)
    requires j.Obj? && keys != [] && forall k :: k in keys ==> k in j.fields
    ensures Members(j, keys) + x == "," + (Member(j, keys[0]) + (Members(j, keys[1..]) + x))
  {
    var first, rest := Member(j, keys[0]), Members(j, keys[1..]);
    assert (first + rest) + x == first + (rest + x);
  }

  lemma LastMemberReads(s: string, m: (string, Json), x: string)
    requires ReadMember(s) == Got(m, "}" + x)
    ensures ReadMembers(s) == Got([m], x)
  {
    assert ("}" + x)[0] == '}' && ("}" + x)[1..] == x;
  }

  lemma NextMemberReads(s: string, m: (string, Json), t: string, members: seq<(string, Json)>, x: string)
    requires ReadMember(s) == Got(m, "," + t) && ReadMembers(t) == Got(members, x)
    ensures ReadMembers(s) == Got([m] + members, x)
  {
    assert ("," + t)[0] == ',' && ("," + t)[1..] == t;
  }

  lemma {:induction false} MembersReadBack(j: Json, keys: seq<string>, x: string)
    requires j.Obj? && keys != [] && forall k :: k in keys ==> k in j.fields
    ensures ReadMembers(Member(j, keys[0]) + (Members(j, keys[1..]) + x)) == Got(Listed(j, keys), x)
    decreases j, 1, |keys|
  {
    var k, ks := keys[0], keys[1..];
    var rest := Members(j, ks) + x;
    MemberReadsBack(j, k, rest);
    if ks == [] {
      LastMemberReads(Member(j, k) + rest, (k, j.fields[k]), x);
      assert Listed(j, keys) == [(k, j.fields[k])];
    } else {
      MembersStep(j, ks, x);
      MembersReadBack(j, ks, x);
      NextMemberReads(Member(j, k) + rest, (k, j.fields[k]), Member(j, ks[0]) + (Members(j, ks[1..]) + x), Listed(j, ks), x);
    }
  }

  /**
   The order of section 3.2.3: read back from the text of any object, the names come out
   one after the other in the order of their UTF-16 code units.
   */
  lemma NamesAreInOrder(j: Json, x: string)
    requires j.Obj? && j.fields != map[]
    ensures var r := ReadMembers((Print(j) + x)[1..]);
            && r.Got? && |r.value| == |j.fields| && FromMembers(r.value) == j.fields
            && forall i, k :: 0 <= i < k < |r.value| ==>
                 Utf16.Precedes(Utf16.Encode(r.value[i].0), Utf16.Encode(r.value[k].0))
  {
    var keys := Utf16.Sorted(j.fields.Keys);
    ListedAll(j);
    TableText(j, x);
    MembersReadBack(j, keys, x);
    ListedAt(j, keys);
    Utf16.SortedIsStrict(j.fields.Keys);
    forall i, k | 0 <= i < k < |keys| ensures Utf16.Precedes(Utf16.Encode(keys[i]), Utf16.Encode(keys[k])) {
      Utf16.LexPrecedes(Utf16.Encode(keys[i]), Utf16.Encode(keys[k]));
    }
  }

  /** So no two values share a canonical text, whatever follows it. */
  lemma PrintDecode(a: Json, b: Json, x: string, y: string)
    requires Print(a) + x == Print(b) + y && Delimited(x) && Delimited(y)
    ensures a == b && x == y
  {
    ReadsBack(a, x);
    ReadsBack(b, y);
  }
}
